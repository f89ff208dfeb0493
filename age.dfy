/** The birthday-aware age shown on the children page. */
module Age {
  import opened Base

  /** This year's birthday is still to come: today's (month, day) is before
      the birth (month, day). */
  predicate BirthdayAhead(today: Date, birth: Date)
  {
    today.month < birth.month || (today.month == birth.month && today.day < birth.day)
  }

  /** The age `calculateAge` computes: the difference of the years, less one
      while this year's birthday is still ahead. */
  function AgeOn(today: Date, birth: Date): (age: int)
    ensures age == today.year - birth.year || age == today.year - birth.year - 1
    ensures age == today.year - birth.year - 1 <==> BirthdayAhead(today, birth)
    ensures today.month == birth.month && today.day == birth.day ==> age == today.year - birth.year
    ensures !DateBefore(today, birth) ==> age >= 0
  {
    if BirthdayAhead(today, birth) then today.year - birth.year - 1
    else today.year - birth.year
  }

  /** The birth date moved `years` years later, same month and day. */
  function Anniversary(birth: Date, years: int): Date
  {
    Date(birth.year + years, birth.month, birth.day)
  }

  /** The age is the number of completed years: the `age`-th anniversary is
      not after today and the next one is. */
  lemma AgeCountsCompletedYears(today: Date, birth: Date)
    ensures var age := AgeOn(today, birth);
      !DateBefore(today, Anniversary(birth, age)) && DateBefore(today, Anniversary(birth, age + 1))
  {
  }

  /** Only one count of years has that property. */
  lemma CompletedYearsUnique(today: Date, birth: Date, n: int)
    requires !DateBefore(today, Anniversary(birth, n)) && DateBefore(today, Anniversary(birth, n + 1))
    ensures n == AgeOn(today, birth)
  {
  }

  /** `calculateAge`: take the difference of the years, then decrement it
      when the birthday has not come yet this year. */
  method CalculateAge(today: Date, birth: Date) returns (age: int)
    ensures age == AgeOn(today, birth)
  {
    age := today.year - birth.year;
    var monthDiff := today.month - birth.month;
    if monthDiff < 0 || (monthDiff == 0 && today.day < birth.day) {
      age := age - 1;
    }
  }
}
