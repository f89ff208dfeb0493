/** Lists of records identified by a string id, and the two list transforms
    the cart, the toast list and a user's children array share: drop every
    record with an id (`filter(x => x.id !== id)`) and rewrite every record
    with an id (`map(x => x.id === id ? f(x) : x)`). */
module Keyed {

  /** `s.filter(x => key(x) !== id)`: every record under `id` goes, each
      other record stays as often as it occurs; a single record is kept or
      dropped, and with `WithoutAppend` that fixes the order of the rest. */
  function Without<T(!new)>(s: seq<T>, key: T -> string, id: string): (r: seq<T>)
    ensures |r| <= |s|
    ensures forall i :: 0 <= i < |r| ==> r[i] in s && key(r[i]) != id
    ensures forall i :: 0 <= i < |s| && key(s[i]) != id ==> s[i] in r
    ensures forall x :: multiset(r)[x] == if key(x) != id then multiset(s)[x] else 0
    ensures |s| == 1 ==> r == (if key(s[0]) != id then s else [])
  {
    if s == [] then []
    else
      assert s == [s[0]] + s[1..];
      if key(s[0]) != id then [s[0]] + Without(s[1..], key, id)
      else Without(s[1..], key, id)
  }

  /** Filtering a concatenation filters each part, so the kept records stay
      in their order. */
  lemma {:induction false} WithoutAppend<T(!new)>(s: seq<T>, t: seq<T>, key: T -> string, id: string)
    ensures Without(s + t, key, id) == Without(s, key, id) + Without(t, key, id)
  {
    if s == [] {
      assert s + t == t;
    } else {
      assert (s + t)[0] == s[0];
      assert (s + t)[1..] == s[1..] + t;
      WithoutAppend(s[1..], t, key, id);
    }
  }

  /** With no record under `id`, nothing is removed. */
  lemma {:induction false} WithoutAbsent<T(!new)>(s: seq<T>, key: T -> string, id: string)
    requires forall i :: 0 <= i < |s| ==> key(s[i]) != id
    ensures Without(s, key, id) == s
  {
    if s != [] {
      WithoutAbsent(s[1..], key, id);
      assert [s[0]] + s[1..] == s;
    }
  }

  /** Removing twice removes nothing more. */
  lemma WithoutIdempotent<T(!new)>(s: seq<T>, key: T -> string, id: string)
    ensures Without(Without(s, key, id), key, id) == Without(s, key, id)
  {
    WithoutAbsent(Without(s, key, id), key, id);
  }

  /** `s.map(x => key(x) === id ? f(x) : x)`. */
  function Replace<T>(s: seq<T>, key: T -> string, id: string, f: T -> T): (r: seq<T>)
    ensures |r| == |s|
    ensures forall i :: 0 <= i < |s| ==> r[i] == if key(s[i]) == id then f(s[i]) else s[i]
  {
    if s == [] then []
    else [if key(s[0]) == id then f(s[0]) else s[0]] + Replace(s[1..], key, id, f)
  }

  /** With no record under `id`, nothing is rewritten. */
  lemma ReplaceAbsent<T>(s: seq<T>, key: T -> string, id: string, f: T -> T)
    requires forall i :: 0 <= i < |s| ==> key(s[i]) != id
    ensures Replace(s, key, id, f) == s
  {
    var r := Replace(s, key, id, f);
    assert |r| == |s|;
    forall i | 0 <= i < |s| ensures r[i] == s[i] {
    }
  }
}
