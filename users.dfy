/** User documents of the shop: creation, the profile update object built
    field by field, and the children array kept in the user document beside
    the `children` sub-collection. */
module Users {
  import opened Base
  import opened Store
  import Keyed

  /** The partial user data `createUser` spreads into the new document. */
  datatype UserData = UserData(uid: Option<string>, email: Option<string>, profile: Option<Profile>)

  /** The document `createUser` writes and returns: the caller's email and
      profile, with the id, an empty children list and zero counters forced. */
  function NewUserDoc(userId: string, data: UserData, now: nat): (u: User)
    ensures u.uid == userId && u.children == [] && u.totalOrders == 0 && u.activeSubscriptions == 0
    ensures u.email == data.email && u.createdAt == now && u.updatedAt == now
    ensures data.profile.Some? ==> u.profile == data.profile.value
  {
    User(userId, data.email, if data.profile.Some? then data.profile.value else Profile(None, None, None, None),
         [], 0, 0, now, now)
  }

  /** The uid the caller passes in the data is overridden by the document id. */
  lemma CreateUserIgnoresDataUid(userId: string, other: string, data: UserData, now: nat)
    ensures NewUserDoc(userId, data.(uid := Some(other)), now) == NewUserDoc(userId, data.(uid := None), now)
    ensures NewUserDoc(userId, data, now).uid == userId
  {
  }

  /** `createUser`: `setDoc` creates or overwrites the document. */
  method CreateUser(db: Db, userId: string, data: UserData, now: nat) returns (u: User)
    modifies db
    ensures u == NewUserDoc(userId, data, now)
    ensures db.users == old(db.users)[userId := u]
    ensures db.orders == old(db.orders) && db.batches == old(db.batches) && db.subscriptions == old(db.subscriptions)
    ensures db.childDocs == old(db.childDocs) && db.adminNotifications == old(db.adminNotifications)
  {
    u := NewUserDoc(userId, data, now);
    db.users := db.users[userId := u];
  }

  // ---------------------------------------------------------- profile update

  /** The profile fields a caller passes; `None` is `undefined`. */
  datatype ProfileUpdate = ProfileUpdate(
    firstName: Option<string>,
    lastName: Option<string>,
    phone: Option<string>,
    address: Option<Address>)

  /** The update object sent to `updateDoc`: `updatedAt` always, each profile
      field when it is written; a written address has all four fields. */
  datatype ProfileWrite = ProfileWrite(
    updatedAt: nat,
    firstName: Option<string>,
    lastName: Option<string>,
    phone: Option<string>,
    address: Option<Address>)

  /** The update object `updateUserProfile` builds, as a specification. */
  function ProfileWriteFor(updates: ProfileUpdate, now: nat): (w: ProfileWrite)
    ensures w.updatedAt == now
    ensures w.firstName == updates.firstName && w.lastName == updates.lastName && w.phone == updates.phone
    ensures w.address.Some? <==> updates.address.Some?
    ensures updates.address.Some? ==>
      var a := updates.address.value;
      && w.address.value.street == a.street && w.address.value.city == a.city
      && w.address.value.postalCode == a.postalCode
      && w.address.value.country == (if a.country != "" then a.country else "FR")
  {
    ProfileWrite(
      now, updates.firstName, updates.lastName, updates.phone,
      match updates.address
      case None => None
      case Some(a) => Some(a.(country := if a.country != "" then a.country else "FR")))
  }

  /** `updateUserProfile`'s builder: start from `updatedAt`, then add each
      defined field in turn. */
  method BuildProfileWrite(updates: ProfileUpdate, now: nat) returns (w: ProfileWrite)
    ensures w == ProfileWriteFor(updates, now)
  {
    w := ProfileWrite(now, None, None, None, None);
    if updates.firstName.Some? {
      w := w.(firstName := updates.firstName);
    }
    if updates.lastName.Some? {
      w := w.(lastName := updates.lastName);
    }
    if updates.phone.Some? {
      w := w.(phone := updates.phone);
    }
    if updates.address.Some? {
      var a := updates.address.value;
      w := w.(address := Some(Address(a.street, a.city, a.postalCode, if a.country != "" then a.country else "FR")));
    }
  }

  function Overwrite<T>(current: Option<T>, written: Option<T>): Option<T>
  {
    if written.Some? then written else current
  }

  /** `updateDoc` with the profile write: the written keys change, no other. */
  function ApplyProfileWrite(u: User, w: ProfileWrite): (r: User)
    ensures r.(profile := u.profile, updatedAt := u.updatedAt) == u
    ensures r.updatedAt == w.updatedAt
    ensures r.profile.firstName == (if w.firstName.Some? then w.firstName else u.profile.firstName)
    ensures r.profile.lastName == (if w.lastName.Some? then w.lastName else u.profile.lastName)
    ensures r.profile.phone == (if w.phone.Some? then w.phone else u.profile.phone)
    ensures r.profile.address == (if w.address.Some? then w.address else u.profile.address)
  {
    u.(updatedAt := w.updatedAt,
       profile := Profile(
         Overwrite(u.profile.firstName, w.firstName),
         Overwrite(u.profile.lastName, w.lastName),
         Overwrite(u.profile.phone, w.phone),
         Overwrite(u.profile.address, w.address)))
  }

  /** Sending the same profile update twice has the effect of sending it once. */
  lemma ProfileUpdateIdempotent(u: User, updates: ProfileUpdate, now: nat)
    ensures var w := ProfileWriteFor(updates, now);
      ApplyProfileWrite(ApplyProfileWrite(u, w), w) == ApplyProfileWrite(u, w)
  {
  }

  /** An update naming no field only refreshes `updatedAt`. */
  lemma EmptyProfileUpdate(u: User, now: nat)
    ensures ApplyProfileWrite(u, ProfileWriteFor(ProfileUpdate(None, None, None, None), now)) == u.(updatedAt := now)
  {
  }

  /** `updateUserProfile`: a missing user makes `updateDoc` throw. */
  method UpdateUserProfile(db: Db, userId: string, updates: ProfileUpdate, now: nat) returns (r: Outcome)
    modifies db
    ensures userId !in old(db.users) ==> r == Failed(NoDocument("smarteenUsers", userId)) && unchanged(db)
    ensures userId in old(db.users) ==>
      r == Done && db.users == old(db.users)[userId := ApplyProfileWrite(old(db.users)[userId], ProfileWriteFor(updates, now))]
    ensures db.orders == old(db.orders) && db.batches == old(db.batches) && db.subscriptions == old(db.subscriptions)
    ensures db.childDocs == old(db.childDocs) && db.adminNotifications == old(db.adminNotifications)
  {
    var w := BuildProfileWrite(updates, now);
    if userId !in db.users {
      return Failed(NoDocument("smarteenUsers", userId));
    }
    db.users := db.users[userId := ApplyProfileWrite(db.users[userId], w)];
    return Done;
  }

  // ---------------------------------------------------------------- children

  /** The child fields `addChild` receives. */
  datatype ChildData = ChildData(firstName: string, birthDate: Date, hasSmartteen: bool)

  /** A partial child; `id` may be among the fields. */
  datatype ChildUpdate = ChildUpdate(
    id: Option<string>,
    firstName: Option<string>,
    birthDate: Option<Date>,
    hasSmartteen: Option<bool>)

  function ChildKey(c: Child): string
  {
    c.id
  }

  /** `{...child, ...updates}`. */
  function MergeChild(c: Child, updates: ChildUpdate): (r: Child)
    ensures r.id == (if updates.id.Some? then updates.id.value else c.id)
    ensures r.firstName == (if updates.firstName.Some? then updates.firstName.value else c.firstName)
    ensures r.birthDate == (if updates.birthDate.Some? then updates.birthDate.value else c.birthDate)
    ensures r.hasSmartteen == (if updates.hasSmartteen.Some? then updates.hasSmartteen.value else c.hasSmartteen)
  {
    Child(
      if updates.id.Some? then updates.id.value else c.id,
      if updates.firstName.Some? then updates.firstName.value else c.firstName,
      if updates.birthDate.Some? then updates.birthDate.value else c.birthDate,
      if updates.hasSmartteen.Some? then updates.hasSmartteen.value else c.hasSmartteen)
  }

  /** The array after `addChild`: the new child, under its document id, at
      the end. */
  function AppendChild(children: seq<Child>, childDocId: string, data: ChildData): (r: seq<Child>)
    ensures |r| == |children| + 1 && r[..|children|] == children
    ensures r[|children|] == Child(childDocId, data.firstName, data.birthDate, data.hasSmartteen)
  {
    children + [Child(childDocId, data.firstName, data.birthDate, data.hasSmartteen)]
  }

  /** The array after `updateChild`: same length, only the children with
      the id merged. */
  function MergedChildren(children: seq<Child>, childId: string, updates: ChildUpdate): (r: seq<Child>)
    ensures |r| == |children|
    ensures forall i :: 0 <= i < |children| && children[i].id != childId ==> r[i] == children[i]
    ensures forall i :: 0 <= i < |children| && children[i].id == childId ==> r[i] == MergeChild(children[i], updates)
  {
    Keyed.Replace(children, ChildKey, childId, c => MergeChild(c, updates))
  }

  /** The array after `deleteChild`: every child with the id removed, the
      others kept in order. */
  function RemainingChildren(children: seq<Child>, childId: string): (r: seq<Child>)
    ensures forall i :: 0 <= i < |r| ==> r[i] in children && r[i].id != childId
    ensures forall i :: 0 <= i < |children| && children[i].id != childId ==> children[i] in r
    ensures |r| <= |children|
    ensures forall x :: multiset(r)[x] == if x.id != childId then multiset(children)[x] else 0
    ensures r == Keyed.Without(children, ChildKey, childId)
  {
    Keyed.Without(children, ChildKey, childId)
  }

  /** Deleting the child just added gives back the earlier array, when no
      earlier child had that id. */
  lemma DeleteUndoesAdd(children: seq<Child>, childDocId: string, data: ChildData)
    requires forall i :: 0 <= i < |children| ==> children[i].id != childDocId
    ensures RemainingChildren(AppendChild(children, childDocId, data), childDocId) == children
  {
    var added := Child(childDocId, data.firstName, data.birthDate, data.hasSmartteen);
    Keyed.WithoutAppend(children, [added], ChildKey, childDocId);
    Keyed.WithoutAbsent(children, ChildKey, childDocId);
    assert Keyed.Without([added], ChildKey, childDocId) == [];
  }

  /** Deleting a child twice is deleting it once. */
  lemma DeleteChildIdempotent(children: seq<Child>, childId: string)
    ensures RemainingChildren(RemainingChildren(children, childId), childId) == RemainingChildren(children, childId)
  {
    Keyed.WithoutIdempotent(children, ChildKey, childId);
  }

  /** `addChild`: the sub-collection document gets the child, a second
      generated id and `createdAt`; the user's array gains the child only if
      the user document exists. Returns the new document's id. */
  method AddChild(db: Db, userId: string, data: ChildData, now: nat, childDocId: string, innerId: string)
    returns (r: string)
    requires (userId, childDocId) !in db.childDocs
    modifies db
    ensures r == childDocId
    ensures db.childDocs == old(db.childDocs)[(userId, childDocId) :=
      ChildDoc(innerId, data.firstName, data.birthDate, data.hasSmartteen, now, None)]
    ensures userId !in old(db.users) ==> db.users == old(db.users)
    ensures userId in old(db.users) ==>
      db.users == old(db.users)[userId := old(db.users)[userId].(
        children := AppendChild(old(db.users)[userId].children, childDocId, data), updatedAt := now)]
    ensures db.orders == old(db.orders) && db.batches == old(db.batches) && db.subscriptions == old(db.subscriptions)
    ensures db.adminNotifications == old(db.adminNotifications)
  {
    db.childDocs := db.childDocs[(userId, childDocId) :=
      ChildDoc(innerId, data.firstName, data.birthDate, data.hasSmartteen, now, None)];
    if userId in db.users {
      var u := db.users[userId];
      db.users := db.users[userId := u.(children := AppendChild(u.children, childDocId, data), updatedAt := now)];
    }
    return childDocId;
  }

  /** The sub-collection document after `updateDoc({...updates, updatedAt})`. */
  function UpdatedChildDoc(d: ChildDoc, updates: ChildUpdate, now: nat): (r: ChildDoc)
    ensures r.updatedAt == Some(now) && r.createdAt == d.createdAt
    ensures r.firstName == (if updates.firstName.Some? then updates.firstName.value else d.firstName)
    ensures r.id == (if updates.id.Some? then updates.id.value else d.id)
    ensures r.birthDate == (if updates.birthDate.Some? then updates.birthDate.value else d.birthDate)
    ensures r.hasSmartteen == (if updates.hasSmartteen.Some? then updates.hasSmartteen.value else d.hasSmartteen)
  {
    d.(id := if updates.id.Some? then updates.id.value else d.id,
       firstName := if updates.firstName.Some? then updates.firstName.value else d.firstName,
       birthDate := if updates.birthDate.Some? then updates.birthDate.value else d.birthDate,
       hasSmartteen := if updates.hasSmartteen.Some? then updates.hasSmartteen.value else d.hasSmartteen,
       updatedAt := Some(now))
  }

  /** `updateChild`: a missing sub-collection document makes the first
      `updateDoc` throw before anything is written; the user's array is
      rewritten only if the user document exists. */
  method UpdateChild(db: Db, userId: string, childId: string, updates: ChildUpdate, now: nat) returns (r: Outcome)
    modifies db
    ensures (userId, childId) !in old(db.childDocs) ==>
      r == Failed(NoDocument("smarteenUsers/" + userId + "/children", childId)) && unchanged(db)
    ensures (userId, childId) in old(db.childDocs) ==>
      && r == Done
      && db.childDocs == old(db.childDocs)[(userId, childId) := UpdatedChildDoc(old(db.childDocs)[(userId, childId)], updates, now)]
      && db.users == (if userId in old(db.users)
           then old(db.users)[userId := old(db.users)[userId].(
                  children := MergedChildren(old(db.users)[userId].children, childId, updates), updatedAt := now)]
           else old(db.users))
    ensures db.orders == old(db.orders) && db.batches == old(db.batches) && db.subscriptions == old(db.subscriptions)
    ensures db.adminNotifications == old(db.adminNotifications)
  {
    if (userId, childId) !in db.childDocs {
      return Failed(NoDocument("smarteenUsers/" + userId + "/children", childId));
    }
    db.childDocs := db.childDocs[(userId, childId) := UpdatedChildDoc(db.childDocs[(userId, childId)], updates, now)];
    if userId in db.users {
      var u := db.users[userId];
      db.users := db.users[userId := u.(children := MergedChildren(u.children, childId, updates), updatedAt := now)];
    }
    return Done;
  }

  /** `deleteChild`: `deleteDoc` succeeds whether or not the document
      exists; the user's array is rewritten only if the user exists. */
  method DeleteChild(db: Db, userId: string, childId: string, now: nat)
    modifies db
    ensures db.childDocs == old(db.childDocs) - {(userId, childId)}
    ensures db.users == (if userId in old(db.users)
      then old(db.users)[userId := old(db.users)[userId].(
             children := RemainingChildren(old(db.users)[userId].children, childId), updatedAt := now)]
      else old(db.users))
    ensures db.orders == old(db.orders) && db.batches == old(db.batches) && db.subscriptions == old(db.subscriptions)
    ensures db.adminNotifications == old(db.adminNotifications)
  {
    db.childDocs := db.childDocs - {(userId, childId)};
    if userId in db.users {
      var u := db.users[userId];
      db.users := db.users[userId := u.(children := RemainingChildren(u.children, childId), updatedAt := now)];
    }
  }
}
