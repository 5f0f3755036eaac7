/**
 * The document-store service (`firestoreService`): the `playdates` and
 * `users` collections held as in-memory maps from document id to record.
 *
 * Stored records carry no `id` of their own: reads set the id from the
 * document key, as `{ id: docSnap.id, ...data }` does for such documents. Every write stamps
 * `updatedAt` with the clock reading `now`, which the caller supplies.
 */
module Service {
  import opened Wrappers
  import opened Domain
  import opened Participation

  type PlaydateStore = map<string, Playdate>
  type UserStore = map<string, User>

  /** Why a service call throws. */
  datatype ServiceError =
    | PlaydateNotFound   // 'Playdate not found', thrown by joinPlaydate
    | DocumentNotFound   // the store refuses to update a document that does not exist

  // ---------------------------------------------------------------------
  // playdates.get / create / update

  /** A stored playdate as the service returns it: its id is its document key. */
  function Read(store: PlaydateStore, id: string): Playdate
    requires id in store
  {
    store[id].(id := id)
  }

  /** `playdates.get`: the record under `id`, or null. */
  function GetPlaydate(store: PlaydateStore, id: string): (r: Option<Playdate>)
    ensures r.None? <==> id !in store
    ensures r.Some? ==> r.value.id == id && r.value == Read(store, id)
  {
    if id in store then Some(Read(store, id)) else None
  }

  /**
   * `playdates.create`: stores `data` under an id no document has yet, with
   * both timestamps set to `now`. The `id`, `createdAt` and `updatedAt` of
   * `data` are ignored (the source's `Omit<Playdate, ...>`). The store
   * chooses the id; here it is a run of 'x' longer than every existing key.
   */
  method CreatePlaydate(store: PlaydateStore, data: Playdate, now: Time)
    returns (store': PlaydateStore, id: string)
    ensures id !in store
    ensures store' == store[id := data.(id := id, createdAt := now, updatedAt := now)]
  {
    var longest: nat := 0;
    var rest := store.Keys;
    while rest != {}
      invariant rest <= store.Keys
      invariant forall k :: k in store && k !in rest ==> |k| <= longest
      decreases rest
    {
      var k :| k in rest;
      if |k| > longest {
        longest := |k|;
      }
      rest := rest - {k};
    }
    id := seq(longest + 1, _ => 'x');
    store' := store[id := data.(id := id, createdAt := now, updatedAt := now)];
  }

  /** `Partial<Playdate>`: the fields an update supplies (`None` = not supplied). */
  datatype PlaydatePatch = PlaydatePatch(
    title: Option<string>,
    description: Option<string>,
    organizerId: Option<string>,
    organizer: Option<User>,
    location: Option<Location>,
    date: Option<Time>,
    startTime: Option<string>,
    endTime: Option<string>,
    participants: Option<seq<Participant>>,
    maxParticipants: Option<Parsed>,
    ageRange: Option<AgeRange>,
    createdAt: Option<Time>)

  const NoChange := PlaydatePatch(None, None, None, None, None, None, None, None, None, None, None, None)

  /** `{ ...p, ...patch, updatedAt: now }` */
  function Merge(p: Playdate, patch: PlaydatePatch, now: Time): Playdate {
    p.(title := patch.title.OrDefault(p.title),
       description := patch.description.OrDefault(p.description),
       organizerId := patch.organizerId.OrDefault(p.organizerId),
       organizer := patch.organizer.OrDefault(p.organizer),
       location := patch.location.OrDefault(p.location),
       date := patch.date.OrDefault(p.date),
       startTime := patch.startTime.OrDefault(p.startTime),
       endTime := patch.endTime.OrDefault(p.endTime),
       participants := patch.participants.OrDefault(p.participants),
       maxParticipants := if patch.maxParticipants.Some? then patch.maxParticipants else p.maxParticipants,
       ageRange := patch.ageRange.OrDefault(p.ageRange),
       createdAt := patch.createdAt.OrDefault(p.createdAt),
       updatedAt := now)
  }

  /**
   * `playdates.update`: overwrites the supplied fields and `updatedAt`;
   * fails when no document has that id.
   */
  function UpdatePlaydate(store: PlaydateStore, id: string, patch: PlaydatePatch, now: Time)
    : (r: Result<PlaydateStore, ServiceError>)
    ensures id !in store <==> r == Failure(DocumentNotFound)
    ensures r.Success? ==> r.value.Keys == store.Keys
    ensures r.Success? ==> forall k :: k in store && k != id ==> r.value[k] == store[k]
    ensures r.Success? ==>
      var old_, new_ := store[id], r.value[id];
      && new_.updatedAt == now
      && new_.id == old_.id
      && (patch.title.None? ==> new_.title == old_.title)
      && (patch.title.Some? ==> new_.title == patch.title.value)
      && (patch.description.None? ==> new_.description == old_.description)
      && (patch.description.Some? ==> new_.description == patch.description.value)
      && (patch.organizerId.None? ==> new_.organizerId == old_.organizerId)
      && (patch.organizerId.Some? ==> new_.organizerId == patch.organizerId.value)
      && (patch.organizer.None? ==> new_.organizer == old_.organizer)
      && (patch.organizer.Some? ==> new_.organizer == patch.organizer.value)
      && (patch.location.None? ==> new_.location == old_.location)
      && (patch.location.Some? ==> new_.location == patch.location.value)
      && (patch.date.None? ==> new_.date == old_.date)
      && (patch.date.Some? ==> new_.date == patch.date.value)
      && (patch.startTime.None? ==> new_.startTime == old_.startTime)
      && (patch.startTime.Some? ==> new_.startTime == patch.startTime.value)
      && (patch.endTime.None? ==> new_.endTime == old_.endTime)
      && (patch.endTime.Some? ==> new_.endTime == patch.endTime.value)
      && (patch.participants.None? ==> new_.participants == old_.participants)
      && (patch.participants.Some? ==> new_.participants == patch.participants.value)
      && (patch.maxParticipants.None? ==> new_.maxParticipants == old_.maxParticipants)
      && (patch.maxParticipants.Some? ==> new_.maxParticipants == patch.maxParticipants)
      && (patch.ageRange.None? ==> new_.ageRange == old_.ageRange)
      && (patch.ageRange.Some? ==> new_.ageRange == patch.ageRange.value)
      && (patch.createdAt.None? ==> new_.createdAt == old_.createdAt)
      && (patch.createdAt.Some? ==> new_.createdAt == patch.createdAt.value)
  {
    if id in store then Success(store[id := Merge(store[id], patch, now)])
    else Failure(DocumentNotFound)
  }

  // ---------------------------------------------------------------------
  // playdates.joinPlaydate

  /** The entry `joinPlaydate` appends: the user snapshot is left empty. */
  function NewParticipant(userId: string, childrenCount: int, now: Time): Participant {
    Participant(userId, None, childrenCount, now)
  }

  /**
   * `playdates.joinPlaydate`: reads the playdate, appends one participant to
   * its list and writes the whole list back through `update`. No check for
   * an existing entry of the same user and none against `maxParticipants`.
   */
  function JoinPlaydate(store: PlaydateStore, id: string, userId: string, childrenCount: int, now: Time)
    : (r: Result<PlaydateStore, ServiceError>)
    ensures id !in store <==> r == Failure(PlaydateNotFound)
    ensures r.Success? ==> r.value.Keys == store.Keys
    ensures r.Success? ==> forall k :: k in store && k != id ==> r.value[k] == store[k]
    ensures r.Success? ==>
      r.value[id] == store[id].(participants := store[id].participants + [NewParticipant(userId, childrenCount, now)],
                                updatedAt := now)
  {
    match GetPlaydate(store, id)
    case None => Failure(PlaydateNotFound)
    case Some(p) =>
      var participants := p.participants + [NewParticipant(userId, childrenCount, now)];
      UpdatePlaydate(store, id, NoChange.(participants := Some(participants)), now)
  }

  /**
   * A successful join grows the list by exactly one entry, at the end,
   * carrying the given user and count; earlier entries keep their positions
   * and contents.
   */
  lemma JoinAppendsOne(store: PlaydateStore, id: string, userId: string, childrenCount: int, now: Time)
    requires id in store
    ensures var r := JoinPlaydate(store, id, userId, childrenCount, now);
      var before, after := store[id].participants, r.value[id].participants;
      && r.Success?
      && |after| == |before| + 1
      && after[..|before|] == before
      && after[|before|].userId == userId
      && after[|before|].childrenCount == childrenCount
  {
  }

  /** The first join of a playdate with no participants yields a one-entry list. */
  lemma JoinFirst(store: PlaydateStore, id: string, userId: string, childrenCount: int, now: Time)
    requires id in store && store[id].participants == []
    ensures JoinPlaydate(store, id, userId, childrenCount, now).Success?
    ensures JoinPlaydate(store, id, userId, childrenCount, now).value[id].participants
         == [Participant(userId, None, childrenCount, now)]
  {
  }

  /**
   * The service itself does not refuse a second join by the same user: two
   * joins leave two entries for that user at the end of the list.
   */
  lemma JoinTwiceKeepsBoth(store: PlaydateStore, id: string, userId: string, n1: int, n2: int, t1: Time, t2: Time)
    requires id in store
    ensures var r1 := JoinPlaydate(store, id, userId, n1, t1);
      && r1.Success?
      && var r2 := JoinPlaydate(r1.value, id, userId, n2, t2);
      && r2.Success?
      && r2.value[id].participants
         == store[id].participants + [NewParticipant(userId, n1, t1), NewParticipant(userId, n2, t2)]
      && |r2.value[id].participants| == |store[id].participants| + 2
  {
  }

  /** A successful join adds exactly its count to the children total and one family. */
  lemma JoinRaisesTotals(store: PlaydateStore, id: string, userId: string, childrenCount: int, now: Time)
    requires id in store
    ensures var r := JoinPlaydate(store, id, userId, childrenCount, now);
      && r.Success?
      && ChildrenSum(r.value[id].participants) == ChildrenSum(store[id].participants) + childrenCount
      && |r.value[id].participants| == |store[id].participants| + 1
  {
    ChildrenSumAppend(store[id].participants, NewParticipant(userId, childrenCount, now));
  }

  /** Creating a playdate and reading it back yields the supplied data under the new id. */
  method CreateThenGet(store: PlaydateStore, data: Playdate, now: Time)
    returns (id: string, read: Option<Playdate>)
    ensures id !in store
    ensures read == Some(data.(id := id, createdAt := now, updatedAt := now))
  {
    var store';
    store', id := CreatePlaydate(store, data, now);
    read := GetPlaydate(store', id);
  }

  // ---------------------------------------------------------------------
  // playdates.getTodaysPlaydates

  predicate InWindow(p: Playdate, dayStart: Time, nextDayStart: Time) {
    dayStart <= p.date < nextDayStart
  }

  ghost predicate SortedByDate(s: seq<Playdate>) {
    forall i, j :: 0 <= i < j < |s| ==> s[i].date <= s[j].date
  }

  ghost function IdsOf(s: seq<Playdate>): set<string> {
    set i | 0 <= i < |s| :: s[i].id
  }

  /**
   * What the day query answers: every stored playdate whose date lies in
   * `[dayStart, nextDayStart)`, each once and as `get` would return it, in
   * ascending order of date.
   */
  ghost predicate IsDayListing(store: PlaydateStore, dayStart: Time, nextDayStart: Time, r: seq<Playdate>) {
    && SortedByDate(r)
    && (forall i :: 0 <= i < |r| ==> r[i].id in store && r[i] == Read(store, r[i].id))
    && (forall i :: 0 <= i < |r| ==> InWindow(r[i], dayStart, nextDayStart))
    && (forall i, j :: 0 <= i < j < |r| ==> r[i].id != r[j].id)
    && (forall k :: k in store && InWindow(Read(store, k), dayStart, nextDayStart) ==> k in IdsOf(r))
  }

  /** Number of leading entries dated no later than `d`: where `d` is inserted, after its equals. */
  function InsertPosition(s: seq<Playdate>, d: Time): (k: nat)
    ensures k <= |s|
    ensures forall i :: 0 <= i < k ==> s[i].date <= d
    ensures k < |s| ==> s[k].date > d
  {
    if |s| == 0 || s[0].date > d then 0 else 1 + InsertPosition(s[1..], d)
  }

  /** Inserts `p` into a date-sorted list, keeping it sorted. */
  function InsertByDate(s: seq<Playdate>, p: Playdate): (r: seq<Playdate>)
    requires SortedByDate(s)
    ensures SortedByDate(r)
    ensures |r| == |s| + 1
    ensures forall x :: x in r <==> x in s || x == p
    ensures multiset(r) == multiset(s) + multiset{p}
  {
    var k := InsertPosition(s, p.date);
    var r := s[..k] + [p] + s[k..];
    InsertSorted(s, p, k, r);
    assert forall x :: x in r <==> x in s[..k] || x == p || x in s[k..];
    assert s == s[..k] + s[k..];
    r
  }

  lemma InsertSorted(s: seq<Playdate>, p: Playdate, k: nat, r: seq<Playdate>)
    requires SortedByDate(s)
    requires k <= |s|
    requires forall i :: 0 <= i < k ==> s[i].date <= p.date
    requires k < |s| ==> s[k].date > p.date
    requires r == s[..k] + [p] + s[k..]
    ensures SortedByDate(r)
  {
  }

  /** Inserting a playdate whose id is new keeps the ids of a list pairwise distinct. */
  lemma {:induction false} InsertKeepsIdsDistinct(s: seq<Playdate>, p: Playdate)
    requires SortedByDate(s)
    requires forall i, j :: 0 <= i < j < |s| ==> s[i].id != s[j].id
    requires forall i :: 0 <= i < |s| ==> s[i].id != p.id
    ensures var r := InsertByDate(s, p);
      forall i, j :: 0 <= i < j < |r| ==> r[i].id != r[j].id
  {
  }

  /**
   * `playdates.getTodaysPlaydates` for the day `[dayStart, nextDayStart)`:
   * the query filters on the date and orders ascending by it. The order of
   * playdates sharing one date is not modelled.
   */
  method GetTodaysPlaydates(store: PlaydateStore, dayStart: Time, nextDayStart: Time)
    returns (r: seq<Playdate>)
    ensures IsDayListing(store, dayStart, nextDayStart, r)
  {
    r := [];
    var rest := store.Keys;
    while rest != {}
      invariant rest <= store.Keys
      invariant SortedByDate(r)
      invariant forall x :: x in r ==> x.id in store && x.id !in rest && x == Read(store, x.id)
      invariant forall x :: x in r ==> InWindow(x, dayStart, nextDayStart)
      invariant forall i, j :: 0 <= i < j < |r| ==> r[i].id != r[j].id
      invariant forall k :: k in store && k !in rest && InWindow(Read(store, k), dayStart, nextDayStart)
                  ==> Read(store, k) in r
      decreases rest
    {
      var k :| k in rest;
      var p := Read(store, k);
      if InWindow(p, dayStart, nextDayStart) {
        assert forall i :: 0 <= i < |r| ==> r[i] in r;
        InsertKeepsIdsDistinct(r, p);
        r := InsertByDate(r, p);
      }
      rest := rest - {k};
    }
    assert forall i :: 0 <= i < |r| ==> r[i] in r;
    forall k | k in store && InWindow(Read(store, k), dayStart, nextDayStart)
      ensures k in IdsOf(r)
    {
      var i :| 0 <= i < |r| && r[i] == Read(store, k);
    }
  }

  // ---------------------------------------------------------------------
  // users.get / update / create

  /** `users.get`: the user under `uid` with its id set from the key, or null. */
  function GetUser(users: UserStore, uid: string): (r: Option<User>)
    ensures r.None? <==> uid !in users
    ensures r.Some? ==> r.value == users[uid].(id := uid)
  {
    if uid in users then Some(users[uid].(id := uid)) else None
  }

  /** `Partial<User>`: the profile fields a write supplies. */
  datatype UserPatch = UserPatch(
    email: Option<string>,
    name: Option<string>,
    phoneNumber: Option<string>,
    children: Option<seq<Child>>)

  function MergeUser(u: User, patch: UserPatch, now: Time): User {
    u.(email := patch.email.OrDefault(u.email),
       name := patch.name.OrDefault(u.name),
       phoneNumber := if patch.phoneNumber.Some? then patch.phoneNumber else u.phoneNumber,
       children := patch.children.OrDefault(u.children),
       updatedAt := now)
  }

  /**
   * `users.update`: overwrites the supplied fields and `updatedAt`; fails when
   * no document has that id.
   */
  function UpdateUser(users: UserStore, uid: string, patch: UserPatch, now: Time)
    : (r: Result<UserStore, ServiceError>)
    ensures uid !in users <==> r == Failure(DocumentNotFound)
    ensures r.Success? ==> r.value.Keys == users.Keys
    ensures r.Success? ==> forall k :: k in users && k != uid ==> r.value[k] == users[k]
    ensures r.Success? ==>
      var old_, new_ := users[uid], r.value[uid];
      && new_.id == old_.id && new_.createdAt == old_.createdAt && new_.updatedAt == now
      && new_.email == (if patch.email.Some? then patch.email.value else old_.email)
      && new_.name == (if patch.name.Some? then patch.name.value else old_.name)
      && new_.phoneNumber == (if patch.phoneNumber.Some? then patch.phoneNumber else old_.phoneNumber)
      && new_.children == (if patch.children.Some? then patch.children.value else old_.children)
  {
    if uid in users then Success(users[uid := MergeUser(users[uid], patch, now)])
    else Failure(DocumentNotFound)
  }

  /**
   * `users.create` as written: it goes through the same document update as
   * `users.update`, which refuses a document that does not exist yet.
   */
  function CreateUserAsWritten(users: UserStore, uid: string, patch: UserPatch, now: Time)
    : (r: Result<UserStore, ServiceError>)
    ensures uid !in users <==> r == Failure(DocumentNotFound)
    ensures r.Success? ==> uid in r.value && r.value[uid].createdAt == now && r.value[uid].updatedAt == now
  {
    if uid in users then Success(users[uid := MergeUser(users[uid], patch, now).(createdAt := now)])
    else Failure(DocumentNotFound)
  }

  /** Creating a user that is not stored yet always fails as written. */
  lemma CreateUserAsWrittenNeverCreates(users: UserStore, uid: string, patch: UserPatch, now: Time)
    requires uid !in users
    ensures CreateUserAsWritten(users, uid, patch, now).Failure?
    ensures GetUser(users, uid).None?
  {
  }

  /** The record a newly created user document holds; fields not supplied start empty. */
  function BlankUser(uid: string, now: Time): User {
    User(uid, "", "", None, [], now, now)
  }

  /**
   * `users.create` as intended: writes the document whether or not it exists
   * (a set-with-merge), stamping both timestamps.
   */
  function CreateUser(users: UserStore, uid: string, patch: UserPatch, now: Time): (r: UserStore)
    ensures r.Keys == users.Keys + {uid}
    ensures forall k :: k in users && k != uid ==> r[k] == users[k]
    ensures GetUser(r, uid).Some?
    ensures r[uid].createdAt == now && r[uid].updatedAt == now
    ensures patch.name.Some? ==> r[uid].name == patch.name.value
    ensures patch.email.Some? ==> r[uid].email == patch.email.value
    ensures patch.children.Some? ==> r[uid].children == patch.children.value
    ensures patch.phoneNumber.Some? ==> r[uid].phoneNumber == patch.phoneNumber
  {
    var base := if uid in users then users[uid] else BlankUser(uid, now);
    users[uid := MergeUser(base, patch, now).(createdAt := now)]
  }

  /** After the intended create, a user update of the same id succeeds. */
  lemma CreateUserThenUpdate(users: UserStore, uid: string, patch: UserPatch, later: UserPatch, now: Time, t: Time)
    ensures UpdateUser(CreateUser(users, uid, patch, now), uid, later, t).Success?
  {
  }

  /** A successful profile write is what the next read returns, under the same id. */
  lemma UpdateUserThenGet(users: UserStore, uid: string, patch: UserPatch, now: Time)
    requires uid in users
    ensures UpdateUser(users, uid, patch, now).Success?
    ensures var got := GetUser(UpdateUser(users, uid, patch, now).value, uid);
      && got.Some? && got.value.id == uid && got.value.updatedAt == now
      && got.value.name == (if patch.name.Some? then patch.name.value else users[uid].name)
      && got.value.children == (if patch.children.Some? then patch.children.value else users[uid].children)
      && got.value.email == (if patch.email.Some? then patch.email.value else users[uid].email)
      && got.value.phoneNumber == (if patch.phoneNumber.Some? then patch.phoneNumber else users[uid].phoneNumber)
  {
  }
}
