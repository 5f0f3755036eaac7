/**
 * The playdate detail screen: the join handler, the derived statistics, the
 * viewer's role and the per-participant rows.
 */
module Detail {
  import opened Wrappers
  import opened Domain
  import opened Participation
  import opened Service

  // ---------------------------------------------------------------------
  // handleJoin

  datatype JoinOutcome =
    | Skipped         // no signed-in user or no playdate loaded: nothing happens
    | AlreadyJoined   // the loaded list already has the user: warning, no service call
    | JoinFailed      // the service threw
    | Joined          // the service appended the user

  datatype JoinResult = JoinResult(outcome: JoinOutcome, store: PlaydateStore, alert: Option<Alert>)

  const AlreadyJoinedAlert := Alert("Huomio", "Olet jo liittynyt tähän leikkiin")
  const JoinedAlert := Alert("Mahtavaa!", "Olet nyt mukana leikissä")
  const JoinFailedAlert := Alert("Virhe", "Leikkiin liittyminen epäonnistui")

  /** Children each join through this screen brings. */
  const ChildrenPerJoin := 1

  /**
   * `handleJoin`: `loaded` is the playdate the screen currently shows (it
   * may be stale), `playdateId` the id the screen was opened with. The
   * duplicate check runs against the loaded copy; the service is then asked
   * to append the user with one child.
   */
  function HandleJoin(user: Option<AuthUser>, playdateId: string, loaded: Option<Playdate>,
                      store: PlaydateStore, now: Time): (r: JoinResult)
    ensures (user.None? || loaded.None?) <==> r.outcome == Skipped
    ensures r.outcome == Skipped ==> r.store == store && r.alert.None?
    ensures r.outcome == AlreadyJoined <==>
              user.Some? && loaded.Some? && HasEntryFor(loaded.value.participants, user.value.uid)
    ensures r.outcome == AlreadyJoined ==> r.store == store && r.alert == Some(AlreadyJoinedAlert)
    ensures r.outcome == JoinFailed <==>
              user.Some? && loaded.Some? && !HasEntryFor(loaded.value.participants, user.value.uid)
              && playdateId !in store
    ensures r.outcome == JoinFailed ==> r.store == store && r.alert == Some(JoinFailedAlert)
    ensures r.outcome == Joined ==>
              && playdateId in store && r.store.Keys == store.Keys
              && r.store[playdateId].participants
                 == store[playdateId].participants + [Participant(user.value.uid, None, 1, now)]
              && (forall k :: k in store && k != playdateId ==> r.store[k] == store[k])
              && r.alert == Some(JoinedAlert)
    ensures r.outcome != Joined ==> r.store == store
  {
    if user.None? || loaded.None? then JoinResult(Skipped, store, None)
    else if SomeJoined(loaded.value.participants, user.value.uid) then
      JoinResult(AlreadyJoined, store, Some(AlreadyJoinedAlert))
    else
      match JoinPlaydate(store, playdateId, user.value.uid, ChildrenPerJoin, now)
      case Failure(_) => JoinResult(JoinFailed, store, Some(JoinFailedAlert))
      case Success(s) => JoinResult(Joined, s, Some(JoinedAlert))
  }

  /**
   * After a successful join the screen reloads the playdate; a second tap on
   * join is then refused as a duplicate and leaves the store as it is.
   */
  lemma JoinThenRejoin(user: AuthUser, playdateId: string, loaded: Playdate,
                       store: PlaydateStore, now: Time, later: Time)
    requires HandleJoin(Some(user), playdateId, Some(loaded), store, now).outcome == Joined
    ensures var s := HandleJoin(Some(user), playdateId, Some(loaded), store, now).store;
      var reloaded := GetPlaydate(s, playdateId);
      && reloaded.Some?
      && HasJoined(Some(user), reloaded.value)
      && HandleJoin(Some(user), playdateId, reloaded, s, later) == JoinResult(AlreadyJoined, s, Some(AlreadyJoinedAlert))
  {
    var s := HandleJoin(Some(user), playdateId, Some(loaded), store, now).store;
    var ps := s[playdateId].participants;
    assert ps[|ps| - 1].userId == user.uid;
  }

  // ---------------------------------------------------------------------
  // statistics

  /**
   * The statistics block: the family count is the length of the list and the
   * children total is the `reduce` over it, starting from 0.
   */
  method ParticipantStats(p: Playdate) returns (families: nat, children: int)
    ensures families == |p.participants|
    ensures children == ChildrenSum(p.participants)
  {
    var ps := p.participants;
    children := 0;
    var i := 0;
    while i < |ps|
      invariant 0 <= i <= |ps|
      invariant children == ChildrenSum(ps[..i])
    {
      ChildrenSumAppend(ps[..i], ps[i]);
      assert ps[..i + 1] == ps[..i] + [ps[i]];
      children := children + ps[i].childrenCount;
      i := i + 1;
    }
    assert ps[..i] == ps;
    families := |ps|;
  }

  // ---------------------------------------------------------------------
  // role and action area

  /** `user?.uid === playdate.organizerId`; false with nobody signed in. */
  predicate IsOrganizer(user: Option<AuthUser>, p: Playdate) {
    user.Some? && user.value.uid == p.organizerId
  }

  /** `participants.some(p => p.userId === user?.uid)`; false with nobody signed in. */
  predicate HasJoined(user: Option<AuthUser>, p: Playdate) {
    user.Some? && SomeJoined(p.participants, user.value.uid)
  }

  /** Which of the three action-area blocks are rendered. */
  datatype ActionArea = ActionArea(joinButton: bool, joinedCard: bool, organizerCard: bool)

  /** How the viewer relates to the playdate, the organizer taking precedence. */
  datatype Role = Organizer | Member | Guest

  function RoleOf(user: Option<AuthUser>, p: Playdate): Role {
    if IsOrganizer(user, p) then Organizer
    else if HasJoined(user, p) then Member
    else Guest
  }

  /** The action area: each block has its own render condition. */
  function Actions(user: Option<AuthUser>, p: Playdate): (a: ActionArea)
    ensures (a.joinButton && !a.joinedCard && !a.organizerCard)
         || (!a.joinButton && a.joinedCard && !a.organizerCard)
         || (!a.joinButton && !a.joinedCard && a.organizerCard)
    ensures a.joinButton <==> RoleOf(user, p) == Guest
    ensures a.joinedCard <==> RoleOf(user, p) == Member
    ensures a.organizerCard <==> RoleOf(user, p) == Organizer
  {
    var isOrganizer := IsOrganizer(user, p);
    var hasJoined := HasJoined(user, p);
    ActionArea(!isOrganizer && !hasJoined, hasJoined && !isOrganizer, isOrganizer)
  }

  /** An organizer who is also in the participant list still sees the organizer card. */
  lemma OrganizerWins(user: AuthUser, p: Playdate)
    requires user.uid == p.organizerId
    requires HasEntryFor(p.participants, user.uid)
    ensures Actions(Some(user), p) == ActionArea(false, false, true)
  {
  }

  /** The join button is offered exactly when a join by this viewer would not be a duplicate and they do not organize. */
  lemma JoinButtonMeansNotJoined(user: AuthUser, p: Playdate)
    ensures Actions(Some(user), p).joinButton <==>
              user.uid != p.organizerId && forall i :: 0 <= i < |p.participants| ==> p.participants[i].userId != user.uid
  {
  }

  // ---------------------------------------------------------------------
  // participant rows

  /** One rendered entry of the participant list. */
  datatype ParticipantRow = ParticipantRow(initial: string, name: string, count: int, countLabel: string, organizerBadge: bool)

  const UnknownInitial := "?"
  const UnknownName := "Käyttäjä"

  /** The snapshot's name, if the snapshot has one. */
  function SnapshotName(pt: Participant): Option<string> {
    if pt.user.Some? then Some(pt.user.value.name) else None
  }

  /** 'lapsi' for exactly one child, 'lasta' otherwise. */
  function ChildrenLabel(n: int): (word: string)
    ensures word == "lapsi" <==> n == 1
    ensures word == "lapsi" || word == "lasta"
  {
    if n == 1 then "lapsi" else "lasta"
  }

  /**
   * A participant row. `upper` is the platform's upper-casing of one
   * character; its result may be longer than one character, or empty.
   */
  function Row(pt: Participant, p: Playdate, upper: char -> string): (row: ParticipantRow)
    ensures !Filled(SnapshotName(pt)) ==> row.initial == UnknownInitial && row.name == UnknownName
    ensures Filled(SnapshotName(pt)) ==>
              row.name == pt.user.value.name
              && (upper(pt.user.value.name[0]) != "" ==> row.initial == upper(pt.user.value.name[0]))
    ensures Filled(SnapshotName(pt)) && upper(pt.user.value.name[0]) == "" ==> row.initial == UnknownInitial
    ensures row.initial != ""
    ensures row.count == pt.childrenCount
    ensures row.countLabel == "lapsi" <==> pt.childrenCount == 1
    ensures row.countLabel == ChildrenLabel(pt.childrenCount)
    ensures row.organizerBadge <==> pt.userId == p.organizerId
  {
    var name := SnapshotName(pt);
    var initial := if Filled(name) then Some(upper(name.value[0])) else None;
    ParticipantRow(OrElse(initial, UnknownInitial), OrElse(name, UnknownName),
                   pt.childrenCount, ChildrenLabel(pt.childrenCount), pt.userId == p.organizerId)
  }

  /** The participant list, one row per entry in the stored order. */
  function Rows(p: Playdate, upper: char -> string): (rows: seq<ParticipantRow>)
    ensures |rows| == |p.participants|
    ensures forall i :: 0 <= i < |rows| ==> rows[i] == Row(p.participants[i], p, upper)
  {
    seq(|p.participants|, i requires 0 <= i < |p.participants| => Row(p.participants[i], p, upper))
  }

  /**
   * A participant appended by the service carries no snapshot, so the screen
   * shows it with the placeholder initial and name.
   */
  lemma JoinedRowShowsPlaceholders(store: PlaydateStore, id: string, uid: string, n: int, now: Time, upper: char -> string)
    requires id in store
    ensures var s := JoinPlaydate(store, id, uid, n, now).value;
      var last := Rows(Read(s, id), upper)[|store[id].participants|];
      last.initial == UnknownInitial && last.name == UnknownName && last.count == n
  {
  }
}
