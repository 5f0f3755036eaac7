/** The playdate card shown in the home feed. */
module Card {
  import opened Wrappers
  import opened Domain
  import opened Participation
  import opened Service

  /** What one card shows. `description` is `None` when the line is not rendered. */
  datatype CardView = CardView(
    title: string,
    startTime: string,
    endTime: string,
    locationName: string,
    families: nat,
    children: int,
    ageMin: int,
    ageMax: int,
    description: Option<string>)

  /** `participants.reduce((acc, p) => acc + p.childrenCount, acc)`, a left fold. */
  function ReduceChildren(acc: int, ps: seq<Participant>): int
    decreases |ps|
  {
    if |ps| == 0 then acc else ReduceChildren(acc + ps[0].childrenCount, ps[1..])
  }

  /** The fold started at `acc` adds the reference sum to `acc`. */
  lemma {:induction false} ReduceChildrenIsSum(acc: int, ps: seq<Participant>)
    ensures ReduceChildren(acc, ps) == acc + ChildrenSum(ps)
    decreases |ps|
  {
    if |ps| > 0 {
      ReduceChildrenIsSum(acc + ps[0].childrenCount, ps[1..]);
    }
  }

  /**
   * The card: family count is the list length, the children total is the
   * sum of the entries' counts (0 for no entries, as on the detail screen),
   * the age range is shown as stored and the description line only when
   * the description is non-empty.
   */
  function Render(p: Playdate): (v: CardView)
    ensures v.families == |p.participants|
    ensures v.children == ChildrenSum(p.participants)
    ensures p.participants == [] ==> v.families == 0 && v.children == 0
    ensures v.ageMin == p.ageRange.min && v.ageMax == p.ageRange.max
    ensures v.description.Some? <==> p.description != ""
    ensures v.description.Some? ==> v.description.value == p.description
  {
    ReduceChildrenIsSum(0, p.participants);
    CardView(p.title, p.startTime, p.endTime, p.location.name,
             |p.participants|, ReduceChildren(0, p.participants),
             p.ageRange.min, p.ageRange.max,
             if p.description != "" then Some(p.description) else None)
  }

  /**
   * After a successful join with `n` children the card of that playdate shows
   * `n` more children and one more family; nothing else on it changes.
   */
  lemma CardAfterJoin(store: PlaydateStore, id: string, uid: string, n: int, now: Time)
    requires id in store
    ensures var before := Render(Read(store, id));
      var after := Render(Read(JoinPlaydate(store, id, uid, n, now).value, id));
      && after.children == before.children + n
      && after.families == before.families + 1
      && after == before.(children := after.children, families := after.families)
  {
    JoinRaisesTotals(store, id, uid, n, now);
  }
}
