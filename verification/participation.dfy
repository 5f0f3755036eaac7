/**
 * Facts about a playdate's participant list shared by the service and the
 * screens: the children total and the "already joined" test.
 */
module Participation {
  import opened Domain

  /** Reference definition of the children total: the sum of every entry's count. */
  function ChildrenSum(ps: seq<Participant>): int {
    if |ps| == 0 then 0 else ps[0].childrenCount + ChildrenSum(ps[1..])
  }

  /** Appending one entry adds exactly its count to the total. */
  lemma {:induction false} ChildrenSumAppend(ps: seq<Participant>, p: Participant)
    ensures ChildrenSum(ps + [p]) == ChildrenSum(ps) + p.childrenCount
  {
    if |ps| > 0 {
      assert (ps + [p])[1..] == ps[1..] + [p];
      ChildrenSumAppend(ps[1..], p);
    } else {
      assert ps + [p] == [p];
    }
  }

  /** Whether some entry of `ps` belongs to `userId`. */
  predicate HasEntryFor(ps: seq<Participant>, userId: string) {
    exists i :: 0 <= i < |ps| && ps[i].userId == userId
  }

  /**
   * `participants.some(p => p.userId === uid)`: scans left to right and stops
   * at the first match.
   */
  function SomeJoined(ps: seq<Participant>, userId: string): (b: bool)
    ensures b <==> HasEntryFor(ps, userId)
  {
    if |ps| == 0 then false
    else if ps[0].userId == userId then true
    else
      var b := SomeJoined(ps[1..], userId);
      assert b ==> exists i :: 0 <= i < |ps| && ps[i].userId == userId by {
        if b { var j :| 0 <= j < |ps| - 1 && ps[1..][j].userId == userId; assert ps[j + 1].userId == userId; }
      }
      assert HasEntryFor(ps, userId) ==> b by {
        if HasEntryFor(ps, userId) { var j :| 0 <= j < |ps| && ps[j].userId == userId; assert j > 0 && ps[1..][j - 1].userId == userId; }
      }
      b
  }
}
