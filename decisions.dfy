/** A manager's decision on an absence request (`handleApprove`,
    `handleReject`): every absence carrying the request's id gets the new
    status; nothing else changes. */
module Decisions {
  import opened Types
  import opened Presence

  /** `prev.map(a => a.id === id ? { ...a, status } : a)`. */
  function Decide(absences: seq<Absence>, id: string, status: AbsenceStatus): (r: seq<Absence>)
    ensures |r| == |absences|
    ensures forall i :: 0 <= i < |r| ==> r[i].(status := absences[i].status) == absences[i]
    ensures forall i :: 0 <= i < |r| ==> r[i].status == if absences[i].id == id then status else absences[i].status
  {
    seq(|absences|, i requires 0 <= i < |absences| =>
      if absences[i].id == id then absences[i].(status := status) else absences[i])
  }

  /** Taking the same decision twice is the same as taking it once. */
  lemma DecideIdempotent(absences: seq<Absence>, id: string, status: AbsenceStatus)
    ensures Decide(Decide(absences, id, status), id, status) == Decide(absences, id, status)
  {
  }

  /** A later decision on the same request overrides an earlier one. */
  lemma LaterDecisionWins(absences: seq<Absence>, id: string, first: AbsenceStatus, second: AbsenceStatus)
    ensures Decide(Decide(absences, id, first), id, second) == Decide(absences, id, second)
  {
  }

  /** Decisions on different requests do not interfere: their order does
      not matter. */
  lemma DecisionsCommute(absences: seq<Absence>, id1: string, s1: AbsenceStatus, id2: string, s2: AbsenceStatus)
    requires id1 != id2
    ensures Decide(Decide(absences, id1, s1), id2, s2) == Decide(Decide(absences, id2, s2), id1, s1)
  {
  }

  /** A decision on an id no absence carries leaves the list as it was. */
  lemma DecideUnknownId(absences: seq<Absence>, id: string, status: AbsenceStatus)
    requires forall i :: 0 <= i < |absences| ==> absences[i].id != id
    ensures Decide(absences, id, status) == absences
  {
  }

  /** Approving a request never brings anyone back online: whoever was away
      stays away. */
  lemma {:induction false} ApprovalKeepsAbsentAway(u: User, absences: seq<Absence>, id: string, now: int, toTime: TimeParser)
    ensures !Member(u, absences, now, toTime).isOnline ==> !Member(u, Decide(absences, id, Approved), now, toTime).isOnline
  {
    var after := Decide(absences, id, Approved);
    if !Member(u, absences, now, toTime).isOnline {
      var k :| 0 <= k < |absences| && Explains(absences[k], u, now, toTime);
      assert Explains(after[k], u, now, toTime);
    }
  }

  /** A decision other than approval never takes anyone offline: whoever
      was online stays online. */
  lemma {:induction false} NonApprovalKeepsOnline(u: User, absences: seq<Absence>, id: string, status: AbsenceStatus, now: int, toTime: TimeParser)
    requires status != Approved
    ensures Member(u, absences, now, toTime).isOnline ==> Member(u, Decide(absences, id, status), now, toTime).isOnline
  {
    var after := Decide(absences, id, status);
    if Member(u, absences, now, toTime).isOnline {
      forall i | 0 <= i < |after| ensures !Explains(after[i], u, now, toTime) {
        assert !Explains(absences[i], u, now, toTime);
      }
    }
  }
}
