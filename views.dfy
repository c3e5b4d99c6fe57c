/** The derived lists and counts the dashboard shows: the pending requests
    and the decided ones (history), the pending badge and card, the approved
    card and the number of members online. */
module Views {
  import opened Types
  import opened Lists
  import opened Presence
  import opened Decisions

  predicate IsPending(a: Absence) { a.status == Pending }
  predicate IsDecided(a: Absence) { a.status != Pending }
  predicate IsApproved(a: Absence) { a.status == Approved }
  predicate IsOnlineMember(m: TeamMemberStatus) { m.isOnline }

  /** `absences.filter(a => a.status === 'pending')`: the requests awaiting
      a decision. */
  function PendingView(absences: seq<Absence>): (r: seq<Absence>)
    ensures forall i :: 0 <= i < |r| ==> r[i].status == Pending && r[i] in absences
    ensures forall i :: 0 <= i < |absences| && absences[i].status == Pending ==> absences[i] in r
  {
    Filter(absences, IsPending)
  }

  /** `absences.filter(a => a.status !== 'pending')`: the decided requests. */
  function HistoryView(absences: seq<Absence>): (r: seq<Absence>)
    ensures forall i :: 0 <= i < |r| ==> r[i].status != Pending && r[i] in absences
    ensures forall i :: 0 <= i < |absences| && absences[i].status != Pending ==> absences[i] in r
  {
    Filter(absences, IsDecided)
  }

  /** The pending count, shared by the sidebar badge and the dashboard card. */
  function PendingCount(absences: seq<Absence>): (n: nat)
    ensures n <= |absences|
  {
    |PendingView(absences)|
  }

  /** The approved count on the dashboard. */
  function ApprovedCount(absences: seq<Absence>): (n: nat)
    ensures n <= |absences|
  {
    |Filter(absences, IsApproved)|
  }

  /** `teamStatus.filter(s => s.isOnline).length`. */
  function OnlineCount(team: seq<TeamMemberStatus>): (n: nat)
    ensures n <= |team|
  {
    |Filter(team, IsOnlineMember)|
  }

  /** The pending and history views split the absences: every request is
      in exactly one of them, and each view keeps the list's order. */
  lemma ViewsPartition(absences: seq<Absence>)
    ensures |PendingView(absences)| + |HistoryView(absences)| == |absences|
    ensures multiset(PendingView(absences)) + multiset(HistoryView(absences)) == multiset(absences)
  {
    FilterPartition(absences, IsPending, IsDecided);
  }

  /** Both views keep list order: the view of a joined list is the joined
      views. */
  lemma ViewsKeepOrder(p: seq<Absence>, q: seq<Absence>)
    ensures PendingView(p + q) == PendingView(p) + PendingView(q)
    ensures HistoryView(p + q) == HistoryView(p) + HistoryView(q)
  {
    FilterAppend(p, q, IsPending);
    FilterAppend(p, q, IsDecided);
  }

  /** The pending and approved cards never add up to more than the number
      of requests. */
  lemma CardsBounded(absences: seq<Absence>)
    ensures PendingCount(absences) + ApprovedCount(absences) <= |absences|
  {
    FilterCountMonotone(absences, IsApproved, absences, IsDecided);
    ViewsPartition(absences);
  }

  /** The online card never exceeds the team size shown beside it. */
  lemma OnlineAtMostTeam(users: seq<User>, absences: seq<Absence>, now: int, toTime: TimeParser)
    ensures OnlineCount(TeamStatus(users, absences, now, toTime)) <= |users|
  {
  }

  /** With no approved request, every member is online. */
  lemma NoApprovalAllOnline(users: seq<User>, absences: seq<Absence>, now: int, toTime: TimeParser)
    requires forall i :: 0 <= i < |absences| ==> absences[i].status != Approved
    ensures OnlineCount(TeamStatus(users, absences, now, toTime)) == |users|
  {
    var team := TeamStatus(users, absences, now, toTime);
    FilterKeepsAll(team, IsOnlineMember);
  }

  /** A decision removes the decided request from the pending view, and
      the pending count never grows. */
  lemma DecisionLeavesPending(absences: seq<Absence>, id: string, status: AbsenceStatus)
    requires status != Pending
    ensures forall i :: 0 <= i < |PendingView(Decide(absences, id, status))| ==>
      PendingView(Decide(absences, id, status))[i].id != id
    ensures PendingCount(Decide(absences, id, status)) <= PendingCount(absences)
  {
    FilterCountMonotone(Decide(absences, id, status), IsPending, absences, IsPending);
  }

  /** Approving a request never raises the online count. */
  lemma ApprovalNeverRaisesOnline(users: seq<User>, absences: seq<Absence>, id: string, now: int, toTime: TimeParser)
    ensures OnlineCount(TeamStatus(users, Decide(absences, id, Approved), now, toTime))
      <= OnlineCount(TeamStatus(users, absences, now, toTime))
  {
    var before := TeamStatus(users, absences, now, toTime);
    var after := TeamStatus(users, Decide(absences, id, Approved), now, toTime);
    forall i | 0 <= i < |users| ensures after[i].isOnline ==> before[i].isOnline {
      ApprovalKeepsAbsentAway(users[i], absences, id, now, toTime);
    }
    FilterCountMonotone(after, IsOnlineMember, before, IsOnlineMember);
  }

  /** Rejecting a request never lowers the online count. */
  lemma RejectionNeverLowersOnline(users: seq<User>, absences: seq<Absence>, id: string, now: int, toTime: TimeParser)
    ensures OnlineCount(TeamStatus(users, absences, now, toTime))
      <= OnlineCount(TeamStatus(users, Decide(absences, id, Rejected), now, toTime))
  {
    var before := TeamStatus(users, absences, now, toTime);
    var after := TeamStatus(users, Decide(absences, id, Rejected), now, toTime);
    forall i | 0 <= i < |users| ensures before[i].isOnline ==> after[i].isOnline {
      NonApprovalKeepsOnline(users[i], absences, id, Rejected, now, toTime);
    }
    FilterCountMonotone(before, IsOnlineMember, after, IsOnlineMember);
  }
}
