/** The presence view (`teamStatus`): for every user, whether an approved
    absence covers the current instant, and which one. */
module Presence {
  import opened Types

  /** `new Date(s).getTime()`: the instant, in milliseconds, that a stored
      date string denotes, or None where JavaScript yields NaN. Date parsing
      depends on the runtime, so callers supply it. */
  type TimeParser = string -> Option<int>

  /** `now >= start && now <= end`, both ends inclusive; a NaN bound fails
      every comparison, so an unparseable bound never contains `now`. */
  predicate Within(start: Option<int>, end: Option<int>, now: int)
  {
    start.Some? && end.Some? && start.value <= now <= end.value
  }

  /** The test `find` applies to each absence: it belongs to the user (by id
      only), it is approved, and its period contains `now`. */
  predicate Explains(a: Absence, u: User, now: int, toTime: TimeParser)
  {
    a.userId == u.id && a.status == Approved
    && Within(toTime(a.startDate), toTime(a.endDate), now)
  }

  /** `a` is the first absence of the list that explains `u` being away. */
  ghost predicate IsFirstActive(absences: seq<Absence>, a: Absence, u: User, now: int, toTime: TimeParser)
  {
    exists k :: 0 <= k < |absences| && absences[k] == a && Explains(a, u, now, toTime)
      && forall j :: 0 <= j < k ==> !Explains(absences[j], u, now, toTime)
  }

  /** `absences.find(...)`: the first absence that explains `u` being away,
      or None when no absence does. */
  function FindActive(absences: seq<Absence>, u: User, now: int, toTime: TimeParser): (r: Option<Absence>)
    ensures r.None? <==> forall i :: 0 <= i < |absences| ==> !Explains(absences[i], u, now, toTime)
    ensures r.Some? ==> IsFirstActive(absences, r.value, u, now, toTime)
    decreases |absences|
  {
    if absences == [] then None
    else if Explains(absences[0], u, now, toTime) then Some(absences[0])
    else
      var rest := FindActive(absences[1..], u, now, toTime);
      assert forall i :: 1 <= i < |absences| ==> absences[i] == absences[1..][i - 1];
      rest
  }

  /** One entry of the view: the user's own fields, `isOnline` exactly when
      no absence keeps the user away, and the first absence that does. */
  function Member(u: User, absences: seq<Absence>, now: int, toTime: TimeParser): (m: TeamMemberStatus)
    ensures m.id == u.id && m.name == u.name && m.email == u.email && m.role == u.role
    ensures m.isOnline <==> forall i :: 0 <= i < |absences| ==> !Explains(absences[i], u, now, toTime)
    ensures m.isOnline <==> m.currentAbsence.None?
    ensures m.currentAbsence.Some? ==> IsFirstActive(absences, m.currentAbsence.value, u, now, toTime)
  {
    var found := FindActive(absences, u, now, toTime);
    TeamMemberStatus(u.id, u.name, u.email, u.role, found.None?, found)
  }

  /** `teamStatus`: one entry per user, in roster order. */
  function TeamStatus(users: seq<User>, absences: seq<Absence>, now: int, toTime: TimeParser): (r: seq<TeamMemberStatus>)
    ensures |r| == |users|
    ensures forall i :: 0 <= i < |users| ==>
      r[i].id == users[i].id && r[i].name == users[i].name
      && r[i].email == users[i].email && r[i].role == users[i].role
    ensures forall i :: 0 <= i < |users| ==>
      (r[i].isOnline <==> forall j :: 0 <= j < |absences| ==> !Explains(absences[j], users[i], now, toTime))
    ensures forall i :: 0 <= i < |users| ==>
      (r[i].currentAbsence.None? <==> r[i].isOnline)
      && (r[i].currentAbsence.Some? ==> IsFirstActive(absences, r[i].currentAbsence.value, users[i], now, toTime))
  {
    seq(|users|, i requires 0 <= i < |users| => Member(users[i], absences, now, toTime))
  }

  /** The first-match choice is deterministic: at most one absence is the
      first to explain a user's absence. */
  lemma FirstActiveUnique(absences: seq<Absence>, a: Absence, b: Absence, u: User, now: int, toTime: TimeParser)
    requires IsFirstActive(absences, a, u, now, toTime)
    requires IsFirstActive(absences, b, u, now, toTime)
    ensures a == b
  {
    var ka :| 0 <= ka < |absences| && absences[ka] == a && Explains(a, u, now, toTime)
      && forall j :: 0 <= j < ka ==> !Explains(absences[j], u, now, toTime);
    var kb :| 0 <= kb < |absences| && absences[kb] == b && Explains(b, u, now, toTime)
      && forall j :: 0 <= j < kb ==> !Explains(absences[j], u, now, toTime);
    assert ka == kb;
  }

  /** An absence that does not explain `u` being away (another user's, a
      pending or rejected one, or one whose period misses `now`) can be
      removed from anywhere in the list without changing `u`'s entry. */
  lemma {:induction false} InertAbsenceIgnored(p: seq<Absence>, a: Absence, s: seq<Absence>, u: User, now: int, toTime: TimeParser)
    requires !Explains(a, u, now, toTime)
    ensures FindActive(p + [a] + s, u, now, toTime) == FindActive(p + s, u, now, toTime)
    decreases |p|
  {
    if p == [] {
      assert p + [a] + s == [a] + s;
      assert ([a] + s)[1..] == s;
      assert p + s == s;
    } else {
      assert (p + [a] + s)[0] == p[0] && (p + s)[0] == p[0];
      assert (p + [a] + s)[1..] == p[1..] + [a] + s;
      assert (p + s)[1..] == p[1..] + s;
      InertAbsenceIgnored(p[1..], a, s, u, now, toTime);
    }
  }

  /** An absence that explains no user's absence leaves the whole view
      unchanged; in particular a pending or rejected request never does. */
  lemma InertAbsenceLeavesView(users: seq<User>, p: seq<Absence>, a: Absence, s: seq<Absence>, now: int, toTime: TimeParser)
    requires forall i :: 0 <= i < |users| ==> !Explains(a, users[i], now, toTime)
    ensures TeamStatus(users, p + [a] + s, now, toTime) == TeamStatus(users, p + s, now, toTime)
  {
    forall i | 0 <= i < |users|
      ensures Member(users[i], p + [a] + s, now, toTime) == Member(users[i], p + s, now, toTime)
    {
      InertAbsenceIgnored(p, a, s, users[i], now, toTime);
    }
  }

  /** A single approved absence of `u` keeps `u` away exactly on the closed
      interval between its parsed start and end. */
  lemma ApprovedWindowInclusive(u: User, a: Absence, start: int, end: int, now: int, toTime: TimeParser)
    requires a.userId == u.id && a.status == Approved
    requires toTime(a.startDate) == Some(start) && toTime(a.endDate) == Some(end)
    ensures !Member(u, [a], now, toTime).isOnline <==> start <= now <= end
    ensures !Member(u, [a], now, toTime).isOnline ==> Member(u, [a], now, toTime).currentAbsence == Some(a)
  {
  }
}
