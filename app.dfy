/** The state of the dashboard component (App.tsx): the roster, the absence
    requests and the registration form, and the handlers that replace them. */
module App {
  import opened Types
  import opened Presence
  import opened Decisions
  import opened Roster

  /** The roster the dashboard starts with, before the backend answers. */
  const InitialUsers: seq<User> := [
    User("1", "Tacio Santos", "tsantos@ccmtecnologia.com.br", Employee),
    User("2", "Luciano Martins", "lmartins@ccmtecnologia.com.br", Admin),
    User("3", "Brenda Costa", "bcosta@ccmtecnologia.com.br", Employee)
  ]

  /** The mock absences the dashboard starts with: a pending partial absence
      of user '1' and an approved day off of user '3'. Only their dates come
      from the clock. */
  function InitialAbsences(a1: LoadStamps, a2: LoadStamps): (r: seq<Absence>)
    ensures |r| == 2
    ensures r[0].id == "a1" && r[0].userId == "1" && r[0].status == Pending
    ensures r[1].id == "a2" && r[1].userId == "3" && r[1].status == Approved
  {
    [ Absence("a1", "1", "Tacio Santos", AusenciaParcial, a1.startDate, a1.endDate, Pending,
              Some("Consulta Médica"), a1.requestedAt),
      Absence("a2", "3", "Brenda Costa", Folga, a2.startDate, a2.endDate, Approved,
              Some("Assuntos Pessoais"), a2.requestedAt) ]
  }

  /** At load, user '3' is away and the others are online. The code stamps
      'a2' from the load instant `t0`, ending 24 hours (86400000 ms) later,
      so for any `now` within that day the approved day off is the current
      absence of user '3'; 'a1' is pending and keeps nobody away. */
  lemma InitiallyThirdUserAway(a1: LoadStamps, a2: LoadStamps, t0: int, now: int, toTime: TimeParser)
    requires toTime(a2.startDate) == Some(t0) && toTime(a2.endDate) == Some(t0 + 86400000)
    requires t0 <= now <= t0 + 86400000
    ensures TeamStatus(InitialUsers, InitialAbsences(a1, a2), now, toTime)[0].isOnline
    ensures TeamStatus(InitialUsers, InitialAbsences(a1, a2), now, toTime)[1].isOnline
    ensures !TeamStatus(InitialUsers, InitialAbsences(a1, a2), now, toTime)[2].isOnline
    ensures TeamStatus(InitialUsers, InitialAbsences(a1, a2), now, toTime)[2].currentAbsence
      == Some(InitialAbsences(a1, a2)[1])
  {
    var abs := InitialAbsences(a1, a2);
    assert Explains(abs[1], InitialUsers[2], now, toTime);
    assert !Explains(abs[0], InitialUsers[2], now, toTime);
  }

  class Dashboard {
    var users: seq<User>
    var absences: seq<Absence>
    var newMember: MemberForm

    /** The initial state: the mock roster and absences and an empty form;
        the absences' clock-derived dates are given. */
    constructor (a1: LoadStamps, a2: LoadStamps)
      ensures users == InitialUsers && absences == InitialAbsences(a1, a2) && newMember == EmptyForm
    {
      users := InitialUsers;
      absences := InitialAbsences(a1, a2);
      newMember := EmptyForm;
    }

    /** `handleApprove`: every absence with `id` becomes approved. */
    method HandleApprove(id: string)
      modifies this
      ensures absences == Decide(old(absences), id, Approved)
      ensures users == old(users) && newMember == old(newMember)
    {
      absences := Decide(absences, id, Approved);
    }

    /** `handleReject`: every absence with `id` becomes rejected. */
    method HandleReject(id: string)
      modifies this
      ensures absences == Decide(old(absences), id, Rejected)
      ensures users == old(users) && newMember == old(newMember)
    {
      absences := Decide(absences, id, Rejected);
    }

    /** `deleteUser`: when the confirmation dialog is accepted, every member
        with `id` leaves the roster; otherwise nothing changes. */
    method DeleteUser(id: string, confirmed: bool)
      modifies this
      ensures users == if confirmed then RemoveUser(old(users), id) else old(users)
      ensures absences == old(absences) && newMember == old(newMember)
    {
      if confirmed {
        users := RemoveUser(users, id);
      }
    }

    /** The name field's change handler: only the form's name changes. */
    method EditName(name: string)
      modifies this
      ensures newMember == old(newMember).(name := name)
      ensures users == old(users) && absences == old(absences)
    {
      newMember := newMember.(name := name);
    }

    /** The e-mail field's change handler: only the form's e-mail changes. */
    method EditEmail(email: string)
      modifies this
      ensures newMember == old(newMember).(email := email)
      ensures users == old(users) && absences == old(absences)
    {
      newMember := newMember.(email := email);
    }

    /** `handleRegister`: an incomplete form changes nothing; a complete one
        appends an employee under the freshly drawn `newId` and clears the
        form. */
    method HandleRegister(newId: string)
      modifies this
      ensures users == Register(old(users), newId, old(newMember))
      ensures newMember == if old(newMember).name == "" || old(newMember).email == "" then old(newMember) else EmptyForm
      ensures absences == old(absences)
    {
      if newMember.name == "" || newMember.email == "" {
        return;
      }
      users := Register(users, newId, newMember);
      newMember := EmptyForm;
    }

    /** `fetchColaboradores`: a response that is a list replaces the roster
        with its formatted items; a failed request (or a body that is not a
        list) is caught and the roster is kept. `randomIds` holds the id
        drawn for each position. */
    method FetchColaboradores(response: Option<seq<FetchedItem>>, randomIds: seq<string>)
      requires response.Some? ==> |randomIds| == |response.value|
      modifies this
      ensures users == if response.Some? then FormatFetched(response.value, randomIds) else old(users)
      ensures absences == old(absences) && newMember == old(newMember)
    {
      match response
      case Some(items) => users := FormatFetched(items, randomIds);
      case None =>
    }
  }
}
