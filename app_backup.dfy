/** The earlier version of the dashboard (AppBackup.tsx). Its roster comes
    from the `useColaboradores` hook and gets ids from list positions. Its
    presence view and its approve and register handlers are those of the
    current dashboard; it also defines reject and delete handlers, which none
    of its controls call. */
module AppBackup {
  import opened Types
  import opened Presence
  import opened Decisions
  import opened Roster

  /** One collaborator as the hook delivers it; the code reads the name from
      the field `nome`. */
  datatype Colaborador = Colaborador(nome: string, email: string)

  /** The decimal digit character for `d`. */
  function Digit(d: nat): (c: char)
    requires d < 10
    ensures '0' <= c <= '9' && c as int - '0' as int == d
  {
    ('0' as int + d) as char
  }

  predicate AllDigits(s: string)
  {
    forall i :: 0 <= i < |s| ==> '0' <= s[i] <= '9'
  }

  /** `n.toString()` for a natural number: its decimal digits, with no
      leading zero. */
  function DecimalString(n: nat): (s: string)
    ensures |s| >= 1 && AllDigits(s)
    ensures n > 0 ==> s[0] != '0'
    decreases n
  {
    if n < 10 then [Digit(n)] else DecimalString(n / 10) + [Digit(n % 10)]
  }

  /** The number a string of decimal digits denotes. */
  function DigitsValue(s: string): nat
    requires AllDigits(s)
    decreases |s|
  {
    if s == [] then 0
    else DigitsValue(s[..|s| - 1]) * 10 + (s[|s| - 1] as int - '0' as int)
  }

  /** Reading back the decimal text of `n` gives `n`. */
  lemma {:induction false} DecimalRoundTrip(n: nat)
    ensures DigitsValue(DecimalString(n)) == n
    decreases n
  {
    var s := DecimalString(n);
    if n >= 10 {
      DecimalRoundTrip(n / 10);
      assert s[..|s| - 1] == DecimalString(n / 10);
    }
  }

  /** Different numbers have different decimal texts. */
  lemma DecimalStringInjective(m: nat, n: nat)
    requires DecimalString(m) == DecimalString(n)
    ensures m == n
  {
    DecimalRoundTrip(m);
    DecimalRoundTrip(n);
  }

  /** The mapping in the synchronising effect: the i-th collaborator becomes
      an employee whose id is the text of i + 1, with name from `nome`. */
  function IndexRoster(external: seq<Colaborador>): (r: seq<User>)
    ensures |r| == |external|
    ensures forall i :: 0 <= i < |r| ==>
      r[i].name == external[i].nome && r[i].email == external[i].email && r[i].role == Employee
    ensures forall i :: 0 <= i < |r| ==> r[i].id == DecimalString(i + 1)
  {
    seq(|external|, i requires 0 <= i < |external| =>
      User(DecimalString(i + 1), external[i].nome, external[i].email, Employee))
  }

  /** Each id handed out by position reads back as that position plus one,
      so the ids are pairwise distinct. */
  lemma IndexRosterIds(external: seq<Colaborador>)
    ensures forall i :: 0 <= i < |external| ==> DigitsValue(IndexRoster(external)[i].id) == i + 1
    ensures forall i, j :: 0 <= i < j < |external| ==> IndexRoster(external)[i].id != IndexRoster(external)[j].id
  {
    forall i | 0 <= i < |external| ensures DigitsValue(IndexRoster(external)[i].id) == i + 1 {
      DecimalRoundTrip(i + 1);
    }
  }

  /** The one mock absence this version starts with: a pending partial
      absence of user '1'. Only its dates come from the clock. */
  function InitialAbsences(a1: LoadStamps): (r: seq<Absence>)
    ensures |r| == 1 && r[0].id == "a1" && r[0].userId == "1" && r[0].status == Pending
  {
    [ Absence("a1", "1", "João Silva", AusenciaParcial, a1.startDate, a1.endDate, Pending,
              Some("Consulta Médica"), a1.requestedAt) ]
  }

  class BackupDashboard {
    var users: seq<User>
    var absences: seq<Absence>
    var newMember: MemberForm

    /** The roster starts empty; the mock absence's clock-derived dates are
        given. */
    constructor (a1: LoadStamps)
      ensures users == [] && absences == InitialAbsences(a1) && newMember == EmptyForm
    {
      users := [];
      absences := InitialAbsences(a1);
      newMember := EmptyForm;
    }

    /** The synchronising effect: a non-empty list from the hook replaces the
        roster with its position-numbered users; anything else (an empty
        list, or data that is not a list) leaves the roster as it is. */
    method SyncExternal(externalData: Option<seq<Colaborador>>)
      modifies this
      ensures users == if externalData.Some? && |externalData.value| > 0
                       then IndexRoster(externalData.value) else old(users)
      ensures absences == old(absences) && newMember == old(newMember)
    {
      if externalData.Some? && |externalData.value| > 0 {
        users := IndexRoster(externalData.value);
      }
    }

    /** `teamStatus` of this component. Its text is identical to the current
        dashboard's, so it is `TeamStatus` over this object's state, and
        everything proved about `TeamStatus` holds of it. */
    function Team(now: int, toTime: TimeParser): (r: seq<TeamMemberStatus>)
      reads this
      ensures r == TeamStatus(users, absences, now, toTime)
    {
      TeamStatus(users, absences, now, toTime)
    }

    /** `handleApprove`. */
    method HandleApprove(id: string)
      modifies this
      ensures absences == Decide(old(absences), id, Approved)
      ensures users == old(users) && newMember == old(newMember)
    {
      absences := Decide(absences, id, Approved);
    }

    /** `handleReject`: defined, but no control of this version calls it. */
    method HandleReject(id: string)
      modifies this
      ensures absences == Decide(old(absences), id, Rejected)
      ensures users == old(users) && newMember == old(newMember)
    {
      absences := Decide(absences, id, Rejected);
    }

    /** `deleteUser`, behind the confirmation dialog: defined, but no control
        of this version calls it. */
    method DeleteUser(id: string, confirmed: bool)
      modifies this
      ensures users == if confirmed then RemoveUser(old(users), id) else old(users)
      ensures absences == old(absences) && newMember == old(newMember)
    {
      if confirmed {
        users := RemoveUser(users, id);
      }
    }

    /** The name field's change handler: only the form's name changes. */
    method EditName(name: string)
      modifies this
      ensures newMember == old(newMember).(name := name)
      ensures users == old(users) && absences == old(absences)
    {
      newMember := newMember.(name := name);
    }

    /** The e-mail field's change handler: only the form's e-mail changes. */
    method EditEmail(email: string)
      modifies this
      ensures newMember == old(newMember).(email := email)
      ensures users == old(users) && absences == old(absences)
    {
      newMember := newMember.(email := email);
    }

    /** `handleRegister`: refuses an incomplete form, otherwise appends one
        employee under the drawn `newId` and clears the form. */
    method HandleRegister(newId: string)
      modifies this
      ensures users == Register(old(users), newId, old(newMember))
      ensures newMember == if old(newMember).name == "" || old(newMember).email == "" then old(newMember) else EmptyForm
      ensures absences == old(absences)
    {
      if newMember.name == "" || newMember.email == "" {
        return;
      }
      users := Register(users, newId, newMember);
      newMember := EmptyForm;
    }
  }
}
