/** Edits of the team roster: removing a member (`deleteUser`), registering
    one from the form (`handleRegister`), and turning the users fetched from
    the workflow backend into roster entries (`fetchColaboradores`). */
module Roster {
  import opened Types
  import opened Lists

  /** The registration form's contents (`newMember`). */
  datatype MemberForm = MemberForm(name: string, email: string)

  const EmptyForm := MemberForm("", "")

  /** `prev.filter(u => u.id !== id)`: every member except those with `id`. */
  function RemoveUser(users: seq<User>, id: string): (r: seq<User>)
    ensures |r| <= |users|
    ensures forall i :: 0 <= i < |r| ==> r[i].id != id && r[i] in users
    ensures forall i :: 0 <= i < |users| && users[i].id != id ==> users[i] in r
  {
    Filter(users, (u: User) => u.id != id)
  }

  /** Removal keeps the survivors in their order: removing from a joined
      roster is joining the two rosters with the member removed. */
  lemma RemoveUserKeepsOrder(p: seq<User>, q: seq<User>, id: string)
    ensures RemoveUser(p + q, id) == RemoveUser(p, id) + RemoveUser(q, id)
  {
    FilterAppend(p, q, (u: User) => u.id != id);
  }

  /** Removing an id nobody has leaves the roster as it was. */
  lemma RemoveAbsentId(users: seq<User>, id: string)
    requires forall i :: 0 <= i < |users| ==> users[i].id != id
    ensures RemoveUser(users, id) == users
  {
    FilterKeepsAll(users, (u: User) => u.id != id);
  }

  /** Removing the same member twice is the same as removing it once. */
  lemma RemoveUserIdempotent(users: seq<User>, id: string)
    ensures RemoveUser(RemoveUser(users, id), id) == RemoveUser(users, id)
  {
    RemoveAbsentId(RemoveUser(users, id), id);
  }

  /** `handleRegister`: an empty name or e-mail is refused and the roster is
      kept; otherwise one employee with the form's name and e-mail and the
      new id is appended at the end. */
  function Register(users: seq<User>, newId: string, form: MemberForm): (r: seq<User>)
    ensures form.name == "" || form.email == "" ==> r == users
    ensures form.name != "" && form.email != "" ==>
      |r| == |users| + 1 && r[..|users|] == users
      && r[|users|] == User(newId, form.name, form.email, Employee)
  {
    if form.name == "" || form.email == "" then users
    else users + [User(newId, form.name, form.email, Employee)]
  }

  /** Registering a member under a fresh id and then deleting that id gives
      back the roster as it was before. */
  lemma RegisterThenDelete(users: seq<User>, newId: string, form: MemberForm)
    requires forall i :: 0 <= i < |users| ==> users[i].id != newId
    ensures RemoveUser(Register(users, newId, form), newId) == users
  {
    RemoveAbsentId(users, newId);
    if form.name != "" && form.email != "" {
      var added := User(newId, form.name, form.email, Employee);
      RemoveUserKeepsOrder(users, [added], newId);
      assert RemoveUser([added], newId) == [];
    }
  }

  /** One item of the backend's user list, untyped in the source: `id` is
      None when missing or null, `role` is None when missing or falsy. */
  datatype FetchedItem = FetchedItem(id: Option<string>, name: string, email: string, role: Option<Role>)

  /** JavaScript truthiness of an optional string: present and non-empty. */
  predicate Truthy(s: Option<string>)
  {
    s.Some? && s.value != ""
  }

  /** The mapping in `fetchColaboradores`: each item becomes a user, in
      order; a falsy id is replaced by the random id drawn for that position
      and a missing role becomes 'employee'. */
  function FormatFetched(items: seq<FetchedItem>, randomIds: seq<string>): (r: seq<User>)
    requires |randomIds| == |items|
    ensures |r| == |items|
    ensures forall i :: 0 <= i < |items| ==>
      r[i].id == (if Truthy(items[i].id) then items[i].id.value else randomIds[i])
      && r[i].name == items[i].name && r[i].email == items[i].email
    ensures forall i :: 0 <= i < |items| ==>
      r[i].role == if items[i].role.Some? then items[i].role.value else Employee
  {
    seq(|items|, i requires 0 <= i < |items| =>
      User(if Truthy(items[i].id) then items[i].id.value else randomIds[i],
           items[i].name, items[i].email,
           if items[i].role.Some? then items[i].role.value else Employee))
  }

  /** The item a roster entry would be sent back as. */
  function AsFetched(u: User): FetchedItem
  {
    FetchedItem(Some(u.id), u.name, u.email, Some(u.role))
  }

  /** Fetching back a roster whose ids are all non-empty reproduces it
      exactly: no random id is drawn and no role is replaced. */
  lemma FormatFetchedRoundTrip(users: seq<User>, randomIds: seq<string>)
    requires |randomIds| == |users|
    requires forall i :: 0 <= i < |users| ==> users[i].id != ""
    ensures FormatFetched(seq(|users|, i requires 0 <= i < |users| => AsFetched(users[i])), randomIds) == users
  {
  }
}
