# Team presence and absence approval — a Dafny model

This project models the state logic of a team-presence dashboard (the
`App` component and its earlier version `AppBackup`). The dashboard holds a
roster of users and a list of absence requests. Its main job is to work out,
for the current instant, which team members are online. A member is away when
one of their approved absences covers that instant. The dashboard also lets a
manager approve or reject requests, remove and register members, and load the
roster from a workflow backend. It shows counts and lists derived from this
state.

Modules, one per part of the program:

- `Types` (types.ts): `AbsenceStatus`, `AbsenceType`, `Role`, `User`,
  `Absence`, `TeamMemberStatus`.
- `Presence`: the `teamStatus` computation. The match test is `Explains`.
  `FindActive` is `Array.prototype.find`. `Member` builds one entry and
  `TeamStatus` builds the whole view.
- `Decisions`: the status update behind `handleApprove` / `handleReject`.
  It also holds how decisions affect presence.
- `Roster`: `deleteUser`'s filter, `handleRegister`'s guarded append, and
  the mapping of fetched users.
- `Views`: the pending and history lists, and the pending, approved and
  online counts.
- `Lists`: `Array.prototype.filter` on sequences, with its laws.
- `App`: class `Dashboard`. Its fields `users`, `absences` and `newMember`
  are the component's state. Its methods are the event handlers, each stated
  against the pure functions above.
- `AppBackup`: class `BackupDashboard`. It has the synchronising effect that
  gives users ids from their list positions (`IndexRoster`, `DecimalString`).
  Its presence view and its approve and register handlers are those of
  `App`. It also defines reject and delete handlers, but none of its
  controls calls them, and it renders no history list.

Things the program takes from its environment are parameters:

- The clock instant `now` is an `int` in milliseconds.
- `new Date(s).getTime()` is a `TimeParser` (`string -> Option<int>`).
  `None` stands for NaN, and NaN fails every comparison, so an absence whose
  start or end is None never matches.
- Each `Math.random` id is a `newId` or `randomIds` argument.
- The `confirm()` answer is the `confirmed` flag.
- The outcome of `fetchColaboradores` is `Option<seq<...>>`. `None` means
  the request failed, the body was not a list, or the list held a `null`
  item. Each of these throws inside the `try`, and the `catch` keeps the
  roster.
- The hook's data in `AppBackup` is `Option<seq<...>>` too. `None` means
  data that is `null` or has no positive `length`.

The presence rule, as App.tsx:78-83 implements it:

- Matching is by `userId == user.id` only, with no e-mail fallback.
- The period test is `start <= now <= end`, inclusive at both ends.
- Statuses are the three values of types.ts, compared as they are. The
  Portuguese synonyms ('aprovado', 'rejeitado', 'pendente') appear only in
  types.tsx:18, which the components do not import, and nothing folds them.
- Dates are read by `new Date(s).getTime()` alone, with no `DD/MM/YYYY`
  parsing; here that is the `TimeParser` parameter.

`AppBackup` reads the collaborator's name from the field `nome`. The
`Colaborador` interface in services/handleUsers.ts declares `name`. The
model follows the code, so `Colaborador` has a `nome` field.

## Model

| member | source | states |
|---|---|---|
| Presence.FindActive | App.tsx:78-83 | None exactly when no absence belongs to the user by id, is approved and has `start <= now <= end`; otherwise the first such absence in list order |
| Presence.Member | App.tsx:77-84 | the entry keeps the user's id, name, email and role; `isOnline` holds exactly when no absence keeps the user away; `currentAbsence` is absent exactly when online, otherwise it is the first qualifying absence |
| Presence.TeamStatus | App.tsx:75-86 | one entry per user, in roster order, each with that user's fields, online exactly when no qualifying absence exists, and carrying the first qualifying absence when offline |
| Presence.FirstActiveUnique | App.tsx:78 | the first-match choice is deterministic: at most one absence is the first qualifying one |
| Presence.InertAbsenceIgnored | App.tsx:78-83 | an absence that does not qualify for the user (another user's, pending, rejected, unparseable or outside its period) can be removed from anywhere in the list without changing what `find` returns |
| Presence.InertAbsenceLeavesView | App.tsx:75-86 | an absence that qualifies for no user leaves the whole presence view unchanged |
| Presence.ApprovedWindowInclusive | App.tsx:81-82 | a single approved absence keeps its user away exactly when `start <= now <= end`, both boundaries included, and is then the current absence |
| Decisions.Decide | App.tsx:89 | same length; every field but the status kept; the status set to the decision exactly on absences with that id |
| Decisions.DecideIdempotent | App.tsx:88-91 | taking the same decision twice equals taking it once |
| Decisions.LaterDecisionWins | App.tsx:93-96 | a later decision on the same id overrides an earlier one |
| Decisions.DecisionsCommute | App.tsx:88-96 | decisions on different ids can be taken in either order |
| Decisions.DecideUnknownId | App.tsx:89 | a decision on an id no absence carries changes nothing |
| Decisions.ApprovalKeepsAbsentAway | App.tsx:88-91 | after an approval, every user who was away is still away |
| Decisions.NonApprovalKeepsOnline | App.tsx:93-96 | after a rejection, every user who was online is still online |
| Lists.Filter | App.tsx:100 | the result is no longer than the input; it holds only accepted elements of the input and every accepted element |
| Roster.RemoveUser | App.tsx:100 | no remaining member has the id; every member with another id remains; nothing new appears |
| Roster.RemoveUserKeepsOrder | App.tsx:99-100 | survivors keep their order: removal from a joined roster is the join of the removals |
| Roster.RemoveAbsentId | App.tsx:98-103 | removing an id nobody has leaves the roster unchanged |
| Roster.RemoveUserIdempotent | App.tsx:98-102 | removing the same id twice equals removing it once |
| Roster.Register | App.tsx:133-142 | an empty name or email leaves the roster unchanged; otherwise exactly one employee with the given name, email and id is appended at the end and the rest is unchanged |
| Roster.RegisterThenDelete | App.tsx:131-148 | registering under a fresh id, then deleting that id, gives back the original roster |
| Roster.FormatFetched | App.tsx:116-121 | same count and order; a truthy item id is kept, otherwise that position's random id is used; name and email copied; a missing or falsy role becomes employee |
| Roster.FormatFetchedRoundTrip | App.tsx:115-121 | re-formatting a roster whose ids are all non-empty gives it back unchanged |
| Views.PendingView | App.tsx:231 | exactly the pending absences of the list |
| Views.HistoryView | App.tsx:282 | exactly the decided (approved or rejected) absences of the list |
| Views.PendingCount | App.tsx:474 | the pending count, also the sidebar badge (App.tsx:178), is at most the number of absences |
| Views.ApprovedCount | App.tsx:475 | the approved count is at most the number of absences |
| Views.OnlineCount | App.tsx:481 | the online count is at most the number of entries |
| Views.ViewsPartition | App.tsx:231-282 | the pending and history views partition the absences: their lengths add up and their multisets sum to the list's |
| Views.ViewsKeepOrder | App.tsx:231-282 | both views keep list order: the view of a joined list is the join of the views |
| Views.CardsBounded | App.tsx:474-475 | pending count plus approved count is at most the number of absences |
| Views.OnlineAtMostTeam | App.tsx:481-484 | the online card never exceeds the team size shown beside it |
| Views.NoApprovalAllOnline | App.tsx:481 | with no approved absence, everyone is online |
| Views.DecisionLeavesPending | App.tsx:88-96 | after approving or rejecting an id, no pending absence carries it, and the pending count does not grow |
| Views.ApprovalNeverRaisesOnline | App.tsx:88-90 | approving never raises the online count |
| Views.RejectionNeverLowersOnline | App.tsx:93-95 | rejecting never lowers the online count |
| App.InitialAbsences | App.tsx:28-51 | the two mock absences: 'a1' pending for user '1' and 'a2' approved for user '3'; only their date strings are given |
| App.InitiallyThirdUserAway | App.tsx:28-51 | with 'a2' stamped from the load instant and ending 24 hours later, at any instant of that day users '1' and '2' are online and user '3' is away with 'a2' as the current absence |
| App.Dashboard.constructor | App.tsx:55-60 | starts with the three initial users, the two mock absences and an empty form |
| App.Dashboard.HandleApprove | App.tsx:88-91 | absences become `Decide(old, id, Approved)`; users and form unchanged |
| App.Dashboard.HandleReject | App.tsx:93-96 | absences become `Decide(old, id, Rejected)`; users and form unchanged |
| App.Dashboard.DeleteUser | App.tsx:98-103 | confirmed: users become `RemoveUser(old, id)`; not confirmed: nothing changes |
| App.Dashboard.EditName | App.tsx:366 | only the form's name changes |
| App.Dashboard.EditEmail | App.tsx:377 | only the form's email changes |
| App.Dashboard.HandleRegister | App.tsx:131-148 | users become `Register(old, newId, form)`; the form is cleared only when registration happened; absences unchanged |
| App.Dashboard.FetchColaboradores | App.tsx:110-126 | a list response replaces users with the formatted items; a failure keeps users; absences and form unchanged |
| AppBackup.DecimalString | AppBackup.tsx:53 | `n.toString()` is a non-empty string of decimal digits with no leading zero |
| AppBackup.DecimalRoundTrip | AppBackup.tsx:53 | reading back the decimal text of `n` gives `n` |
| AppBackup.DecimalStringInjective | AppBackup.tsx:53 | different numbers get different texts |
| AppBackup.IndexRoster | AppBackup.tsx:52-57 | same length and order as the hook's data; name from `nome`, email copied, role always employee; the i-th id is the text of i + 1 |
| AppBackup.IndexRosterIds | AppBackup.tsx:52-57 | the i-th id reads back as i + 1, so ids are pairwise distinct |
| AppBackup.InitialAbsences | AppBackup.tsx:21-33 | the one mock absence: 'a1' pending for user '1'; only its date strings are given |
| AppBackup.BackupDashboard.constructor | AppBackup.tsx:43-47 | starts with an empty roster, the mock absence and an empty form |
| AppBackup.BackupDashboard.SyncExternal | AppBackup.tsx:50-60 | non-empty data replaces users with `IndexRoster(data)`; empty or non-list data leaves users unchanged |
| AppBackup.BackupDashboard.Team | AppBackup.tsx:75-86 | the backup's presence view is `TeamStatus` over its own state; the two texts are identical, so the two definitions agree by construction and every `TeamStatus` property holds of it |
| AppBackup.BackupDashboard.HandleApprove | AppBackup.tsx:88-91 | absences become `Decide(old, id, Approved)`; users and form unchanged |
| AppBackup.BackupDashboard.HandleReject | AppBackup.tsx:93-96 | absences become `Decide(old, id, Rejected)`; users and form unchanged |
| AppBackup.BackupDashboard.DeleteUser | AppBackup.tsx:98-103 | confirmed: users become `RemoveUser(old, id)`; otherwise unchanged |
| AppBackup.BackupDashboard.EditName | AppBackup.tsx:261 | only the form's name changes |
| AppBackup.BackupDashboard.EditEmail | AppBackup.tsx:272 | only the form's email changes |
| AppBackup.BackupDashboard.HandleRegister | AppBackup.tsx:109-125 | an incomplete form changes nothing; otherwise one employee is appended and the form cleared |

## Left out

- Rendering and navigation: the JSX, the helper components (`SidebarLink`, `StatCard`, the dashboard and status-board markup) and the `activeTab` state (App.tsx:55) that every `SidebarLink` and `StatCard` sets. They choose what is displayed and change none of the modelled state.
- The modal's open/closed flag (`isModalOpen`, `addUser`). It only controls what is displayed.
- The webhook service (services/n8nService.ts). Each of its calls only logs and returns nothing, so the handlers' calls to it have no effect on the modelled state.
- The network requests: the `fetch` in `fetchColaboradores` and the `useColaboradores` hook (services/handleUsers.ts). Their outcome is an input to `FetchColaboradores` and `SyncExternal`.
- The once-a-minute clock tick and React's effect and memo scheduling. `now` is a parameter of the presence view.
- Date parsing and every locale-dependent format: the Brasília clock strings, the CSV export with its cells and file name (`downloadXLSX`). Parsing is the `TimeParser` parameter; the export is not part of this model.
- Roster.FormatFetched: a truthy role string other than 'admin' or 'employee', or a non-string id, would be stored as is by the code, outside its declared type. The item type here cannot carry one. Missing `name` or `email` fields, which become `undefined`, are also not represented.
- App.InitialAbsences: the date strings are independent parameters; that 'a1' ends one hour and 'a2' 24 hours after the load instant (App.tsx:34-35, 45-46) is not a property of the constructed state. `App.InitiallyThirdUserAway` takes the relation for 'a2' as its hypothesis instead.
- types.tsx is not part of this model. The components import `./types`, which resolves to types.ts.
- AppBackup.BackupDashboard.HandleReject: `handleReject` is defined in AppBackup.tsx but no control calls it (the pending table has only an approve button); the method models the function, not a reachable transition.
- AppBackup.BackupDashboard.DeleteUser: `deleteUser` is defined in AppBackup.tsx but the users table has no delete button, so no control calls it; the method models the function, not a reachable transition.
- AppBackup.BackupDashboard.SyncExternal: three paths of the effect are not represented. A non-empty string passes the length guard and then `map` throws, uncaught. A list with a `null` item throws at `colab.nome`. An item without `nome` yields a user whose name is `undefined`. `Colaborador` has a string `nome`, so none of these can be expressed.
- Overlapping updates: `handleRegister` appends to the `users` value captured when the component last rendered, not to the latest state, and concurrent fetches may resolve in any order. The model applies events one at a time, where these coincide.
