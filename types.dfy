/** The entities of the absence manager, as declared in types.ts. */
module Types {

  /** An optional value: a missing field, `undefined`, or a `NaN` time. */
  datatype Option<+T> = None | Some(value: T)

  /** The three states of an absence request. */
  datatype AbsenceStatus = Pending | Approved | Rejected

  /** The four kinds of absence: 'Folga', 'Ausência Parcial', 'Férias', 'Licença'. */
  datatype AbsenceType = Folga | AusenciaParcial | Ferias | Licenca

  datatype Role = Admin | Employee

  /** A member of the team roster. */
  datatype User = User(id: string, name: string, email: string, role: Role)

  /** An absence request. `startDate`, `endDate` and `requestedAt` are the
      ISO date strings the application stores; they are turned into instants
      only where the presence view needs them. */
  datatype Absence = Absence(
    id: string,
    userId: string,
    userName: string,
    kind: AbsenceType,
    startDate: string,
    endDate: string,
    status: AbsenceStatus,
    reason: Option<string>,
    requestedAt: string)

  /** The date strings of one mock absence that the code computes from the
      clock when the module loads (`new Date(...).toISOString()`). */
  datatype LoadStamps = LoadStamps(startDate: string, endDate: string, requestedAt: string)

  /** A user together with their presence: the user's own fields, whether
      they are online and the absence that keeps them away, if any. */
  datatype TeamMemberStatus = TeamMemberStatus(
    id: string,
    name: string,
    email: string,
    role: Role,
    isOnline: bool,
    currentAbsence: Option<Absence>)
}
