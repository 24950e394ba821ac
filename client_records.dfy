// The records the browser client keeps. The backend answers in camelCase and
// the older fixtures use PascalCase, so the pages read most fields under both
// spellings (`user.role || user.Role`); every such pair is kept here as two
// optional properties.
module ClientRecords {
  import opened Common

  /** The signed-in user as the client stores it (the login reply plus the token). */
  datatype ClientUser = ClientUser(
    userId: Option<int>, UserID: Option<int>,
    name: Option<string>, Name: Option<string>,
    email: Option<string>, Email: Option<string>,
    contactNumber: Option<string>, ContactNumber: Option<string>,
    role: Option<string>, Role: Option<string>,
    approval: Option<string>, Approval: Option<string>,
    token: Option<string>)

  /** `user.role || user.Role` */
  function RoleOf(u: ClientUser): Option<string> { Or(u.role, u.Role) }

  /** `user.approval || user.Approval` */
  function ApprovalOf(u: ClientUser): Option<string> { Or(u.approval, u.Approval) }

  /** `user.userId || user.UserID` */
  function IdOf(u: ClientUser): Option<int> { OrInt(u.userId, u.UserID) }

  /** A travel insurance option offered beside a package; its price in cents. */
  datatype InsuranceOption = InsuranceOption(price: int)

  /** What a remote call resolves to once apiRequest has normalised it. */
  datatype Reply<T> = Success(data: T) | Failure(error: Option<string>)

  /** A string property compared with `===` against a literal. */
  predicate Is(o: Option<string>, lit: string) { o == Some(lit) }
}
