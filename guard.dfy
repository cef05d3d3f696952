/** The checks the two callable operations make before any side effect:
    the caller's role, then the request's fields; and the errors they raise. */
module Guard {
  import opened Common
  import opened Records

  /** The kinds of structured error a callable can raise. */
  datatype ErrorKind = Unauthenticated | PermissionDenied | InvalidArgument | Internal

  datatype HttpsError = HttpsError(kind: ErrorKind, message: string)

  /** What a callable returns to its caller: a value, or the error it raised. */
  datatype CallResult<+T> = Ok(value: T) | Err(error: HttpsError)

  /** An error thrown inside a callable's `try` block: one of its own
      structured errors, or the TypeError of reading a field of a missing document. */
  datatype Fault = Thrown(error: HttpsError) | TypeError(message: string)
  {
    function Message(): string {
      match this
      case Thrown(e) => e.message
      case TypeError(m) => m
    }
  }

  /** The `catch` of both callables: any fault reaches the caller as
      `internal`, keeping only its message. */
  function Rewrap(f: Fault): HttpsError {
    HttpsError(Internal, f.Message())
  }

  const NotAuthenticated: HttpsError :=
    HttpsError(Unauthenticated, "User must be authenticated")

  const Superadmin: string := "superadmin"

  /** The roles `createUser` accepts for a new account. */
  const ValidRoles: set<string> := {"superadmin", "admin_kua", "admin_dukcapil", "user"}

  /** The roles allowed to call `sendNotification`. */
  const AdminRoles: set<string> := {"superadmin", "admin_kua", "admin_dukcapil"}

  /** The role check of a callable, on the caller's document as read (`None`
      when there is no such document: reading its `role` throws). */
  function RequireRole(caller: Option<User>, allowed: set<string>, denial: string): (r: Option<Fault>)
    ensures r.None? <==> caller.Some? && caller.value.role in allowed
    ensures caller.None? ==> r == Some(TypeError(ReadOfUndefined("role")))
    ensures caller.Some? && r.Some? ==> r == Some(Thrown(HttpsError(PermissionDenied, denial)))
  {
    if caller.None? then Some(TypeError(ReadOfUndefined("role")))
    else if caller.value.role !in allowed then Some(Thrown(HttpsError(PermissionDenied, denial)))
    else None
  }

  /** The request of `createUser`; `None` is an absent field. */
  datatype CreateUserData = CreateUserData(email: Option<string>, password: Option<string>,
                                           name: Option<string>, phone: Option<string>,
                                           role: Option<string>)

  predicate FieldsPresent(d: CreateUserData) {
    Truthy(d.email) && Truthy(d.password) && Truthy(d.name) && Truthy(d.phone) && Truthy(d.role)
  }

  const SuperadminOnly: string := "Only superadmin can create users"
  const MissingFields: string := "Missing required fields"
  const InvalidRole: string := "Invalid role"

  /** backend/functions/index.js:226-252: the first fault `createUser` meets, if any. */
  function CreateUserFault(caller: Option<User>, data: CreateUserData): (r: Option<Fault>)
    ensures r.None? <==>
      caller.Some? && caller.value.role == Superadmin
      && FieldsPresent(data) && data.role.value in ValidRoles
    ensures RequireRole(caller, {Superadmin}, SuperadminOnly).Some? ==>
      r == RequireRole(caller, {Superadmin}, SuperadminOnly)
    ensures r.Some? && r.value.Thrown? && r.value.error.kind == InvalidArgument ==>
      caller.Some? && caller.value.role == Superadmin
    ensures caller.Some? && caller.value.role == Superadmin && !FieldsPresent(data) ==>
      r == Some(Thrown(HttpsError(InvalidArgument, MissingFields)))
    ensures caller.Some? && caller.value.role == Superadmin && FieldsPresent(data)
            && data.role.value !in ValidRoles ==>
      r == Some(Thrown(HttpsError(InvalidArgument, InvalidRole)))
  {
    var denied := RequireRole(caller, {Superadmin}, SuperadminOnly);
    if denied.Some? then denied
    else if !FieldsPresent(data) then Some(Thrown(HttpsError(InvalidArgument, MissingFields)))
    else if data.role.value !in ValidRoles then Some(Thrown(HttpsError(InvalidArgument, InvalidRole)))
    else None
  }

  /** The request of `sendNotification`; `None` is an absent field. */
  datatype NotificationData = NotificationData(phoneNumber: Option<string>, message: Option<string>)

  const AdminsOnly: string := "Only admins can send notifications"
  const PhoneAndMessageRequired: string := "Phone number and message are required"

  /** backend/functions/index.js:307-324: the first fault `sendNotification` meets, if any. */
  function SendNotificationFault(caller: Option<User>, data: NotificationData): (r: Option<Fault>)
    ensures r.None? <==>
      caller.Some? && caller.value.role in AdminRoles
      && Truthy(data.phoneNumber) && Truthy(data.message)
    ensures RequireRole(caller, AdminRoles, AdminsOnly).Some? ==>
      r == RequireRole(caller, AdminRoles, AdminsOnly)
    ensures caller.Some? && caller.value.role in AdminRoles
            && !(Truthy(data.phoneNumber) && Truthy(data.message)) ==>
      r == Some(Thrown(HttpsError(InvalidArgument, PhoneAndMessageRequired)))
  {
    var denied := RequireRole(caller, AdminRoles, AdminsOnly);
    if denied.Some? then denied
    else if !Truthy(data.phoneNumber) || !Truthy(data.message) then
      Some(Thrown(HttpsError(InvalidArgument, PhoneAndMessageRequired)))
    else None
  }

  /** Authorisation comes before validation: a caller who is refused is
      refused with the same fault whatever the request holds. */
  lemma CreateUserDenialIgnoresRequest(caller: Option<User>, d1: CreateUserData, d2: CreateUserData)
    requires !(caller.Some? && caller.value.role == Superadmin)
    ensures CreateUserFault(caller, d1) == CreateUserFault(caller, d2)
    ensures CreateUserFault(caller, d1).Some?
  {
  }

  lemma SendNotificationDenialIgnoresRequest(caller: Option<User>, d1: NotificationData,
                                             d2: NotificationData)
    requires !(caller.Some? && caller.value.role in AdminRoles)
    ensures SendNotificationFault(caller, d1) == SendNotificationFault(caller, d2)
    ensures SendNotificationFault(caller, d1).Some?
  {
  }

  /** Whoever may create users may also send notifications, and an ordinary
      `user` may do neither. */
  lemma RolesNested(caller: User, c: CreateUserData, n: NotificationData)
    ensures CreateUserFault(Some(caller), c).None? ==>
      RequireRole(Some(caller), AdminRoles, AdminsOnly).None?
    ensures caller.role == "user" ==>
      CreateUserFault(Some(caller), c).Some? && SendNotificationFault(Some(caller), n).Some?
  {
  }
}
