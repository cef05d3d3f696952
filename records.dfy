/** The documents the backend reads and writes: users, marriage applications,
    audit-log entries, and the send attempts handed to the messaging provider. */
module Records {
  import opened Common

  /** A `users` document. `phone` is `None` when the document has no phone
      field; `createdBy` is `None` for users created outside `createUser`. */
  datatype User = User(email: string, name: string, phone: Option<string>,
                       role: string, createdBy: Option<string>)

  /** A `marriageApplications` document, as far as the handlers read it.
      `groomName` / `brideName` are `None` when `groomData` / `brideData` is absent. */
  datatype Application = Application(userId: string, status: Option<string>,
                                     rejectionReason: Option<string>,
                                     groomName: Option<string>, brideName: Option<string>)

  /** The `details` record of a log entry, one shape per writer. */
  datatype Details =
    | CreatedDetails(groomName: string, brideName: string)
    | StatusDetails(oldStatus: Option<string>, newStatus: Option<string>,
                    rejectionReason: Option<string>)
    | UserDetails(newUserId: string, newUserEmail: string, newUserRole: string)

  /** A `logs` document; `applicationId` is `None` (null) for user management.
      The server timestamp is not modelled. */
  datatype LogEntry = LogEntry(applicationId: Option<string>, action: Action,
                               userId: string, details: Details)

  /** One HTTP POST to the messaging provider: the normalised target and the text. */
  datatype Send = Send(target: string, message: string)

  /** The action tags the backend writes into the log. */
  datatype Action =
    | ApplicationCreated
    | StatusProcessed
    | StatusValidated
    | StatusFinished
    | StatusRejected
    | UserCreated
  {
    /** The tag as it is stored in the `action` field. */
    function Tag(): string {
      match this
      case ApplicationCreated => "APPLICATION_CREATED"
      case StatusProcessed => "STATUS_PROCESSED"
      case StatusValidated => "STATUS_VALIDATED"
      case StatusFinished => "STATUS_FINISHED"
      case StatusRejected => "STATUS_REJECTED"
      case UserCreated => "USER_CREATED"
    }
  }

  /** A document read by id: `undefined` when there is no such document. */
  function Lookup(users: map<string, User>, uid: string): (u: Option<User>)
    ensures u.Some? <==> uid in users
    ensures u.Some? ==> u.value == users[uid]
  {
    if uid in users then Some(users[uid]) else None
  }

  /** What one `createLog` call adds to the log: the entry when the write
      goes through, nothing when it fails (the failure is swallowed). */
  function Appended(writeOk: bool, e: LogEntry): (r: seq<LogEntry>)
    ensures |r| <= 1
    ensures e in r <==> writeOk
    ensures !writeOk ==> r == []
  {
    if writeOk then [e] else []
  }

  /** The message a JavaScript engine gives when a property of `undefined` is read. */
  function ReadOfUndefined(property: string): string {
    "Cannot read properties of undefined (reading '" + property + "')"
  }
}
