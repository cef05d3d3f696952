/** The Cloud Functions backend: the two Firestore triggers and the two
    callable operations, over an in-memory store. The store holds the `users`
    collection, the `logs` collection and the trace of POSTs made to the
    WhatsApp provider. Outcomes decided outside the code (the provider's
    answer, whether a log write goes through, the identity service) are
    parameters. */
module Backend {
  import opened Common
  import opened Records
  import opened Phone
  import opened Dispatcher
  import opened Templates
  import opened Policy
  import opened Guard

  /** What a trigger handler returns: `null`, `{success: true}` or
      `{success: false, error}`. */
  datatype HandlerResult = Ignored | Succeeded | Failed(error: string)

  /** What `admin.auth().createUser` does: the new account's uid, or the error it raised. */
  datatype Provisioning = Provisioned(uid: string) | ProvisioningFailed(message: string)

  /** The answer of a successful `createUser`. */
  datatype CreatedUser = CreatedUser(userId: string, message: string)

  const AdminKua: string := "admin_kua"
  const UserCreatedMessage: string := "User created successfully"

  predicate IsAdminKua(users: map<string, User>, uid: string) {
    uid in users && users[uid].role == AdminKua
  }

  /** The `users` document `createUser` writes for a new account. */
  function NewUser(data: CreateUserData, caller: string): User
    requires FieldsPresent(data)
  {
    User(data.email.value, data.name.value, data.phone, data.role.value, Some(caller))
  }

  class Store {
    /** `WHATSAPP_API_URL` and `WHATSAPP_API_KEY`. */
    const config: Config
    var users: map<string, User>
    var logs: seq<LogEntry>
    /** Every POST made to the provider, in order. */
    var sent: seq<Send>

    /** Every number the provider was ever asked to send to is in canonical form. */
    ghost predicate Valid()
      reads this
    {
      forall i :: 0 <= i < |sent| ==> Canonical(sent[i].target)
    }

    constructor (config: Config, users: map<string, User>)
      ensures Valid()
      ensures this.config == config && this.users == users && logs == [] && sent == []
    {
      this.config := config;
      this.users := users;
      logs := [];
      sent := [];
    }

    /** `sendWhatsAppNotification` (backend/functions/index.js:13-54). */
    method Dispatch(phone: Option<string>, message: string, outcome: SendOutcome)
      returns (r: DispatchResult)
      requires Valid()
      modifies this`sent
      ensures Valid()
      ensures sent == old(sent) + Plan(config, phone, message, outcome).attempts
      ensures r == Plan(config, phone, message, outcome).result
    {
      if !Configured(config) {
        return NotConfigured(NotConfiguredMessage);
      }
      if phone.None? {
        return SendFailed(ReadOfUndefined("replace"));
      }
      var target := Normalize(phone.value);
      sent := sent + [Send(target, message)];
      match outcome
      case Response(data) => r := Delivered(data);
      case TransportError(m) => r := SendFailed(m);
    }

    /** `createLog` (backend/functions/index.js:59-72): a failed write is swallowed. */
    method CreateLog(applicationId: Option<string>, action: Action, userId: string,
                     details: Details, writeOk: bool)
      modifies this`logs
      ensures logs == old(logs) + Appended(writeOk, LogEntry(applicationId, action, userId, details))
    {
      if writeOk {
        logs := logs + [LogEntry(applicationId, action, userId, details)];
      }
    }

    /** `onApplicationCreated` (backend/functions/index.js:78-128). */
    method OnApplicationCreated(applicationId: string, app: Application,
                                applicantOutcome: SendOutcome, adminOutcome: SendOutcome,
                                logOk: bool)
      returns (r: HandlerResult)
      requires Valid()
      modifies this`sent, this`logs
      ensures Valid()
      ensures app.userId !in users ==>
        r == Failed(ReadOfUndefined("name")) && sent == old(sent) && logs == old(logs)
      ensures app.userId in users ==>
        var u := users[app.userId];
        var first := old(sent) + Plan(config, u.phone, ApplicantCreated(u.name, applicationId),
                                      applicantOutcome).attempts;
        && (app.groomName.None? || app.brideName.None? ==>
              r == Failed(ReadOfUndefined("name")) && sent == first && logs == old(logs))
        && (app.groomName.Some? && app.brideName.Some? ==>
              && r == Succeeded
              && logs == old(logs) + Appended(logOk, LogEntry(Some(applicationId), ApplicationCreated,
                   app.userId, CreatedDetails(app.groomName.value, app.brideName.value)))
              && ((forall a :: !IsAdminKua(users, a)) ==> sent == first)
              && ((exists a :: IsAdminKua(users, a)) ==>
                    exists a :: IsAdminKua(users, a) && sent == first
                      + Plan(config, users[a].phone,
                             AdminCreated(applicationId, u.name, app.groomName.value, app.brideName.value),
                             adminOutcome).attempts))
    {
      if app.userId !in users {
        return Failed(ReadOfUndefined("name"));
      }
      var applicant := users[app.userId];
      var _ := Dispatch(applicant.phone, ApplicantCreated(applicant.name, applicationId),
                        applicantOutcome);
      // `.where("role", "==", "admin_kua").limit(1)`: some such user, which one is unspecified.
      if exists a :: a in users && users[a].role == AdminKua {
        var a :| a in users && users[a].role == AdminKua;
        assert IsAdminKua(users, a);
        if app.groomName.None? || app.brideName.None? {
          return Failed(ReadOfUndefined("name"));
        }
        var _ := Dispatch(users[a].phone,
                          AdminCreated(applicationId, applicant.name,
                                       app.groomName.value, app.brideName.value),
                          adminOutcome);
      }
      if app.groomName.None? || app.brideName.None? {
        return Failed(ReadOfUndefined("name"));
      }
      CreateLog(Some(applicationId), ApplicationCreated, app.userId,
                CreatedDetails(app.groomName.value, app.brideName.value), logOk);
      r := Succeeded;
    }

    /** `onStatusChanged` (backend/functions/index.js:134-209). */
    method OnStatusChanged(applicationId: string, before: Application, after: Application,
                           outcome: SendOutcome, logOk: bool)
      returns (r: HandlerResult)
      requires Valid()
      modifies this`sent, this`logs
      ensures Valid()
      ensures before.status == after.status ==>
        r == Ignored && sent == old(sent) && logs == old(logs)
      ensures before.status != after.status ==>
        var applicant := Lookup(users, after.userId);
        var name := if applicant.Some? then applicant.value.name else "";
        var notice := ResolveStatus(after.status, applicationId, name, after.rejectionReason);
        && (notice.None? ==> r == Ignored && sent == old(sent) && logs == old(logs))
        && (notice.Some? && applicant.None? ==>
              r == Failed(ReadOfUndefined("name")) && sent == old(sent) && logs == old(logs))
        && (notice.Some? && applicant.Some? ==>
              && r == Succeeded
              && sent == old(sent) + Plan(config, applicant.value.phone, notice.value.message,
                                          outcome).attempts
              && logs == old(logs) + Appended(logOk, LogEntry(Some(applicationId), notice.value.action,
                   after.userId,
                   StatusDetails(before.status, after.status,
                                 if Truthy(after.rejectionReason) then after.rejectionReason
                                 else None))))
    {
      if before.status == after.status {
        return Ignored;
      }
      var applicant := Lookup(users, after.userId);
      var name := if applicant.Some? then applicant.value.name else "";
      var notice := ResolveStatus(after.status, applicationId, name, after.rejectionReason);
      if notice.None? {
        return Ignored;
      }
      if applicant.None? {
        return Failed(ReadOfUndefined("name"));
      }
      var _ := Dispatch(applicant.value.phone, notice.value.message, outcome);
      var reason := if Truthy(after.rejectionReason) then after.rejectionReason else None;
      CreateLog(Some(applicationId), notice.value.action, after.userId,
                StatusDetails(before.status, after.status, reason), logOk);
      r := Succeeded;
    }

    /** The callable `createUser` (backend/functions/index.js:215-290). `auth` is
        the caller's uid, `None` for an unauthenticated call. */
    method CreateUser(auth: Option<string>, data: CreateUserData, provisioning: Provisioning,
                      logOk: bool)
      returns (r: CallResult<CreatedUser>)
      requires Valid()
      modifies this`users, this`logs
      ensures Valid()
      ensures auth.None? ==>
        r == Err(NotAuthenticated) && users == old(users) && logs == old(logs)
      ensures auth.Some? && CreateUserFault(Lookup(old(users), auth.value), data).Some? ==>
        r == Err(Rewrap(CreateUserFault(Lookup(old(users), auth.value), data).value))
        && users == old(users) && logs == old(logs)
      ensures auth.Some? && CreateUserFault(Lookup(old(users), auth.value), data).None? ==>
        match provisioning
        case ProvisioningFailed(m) =>
          r == Err(HttpsError(Internal, m)) && users == old(users) && logs == old(logs)
        case Provisioned(uid) =>
          && r == Ok(CreatedUser(uid, UserCreatedMessage))
          && users == old(users)[uid := NewUser(data, auth.value)]
          && logs == old(logs) + Appended(logOk, LogEntry(None, UserCreated, auth.value,
               UserDetails(uid, data.email.value, data.role.value)))
      ensures r.Err? ==> (r.error.kind == Unauthenticated <==> auth.None?)
      ensures r.Err? && auth.Some? ==> r.error.kind == Internal
    {
      if auth.None? {
        return Err(NotAuthenticated);
      }
      var caller := auth.value;
      var fault := CreateUserFault(Lookup(users, caller), data);
      if fault.Some? {
        return Err(Rewrap(fault.value));
      }
      match provisioning
      case ProvisioningFailed(m) =>
        r := Err(HttpsError(Internal, m));
      case Provisioned(uid) =>
        users := users[uid := NewUser(data, caller)];
        CreateLog(None, UserCreated, caller, UserDetails(uid, data.email.value, data.role.value),
                  logOk);
        r := Ok(CreatedUser(uid, UserCreatedMessage));
    }

    /** The callable `sendNotification` (backend/functions/index.js:296-336):
        the dispatcher's result is passed back as it is, and nothing is logged. */
    method SendNotification(auth: Option<string>, data: NotificationData, outcome: SendOutcome)
      returns (r: CallResult<DispatchResult>)
      requires Valid()
      modifies this`sent
      ensures Valid()
      ensures auth.None? ==> r == Err(NotAuthenticated) && sent == old(sent)
      ensures auth.Some? && SendNotificationFault(Lookup(users, auth.value), data).Some? ==>
        r == Err(Rewrap(SendNotificationFault(Lookup(users, auth.value), data).value))
        && sent == old(sent)
      ensures auth.Some? && SendNotificationFault(Lookup(users, auth.value), data).None? ==>
        var plan := Plan(config, data.phoneNumber, data.message.value, outcome);
        r == Ok(plan.result) && sent == old(sent) + plan.attempts
      ensures r.Err? ==> (r.error.kind == Unauthenticated <==> auth.None?)
      ensures r.Err? && auth.Some? ==> r.error.kind == Internal
    {
      if auth.None? {
        return Err(NotAuthenticated);
      }
      var fault := SendNotificationFault(Lookup(users, auth.value), data);
      if fault.Some? {
        return Err(Rewrap(fault.value));
      }
      var result := Dispatch(data.phoneNumber, data.message.value, outcome);
      r := Ok(result);
    }
  }
}
