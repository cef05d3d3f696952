# Marriage-application notification backend, in Dafny

This project models the Cloud Functions backend of a KUA (Office of Religious
Affairs) marriage-registration workflow, `backend/functions/index.js`. The model
covers these parts of the backend:

- **Phone normaliser** (module `Phone`). It keeps the digits of a phone number
  and writes the number in the Indonesian international form: a leading `0`
  becomes `62`, a number already starting with `62` is kept, and anything else
  gets `62` in front.
- **WhatsApp dispatcher** `sendWhatsAppNotification` (modules `Dispatcher`
  and `Backend`). `Dispatcher.Plan` is its pure decision:
  - with no provider URL or key it makes no POST and returns "not configured";
  - otherwise, when the phone is defined, it makes exactly one POST, to the
    normalised number;
  - otherwise, with an undefined phone, `replace` throws inside the `try`: no
    POST, and the TypeError's message comes back as the error;
  - it always returns a result.
  `Store.Dispatch` does the same step by step on the store, and is proved
  equal to `Plan`.
- **Audit logger** `createLog` (`Store.CreateLog`). It only appends to the log.
  A failed write leaves the log as it was and is not reported to the caller.
- **Status policy** (module `Policy`, with the texts in `Templates`). It maps
  the four announced statuses `processed`, `validated`, `finished` and
  `rejected` to a message and an action tag. Any other status announces
  nothing.
- **The two Firestore triggers**, `onApplicationCreated` and
  `onStatusChanged` (`Store.OnApplicationCreated`, `Store.OnStatusChanged`).
  Each is stated as its exact effect on the sent-messages trace and the log.
- **The two callables**, `createUser` and `sendNotification`
  (`Store.CreateUser`, `Store.SendNotification`). The checks they make first
  are the pure functions in `Guard`.

`Store` holds the state the code changes: the `users` collection (a map),
the `logs` collection (a sequence that only grows) and `sent`, every POST made
to the provider, in order. The class invariant `Valid()` says that every number
ever sent to is in canonical form.

Everything decided outside the code is a parameter:
- what the provider answers (`SendOutcome`);
- whether a log write goes through (`logOk`);
- what the identity service does (`Provisioning`);
- the two environment variables (`Config`).

JavaScript's `undefined` is `None`. A string field is truthy when it is present
and not empty (`Common.Truthy`). A missing document, or a missing `groomData`
or `brideData`, makes the code read a property of `undefined`. The model keeps
that TypeError and where it happens:
- in the triggers it ends the handler with `{success: false}`. Sends that were
  already made stay made, and nothing is logged.
- in the callables it surfaces as `internal`.

The admin lookup `.where("role", "==", "admin_kua").limit(1)` is a
nondeterministic choice. `OnApplicationCreated` promises only that the admin
notice goes to *some* `admin_kua` user.

Three places where the code does something other than a quick reading suggests:
- **Errors raised inside the callables.** In both callables the
  `permission-denied` and `invalid-argument` errors are thrown inside the
  `try`. The `catch` re-raises every error as `internal` with the original
  message (backend/functions/index.js:283-289 and 329-334). Only
  `unauthenticated` reaches the caller with its own kind. Both methods state
  this in their `ensures`.
- **A missing caller document.** It is not a clean denial. Reading `.role`
  throws, which also surfaces as `internal`.
- **When `onApplicationCreated` writes its log entry.** The entry is not
  written unconditionally. It is skipped when the applicant's document is
  missing or when `groomData` / `brideData` is absent.

## Model

| member | source | states |
|---|---|---|
| Phone.StripNonDigits | backend/functions/index.js:25 | the result is digits only and no longer than the input |
| Phone.StripCounts | backend/functions/index.js:25 | every digit is kept exactly as often as it occurs; no other character is kept |
| Phone.StripAppend | backend/functions/index.js:25 | stripping a concatenation is concatenating the strips, so the digits keep their order |
| Phone.StripKeepsDigits | backend/functions/index.js:25 | a digits-only string is left unchanged |
| Phone.StripNoDigits | backend/functions/index.js:25 | a string with no digits strips to the empty string |
| Phone.Normalize | backend/functions/index.js:25-30 | for every input the result is digits only and starts with "62" |
| Phone.NormalizeCases | backend/functions/index.js:26-30 | a leading 0 is replaced by 62; a number already starting with 62 is kept; anything else, the empty string included, gets 62 prepended |
| Phone.CanonicalIsFixed | backend/functions/index.js:25-30 | a canonical number (digits, starting with 62) is returned unchanged |
| Phone.CanonicalIffFixed | backend/functions/index.js:25-30 | a number is a fixed point of the normaliser exactly when it is canonical |
| Phone.NormalizeIdempotent | backend/functions/index.js:25-30 | normalising twice gives the same as normalising once |
| Phone.NormalizeIgnoresSeparators | backend/functions/index.js:25-30 | inserting non-digit characters anywhere does not change the normalised number |
| Phone.NormalizeExamples | backend/functions/index.js:25-30 | "08123", "8123" and "628123" all give "628123"; "" gives "62" |
| Phone.NormalizeFormattedExample | backend/functions/index.js:25-30 | "+62 812-3" gives "628123" |
| Records.Appended | backend/functions/index.js:59-72 | one log write adds at most one entry; it adds the entry exactly when the write goes through, and nothing at all when the write fails |
| Dispatcher.Plan | backend/functions/index.js:13-54 | no URL or key: no POST, "not configured"; otherwise a defined phone gives exactly one POST to its normalised number, and an undefined phone gives no POST and the TypeError of `replace`; at most one POST in all cases; success exactly when a POST was made and the transport answered; a transport error comes back as the error |
| Backend.Store.Dispatch | backend/functions/index.js:13-54 | appends exactly the POSTs of `Plan` to the trace, returns its result, and keeps every target canonical |
| Backend.Store.CreateLog | backend/functions/index.js:59-72 | the log grows by the entry when the write succeeds and is unchanged otherwise; no failure reaches the caller |
| Templates.AddressedMentions | backend/functions/index.js:156-186 | the status-message shape contains the applicant's name and the application id |
| Templates.RejectedTextGivesReason | backend/functions/index.js:180-186 | the rejection text contains the reason when it is truthy, and "Tidak disebutkan" otherwise |
| Templates.ApplicantCreatedMentions | backend/functions/index.js:90-95 | the applicant's confirmation contains the applicant's name and the application id |
| Templates.AdminCreatedMentions | backend/functions/index.js:107-112 | the admin notice contains the application id and the groom's and bride's names |
| Policy.ResolveStatus | backend/functions/index.js:154-192 | a notice is due exactly when the new status is one of processed, validated, finished, rejected |
| Policy.ResolveStatusTags | backend/functions/index.js:155-188 | processed, validated, finished and rejected map to STATUS_PROCESSED, STATUS_VALIDATED, STATUS_FINISHED and STATUS_REJECTED |
| Policy.ActionTagDeterminesStatus | backend/functions/index.js:154-192 | two transitions logged under the same tag entered the same status |
| Policy.ResolveStatusMentions | backend/functions/index.js:156-186 | every status notice contains the applicant's name and the application id |
| Policy.RejectionGivesReason | backend/functions/index.js:180-188 | the rejection notice contains the reason when it is truthy, and "Tidak disebutkan" otherwise |
| Backend.Store.OnStatusChanged | backend/functions/index.js:134-209 | same status before and after: returns null with no send and no log; an unannounced status: the same; an announced status with no applicant document: failure with no send and no log; otherwise exactly the POSTs of one dispatch to the applicant's phone, then one log entry (when the write goes through) holding the action tag, the old and new status, and the reason or null, whatever the dispatch result |
| Backend.Store.OnApplicationCreated | backend/functions/index.js:78-128 | no applicant document: failure with no send and no log; otherwise the applicant's confirmation is dispatched first; then, if some admin_kua user exists, the admin notice goes to that user; then one APPLICATION_CREATED entry with both names is written; a missing groom or bride record stops it after the applicant's send, with no log |
| Guard.RequireRole | backend/functions/index.js:226-234 | passes exactly when the caller's document exists and its role is allowed; a missing document is a TypeError on `role`; otherwise permission-denied |
| Guard.CreateUserFault | backend/functions/index.js:226-252 | no fault exactly when the caller is superadmin, all five fields are truthy and the role is one of the four valid roles; the role check comes first, then missing fields, then an invalid role |
| Guard.SendNotificationFault | backend/functions/index.js:307-324 | no fault exactly when the caller's role is superadmin, admin_kua or admin_dukcapil and both fields are truthy; the role check comes first |
| Guard.CreateUserDenialIgnoresRequest | backend/functions/index.js:229-244 | a caller who is not superadmin gets the same fault whatever the request holds |
| Guard.SendNotificationDenialIgnoresRequest | backend/functions/index.js:310-319 | a caller who is not an admin gets the same fault whatever the request holds |
| Guard.RolesNested | backend/functions/index.js:229-315 | anyone allowed to create users also passes the notification role check; a plain `user` is refused by both callables |
| Backend.Store.CreateUser | backend/functions/index.js:215-290 | unauthenticated: that error, store unchanged; any check fault or identity-service error: `internal` with the original message, store unchanged; success: exactly one new user record, created by the caller, and one USER_CREATED entry with a null applicationId; the only error kind other than `internal` is `unauthenticated`, exactly when there is no caller |
| Backend.Store.SendNotification | backend/functions/index.js:296-336 | unauthenticated or a check fault: no send; fault kinds as for CreateUser; otherwise the dispatcher's result is returned unchanged, its POSTs are the only effect, and nothing is logged |

Three helpers have no row of their own; the row named here states what they do:
- `Dispatcher.Configured`, the check of the two environment variables
  (backend/functions/index.js:19), is covered by the `Dispatcher.Plan` row.
- `Guard.Rewrap`, the `catch` of both callables
  (backend/functions/index.js:283-289 and 329-334), is covered by the
  `Backend.Store.CreateUser` and `Backend.Store.SendNotification` rows.
- `Backend.NewUser`, the `users` document written by `createUser`
  (backend/functions/index.js:262-269), is covered by the
  `Backend.Store.CreateUser` row.

## Left out

- The Firebase runtime, the trigger wiring, `admin.initializeApp` and the
  `db` singleton. The handlers are methods on an injected `Store`.
- The HTTP transport (`axios.post`), its headers and its response object.
  The transport's answer is the `SendOutcome` parameter.
- `process.env` lookups. The configuration is fixed when the `Store` is made.
- `admin.auth().createUser`. It is the `Provisioning` parameter, which gives a
  uid or an error. Whether that uid is fresh is not assumed: the user write
  replaces any document with that id, as Firestore `set` does.
- Server timestamps (`createdAt`, `timestamp`) and all `console` output.
- Failures of Firestore reads and of the `users` write. Only a missing
  document is modelled. A failed log write is modelled, because `createLog`
  swallows it.
- Firestore's refusal of `undefined` field values, for instance an `oldStatus`
  that was never set. The log entry holds `None` there.
- Values of non-string type in string fields, such as a numeric phone number.
  A `groomData` present without a `name`. A `name` of `undefined` rendered as
  the text "undefined".
- An application without a `userId`. The code would then throw at the user
  lookup, before the status switch. `Application.userId` is always a string
  in the model.
- A callable invoked with `data` null or undefined. Destructuring it
  (backend/functions/index.js:237 and 317) throws a TypeError, which surfaces
  as `internal` with an engine message the model does not produce. The request
  types always hold a record of optional fields.
- Concurrency between invocations and repeated delivery of one trigger.
- Backend.Store.OnStatusChanged: does not state that an unchanged status causes
  no user lookup, because reads are not traced; only sends and log writes are.
- Backend.Store.OnApplicationCreated: does not state which `admin_kua` user is
  picked when there are several, because the query has no ordering.
