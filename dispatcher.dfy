/** The WhatsApp dispatcher `sendWhatsAppNotification`: its decision logic as
    a pure plan (what is sent, what is returned), which `Store.Dispatch` performs. */
module Dispatcher {
  import opened Common
  import opened Records
  import opened Phone

  /** The two environment variables; absent or empty means not configured. */
  datatype Config = Config(apiUrl: Option<string>, apiKey: Option<string>)

  predicate Configured(config: Config) {
    Truthy(config.apiUrl) && Truthy(config.apiKey)
  }

  /** What the HTTP transport reports for the one POST: the provider's
      response payload, or the message of the error it raised. */
  datatype SendOutcome = Response(data: string) | TransportError(message: string)

  /** `{success: true, data}`, `{success: false, message}` or `{success: false, error}`. */
  datatype DispatchResult =
    | Delivered(data: string)
    | NotConfigured(message: string)
    | SendFailed(error: string)
  {
    predicate Success() { Delivered? }
  }

  const NotConfiguredMessage: string := "WhatsApp API not configured"

  /** The effect of one dispatch: the POSTs issued (at most one) and the result. */
  datatype DispatchPlan = DispatchPlan(attempts: seq<Send>, result: DispatchResult)

  /** backend/functions/index.js:13-54. `phone` is `None` when the recipient's
      phone is undefined: `replace` then throws inside the `try` and the error is
      returned, with no POST. `outcome` only matters when the POST is issued. */
  function Plan(config: Config, phone: Option<string>, message: string,
                outcome: SendOutcome): (p: DispatchPlan)
    ensures !Configured(config) ==>
              p.attempts == [] && p.result == NotConfigured(NotConfiguredMessage)
    ensures Configured(config) && phone.Some? ==>
              p.attempts == [Send(Normalize(phone.value), message)]
    ensures Configured(config) && phone.None? ==>
              p.attempts == [] && p.result == SendFailed(ReadOfUndefined("replace"))
    ensures |p.attempts| <= 1
    ensures forall i :: 0 <= i < |p.attempts| ==> Canonical(p.attempts[i].target)
    ensures p.result.Success() <==> p.attempts != [] && outcome.Response?
    ensures p.result.Success() ==> p.result.data == outcome.data
    ensures p.attempts != [] && outcome.TransportError? ==>
              p.result == SendFailed(outcome.message)
  {
    if !Configured(config) then
      DispatchPlan([], NotConfigured(NotConfiguredMessage))
    else if phone.None? then
      DispatchPlan([], SendFailed(ReadOfUndefined("replace")))
    else
      var target := Normalize(phone.value);
      match outcome
      case Response(data) => DispatchPlan([Send(target, message)], Delivered(data))
      case TransportError(m) => DispatchPlan([Send(target, message)], SendFailed(m))
  }
}
