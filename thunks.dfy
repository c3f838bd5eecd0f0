/**
 * The success/reject rule shared by every asynchronous thunk of the store.
 * A REST helper always resolves to an envelope `{status, data?, message?}`;
 * the thunk fulfils only when `status` is truthy (and, for the thunks guarded
 * on `data`, when `data` is truthy too), handing over the envelope, its
 * `data` or its own argument, and otherwise rejects with
 * `message || <fallback text>`.
 */
module Thunks {
  import opened Wrappers

  /** The response envelope. `data` is `None` when it is absent or falsy. */
  datatype Response<D> = Response(status: bool, data: Option<D>, message: Option<string>)

  /** How a thunk settles: the payload of `fulfilled` or the value of `rejectWithValue`. */
  datatype Settlement<P> = Fulfilled(payload: P) | Rejected(reason: string)

  /** JavaScript truthiness of an optional string: present and not empty. */
  predicate Truthy(m: Option<string>)
  {
    m.Some? && m.value != ""
  }

  /** `message || fallback`. */
  function Reason(message: Option<string>, fallback: string): (r: string)
    ensures Truthy(message) ==> r == message.value
    ensures !Truthy(message) ==> r == fallback
    ensures fallback != "" ==> r != ""
  {
    if Truthy(message) then message.value else fallback
  }

  /** What a thunk returns when it fulfils. */
  datatype Returned = WholeResponse | ResponseData | ItsArgument

  /**
   * The payload of a `fulfilled` action: the whole envelope, its `data`
   * (absent when it was absent or falsy), or the thunk's own argument.
   */
  datatype Payload<D> = Envelope(response: Response<D>) | Body(data: Option<D>) | Argument(arg: string)

  /**
   * What distinguishes one thunk from another: whether its guard is
   * `response.status && response.data` or `response.status` alone, what it
   * returns on success, and the text it falls back on when rejecting.
   */
  datatype ThunkShape = ThunkShape(needsData: bool, returned: Returned, fallback: string)

  /** How a thunk of shape `sh`, called with `arg`, settles on an envelope `resp` that arrived. */
  function Settle<D>(sh: ThunkShape, resp: Response<D>, arg: string): (s: Settlement<Payload<D>>)
    ensures s.Fulfilled? <==> resp.status && (sh.needsData ==> resp.data.Some?)
    ensures s.Fulfilled? && sh.returned == WholeResponse ==> s.payload == Envelope(resp)
    ensures s.Fulfilled? && sh.returned == ResponseData ==> s.payload == Body(resp.data)
    ensures s.Fulfilled? && sh.returned == ItsArgument ==> s.payload == Argument(arg)
    ensures s.Rejected? ==> s.reason == Reason(resp.message, sh.fallback)
    ensures s.Rejected? && sh.fallback != "" ==> s.reason != ""
  {
    if resp.status && (!sh.needsData || resp.data.Some?) then
      Fulfilled(match sh.returned
        case WholeResponse => Envelope(resp)
        case ResponseData => Body(resp.data)
        case ItsArgument => Argument(arg))
    else
      Rejected(Reason(resp.message, sh.fallback))
  }

  /** When the request threw: `rejectWithValue(error.message || fallback)`. */
  function SettleThrown<P>(errorMessage: Option<string>, fallback: string): (s: Settlement<P>)
    ensures s.Rejected?
    ensures s.reason == Reason(errorMessage, fallback)
    ensures fallback != "" ==> s.reason != ""
  {
    Rejected(Reason(errorMessage, fallback))
  }
}
