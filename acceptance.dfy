/**
 * The request/response handshake between `ExecuteDeal` and the acceptance
 * event loop (`checkForDealAcceptance`). The two `select` statements become
 * an explicit choice of which event happened first.
 */
module Acceptance {
  import opened Wrappers
  import opened Errors

  datatype RejectionInfo = RejectionInfo(reason: string)

  /** The event loop's reply; the zero value is `EmptyResp`. */
  datatype AcceptDealResp = AcceptDealResp(accepted: bool, ri: Option<RejectionInfo>, err: Option<Error>)

  const EmptyResp := AcceptDealResp(false, None, None)

  /** Which case of the two selects fired. */
  datatype Handshake =
    | DoneBeforeSend(ctxErr: ContextError)   // the provider context ended before the loop took the request
    | DoneBeforeReply(ctxErr: ContextError)  // the loop took the request, the context ended before the reply
    | Replied(resp: AcceptDealResp)          // the loop took the request and replied

  datatype HandshakeResult = HandshakeResult(resp: AcceptDealResp, err: Option<Error>)

  /** The request was handed to the event loop. */
  predicate RequestTaken(h: Handshake)
  {
    !h.DoneBeforeSend?
  }

  /**
   * `checkForDealAcceptance`: shutdown at either wait yields the context's
   * error and an empty response; otherwise the loop's reply comes back
   * unchanged with no error.
   */
  function CheckForDealAcceptance(h: Handshake): (r: HandshakeResult)
    ensures r.err.Some? <==> !h.Replied?
    ensures h.Replied? ==> r.resp == h.resp
    ensures !h.Replied? ==> r.resp == EmptyResp && r.err == Some(Context(h.ctxErr))
  {
    match h
    case DoneBeforeSend(e) => HandshakeResult(EmptyResp, Some(Context(e)))
    case DoneBeforeReply(e) => HandshakeResult(EmptyResp, Some(Context(e)))
    case Replied(resp) => HandshakeResult(resp, None)
  }
}
