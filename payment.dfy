/**
 * The payment service's `/pay` endpoint as the order service sees it. The
 * approval decision is random in the service; here it is a parameter.
 */
module PaymentService {
  import opened Wrappers

  /**
   * What a `/pay` call gives the order service: no usable reply (the call
   * raised, or the body was not JSON), or a JSON body whose `status` field
   * may be missing.
   */
  datatype PayReply = Unreachable | Replied(status: Option<string>)

  /**
   * `pay`: a request whose amount is not strictly positive fails the
   * request model's validation, and the validation error body has no
   * `status` field; otherwise the reply's status is `"success"` when the
   * simulated processor approves and `"failed"` when it declines.
   */
  function Pay(amount: int, approved: bool): (r: PayReply)
    ensures r.Replied?
    ensures r.status.Some? <==> 0 < amount
    ensures r.status == Some("success") <==> 0 < amount && approved
  {
    if amount <= 0 then Replied(None)
    else if approved then Replied(Some("success"))
    else Replied(Some("failed"))
  }
}
