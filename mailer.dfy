/**
 * What the model needs of the mailer: whether `await sendMail({ type, ... })`
 * returns or throws. Templates, addresses and the transport are left out;
 * the transport's success is an input.
 */
module Mailer {

  /** The `type` given to `sendMail`; `NoType` is a missing or unknown one. */
  datatype MailType = Verification | PasswordReset | OrderResult | BalanceRecharge | ImeiPaidGuest | NoType

  /**
   * Whether `sendMail` resolves: an unknown type throws before sending, the
   * `order_result` template reads a variable `order` that is not declared in
   * the mailer and throws, and otherwise the transport decides.
   */
  function Delivered(t: MailType, transportOk: bool): (ok: bool)
    ensures ok <==> transportOk && t != NoType && t != OrderResult
  {
    match t
    case NoType => false
    case OrderResult => false
    case _ => transportOk
  }
}
