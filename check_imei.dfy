/**
 * The stand-alone `/api/check-imei` endpoint of the first backend: three
 * validations with early 400 answers, one call to the verification API,
 * the fallback text when the API gives no result, and the optional e-mail
 * whose plain-text part is the result with its tags removed.
 */
module CheckImeiEndpoint {
  import opened Wrappers
  import opened Text
  import opened Tables

  /** The message shown when the API reply has no truthy `result`. */
  const NoResultText := "No se obtuvo resultado para este IMEI."

  /** The body fields the endpoint reads; a `service_id` of 0 is falsy like an absent one. */
  datatype CheckRequest = CheckRequest(imei: Option<string>, serviceId: Option<int>, email: Option<string>)

  /** The e-mail the endpoint sends: to whom, for which IMEI, the plain-text result and the HTML result. */
  datatype ResultMail = ResultMail(to: string, imei: string, plainResult: string, htmlResult: string)

  datatype CheckReply =
    | BadRequest(error: string)                             // 400 with its message
    | Checked(result: ApiResult, mail: Option<ResultMail>)  // 200 `{ result, success: true }`
    | ServerError                                           // 500 `Error al conectar con IMEI API`

  /** The first failing validation, in the order the endpoint tests them. */
  function Validate(req: CheckRequest): (r: Option<string>)
    ensures r == Some("IMEI inválido") <==> !(req.imei.Some? && IsImei(req.imei.value))
    ensures r == Some("Servicio inválido")
            <==> req.imei.Some? && IsImei(req.imei.value) && (req.serviceId.None? || req.serviceId.value == 0)
    ensures r == Some("Email inválido")
            <==> (req.imei.Some? && IsImei(req.imei.value) && req.serviceId.Some? && req.serviceId.value != 0
                  && Given(req.email) && !IsEmail(req.email.value))
    ensures r.None? <==> (req.imei.Some? && IsImei(req.imei.value) && req.serviceId.Some? && req.serviceId.value != 0
                          && (Given(req.email) ==> IsEmail(req.email.value)))
  {
    if req.imei.None? || !IsImei(req.imei.value) then Some("IMEI inválido")
    else if req.serviceId.None? || req.serviceId.value == 0 then Some("Servicio inválido")
    else if Given(req.email) && !IsEmail(req.email.value) then Some("Email inválido")
    else None
  }

  /** `data.result || 'No se obtuvo resultado para este IMEI.'`. */
  function ResultOrFallback(result: ApiResult): (r: ApiResult)
    ensures r.Truthy()
    ensures result.Truthy() ==> r == result
    ensures !result.Truthy() ==> r == TextResult(NoResultText)
  {
    if result.Truthy() then result else TextResult(NoResultText)
  }

  /**
   * The handler. A transport or JSON error of the API call answers 500, as
   * does a truthy non-string result when an e-mail is asked for, because
   * the plain-text template calls `replace` on it. Whether the mail is
   * delivered does not change the answer: its failure is caught and logged.
   */
  function CheckImei(req: CheckRequest, api: ApiOutcome): (r: CheckReply)
    ensures Validate(req).Some? ==> r == BadRequest(Validate(req).value)
    ensures Validate(req).None? && api.TransportError? ==> r == ServerError
    ensures r.Checked? ==> r.result == ResultOrFallback(api.reply.result) && r.result.Truthy()
    ensures r.Checked? ==> (r.mail.Some? <==> Given(req.email))
    ensures Validate(req).None? && api.Replied?
            ==> (r.Checked? <==> !Given(req.email) || ResultOrFallback(api.reply.result).TextResult?)
    ensures Validate(req).None? && api.Replied? && !r.Checked? ==> r == ServerError
    ensures r.Checked? && r.mail.Some? ==>
              r.mail.value == ResultMail(req.email.value, req.imei.value, StripTags(r.result.text), r.result.text)
  {
    if Validate(req).Some? then BadRequest(Validate(req).value)
    else if api.TransportError? then ServerError
    else
      var text := ResultOrFallback(api.reply.result);
      if !Given(req.email) then Checked(text, None)
      else if !text.TextResult? then ServerError
      else Checked(text, Some(ResultMail(req.email.value, req.imei.value, StripTags(text.text), text.text)))
  }

  /**
   * A mail is only ever sent to an address the e-mail pattern accepts, for a
   * valid IMEI, and its plain-text result carries no `<…>` tag.
   */
  lemma MailIsClean(req: CheckRequest, api: ApiOutcome)
    requires CheckImei(req, api).Checked? && CheckImei(req, api).mail.Some?
    ensures var m := CheckImei(req, api).mail.value;
            && MatchesEmailPattern(m.to) && IsImei(m.imei) && NoTag(m.plainResult)
            && m.plainResult == StripTags(m.htmlResult)
  {
    var m := CheckImei(req, api).mail.value;
    IsEmailMatchesPattern(m.to);
    StripTagsTagFree(m.htmlResult);
    TagFreeHasNoTag(m.plainResult);
  }

  /** An IMEI that is not fifteen digits is refused whatever the service and the e-mail. */
  lemma ImeiCheckedFirst(imei: string, s1: Option<int>, e1: Option<string>, s2: Option<int>, e2: Option<string>,
                         api: ApiOutcome)
    requires !IsImei(imei)
    ensures CheckImei(CheckRequest(Some(imei), s1, e1), api) == CheckImei(CheckRequest(Some(imei), s2, e2), api)
                                                           == BadRequest("IMEI inválido")
  {
  }

  /** A non-string result answers 200 without an e-mail and 500 with one. */
  lemma ObjectResultNeedsNoMail(imei: string, sid: int, email: string, json: string)
    requires IsImei(imei) && sid != 0 && IsEmail(email)
    ensures CheckImei(CheckRequest(Some(imei), Some(sid), None), Replied(ApiReply(true, ObjectResult(json))))
         == Checked(ObjectResult(json), None)
    ensures CheckImei(CheckRequest(Some(imei), Some(sid), Some(email)), Replied(ApiReply(true, ObjectResult(json))))
         == ServerError
  {
    assert email != "" by {
      assert IndexOf(email, '@') > 0;
    }
  }
}
