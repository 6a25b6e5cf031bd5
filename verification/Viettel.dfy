/** What the integration layer makes of the issuer's answers: the classification of error bodies
    (viettel_dto.go), of HTTP answers (viettel_client.go) and of create and search responses
    (viettel_publisher.go). JSON decoding is a parameter: a body carries the outcome of decoding
    it as each of the three shapes. Error texts are kept as the values they are composed of. */
module Viettel {
  import opened Domain

  datatype ErrorPayload = ErrorPayload(message: string, data: string)
  datatype CreatePayload = CreatePayload(errorCode: string, description: string, invoiceNo: string)
  /** `encoded` is the decoded response encoded again, which is what the service keeps of it. */
  datatype SearchPayload =
    SearchPayload(errorCode: string, description: string, invoiceNos: seq<string>, encoded: string)

  datatype Body = Body(
    raw: string,
    asError: Option<ErrorPayload>,
    asCreate: Option<CreatePayload>,
    asSearch: Option<SearchPayload>)

  /** The end of an authenticated request: no usable HTTP answer, or a status code with a body. */
  datatype Reply = NoReply(code: ErrorCode, message: string) | Http(status: int, body: Body)

  const ERR_CODES: map<string, ViettelErrCode> :=
    map["TAX_CODE_INVALID" := TaxCodeInvalid,
        "INVOICE_VALID_INPUT_INVALID_TAX_CODE" := TaxCodeInvalid,
        "INVOICE_VALID_INPUT_INVALID_BUYER_TAX_CODE" := TaxCodeInvalid,
        "TRANSACTION_UUID_REQUIRED" := TxnUuidRequired,
        "TAX_CODE_REQUIRED" := TaxCodeRequired,
        "BUYER_EMAIL_REQUIRED" := BuyerEmailRequired,
        "NOT_FOUND_DATA" := NotFoundData,
        "BUYER_EMAIL_ADDRESS_FORMAT" := BuyerEmailFormat,
        "EMAIL_CONFIG_NOT_ACTIVE" := EmailConfigNotActive,
        "EMAIL_NOT_CONFIG" := EmailNotConfig]

  const NON_RETRYABLE: set<ViettelErrCode> :=
    {TaxCodeInvalid, TxnUuidRequired, TaxCodeRequired, BuyerEmailRequired, BuyerEmailFormat, NotFoundData}

  function ParseViettelError(body: Body): ViettelError {
    match body.asError
    case None => ViettelError(Unknown, body.raw, body.raw, false)
    case Some(e) =>
      var code := if e.message in ERR_CODES then ERR_CODES[e.message] else Unknown;
      ViettelError(code, e.message, if e.data == "" then e.message else e.data, code !in NON_RETRYABLE)
  }

  /** The eight message texts that make a 400 answer final. */
  const FINAL_MESSAGES: set<string> :=
    {"TAX_CODE_INVALID", "INVOICE_VALID_INPUT_INVALID_TAX_CODE",
     "INVOICE_VALID_INPUT_INVALID_BUYER_TAX_CODE", "TRANSACTION_UUID_REQUIRED", "TAX_CODE_REQUIRED",
     "BUYER_EMAIL_REQUIRED", "NOT_FOUND_DATA", "BUYER_EMAIL_ADDRESS_FORMAT"}

  /** An undecodable body is final although its code, UNKNOWN, is not listed as final; an unknown
      message in a decodable body is retried. */
  lemma FinalErrors(body: Body)
    ensures !ParseViettelError(body).retryable
            <==> body.asError.None? || body.asError.value.message in FINAL_MESSAGES
  {
    if body.asError.Some? {
      var m := body.asError.value.message;
      if m in ERR_CODES {
        assert m in FINAL_MESSAGES || m == "EMAIL_CONFIG_NOT_ACTIVE" || m == "EMAIL_NOT_CONFIG";
      }
    }
  }

  // ---------- What the answers have to be taken for ----------

  /** Each typed code belongs to its message texts and to no others. */
  predicate CodeOf(message: string, code: ViettelErrCode) {
    && (code == TaxCodeInvalid <==>
          || message == "TAX_CODE_INVALID" || message == "INVOICE_VALID_INPUT_INVALID_TAX_CODE"
          || message == "INVOICE_VALID_INPUT_INVALID_BUYER_TAX_CODE")
    && (code == TxnUuidRequired <==> message == "TRANSACTION_UUID_REQUIRED")
    && (code == TaxCodeRequired <==> message == "TAX_CODE_REQUIRED")
    && (code == BuyerEmailRequired <==> message == "BUYER_EMAIL_REQUIRED")
    && (code == NotFoundData <==> message == "NOT_FOUND_DATA")
    && (code == BuyerEmailFormat <==> message == "BUYER_EMAIL_ADDRESS_FORMAT")
    && (code == EmailConfigNotActive <==> message == "EMAIL_CONFIG_NOT_ACTIVE")
    && (code == EmailNotConfig <==> message == "EMAIL_NOT_CONFIG")
  }

  predicate ParsedFrom(body: Body, v: ViettelError) {
    match body.asError
    case None => v.code == Unknown && v.rawMessage == v.description == body.raw && !v.retryable
    case Some(e) =>
      && v.rawMessage == e.message && v.description == (if e.data == "" then e.message else e.data)
      && (v.retryable <==> e.message !in FINAL_MESSAGES) && CodeOf(e.message, v.code)
  }

  predicate Success(reply: Reply) {
    reply.Http? && 200 <= reply.status < 300
  }

  /** The result of a request that got `reply`: the body exactly of a 2xx answer; the decoded issuer error
      exactly for a 400. */
  predicate AnswerFor(reply: Reply, r: Result<Body, AppError>) {
    && (r.Ok? <==> Success(reply)) && (r.Ok? ==> r.value == reply.body)
    && (r.Err? ==> r.error.code == if reply.NoReply? then reply.code else ThirdParty)
    && (r.Err? ==> (r.error.viettel.Some? <==> reply.Http? && reply.status == 400))
    && (r.Err? && r.error.viettel.Some? ==> ParsedFrom(reply.body, r.error.viettel.value))
    && (r.Err? && reply.NoReply? ==> r.error.message == reply.message)
  }

  predicate Created(reply: Reply) {
    Success(reply) && reply.body.asCreate.Some? && reply.body.asCreate.value.errorCode == ""
  }

  /** The result of a create call: the number, possibly empty, exactly of a 2xx body that decodes without
      an error code. */
  predicate CreateResultFor(reply: Reply, r: Result<string, AppError>) {
    && (r.Ok? <==> Created(reply)) && (r.Ok? ==> r.value == reply.body.asCreate.value.invoiceNo)
    && (!Success(reply) ==> AnswerFor(reply, Err(r.error)))
    && (Success(reply) && r.Err? ==> r.error.code == ThirdParty && r.error.viettel.None?)
  }

  predicate Searched(reply: Reply) {
    Success(reply) && reply.body.asSearch.Some? && reply.body.asSearch.value.errorCode == ""
  }

  /** The first search result tells the invoice's number. */
  predicate Found(reply: Reply) {
    Searched(reply) && reply.body.asSearch.value.invoiceNos != [] && reply.body.asSearch.value.invoiceNos[0] != ""
  }

  predicate QueryResultFor(reply: Reply, q: QueryAnswer) {
    && (q.QueryFailed? <==> !Searched(reply))
    && (q.Confirmed? <==> Found(reply))
    && (q.Confirmed? ==> q.no == reply.body.asSearch.value.invoiceNos[0])
    && (!q.QueryFailed? ==> q.raw == reply.body.asSearch.value.encoded)
    && (q.QueryFailed? && !Success(reply) ==> AnswerFor(reply, Err(q.error)))
    && (q.QueryFailed? && Success(reply) ==> q.error.code == ThirdParty && q.error.viettel.None?)
  }

  /** The classification of an HTTP answer by its status code. */
  function Interpret(reply: Reply): Result<Body, AppError> {
    match reply
    case NoReply(code, message) => Err(AppError(code, message, None))
    case Http(status, body) =>
      if status == 400 then
        var v := ParseViettelError(body);
        Err(AppError(ThirdParty, v.description, Some(v)))
      else if status < 200 || status >= 300 then
        Err(AppError(ThirdParty, body.raw, None))
      else
        Ok(body)
  }

  /** The invoice number of a create answer; the empty text means that it will come later. */
  function CreateOutcome(reply: Reply): Result<string, AppError> {
    match Interpret(reply)
    case Err(e) => Err(e)
    case Ok(body) =>
      match body.asCreate
      case None => Err(AppError(ThirdParty, body.raw, None))
      case Some(resp) =>
        if resp.errorCode != "" then
          Err(AppError(ThirdParty, resp.description, None))
        else
          Ok(resp.invoiceNo)
  }

  datatype QueryAnswer = QueryFailed(error: AppError) | StillPending(raw: string) | Confirmed(no: string, raw: string)

  /** Only the first search result counts; an empty number in it means "processing". */
  function QueryOutcome(reply: Reply): QueryAnswer {
    match Interpret(reply)
    case Err(e) => QueryFailed(e)
    case Ok(body) =>
      match body.asSearch
      case None => QueryFailed(AppError(ThirdParty, body.raw, None))
      case Some(resp) =>
        if resp.errorCode != "" then
          QueryFailed(AppError(ThirdParty, resp.description, None))
        else if resp.invoiceNos == [] || resp.invoiceNos[0] == "" then
          StillPending(resp.encoded)
        else
          Confirmed(resp.invoiceNos[0], resp.encoded)
  }

  predicate FinalAnswer(reply: Reply) {
    reply.Http? && reply.status == 400
    && (reply.body.asError.None? || reply.body.asError.value.message in FINAL_MESSAGES)
  }

  /** The error chain of a failed create call ends in a final issuer error exactly when the answer
      was a 400 whose body is undecodable or names one of the final messages. */
  lemma FinalRejections(reply: Reply)
    ensures (CreateOutcome(reply).Err? && CreateOutcome(reply).error.viettel.Some?
             && !CreateOutcome(reply).error.viettel.value.retryable)
            <==> FinalAnswer(reply)
  {
    if reply.Http? {
      FinalErrors(reply.body);
    }
  }

  lemma ErrorParsed(body: Body)
    ensures ParsedFrom(body, ParseViettelError(body))
  {
    FinalErrors(body);
  }

  lemma Answered(reply: Reply)
    ensures AnswerFor(reply, Interpret(reply))
  {
    if reply.Http? {
      ErrorParsed(reply.body);
    }
    hide ParseViettelError, ParsedFrom;
  }

  lemma CreateAnswered(reply: Reply)
    ensures CreateResultFor(reply, CreateOutcome(reply))
  {
    Answered(reply);
    hide Interpret, ParsedFrom;
  }

  lemma QueryAnswered(reply: Reply)
    ensures QueryResultFor(reply, QueryOutcome(reply))
  {
    Answered(reply);
    hide Interpret, ParsedFrom;
  }
}
