/**
 * Classification of ONTAP REST replies (`restclient/rest_response.go`).
 * JSON parsing and `mapstructure` decoding are not modelled: the reply arrives
 * already staged, or as the decoding failure it produced.
 */
module RestResponse {
  import opened Wrappers
  import opened Tf

  /** The `error` object of a REST reply. */
  datatype RestError = RestError(code: string, message: string, target: string)

  const NoRestError := RestError("", "", "")

  /** `RestResponse`. A job reference is kept only by its uuid. */
  datatype Response = Response(
    numRecords: int,
    records: seq<Body>,
    restError: RestError,
    statusCode: int,
    httpError: string,
    errorType: string,
    job: Option<string>,
    jobs: Option<seq<string>>)

  /** Why a call failed: the non-nil `error` values of the REST client. */
  datatype Failure =
    | Transport(message: string)
    | DecodeJson
    | DecodeInterface
    | DecodeRaw
    | RestReported(restError: RestError, status: int)
    | BadStatus(status: int)
    | TooManyRecords(status: int)
    | NoRecordAtIndex
    | JobFailure(message: string)
    | JobTimeout

  /** `restStagedResponse`: the reply before the "Other" promotion; `other` holds the unmatched keys. */
  datatype Staged = Staged(
    numRecords: int,
    records: seq<Body>,
    error: RestError,
    job: Option<string>,
    jobs: Option<seq<string>>,
    other: Body)

  /** What the transport and the two decoding passes produced. */
  datatype Reply =
    | TransportError(message: string)
    | BadJson
    | BadInterface
    | BadRaw
    | Decoded(staged: Staged)

  /** The triple `(statusCode, response, err)` returned by the unmarshal functions. */
  datatype Outcome = Outcome(status: int, response: Response, err: Option<Failure>)

  /** `emptyResponse` for a given status code. */
  function Empty(status: int): Response {
    Response(0, [], NoRestError, status, "", "", None, None)
  }

  /** `checkStatusCode`: only 2xx codes are success. */
  function CheckStatusCode(status: int): (r: Option<Failure>)
    ensures r.None? <==> 200 <= status < 300
    ensures r.Some? ==> r.value == BadStatus(status)
  {
    if status >= 300 || status < 200 then Some(BadStatus(status)) else None
  }

  predicate ReportsRestError(e: RestError) {
    e.code != "0" && e.code != ""
  }

  /** `checkRestErrors`: a REST error code wins over the status code; only `errorType` may change. */
  function CheckRestErrors(status: int, resp: Response): (r: (Response, Option<Failure>))
    ensures r.0 == resp.(errorType := r.0.errorType)
    ensures ReportsRestError(resp.restError) ==>
      r.0.errorType == "rest_error" && r.1 == Some(RestReported(resp.restError, status))
    ensures !ReportsRestError(resp.restError) && !(200 <= status < 300) ==>
      r.0.errorType == "statuscode_error" && r.1 == Some(BadStatus(status))
    ensures !ReportsRestError(resp.restError) && 200 <= status < 300 ==> r == (resp, None)
  {
    if ReportsRestError(resp.restError) then
      (resp.(errorType := "rest_error"), Some(RestReported(resp.restError, status)))
    else
      var err := CheckStatusCode(status);
      if err.Some? then (resp.(errorType := "statuscode_error"), err) else (resp, None)
  }

  /**
   * The "Other" promotion: a reply without records whose leftover keys are
   * more than the ever-present `_links` becomes one record.
   */
  function Promote(s: Staged): (r: Staged)
    ensures s.numRecords == 0 && |s.records| == 0 && |s.other| > 1 ==>
      r == s.(numRecords := 1, records := [s.other])
    ensures !(s.numRecords == 0 && |s.records| == 0 && |s.other| > 1) ==> r == s
  {
    if s.numRecords == 0 && |s.records| == 0 && |s.other| > 1 then
      s.(numRecords := 1, records := s.records + [s.other])
    else s
  }

  /** The final decode pass: staged fields carried into a `RestResponse`. */
  function FromStaged(s: Staged, status: int): Response {
    Response(s.numRecords, s.records, s.error, status, "", "", s.job, s.jobs)
  }

  /** `unmarshalResponse` for a direct HTTP call. */
  function Unmarshal(status: int, reply: Reply): (o: Outcome)
    ensures o.status == status
    ensures reply.TransportError? ==>
      o == Outcome(status, Empty(status).(httpError := reply.message, errorType := "http"), Some(Transport(reply.message)))
    ensures reply.BadJson? ==> o.response.errorType == "bad_response_decode_json" && o.err == Some(DecodeJson)
    ensures reply.BadInterface? ==> o.response.errorType == "bad_response_decode_interface" && o.err == Some(DecodeInterface)
    ensures reply.BadRaw? ==> o.response.errorType == "bad_response_decode_raw" && o.err == Some(DecodeRaw)
    ensures !reply.Decoded? ==> o.response.numRecords == 0 && o.response.records == []
    ensures reply.Decoded? ==> o.response.statusCode == status
    ensures reply.Decoded? ==> o.response.records == Promote(reply.staged).records
    ensures reply.Decoded? && o.err.None? ==> 200 <= status < 300 && !ReportsRestError(reply.staged.error)
  {
    match reply
    case TransportError(msg) => Outcome(status, Empty(status).(httpError := msg, errorType := "http"), Some(Transport(msg)))
    case BadJson => Outcome(status, Empty(status).(errorType := "bad_response_decode_json"), Some(DecodeJson))
    case BadInterface => Outcome(status, Empty(status).(errorType := "bad_response_decode_interface"), Some(DecodeInterface))
    case BadRaw => Outcome(status, Empty(status).(errorType := "bad_response_decode_raw"), Some(DecodeRaw))
    case Decoded(staged) =>
      var checked := CheckRestErrors(status, FromStaged(Promote(staged), status));
      Outcome(status, checked.0, checked.1)
  }

  /** What an AWS Lambda invocation produced: an envelope `{status, data}` around the ONTAP reply. */
  datatype LambdaReply =
    | LambdaTransportError(message: string)
    | LambdaBadJson
    | Envelope(status: int, data: LambdaData)

  /** The envelope's `data` field after the two decoding passes. */
  datatype LambdaData = DataBadInterface | DataBadRaw | DataDecoded(staged: Staged)

  /**
   * `unmarshalAWSLambdaResponse`. The returned status is -1 when the envelope
   * cannot be parsed and the envelope's `status` afterwards; the empty
   * response of a failure still carries the Lambda call's own status.
   */
  function UnmarshalLambda(httpStatus: int, reply: LambdaReply): (o: Outcome)
    ensures reply.LambdaTransportError? ==>
      o == Outcome(httpStatus, Empty(httpStatus).(httpError := reply.message, errorType := "http"), Some(Transport(reply.message)))
    ensures reply.LambdaBadJson? ==>
      o == Outcome(-1, Empty(httpStatus).(errorType := "bad_response_decode_json"), Some(DecodeJson))
    ensures reply.Envelope? ==> o.status == reply.status
    ensures reply.Envelope? && reply.data.DataBadInterface? ==>
      o.response == Empty(httpStatus).(errorType := "bad_aws_response_decode_interface")
    ensures reply.Envelope? && reply.data.DataBadRaw? ==>
      o.response == Empty(httpStatus).(errorType := "bad_aws_response_decode_raw")
    ensures reply.Envelope? && reply.data.DataDecoded? ==>
      o.response.statusCode == reply.status && o.response.records == Promote(reply.data.staged).records
  {
    match reply
    case LambdaTransportError(msg) =>
      Outcome(httpStatus, Empty(httpStatus).(httpError := msg, errorType := "http"), Some(Transport(msg)))
    case LambdaBadJson => Outcome(-1, Empty(httpStatus).(errorType := "bad_response_decode_json"), Some(DecodeJson))
    case Envelope(status, data) =>
      match data
      case DataDecoded(staged) =>
        var checked := CheckRestErrors(status, FromStaged(Promote(staged), status));
        Outcome(status, checked.0, checked.1)
      case DataBadRaw => Outcome(status, Empty(httpStatus).(errorType := "bad_aws_response_decode_raw"), Some(DecodeRaw))
      case DataBadInterface => Outcome(status, Empty(httpStatus).(errorType := "bad_aws_response_decode_interface"), Some(DecodeInterface))
  }

  /** Promotion never loses records and yields at most one extra. */
  lemma PromoteKeepsRecords(s: Staged)
    ensures Promote(s).records == s.records || (s.records == [] && Promote(s).records == [s.other])
    ensures |Promote(s).records| <= |s.records| + 1
  {
  }

  /** A decoded reply is an error exactly when it reports a REST error or a non-2xx status. */
  lemma DecodedErrorIff(status: int, s: Staged)
    ensures Unmarshal(status, Decoded(s)).err.Some? <==>
      ReportsRestError(s.error) || !(200 <= status < 300)
  {
  }
}
