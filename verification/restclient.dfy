/**
 * The REST client (`restclient/rest_client.go`): record cardinality, the job
 * polling loop, query helpers and the client defaults. Each call's reply is an
 * input; sleeping, request slots and the transports are not modelled.
 */
module RestClient {
  import opened Wrappers
  import opened Tf
  import opened GoStrings
  import opened RestResponse

  /** URL query parameters; every modelled caller sets a key at most once. */
  type Query = map<string, string>

  // ---------------------------------------------------------------- records

  /** `(statusCode, record, err)` as returned by `GetNilOrOneRecord`. */
  datatype Fetched = Fetched(status: int, record: Option<Body>, err: Option<Failure>)

  /**
   * `GetNilOrOneRecord`: a failed call propagates its error, more than one
   * record is an error, one record is returned, and none is nil without error.
   * `Records[0]` on an empty list is Go's index panic, here `NoRecordAtIndex`.
   */
  function GetNilOrOneRecord(o: Outcome): (r: Fetched)
    ensures r.status == o.status
    ensures o.err.Some? ==> r == Fetched(o.status, None, o.err)
    ensures o.err.None? && o.response.numRecords > 1 ==> r == Fetched(o.status, None, Some(TooManyRecords(o.status)))
    ensures o.err.None? && o.response.numRecords == 1 && |o.response.records| > 0 ==>
      r == Fetched(o.status, Some(o.response.records[0]), None)
    ensures o.err.None? && o.response.numRecords < 1 ==> r == Fetched(o.status, None, None)
    ensures r.record.Some? ==> r.err.None? && o.response.numRecords == 1
  {
    if o.err.Some? then Fetched(o.status, None, o.err)
    else if o.response.numRecords > 1 then Fetched(o.status, None, Some(TooManyRecords(o.status)))
    else if o.response.numRecords == 1 then
      (if |o.response.records| > 0 then Fetched(o.status, Some(o.response.records[0]), None)
       else Fetched(o.status, None, Some(NoRecordAtIndex)))
    else Fetched(o.status, None, None)
  }

  /** `GetZeroOrMoreRecords`: the records of a successful call, nil on error. */
  function GetZeroOrMoreRecords(o: Outcome): (r: (int, Option<seq<Body>>, Option<Failure>))
    ensures r.0 == o.status && r.2 == o.err
    ensures o.err.Some? <==> r.1.None?
    ensures o.err.None? ==> r.1 == Some(o.response.records)
  {
    if o.err.Some? then (o.status, None, o.err) else (o.status, Some(o.response.records), None)
  }

  /**
   * The guard every lookup adds after `GetNilOrOneRecord`: an error fails it,
   * and so does a nil record ("no response for GET").
   */
  function Found(f: Fetched): (r: Option<Body>)
    ensures r.Some? <==> f.err.None? && f.record.Some?
    ensures r.Some? ==> r.value == f.record.value
  {
    if f.err.None? && f.record.Some? then f.record else None
  }

  /** A lookup succeeds exactly when the call did and exactly one record came back. */
  lemma FoundExactlyOne(o: Outcome)
    ensures Found(GetNilOrOneRecord(o)).Some? <==> o.err.None? && o.response.numRecords == 1 && |o.response.records| > 0
    ensures Found(GetNilOrOneRecord(o)).Some? ==> Found(GetNilOrOneRecord(o)).value == o.response.records[0]
  {
  }

  /** A promoted bare object comes back from `GetNilOrOneRecord` as the single record. */
  lemma PromotedObjectIsTheRecord(status: int, s: Staged)
    requires 200 <= status < 300 && !ReportsRestError(s.error)
    requires s.numRecords == 0 && s.records == [] && |s.other| > 1
    ensures GetNilOrOneRecord(Unmarshal(status, Decoded(s))) == Fetched(status, Some(s.other), None)
  {
  }

  // ---------------------------------------------------------------- jobs

  /** `jobError`. */
  datatype JobError = JobError(message: string, code: string, target: string)

  /** `Job`, as decoded from a `cluster/jobs/<uuid>` record. */
  datatype Job = Job(state: string, error: JobError, code: int, message: string)

  /** One poll of the job endpoint. */
  datatype Poll =
    | PollFailed(status: int)                 // GetNilOrOneRecord returned an error
    | PollUndecodable(status: int)            // mapstructure could not decode the job
    | PollJob(status: int, job: Job)          // decoded job (a missing record decodes to the zero Job)

  /** How `Wait` ends. `OutOfPolls` means the supplied polls ran out while the loop would go on. */
  datatype WaitResult =
    | JobDone(status: int)
    | JobFailed(status: int, failure: Failure)
    | TimedOut
    | OutOfPolls

  const ZeroJobError := JobError("", "", "")

  predicate Busy(state: string) {
    state == "queued" || state == "running" || state == "paused"
  }

  /** A poll that neither finishes the job nor spends budget: non-success, no error info, code 0. */
  predicate Quiet(p: Poll) {
    p.PollJob? && !Busy(p.job.state) && p.job.state != "success" &&
    p.job.error == ZeroJobError && p.job.code == 0
  }

  /**
   * The loop of `Wait` as a recursive definition: `budget` is `timeRemaining`,
   * `retries` is `errorRetries`.
   */
  function WaitSpec(budget: int, retries: int, polls: seq<Poll>): WaitResult
    decreases |polls|
  {
    if budget <= 0 then TimedOut
    else if |polls| == 0 then OutOfPolls
    else match polls[0]
      case PollFailed(st) =>
        if retries <= 0 then JobFailed(st, Transport("job poll failed"))
        else WaitSpec(budget, retries - 1, polls[1..])
      case PollUndecodable(st) => JobFailed(st, DecodeInterface)
      case PollJob(st, job) =>
        if Busy(job.state) then WaitSpec(budget - 10, retries, polls[1..])
        else if job.state == "success" then JobDone(st)
        else if job.error != ZeroJobError then
          (if job.error.code != "" then JobFailed(st, JobFailure("fail to get job status. Error code: " + job.error.code))
           else JobFailed(st, JobFailure("fail to get job status. Unknown error")))
        else if job.code != 0 then JobFailed(st, JobFailure("Job failed with error code"))
        else WaitSpec(budget, retries, polls[1..])
  }

  /** `Wait(uuid)` with `jobCompletionTimeOut = timeout`, over the successive polls of the job. */
  method Wait(timeout: int, polls: seq<Poll>) returns (r: WaitResult)
    ensures r == WaitSpec(timeout, 3, polls)
  {
    var timeRemaining := timeout;
    var errorRetries := 3;
    var i := 0;
    while timeRemaining > 0
      invariant 0 <= i <= |polls|
      invariant WaitSpec(timeRemaining, errorRetries, polls[i..]) == WaitSpec(timeout, 3, polls)
      decreases |polls| - i
    {
      if i == |polls| {
        return OutOfPolls;
      }
      var p := polls[i];
      assert polls[i..][1..] == polls[i + 1..];
      i := i + 1;
      match p {
        case PollFailed(st) =>
          if errorRetries <= 0 {
            return JobFailed(st, Transport("job poll failed"));
          }
          errorRetries := errorRetries - 1;
        case PollUndecodable(st) =>
          return JobFailed(st, DecodeInterface);
        case PollJob(st, job) =>
          if Busy(job.state) {
            timeRemaining := timeRemaining - 10;
          } else if job.state == "success" {
            return JobDone(st);
          } else if job.error != ZeroJobError {
            if job.error.code != "" {
              return JobFailed(st, JobFailure("fail to get job status. Error code: " + job.error.code));
            }
            return JobFailed(st, JobFailure("fail to get job status. Unknown error"));
          } else if job.code != 0 {
            return JobFailed(st, JobFailure("Job failed with error code"));
          }
      }
    }
    return TimedOut;
  }

  /** A first poll that reports success ends the wait without error. */
  lemma WaitFirstSuccess(timeout: int, st: int, job: Job, rest: seq<Poll>)
    requires timeout > 0 && job.state == "success"
    ensures WaitSpec(timeout, 3, [PollJob(st, job)] + rest) == JobDone(st)
  {
  }

  /** Each busy poll costs 10 units of budget: k busy polls exhaust a budget of at most 10k. */
  lemma {:induction false} WaitBusyExhausts(budget: int, retries: int, polls: seq<Poll>)
    requires forall i :: 0 <= i < |polls| ==> polls[i].PollJob? && Busy(polls[i].job.state)
    requires budget <= 10 * |polls|
    ensures WaitSpec(budget, retries, polls) == TimedOut
    decreases |polls|
  {
    if budget > 0 {
      WaitBusyExhausts(budget - 10, retries, polls[1..]);
    }
  }

  /** Three failed polls are retried; the fourth consecutive failure is returned. */
  lemma WaitFourthFailureReturned(budget: int, s1: int, s2: int, s3: int, s4: int, rest: seq<Poll>)
    requires budget > 0
    ensures WaitSpec(budget, 3, [PollFailed(s1), PollFailed(s2), PollFailed(s3), PollFailed(s4)] + rest) ==
      JobFailed(s4, Transport("job poll failed"))
  {
    var p4 := [PollFailed(s4)] + rest;
    var p3 := [PollFailed(s3)] + p4;
    var p2 := [PollFailed(s2)] + p3;
    var p1 := [PollFailed(s1)] + p2;
    assert p1 == [PollFailed(s1), PollFailed(s2), PollFailed(s3), PollFailed(s4)] + rest;
    assert p1[1..] == p2 && p2[1..] == p3 && p3[1..] == p4;
    assert WaitSpec(budget, 0, p4) == JobFailed(s4, Transport("job poll failed"));
    assert WaitSpec(budget, 1, p3) == WaitSpec(budget, 0, p4);
    assert WaitSpec(budget, 2, p2) == WaitSpec(budget, 1, p3);
  }

  /**
   * Quiet polls consume neither budget nor retries, so however many of them
   * there are, the loop is still running when they run out: termination is not
   * guaranteed.
   */
  lemma {:induction false} WaitQuietNeverEnds(budget: int, retries: int, polls: seq<Poll>)
    requires budget > 0
    requires forall i :: 0 <= i < |polls| ==> Quiet(polls[i])
    ensures WaitSpec(budget, retries, polls) == OutOfPolls
    decreases |polls|
  {
    if |polls| > 0 {
      WaitQuietNeverEnds(budget, retries, polls[1..]);
    }
  }

  // ---------------------------------------------------------------- create / update / delete

  /** `query.Set("return_timeout", "60")` on the given query, or on a fresh one when nil. */
  function WithReturnTimeout(q: Option<Query>): (r: Query)
    ensures "return_timeout" in r && r["return_timeout"] == "60"
    ensures q.Some? ==> forall k :: k in q.value && k != "return_timeout" ==> k in r && r[k] == q.value[k]
    ensures q.None? ==> r.Keys == {"return_timeout"}
  {
    q.GetOr(map[])["return_timeout" := "60"]
  }

  /** The jobs a create or update waits for: the single `job`, else each of `jobs`. */
  function JobsToWait(resp: Response): (uuids: seq<string>)
    ensures resp.job.Some? ==> uuids == [resp.job.value]
    ensures resp.job.None? && resp.jobs.Some? ==> uuids == resp.jobs.value
    ensures resp.job.None? && resp.jobs.None? ==> uuids == []
  {
    if resp.job.Some? then [resp.job.value] else if resp.jobs.Some? then resp.jobs.value else []
  }

  /** The job loop of `CallCreateMethod`/`CallUpdateMethod`: the first failed wait is returned. */
  function AwaitJobs(status: int, waits: seq<WaitResult>): (r: (int, Option<Failure>))
    ensures (forall i :: 0 <= i < |waits| ==> waits[i].JobDone?) ==> r.1.None?
    ensures r.1.None? ==> forall i :: 0 <= i < |waits| ==> waits[i].JobDone?
    decreases |waits|
  {
    if |waits| == 0 then (status, None)
    else match waits[0]
      case JobDone(st) => AwaitJobs(st, waits[1..])
      case JobFailed(st, f) => (st, Some(f))
      case TimedOut => (0, Some(JobTimeout))
      case OutOfPolls => (0, Some(JobTimeout))
  }

  datatype Verb = GET | POST | PATCH | DELETE

  /**
   * `CallCreateMethod` / `CallUpdateMethod` / `CallDeleteMethod`: the request
   * carries `return_timeout=60`; POST and PATCH then wait for the jobs of the
   * reply (`waits[i]` is the result of waiting for `JobsToWait(o.response)[i]`),
   * DELETE does not.
   */
  function CallMutating(verb: Verb, o: Outcome, waits: seq<WaitResult>): (r: (int, Option<Response>, Option<Failure>))
    requires verb != GET
    requires o.err.None? && verb != DELETE ==> |waits| == |JobsToWait(o.response)|
    ensures o.err.Some? ==> r == (o.status, None, o.err)
    ensures o.err.None? && verb == DELETE ==> r == (o.status, Some(o.response), None)
    ensures o.err.None? && verb != DELETE && JobsToWait(o.response) == [] ==> r == (o.status, Some(o.response), None)
    ensures o.err.None? && verb != DELETE ==>
      (r.2.None? <==> forall i :: 0 <= i < |JobsToWait(o.response)| ==> waits[i].JobDone?)
    ensures r.2.None? ==> r.1 == Some(o.response)
  {
    if o.err.Some? then (o.status, None, o.err)
    else if verb == DELETE then (o.status, Some(o.response), None)
    else
      var w := AwaitJobs(o.status, waits);
      if w.1.Some? then (w.0, None, w.1) else (w.0, Some(o.response), None)
  }

  // ---------------------------------------------------------------- query helpers

  /** `RestQuery.Fields`: one `fields` parameter holding the names joined by commas. */
  function Fields(q: Query, fields: seq<string>): (r: Query)
    ensures "fields" in r
    ensures forall k :: k in q && k != "fields" ==> k in r && r[k] == q[k]
  {
    q["fields" := Join(fields, ',')]
  }

  /** The server recovers the requested field names by splitting at the commas. */
  lemma FieldsRoundTrip(q: Query, fields: seq<string>)
    requires |fields| >= 1 && SepFree(fields, ',')
    ensures Split(Fields(q, fields)["fields"], ',') == fields
  {
    SplitJoin(fields, ',');
  }

  /** `RestQuery.SetValues` over already formatted values: empty values are skipped. */
  function SetValues(q: Query, kv: map<string, string>): (r: Query)
    ensures forall k :: k in kv && kv[k] != "" ==> k in r && r[k] == kv[k]
    ensures forall k :: k in q && (k !in kv || kv[k] == "") ==> k in r && r[k] == q[k]
    ensures forall k :: k in r ==> k in q || (k in kv && kv[k] != "")
  {
    var set_ := map k | k in kv && kv[k] != "" :: kv[k];
    q + set_
  }

  // ---------------------------------------------------------------- client

  datatype ConnectionProfile = ConnectionProfile(
    hostname: string,
    username: string,
    password: string,
    validateCerts: bool,
    maxConcurrentRequests: int,
    useAwsLambdaLink: bool)

  datatype Transport = HttpTransport | LambdaTransport

  /** The fields of `RestClient` that `NewClient` decides. */
  datatype Client = Client(
    profile: ConnectionProfile,
    transport: Transport,
    apiRoot: string,
    maxConcurrentRequests: int,
    mode: string,
    jobCompletionTimeOut: int,
    tag: string)

  /** `NewClient`: a zero request limit means 6; the API root is "api" and the mode "prod". */
  function NewClient(p: ConnectionProfile, tag: string, jobCompletionTimeOut: int): (c: Client)
    ensures p.maxConcurrentRequests == 0 ==> c.maxConcurrentRequests == 6
    ensures p.maxConcurrentRequests != 0 ==> c.maxConcurrentRequests == p.maxConcurrentRequests
    ensures c.apiRoot == "api" && c.mode == "prod"
    ensures c.transport == (if p.useAwsLambdaLink then LambdaTransport else HttpTransport)
    ensures c.profile == p && c.tag == tag && c.jobCompletionTimeOut == jobCompletionTimeOut
  {
    var limit := if p.maxConcurrentRequests == 0 then 6 else p.maxConcurrentRequests;
    Client(p, if p.useAwsLambdaLink then LambdaTransport else HttpTransport, "api", limit, "prod", jobCompletionTimeOut, tag)
  }
}
