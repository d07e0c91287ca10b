/**
 * Job schedules (`cluster_schedule` resource): a schedule is either an
 * interval or a cron specification. Requests are stated as the Go request
 * struct after assignment; a list never appended to stays nil, here empty.
 */
module ClusterSchedule {
  import opened Wrappers
  import opened Tf
  import opened GoStrings
  import opened ImportId

  /** The cron block: each list holds the allowed values of one time unit. */
  datatype Cron = Cron(
    minutes: seq<Value<int>>, hours: seq<Value<int>>, days: seq<Value<int>>, months: seq<Value<int>>,
    weekdays: seq<Value<int>>)

  datatype Schedule = Schedule(
    id: Value<string>, name: Value<string>, interval: Value<string>, cron: Option<Cron>, cxProfileName: Value<string>)

  datatype CronBody = CronBody(minutes: seq<int>, hours: seq<int>, days: seq<int>, months: seq<int>, weekdays: seq<int>)

  /** The request struct; update leaves the name empty. */
  datatype Request = Request(name: string, interval: string, cron: CronBody)

  const NoCron := CronBody([], [], [], [], [])

  /** `ValueInt64()` of each element. */
  function Ints(vs: seq<Value<int>>): (r: seq<int>)
    ensures |r| == |vs| && forall i :: 0 <= i < |vs| ==> r[i] == Int(vs[i])
  {
    if |vs| == 0 then [] else [Int(vs[0])] + Ints(vs[1..])
  }

  /** `types.Int64Value` of each element. */
  function KnownInts(xs: seq<int>): (r: seq<Value<int>>)
    ensures |r| == |xs| && forall i :: 0 <= i < |xs| ==> r[i] == Known(xs[i])
  {
    if |xs| == 0 then [] else [Known(xs[0])] + KnownInts(xs[1..])
  }

  lemma IntsKnownInts(xs: seq<int>)
    ensures Ints(KnownInts(xs)) == xs
  {
  }

  function CronOf(c: Cron): (r: CronBody)
    ensures r.minutes == Ints(c.minutes) && r.hours == Ints(c.hours) && r.days == Ints(c.days)
    ensures r.months == Ints(c.months) && r.weekdays == Ints(c.weekdays)
  {
    CronBody(Ints(c.minutes), Ints(c.hours), Ints(c.days), Ints(c.months), Ints(c.weekdays))
  }

  /** Why a request could not be assembled. */
  datatype BuildError = NilCron

  /**
   * The schedule part shared by create and update: a set interval is sent
   * alone; otherwise the cron lists are copied element by element. Without
   * either, the code dereferences a nil cron block.
   */
  function Timing(d: Schedule): (r: Result<(string, CronBody), BuildError>)
    ensures r.Failure? <==> d.interval.Null? && d.cron.None?
    ensures r.Success? && !d.interval.Null? ==> r.value == (Str(d.interval), NoCron)
    ensures r.Success? && d.interval.Null? ==> r.value == ("", CronOf(d.cron.value))
  {
    if !d.interval.Null? then Success((Str(d.interval), NoCron))
    else if d.cron.None? then Failure(NilCron)
    else Success(("", CronOf(d.cron.value)))
  }

  /** `Create`: the name and the schedule part. */
  function CreateRequest(d: Schedule): (r: Result<Request, BuildError>)
    ensures r.Failure? <==> d.interval.Null? && d.cron.None?
    ensures r.Success? ==> r.value.name == Str(d.name)
    ensures r.Success? && !d.interval.Null? ==> r.value.interval == Str(d.interval) && r.value.cron == NoCron
    ensures r.Success? && d.interval.Null? ==> r.value.interval == "" && r.value.cron == CronOf(d.cron.value)
  {
    var t :- Timing(d);
    Success(Request(Str(d.name), t.0, t.1))
  }

  /** `Update`: the schedule part only, the name is never sent. */
  function UpdateRequest(d: Schedule): (r: Result<Request, BuildError>)
    ensures r.Failure? <==> d.interval.Null? && d.cron.None?
    ensures r.Success? ==> r.value.name == ""
    ensures r.Success? ==> CreateRequest(d).Success? && r.value == CreateRequest(d).value.(name := "")
  {
    var t :- Timing(d);
    Success(Request("", t.0, t.1))
  }

  /** A schedule as the server returns it; an interval schedule has an empty cron block. */
  datatype ScheduleRecord = ScheduleRecord(uuid: string, name: string, interval: string, cron: CronBody)

  /** Which lookup `Read` makes: by name before the ID is known, else by UUID. */
  datatype ReadBy = ByName(name: string) | ByUuid(uuid: string)

  function ReadLookup(d: Schedule): (r: ReadBy)
    ensures r.ByName? <==> Str(d.id) == ""
    ensures r.ByName? ==> r.name == Str(d.name)
    ensures r.ByUuid? ==> r.uuid == Str(d.id)
  {
    if Str(d.id) == "" then ByName(Str(d.name)) else ByUuid(Str(d.id))
  }

  /**
   * `Read`: after a lookup by name the UUID is stored; an empty interval in
   * the reply fills the cron block, any other sets the interval. The other
   * half of the state is left as it was.
   */
  function Read(d: Schedule, rec: ScheduleRecord): (r: Schedule)
    ensures Str(d.id) == "" ==> r.id == Known(rec.uuid)
    ensures Str(d.id) != "" ==> r.id == d.id
    ensures rec.interval == "" ==> r.cron.Some? && CronOf(r.cron.value) == rec.cron && r.interval == d.interval
    ensures rec.interval != "" ==> r.interval == Known(rec.interval) && r.cron == d.cron
    ensures r.name == d.name
  {
    IntsKnownInts(rec.cron.minutes);
    IntsKnownInts(rec.cron.hours);
    IntsKnownInts(rec.cron.days);
    IntsKnownInts(rec.cron.months);
    IntsKnownInts(rec.cron.weekdays);
    var withId := if Str(d.id) == "" then d.(id := Known(rec.uuid)) else d;
    if rec.interval == "" then
      withId.(cron := Some(Cron(KnownInts(rec.cron.minutes), KnownInts(rec.cron.hours), KnownInts(rec.cron.days),
                                KnownInts(rec.cron.months), KnownInts(rec.cron.weekdays))))
    else withId.(interval := Known(rec.interval))
  }

  /** A schedule the server stores as sent reads back with the same interval or the same cron values. */
  lemma ReadWhatWasSent(d: Schedule, uuid: string)
    requires CreateRequest(d).Success?
    requires !d.interval.Null? ==> Str(d.interval) != ""
    ensures var q := CreateRequest(d).value;
      var r := Read(d, ScheduleRecord(uuid, q.name, q.interval, q.cron));
      (!d.interval.Null? ==> r.interval == Known(Str(d.interval))) &&
      (d.interval.Null? ==> r.cron.Some? && CronOf(r.cron.value) == CronOf(d.cron.value))
  {
  }

  /** `Delete`: a null ID is an error. */
  function Delete(d: Schedule): (r: Result<string, string>)
    ensures r.Failure? <==> d.id.Null?
    ensures r.Success? ==> r.value == Str(d.id)
  {
    if d.id.Null? then Failure("UUID is null") else Success(Str(d.id))
  }

  /** Deleting the state a read saved targets the schedule read: after a lookup by name, the UUID found. */
  lemma DeleteAfterRead(d: Schedule, rec: ScheduleRecord)
    ensures Delete(Read(d, rec)).Success?
    ensures Str(d.id) == "" ==> Delete(Read(d, rec)) == Success(rec.uuid)
    ensures Str(d.id) != "" ==> Delete(Read(d, rec)) == Success(Str(d.id))
  {
  }

  // ---------------------------------------------------------------- import

  // `ImportState` takes `name,cx_profile_name`: `ImportId.ImportNamed`.
}
