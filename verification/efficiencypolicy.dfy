/**
 * Volume efficiency policies (`storage_volume_efficiency_policies`
 * resource). The create body always carries the name, the SVM and the
 * schedule block; its other fields are `omitempty`, so a zero value, `false`
 * included, is not sent. Update sends the fields that changed between state
 * and plan, and always the schedule block, empty when the schedule is unchanged.
 */
module EfficiencyPolicy {
  import opened Wrappers
  import opened Tf
  import opened GoStrings
  import opened ImportId

  datatype Policy = Policy(
    cxProfileName: Value<string>,
    name: Value<string>,
    svmName: Value<string>,
    policyType: Value<string>,
    schedule: Value<Value<string>>,   // the `schedule` object and its `name`
    duration: Value<int>,
    startThresholdPercent: Value<int>,
    qosPolicy: Value<string>,
    comment: Value<string>,
    enabled: Value<bool>,
    id: Value<string>)

  /** `schedule.As` into a struct fails on a null or unknown object. */
  const ScheduleNotConvertible := "schedule is null or unknown"

  function ScheduleJson(name: string): (j: Json)
    ensures j.JObj? && ("name" in j.fields <==> name != "")
  {
    JObj(if name != "" then map["name" := JStr(name)] else map[])
  }

  // ------------------------------------------------------------------ create

  /**
   * The create body: name and SVM always, the schedule object, and the other
   * fields when non-zero; duration, start threshold and comment only when not
   * null.
   */
  function CreateBody(d: Policy): (r: Result<Body, string>)
    ensures r.Failure? <==> d.schedule.Unknown?
    ensures r.Success? ==> "name" in r.value && r.value["name"] == JStr(Str(d.name))
    ensures r.Success? ==> "svm" in r.value && "schedule" in r.value
    ensures r.Success? ==> ("enabled" in r.value <==> Bool(d.enabled))
    ensures r.Success? ==> ("duration" in r.value <==> Int(d.duration) != 0)
    ensures r.Success? ==> ("comment" in r.value <==> Str(d.comment) != "")
  {
    if d.schedule.Unknown? then Failure(ScheduleNotConvertible)
    else
      var schedule := if d.schedule.Known? then Str(d.schedule.value) else "";
      var fixed: Body := map["name" := JStr(Str(d.name)), "svm" := JObj(map["name" := JStr(Str(d.svmName))]),
                             "schedule" := ScheduleJson(schedule)];
      assert "enabled" !in fixed && "duration" !in fixed && "comment" !in fixed;
      Success(PutIf(OptionalFields(d) + fixed, Bool(d.enabled), "enabled", JBool(true)))
  }

  /** The create body's `omitempty` scalars other than `enabled`. */
  function OptionalFields(d: Policy): (b: Body)
    ensures "duration" in b <==> Int(d.duration) != 0
    ensures "comment" in b <==> Str(d.comment) != ""
    ensures "name" !in b && "svm" !in b && "schedule" !in b && "enabled" !in b
  {
    var b1 := PutIf(map[], Str(d.policyType) != "", "type", JStr(Str(d.policyType)));
    var b2 := PutIf(b1, Int(d.duration) != 0, "duration", JInt(Int(d.duration)));
    var b3 := PutIf(b2, Int(d.startThresholdPercent) != 0, "start_threshold_percent", JInt(Int(d.startThresholdPercent)));
    var b4 := PutIf(b3, Str(d.qosPolicy) != "", "qos_policy", JStr(Str(d.qosPolicy)));
    PutIf(b4, Str(d.comment) != "", "comment", JStr(Str(d.comment)))
  }

  /** The state saved by `Create`: the new UUID and the comment the server returned. */
  function AfterCreate(d: Policy, uuid: string, comment: string): (r: Policy)
    ensures r.id == Known(uuid) && r.comment == Known(comment)
    ensures r.(id := d.id, comment := d.comment) == d
  {
    d.(id := Known(uuid), comment := Known(comment))
  }

  // ------------------------------------------------------------------ update

  /** The update body without `enabled`: each field that changed and is non-zero. */
  function ChangedFields(plan: Policy, state: Policy): (r: Result<Body, string>)
    ensures r.Failure? <==> plan.schedule != state.schedule && !plan.schedule.Known?
    ensures r.Success? ==> "enabled" !in r.value && "schedule" in r.value
    ensures r.Success? ==> ("duration" in r.value <==> plan.duration != state.duration && Int(plan.duration) != 0)
    ensures r.Success? ==> ("comment" in r.value <==> plan.comment != state.comment && Str(plan.comment) != "")
    ensures r.Success? ==> ("type" in r.value <==> plan.policyType != state.policyType && Str(plan.policyType) != "")
    ensures r.Success? ==> ("qos_policy" in r.value <==> plan.qosPolicy != state.qosPolicy && Str(plan.qosPolicy) != "")
    ensures r.Success? ==>
      ("start_threshold_percent" in r.value <==>
         plan.startThresholdPercent != state.startThresholdPercent && Int(plan.startThresholdPercent) != 0)
  {
    if plan.schedule != state.schedule && !plan.schedule.Known? then Failure(ScheduleNotConvertible)
    else
      var schedule := if plan.schedule != state.schedule then Str(plan.schedule.value) else "";
      var b0: Body := map["schedule" := ScheduleJson(schedule)];
      var b1 := PutIf(b0, plan.startThresholdPercent != state.startThresholdPercent && Int(plan.startThresholdPercent) != 0,
                      "start_threshold_percent", JInt(Int(plan.startThresholdPercent)));
      var b2 := PutIf(b1, plan.duration != state.duration && Int(plan.duration) != 0, "duration", JInt(Int(plan.duration)));
      var b3 := PutIf(b2, plan.comment != state.comment && Str(plan.comment) != "", "comment", JStr(Str(plan.comment)));
      var b4 := PutIf(b3, plan.qosPolicy != state.qosPolicy && Str(plan.qosPolicy) != "", "qos_policy", JStr(Str(plan.qosPolicy)));
      Success(PutIf(b4, plan.policyType != state.policyType && Str(plan.policyType) != "", "type", JStr(Str(plan.policyType))))
  }

  /**
   * `Update` as written: `enabled` is assigned when plan and state are
   * EQUAL, and then dropped by `omitempty` unless it is `true`.
   */
  function UpdateBodyAsWritten(plan: Policy, state: Policy): (r: Result<Body, string>)
    ensures r.Failure? <==> ChangedFields(plan, state).Failure?
    ensures r.Success? ==> ("enabled" in r.value <==> plan.enabled == state.enabled && Bool(plan.enabled))
    ensures r.Success? ==> r.value - {"enabled"} == ChangedFields(plan, state).value
  {
    var b :- ChangedFields(plan, state);
    Success(PutIf(b, plan.enabled == state.enabled && Bool(plan.enabled), "enabled", JBool(true)))
  }

  /** As written, a change of `enabled`, either way, never reaches the server. */
  lemma EnabledChangeNeverSent(plan: Policy, state: Policy)
    requires plan.enabled != state.enabled && UpdateBodyAsWritten(plan, state).Success?
    ensures "enabled" !in UpdateBodyAsWritten(plan, state).value
  {
  }

  /** Disabling an enabled policy sends nothing at all for `enabled`. */
  lemma DisableIsLost()
    ensures var s := Policy(Known("c"), Known("p"), Known("vs1"), Known("auto"), Known(Known("daily")), Null, Null,
                            Known("none"), Known(""), Known(true), Known("u1"));
            var p := s.(enabled := Known(false));
            UpdateBodyAsWritten(p, s) == Success(map["schedule" := JObj(map[])])
  {
    var s := Policy(Known("c"), Known("p"), Known("vs1"), Known("auto"), Known(Known("daily")), Null, Null,
                    Known("none"), Known(""), Known(true), Known("u1"));
    var p := s.(enabled := Known(false));
    assert ChangedFields(p, s) == Success(map["schedule" := JObj(map[])]);
  }

  /** `Update` corrected: `enabled` is sent, `false` included, exactly when it changed. */
  function UpdateBody(plan: Policy, state: Policy): (r: Result<Body, string>)
    ensures r.Failure? <==> ChangedFields(plan, state).Failure?
    ensures r.Success? ==> ("enabled" in r.value <==> plan.enabled != state.enabled)
    ensures r.Success? && plan.enabled != state.enabled ==> r.value["enabled"] == JBool(Bool(plan.enabled))
    ensures r.Success? ==> r.value - {"enabled"} == ChangedFields(plan, state).value
  {
    var b :- ChangedFields(plan, state);
    Success(PutIf(b, plan.enabled != state.enabled, "enabled", JBool(Bool(plan.enabled))))
  }

  /** With nothing changed, the corrected update sends only the empty schedule object. */
  lemma UpdateUnchanged(d: Policy)
    ensures UpdateBody(d, d) == Success(map["schedule" := JObj(map[])])
  {
    var b := ChangedFields(d, d).value;
    assert b.Keys == {"schedule"} by {
      forall k | k in b ensures k == "schedule" {
        assert k !in {"start_threshold_percent", "duration", "comment", "qos_policy", "type"};
      }
    }
  }

  /** The state saved by `Update` is the plan. */
  function AfterUpdate(plan: Policy, state: Policy): (r: Result<Policy, string>)
    ensures r.Success? <==> UpdateBodyAsWritten(plan, state).Success?
    ensures r.Success? ==> r.value == plan
  {
    var _ :- UpdateBodyAsWritten(plan, state);
    Success(plan)
  }

  // -------------------------------------------------------------------- read

  datatype ReadBy = ByUuid(uuid: string) | ByName(name: string, svmName: string)

  /** `Read` looks up by UUID when the ID is set, else by name and SVM name. */
  function ReadLookup(d: Policy): (r: ReadBy)
    ensures r.ByUuid? <==> Str(d.id) != ""
    ensures r.ByUuid? ==> r.uuid == Str(d.id)
    ensures r.ByName? ==> r.name == Str(d.name) && r.svmName == Str(d.svmName)
  {
    if Str(d.id) != "" then ByUuid(Str(d.id)) else ByName(Str(d.name), Str(d.svmName))
  }

  datatype PolicyRecord = PolicyRecord(
    uuid: string, name: string, svmName: string, policyType: string, scheduleName: string,
    duration: int, startThresholdPercent: int, qosPolicy: string, comment: string, enabled: bool)

  /**
   * `Read`: identity, type, QoS policy, enabled and schedule are always
   * replaced; duration and start threshold only when non-zero; comment only
   * when non-empty.
   */
  function Read(d: Policy, rec: PolicyRecord): (r: Policy)
    ensures r.id == Known(rec.uuid) && r.name == Known(rec.name) && r.svmName == Known(rec.svmName)
    ensures r.policyType == Known(rec.policyType) && r.qosPolicy == Known(rec.qosPolicy) && r.enabled == Known(rec.enabled)
    ensures r.schedule == Known(Known(rec.scheduleName))
    ensures r.duration == (if rec.duration != 0 then Known(rec.duration) else d.duration)
    ensures r.startThresholdPercent ==
            (if rec.startThresholdPercent != 0 then Known(rec.startThresholdPercent) else d.startThresholdPercent)
    ensures r.comment == (if rec.comment != "" then Known(rec.comment) else d.comment)
    ensures r.cxProfileName == d.cxProfileName
  {
    d.(id := Known(rec.uuid), name := Known(rec.name), svmName := Known(rec.svmName), policyType := Known(rec.policyType),
       qosPolicy := Known(rec.qosPolicy), enabled := Known(rec.enabled), schedule := Known(Known(rec.scheduleName)),
       duration := if rec.duration != 0 then Known(rec.duration) else d.duration,
       startThresholdPercent := if rec.startThresholdPercent != 0 then Known(rec.startThresholdPercent) else d.startThresholdPercent,
       comment := if rec.comment != "" then Known(rec.comment) else d.comment)
  }

  lemma ReadIdempotent(d: Policy, rec: PolicyRecord)
    ensures Read(Read(d, rec), rec) == Read(d, rec)
  {
  }

  /** A plan that matches what was read needs no update beyond the empty schedule object. */
  lemma ReadThenUpdateSendsNothing(d: Policy, rec: PolicyRecord)
    ensures UpdateBody(Read(d, rec), Read(d, rec)) == Success(map["schedule" := JObj(map[])])
  {
    UpdateUnchanged(Read(d, rec));
  }

  /** `Delete`: a null ID is an error, else the UUID's path is deleted. */
  function Delete(d: Policy): (r: Result<string, string>)
    ensures r.Failure? <==> d.id.Null?
    ensures r.Success? ==> r.value == "storage/volume-efficiency-policies/" + Str(d.id)
  {
    if d.id.Null? then Failure("UUID is null") else Success("storage/volume-efficiency-policies/" + Str(d.id))
  }

  /** After create, later reads look the policy up by its new UUID and delete removes that UUID. */
  lemma CreatedPolicyTargeted(d: Policy, uuid: string, comment: string)
    requires uuid != ""
    ensures ReadLookup(AfterCreate(d, uuid, comment)) == ByUuid(uuid)
    ensures Delete(AfterCreate(d, uuid, comment)) == Success("storage/volume-efficiency-policies/" + uuid)
  {
  }

  /** A state agrees with a record when a read from it would change nothing. */
  predicate Reflects(d: Policy, rec: PolicyRecord) {
    && d.id == Known(rec.uuid) && d.name == Known(rec.name) && d.svmName == Known(rec.svmName)
    && d.policyType == Known(rec.policyType) && d.qosPolicy == Known(rec.qosPolicy) && d.enabled == Known(rec.enabled)
    && d.schedule == Known(Known(rec.scheduleName))
    && (rec.duration != 0 ==> d.duration == Known(rec.duration))
    && (rec.startThresholdPercent != 0 ==> d.startThresholdPercent == Known(rec.startThresholdPercent))
    && (rec.comment != "" ==> d.comment == Known(rec.comment))
  }

  /** Reading leaves a state unchanged exactly when it agrees with the record, and a read always agrees. */
  lemma ReadFixedIff(d: Policy, rec: PolicyRecord)
    ensures Read(d, rec) == d <==> Reflects(d, rec)
    ensures Reflects(Read(d, rec), rec)
  {
    if Read(d, rec) == d {
      assert Read(d, rec).schedule == d.schedule;
    }
  }

  /** When the server applied the update, reading it back gives the saved plan. */
  lemma ReadAfterUpdate(plan: Policy, state: Policy, rec: PolicyRecord)
    requires AfterUpdate(plan, state).Success? && Reflects(plan, rec)
    ensures Read(AfterUpdate(plan, state).value, rec) == AfterUpdate(plan, state).value
  {
    ReadFixedIff(plan, rec);
  }

  // ---------------------------------------------------------------- import

  // `ImportState` takes `name,svm_name,cx_profile_name`: `ImportId.ImportSvmScoped`.
}
