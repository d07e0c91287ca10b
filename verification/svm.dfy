/**
 * An SVM (`provider/svm/svm_resource.go`): the create and update requests,
 * the two flags that ask the interface to send an empty comment or an empty
 * aggregate list, the rules that refuse an update, and import.
 * `ValidateIntORString` is a parameter: its body is not part of this model.
 */
module Svm {
  import opened Wrappers
  import opened Tf
  import opened GoStrings
  import opened ImportId

  /** The resource model; `aggregates` holds the aggregate names, in order. */
  datatype Svm = Svm(
    name: Value<string>,
    ipspace: Value<string>,
    snapshotPolicy: Value<string>,
    subType: Value<string>,
    comment: Value<string>,
    language: Value<string>,
    aggregates: seq<string>,
    maxVolumes: Value<string>)

  /** `interfaces.SvmResourceModel` as filled in; "" and an empty list are Go's zero values, i.e. unset. */
  datatype Request = Request(
    name: string,
    ipspace: string,
    snapshotPolicy: string,
    subType: string,
    comment: string,
    language: string,
    maxVolumes: string,
    aggregates: seq<string>)

  /** The request with the flags `CreateSvm`/`UpdateSvm` receive. */
  datatype Call = Call(request: Request, setAggrEmpty: bool, setCommentEmpty: bool)

  /** `ValidateIntORString(value, "unlimited")`: whether the value is accepted. */
  type MaxVolumesCheck = string -> bool

  /** A value copied when not null. */
  function IfSet(v: Value<string>): (r: string)
    ensures v.Null? ==> r == ""
    ensures v.Known? ==> r == v.value
  {
    if v.Null? then "" else Str(v)
  }

  // ---------------------------------------------------------------- create

  /** The create request: the name and aggregates always; every other field copied when not null, unset when null. */
  function CreateRequest(d: Svm): (r: Request)
    ensures r.name == Str(d.name) && r.aggregates == d.aggregates
    ensures d.ipspace.Null? ==> r.ipspace == ""
    ensures d.ipspace.Known? ==> r.ipspace == d.ipspace.value
    ensures d.snapshotPolicy.Null? ==> r.snapshotPolicy == ""
    ensures d.snapshotPolicy.Known? ==> r.snapshotPolicy == d.snapshotPolicy.value
    ensures d.subType.Null? ==> r.subType == ""
    ensures d.subType.Known? ==> r.subType == d.subType.value
    ensures d.comment.Null? ==> r.comment == ""
    ensures d.comment.Known? ==> r.comment == d.comment.value
    ensures d.language.Null? ==> r.language == ""
    ensures d.language.Known? ==> r.language == d.language.value
    ensures d.maxVolumes.Null? ==> r.maxVolumes == ""
    ensures d.maxVolumes.Known? ==> r.maxVolumes == d.maxVolumes.value
  {
    Request(Str(d.name), IfSet(d.ipspace), IfSet(d.snapshotPolicy), IfSet(d.subType), IfSet(d.comment),
            IfSet(d.language), IfSet(d.maxVolumes), d.aggregates)
  }

  /**
   * Create: refused when a set `max_volumes` fails validation; otherwise the
   * request, an empty comment requested iff none is configured, and an empty
   * aggregate list iff none is planned.
   */
  function Create(d: Svm, valid: MaxVolumesCheck): (r: Result<Call, string>)
    ensures r.Failure? <==> !d.maxVolumes.Null? && !valid(Str(d.maxVolumes))
    ensures r.Success? ==> (r.value.setCommentEmpty <==> d.comment.Null?)
    ensures r.Success? ==> (r.value.setAggrEmpty <==> |d.aggregates| == 0)
    ensures r.Success? ==> r.value.request == CreateRequest(d)
  {
    if !d.maxVolumes.Null? && !valid(Str(d.maxVolumes)) then Failure("max_volumes is neither an integer nor unlimited")
    else Success(Call(CreateRequest(d), |d.aggregates| == 0, d.comment.Null?))
  }

  /** A configured field reaches the create request unchanged. */
  lemma CreateCopiesKnown(d: Svm, valid: MaxVolumesCheck)
    requires Create(d, valid).Success?
    requires d.comment.Known? && d.snapshotPolicy.Known?
    ensures Create(d, valid).value.request.comment == d.comment.value
    ensures Create(d, valid).value.request.snapshotPolicy == d.snapshotPolicy.value
    ensures !Create(d, valid).value.setCommentEmpty
  {
  }

  // ---------------------------------------------------------------- update

  predicate ChangedTo(p: Value<string>, s: Value<string>, v: string) {
    p != s && Str(p) == v
  }

  /** Why an update is refused, in the order the checks run; none when it is accepted. */
  function UpdateError(p: Svm, s: Svm, valid: MaxVolumesCheck): (e: Option<string>)
    ensures e.None? <==>
      && !ChangedTo(p.name, s.name, "")
      && !ChangedTo(p.snapshotPolicy, s.snapshotPolicy, "")
      && p.subType == s.subType
      && !ChangedTo(p.language, s.language, "")
      && (p.maxVolumes != s.maxVolumes ==> Str(p.maxVolumes) != "" && valid(Str(p.maxVolumes)))
  {
    if ChangedTo(p.name, s.name, "") then Some("name cannot be updated with empty string")
    else if ChangedTo(p.snapshotPolicy, s.snapshotPolicy, "") then Some("snapshot_policy cannot be updated with empty string")
    else if p.subType != s.subType then Some("subtype cannot be modified")
    else if ChangedTo(p.language, s.language, "") then Some("language cannot be updated with empty string")
    else if ChangedTo(p.maxVolumes, s.maxVolumes, "") then Some("max_volumes cannot be updated with empty string")
    else if p.maxVolumes != s.maxVolumes && !valid(Str(p.maxVolumes)) then Some("max_volumes is neither an integer nor unlimited")
    else None
  }

  /**
   * The update request: the ipspace and subtype are never sent and the
   * aggregate list always is; every other field carries the plan's value
   * when it changed and stays unset when it did not.
   */
  function UpdateRequest(p: Svm, s: Svm): (r: Request)
    ensures r.ipspace == "" && r.subType == "" && r.aggregates == p.aggregates
    ensures p.name == s.name ==> r.name == ""
    ensures p.name != s.name ==> r.name == Str(p.name)
    ensures p.snapshotPolicy == s.snapshotPolicy ==> r.snapshotPolicy == ""
    ensures p.snapshotPolicy != s.snapshotPolicy ==> r.snapshotPolicy == Str(p.snapshotPolicy)
    ensures p.comment == s.comment ==> r.comment == ""
    ensures p.comment != s.comment ==> r.comment == Str(p.comment)
    ensures p.language == s.language ==> r.language == ""
    ensures p.language != s.language ==> r.language == Str(p.language)
    ensures p.maxVolumes == s.maxVolumes ==> r.maxVolumes == ""
    ensures p.maxVolumes != s.maxVolumes ==> r.maxVolumes == Str(p.maxVolumes)
  {
    Request(IfChanged(p.name, s.name), "", IfChanged(p.snapshotPolicy, s.snapshotPolicy), "",
            IfChanged(p.comment, s.comment), IfChanged(p.language, s.language),
            IfChanged(p.maxVolumes, s.maxVolumes), p.aggregates)
  }

  /**
   * Update: refused by `UpdateError`; otherwise the changed fields, an empty
   * comment requested iff the comment changed to "", and an empty aggregate
   * list iff the plan has none and the state had some.
   */
  function Update(p: Svm, s: Svm, valid: MaxVolumesCheck): (r: Result<Call, string>)
    ensures r.Failure? <==> UpdateError(p, s, valid).Some?
    ensures r.Success? ==> r.value.request == UpdateRequest(p, s)
    ensures r.Success? ==> (r.value.setCommentEmpty <==> ChangedTo(p.comment, s.comment, ""))
    ensures r.Success? ==> (r.value.setAggrEmpty <==> |p.aggregates| == 0 && |s.aggregates| != 0)
  {
    var e := UpdateError(p, s, valid);
    if e.Some? then Failure(e.value)
    else Success(Call(UpdateRequest(p, s), |p.aggregates| == 0 && |s.aggregates| != 0, ChangedTo(p.comment, s.comment, "")))
  }

  /** Clearing the comment is allowed, unlike clearing the name, snapshot policy, language or volume limit. */
  lemma UpdateClearsComment(p: Svm, s: Svm, valid: MaxVolumesCheck)
    requires UpdateError(p, s, valid).None? && p.comment != s.comment && Str(p.comment) == ""
    ensures Update(p, s, valid).Success? && Update(p, s, valid).value.setCommentEmpty
    ensures Update(p, s, valid).value.request.comment == ""
  {
  }

  /** A changed subtype is refused whatever else the plan says. */
  lemma UpdateSubTypeRefused(p: Svm, s: Svm, valid: MaxVolumesCheck)
    requires p.subType != s.subType
    ensures Update(p, s, valid).Failure?
  {
  }

  /** A plan equal to the state sends no field but the aggregate list, and neither flag. */
  lemma UpdateUnchanged(d: Svm, valid: MaxVolumesCheck)
    ensures Update(d, d, valid) == Success(Call(Request("", "", "", "", "", "", "", d.aggregates), false, false))
  {
  }

  // ---------------------------------------------------------------- import

  // `ImportState` takes `name,cx_profile_name`: `ImportId.ImportNamed`.
}
