/**
 * SnapMirror policy lookups (`interfaces/snapmirror_policy.go`): the scope a
 * lookup by name selects, and the fields requested on each cluster version.
 */
module SnapmirrorPolicy {
  import opened Wrappers
  import opened Tf
  import opened GoStrings
  import opened Versions
  import opened RestResponse
  import opened RestClient

  /** Why a single-record GET failed. */
  datatype GetError = CallFailed(failure: Failure) | NoResponse(api: string)

  /** A single-record GET: the call's error, or "no response" when no record came back. */
  function Get(api: string, o: Outcome): (r: Result<Body, GetError>)
    ensures r.Success? <==> o.err.None? && o.response.numRecords == 1 && |o.response.records| > 0
    ensures r.Success? ==> r.value == o.response.records[0]
    ensures o.err.None? && o.response.numRecords < 1 ==> r == Failure(NoResponse(api))
    ensures o.err.Some? ==> r == Failure(CallFailed(o.err.value))
  {
    var f := GetNilOrOneRecord(o);
    if f.err.Some? then Failure(CallFailed(f.err.value))
    else if f.record.None? then Failure(NoResponse(api))
    else Success(f.record.value)
  }

  /** `GetSnapmirrorPolicy`: the policy at its UUID path. */
  function GetById(id: string, o: Outcome): (r: Result<Body, GetError>)
    ensures r.Failure? && r.error.NoResponse? ==> r.error.api == "snapmirror/policies/" + id
    ensures r.Success? <==> o.err.None? && o.response.numRecords == 1 && |o.response.records| > 0
  {
    Get("snapmirror/policies/" + id, o)
  }

  const ByNameFields: seq<string> :=
    ["name", "svm.name", "type", "comment", "transfer_schedule", "network_compression_enabled", "retention",
     "identity_preservation", "copy_all_source_snapshots", "uuid"]

  /**
   * `GetSnapmirrorPolicyByName`'s query: without an SVM the cluster-scoped
   * policy is looked up, with one the policy of that SVM.
   */
  function ByNameQuery(name: string, svmName: string): (q: Query)
    ensures "name" in q && q["name"] == name && "scope" in q && "fields" in q
    ensures svmName == "" ==> q["scope"] == "cluster" && "svm.name" !in q
    ensures svmName != "" ==> q["scope"] == "svm" && "svm.name" in q && q["svm.name"] == svmName
  {
    if svmName == "" then ClusterQuery(name, ByNameFields) else SvmQuery(name, svmName, ByNameFields)
  }

  function ClusterQuery(name: string, fields: seq<string>): (q: Query)
    ensures "name" in q && q["name"] == name && "fields" in q
    ensures "scope" in q && q["scope"] == "cluster" && "svm.name" !in q
  {
    RestClient.Fields(map["name" := name, "scope" := "cluster"], fields)
  }

  function SvmQuery(name: string, svmName: string, fields: seq<string>): (q: Query)
    ensures "name" in q && q["name"] == name && "fields" in q
    ensures "scope" in q && q["scope"] == "svm" && "svm.name" in q && q["svm.name"] == svmName
  {
    RestClient.Fields(map["name" := name, "svm.name" := svmName, "scope" := "svm"], fields)
  }

  /** The scope names the SVM exactly when one is given. */
  lemma ScopeIff(name: string, svmName: string)
    ensures ByNameQuery(name, svmName)["scope"] == "svm" <==> svmName != ""
    ensures "svm.name" in ByNameQuery(name, svmName) <==> svmName != ""
  {
  }

  const BaseFields: seq<string> :=
    ["name", "svm.name", "type", "comment", "transfer_schedule", "network_compression_enabled", "retention",
     "identity_preservation", "uuid", "create_snapshot_on_source", "transfer_schedule.name", "sync_type"]

  /** From 9.10: `copy_all_source_snapshots`. */
  predicate CopyAllSupported(v: Version) {
    v.generation == 9 && v.major > 9
  }

  /** From 9.11: `create_snapshot_on_source` and `copy_latest_source_snapshot`. */
  predicate CopyLatestSupported(v: Version) {
    v.generation == 9 && v.major > 10
  }

  const CopyAllFields: seq<string> := ["copy_all_source_snapshots"]
  const CopyLatestFields: seq<string> := ["create_snapshot_on_source", "copy_latest_source_snapshot"]

  /**
   * The fields the data source lookups request. `create_snapshot_on_source`
   * is in the base list and is appended again on 9.11 and later.
   */
  function VersionedFields(v: Version): (r: seq<string>)
    ensures |r| >= |BaseFields| && r[..|BaseFields|] == BaseFields
  {
    BaseFields + (if CopyAllSupported(v) then CopyAllFields else []) + (if CopyLatestSupported(v) then CopyLatestFields else [])
  }

  /** Each optional field is requested exactly on the versions that have it. */
  lemma VersionedFieldsGates(v: Version)
    ensures "copy_all_source_snapshots" in VersionedFields(v) <==> CopyAllSupported(v)
    ensures "copy_latest_source_snapshot" in VersionedFields(v) <==> CopyLatestSupported(v)
  {
    assert "copy_all_source_snapshots" !in BaseFields && "copy_all_source_snapshots" !in CopyLatestFields;
    assert "copy_latest_source_snapshot" !in BaseFields && "copy_latest_source_snapshot" !in CopyAllFields;
  }

  /** `create_snapshot_on_source` is always requested, and a second time at the end from 9.11 on. */
  lemma CreateSnapshotRequestedTwice(v: Version)
    ensures VersionedFields(v)[9] == "create_snapshot_on_source"
    ensures "create_snapshot_on_source" !in BaseFields[..9] + BaseFields[10..]
    ensures CopyLatestSupported(v) ==>
      |VersionedFields(v)| > 11 && VersionedFields(v)[|VersionedFields(v)| - 2] == "create_snapshot_on_source"
    ensures !CopyLatestSupported(v) ==> VersionedFields(v)[|BaseFields|..] == (if CopyAllSupported(v) then CopyAllFields else [])
  {
    var r := VersionedFields(v);
    assert r[9] == BaseFields[9];
    var rest := BaseFields[..9] + BaseFields[10..];
    assert |rest| == 11;
    // no other field name has its length
    forall i | 0 <= i < 11 ensures |rest[i]| != 25 {
    }
  }

  /** `GetSnapmirrorPolicyDataSourceByName`'s query: the name and the versioned fields. */
  function DataSourceQuery(v: Version, name: string): (q: Query)
    ensures "name" in q && q["name"] == name
    ensures "fields" in q && q["fields"] == Join(VersionedFields(v), ',')
  {
    RestClient.Fields(map["name" := name], VersionedFields(v))
  }
}
