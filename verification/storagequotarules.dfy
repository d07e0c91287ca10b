/**
 * Quota rules (`interfaces/storage_quota_rules.go`): the lookup query, and the
 * keys removed from the encoded create and update bodies.
 */
module StorageQuotaRules {
  import opened Wrappers
  import opened Tf
  import opened RestResponse
  import opened RestClient

  /** The lookup of one rule: filters on volume, type, qtree and SVM, and the fields read back. */
  function LookupQuery(volumeName: string, svmName: string, quotaType: string, qtree: string): (q: Query)
    ensures q.Keys == {"volume.name", "type", "qtree.name", "svm.name", "fields"}
    ensures q["volume.name"] == volumeName && q["type"] == quotaType
    ensures q["qtree.name"] == qtree && q["svm.name"] == svmName
  {
    RuleQuery(volumeName, svmName, quotaType, qtree, ["volume", "svm", "type", "qtree", "users", "group", "files", "uuid"])
  }

  function RuleQuery(volumeName: string, svmName: string, quotaType: string, qtree: string, fields: seq<string>): (q: Query)
    ensures q.Keys == {"volume.name", "type", "qtree.name", "svm.name", "fields"}
    ensures q["volume.name"] == volumeName && q["type"] == quotaType
    ensures q["qtree.name"] == qtree && q["svm.name"] == svmName
  {
    var q: Query := map["volume.name" := volumeName, "type" := quotaType, "qtree.name" := qtree, "svm.name" := svmName];
    Fields(q, fields)
  }

  /** `GetStorageQuotaRules`: the single matching record; a failed call or no record is an error. */
  function Lookup(o: Outcome): (r: Option<Body>)
    ensures r.Some? <==> o.err.None? && o.response.numRecords == 1 && |o.response.records| > 0
    ensures r.Some? ==> r.value == o.response.records[0]
  {
    FoundExactlyOne(o);
    Found(GetNilOrOneRecord(o))
  }

  predicate TypeIs(b: Body, t: string) {
    "type" in b && b["type"] == JStr(t)
  }

  /**
   * `CreateStorageQuotaRules`: a user rule drops `group`, a group rule drops
   * `users`, a tree rule drops both; any other type keeps the body as encoded.
   */
  function PruneForType(b: Body): (r: Body)
    ensures forall k :: k != "users" && k != "group" ==> (k in r <==> k in b) && (k in r ==> r[k] == b[k])
    ensures "group" in r <==> "group" in b && !TypeIs(b, "user") && !TypeIs(b, "tree")
    ensures "users" in r <==> "users" in b && !TypeIs(b, "group") && !TypeIs(b, "tree")
    ensures "group" in r ==> r["group"] == b["group"]
    ensures "users" in r ==> r["users"] == b["users"]
  {
    if TypeIs(b, "user") then b - {"group"}
    else if TypeIs(b, "group") then b - {"users"}
    else if TypeIs(b, "tree") then b - {"users", "group"}
    else b
  }

  /** Pruning keeps the type, so pruning again changes nothing. */
  lemma PruneForTypeIdempotent(b: Body)
    ensures PruneForType(PruneForType(b)) == PruneForType(b)
  {
    var r := PruneForType(b);
    assert TypeIs(r, "user") == TypeIs(b, "user") && TypeIs(r, "group") == TypeIs(b, "group") && TypeIs(r, "tree") == TypeIs(b, "tree");
    assert PruneForType(r).Keys == r.Keys;
  }

  /** A rule of any other type reaches the server exactly as encoded. */
  lemma PruneOtherTypeUnchanged(b: Body)
    requires !TypeIs(b, "user") && !TypeIs(b, "group") && !TypeIs(b, "tree")
    ensures PruneForType(b) == b
  {
    assert PruneForType(b).Keys == b.Keys;
  }

  /** `UpdateQuotaRules`: `users`, `group` and `qtree` are never sent; every other key is. */
  function PruneForUpdate(b: Body): (r: Body)
    ensures "users" !in r && "group" !in r && "qtree" !in r
    ensures forall k :: k != "users" && k != "group" && k != "qtree" ==> (k in r <==> k in b) && (k in r ==> r[k] == b[k])
  {
    b - {"users", "group", "qtree"}
  }
}
