# ONTAP Terraform provider: decision logic in Dafny

This project models the decision procedures of the NetApp ONTAP Terraform provider, a Go plugin that manages
ONTAP clusters through the ONTAP REST API. Each resource (SVM, volume, aggregate, CIFS service, share and
local user, NFS service and export-policy rule, LDAP, QoS policy, FlexCache, SVM peer, SnapMirror policy,
cluster schedule, LUN map, efficiency policy, login message, certificate, security role and the cluster
itself) turns a Terraform plan and state into REST requests, and turns REST replies back into state.
Those steps are written here as pure functions:

- Terraform attribute values are tri-state (`Tf.Value`: null, unknown or known). Reading a null or
  unknown value gives the Go zero value, as the framework's `ValueString`/`ValueInt64`/`ValueBool` do.
- A request or reply body is a map from JSON key to value. A key that is present is a field the code
  assigned. Queries are maps from parameter name to value.
- The REST client's reply handling (`RestResponse`, `RestClient`) is modelled from status code, decoded
  record list and error block up to the "nil or one record" and "zero or more records" lookups. Job
  polling runs over a finite list of poll outcomes.
- Go's `strings.Split`, `strings.Join`, `strings.ToLower`, `strconv.Atoi`/`Itoa` and friends are in
  `GoStrings`. The comma-separated import IDs are in `ImportId`. ONTAP versions are in `Versions`. Size
  units are in `Units`.
- One module per resource holds its create body, update body, read (state refresh), delete and import
  steps. The contracts and lemmas state what each step sends, what it keeps, when it fails, and how it
  relates to the other steps: import round trips, an unchanged plan sending nothing, a read that is
  idempotent, and version gates that agree with the version order.

Where the code does something its authors evidently did not intend, the model keeps the code as
written next to a corrected definition. Both are listed under "## Findings".

## Model

| member | source | states |
|---|---|---|
| GoStrings.SplitLength | internal/provider/svm/svm_peer_resource.go:368-370 | a split gives exactly one more part than the text has separators, so a part count checks the separator count |
| GoStrings.SplitSepFree | internal/provider/svm/svm_peer_resource.go:368-370 | no part of a split contains the separator |
| GoStrings.SplitJoin | internal/provider/svm/svm_peer_resource.go:368-381 | parts free of the separator, joined with it, split back into the same parts |
| GoStrings.JoinSplit | internal/provider/svm/svm_peer_resource.go:368-381 | joining the parts of any split gives back the text |
| GoStrings.ToLower | internal/provider/protocols_cifs_service_resource.go:379-429 | lowering keeps the length and lowers each ASCII letter in place |
| GoStrings.ToLowerIdempotent | internal/provider/protocols_cifs_service_resource.go:416 | lowering twice is lowering once |
| GoStrings.TrimSuffix | internal/provider/security/security_login_message_resource.go:148-149 | a text ending with the suffix loses exactly one copy of it; any other text is unchanged |
| GoStrings.Atoi | internal/provider/protocols/protocols_nfs_export_policy_rule_resource.go:542 | strconv.Atoi: an error yields 0 or the 64-bit bound of the sign, and every result lies within 64 bits |
| GoStrings.AtoiOverflowingPrefix | internal/provider/protocols/protocols_nfs_export_policy_rule_resource.go:542 | digits worth more than 64 unsigned bits give the largest 64-bit value, or after a minus sign the smallest, with a range error, whatever characters follow |
| GoStrings.AtoiSyntax | internal/provider/protocols/protocols_nfs_export_policy_rule_resource.go:542 | a non-digit reached while the digits still fit 64 unsigned bits gives 0 with a syntax error, whatever follows it |
| GoStrings.AtoiOverflowBeforeLetter | internal/provider/protocols/protocols_nfs_export_policy_rule_resource.go:542 | twenty nines followed by a letter give the largest 64-bit value, not 0: the range error is met before the letter |
| GoStrings.AtoiItoa | internal/provider/protocols/protocols_nfs_export_policy_rule_resource.go:324 | parsing the decimal text of any 64-bit integer gives back that integer without error |
| GoStrings.ItoaNoChar | internal/provider/protocols/protocols_nfs_export_policy_rule_resource.go:324 | the decimal text of an integer contains no character other than digits and the minus sign |
| GoStrings.Quote | internal/provider/protocols_cifs_service_resource.go:565 | the text String() writes for a known string starts and ends with a quotation mark and is at least two characters longer than the value |
| GoStrings.QuotePlain | internal/provider/protocols_cifs_service_resource.go:565 | a value with no quotation mark, backslash or line break is written as the value between two quotation marks |
| GoStrings.QuoteDiffers | internal/provider/protocols_cifs_service_resource.go:565 | the quoted text of a value is never the value itself |
| RestResponse.CheckStatusCode | internal/restclient/rest_response.go:230-235 | a status is an error exactly when it is below 200 or at least 300, and the error carries the status |
| RestResponse.CheckRestErrors | internal/restclient/rest_response.go:215-227 | a REST error code other than "" and "0" gives ErrorType "rest_error" and an error whatever the status; otherwise a non-2xx status gives "statuscode_error"; otherwise no error and the response is unchanged; no field but ErrorType ever changes |
| RestResponse.Promote | internal/restclient/rest_response.go:189-198 | the leftover "Other" map becomes the single record exactly when there are no records, NumRecords is 0 and Other has more than one key; otherwise the staged reply is untouched |
| RestResponse.Unmarshal | internal/restclient/rest_response.go:144-212 | the input status is always returned; a transport error gives the empty response with ErrorType "http", the message as HTTPError and the status kept; each decoding failure gives its own ErrorType and no records; a decoded reply carries the promoted records and the input status, and has no error only with a 2xx status and no REST error |
| RestResponse.UnmarshalLambda | internal/restclient/rest_response.go:61-138 | a transport error keeps the Lambda status; an unparsable envelope returns status -1; otherwise the status is the envelope's "status", a decoded reply carries the promoted records, and the two decoding failures give their "bad_aws_response_…" ErrorType |
| RestResponse.PromoteKeepsRecords | internal/restclient/rest_response.go:195-198 | promotion keeps the existing records, or turns an empty list into exactly [Other]; it adds at most one record |
| RestResponse.DecodedErrorIff | internal/restclient/rest_response.go:207-227 | a decoded reply is an error exactly when it reports a REST error or its status is not 2xx |
| RestClient.GetNilOrOneRecord | internal/restclient/rest_client.go:126-141 | a failed call's error is passed on with a nil record; more than one record is an error with a nil record; exactly one record returns Records[0]; zero records returns nil and no error; a record is returned only without error and with NumRecords 1 |
| RestClient.GetZeroOrMoreRecords | internal/restclient/rest_client.go:143-150 | the records are returned exactly when the call did not fail, and the error is passed on otherwise |
| RestClient.Found | internal/restclient/rest_client.go:126-141 | the lookup guard yields a record exactly when there is no error and the record is non-nil |
| RestClient.FoundExactlyOne | internal/restclient/rest_client.go:126-141 | a lookup succeeds exactly when the call succeeded with exactly one record, and yields Records[0] |
| RestClient.PromotedObjectIsTheRecord | internal/restclient/rest_response.go:195-198 | a successful reply that is a bare object comes back from GetNilOrOneRecord as that object, without error |
| RestClient.Wait | internal/restclient/rest_client.go:275-315 | the polling loop, with time budget jobCompletionTimeOut and 3 retries, computes the recursive definition WaitSpec on every sequence of polls |
| RestClient.WaitFirstSuccess | internal/restclient/rest_client.go:296-297 | a first poll in state "success" ends the wait without error and with that poll's status |
| RestClient.WaitBusyExhausts | internal/restclient/rest_client.go:279-314 | each queued/running/paused poll costs 10 units, so k such polls exhaust any budget of at most 10·k and the wait times out with status 0 |
| RestClient.WaitFourthFailureReturned | internal/restclient/rest_client.go:278-289 | three failed polls are retried and the fourth consecutive failure is returned with its status |
| RestClient.WaitQuietNeverEnds | internal/restclient/rest_client.go:298-311 | non-success polls with empty error info and code 0 consume neither budget nor retries, so the loop never ends on them |
| RestClient.WithReturnTimeout | internal/restclient/rest_client.go:53-115 | the query always gets return_timeout=60, a nil query becomes a fresh one with only that key, and other keys are kept |
| RestClient.JobsToWait | internal/restclient/rest_client.go:64-76 | the single job is waited for when present, else each of the job list in order, else none |
| RestClient.AwaitJobs | internal/restclient/rest_client.go:64-76 | the call succeeds exactly when every job wait succeeded |
| RestClient.CallMutating | internal/restclient/rest_client.go:51-124 | a failed call returns an empty response and its error; DELETE returns the response without waiting; a POST or PATCH waits for each job of the reply, one result per job, and succeeds, returning the response, exactly when every one of those waits succeeded |
| RestClient.Fields | internal/restclient/rest_client.go:259-262 | the query gets one "fields" parameter and keeps its other keys |
| RestClient.FieldsRoundTrip | internal/restclient/rest_client.go:259-262 | splitting the "fields" value at commas gives back the field names, when none contains a comma |
| RestClient.SetValues | internal/restclient/rest_client.go:264-273 | exactly the keys with a non-empty value are set to it; every other key keeps its old value and no other key appears |
| RestClient.NewClient | internal/restclient/rest_client.go:183-237 | a MaxConcurrentRequests of 0 becomes 6 and any other value is kept; the API root is "api", the mode "prod", and the transport is Lambda exactly when the profile asks for it |
| Units.ToBytes | internal/provider/storage/storage_volume_resource.go:640-645 | a size converts exactly when its unit is in the multiplier table, and then to size × multiplier |
| Units.GoDiv | internal/provider/storage/storage_volume_resource.go:758 | Go's integer division truncates toward zero: quotient and remainder bounds for both signs |
| Units.FromBytes | internal/provider/storage/storage_volume_resource.go:758 | a non-negative byte count becomes the whole number of units it holds, rounded down |
| Units.MulDivCancel | internal/provider/storage/storage_volume_resource.go:645-758 | (s · m) / m = s for every positive multiplier, negative sizes included |
| Units.RoundTrip | internal/provider/storage/storage_volume_resource.go:645-758 | a size converted to bytes and back is the size itself, for every unit of the table |
| ImportId.Parse | internal/provider/svm/svm_resource.go:430-441 | an import ID is accepted exactly when its comma-separated parts number n and none is empty, and then yields those parts |
| ImportId.ParseCompose | internal/provider/svm/svm_resource.go:430-441 | joining non-empty, comma-free values with commas and importing the result gives back the same values |
| ImportId.ComposeParse | internal/provider/svm/svm_resource.go:430-441 | an accepted ID is exactly its parts joined by commas |
| ImportId.ParseArity | internal/provider/svm/svm_resource.go:430-441 | an ID is accepted with one arity only, its comma count plus one |
| Versions.CompareNum | internal/provider/protocols_cifs_service_resource.go:581-654 | the numeric order on versions: zero exactly on equal versions, negative exactly when generation, then major, is smaller |
| Versions.CompareVersionsNumeric | internal/provider/protocols_cifs_service_resource.go:581-654 | comparing two formatted "generation.major" strings agrees with the numeric order |
| Versions.ComponentsOfFormat | internal/provider/protocols_nfs_service_resource.go:580 | splitting a formatted version at the dot and parsing the parts gives back generation and major |
| Versions.Literals | internal/provider/protocols_cifs_service_resource.go:581-654 | the releases 9.8, 9.10 and 9.12 format as the literals the provider compares with |
| Versions.AtLeast | internal/provider/protocols_cifs_service_resource.go:581-654 | "CompareVersions(version, t) >= 0" holds exactly when the version is numerically at least t |
| Calls.Execute | internal/provider/security/security_role_resource.go:466-513 | the calls issued are a prefix of the planned list; all are issued when none fails; a failing call is the last one issued |
| Calls.ExecuteAllSucceed | internal/provider/security/security_role_resource.go:466-513 | when no call fails, every planned call is issued in order |
| Calls.ExecuteStopsAtFailure | internal/provider/security/security_role_resource.go:466-513 | the first failing call, at position k, ends the operation: exactly the first k+1 calls are issued |
| SecurityRole.Difference | internal/interfaces/security_role.go:205-220 | every element of the result is in b and not in a, and every element of b not in a is in the result; the result is no longer than b |
| SecurityRole.DifferenceMultiplicity | internal/interfaces/security_role.go:214-218 | an element missing from a occurs in the result as often as in b: repeats are kept |
| SecurityRole.DifferenceSelf | internal/interfaces/security_role.go:205-220 | Difference(a, a) is empty |
| SecurityRole.DifferenceOfEmpty | internal/interfaces/security_role.go:205-220 | Difference([], b) is b itself, order and repeats included |
| SecurityRole.DifferenceLoop | internal/interfaces/security_role.go:207-220 | the hash-set loop of the source computes exactly Difference(a, b) |
| SecurityRole.PrivilegeBody | internal/interfaces/security_role.go:23-27 | each of access, path and query is in the encoded privilege exactly when non-empty, with its value, and no other key is |
| SecurityRole.CreatePrivilegeRequest | internal/interfaces/security_role.go:155-167 | a POST to security/roles/<svm uuid>/<name>/privileges with the encoded privilege |
| SecurityRole.UpdatePrivilegeRequest | internal/interfaces/security_role.go:169-183 | a PATCH to …/privileges/<path>; the body never holds "path" and holds every other key of the encoded privilege |
| SecurityRole.DeletePrivilegeRequest | internal/interfaces/security_role.go:185-193 | a DELETE to security/roles/<svm uuid>/<name>/privileges/<path> with no body |
| SecurityRole.UpdateTargetsPath | internal/interfaces/security_role.go:170 | the PATCH target always ends in "/privileges/" and the privilege's path |
| SecurityRole.ToState | internal/provider/security/security_role_resource.go:200-208 | access and path are copied; an empty query becomes null and any other query is kept |
| SecurityRole.FromStateToState | internal/provider/security/security_role_resource.go:200-208 | storing a server privilege and reading it back as a request loses nothing |
| SecurityRole.ToStateFromState | internal/provider/security/security_role_resource.go:200-208 | a state privilege survives the round trip exactly when its query is null or a known non-empty string |
| SecurityRole.FindRole | internal/provider/security/security_role_resource.go:174-186 | a role is found exactly when some record has the configured name, and it is the first such record |
| SecurityRole.MapToState | internal/provider/security/security_role_resource.go:192-215 | each server privilege is stored, in order, in its state form |
| SecurityRole.Read | internal/provider/security/security_role_resource.go:174-228 | a missing role is the "SecurityRole not found" error; otherwise state has the role's name, builtin flag and scope, its privileges in state form, and ID owner uuid + "/" + name |
| SecurityRole.RoleId | internal/provider/security/security_role_resource.go:228 | the ID is the owner uuid, one slash, then the role name |
| SecurityRole.RoleIdSplits | internal/provider/security/security_role_resource.go:228 | splitting the role ID at the slash gives back owner uuid and name when neither holds a slash |
| SecurityRole.DeleteDefaultFlagIff | internal/provider/security/security_role_resource.go:323-332 | the scan over the planned list deletes DEFAULT exactly when the plan is non-empty and holds no {DEFAULT, none, ""} entry |
| SecurityRole.PruneDefault | internal/provider/security/security_role_resource.go:321-361 | each server privilege is either deleted (only DEFAULT ever is) or stored; with the flag off every privilege is stored in its state form |
| SecurityRole.PruneRemovesDefaults | internal/provider/security/security_role_resource.go:321-361 | with a non-empty, default-free plan no {DEFAULT, none, ""} entry is stored after create |
| SecurityRole.CreatePrune | internal/provider/security/security_role_resource.go:321-361 | create succeeds exactly when none of the deletes of DEFAULT privileges fails, and then stores the kept privileges; a failed delete is the error "error deleting default security_role privileges" |
| SecurityRole.PruneKeepsAllWhenPlanned | internal/provider/security/security_role_resource.go:321-361 | with an empty plan, or a plan that holds a default privilege, no call is made and every server privilege is stored |
| SecurityRole.CreateBody | internal/provider/security/security_role_resource.go:252-277 | the create body holds name, owner.name and privileges; a planned list sends one encoded entry per privilege, in order, and a null list sends null |
| SecurityRole.PrivilegeList | internal/provider/security/security_role_resource.go:263-276 | each planned privilege is encoded, in order |
| SecurityRole.PatchesFor | internal/provider/security/security_role_resource.go:466-478 | one PATCH with the plan privilege per state privilege of the same path and other access or query, and none when every same-path state entry equals it |
| SecurityRole.StepsFor | internal/provider/security/security_role_resource.go:479-495 | a plan privilege is POSTed exactly when its path is absent from state, and DEFAULT is then deleted exactly when no default entry was met so far |
| SecurityRole.PlanPhaseByPosition | internal/provider/security/security_role_resource.go:460-493 | the carried flag at entry i is exactly "a default entry occurs at or before position i", so the outcome depends on the plan's order |
| SecurityRole.DeletePhase | internal/provider/security/security_role_resource.go:498-513 | every state privilege whose path the plan lacks is deleted, and only such paths are |
| SecurityRole.UpdateActions | internal/provider/security/security_role_resource.go:459-513 | a privilege is POSTed exactly when planned with a path state lacks; a path other than DEFAULT is deleted only when state has it and the plan does not, and every such path is; only plan privileges are PATCHed |
| SecurityRole.UpdateUnchanged | internal/provider/security/security_role_resource.go:459-513 | an unchanged privilege set with one entry per path issues no call |
| SecurityRole.PostedInSteps | internal/provider/security/security_role_resource.go:479-486 | the steps of one plan entry POST that entry and no other |
| SecurityRole.PostedIff | internal/provider/security/security_role_resource.go:459-496 | a privilege is POSTed exactly when it is in the plan and its path is absent from state |
| SecurityRole.PostedCons | internal/provider/security/security_role_resource.go:461 | membership in the plan splits into its head and its tail |
| SecurityRole.PlanPhaseUnchanged | internal/provider/security/security_role_resource.go:459-496 | a plan whose privileges are all in a state with distinct paths issues no call in the plan phase |
| SecurityRole.CountPosts | internal/provider/security/security_role_resource.go:482-483 | the count of POST steps is zero exactly when no step is a POST |
| SecurityRole.UpdateAsWritten | internal/provider/security/security_role_resource.go:459-516 | the issued calls stop at the first failure, state is saved exactly when none failed, and every issued POST adds an error diagnostic |
| SecurityRole.Update | internal/provider/security/security_role_resource.go:459-516 | the corrected update: the same calls, at most one error, and state saved exactly when there is no error |
| SecurityRole.UpdateAsWrittenReportsOnSuccess | internal/provider/security/security_role_resource.go:482-483 | adding one privilege to a role with none succeeds at every call, saves state, and still reports an error |
| SecurityRole.UpdateSucceeds | internal/provider/security/security_role_resource.go:459-516 | when every call succeeds the corrected update issues every step, reports nothing and saves |
| ImportId.ImportSvmScoped | internal/provider/security/security_role_resource.go:546-561 | an ID is accepted exactly when it splits on commas into three non-empty parts, which become name, svm_name and cx_profile_name; the import of the CIFS share, volume, CIFS local user, QoS policy and efficiency policy resources is the same code |
| ImportId.SvmScopedRoundTrip | internal/provider/security/security_role_resource.go:546-561 | joining three non-empty comma-free attributes and importing the result gives back exactly those attributes, for every resource imported this way |
| CifsShare.CreateBody | internal/provider/protocols/protocols_cifs_share_resource.go:442-519 | name, svm.name and path are always sent; the ACL list is sent unless unknown (a null list as an empty one), with one entry per configured ACL; every other attribute is sent exactly when not unknown; nothing else is sent |
| CifsShare.Fixed | internal/provider/protocols/protocols_cifs_share_resource.go:442-473 | the keys set outside the attribute list: name, svm, path and, unless unknown, acls |
| CifsShare.AclList | internal/provider/protocols/protocols_cifs_share_resource.go:455-471 | each configured ACL becomes one entry, in order |
| CifsShare.ConfigHasDefaultAcl | internal/provider/protocols/protocols_cifs_share_resource.go:446-468 | true exactly when some configured ACL is Everyone / full_control |
| CifsShare.Prune | internal/provider/protocols/protocols_cifs_share_resource.go:569-582 | every server ACL is either deleted or kept; only an unconfigured Everyone / full_control entry is deleted; with a configured default nothing is deleted |
| CifsShare.CreateAcls | internal/provider/protocols/protocols_cifs_share_resource.go:553-613 | a nil server list is stored as the empty set; otherwise the unwanted default is deleted and the rest stored, and when nothing is kept the planned value stays |
| CifsShare.PruneCalls | internal/provider/protocols/protocols_cifs_share_resource.go:569-582 | each pruned default ACL costs two calls, in server order: the SVM lookup, then the delete of its user_or_group and type |
| CifsShare.CreateAclsRun | internal/provider/protocols/protocols_cifs_share_resource.go:553-613 | create stores the ACLs exactly when no prune call fails; otherwise the calls stop at the failing one and nothing is stored |
| CifsShare.PruneWithoutDefault | internal/provider/protocols/protocols_cifs_share_resource.go:569-582 | a server list without the default ACL prunes nothing and keeps every entry |
| CifsShare.NoDefaultNoCalls | internal/provider/protocols/protocols_cifs_share_resource.go:568-613 | with no default ACL on the server, create makes no call and stores the ACLs |
| CifsShare.FailedDeleteSavesNothing | internal/provider/protocols/protocols_cifs_share_resource.go:576-580 | a failing delete of the k-th default ACL ends create after its 2k+2 calls, with nothing stored |
| CifsShare.DefaultRemovedUnlessConfigured | internal/provider/protocols/protocols_cifs_share_resource.go:569-582 | an unconfigured default entry returned by the server is deleted and does not reach state unless the plan itself holds it |
| CifsShare.OnlyDefaultKeepsPlan | internal/provider/protocols/protocols_cifs_share_resource.go:568-613 | when the server returns only the unwanted default entry, it is deleted and state keeps the planned ACLs |
| CifsShare.FirstMatch | internal/provider/protocols/protocols_cifs_share_resource.go:765 | finds the first entry with the same user_or_group and type, and none exactly when there is no such entry |
| CifsShare.StateStep | internal/provider/protocols/protocols_cifs_share_resource.go:757-787 | for one state ACL: nothing for an empty plan; otherwise at most one call, an update to the plan permission or a delete when unmatched |
| CifsShare.ScanPlanIsStateStep | internal/provider/protocols/protocols_cifs_share_resource.go:757-787 | the indexed inner loop over plan ACLs does exactly StateStep |
| CifsShare.PlanStep | internal/provider/protocols/protocols_cifs_share_resource.go:799-825 | as written, a plan ACL is created exactly when state is non-empty and has no entry with its user_or_group and type |
| CifsShare.ScanStateIsPlanStep | internal/provider/protocols/protocols_cifs_share_resource.go:799-825 | the indexed inner loop over state ACLs does exactly PlanStep |
| CifsShare.ScanPlan | internal/provider/protocols/protocols_cifs_share_resource.go:757-787 | the inner loop for one state ACL issues at most one call, and never a create |
| CifsShare.ScanState | internal/provider/protocols/protocols_cifs_share_resource.go:799-825 | the inner loop for one plan ACL issues nothing or the create of that plan ACL |
| CifsShare.StateLoop | internal/provider/protocols/protocols_cifs_share_resource.go:757-787 | the loop over state ACLs issues at most one call per state ACL, none of them a create |
| CifsShare.PlanLoop | internal/provider/protocols/protocols_cifs_share_resource.go:799-825 | the loop over plan ACLs as written issues only creates of plan ACLs, at most one per plan ACL |
| CifsShare.AsWrittenNeverCreatesIntoEmptyState | internal/provider/protocols/protocols_cifs_share_resource.go:799-825 | with no ACL in state, the update as written issues no ACL call at all, so planned ACLs are never created |
| CifsShare.PlanStepCorrected | internal/provider/protocols/protocols_cifs_share_resource.go:799-825 | a plan ACL is created exactly when no state ACL has its user_or_group and type, an empty state included |
| CifsShare.PlanLoopCorrected | internal/provider/protocols/protocols_cifs_share_resource.go:799-825 | the corrected loop over plan ACLs also issues only creates of plan ACLs, at most one per plan ACL |
| CifsShare.CreatesExactlyUnmatched | internal/provider/protocols/protocols_cifs_share_resource.go:790-827 | in the corrected update, an ACL is created exactly when it is planned and unmatched in state |
| CifsShare.StateLoopUpdates | internal/provider/protocols/protocols_cifs_share_resource.go:765-777 | a state ACL whose first plan counterpart has another permission gets an update to that permission |
| CifsShare.StateLoopDeletes | internal/provider/protocols/protocols_cifs_share_resource.go:779-786 | a state ACL without counterpart in a non-empty plan is deleted |
| CifsShare.EmptyPlanDeletesNothing | internal/provider/protocols/protocols_cifs_share_resource.go:757-787 | an empty plan ACL list deletes nothing, because the delete sits inside the loop over plan entries |
| CifsShare.AclActionsAsWritten | internal/provider/protocols/protocols_cifs_share_resource.go:757-827 | the ACL calls as written: at most one per state and plan entry, every create after every update and delete |
| CifsShare.AclActions | internal/provider/protocols/protocols_cifs_share_resource.go:757-827 | the corrected ACL calls: the same bound, and the creates again come last |
| CifsShare.FirstMatchSelf | internal/provider/protocols/protocols_cifs_share_resource.go:765 | in a list without two entries for the same user_or_group and type, each entry is its own first match |
| CifsShare.StateLoopQuiet | internal/provider/protocols/protocols_cifs_share_resource.go:757-787 | when every state ACL has a plan match with the same permission, the state loop issues nothing |
| CifsShare.PlanLoopQuiet | internal/provider/protocols/protocols_cifs_share_resource.go:799-825 | when every plan ACL has a state match, the plan loop issues nothing |
| CifsShare.UnchangedNoAcls | internal/provider/protocols/protocols_cifs_share_resource.go:757-827 | planning the state's own ACLs, no two for the same entry, issues no ACL call |
| CifsShare.UpdateBody | internal/provider/protocols/protocols_cifs_share_resource.go:640-726 | each attribute is sent exactly when known in the plan and different from state, with the plan value; nothing else is sent |
| CifsShare.UpdateBodyUnchanged | internal/provider/protocols/protocols_cifs_share_resource.go:640-726 | updating to the current attributes sends an empty body |
| CifsShare.UpdateSendsComment | internal/provider/protocols/protocols_cifs_share_resource.go:647-651 | a comment changed to a known value is sent with that value |
| CifsShare.MapAcls | internal/provider/protocols/protocols_cifs_share_resource.go:734-829 | each ACL call becomes one step, in order |
| CifsShare.UpdateSteps | internal/provider/protocols/protocols_cifs_share_resource.go:733-834 | the share PATCH is always the last step and every earlier step is an ACL call; an unknown plan ACL list issues no ACL call; otherwise the ACL calls are those of the loops as written |
| CifsShare.UpdateStepsCorrected | internal/provider/protocols/protocols_cifs_share_resource.go:733-834 | the same steps with the corrected ACL calls |
| CifsShare.Update | internal/provider/protocols/protocols_cifs_share_resource.go:728-836 | update stores the plan exactly when the SVM lookup, every ACL call and the share PATCH succeed; otherwise the calls stop at the first failure and nothing is stored |
| CifsShare.FailedAclCallSkipsPatch | internal/provider/protocols/protocols_cifs_share_resource.go:728-827 | a failing SVM lookup or ACL call means the share PATCH is never issued and nothing is stored |
| CifsShare.UpdateUnchanged | internal/provider/protocols/protocols_cifs_share_resource.go:728-836 | when no two current ACL entries name the same user or group and type, an update to the current ACLs and attributes issues only an empty share PATCH and no ACL call |
| NfsService.UngatedKeysDistinct | internal/provider/protocols_nfs_service_resource.go:583-677 | the body keys of the ungated fields are pairwise distinct |
| NfsService.GatedKeysDistinct | internal/provider/protocols_nfs_service_resource.go:625-694 | the body keys of the ten gated fields are pairwise distinct |
| NfsService.KeyListsApart | internal/provider/protocols_nfs_service_resource.go:583-695 | no ungated key is a gated one, and neither list holds svm.name |
| NfsService.UngatedWith | internal/provider/protocols_nfs_service_resource.go:583-677 | the sixteen ungated fields carry their body keys, in source order, with distinct keys |
| NfsService.GatedAttrs | internal/provider/protocols_nfs_service_resource.go:625-694 | the ten gated fields carry their body keys, which are also the names reported for them, in source order |
| NfsService.SupportedIsCompareVersions | internal/provider/protocols_nfs_service_resource.go:580-693 | the intended gate "9.11 or later" agrees with CompareVersions(version, "9.10") > 0 and with the numbers of the release |
| NfsService.GateAsWrittenMisorders | internal/provider/protocols_nfs_service_resource.go:580-693 | the string comparison clusterVersion > "9.10" admits 9.8 and 9.11 but refuses 9.10 and 10.0, so it is not the release order |
| NfsService.KeysDisjoint | internal/provider/protocols_nfs_service_resource.go:583-695 | the ungated keys, the gated keys and svm.name never collide |
| NfsService.PutBoth | internal/provider/protocols_nfs_service_resource.go:583-695 | ungated fields are sent whenever set, gated ones whenever set and supported, plus the fixed key; nothing else is sent |
| NfsService.Build | internal/provider/protocols_nfs_service_resource.go:583-701 | every set ungated field is sent; every set gated field is sent when supported and reported by name, in field order, when not; svm.name is always sent; nothing else is |
| NfsService.RequestFor | internal/provider/protocols_nfs_service_resource.go:583-701 | the corrected request sends every set field, a gated one only from 9.11 on, and svm.name; nothing is reported exactly when the release is supported or no gated field is set |
| NfsService.RequestAsWritten | internal/provider/protocols_nfs_service_resource.go:580-701 | the request as written gates on the text comparison with "9.10" and sends the read-delegation value as write delegation; nothing is reported exactly when that gate passes or no gated field is set |
| NfsService.NothingReportedIff | internal/provider/protocols_nfs_service_resource.go:697-701 | nothing is reported exactly when the cluster supports the gated fields or none of them is set |
| NfsService.SupportedSendsAllSet | internal/provider/protocols_nfs_service_resource.go:625-694 | on a supported cluster every set gated field is sent like the others |
| NfsService.AllGatedReported | internal/provider/protocols_nfs_service_resource.go:625-694 | on an older cluster with every gated field set, all ten names are reported, in the order root, security, transport, windows |
| NfsService.WriteFlagSentWith | internal/provider/protocols_nfs_service_resource.go:603-605 | with write delegation set, the v4.0 write-delegation flag is sent carrying the value chosen for it |
| NfsService.WriteDelegationSent | internal/provider/protocols_nfs_service_resource.go:603-784 | the corrected request sends the configured v4.0 write-delegation value; the request as written sends the read-delegation value in its place |
| NfsService.WriteDelegationCounterexample | internal/provider/protocols_nfs_service_resource.go:603-784 | with read delegation on and write delegation off, the request as written turns write delegation on |
| NfsService.Create | internal/provider/protocols_nfs_service_resource.go:571-716 | create as written, with the text-compared version gates: a missing cluster is an error; a non-empty unsupported list stops create with no call and no state; a missing SVM is an error; otherwise the body is submitted and the ID is the SVM name |
| NfsService.Update | internal/provider/protocols_nfs_service_resource.go:741-888 | update as written: the SVM is looked up before the cluster; then the same decisions and body as create as written |
| NfsService.CreateCorrected | internal/provider/protocols_nfs_service_resource.go:571-716 | the corrected create: the same decisions with the version gates compared numerically |
| NfsService.UpdateCorrected | internal/provider/protocols_nfs_service_resource.go:741-888 | the corrected update: the same decisions with the version gates compared numerically |
| NfsService.AsWrittenReportsGated | internal/provider/protocols_nfs_service_resource.go:580-701 | on a release the text gate refuses, a set gated field stops create as written and is among the fields it reports |
| NfsService.CorrectedSendsGated | internal/provider/protocols_nfs_service_resource.go:580-701 | on a release the numeric gate admits, a set gated field is submitted by the corrected create |
| NfsService.CreateDivergesWhereGatesDiffer | internal/provider/protocols_nfs_service_resource.go:580-701 | on a cluster the numeric gate accepts and the text gate refuses, a set gated field stops create as written and is sent by the corrected create |
| NfsService.CreateRefusedOnTen | internal/provider/protocols_nfs_service_resource.go:580-701 | on ONTAP 10.0 create as written refuses every set gated field, which the corrected create sends |
| NfsService.CreateUpdateAgree | internal/provider/protocols_nfs_service_resource.go:583-880 | create and update send the same body and keep the same ID once both get that far |
| NfsService.SubmitHasNoUnsupportedField | internal/provider/protocols_nfs_service_resource.go:697-701 | a submitted request on an unsupported cluster carries no gated field |
| NfsService.ReadId | internal/provider/protocols_nfs_service_resource.go:542 | the ID read back is the SVM name of the record |
| NfsService.IdStable | internal/provider/protocols_nfs_service_resource.go:542 | the ID saved by create is the one a later read derives |
| CifsGates.CreateSupported | internal/provider/protocols_cifs_service_resource.go:580-654 | one gate per gated security field, in the order create checks them |
| CifsGates.CreateGatesNumeric | internal/provider/protocols_cifs_service_resource.go:580-654 | kdc_encryption passes up to 9.12, lm_compatibility_level from 9.8, aes_netlogon_enabled from 9.10, advertised_kdc_encryptions from 9.12, all in release order |
| CifsGates.CmpNumeric | internal/provider/protocols_cifs_service_resource.go:527-645 | CompareVersions on two formatted releases is at least (at most) zero exactly when the first release is at least (at most) the second |
| CifsGates.GatesNumeric | internal/provider/protocols_cifs_service_resource.go:580-654 | given comparisons that agree with the release numbers, the gates for kdc_encryption, lm_compatibility_level, aes_netlogon_enabled and advertised_kdc_encryptions follow those numbers |
| CifsGates.UpdateSupportedAsWritten | internal/provider/protocols_cifs_service_resource.go:850-888 | update as written gates kdc_encryption on "below 9.12" and every other field as create does |
| CifsGates.UpdateKdcGateNumeric | internal/provider/protocols_cifs_service_resource.go:850 | update as written passes kdc_encryption exactly on releases below 9.12 |
| CifsGates.KdcGateDiffersAt912 | internal/provider/protocols_cifs_service_resource.go:580-850 | on 9.12 create accepts kdc_encryption and the corrected update sends it, while update as written drops it |
| CifsGates.UpdateGatesAsWritten | internal/provider/protocols_cifs_service_resource.go:580-850 | the update gates as written differ from create's on exactly one release, 9.12 |
| CifsService.GatedSecurity | internal/provider/protocols_cifs_service_resource.go:580-654 | the ten gated security fields with their body keys, which are the names reported for them, pairwise distinct |
| CifsService.AdDomainCreate | internal/provider/protocols_cifs_service_resource.go:529-536 | fqdn, user and password are always sent; organizational_unit unless null |
| CifsService.NetbiosCreate | internal/provider/protocols_cifs_service_resource.go:548-568 | enabled is always sent; aliases and wins_servers unless null; wins_servers carries the quoted texts of its elements when create quotes them, as the code does, and the plain values otherwise |
| CifsService.SecurityCreate | internal/provider/protocols_cifs_service_resource.go:570-655 | restrict_anonymous, smb_signing and smb_encryption are always sent; a set gated field is sent when its gate passes and reported by name otherwise; advertised_kdc_encryptions is quoted exactly as wins_servers is |
| CifsService.CreateAttrs | internal/provider/protocols_cifs_service_resource.go:510-570 | the eight top-level create fields have distinct keys |
| CifsService.Create | internal/provider/protocols_cifs_service_resource.go:518-667 | create as written, with quoted list elements: a missing cluster is an error; a null netbios or security block fails the conversion; reported fields stop create with nothing created; otherwise the body is submitted and the ID is cx_profile_name_svm_name_name |
| CifsService.CreateCorrected | internal/provider/protocols_cifs_service_resource.go:518-667 | the corrected create: the same decisions, sending the plain element values |
| CifsService.QuoteAll | internal/provider/protocols_cifs_service_resource.go:561-566 | each element is replaced by its quoted text, in order |
| CifsService.Elements | internal/provider/protocols_cifs_service_resource.go:561-566 | a null or unknown list stays null or unknown; a known list gives its elements, quoted when asked |
| CifsService.WinsServersQuotedOnCreate | internal/provider/protocols_cifs_service_resource.go:561-566 | a non-empty wins_servers list is sent by create as written as the quoted texts, which differ from the values update sends |
| CifsService.WinsServersCorrected | internal/provider/protocols_cifs_service_resource.go:561-566 | the corrected create sends the same wins_servers elements as update, the plain values |
| CifsService.KdcEncryptionsQuotedOnCreate | internal/provider/protocols_cifs_service_resource.go:644-650 | on a supported cluster a non-empty advertised_kdc_encryptions list is sent by create as written as the quoted texts, which differ from the values update sends |
| CifsService.KdcEncryptionsCorrected | internal/provider/protocols_cifs_service_resource.go:644-650 | the corrected create and update send the same advertised_kdc_encryptions, the plain values |
| CifsService.KdcEncryptionsInCreate | internal/provider/protocols_cifs_service_resource.go:644-650 | on a supported cluster create sends a known advertised_kdc_encryptions list, quoted or plain as chosen |
| CifsService.KdcEncryptionsInUpdate | internal/provider/protocols_cifs_service_resource.go:886-889 | on a supported cluster update sends a known advertised_kdc_encryptions list as its plain values |
| CifsService.CreateBody | internal/provider/protocols_cifs_service_resource.go:510-655 | every top-level create field is sent unless null, and no other key is |
| CifsService.CreateSendsOnlySupported | internal/provider/protocols_cifs_service_resource.go:580-654 | a gated field whose gate fails never reaches the create body |
| CifsService.PlainNeverUnsupported | internal/provider/protocols_cifs_service_resource.go:577-654 | the report is non-empty exactly when some set gated field fails its gate; ungated fields are never reported |
| CifsService.CreateRefusedIff | internal/provider/protocols_cifs_service_resource.go:657-661 | create sends nothing exactly when some set gated security field is not supported by the release |
| CifsService.FqdnAfterCreate | internal/provider/protocols_cifs_service_resource.go:680-689 | the planned fqdn is kept when the server's matches it ignoring case; otherwise the fqdn becomes null |
| CifsService.StringSliceToSet | internal/provider/protocols_cifs_service_resource.go:374-387 | the set holds every element, lowered when asked, in the same positions |
| CifsService.StringSliceToSetStable | internal/provider/protocols_cifs_service_resource.go:374-387 | lowering twice equals lowering once; without lowering the elements are unchanged |
| CifsService.Read | internal/provider/protocols_cifs_service_resource.go:416-486 | name and fqdn are read lowered; the comment only when non-empty; user and password come from prior state; the ID is rebuilt from the lowered name |
| CifsService.ReadIdempotent | internal/provider/protocols_cifs_service_resource.go:416-486 | reading the same record twice gives the state of one read |
| CifsService.IdAfterRead | internal/provider/protocols_cifs_service_resource.go:486 | the ID saved by create survives a read exactly when the planned name is already lower case |
| CifsService.Differs | internal/provider/protocols_cifs_service_resource.go:791-816 | a field is flagged exactly when plan and state differ, unknown counting as a value |
| CifsService.AdDomainUpdate | internal/provider/protocols_cifs_service_resource.go:797-809 | each ad_domain field is sent exactly when it differs from state |
| CifsService.NetbiosUpdate | internal/provider/protocols_cifs_service_resource.go:826-838 | each netbios field is sent unless unknown |
| CifsService.SecurityUpdate | internal/provider/protocols_cifs_service_resource.go:850-889 | a security field is sent when not unknown and, for a gated one, when its gate passes |
| CifsService.UpdateFlags | internal/provider/protocols_cifs_service_resource.go:791-843 | name, comment and default_unix_user are sent when changed; enabled and ad_domain always; netbios and security when known and changed |
| CifsService.UpdateSends | internal/provider/protocols_cifs_service_resource.go:791-889 | the update body holds exactly the flagged top-level fields |
| CifsService.UpdateBody | internal/provider/protocols_cifs_service_resource.go:791-889 | the update body holds exactly the flagged top-level fields, each encoded from the plan, and no other key |
| CifsService.UpdateWith | internal/provider/protocols_cifs_service_resource.go:818-848 | update fails exactly when a changed netbios or security block is null in the plan; otherwise it sends the update body |
| CifsService.SecurityInUpdate | internal/provider/protocols_cifs_service_resource.go:842-852 | the security block is in the update body exactly when it is known and changed in the plan; it then holds the gated security fields, with kdc_encryption exactly when that is not unknown and its gate passes |
| CifsService.Update | internal/provider/protocols_cifs_service_resource.go:791-889 | update as written fails exactly when a changed netbios or security block is null in the plan; a sent security block carries kdc_encryption exactly when it is not unknown and the cluster is below 9.12 |
| CifsService.UpdateCorrected | internal/provider/protocols_cifs_service_resource.go:791-889 | the corrected update fails on the same inputs; a sent security block carries kdc_encryption exactly when it is not unknown and the cluster is at most 9.12, as create accepts it |
| CifsService.KdcInUpdate | internal/provider/protocols_cifs_service_resource.go:850-852 | kdc_encryption is in the update's security part exactly when it is not unknown and its gate passes |
| CifsService.KdcDroppedOn912 | internal/provider/protocols_cifs_service_resource.go:850-852 | on 9.12 a set kdc_encryption is dropped by update as written and sent by the corrected update |
| CifsService.UpdateUnchanged | internal/provider/protocols_cifs_service_resource.go:791-843 | planning the state itself sends only enabled and an empty ad_domain, on any release |
| CifsService.Import | internal/provider/protocols_cifs_service_resource.go:945-957 | an ID is accepted exactly when it splits on commas into five non-empty parts, which become name, svm_name, cx_profile_name, user and password |
| CifsService.ImportRoundTrip | internal/provider/protocols_cifs_service_resource.go:945-957 | joining five non-empty comma-free fields and importing the result gives them back |
| StorageVolume.ModifyPlan | internal/provider/storage/storage_volume_resource.go:344-361 | a plan is refused exactly when the prior state or the plan has state "offline" |
| StorageVolume.NasBody | internal/provider/storage/storage_volume_resource.go:606-632 | each nas field is sent unless unknown, under distinct keys |
| StorageVolume.EfficiencyBody | internal/provider/storage/storage_volume_resource.go:665-678 | the efficiency policy and compression are sent unless unknown |
| StorageVolume.TieringBody | internal/provider/storage/storage_volume_resource.go:680-693 | the tiering policy and minimum cooling days are sent unless unknown |
| StorageVolume.SpaceFlags | internal/provider/storage/storage_volume_resource.go:645-663 | size is always sent; the snapshot reserve unless unknown; the logical-space fields only when that block is not unknown |
| StorageVolume.SpaceBody | internal/provider/storage/storage_volume_resource.go:645-663 | the space part holds the size in bytes and exactly the flagged space fields |
| StorageVolume.SpacePart | internal/provider/storage/storage_volume_resource.go:640-645 | with a known space block and a unit in the table, the size sent is size × POW2BYTEMAP[size_unit] |
| StorageVolume.CreateKeysDistinct | internal/provider/storage/storage_volume_resource.go:565-712 | the seventeen create keys are pairwise distinct |
| StorageVolume.BlockAttrs | internal/provider/storage/storage_volume_resource.go:606-712 | the six nested blocks carry the keys nas, space, efficiency, tiering_policy, snaplock and analytics |
| StorageVolume.Aggregates | internal/provider/storage/storage_volume_resource.go:565-570 | each planned aggregate becomes one {"name": ...} entry, in order |
| StorageVolume.TopCreateAttrs | internal/provider/storage/storage_volume_resource.go:577-604 | name, svm.name and aggregates are always set; the other top-level fields carry their keys in source order |
| StorageVolume.CreateAttrs | internal/provider/storage/storage_volume_resource.go:565-712 | the create fields are the top-level ones followed by the nested blocks, with distinct keys |
| StorageVolume.CreateFlags | internal/provider/storage/storage_volume_resource.go:581-712 | top-level fields are sent unless unknown; space always; any other block when known |
| StorageVolume.CreateBody | internal/provider/storage/storage_volume_resource.go:565-712 | the create body holds exactly the flagged create fields, each with its value |
| StorageVolume.CreateWith | internal/provider/storage/storage_volume_resource.go:606-712 | a null nas or a space block that is not known fails first; then an unknown unit is reported; then a null logical-space or other block fails; otherwise the body is submitted |
| StorageVolume.Create | internal/provider/storage/storage_volume_resource.go:565-712 | create as written is submitted exactly when the blocks convert and the size unit is in the table; state is sent exactly when it is not unknown, carrying the planned type |
| StorageVolume.CreateCorrected | internal/provider/storage/storage_volume_resource.go:565-712 | the corrected create is submitted in the same cases; state is sent when not unknown, carrying the planned state |
| StorageVolume.CreateStateField | internal/provider/storage/storage_volume_resource.go:581-583 | state is sent exactly when the planned state is not unknown, carrying the chosen source's value |
| StorageVolume.StateFromType | internal/provider/storage/storage_volume_resource.go:581-583 | with a planned state different from the type, create as written sends the type as the state; the corrected create sends the state |
| StorageVolume.CreateSize | internal/provider/storage/storage_volume_resource.go:634-645 | a submitted create asks for size × POW2BYTEMAP[size_unit] bytes |
| StorageVolume.StoredSpace | internal/provider/storage/storage_volume_resource.go:744-766 | the stored space block holds the reported bytes divided by the unit's multiplier, the unit, the reserve and both logical-space flags; none when the block or its unit is missing |
| StorageVolume.SizeRoundTrip | internal/provider/storage/storage_volume_resource.go:645-758 | when the server reports the bytes create asked for, the stored size equals the planned one |
| StorageVolume.TopUpdateAttrs | internal/provider/storage/storage_volume_resource.go:876-916 | the eight top-level update fields, state first, with distinct keys |
| StorageVolume.TopUpdateFlags | internal/provider/storage/storage_volume_resource.go:876-916 | state is sent when not unknown and the type changed; every other top-level field when not unknown and changed |
| StorageVolume.UpdateAttrs | internal/provider/storage/storage_volume_resource.go:876-1036 | the update fields are the top-level ones followed by the nested blocks, with distinct keys |
| StorageVolume.UpdateFlags | internal/provider/storage/storage_volume_resource.go:918-1036 | each nested block is sent when known in the plan and different from state |
| StorageVolume.UpdateBody | internal/provider/storage/storage_volume_resource.go:876-1036 | the update body holds exactly the flagged update fields, each with its value |
| StorageVolume.Update | internal/provider/storage/storage_volume_resource.go:918-1036 | a changed null nas or a null space fails; then an unknown unit is reported even when space is unchanged; then a changed null block fails; otherwise the changed-field body is submitted |
| StorageVolume.UpdateStateField | internal/provider/storage/storage_volume_resource.go:876-880 | state is sent exactly when it is not unknown and the planned type differs from the state's, whatever the states themselves |
| StorageVolume.UpdateSpaceField | internal/provider/storage/storage_volume_resource.go:948-978 | space is sent exactly when known and changed, carrying size × POW2BYTEMAP[size_unit] bytes |
| StorageVolume.UpdateUnchanged | internal/provider/storage/storage_volume_resource.go:876-1036 | planning the state itself sends an empty body, once space converts and its unit is in the table |
| StorageVolume.UnchangedFlags | internal/provider/storage/storage_volume_resource.go:876-1036 | a plan equal to the state flags no field |
| StorageVolume.UnchangedBody | internal/provider/storage/storage_volume_resource.go:876-1036 | a plan equal to the state gives an empty update body, whatever the unit table |
| StorageAggregate.PrimaryBody | internal/interfaces/storage_aggregate.go:61-66 | the encoded primary block holds exactly its non-zero fields, with their values |
| StorageAggregate.BlockStorage | internal/provider/storage_aggregate_resource.go:259-274 | primary is sent when some primary field is non-zero; mirror with its enabled flag when is_mirrored is set; nothing else |
| StorageAggregate.Encode | internal/interfaces/storage_aggregate.go:51-150 | each omitempty field is in the body exactly when it is not Go's zero value; an all-zero request encodes to an empty body |
| StorageAggregate.EncodeBlocks | internal/interfaces/storage_aggregate.go:54-150 | node, block_storage and data_encryption are sent exactly when set, with their contents |
| StorageAggregate.DiskSizeQuery | internal/interfaces/storage_aggregate.go:155-181 | the disk_size query parameter is sent exactly for a positive size |
| StorageAggregate.DiskSizeQueryRoundTrip | internal/interfaces/storage_aggregate.go:155-157 | a positive size within int64 is sent as decimal text that parses back to it |
| StorageAggregate.DiskSize | internal/provider/storage_aggregate_resource.go:230-233 | the size in bytes is size × POW2BYTEMAP[unit] when both are set; zero when either is null or the unit is missing from the table |
| StorageAggregate.CreateRequest | internal/provider/storage_aggregate_resource.go:217-273 | the name always and never a state; node, snaplock type, encryption and the mirror flag when configured, with their values; the primary block exactly when one of its fields is set |
| StorageAggregate.Create | internal/provider/storage_aggregate_resource.go:230-281 | create is refused before any call exactly when a state is configured; otherwise it sends the encoded request and the byte size |
| StorageAggregate.UnknownUnitDropsSize | internal/provider/storage_aggregate_resource.go:231-232 | a disk size in a unit missing from the table is silently dropped: create proceeds without disk_size |
| StorageAggregate.CreateChecked | internal/provider/storage_aggregate_resource.go:230-281 | the corrected create also refuses a unit missing from the table and otherwise sends the same body |
| StorageAggregate.CreateCheckedSendsSize | internal/provider/storage_aggregate_resource.go:230-233 | with the check, a configured positive size always reaches the query, as size × multiplier bytes |
| StorageAggregate.CreateSendsNoState | internal/provider/storage_aggregate_resource.go:275-280 | a create that goes ahead never sends a state |
| StorageAggregate.CreatePrimaryBlock | internal/provider/storage_aggregate_resource.go:246-265 | the primary block is sent exactly when disk class, disk count, raid size or raid type is non-zero |
| StorageAggregate.CreateMirrorBlock | internal/provider/storage_aggregate_resource.go:267-274 | the mirror block is sent exactly when is_mirrored is set, carrying its value |
| StorageAggregate.AwaitOnline | internal/provider/storage_aggregate_resource.go:286-295 | the wait ends online only on a record that is not onlining, and at once when the create reply is already settled |
| StorageAggregate.AwaitOnlineFirstSettled | internal/provider/storage_aggregate_resource.go:289-295 | when every earlier fetch succeeded and was onlining, the wait ends on the first settled record |
| StorageAggregate.AwaitOnlineSettles | internal/provider/storage_aggregate_resource.go:289-295 | a wait that ends online ended on the first settled record of the trace |
| StorageAggregate.UpdateRequest | internal/provider/storage_aggregate_resource.go:371-401 | name, state and encryption carry the plan's value exactly when changed; node, snaplock type and mirror are never sent; no primary block when raid type, disk count and raid size are unchanged |
| StorageAggregate.Update | internal/provider/storage_aggregate_resource.go:373-413 | update is refused exactly when disk size or unit changes while the disk count does not; otherwise it sends the changed fields and no disk_size |
| StorageAggregate.UpdateOnlyChanged | internal/provider/storage_aggregate_resource.go:374-399 | name, state and encryption are sent only when changed, with the plan's value; node and snaplock_type never; block_storage only for a changed primary field |
| StorageAggregate.UpdateUnchanged | internal/provider/storage_aggregate_resource.go:373-413 | planning the state itself sends an empty body and no disk size |
| StorageQuotaRules.LookupQuery | internal/interfaces/storage_quota_rules.go:72-76 | the lookup filters on exactly volume.name, type, qtree.name and svm.name, with the given values, plus the fields list |
| StorageQuotaRules.RuleQuery | internal/interfaces/storage_quota_rules.go:72-76 | the four filters carry their arguments and nothing else is set but fields |
| StorageQuotaRules.Lookup | internal/interfaces/storage_quota_rules.go:77-83 | the lookup yields a rule exactly when the call succeeded with one record, and then that record; no record is an error |
| StorageQuotaRules.PruneForType | internal/interfaces/storage_quota_rules.go:156-163 | a user rule loses group, a group rule loses users, a tree rule loses both; every other key is kept with its value |
| StorageQuotaRules.PruneForTypeIdempotent | internal/interfaces/storage_quota_rules.go:156-163 | pruning keeps the type, so pruning twice equals pruning once |
| StorageQuotaRules.PruneOtherTypeUnchanged | internal/interfaces/storage_quota_rules.go:156-163 | a rule of any other type is sent exactly as encoded |
| StorageQuotaRules.PruneForUpdate | internal/interfaces/storage_quota_rules.go:196-198 | update never sends users, group or qtree and keeps every other key with its value |
| Svm.IfSet | internal/provider/svm/svm_resource.go:153-175 | a null field stays Go's empty string; a known one is copied |
| Svm.CreateRequest | internal/provider/svm/svm_resource.go:151-192 | the name and aggregates are always copied; every other field is copied when configured and left unset when null |
| Svm.Create | internal/provider/svm/svm_resource.go:153-207 | create is refused exactly when a set max_volumes fails validation; otherwise it asks for an empty comment exactly when none is configured and an empty aggregate list exactly when none is planned |
| Svm.CreateCopiesKnown | internal/provider/svm/svm_resource.go:157-169 | a configured comment and snapshot policy reach the request unchanged, and no empty comment is asked for |
| Svm.UpdateError | internal/provider/svm/svm_resource.go:316-366 | update is refused exactly when name, snapshot policy, language or max_volumes changes to "", the subtype changes, or a changed max_volumes fails validation |
| Svm.UpdateRequest | internal/provider/svm/svm_resource.go:315-381 | ipspace and subtype are never sent and the aggregate list always is; every other field carries the plan's value exactly when it changed |
| Svm.Update | internal/provider/svm/svm_resource.go:316-388 | a refused update sends nothing; otherwise the changed fields, an empty comment exactly when the comment changed to "", and an empty aggregate list exactly when the plan has none and the state had some |
| Svm.UpdateClearsComment | internal/provider/svm/svm_resource.go:341-346 | changing the comment to "" is accepted and sent as an explicit empty comment |
| Svm.UpdateSubTypeRefused | internal/provider/svm/svm_resource.go:336-339 | a changed subtype is refused whatever else the plan says |
| Svm.UpdateUnchanged | internal/provider/svm/svm_resource.go:316-388 | planning the state itself sends only the aggregate list and neither flag |
| ImportId.ImportNamed | internal/provider/svm/svm_resource.go:429-441 | an ID is accepted exactly when it splits on commas into two non-empty parts, which become name and cx_profile_name; the import of the cluster schedule and cluster resources is the same code |
| ImportId.NamedRoundTrip | internal/provider/svm/svm_resource.go:429-441 | joining a non-empty comma-free name and profile and importing the result gives them back, for every resource imported this way |
| CifsLocalUser.Encode | internal/interfaces/protocols_cifs_local_user.go:35-42 | the string fields are sent exactly when non-empty; account_disabled, having no omitempty, is always sent |
| CifsLocalUser.CreateRequest | internal/provider/protocols_cifs_local_user_resource.go:250-261 | name and password are always copied; description, full name and the account flag when set |
| Tf.IfChanged | internal/provider/protocols_cifs_local_user_resource.go:321-333 | an update field carries the plan's value when it changed and Go's empty string otherwise |
| CifsLocalUser.UpdateBodyAsWritten | internal/provider/protocols_cifs_local_user_resource.go:321-336 | the update as written always sends account_disabled, as false when it did not change |
| CifsLocalUser.UpdateRequest | internal/provider/protocols_cifs_local_user_resource.go:321-336 | each field carries the plan's value exactly when it changed; account_disabled is true only when it changed to true |
| CifsLocalUser.UpdateEnablesDisabledUser | internal/provider/protocols_cifs_local_user_resource.go:328-336 | changing only the description of a disabled user sends account_disabled false, which enables the account |
| CifsLocalUser.UpdateBody | internal/provider/protocols_cifs_local_user_resource.go:321-336 | the corrected update sends a field only when it changed, account_disabled exactly when it changed, each with the plan's value |
| CifsLocalUser.UpdateUnchanged | internal/provider/protocols_cifs_local_user_resource.go:321-336 | planning the state itself sends an empty body |
| CifsLocalUser.UpdateSendsChanged | internal/provider/protocols_cifs_local_user_resource.go:328-333 | a description or full name changed to a non-empty value is sent |
| CifsLocalUser.ReadName | internal/provider/protocols_cifs_local_user_resource.go:207-217 | a server name without a backslash is an error; a configured plain name keeps the part after the first backslash; a configured qualified name keeps the server's whole name |
| CifsLocalUser.ReadNamePlain | internal/provider/protocols_cifs_local_user_resource.go:212-214 | a plain user name configured for DOMAIN\user reads back as the same plain name |
| CifsLocalUser.ReadNameQualified | internal/provider/protocols_cifs_local_user_resource.go:212-217 | a qualified configured name reads back as the server's qualified name |
| CifsLocalUser.Read | internal/provider/protocols_cifs_local_user_resource.go:186-225 | a server name without a backslash fails; otherwise the name is stored as the server's `DOMAIN\name` when the configured one is qualified and as its user part when not; the ID becomes the SID only when null; full name and description are refreshed only by non-empty server values; the account flag always; the password is kept |
| CifsLocalUser.ReadIdempotent | internal/provider/protocols_cifs_local_user_resource.go:186-225 | reading the same record twice gives what reading once does |
| SecurityLoginMessage.Read | internal/provider/security/security_login_message_resource.go:148-155 | message and banner are read without one trailing newline; the flag, scope and UUID come from the record; profile and SVM are kept |
| SecurityLoginMessage.ReadTrimsAppendedNewline | internal/provider/security/security_login_message_resource.go:147-151 | a text stored with the newline the server appends reads back as configured |
| SecurityLoginMessage.ReadTrimsOnce | internal/provider/security/security_login_message_resource.go:148-149 | text without a trailing newline is kept whole, and only one of two trailing newlines is removed |
| SecurityLoginMessage.Update | internal/provider/security/security_login_message_resource.go:210-218 | update is refused exactly when the cluster message is shown but empty; otherwise it sends the plan's banner, message and flag |
| SecurityLoginMessage.AfterUpdate | internal/provider/security/security_login_message_resource.go:229-230 | after update the state is the plan with only the flag and scope taken from the server |
| SecurityLoginMessage.ReadAfterUpdate | internal/provider/security/security_login_message_resource.go:148-230 | after update, reading a record whose trimmed message and banner the plan holds changes nothing |
| SecurityLoginMessage.NotSupported | internal/provider/security/security_login_message_resource.go:166-255 | create and delete always fail, with "Create Not Supported" and "Delete Not Supported" |
| SecurityLoginMessage.Import | internal/provider/security/security_login_message_resource.go:257-277 | a one-part ID sets the profile; a two-part ID sets SVM and profile; any other count is refused; empty parts are not refused |
| SecurityLoginMessage.ImportRoundTrip | internal/provider/security/security_login_message_resource.go:257-277 | the identifier composed from comma-free names imports the same attributes back |
| NfsExportPolicyRule.PlanModifyInt64 | internal/provider/protocols/protocols_nfs_export_policy_rule_resource.go:208-225 | an unknown plan takes the state's value, except with no state or an unknown configuration; a known plan is kept |
| NfsExportPolicyRule.PlanModifyIdempotent | internal/provider/protocols/protocols_nfs_export_policy_rule_resource.go:208-225 | applying the modifier to its own result changes nothing |
| NfsExportPolicyRule.PlanModifyKeepsIndex | internal/provider/protocols/protocols_nfs_export_policy_rule_resource.go:208-225 | a known index in state survives an unknown plan, and a known plan is never replaced |
| NfsExportPolicyRule.Matches | internal/provider/protocols/protocols_nfs_export_policy_rule_resource.go:274-276 | each client becomes one {"match": client} object, in order |
| NfsExportPolicyRule.MatchNames | internal/provider/protocols/protocols_nfs_export_policy_rule_resource.go:393-396 | one client name is read back per client object |
| NfsExportPolicyRule.MatchNamesRoundTrip | internal/provider/protocols/protocols_nfs_export_policy_rule_resource.go:274-396 | the clients read back are the clients sent, in the same order |
| NfsExportPolicyRule.EncodeLists | internal/interfaces/protocols_nfs_export_policy_rule.go:16-21 | clients, protocols and superuser are sent only when non-empty; ro_rule and rw_rule always, as null when empty |
| NfsExportPolicyRule.EncodeScalars | internal/interfaces/protocols_nfs_export_policy_rule.go:20-25 | anonymous_user, ntfs_unix_security and chown_mode are sent only when non-empty; allow_device_creation and allow_suid only when true |
| NfsExportPolicyRule.ListsOmitScalars | internal/interfaces/protocols_nfs_export_policy_rule.go:16-25 | the list part of the encoding holds no scalar key |
| NfsExportPolicyRule.ScalarsOmitLists | internal/interfaces/protocols_nfs_export_policy_rule.go:16-25 | the scalar part of the encoding holds no list key |
| NfsExportPolicyRule.Encode | internal/interfaces/protocols_nfs_export_policy_rule.go:15-26 | the body always holds ro_rule and rw_rule, never index, only keys of the request struct, and every key of the list and scalar parts with its value |
| NfsExportPolicyRule.CreateRequest | internal/provider/protocols/protocols_nfs_export_policy_rule_resource.go:268-301 | create copies every list in order and each optional scalar when not null, Go's zero value otherwise; a flag is true only when configured true |
| NfsExportPolicyRule.UpdateRequest | internal/provider/protocols/protocols_nfs_export_policy_rule_resource.go:441-476 | update copies every list in order and each optional scalar when not null, Go's zero value otherwise |
| NfsExportPolicyRule.CreateUpdateSameBody | internal/provider/protocols/protocols_nfs_export_policy_rule_resource.go:268-478 | create, which assigns protocols and superuser only when non-empty, and update, which always assigns them, send the same body |
| NfsExportPolicyRule.CreateBody | internal/provider/protocols/protocols_nfs_export_policy_rule_resource.go:268-301 | the configured clients, rule lists and protocols are sent in order; a null anonymous user is not sent; a non-empty chown mode is |
| NfsExportPolicyRule.AllowSuidFalseDropped | internal/provider/protocols/protocols_nfs_export_policy_rule_resource.go:293-295 | a rule configured with allow_suid false sends no allow_suid on create or update, leaving the server's default |
| NfsExportPolicyRule.CorrectedBody | internal/provider/protocols/protocols_nfs_export_policy_rule_resource.go:290-295 | the corrected body sends allow_suid and allow_device_creation exactly when configured, false included, and every other key as encoded |
| NfsExportPolicyRule.CorrectedSendsFalse | internal/provider/protocols/protocols_nfs_export_policy_rule_resource.go:293-295 | with the correction, allow_suid false reaches the server |
| NfsExportPolicyRule.Read | internal/provider/protocols/protocols_nfs_export_policy_rule_resource.go:332-404 | a failed policy lookup or a missing rule ends read without state; otherwise a null export_policy_id is filled with the looked-up policy's ID and a stored one kept, every list and optional scalar is replaced by the server's, and the ID is rebuilt from profile, SVM, policy and index |
| NfsExportPolicyRule.ResolvePolicyId | internal/provider/protocols/protocols_nfs_export_policy_rule_resource.go:350-361 | the stored export_policy_id is used when set; a null one is the decimal text of the looked-up policy's ID, and a failed lookup resolves to nothing |
| NfsExportPolicyRule.AfterCreate | internal/provider/protocols/protocols_nfs_export_policy_rule_resource.go:322-324 | create stores the returned index, the looked-up policy's ID as export_policy_id and the ID built from them, and nothing else changes |
| NfsExportPolicyRule.ReadAfterCreateKeepsPolicy | internal/provider/protocols/protocols_nfs_export_policy_rule_resource.go:322-361 | after create, read needs no lookup: it addresses the policy create used and keeps the stored ID |
| NfsExportPolicyRule.ReadAfterImportFillsPolicy | internal/provider/protocols/protocols_nfs_export_policy_rule_resource.go:350-361 | after an import the first read stores the looked-up policy's ID, the one create would have stored, and every later read resolves to it without a lookup |
| NfsExportPolicyRule.ReadAfterImportLookupFails | internal/provider/protocols/protocols_nfs_export_policy_rule_resource.go:354-357 | after an import a failed policy lookup ends read without state |
| NfsExportPolicyRule.ReadAfterCreate | internal/provider/protocols/protocols_nfs_export_policy_rule_resource.go:274-396 | a rule read back after create from what was sent keeps its rule lists and clients |
| NfsExportPolicyRule.IdParts | internal/provider/protocols/protocols_nfs_export_policy_rule_resource.go:324-391 | splitting the ID at underscores recovers its four parts when the names hold none, and the index parses back |
| NfsExportPolicyRule.Id | internal/provider/protocols/protocols_nfs_export_policy_rule_resource.go:324 | the ID opens with the profile name and an underscore and closes with the decimal index, its length the parts' plus three separators |
| NfsExportPolicyRule.Import | internal/provider/protocols/protocols_nfs_export_policy_rule_resource.go:532-546 | an ID is accepted exactly when it splits on commas into four non-empty parts; the index is the first part's Atoi value, its error ignored |
| NfsExportPolicyRule.ImportMalformedIndex | internal/provider/protocols/protocols_nfs_export_policy_rule_resource.go:542 | a first part that is not a number silently imports index 0 |
| NfsExportPolicyRule.ImportOverflowingIndex | internal/provider/protocols/protocols_nfs_export_policy_rule_resource.go:542 | an import ID whose index is a run of digits past 64 unsigned bits is accepted with the largest 64-bit index: the parse error is ignored |
| NfsExportPolicyRule.ImportRoundTrip | internal/provider/protocols/protocols_nfs_export_policy_rule_resource.go:532-546 | the identifier composed from a rule's index and names imports that rule |
| NfsExportPolicyRuleLegacy.StrIfSet | internal/provider/protocols_nfs_export_policy_rule_resource.go:229-243 | an optional string is assigned exactly when not null, with its value |
| NfsExportPolicyRuleLegacy.BoolIfSet | internal/provider/protocols_nfs_export_policy_rule_resource.go:232-237 | an optional flag is assigned exactly when not null, false included |
| NfsExportPolicyRuleLegacy.BuildRequest | internal/provider/protocols_nfs_export_policy_rule_resource.go:220-243 | create and update assign every list in order and each optional scalar exactly when not null |
| NfsExportPolicyRuleLegacy.ClientsRoundTrip | internal/provider/protocols_nfs_export_policy_rule_resource.go:220-301 | the clients sent are recovered in order from their match objects |
| NfsExportPolicyRuleLegacy.Refresh | internal/provider/protocols_nfs_export_policy_rule_resource.go:303-319 | an optional field is refreshed from the server only when the prior state set it |
| NfsExportPolicyRuleLegacy.Read | internal/provider/protocols_nfs_export_policy_rule_resource.go:279-319 | the lists are always replaced by the server's; each of allow_device_creation, allow_suid, chown_mode, ntfs_unix_security and anonymous_user takes the server's value when the prior state set it and stays null otherwise; index and policy ID are kept |
| NfsExportPolicyRuleLegacy.ReadIdempotent | internal/provider/protocols_nfs_export_policy_rule_resource.go:279-319 | reading twice from the same record gives the state of one read |
| NameServicesLdap.NameIf | internal/provider/name_services/name_services_ldap_resource.go:367-421 | a name is listed exactly when its condition holds |
| NameServicesLdap.SetGated | internal/provider/name_services/name_services_ldap_resource.go:367-421 | the list names exactly the set ones among bind_as_cifs_server, query_timeout, referral_enabled, ldaps_enabled and skip_config_validation, in that order, and is empty exactly when none is set |
| NameServicesLdap.PlanRequest | internal/provider/name_services/name_services_ldap_resource.go:346-420 | every attribute takes its plan value and a null one Go's zero value; the server lists keep their order |
| NameServicesLdap.Create | internal/provider/name_services/name_services_ldap_resource.go:348-427 | on a release before 9.9 with a gated attribute set, create stops and reports exactly the set gated names; otherwise it sends every plan value, the gated ones included |
| NameServicesLdap.CreateGate | internal/provider/name_services/name_services_ldap_resource.go:367-427 | on 9.9 and later create never stops; on an older release it stops exactly when some gated attribute is set, a set query_timeout among the names |
| NameServicesLdap.UnsetGated | internal/provider/name_services/name_services_ldap_resource.go:510-533 | update as written lists query_timeout, referral_enabled and ldaps_enabled exactly when they are null |
| NameServicesLdap.UpdateAsWritten | internal/provider/name_services/name_services_ldap_resource.go:493-546 | update as written stops on an older release when one of the three is null or skip_config_validation is set; otherwise it sends zero for all three, whatever the plan says, and leaves the SVM name empty, the SVM being addressed by the ID in the path |
| NameServicesLdap.UpdateDropsQueryTimeout | internal/provider/name_services/name_services_ldap_resource.go:385-517 | a query timeout of 30 created on 9.9 is sent as 0 by update as written, and on 9.8 an update with it unset is refused though create accepted that plan |
| NameServicesLdap.Update | internal/provider/name_services/name_services_ldap_resource.go:493-546 | the corrected update, gated on set values as create is, stops exactly when an older release meets a set gated attribute and otherwise sends every plan value except the SVM name, which stays empty as in the code |
| NameServicesLdap.UpdateAgreesWithCreate | internal/provider/name_services/name_services_ldap_resource.go:348-546 | when both go ahead, the corrected update sends what create sends, the query timeout included, except that its SVM name is empty |
| NameServicesLdap.UpdateSupported | internal/provider/name_services/name_services_ldap_resource.go:367-539 | on 9.9 and later the corrected update and create both go ahead and agree on every field but the SVM name, which update leaves empty |
| NameServicesLdap.ReadId | internal/provider/name_services/name_services_ldap_resource.go:262-272 | the configuration is read for the state's ID, or after an import for the UUID of the SVM named in state |
| NameServicesLdap.Refresh | internal/provider/name_services/name_services_ldap_resource.go:262-306 | servers are replaced when the reply has them; a null ad_domain stays null; an empty bind DN keeps the state's; the reply's other fields are stored; SVM name, bind password and skip_config_validation are kept |
| NameServicesLdap.ReadAsWritten | internal/provider/name_services/name_services_ldap_resource.go:262-306 | Read as written appends the reply's preferred AD servers to those already in state |
| NameServicesLdap.ReadAppendsAgain | internal/provider/name_services/name_services_ldap_resource.go:290-294 | two reads of a reply with one preferred AD server list that server twice |
| NameServicesLdap.Read | internal/provider/name_services/name_services_ldap_resource.go:262-306 | the corrected read replaces servers and preferred AD servers when the reply has them; ad_domain stays null when null; an empty bind DN keeps the state's; the computed fields come from the reply |
| NameServicesLdap.ReadIdempotent | internal/provider/name_services/name_services_ldap_resource.go:262-306 | a second corrected read from the same reply changes nothing |
| NameServicesLdap.Import | internal/provider/name_services/name_services_ldap_resource.go:582-594 | an ID is accepted exactly when it splits on commas into two non-empty parts: svm_name and cx_profile_name |
| NameServicesLdap.ImportRoundTrip | internal/provider/name_services/name_services_ldap_resource.go:582-594 | joining a non-empty comma-free SVM name and profile and importing the result gives them back |
| SecurityCertificate.RequestedFields | internal/interfaces/security_certificate.go:48-51 | the lookup asks for the eleven base fields, in order, and for name exactly on 9.8 and later |
| SecurityCertificate.LookupQuery | internal/interfaces/security_certificate.go:41-52 | a given name is the only filter; without one the lookup filters on common name and type; the field list is always attached |
| SecurityCertificate.LookupQueryKeys | internal/interfaces/security_certificate.go:41-52 | the query holds exactly the filters of its case and the field list |
| SecurityCertificate.LookupQueryFields | internal/interfaces/security_certificate.go:48-52 | splitting the sent field list at commas gives back the requested fields |
| SecurityCertificate.BaseFieldsSepFree | internal/interfaces/security_certificate.go:48 | no base field name contains a comma |
| SecurityCertificate.Lookup | internal/interfaces/security_certificate.go:54-62 | the lookup succeeds exactly with one record and no error; several matches are reported as duplicates of one common name, none as a missing response, a call failure as itself |
| SecurityCertificate.ByNameQuery | internal/interfaces/security_certificate.go:76-84 | a lookup by name is refused unless the cluster is 9.8 or later of generation 9; otherwise it filters on the name and asks for the twelve fields |
| SecurityCertificate.ByNameFieldsCover | internal/interfaces/security_certificate.go:48-84 | on 9.8 and later a lookup by name asks for every field a plain lookup asks for, the name included |
| SecurityCertificate.ByNameRefusedOnTen | internal/interfaces/security_certificate.go:79-83 | a generation-10 cluster is refused a lookup by name, with a message other than the duplicate one |
| SecurityCertificate.IfKnown | internal/provider/security/security_certificate_resource.go:374-391 | an unknown attribute sends the zero value and a known one its value |
| SecurityCertificate.BuildCreateBody | internal/provider/security/security_certificate_resource.go:366-391 | the create body carries the name only when given, common name and type always, and the other attributes only when not unknown |
| SecurityCertificate.Operation | internal/provider/security/security_certificate_resource.go:394-398 | the operation is installing exactly when a public certificate is not unknown or a private key is not null, else creating |
| SecurityCertificate.Create | internal/provider/security/security_certificate_resource.go:309-400 | create refuses a name on 9.7 and earlier; with a signing request it looks the certificate up and signs with the found hash function; otherwise it creates or installs with the built body |
| SecurityCertificate.CreateSendsName | internal/provider/security/security_certificate_resource.go:309-370 | a given name is sent on every cluster that does not refuse it |
| SecurityCertificate.AfterCreate | internal/provider/security/security_certificate_resource.go:405-428 | after create the state holds the new UUID, the fields read back, an unknown expiry filled and NA as signed certificate; key and signing request stay |
| SecurityCertificate.ReadLookup | internal/provider/security/security_certificate_resource.go:235-248 | Read looks the certificate up by UUID exactly when an ID is stored, else by name or common name and type |
| SecurityCertificate.Read | internal/provider/security/security_certificate_resource.go:255-272 | the refresh copies every field from the record, except that a set expiry and a known SVM name are kept |
| SecurityCertificate.ReadAfterCreate | internal/provider/security/security_certificate_resource.go:235-428 | reading back the created record finds it by UUID and leaves the state unchanged |
| SecurityCertificate.Update | internal/provider/security/security_certificate_resource.go:438-452 | update always fails with Update Not Supported |
| SecurityCertificate.Delete | internal/provider/security/security_certificate_resource.go:472-478 | delete fails exactly when the ID is unknown, and otherwise deletes that UUID |
| SecurityCertificate.DeleteAfterCreate | internal/provider/security/security_certificate_resource.go:405-478 | delete after create targets the UUID create stored |
| SecurityCertificate.Import | internal/provider/security/security_certificate_resource.go:485-511 | an ID is accepted exactly when it has four or three comma-separated parts, which become the attributes in order; the name is present exactly in the four-part form |
| SecurityCertificate.ImportRoundTrip | internal/provider/security/security_certificate_resource.go:485-511 | joining comma-free attributes and importing the result gives them back |
| SnapmirrorPolicy.Get | internal/interfaces/snapmirror_policy.go:117-123 | a single-record GET succeeds exactly with one record and no error; no record is a no-response error naming the path |
| SnapmirrorPolicy.GetById | internal/interfaces/snapmirror_policy.go:115-123 | a policy is read at snapmirror/policies/ followed by its UUID |
| SnapmirrorPolicy.ByNameQuery | internal/interfaces/snapmirror_policy.go:135-144 | a lookup by name without an SVM asks for the cluster-scoped policy; with one, for that SVM's policy |
| SnapmirrorPolicy.ClusterQuery | internal/interfaces/snapmirror_policy.go:137-144 | the cluster query filters on name and cluster scope and names no SVM |
| SnapmirrorPolicy.SvmQuery | internal/interfaces/snapmirror_policy.go:139-144 | the SVM query filters on name, SVM name and SVM scope |
| SnapmirrorPolicy.ScopeIff | internal/interfaces/snapmirror_policy.go:136-142 | the scope is svm, and an SVM filter is present, exactly when an SVM name is given |
| SnapmirrorPolicy.VersionedFields | internal/interfaces/snapmirror_policy.go:169-177 | the data-source field list starts with the base fields |
| SnapmirrorPolicy.VersionedFieldsGates | internal/interfaces/snapmirror_policy.go:171-176 | copy_all_source_snapshots is requested exactly from 9.10 and copy_latest_source_snapshot exactly from 9.11 |
| SnapmirrorPolicy.CreateSnapshotRequestedTwice | internal/interfaces/snapmirror_policy.go:169-176 | create_snapshot_on_source is in the base list once and is appended a second time from 9.11 on |
| SnapmirrorPolicy.DataSourceQuery | internal/interfaces/snapmirror_policy.go:166-177 | the data-source lookup filters on the name and sends the versioned field list |
| ClusterSchedule.Ints | internal/provider/cluster/cluster_schedule_resource.go:248-262 | each cron entry is sent as its integer value, in order |
| ClusterSchedule.KnownInts | internal/provider/cluster/cluster_schedule_resource.go:189-215 | each returned cron entry is stored as a known value, in order |
| ClusterSchedule.IntsKnownInts | internal/provider/cluster/cluster_schedule_resource.go:189-262 | storing the returned cron entries and sending them again gives back the same integers |
| ClusterSchedule.CronOf | internal/provider/cluster/cluster_schedule_resource.go:248-267 | the cron body carries the five lists of the plan's cron block |
| ClusterSchedule.Timing | internal/provider/cluster/cluster_schedule_resource.go:244-330 | a set interval is sent alone with an empty cron body; otherwise the cron lists are copied; without either the nil cron block is an error |
| ClusterSchedule.CreateRequest | internal/provider/cluster/cluster_schedule_resource.go:242-268 | create sends the name and the timing, and fails exactly when neither interval nor cron is given |
| ClusterSchedule.UpdateRequest | internal/provider/cluster/cluster_schedule_resource.go:306-330 | update sends exactly what create would, without the name |
| ClusterSchedule.ReadLookup | internal/provider/cluster/cluster_schedule_resource.go:165-178 | Read looks the schedule up by name exactly when no ID is stored, else by UUID |
| ClusterSchedule.Read | internal/provider/cluster/cluster_schedule_resource.go:165-219 | a lookup by name stores the UUID; an empty interval in the reply fills the cron block, any other sets the interval; the rest of the state stays |
| ClusterSchedule.ReadWhatWasSent | internal/provider/cluster/cluster_schedule_resource.go:185-268 | a schedule stored as created reads back with the same interval or the same cron values |
| ClusterSchedule.Delete | internal/provider/cluster/cluster_schedule_resource.go:359-364 | delete fails exactly when the ID is null, and otherwise deletes that UUID |
| ClusterSchedule.DeleteAfterRead | internal/provider/cluster/cluster_schedule_resource.go:165-364 | a read schedule can always be deleted: by its stored ID, or by the record's UUID when no ID was stored |
| LunMaps.Id | internal/provider/protocols_san_lun-maps_resource.go:163-207 | the ID is the igroup UUID, one comma, then the LUN UUID, each recoverable from its position |
| LunMaps.CreateRequest | internal/provider/protocols_san_lun-maps_resource.go:188-193 | create sends the SVM, igroup and LUN names, and the LUN number only when it is known |
| LunMaps.NameBlock | internal/interfaces/protocols_san_lun-maps.go:21-30 | an igroup or LUN block names the object only when the name is non-empty |
| LunMaps.Encode | internal/interfaces/protocols_san_lun-maps.go:33-38 | the body always has svm, igroup and lun blocks, and logical_unit_number exactly when it is non-zero |
| LunMaps.CreateSendsKnownNumber | internal/provider/protocols_san_lun-maps_resource.go:191-193 | an unknown LUN number never reaches the server; a known non-zero one does |
| LunMaps.Stored | internal/provider/protocols_san_lun-maps_resource.go:163-208 | after create or read the state holds the composed ID and the server's LUN number, the names unchanged |
| LunMaps.Update | internal/provider/protocols_san_lun-maps_resource.go:217-229 | update makes no call: the plan is stored as the state whatever the prior state was |
| LunMaps.DeleteTarget | internal/provider/protocols_san_lun-maps_resource.go:249-256 | delete refuses a null ID; it reaches the server exactly when the ID contains a comma, with the first two comma-separated parts as igroup and LUN UUIDs |
| LunMaps.UpdateKeepsDeleteTarget | internal/provider/protocols_san_lun-maps_resource.go:163-256 | the ID stored by create and kept by update names the igroup and LUN UUIDs that delete splits back out |
| LunMaps.DeletePath | internal/interfaces/protocols_san_lun-maps.go:129-130 | the delete path names the LUN UUID before the igroup UUID |
| LunMaps.IdRoundTrip | internal/provider/protocols_san_lun-maps_resource.go:163-256 | the UUIDs an ID was built from are recovered on delete when neither contains a comma |
| LunMaps.CommaInUuidMisroutes | internal/provider/protocols_san_lun-maps_resource.go:163-256 | a comma inside the igroup UUID makes delete take the text after it for the LUN UUID |
| LunMaps.Import | internal/provider/protocols_san_lun-maps_resource.go:265-278 | an ID is accepted exactly when it splits into four non-empty parts, which become SVM, igroup, LUN and profile names |
| LunMaps.ImportRoundTrip | internal/provider/protocols_san_lun-maps_resource.go:265-278 | joining four non-empty comma-free names and importing the result gives them back |
| QosPolicy.FixedOf | internal/provider/storage/storage_qos_policy_resource.go:367-379 | the fixed block sends capacity_shared and the four throughput limits of the plan |
| QosPolicy.AdaptiveOf | internal/provider/storage/storage_qos_policy_resource.go:389-402 | the adaptive block sends the allocations, expected and peak IOPS, block size and absolute minimum of the plan |
| QosPolicy.Create | internal/provider/storage/storage_qos_policy_resource.go:354-408 | create stops when neither fixed nor adaptive is given, or when a block is null; otherwise it sends name, SVM, each known block, and empty blocks for the unknown ones |
| QosPolicy.IfKnownStr | internal/provider/storage/storage_qos_policy_resource.go:356-358 | a known scope is sent, an unknown or null one sends nothing |
| QosPolicy.Update | internal/provider/storage/storage_qos_policy_resource.go:510-561 | update sends a block exactly when it is not unknown and differs from the state, fails when such a block is null, and sends the name exactly when it changed |
| QosPolicy.UpdateUnchanged | internal/provider/storage/storage_qos_policy_resource.go:510-566 | an update equal to the state still issues a PATCH, with no name and zero-valued fixed and adaptive blocks |
| QosPolicy.FixedState | internal/provider/storage/storage_qos_policy_resource.go:289-307 | the stored fixed block sends back exactly the values returned |
| QosPolicy.AdaptiveState | internal/provider/storage/storage_qos_policy_resource.go:310-330 | the stored adaptive block sends back exactly the values returned |
| QosPolicy.Stored | internal/provider/storage/storage_qos_policy_resource.go:283-330 | after create or read the state holds the record's UUID, name, SVM and both blocks, each sending back what was returned |
| QosPolicy.CreateReadRoundTrip | internal/provider/storage/storage_qos_policy_resource.go:354-483 | a policy stored as created reads back with the throughput values sent, which are the plan's for a known block |
| QosPolicy.ReadThenUpdateUnchanged | internal/provider/storage/storage_qos_policy_resource.go:283-561 | after a read, an update with the same values sends no name and only the zero-valued fixed and adaptive blocks |
| QosPolicy.ByNameQueryAsWritten | internal/interfaces/qos_policies.go:64-68 | the lookup by name as written filters on the name alone; the SVM name it is given is not used |
| QosPolicy.ByNameIgnoresSvm | internal/interfaces/qos_policies.go:64-72 | two SVMs with a policy of the same name get the same query, so a lookup that finds both fails with too many records |
| QosPolicy.ByNameQuery | internal/interfaces/qos_policies.go:64-68 | the corrected lookup filters on the SVM name too and is otherwise the query as written |
| QosPolicy.ReadLookup | internal/provider/storage/storage_qos_policy_resource.go:264-276 | read as written looks the policy up by UUID exactly when an ID is stored, and otherwise by a name query that holds no svm.name |
| QosPolicy.ReadLookupCorrected | internal/provider/storage/storage_qos_policy_resource.go:264-276 | the corrected lookup by name filters on the SVM name too; the lookup by UUID is unchanged |
| QosPolicy.Delete | internal/provider/storage/storage_qos_policy_resource.go:590-593 | delete fails exactly when the ID is null, and otherwise deletes that UUID |
| QosPolicy.DeleteAfterStored | internal/provider/storage/storage_qos_policy_resource.go:283-593 | after create or read, delete targets the record's UUID, and a later read looks the policy up by that UUID |
| StorageFlexcache.RefOf | internal/provider/storage_flexcache_resource.go:453-481 | a reference sends its name and UUID, each only when known |
| StorageFlexcache.RefBlock | internal/provider/storage_flexcache_resource.go:450-483 | an unknown volume or SVM block is skipped, a null one fails to convert, a known one is sent |
| StorageFlexcache.OriginsOf | internal/provider/storage_flexcache_resource.go:433-494 | the origins are converted one by one, in order, and conversion fails exactly when some origin has a null volume or SVM block |
| StorageFlexcache.RefsOf | internal/provider/storage_flexcache_resource.go:496-528 | each aggregate is sent as its known name and UUID, in order |
| StorageFlexcache.CreateRequest | internal/provider/storage_flexcache_resource.go:400-528 | create stops with an unknown size unit before anything else, then on a null guarantee block or a null origin volume or SVM block, and otherwise goes ahead; it sends name and SVM, size times the unit's multiplier, every optional scalar unless unknown (Go's zero value when null), the guarantee type of a known block, the converted origins and the known aggregates |
| StorageFlexcache.CreateSizeRoundTrip | internal/provider/storage_flexcache_resource.go:400-405 | with a valid unit, the size sent converts back to the plan's size |
| StorageFlexcache.RefJson | internal/interfaces/storage_flexcache.go:57-66 | a reference's name and UUID are encoded only when non-empty |
| StorageFlexcache.OriginsJson | internal/interfaces/storage_flexcache.go:51-54 | each origin is encoded as its volume and SVM blocks, in order |
| StorageFlexcache.RefsJson | internal/interfaces/storage_flexcache.go:42 | each aggregate is encoded as its reference block, in order |
| StorageFlexcache.Encode | internal/interfaces/storage_flexcache.go:30-43 | use_tiered_aggregate is always encoded, and aggregates exactly when some are named |
| StorageFlexcache.Flags | internal/interfaces/storage_flexcache.go:30-43 | the SVM, the guarantee and the three flags are encoded whatever their value |
| StorageFlexcache.EncodeOmitsEmpty | internal/interfaces/storage_flexcache.go:31-35 | size, origins and name are encoded exactly when non-zero or non-empty |
| StorageFlexcache.EncodeFixedKeys | internal/interfaces/storage_flexcache.go:36-39 | path is never encoded; dr_cache and global_file_locking_enabled always are |
| StorageFlexcache.EncodeValues | internal/interfaces/storage_flexcache.go:35-42 | a non-zero size and a non-empty aggregate list are encoded with their values |
| StorageFlexcache.PruneTiered | internal/interfaces/storage_flexcache.go:139-142 | a body naming aggregates loses use_tiered_aggregate; any other body is posted as encoded |
| StorageFlexcache.PruneTieredKeeps | internal/interfaces/storage_flexcache.go:139-142 | pruning removes nothing but that one key and is idempotent |
| StorageFlexcache.CreateBodySendsTieredIff | internal/interfaces/storage_flexcache.go:139-146 | the posted body carries use_tiered_aggregate exactly when no aggregate is named, and aggregates exactly when some are |
| StorageFlexcache.ByNameQuery | internal/interfaces/storage_flexcache.go:77-81 | the lookup by name filters on the name and the SVM name |
| StorageFlexcache.Update | internal/provider/storage_flexcache_resource.go:690-694 | update always fails with Update not available |
| StorageFlexcache.Delete | internal/provider/storage_flexcache_resource.go:677-685 | delete fails exactly when the ID is unknown, and otherwise deletes the flexcache at that UUID |
| StorageFlexcache.AfterCreate | internal/provider/storage_flexcache_resource.go:535-551 | create fails with "No flexcache found" when the lookup after the POST finds nothing; otherwise the state takes the record's UUID, junction path, constituents per aggregate, DR cache, global file locking and tiering flags, and keeps the planned name and SVM |
| StorageFlexcache.DeleteAfterCreate | internal/provider/storage_flexcache_resource.go:535-685 | delete after create targets storage/flexcache/flexcaches/ and the UUID of the record found |
| SvmPeer.ApplicationsBody | internal/interfaces/svm_peers.go:25-29 | the applications PATCH carries no state, and the list exactly when it is non-empty |
| SvmPeer.Applications | internal/provider/svm/svm_peer_resource.go:222-316 | a non-null applications list is sent element by element; a null one sends nothing |
| SvmPeer.CreateRequest | internal/provider/svm/svm_peer_resource.go:220-228 | create sends the applications, the SVM name and the peer SVM and cluster names of the plan |
| SvmPeer.CreateCalls | internal/provider/svm/svm_peer_resource.go:234-261 | create posts the peer request through the local profile; with a peer profile it then patches state peered through that profile and re-reads through the local one |
| SvmPeer.AfterCreate | internal/provider/svm/svm_peer_resource.go:241-266 | create stores the new UUID, and the re-read state when it accepted, else the create reply's state; nothing else changes |
| SvmPeer.CreateAcceptsIff | internal/provider/svm/svm_peer_resource.go:243-253 | create accepts the request exactly when a peer profile is configured |
| SvmPeer.UpdateCalls | internal/provider/svm/svm_peer_resource.go:294-327 | update accepts exactly when a peer profile is set and the state is still initiated, patches applications when the plan's list is non-null and differs, and always ends by re-reading |
| SvmPeer.AfterUpdate | internal/provider/svm/svm_peer_resource.go:323-330 | update stores the plan with the re-read state, and fails when no record came back |
| SvmPeer.UpdateWhenPeeredOnlyReads | internal/provider/svm/svm_peer_resource.go:294-327 | once peered and with unchanged applications, update only re-reads |
| SvmPeer.AcceptedOnce | internal/provider/svm/svm_peer_resource.go:243-306 | after a create that accepted and saw peered, an update with the same applications does not accept again |
| SvmPeer.ReadLookup | internal/provider/svm/svm_peer_resource.go:175-188 | Read looks the peer up by UUID exactly when an ID is stored, else by the SVM and peer SVM names |
| SvmPeer.AppsState | internal/provider/svm/svm_peer_resource.go:197-201 | a record without applications stores a null list, else the applications as known values |
| SvmPeer.Read | internal/provider/svm/svm_peer_resource.go:175-201 | Read fails when no record is found; otherwise ID, state and applications come from the record, and the peer cluster name too after a lookup by names |
| SvmPeer.ReadThenUpdateKeepsApplications | internal/provider/svm/svm_peer_resource.go:197-321 | a plan whose applications equal what was read patches no applications |
| SvmPeer.Delete | internal/provider/svm/svm_peer_resource.go:354-358 | delete fails exactly when the ID is null, and otherwise deletes svm/peers at that UUID |
| SvmPeer.ReadIdempotent | internal/provider/svm/svm_peer_resource.go:175-201 | for a record with a UUID, reading twice gives what reading once does |
| SvmPeer.ReadAfterUpdate | internal/provider/svm/svm_peer_resource.go:175-330 | after update, reading the record whose UUID and applications the plan holds changes nothing |
| SvmPeer.DeleteAfterCreate | internal/provider/svm/svm_peer_resource.go:241-358 | delete after create targets svm/peers/ and the UUID of the created peer, and a later read looks the peer up by that UUID |
| SvmPeer.Import | internal/provider/svm/svm_peer_resource.go:367-381 | an ID is accepted exactly when it splits into four non-empty parts: SVM, peer SVM, peer cluster and profile names |
| SvmPeer.ImportRoundTrip | internal/provider/svm/svm_peer_resource.go:367-381 | joining four non-empty comma-free names and importing the result gives them back |
| EfficiencyPolicy.ScheduleJson | internal/provider/storage/storage_volume_efficiency_policies_resource.go:285-292 | the schedule object names a schedule only when the name is non-empty |
| EfficiencyPolicy.CreateBody | internal/provider/storage/storage_volume_efficiency_policies_resource.go:282-304 | create fails on an unknown schedule; otherwise it always sends name, SVM and schedule, enabled exactly when true, and duration and comment exactly when non-zero or non-empty |
| EfficiencyPolicy.OptionalFields | internal/provider/storage/storage_volume_efficiency_policies_resource.go:284-302 | type, duration, start threshold, QoS policy and comment are sent exactly when non-zero or non-empty |
| EfficiencyPolicy.AfterCreate | internal/provider/storage/storage_volume_efficiency_policies_resource.go:317-318 | create stores the new UUID and the comment the server returned, and nothing else changes |
| EfficiencyPolicy.ChangedFields | internal/provider/storage/storage_volume_efficiency_policies_resource.go:355-382 | update fails when a changed schedule is not known; it sends each other field exactly when it changed and is non-zero or non-empty |
| EfficiencyPolicy.UpdateBodyAsWritten | internal/provider/storage/storage_volume_efficiency_policies_resource.go:377-379 | update as written sends enabled exactly when plan and state are equal and true; the other fields are as changed |
| EfficiencyPolicy.EnabledChangeNeverSent | internal/provider/storage/storage_volume_efficiency_policies_resource.go:377-379 | as written, a change of enabled, either way, never reaches the server |
| EfficiencyPolicy.DisableIsLost | internal/provider/storage/storage_volume_efficiency_policies_resource.go:377-379 | disabling an enabled policy with nothing else changed sends only an empty schedule object |
| EfficiencyPolicy.UpdateBody | internal/provider/storage/storage_volume_efficiency_policies_resource.go:355-382 | the corrected update sends enabled, false included, exactly when it changed, and otherwise what update as written sends |
| EfficiencyPolicy.UpdateUnchanged | internal/provider/storage/storage_volume_efficiency_policies_resource.go:355-382 | with nothing changed, the corrected update sends only the empty schedule object |
| EfficiencyPolicy.AfterUpdate | internal/provider/storage/storage_volume_efficiency_policies_resource.go:383-391 | a successful update stores the plan |
| EfficiencyPolicy.ReadLookup | internal/provider/storage/storage_volume_efficiency_policies_resource.go:213-225 | Read looks the policy up by UUID exactly when an ID is stored, else by name and SVM name |
| EfficiencyPolicy.Read | internal/provider/storage/storage_volume_efficiency_policies_resource.go:232-258 | Read always replaces identity, type, QoS policy, enabled and schedule, and duration, start threshold and comment only when the server returns a non-zero or non-empty value |
| EfficiencyPolicy.ReadIdempotent | internal/provider/storage/storage_volume_efficiency_policies_resource.go:232-258 | a second read of the same record changes nothing |
| EfficiencyPolicy.ReadThenUpdateSendsNothing | internal/provider/storage/storage_volume_efficiency_policies_resource.go:232-382 | a plan equal to what was read needs no update beyond the empty schedule object |
| EfficiencyPolicy.Delete | internal/provider/storage/storage_volume_efficiency_policies_resource.go:410-414 | delete fails exactly when the ID is null, and otherwise deletes the policy at that UUID |
| EfficiencyPolicy.CreatedPolicyTargeted | internal/provider/storage/storage_volume_efficiency_policies_resource.go:317-414 | after create with a non-empty UUID, read looks the policy up by that UUID and delete targets it |
| EfficiencyPolicy.ReadFixedIff | internal/provider/storage/storage_volume_efficiency_policies_resource.go:232-258 | a read leaves the state unchanged exactly when the state already reflects the record, and every read result reflects it |
| EfficiencyPolicy.ReadAfterUpdate | internal/provider/storage/storage_volume_efficiency_policies_resource.go:232-391 | after a successful update whose plan reflects the server record, a read changes nothing |
| ClusterResource.Elements | internal/provider/cluster_resource.go:506-558 | a known set is sent as its elements; an unknown or null one sends nothing |
| ClusterResource.Inner | internal/provider/cluster_resource.go:528-548 | a known timezone or certificate object sends its attribute, an unknown one nothing, and a null one fails to convert |
| ClusterResource.LicenseKeys | internal/provider/cluster_resource.go:485-503 | the license keys are sent when known; a null license object, or a known one whose key set is unknown, fails to convert |
| ClusterResource.CreateRequest | internal/provider/cluster_resource.go:467-578 | create refuses an unknown password first; otherwise it sends name and password, contact and location when known, and the known DNS domains and NTP servers; a null timezone or certificate makes it fail |
| ClusterResource.UpdateRequest | internal/provider/cluster_resource.go:745-795 | update sends contact, location, the name services, timezone and certificate, and never name, password, licenses or the management interface; a null timezone or certificate makes it fail |
| ClusterResource.Refresh | internal/provider/cluster_resource.go:315-436 | the corrected refresh stores the record's name, contact, location, version, timezone, certificate, name services and interfaces, and keeps ID, password, licenses and the management interface |
| ClusterResource.RefreshAsWritten | internal/provider/cluster_resource.go:321-333 | as written, version.full is filled with the timezone's name; everything else is as in the corrected refresh |
| ClusterResource.VersionShowsTimezone | internal/provider/cluster_resource.go:321-333 | a 9.14.1 cluster in Etc/UTC is stored with version Etc/UTC as written, and with its release string when corrected |
| ClusterResource.RefreshKeepsVersion | internal/provider/cluster_resource.go:321-333 | the corrected refresh stores the same version whatever the timezone |
| ClusterResource.Read | internal/provider/cluster_resource.go:306-436 | read as written fails exactly when no cluster is found; otherwise the state is the record refreshed as written, with its UUID as ID and the time zone as version.full |
| ClusterResource.AfterUpdate | internal/provider/cluster_resource.go:805-935 | update as written fails exactly when no cluster is found; otherwise it stores the plan refreshed as written from the record, ID unchanged |
| ClusterResource.ReadCorrected | internal/provider/cluster_resource.go:306-436 | the corrected read: the same, with the version as version.full |
| ClusterResource.AfterUpdateCorrected | internal/provider/cluster_resource.go:805-935 | the corrected update: the plan refreshed by the corrected refresh, ID unchanged |
| ClusterResource.ReadIdempotent | internal/provider/cluster_resource.go:306-436 | reading the same record twice gives what reading once does, as written and corrected |
| ClusterResource.ReadAfterUpdate | internal/provider/cluster_resource.go:306-935 | a read after update stores what update stored, with the record's UUID as ID, as written and corrected |
| ClusterResource.ReadThenUpdateWritesBack | internal/provider/cluster_resource.go:315-795 | updating with what was read sends back the record's own contact, location, name services, timezone and certificate |
| ClusterResource.Delete | internal/provider/cluster_resource.go:940-945 | delete always fails |

## Left out

- HTTP transport, AWS Lambda invocation, TLS and authentication: replies enter the model as abstract inputs (status, decoded records, error block, transport error).
- JSON and mapstructure decoding of server records: a decoded record is an input. Each module's read step takes the fields it uses.
- The request-slot semaphore, goroutines, `time.Sleep` and back-off timing: the model is sequential. Time in the job wait is a budget counted in the code's 10-unit steps.
- Terraform framework machinery: schemas, plan modifiers, `Get`/`Set` on plan and state, diagnostics and `tflog`. A diagnostic becomes a failure result without its message text.
- The texts of error and warning messages. Only whether an error is reported is modelled.
- `CompareVersions` from the utils package is not part of this model. Versions are compared as (generation, major) pairs in numeric order.
- `POW2BYTEMAP` is not part of this model. It is a parameter, and the unit multipliers are assumed positive (`Units.ValidUnits`).
- `ValidateIntORString` is not part of this model. It is a predicate parameter.
- `GetCluster`, `GetSvmByName` and the other lookups are calls into the server. Their results are inputs.
- Data sources and the provider's acceptance tests are outside the modelled core.
- The snapshot-reserve and other floating-point sizes: floats are not modelled.
- 64-bit overflow of integer attributes: values are unbounded integers. The one parse that matters, `GoStrings.Atoi`, follows `strconv.Atoi` on overflow and syntax errors.
- Case folding covers ASCII letters only (`GoStrings.ToLower`, `GoStrings.EqualFold`). Unicode folding is not modelled.
- Loops that poll until the server reports a state (job wait, aggregate onlining) are modelled over a finite list of polls. Running out of polls is a separate outcome.
- The untyped `omitempty` elision of zero values by the JSON encoder is modelled only where a module's `Encode` states it. Elsewhere a present key means an assigned field.
- The older copies of the volume and LDAP resources at the root of internal/provider (storage_volume_resource.go, name_services_ldap_resource.go) are not modelled. The copies under the sub-packages are. The older export-rule resource there is modelled, as `NfsExportPolicyRuleLegacy`.
- StorageVolume: the body keys follow the Go field names, because the request structs in interfaces/storage_volume.go are not part of this model.
- StorageFlexcache.CreateQuery: the constant `return_records=false` query is defined without a contract.
- SnapmirrorPolicy.ByNameQuery: states the fields that are always requested as present. It does not state the full field list.
- StorageFlexcache.ByNameQuery: states the fields that are always requested as present. It does not state the full field list.
- StorageFlexcache.Encode: states only the `use_tiered_aggregate` and `aggregates` keys. The other keys are stated by the lemmas about the body.
- GoStrings.Quote: escapes only the quotation mark, the backslash, \n, \r and \t. The other escapes of `strconv.Quote` (control characters, invalid UTF-8, non-printable runes) are not modelled.
- StorageFlexcache.AfterCreate: size and size_unit (recomputed through `ByteFormat`), guarantee, origins and aggregates are not refreshed from the record in the model. It states only the fields listed in its row.
- Failures of the framework's element conversions (`ElementsAs`, `ObjectValue`, `SetValue` diagnostics) inside create and update are not modelled. Those conversions succeed in the model.
- ClusterResource.Delete: always fails, so no other step is a partner of it beyond that constant failure.
- SnapmirrorPolicy.VersionedFields: states only that the base fields come first. The version gates are stated by the lemmas that follow it.

## Findings

| source | as written | input that shows it | evidently intended | confidence | as-written member | corrected member |
|---|---|---|---|---|---|---|
| internal/provider/protocols_nfs_service_resource.go:580 | the cluster version is built as "generation.major" and the feature gates compare that string | clusters 9.8, 9.10 and 10.0 against the gate "9.10": as text 9.8 passes it and 10.0 does not | versions compared numerically | not executed | NfsService.GateAsWrittenMisorders | NfsService.SupportedIsCompareVersions |
| internal/provider/protocols_nfs_service_resource.go:603-605 | write_delegation_enabled is sent with the value of read_delegation_enabled | plan read_delegation false, write_delegation true | send the plan's write_delegation value | not executed | NfsService.WriteDelegationCounterexample | NfsService.WriteDelegationSent |
| internal/provider/storage/storage_volume_resource.go:581-583 | the create request's state is set from the type attribute | any planned state that differs from the planned type, such as state "online" with type "rw", for which create sends state "rw" | send the state attribute | not executed | StorageVolume.Create | StorageVolume.CreateCorrected |
| internal/provider/name_services/name_services_ldap_resource.go:510-533 | update copies query_timeout and the other optional fields only when they are null | query_timeout 30 on ONTAP 9.9: create sends it, update sends 0 | copy a field when it is set, as create does | not executed | NameServicesLdap.UpdateDropsQueryTimeout | NameServicesLdap.UpdateAgreesWithCreate |
| internal/provider/storage/storage_volume_efficiency_policies_resource.go:377-379 | enabled is copied only when plan and state are equal | plan enabled false, state enabled true | copy enabled when it changed | not executed | EfficiencyPolicy.DisableIsLost | EfficiencyPolicy.UpdateBody |
| internal/provider/security/security_role_resource.go:479-485 | after creating a privilege the update reports an error about deleting default privileges, whatever the result | adding one privilege on path "volume" to a role with none | report an error only when the call fails | not executed | SecurityRole.UpdateAsWrittenReportsOnSuccess | SecurityRole.UpdateSucceeds |
| internal/provider/protocols/protocols_cifs_share_resource.go:799-825 | plan ACLs are created only inside the loop over state ACLs | state with no ACLs and one ACL in the plan | create every plan ACL that has no match in the state | not executed | CifsShare.AsWrittenNeverCreatesIntoEmptyState | CifsShare.CreatesExactlyUnmatched |
| internal/provider/protocols_cifs_service_resource.go:850 | update sends kdc_encryption only below 9.12, create up to and including 9.12 | cluster 9.12 with kdc_encryption set | the same gate as create, at most 9.12 | not executed | CifsGates.KdcGateDiffersAt912 | CifsService.KdcDroppedOn912 |
| internal/provider/storage_aggregate_resource.go:230-233 | a disk size in a unit missing from the unit table becomes 0 and is not sent | disk_size 10 with disk_size_unit "xb" | reject an unknown unit | not executed | StorageAggregate.UnknownUnitDropsSize | StorageAggregate.CreateCheckedSendsSize |
| internal/provider/protocols_cifs_local_user_resource.go:334-336 | account_disabled has no omitempty, so every update sends it, as false when unchanged | a disabled user whose description changes | send account_disabled only when it changed | not executed | CifsLocalUser.UpdateEnablesDisabledUser | CifsLocalUser.UpdateBody |
| internal/provider/protocols/protocols_nfs_export_policy_rule_resource.go:293-295 | allow_suid false is dropped by omitempty | a rule created with allow_suid false | send false when it is set | not executed | NfsExportPolicyRule.AllowSuidFalseDropped | NfsExportPolicyRule.CorrectedSendsFalse |
| internal/provider/cluster_resource.go:321-333 | version.full is filled with the time-zone name | a cluster in time zone "Etc/UTC" running "NetApp Release 9.14.1" | fill version.full from the version | not executed | ClusterResource.VersionShowsTimezone | ClusterResource.RefreshKeepsVersion |
| internal/provider/name_services/name_services_ldap_resource.go:290-294 | read appends the server's preferred AD servers to those already in state | a second read of a configuration with one preferred AD server | replace the list with the server's | not executed | NameServicesLdap.ReadAppendsAgain | NameServicesLdap.ReadIdempotent |
| internal/interfaces/qos_policies.go:64-68 | the lookup by name ignores the SVM name it is given | two SVMs that each hold a policy with the same name | filter on svm.name too | not executed | QosPolicy.ByNameIgnoresSvm | QosPolicy.ByNameQuery |
| internal/provider/protocols_cifs_service_resource.go:565 | create fills wins_servers with String() of each element, which is the quoted text | wins_servers ["10.0.0.1"]: create sends "\"10.0.0.1\"", update sends "10.0.0.1" | send the element values, as update does | not executed | CifsService.WinsServersQuotedOnCreate | CifsService.WinsServersCorrected |
| internal/provider/protocols_cifs_service_resource.go:649 | create fills advertised_kdc_encryptions with String() of each element, which is the quoted text | advertised_kdc_encryptions ["aes-256"] on 9.12: create sends "\"aes-256\"", update sends "aes-256" | send the element values, as update does | not executed | CifsService.KdcEncryptionsQuotedOnCreate | CifsService.KdcEncryptionsCorrected |
