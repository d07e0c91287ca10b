/**
 * The login banner and message of a cluster or SVM
 * (`provider/security/security_login_message_resource.go`): the newline the
 * server appends is trimmed on read, update is validated, create and delete
 * are refused, and import takes one or two parts.
 */
module SecurityLoginMessage {
  import opened Wrappers
  import opened Tf
  import opened GoStrings
  import opened ImportId

  datatype LoginMessage = LoginMessage(
    cxProfileName: Value<string>,
    banner: Value<string>,
    message: Value<string>,
    showClusterMessage: Value<bool>,
    scope: Value<string>,
    svmName: Value<string>,
    id: Value<string>)

  /** The record the server returns. */
  datatype MessageRecord = MessageRecord(message: string, scope: string, banner: string, showClusterMessage: bool, uuid: string)

  /** `Read`: every field from the record, message and banner without one trailing newline. */
  function Read(d: LoginMessage, rec: MessageRecord): (r: LoginMessage)
    ensures r.message == Known(TrimSuffix(rec.message, "\n")) && r.banner == Known(TrimSuffix(rec.banner, "\n"))
    ensures r.showClusterMessage == Known(rec.showClusterMessage) && r.scope == Known(rec.scope) && r.id == Known(rec.uuid)
    ensures r.cxProfileName == d.cxProfileName && r.svmName == d.svmName
  {
    d.(message := Known(TrimSuffix(rec.message, "\n")), banner := Known(TrimSuffix(rec.banner, "\n")),
       showClusterMessage := Known(rec.showClusterMessage), scope := Known(rec.scope), id := Known(rec.uuid))
  }

  /** A text stored with the newline the server appends reads back as configured. */
  lemma ReadTrimsAppendedNewline(d: LoginMessage, message: string, banner: string, rec: MessageRecord)
    requires rec.message == message + "\n" && rec.banner == banner + "\n"
    ensures Read(d, rec).message == Known(message) && Read(d, rec).banner == Known(banner)
  {
    assert HasSuffix(message + "\n", "\n");
    assert HasSuffix(banner + "\n", "\n");
  }

  /** Only one newline is trimmed, and text without one is kept whole. */
  lemma ReadTrimsOnce(d: LoginMessage, rec: MessageRecord)
    requires !HasSuffix(rec.message, "\n")
    ensures Read(d, rec).message == Known(rec.message)
    ensures Read(d, rec.(message := rec.message + "\n\n")).message == Known(rec.message + "\n")
  {
    assert (rec.message + "\n\n")[..|rec.message + "\n\n"| - 1] == rec.message + "\n";
  }

  /** `SecurityLoginMessageResourceBodyDataModelONTAP`. */
  datatype Request = Request(banner: string, message: string, showClusterMessage: bool)

  /** Update: the plan's three fields, refused when the cluster message is shown but empty. */
  function Update(plan: LoginMessage): (r: Result<Request, string>)
    ensures r.Failure? <==> Str(plan.message) == "" && Bool(plan.showClusterMessage)
    ensures r.Success? ==> r.value == Request(Str(plan.banner), Str(plan.message), Bool(plan.showClusterMessage))
  {
    var request := Request(Str(plan.banner), Str(plan.message), Bool(plan.showClusterMessage));
    if request.message == "" && request.showClusterMessage then Failure("Message must be set when ShowClusterMessage is true")
    else Success(request)
  }

  /** The state saved after update: the plan, with only the flag and the scope refreshed from the server. */
  function AfterUpdate(plan: LoginMessage, rec: MessageRecord): (r: LoginMessage)
    ensures r.showClusterMessage == Known(rec.showClusterMessage) && r.scope == Known(rec.scope)
    ensures r.(showClusterMessage := plan.showClusterMessage, scope := plan.scope) == plan
  {
    plan.(showClusterMessage := Known(rec.showClusterMessage), scope := Known(rec.scope))
  }

  /** A read of the record the update left behind gives the saved state, when the server kept the texts sent. */
  lemma ReadAfterUpdate(plan: LoginMessage, rec: MessageRecord)
    requires plan.id == Known(rec.uuid)
    requires plan.message == Known(TrimSuffix(rec.message, "\n")) && plan.banner == Known(TrimSuffix(rec.banner, "\n"))
    ensures Read(AfterUpdate(plan, rec), rec) == AfterUpdate(plan, rec)
  {
  }

  datatype Operation = CreateOp | DeleteOp

  /** Create and Delete only report that they are not supported. */
  function NotSupported(op: Operation): (r: Result<(), string>)
    ensures r.Failure?
    ensures op.CreateOp? ==> r.error == "Create Not Supported"
    ensures op.DeleteOp? ==> r.error == "Delete Not Supported"
  {
    match op
    case CreateOp => Failure("Create Not Supported")
    case DeleteOp => Failure("Delete Not Supported")
  }

  // ---------------------------------------------------------------- import

  /** The attributes `ImportState` sets: the SVM only from a two-part identifier. */
  datatype ImportKey = ImportKey(svmName: Option<string>, cxProfileName: string)

  /** `ImportState`: `cx_profile_name` or `svm_name,cx_profile_name`; empty parts are not refused. */
  function Import(id: string): (r: Option<ImportKey>)
    ensures r.Some? <==> |Parts(id)| == 1 || |Parts(id)| == 2
    ensures r.Some? && |Parts(id)| == 1 ==> r.value == ImportKey(None, Parts(id)[0])
    ensures r.Some? && |Parts(id)| == 2 ==> r.value == ImportKey(Some(Parts(id)[0]), Parts(id)[1])
  {
    var parts := Parts(id);
    if |parts| == 1 then Some(ImportKey(None, parts[0]))
    else if |parts| == 2 then Some(ImportKey(Some(parts[0]), parts[1]))
    else None
  }

  /** The identifier a user would type imports the same attributes back. */
  lemma ImportRoundTrip(k: ImportKey)
    requires ',' !in k.cxProfileName && (k.svmName.Some? ==> ',' !in k.svmName.value)
    ensures k.svmName.None? ==> Import(k.cxProfileName) == Some(k)
    ensures k.svmName.Some? ==> Import(Compose([k.svmName.value, k.cxProfileName])) == Some(k)
  {
    if k.svmName.Some? {
      SplitJoin([k.svmName.value, k.cxProfileName], ',');
    } else {
      SplitJoin([k.cxProfileName], ',');
    }
  }
}
