/**
 * A CIFS local user (`provider/protocols_cifs_local_user_resource.go`): the
 * create and update bodies, the `DOMAIN\name` normalisation on read, the ID
 * taken from the SID, and import. Membership is read back but never sent.
 */
module CifsLocalUser {
  import opened Wrappers
  import opened Tf
  import opened GoStrings
  import opened ImportId

  datatype LocalUser = LocalUser(
    name: Value<string>,
    svmName: Value<string>,
    password: Value<string>,
    id: Value<string>,
    description: Value<string>,
    fullName: Value<string>,
    accountDisabled: Value<bool>)

  /** `CifsLocalUserResourceBodyDataModelONTAP` before encoding; "" is unset. */
  datatype Request = Request(name: string, password: string, description: string, fullName: string, accountDisabled: bool)

  /**
   * The encoded body: the string fields are `omitempty`, `account_disabled`
   * is not, so it is always sent. (`svm` is a nested struct set on create only.)
   */
  function Encode(r: Request): (b: Body)
    ensures ("name" in b <==> r.name != "") && ("name" in b ==> b["name"] == JStr(r.name))
    ensures ("password" in b <==> r.password != "") && ("password" in b ==> b["password"] == JStr(r.password))
    ensures ("description" in b <==> r.description != "") && ("description" in b ==> b["description"] == JStr(r.description))
    ensures ("full_name" in b <==> r.fullName != "") && ("full_name" in b ==> b["full_name"] == JStr(r.fullName))
    ensures "account_disabled" in b && b["account_disabled"] == JBool(r.accountDisabled)
  {
    var b0: Body := map["account_disabled" := JBool(r.accountDisabled)];
    var b1 := if r.name != "" then b0["name" := JStr(r.name)] else b0;
    var b2 := if r.password != "" then b1["password" := JStr(r.password)] else b1;
    var b3 := if r.description != "" then b2["description" := JStr(r.description)] else b2;
    if r.fullName != "" then b3["full_name" := JStr(r.fullName)] else b3
  }

  // ---------------------------------------------------------------- create

  /** Create: name and password always, the optional fields when not null. */
  function CreateRequest(d: LocalUser): (r: Request)
    ensures r.name == Str(d.name) && r.password == Str(d.password)
    ensures d.description.Known? ==> r.description == d.description.value
    ensures d.fullName.Known? ==> r.fullName == d.fullName.value
    ensures r.accountDisabled <==> d.accountDisabled == Known(true)
  {
    Request(Str(d.name), Str(d.password), if d.description.Null? then "" else Str(d.description),
            if d.fullName.Null? then "" else Str(d.fullName),
            if d.accountDisabled.Null? then false else Bool(d.accountDisabled))
  }

  // ---------------------------------------------------------------- update

  /** The update request: each field takes the plan's value only when it changed, and stays unset otherwise. */
  function UpdateRequest(p: LocalUser, s: LocalUser): (r: Request)
    ensures p.name == s.name ==> r.name == ""
    ensures p.name != s.name ==> r.name == Str(p.name)
    ensures p.password == s.password ==> r.password == ""
    ensures p.password != s.password ==> r.password == Str(p.password)
    ensures p.description == s.description ==> r.description == ""
    ensures p.description != s.description ==> r.description == Str(p.description)
    ensures p.fullName == s.fullName ==> r.fullName == ""
    ensures p.fullName != s.fullName ==> r.fullName == Str(p.fullName)
    ensures r.accountDisabled <==> p.accountDisabled != s.accountDisabled && Bool(p.accountDisabled)
  {
    Request(IfChanged(p.name, s.name), IfChanged(p.password, s.password), IfChanged(p.description, s.description),
            IfChanged(p.fullName, s.fullName), if p.accountDisabled != s.accountDisabled then Bool(p.accountDisabled) else false)
  }

  /** The update body as written: `account_disabled` goes out even when unchanged, as `false`. */
  function UpdateBodyAsWritten(p: LocalUser, s: LocalUser): (b: Body)
    ensures "account_disabled" in b
    ensures p.accountDisabled == s.accountDisabled ==> b["account_disabled"] == JBool(false)
  {
    Encode(UpdateRequest(p, s))
  }

  /** Changing only the description of a disabled user sends `account_disabled: false`, enabling it. */
  lemma UpdateEnablesDisabledUser(s: LocalUser, description: string)
    requires s.accountDisabled == Known(true) && s.description != Known(description) && description != ""
    ensures var b := UpdateBodyAsWritten(s.(description := Known(description)), s);
      b["account_disabled"] == JBool(false) && b["description"] == JStr(description)
  {
  }

  /** The update body with `account_disabled` sent only when it changed, as for the other fields. */
  function UpdateBody(p: LocalUser, s: LocalUser): (b: Body)
    ensures ("name" in b ==> p.name != s.name && b["name"] == JStr(Str(p.name)))
    ensures ("password" in b ==> p.password != s.password && b["password"] == JStr(Str(p.password)))
    ensures ("description" in b ==> p.description != s.description && b["description"] == JStr(Str(p.description)))
    ensures ("full_name" in b ==> p.fullName != s.fullName && b["full_name"] == JStr(Str(p.fullName)))
    ensures ("account_disabled" in b <==> p.accountDisabled != s.accountDisabled)
    ensures "account_disabled" in b ==> b["account_disabled"] == JBool(Bool(p.accountDisabled))
  {
    var b := Encode(UpdateRequest(p, s));
    if p.accountDisabled != s.accountDisabled then b else b - {"account_disabled"}
  }

  /** A plan equal to the state sends nothing. */
  lemma UpdateUnchanged(d: LocalUser)
    ensures UpdateBody(d, d) == map[]
  {
    var b := UpdateBody(d, d);
    assert b.Keys == {};
  }

  /** A field changed to a non-empty value is sent. */
  lemma UpdateSendsChanged(p: LocalUser, s: LocalUser)
    requires p.fullName != s.fullName && Str(p.fullName) != ""
    requires p.description != s.description && Str(p.description) != ""
    ensures "full_name" in UpdateBody(p, s) && "description" in UpdateBody(p, s)
  {
  }

  // ---------------------------------------------------------------- read

  /** The record the lookup returns; its name has the form `DOMAIN\user`. */
  datatype UserRecord = UserRecord(name: string, sid: string, fullName: string, description: string, accountDisabled: bool)

  /**
   * The stored name: a server name without `\` is an error; a configured
   * name without `\` keeps the part after the first `\`, otherwise the
   * server's whole name is stored.
   */
  function ReadName(configured: string, server: string): (r: Result<string, string>)
    ensures r.Failure? <==> '\\' !in server
    ensures r.Success? && '\\' in configured ==> r.value == server
    ensures r.Success? && '\\' !in configured ==> r.value == Split(server, '\\')[1]
  {
    if '\\' !in server then Failure("protocols_cifs_local_user name is invalid")
    else
      if '\\' !in configured then Success(Split(server, '\\')[1]) else Success(server)
  }

  /** A plain user name configured for `DOMAIN\user` reads back as the same plain name. */
  lemma ReadNamePlain(domain: string, user: string)
    requires '\\' !in domain && '\\' !in user
    ensures ReadName(user, domain + "\\" + user) == Success(user)
  {
    SplitAt(domain, user, '\\');
  }

  /** A qualified configured name reads back as the server's qualified name. */
  lemma ReadNameQualified(domain: string, user: string)
    requires '\\' !in domain && '\\' !in user
    ensures ReadName(domain + "\\" + user, domain + "\\" + user) == Success(domain + "\\" + user)
  {
    assert (domain + "\\" + user)[|domain|] == '\\';
  }

  /**
   * `Read`: the ID becomes the SID when it was null; full name and
   * description are refreshed only with non-empty server values, the
   * account flag always.
   */
  function Read(d: LocalUser, rec: UserRecord, svmName: string): (r: Result<LocalUser, string>)
    ensures r.Failure? <==> '\\' !in rec.name
    ensures r.Success? ==> ReadName(Str(d.name), rec.name).Success? && r.value.name == Known(ReadName(Str(d.name), rec.name).value)
    ensures r.Success? && '\\' in Str(d.name) ==> r.value.name == Known(rec.name)
    ensures r.Success? && '\\' !in Str(d.name) ==> r.value.name == Known(Split(rec.name, '\\')[1])
    ensures r.Success? ==> r.value.id == (if d.id.Null? then Known(rec.sid) else d.id)
    ensures r.Success? ==> r.value.fullName == (if rec.fullName != "" then Known(rec.fullName) else d.fullName)
    ensures r.Success? ==> r.value.description == (if rec.description != "" then Known(rec.description) else d.description)
    ensures r.Success? ==> r.value.accountDisabled == Known(rec.accountDisabled)
    ensures r.Success? ==> r.value.svmName == Known(svmName) && r.value.password == d.password
  {
    var name := ReadName(Str(d.name), rec.name);
    if name.Failure? then Failure(name.error)
    else
      Success(d.(id := if d.id.Null? then Known(rec.sid) else d.id,
                 svmName := Known(svmName),
                 name := Known(name.value),
                 fullName := if rec.fullName != "" then Known(rec.fullName) else d.fullName,
                 description := if rec.description != "" then Known(rec.description) else d.description,
                 accountDisabled := Known(rec.accountDisabled)))
  }

  /** No part of a split holds the separator. */
  lemma SplitPartFree(s: string, sep: char, i: nat)
    requires i < |Split(s, sep)|
    ensures sep !in Split(s, sep)[i]
  {
    SplitSepFree(s, sep);
  }

  /** Reading twice from the same record gives the state of one read: the stored name normalises to itself. */
  lemma ReadIdempotent(d: LocalUser, rec: UserRecord, svmName: string)
    requires Read(d, rec, svmName).Success?
    ensures Read(Read(d, rec, svmName).value, rec, svmName) == Read(d, rec, svmName)
  {
    if '\\' !in Str(d.name) {
      SplitLength(rec.name, '\\');
      SplitPartFree(rec.name, '\\', 1);
    }
  }

  // ---------------------------------------------------------------- import

  // `ImportState` takes `name,svm_name,cx_profile_name`: `ImportId.ImportSvmScoped`.
}
