/**
 * The application resource (traffic policies of the GSLB servers): an
 * application named by its FQDN, served by a list of GSLB members. The
 * object type exists from SOLIDserver version 7.1 (710) onwards; every
 * handler refuses older servers before sending anything.
 */
module Application {
  import opened Base
  import opened Text
  import opened ClassParams

  datatype Config = Config(name: string, fqdn: string, gslbMembers: seq<string>,
                           className: string, classParameters: map<string, string>)

  /** The first server version that knows applications. */
  const MinVersion: int := 710

  const Unsupported: string := "Object not supported in this SOLIDserver version"

  /** The version gate: Ok exactly when the server knows applications. */
  function VersionGate(version: int, message: string): (d: Diag)
    ensures d.Ok? <==> version >= MinVersion
    ensures !d.Ok? ==> d.message == message
  {
    if version < MinVersion then Error(message) else Ok
  }

  /**
   * The GSLB member list as the create and update handlers send it, built
   * by appending each member followed by ";".
   */
  method JoinMembers(members: seq<string>) returns (list: string)
    ensures list == Terminated(members, ';')
  {
    list := "";
    var i := 0;
    while i < |members|
      invariant 0 <= i <= |members|
      invariant list == Terminated(members[..i], ';')
    {
      TerminatedSnoc(members[..i], members[i], ';');
      assert members[..i + 1] == members[..i] + [members[i]];
      list := list + members[i] + ";";
      i := i + 1;
    }
    assert members[..i] == members;
  }

  /** What the member list says: no member gives "", and every member is followed by ";". */
  lemma {:induction false} MemberListShape(members: seq<string>)
    ensures members == [] <==> Terminated(members, ';') == ""
    ensures members != [] ==> var t := Terminated(members, ';'); t[|t| - 1] == ';'
    ensures members != [] ==> var t := Terminated(members, ';'); t[..|members[0]|] == members[0]
  {
    if members != [] {
      TerminatedEndsWith(members, ';');
      var t := Terminated(members, ';');
      assert t == members[0] + ([';'] + Terminated(members[1..], ';'));
    }
  }

  /** The member list decodes back into the members, when none of them contains ";". */
  lemma MemberListDecodes(members: seq<string>)
    requires |members| > 0
    requires forall i :: 0 <= i < |members| ==> ';' !in members[i]
    ensures Split(TrimSuffix(Terminated(members, ';'), ';'), ';') == members
  {
    SplitTerminated(members, ';');
  }

  /** The server's member list, read as the handlers read it: one trailing "," dropped, then split on ",". */
  function RemoteMembers(list: string): (members: seq<string>)
    ensures |members| > 0
  {
    Split(TrimSuffix(list, ','), ',')
  }

  /** A comma-terminated report of the members reads back as those members. */
  lemma RemoteMembersRecovered(members: seq<string>)
    requires |members| > 0
    requires forall i :: 0 <= i < |members| ==> ',' !in members[i]
    ensures RemoteMembers(Terminated(members, ',')) == members
  {
    SplitTerminated(members, ',');
  }

  /** The members an import reports: the remote list when it is not empty, otherwise those already known. */
  function ImportedMembers(list: string, known: seq<string>): (members: seq<string>)
    ensures list == "" ==> members == known
    ensures list != "" ==> members == RemoteMembers(list)
  {
    if list != "" then RemoteMembers(list) else known
  }

  function AddRequest(h: Helpers, c: Config, list: string): Request
  {
    Request("post", "rest/app_application_add",
      map["add_flag" := "new_only", "name" := c.name, "fqdn" := c.fqdn,
          "appapplication_class_name" := c.className, "gslbserver_list" := list],
      h.urlFromClassParams(c.classParameters))
  }

  function UpdateRequest(h: Helpers, id: string, c: Config, list: string): Request
  {
    Request("put", "rest/app_application_add",
      map["appapplication_id" := id, "add_flag" := "edit_only", "name" := c.name, "fqdn" := c.fqdn,
          "appapplication_class_name" := c.className, "gslbserver_list" := list],
      h.urlFromClassParams(c.classParameters))
  }

  function InfoRequest(id: string): Request
  {
    Request("get", "rest/app_application_info", map["appapplication_id" := id], map[])
  }

  /** The fields the read and import handlers assert as strings. */
  const ReadKeys: set<string> :=
    {"appapplication_name", "appapplication_fqdn", "appapplication_class_name",
     "appapplication_gslbserver_list", "appapplication_class_parameters"}

  /** The configuration after a read of `rec`: the members are merged with the known ones by the list-merge helper. */
  function ReadBack(h: Helpers, c: Config, rec: Record): (c': Config)
    requires ReadKeys <= rec.Keys
    ensures c'.classParameters.Keys == c.classParameters.Keys
  {
    c.(name := rec["appapplication_name"], fqdn := rec["appapplication_fqdn"],
       className := rec["appapplication_class_name"],
       gslbMembers := h.typeListConsistentMerge(c.gslbMembers, RemoteMembers(rec["appapplication_gslbserver_list"])),
       classParameters := Reconciled(c.classParameters, h.parseQuery(rec["appapplication_class_parameters"])))
  }

  /** The configuration after an import of `rec`: the members are replaced by the remote list, unless it is empty. */
  function Imported(h: Helpers, c: Config, rec: Record): (c': Config)
    requires ReadKeys <= rec.Keys
    ensures c'.classParameters.Keys == c.classParameters.Keys
  {
    c.(name := rec["appapplication_name"], fqdn := rec["appapplication_fqdn"],
       className := rec["appapplication_class_name"],
       gslbMembers := ImportedMembers(rec["appapplication_gslbserver_list"], c.gslbMembers),
       classParameters := Reconciled(c.classParameters, h.parseQuery(rec["appapplication_class_parameters"])))
  }

  /**
   * Importing an application whose server record lists its members
   * comma-terminated and echoes its tags recovers the whole configuration.
   */
  lemma ImportRecoversConfig(h: Helpers, c: Config, rec: Record)
    requires ReadKeys <= rec.Keys
    requires rec["appapplication_name"] == c.name && rec["appapplication_fqdn"] == c.fqdn
    requires rec["appapplication_class_name"] == c.className
    requires |c.gslbMembers| > 0 && forall i :: 0 <= i < |c.gslbMembers| ==> ',' !in c.gslbMembers[i]
    requires rec["appapplication_gslbserver_list"] == Terminated(c.gslbMembers, ',')
    requires forall k :: k in c.classParameters ==>
      var q := h.parseQuery(rec["appapplication_class_parameters"]); k in q && First(q, k) == c.classParameters[k]
    ensures Imported(h, c, rec) == c
  {
    RemoteMembersRecovered(c.gslbMembers);
    MemberListShape(c.gslbMembers);
    ReconciledIdentity(c.classParameters, h.parseQuery(rec["appapplication_class_parameters"]));
  }

  class App {
    var id: string
    var config: Config

    constructor (config: Config)
      ensures this.config == config && id == ""
    {
      id := "";
      this.config := config;
    }

    /** The create handler: an old server is refused before anything is sent. */
    method Create(h: Helpers, version: int, r: Reply) returns (d: Diag, sent: seq<Request>)
      modifies this`id
      ensures version < MinVersion ==> d == Error(Unsupported) && sent == [] && id == old(id)
      ensures version >= MinVersion ==>
        && sent == [AddRequest(h, config, Terminated(config.gslbMembers, ';'))]
        && d == SubmitDiag(r, "Unable to create application: " + config.name)
        && id == if d.Ok? then RetOid(r).value else old(id)
    {
      var list := JoinMembers(config.gslbMembers);
      var gate := VersionGate(version, Unsupported);
      if !gate.Ok? {
        d, sent := gate, [];
        return;
      }
      sent := [AddRequest(h, config, list)];
      d := SubmitDiag(r, "Unable to create application: " + config.name);
      if d.Ok? {
        id := RetOid(r).value;
      }
    }

    /** The update handler: an old server is refused before anything is sent. */
    method Update(h: Helpers, version: int, r: Reply) returns (d: Diag, sent: seq<Request>)
      modifies this`id
      ensures version < MinVersion ==> d == Error(Unsupported) && sent == [] && id == old(id)
      ensures version >= MinVersion ==>
        && sent == [UpdateRequest(h, old(id), config, Terminated(config.gslbMembers, ';'))]
        && d == SubmitDiag(r, "Unable to update application: " + config.name)
        && id == if d.Ok? then RetOid(r).value else old(id)
    {
      var list := JoinMembers(config.gslbMembers);
      var gate := VersionGate(version, Unsupported);
      if !gate.Ok? {
        d, sent := gate, [];
        return;
      }
      sent := [UpdateRequest(h, id, config, list)];
      d := SubmitDiag(r, "Unable to update application: " + config.name);
      if d.Ok? {
        id := RetOid(r).value;
      }
    }

    /** The delete handler: success exactly on status 200 or 204, which clears the id. */
    method Delete(version: int, r: Reply) returns (d: Diag, sent: seq<Request>)
      modifies this`id
      ensures version < MinVersion ==> d == Error(Unsupported) && sent == [] && id == old(id)
      ensures version >= MinVersion ==>
        && sent == [Request("delete", "rest/app_application_delete", map["appapplication_id" := old(id)], map[])]
        && d == DeleteDiag(r, "Unable to delete application: " + config.name)
        && id == if d.Ok? then "" else old(id)
    {
      var gate := VersionGate(version, Unsupported);
      if !gate.Ok? {
        d, sent := gate, [];
        return;
      }
      sent := [Request("delete", "rest/app_application_delete", map["appapplication_id" := id], map[])];
      d := DeleteDiag(r, "Unable to delete application: " + config.name);
      if d.Ok? {
        id := "";
      }
    }

    /** The read handler: a 200 answer refreshes the configuration; any other answer fails and keeps it. */
    method Read(h: Helpers, version: int, r: Reply) returns (d: Diag, sent: seq<Request>)
      requires Carries(r, ReadKeys)
      modifies this`config
      ensures version < MinVersion ==> d == Error(Unsupported) && sent == [] && unchanged(this)
      ensures version >= MinVersion ==> sent == [InfoRequest(id)]
      ensures version >= MinVersion && Fetched(r) ==> d == Ok && config == ReadBack(h, old(config), r.body[0])
      ensures version >= MinVersion && r.TransportError? ==> d == Error(r.cause) && unchanged(this)
      ensures version >= MinVersion && r.Answer? && !Fetched(r) ==>
        d == Error("Unable to find application: " + config.name + "\n") && unchanged(this)
    {
      var gate := VersionGate(version, Unsupported);
      if !gate.Ok? {
        d, sent := gate, [];
        return;
      }
      sent := [InfoRequest(id)];
      if r.TransportError? {
        d := Error(r.cause);
        return;
      }
      if Fetched(r) {
        var rec := r.body[0];
        var remote := RemoteMembers(rec["appapplication_gslbserver_list"]);
        var computed := Reconcile(config.classParameters, h.parseQuery(rec["appapplication_class_parameters"]));
        config := config.(name := rec["appapplication_name"], fqdn := rec["appapplication_fqdn"],
          className := rec["appapplication_class_name"],
          gslbMembers := h.typeListConsistentMerge(config.gslbMembers, remote), classParameters := computed);
        d := Ok;
        return;
      }
      d := Error("Unable to find application: " + config.name + "\n");
    }

    /** The import handler: as the read, but the members are taken from the remote list when it is not empty. */
    method Import(h: Helpers, version: int, r: Reply) returns (d: Diag, sent: seq<Request>)
      requires Carries(r, ReadKeys)
      modifies this`config
      ensures version < MinVersion ==> d == Error("SOLIDServer - " + Unsupported) && sent == [] && unchanged(this)
      ensures version >= MinVersion ==> sent == [InfoRequest(id)]
      ensures version >= MinVersion && Fetched(r) ==> d == Ok && config == Imported(h, old(config), r.body[0])
      ensures version >= MinVersion && r.TransportError? ==> d == Error(r.cause) && unchanged(this)
      ensures version >= MinVersion && r.Answer? && !Fetched(r) ==>
        d == Error("SOLIDServer - Unable to find and import application (oid): " + id + "\n") && unchanged(this)
    {
      var gate := VersionGate(version, "SOLIDServer - " + Unsupported);
      if !gate.Ok? {
        d, sent := gate, [];
        return;
      }
      sent := [InfoRequest(id)];
      if r.TransportError? {
        d := Error(r.cause);
        return;
      }
      if Fetched(r) {
        var rec := r.body[0];
        var members := config.gslbMembers;
        if rec["appapplication_gslbserver_list"] != "" {
          members := RemoteMembers(rec["appapplication_gslbserver_list"]);
        }
        var computed := Reconcile(config.classParameters, h.parseQuery(rec["appapplication_class_parameters"]));
        config := config.(name := rec["appapplication_name"], fqdn := rec["appapplication_fqdn"],
          className := rec["appapplication_class_name"], gslbMembers := members, classParameters := computed);
        d := Ok;
        return;
      }
      d := Error("SOLIDServer - Unable to find and import application (oid): " + id + "\n");
    }
  }
}
