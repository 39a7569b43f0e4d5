/**
 * The VLAN resource: a VLAN of a VLAN domain, created with a requested
 * VLAN id or with the first free id the VLAN manager accepts, renamed in
 * place, deleted, read back and imported.
 */
module Vlan {
  import opened Base
  import opened Text
  import opened Reservation

  /** The configurable attributes: the domain, the requested id (0 for none) and the name. */
  datatype Config = Config(domain: string, requestId: int, name: string)

  /** A schema value behind Go's `interface{}`; `request_id` and `vlan_id` are declared as integers. */
  datatype SchemaValue = IntValue(i: int) | StringValue(s: string)

  /** Go's unchecked type assertion `v.(string)`: None stands for the run-time panic. */
  function AssertString(v: SchemaValue): (r: Option<string>)
    ensures r.Some? <==> v.StringValue?
    ensures r.Some? ==> r.value == v.s
  {
    match v
    case StringValue(s) => Some(s)
    case IntValue(_) => None
  }

  /**
   * The candidate VLAN ids as the create handler computes them: a positive
   * requested id is read back from the schema as a string, otherwise the
   * free ids of the domain are searched. None is the panic of that read.
   */
  function CandidatesAsWritten(c: Config, findFree: string -> Lookup<seq<string>>): Option<Lookup<seq<string>>>
  {
    if c.requestId > 0 then
      match AssertString(IntValue(c.requestId))
      case Some(s) => Some(Found([s]))
      case None => None
    else Some(findFree(c.domain))
  }

  /** The candidate VLAN ids as intended: a positive requested id is the only candidate. */
  function Candidates(c: Config, findFree: string -> Lookup<seq<string>>): Lookup<seq<string>>
  {
    if c.requestId > 0 then Found([Itoa(c.requestId)]) else findFree(c.domain)
  }

  /** Every create with a requested id panics as written. */
  lemma RequestedIdPanics(c: Config, findFree: string -> Lookup<seq<string>>)
    requires c.requestId > 0
    ensures CandidatesAsWritten(c, findFree) == None
  {
  }

  /** Without a requested id the written and the intended candidate lists agree. */
  lemma SearchUnaffected(c: Config, findFree: string -> Lookup<seq<string>>)
    requires c.requestId <= 0
    ensures CandidatesAsWritten(c, findFree) == Some(Candidates(c, findFree))
  {
  }

  /**
   * A requested id is the one and only candidate, written so that the
   * server reads back the very id requested, and the free-id search is
   * never consulted.
   */
  lemma RequestedIdIsSoleCandidate(c: Config, findFree: string -> Lookup<seq<string>>, other: string -> Lookup<seq<string>>)
    requires c.requestId > 0
    ensures Candidates(c, findFree) == Candidates(c, other)
    ensures Candidates(c, findFree).Found? && |Candidates(c, findFree).value| == 1
    ensures Atoi(Candidates(c, findFree).value[0]) == Some(c.requestId)
  {
    ItoaRoundTrip(c.requestId);
  }

  /** The creation request for candidate id `vlanId`. */
  function AddRequest(c: Config, vlanId: string): Request
  {
    Request("post", "rest/vlm_vlan_add",
      map["add_flag" := "new_only", "vlmdomain_name" := c.domain, "vlmvlan_vlan_id" := vlanId, "vlmvlan_name" := c.name],
      map[])
  }

  /** One creation request per candidate, in candidate order. */
  function AddRequests(c: Config, ids: seq<string>): (rs: seq<Request>)
    ensures |rs| == |ids|
    ensures forall i :: 0 <= i < |ids| ==> rs[i] == AddRequest(c, ids[i])
  {
    seq(|ids|, i requires 0 <= i < |ids| => AddRequest(c, ids[i]))
  }

  /** How `vlan_id` is written into a request, and how the read handler parses it back. */
  function EncodeVlanId(n: int): string { Itoa(n) }

  function DecodeVlanId(s: string): int { AtoiOrZero(s) }

  /** The VLAN id survives the trip through the server's string field. */
  lemma VlanIdRoundTrip(n: int)
    ensures DecodeVlanId(EncodeVlanId(n)) == n
  {
    ItoaRoundTrip(n);
  }

  /** The update request as written: reading `vlan_id` as a string panics (None). */
  function UpdateRequestAsWritten(id: string, c: Config, vlanId: int): Option<Request>
  {
    match AssertString(IntValue(vlanId))
    case Some(s) =>
      Some(Request("put", "rest/vlm_vlan_add",
        map["vlmvlan_id" := id, "add_flag" := "edit_only", "vlmvlan_vlan_id" := s, "vlmvlan_name" := c.name],
        map[]))
    case None => None
  }

  /** Every update panics as written, whatever the VLAN. */
  lemma UpdatePanics(id: string, c: Config, vlanId: int)
    ensures UpdateRequestAsWritten(id, c, vlanId) == None
  {
  }

  /** The update request as intended: the current VLAN id, written in decimal. */
  function UpdateRequest(id: string, c: Config, vlanId: int): Request
  {
    Request("put", "rest/vlm_vlan_add",
      map["vlmvlan_id" := id, "add_flag" := "edit_only", "vlmvlan_vlan_id" := EncodeVlanId(vlanId), "vlmvlan_name" := c.name],
      map[])
  }

  /** An update keeps the VLAN id: what it sends reads back as the id it was given. */
  lemma UpdateKeepsVlanId(id: string, c: Config, vlanId: int)
    ensures "vlmvlan_vlan_id" in UpdateRequest(id, c, vlanId).params
    ensures DecodeVlanId(UpdateRequest(id, c, vlanId).params["vlmvlan_vlan_id"]) == vlanId
  {
    VlanIdRoundTrip(vlanId);
  }

  /**
   * The verdict of the delete handler, laxer than the other resources': the
   * deletion fails only when the status is not 204 and the server sent an
   * `errmsg`; a refusal without a message counts as success.
   */
  function DeleteVerdict(r: Reply, name: string): (d: Diag)
    ensures r.TransportError? ==> d == Error(r.cause)
    ensures r.Answer? ==> (d.Ok? <==> r.status == 204 || ErrMsg(r).None?)
    ensures r.Answer? && !d.Ok? ==> d.message == "SOLIDServer - Unable to delete vlan : " + name + " (" + ErrMsg(r).value + ")"
  {
    if r.TransportError? then Error(r.cause)
    else if r.status != 204 && |r.body| > 0 && "errmsg" in r.body[0] then
      Error("SOLIDServer - Unable to delete vlan : " + name + " (" + r.body[0]["errmsg"] + ")")
    else Ok
  }

  /** A status-200 deletion that carries an `errmsg` fails for a VLAN although the subnet rule accepts it. */
  lemma DeleteStricterOn200(r: Reply, name: string, failure: string)
    requires r.Answer? && r.status == 200 && ErrMsg(r).Some?
    ensures DeleteDiag(r, failure).Ok? && !DeleteVerdict(r, name).Ok?
  {
  }

  /** A refusal without `errmsg` fails for a subnet but succeeds for a VLAN. */
  lemma DeleteLaxerOnSilentRefusal(r: Reply, name: string, failure: string)
    requires r.Answer? && r.status != 200 && r.status != 204 && ErrMsg(r).None?
    ensures !DeleteDiag(r, failure).Ok? && DeleteVerdict(r, name).Ok?
  {
  }

  /** The read request for the VLAN with object id `id`. */
  function InfoRequest(id: string): Request
  {
    Request("get", "rest/vlmvlan_info", map["vlmvlan_id" := id], map[])
  }

  /** The fields the read handler asserts as strings. */
  const ReadKeys: set<string> := {"vlmvlan_name", "vlmvlan_vlan_id"}

  class Vlan {
    var id: string
    var config: Config
    var vlanId: int

    constructor (config: Config)
      ensures this.config == config && id == "" && vlanId == 0
    {
      id := "";
      this.config := config;
      vlanId := 0;
    }

    /**
     * The existence check: a 200 or 201 answer with a record means the VLAN
     * exists; any other answer forgets the id; a transport failure is
     * reported and keeps it.
     */
    method Exists(r: Reply) returns (found: bool, d: Diag, sent: seq<Request>)
      modifies this`id
      ensures sent == [InfoRequest(old(id))]
      ensures found <==> Accepted(r)
      ensures d == if r.TransportError? then Error(r.cause) else Ok
      ensures id == if r.Answer? && !Accepted(r) then "" else old(id)
    {
      sent := [InfoRequest(id)];
      if r.TransportError? {
        found, d := false, Error(r.cause);
        return;
      }
      found, d := Accepted(r), Ok;
      if !found {
        id := "";
      }
    }

    /**
     * The create handler, with the intended candidate list. `replies[i]`
     * answers the creation request for candidate `i`; the first candidate
     * the server accepts with an object id becomes the VLAN's id.
     */
    method Create(findFree: string -> Lookup<seq<string>>, replies: seq<Reply>) returns (d: Diag, sent: seq<Request>)
      requires Candidates(config, findFree).Found? ==> |replies| >= |Candidates(config, findFree).value|
      modifies this`id
      ensures Candidates(config, findFree).LookupError? ==>
        d == Error(Candidates(config, findFree).cause) && sent == [] && id == old(id)
      ensures Candidates(config, findFree).Found? ==>
        var ids := Candidates(config, findFree).value;
        var v := Decide(replies[..|ids|]);
        && sent == AddRequests(config, ids)[..Attempts(v, |ids|)]
        && (v.Reserved? ==> d == Ok && id == v.oid)
        && (v.Aborted? ==> d == Error(v.cause) && id == old(id))
        && (v.Exhausted? ==> d == Error("SOLIDServer - Unable to create vlan: " + config.name + "\n") && id == old(id))
    {
      var candidates := Candidates(config, findFree);
      if candidates.LookupError? {
        d := Error(candidates.cause);
        sent := [];
        return;
      }
      var v;
      v, sent := Reserve(AddRequests(config, candidates.value), replies);
      match v
      case Reserved(_, oid) =>
        id := oid;
        d := Ok;
      case Aborted(_, cause) =>
        d := Error(cause);
      case Exhausted =>
        d := Error("SOLIDServer - Unable to create vlan: " + config.name + "\n");
    }

    /** The update handler, with the intended request: an accepted answer with an object id becomes the VLAN's id. */
    method Update(r: Reply) returns (d: Diag, sent: seq<Request>)
      modifies this`id
      ensures sent == [UpdateRequest(old(id), config, vlanId)]
      ensures RetOid(r).Some? ==> d == Ok && id == RetOid(r).value
      ensures r.TransportError? ==> d == Error(r.cause) && id == old(id)
      ensures r.Answer? && RetOid(r).None? ==>
        d == Error("SOLIDServer - Unable to update vlan: " + config.name + "\n") && id == old(id)
    {
      sent := [UpdateRequest(id, config, vlanId)];
      if r.TransportError? {
        d := Error(r.cause);
        return;
      }
      var oid := RetOid(r);
      if oid.Some? {
        id := oid.value;
        d := Ok;
        return;
      }
      d := Error("SOLIDServer - Unable to update vlan: " + config.name + "\n");
    }

    /** The delete handler: the id is cleared exactly when the verdict is success. */
    method Delete(r: Reply) returns (d: Diag, sent: seq<Request>)
      modifies this`id
      ensures sent == [Request("delete", "rest/vlm_vlan_delete", map["vlmvlan_id" := old(id)], map[])]
      ensures d == DeleteVerdict(r, config.name)
      ensures id == if d.Ok? then "" else old(id)
    {
      sent := [Request("delete", "rest/vlm_vlan_delete", map["vlmvlan_id" := id], map[])];
      d := DeleteVerdict(r, config.name);
      if d.Ok? {
        id := "";
      }
    }

    /**
     * The read handler: a 200 answer refreshes the name and parses the VLAN
     * id (0 when it is not a number); any other answer fails and keeps the id.
     */
    method Read(r: Reply) returns (d: Diag, sent: seq<Request>)
      requires Carries(r, ReadKeys)
      modifies this`config, this`vlanId
      ensures sent == [InfoRequest(id)]
      ensures Fetched(r) ==>
        && d == Ok && config == old(config).(name := r.body[0]["vlmvlan_name"])
        && vlanId == DecodeVlanId(r.body[0]["vlmvlan_vlan_id"])
      ensures r.TransportError? ==> d == Error(r.cause) && unchanged(this)
      ensures r.Answer? && !Fetched(r) ==> d == Error("SOLIDServer - Unable to find vlan: " + config.name + "\n") && unchanged(this)
    {
      sent := [InfoRequest(id)];
      if r.TransportError? {
        d := Error(r.cause);
        return;
      }
      if Fetched(r) {
        vlanId := DecodeVlanId(r.body[0]["vlmvlan_vlan_id"]);
        config := config.(name := r.body[0]["vlmvlan_name"]);
        d := Ok;
        return;
      }
      d := Error("SOLIDServer - Unable to find vlan: " + config.name + "\n");
    }

    /** The import handler: a 200 answer refreshes the name only. */
    method Import(r: Reply) returns (d: Diag, sent: seq<Request>)
      requires Fetched(r) ==> "vlmvlan_name" in r.body[0]
      modifies this`config
      ensures sent == [InfoRequest(id)]
      ensures Fetched(r) ==> d == Ok && config == old(config).(name := r.body[0]["vlmvlan_name"])
      ensures r.TransportError? ==> d == Error(r.cause) && unchanged(this)
      ensures r.Answer? && !Fetched(r) ==>
        d == Error("SOLIDServer - Unable to find and import vlan (oid): " + id + "\n") && unchanged(this)
    {
      sent := [InfoRequest(id)];
      if r.TransportError? {
        d := Error(r.cause);
        return;
      }
      if Fetched(r) {
        config := config.(name := r.body[0]["vlmvlan_name"]);
        d := Ok;
        return;
      }
      d := Error("SOLIDServer - Unable to find and import vlan (oid): " + id + "\n");
    }
  }
}
