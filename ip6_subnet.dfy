/**
 * `solidserver_ip6_subnet`: an IPv6 subnet (or, without a parent block, an
 * IPv6 block) reserved by walking the free prefixes the inventory proposes.
 * The gateway is computed on unbounded integers.
 */
module Ip6Subnet {
  import opened Base
  import opened Text
  import opened ClassParams
  import opened Reservation
  import opened Gateway

  /** The configurable attributes of the resource. */
  datatype Config = Config(
    space: string,
    block: string,
    requestIp: string,
    prefixSize: int,
    gatewayOffset: int,
    name: string,
    terminal: bool,
    className: string,
    classParameters: map<string, string>)

  /** The inventory lookups that precede the candidate loop; the parent
      block is known by its id. */
  datatype Inventory = Inventory(
    siteIdByName: string -> Lookup<string>,
    subnetIdByName: (string, string) -> Lookup<string>,
    findBySize: (string, string, string, int) -> Lookup<seq<string>>)

  /** The inputs of the candidate loop: the site, the parent block's id
      ("" for none) and the free subnet addresses in hexadecimal form. */
  datatype Plan = Plan(siteId: string, parentId: string, candidates: seq<string>)

  /**
   * The lookups before the loop: the site, the parent block when one is
   * configured, the refusal of a terminal block, then the free candidates.
   */
  function Prepare(c: Config, inv: Inventory): (r: Lookup<Plan>)
    ensures inv.siteIdByName(c.space).LookupError? ==> r == LookupError(inv.siteIdByName(c.space).cause)
    ensures r.Found? ==> !(|c.block| == 0 && c.terminal)
    ensures r.Found? ==>
      && inv.siteIdByName(c.space) == Found(r.value.siteId)
      && (|c.block| > 0 ==> inv.subnetIdByName(r.value.siteId, c.block) == Found(r.value.parentId))
      && (|c.block| == 0 ==> r.value.parentId == "")
      && inv.findBySize(r.value.siteId, r.value.parentId, c.requestIp, c.prefixSize) == Found(r.value.candidates)
  {
    match inv.siteIdByName(c.space)
    case LookupError(cause) => LookupError(cause)
    case Found(siteId) =>
      var parent := if |c.block| > 0 then inv.subnetIdByName(siteId, c.block) else Found("");
      if parent.LookupError? then LookupError(parent.cause)
      else if |c.block| == 0 && c.terminal then LookupError("Can't create a terminal IPv6 block subnet: " + c.name)
      else match inv.findBySize(siteId, parent.value, c.requestIp, c.prefixSize)
        case LookupError(cause) => LookupError(cause)
        case Found(candidates) => Found(Plan(siteId, parent.value, candidates))
  }

  /** A block cannot be terminal: the create fails before any search. */
  lemma TerminalBlockRefused(c: Config, inv: Inventory)
    requires |c.block| == 0 && c.terminal && inv.siteIdByName(c.space).Found?
    ensures Prepare(c, inv) == LookupError("Can't create a terminal IPv6 block subnet: " + c.name)
  {
  }

  /** The candidates parse as hexadecimal numbers wherever a gateway is
      computed from them (`big.Int.SetString` would fail otherwise). */
  predicate Parsable(c: Config, candidates: seq<string>)
  {
    c.gatewayOffset != 0 ==> forall i :: 0 <= i < |candidates| ==> IsHexString(candidates[i])
  }

  /** The gateway address of a candidate, as a number. */
  function GatewayValue(h: Helpers, c: Config, candidate: string): int
    requires c.gatewayOffset != 0 && IsHexString(candidate)
  {
    Gateway6(HexValue(candidate), h.prefix6LengthToSize(c.prefixSize), c.gatewayOffset)
  }

  /** The gateway address of a candidate, in IPv6 text form. */
  function CandidateGateway(h: Helpers, c: Config, candidate: string): string
    requires c.gatewayOffset != 0 && IsHexString(candidate)
  {
    h.hexIp6ToIp6(h.bigIntToHexStr(GatewayValue(h, c, candidate)))
  }

  /** The class parameters the provider sets itself: the gateway, when an offset is configured. */
  function EngineTags(h: Helpers, c: Config, candidate: string): ParsedQuery
    requires c.gatewayOffset != 0 ==> IsHexString(candidate)
  {
    if c.gatewayOffset != 0 then map["gateway" := [CandidateGateway(h, c, candidate)]] else map[]
  }

  /** Where the new subnet goes: a block is created at level 0; a subnet is
      placed at the end of its parent block. */
  function Placement(c: Config): map<string, string>
  {
    if |c.block| == 0 then map["subnet_level" := "0"]
    else map["use_reversed_relative_position" := "1", "relative_position" := "0"]
  }

  /** `is_terminal` as the inventory writes it. */
  function TerminalFlag(terminal: bool): string
  {
    if terminal then "1" else "0"
  }

  /** The class parameters a creation request sends for a candidate: the
      provider's own first, then the configured ones. */
  function SentTags(h: Helpers, c: Config, candidate: string): Query
    requires c.gatewayOffset != 0 ==> IsHexString(candidate)
  {
    Appended(EngineTags(h, c, candidate), c.classParameters)
  }

  /** The creation request for one candidate. */
  function AddRequest(h: Helpers, c: Config, plan: Plan, candidate: string): Request
    requires c.gatewayOffset != 0 ==> IsHexString(candidate)
  {
    Request("post", "rest/ip6_subnet6_add",
      map[
        "site_id" := plan.siteId,
        "add_flag" := "new_only",
        "subnet6_name" := c.name,
        "subnet6_addr" := h.hexIp6ToIp6(candidate),
        "subnet6_prefix" := Itoa(c.prefixSize),
        "subnet6_class_name" := c.className,
        "is_terminal" := TerminalFlag(c.terminal)] + Placement(c),
      SentTags(h, c, candidate))
  }

  /** One creation request per candidate, in the inventory's order. */
  function AddRequests(h: Helpers, c: Config, plan: Plan): (reqs: seq<Request>)
    requires Parsable(c, plan.candidates)
    ensures |reqs| == |plan.candidates|
  {
    seq(|plan.candidates|, i requires 0 <= i < |plan.candidates| => AddRequest(h, c, plan, plan.candidates[i]))
  }

  /**
   * The tags of a creation request: a configured offset puts the computed
   * gateway first under `gateway`, ahead of any configured `gateway` tag,
   * and every other configured tag reads back as configured.
   */
  lemma SentTagsReadBack(h: Helpers, c: Config, candidate: string)
    requires c.gatewayOffset != 0 ==> IsHexString(candidate)
    ensures var q := SentTags(h, c, candidate);
      && (forall k :: k in q ==> |q[k]| > 0)
      && ("gateway" in q <==> c.gatewayOffset != 0 || "gateway" in c.classParameters)
      && (c.gatewayOffset != 0 ==> q["gateway"][0] == CandidateGateway(h, c, candidate))
      && (forall k :: k in c.classParameters && (k != "gateway" || c.gatewayOffset == 0) ==>
            Reconciled(c.classParameters, q)[k] == c.classParameters[k])
  {
    ReadBackSent(EngineTags(h, c, candidate), c.classParameters);
  }

  /** Without a gateway tag set both by the provider and by the
      configuration, a read of the sent tags reports the configuration. */
  lemma SentTagsUnchanged(h: Helpers, c: Config, candidate: string)
    requires c.gatewayOffset != 0 ==> IsHexString(candidate)
    requires c.gatewayOffset == 0 || "gateway" !in c.classParameters
    ensures Reconciled(c.classParameters, SentTags(h, c, candidate)) == c.classParameters
  {
    var engine := EngineTags(h, c, candidate);
    assert forall k :: k in c.classParameters ==> k !in engine;
    ReadBackDisjoint(engine, c.classParameters);
  }

  /**
   * Under the codec's size law, an offset k in 1..size-1 lands on
   * start + k, an offset -k with k in 1..size on start + size - k, so
   * inside the candidate's block; -1 gives its last address.
   */
  lemma GatewayInCandidateBlock(h: Helpers, c: Config, candidate: string)
    requires SizeLaw6(h) && 0 <= c.prefixSize <= 128 && IsHexString(candidate)
    requires c.gatewayOffset != 0
    requires c.gatewayOffset > 0 ==> c.gatewayOffset < Pow2(128 - c.prefixSize)
    requires c.gatewayOffset < 0 ==> Abs(c.gatewayOffset) <= Pow2(128 - c.prefixSize)
    ensures var start := HexValue(candidate);
      && start <= GatewayValue(h, c, candidate) < start + Pow2(128 - c.prefixSize)
      && (c.gatewayOffset > 0 ==> GatewayValue(h, c, candidate) == start + c.gatewayOffset)
      && (c.gatewayOffset == -1 ==> GatewayValue(h, c, candidate) == start + Pow2(128 - c.prefixSize) - 1)
  {
    Gateway6InBlock(HexValue(candidate), Pow2(128 - c.prefixSize), c.gatewayOffset);
  }

  /** The fields a read or an import needs from the subnet's record. */
  const ReadKeys: set<string> :=
    {"site_name", "parent_subnet6_name", "subnet6_name", "subnet6_class_name", "is_terminal", "subnet6_class_parameters"}

  /** The configuration after a read or an import of `rec`. */
  function ReadBack(h: Helpers, c: Config, rec: Record): Config
    requires ReadKeys <= rec.Keys
  {
    c.(space := rec["site_name"],
       block := rec["parent_subnet6_name"],
       name := rec["subnet6_name"],
       className := rec["subnet6_class_name"],
       terminal := rec["is_terminal"] == "1",
       classParameters := Reconciled(c.classParameters, h.parseQuery(rec["subnet6_class_parameters"])))
  }

  /** A record that echoes every configured attribute reads back as `c`. */
  lemma EchoedRecord(h: Helpers, c: Config, rec: Record)
    requires ReadKeys <= rec.Keys
    requires rec["site_name"] == c.space && rec["parent_subnet6_name"] == c.block
    requires rec["subnet6_name"] == c.name && rec["subnet6_class_name"] == c.className
    requires rec["is_terminal"] == TerminalFlag(c.terminal)
    requires Reconciled(c.classParameters, h.parseQuery(rec["subnet6_class_parameters"])) == c.classParameters
    ensures ReadBack(h, c, rec) == c
  {
  }

  /**
   * No drift: reading back the record of a subnet created from `c`, whose
   * tags the inventory stored as sent, yields `c` again, unless a
   * configured `gateway` tag was overridden by the computed gateway.
   */
  lemma ReadAfterCreate(h: Helpers, c: Config, candidate: string, rec: Record)
    requires c.gatewayOffset != 0 ==> IsHexString(candidate)
    requires ReadKeys <= rec.Keys
    requires rec["site_name"] == c.space && rec["parent_subnet6_name"] == c.block
    requires rec["subnet6_name"] == c.name && rec["subnet6_class_name"] == c.className
    requires rec["is_terminal"] == TerminalFlag(c.terminal)
    requires h.parseQuery(rec["subnet6_class_parameters"]) == SentTags(h, c, candidate)
    requires c.gatewayOffset == 0 || "gateway" !in c.classParameters
    ensures ReadBack(h, c, rec) == c
  {
    SentTagsUnchanged(h, c, candidate);
    EchoedRecord(h, c, rec);
  }

  /** The gateway's address release, which the subnet delete sends first. */
  function GatewayDeleteRequest(space: string, gateway: string): Request
  {
    Request("delete", "rest/ip6_address6_delete", map["site_name" := space, "hostaddr" := gateway], map[])
  }

  /** The read request for the subnet `id`. */
  function InfoRequest(id: string): Request
  {
    Request("get", "rest/ip6_block6_subnet6_info", map["subnet6_id" := id], map[])
  }

  /** The resource's state: its configuration, its id and its computed attributes. */
  class Subnet6 {
    var id: string
    var config: Config
    var prefix: string
    var address: string
    var gateway: string

    constructor (config: Config)
      ensures this.config == config
      ensures id == "" && prefix == "" && address == "" && gateway == ""
    {
      id := "";
      this.config := config;
      prefix := "";
      address := "";
      gateway := "";
    }

    /**
     * The create handler. `replies[i]` answers the creation request for
     * candidate `i`. On success the subnet's id and computed attributes
     * are those of the winning candidate; on failure nothing changes.
     */
    method Create(h: Helpers, inv: Inventory, replies: seq<Reply>) returns (d: Diag, sent: seq<Request>)
      requires Prepare(config, inv).Found? ==>
        && Parsable(config, Prepare(config, inv).value.candidates)
        && |replies| >= |Prepare(config, inv).value.candidates|
      modifies this`id, this`prefix, this`address, this`gateway
      ensures Prepare(config, inv).LookupError? ==>
        d == Error(Prepare(config, inv).cause) && sent == [] && unchanged(this)
      ensures Prepare(config, inv).Found? ==>
        var plan := Prepare(config, inv).value;
        var v := Decide(replies[..|plan.candidates|]);
        && sent == AddRequests(h, config, plan)[..Attempts(v, |plan.candidates|)]
        && (v.Reserved? ==>
              var a := h.hexIp6ToIp6(plan.candidates[v.index]);
              && d == Ok && id == v.oid && address == a
              && prefix == FormatPrefix(a, config.prefixSize)
              && gateway == (if config.gatewayOffset != 0 then CandidateGateway(h, config, plan.candidates[v.index]) else old(gateway)))
        && (v.Aborted? ==> d == Error(v.cause) && unchanged(this))
        && (v.Exhausted? ==>
              d == Error("Unable to create IPv6 subnet: " + config.name + ", unable to find a suitable prefix\n")
              && unchanged(this))
    {
      var p := Prepare(config, inv);
      if p.LookupError? {
        d := Error(p.cause);
        sent := [];
        return;
      }
      var plan := p.value;
      var v;
      v, sent := Reserve(AddRequests(h, config, plan), replies);
      match v
      case Reserved(i, oid) =>
        var a := h.hexIp6ToIp6(plan.candidates[i]);
        id := oid;
        prefix := FormatPrefix(a, config.prefixSize);
        address := a;
        if config.gatewayOffset != 0 {
          gateway := CandidateGateway(h, config, plan.candidates[i]);
        }
        d := Ok;
      case Aborted(_, cause) =>
        d := Error(cause);
      case Exhausted =>
        d := Error("Unable to create IPv6 subnet: " + config.name + ", unable to find a suitable prefix\n");
    }

    /** Releases the gateway address. */
    method GatewayDelete(r: Reply) returns (d: Diag, sent: seq<Request>)
      ensures sent == [GatewayDeleteRequest(config.space, gateway)]
      ensures d == ReleaseDiag(r)
    {
      sent := [GatewayDeleteRequest(config.space, gateway)];
      if r.TransportError? {
        d := Error(r.cause);
      } else {
        d := Ok;
      }
    }

    /**
     * The delete handler: with a gateway offset the gateway release goes
     * first and its outcome is ignored; the subnet's id is cleared exactly
     * when its own deletion succeeds.
     */
    method Delete(gatewayReply: Reply, r: Reply) returns (d: Diag, sent: seq<Request>)
      modifies this`id
      ensures sent == (if config.gatewayOffset != 0 then [GatewayDeleteRequest(config.space, gateway)] else [])
        + [Request("delete", "rest/ip6_subnet6_delete", map["subnet6_id" := old(id)], map[])]
      ensures d == DeleteDiag(r, "Unable to delete IPv6 subnet : " + config.name)
      ensures id == if d.Ok? then "" else old(id)
    {
      sent := [];
      if config.gatewayOffset != 0 {
        var _, gatewaySent := GatewayDelete(gatewayReply);
        sent := gatewaySent;
      }
      sent := sent + [Request("delete", "rest/ip6_subnet6_delete", map["subnet6_id" := id], map[])];
      d := DeleteDiag(r, "Unable to delete IPv6 subnet : " + config.name);
      if d.Ok? {
        id := "";
      }
    }

    /** Applies a successful read answer: configuration and gateway. */
    method Refresh(h: Helpers, rec: Record)
      requires ReadKeys <= rec.Keys
      modifies this`config, this`gateway
      ensures config == ReadBack(h, old(config), rec)
      ensures var retrieved := h.parseQuery(rec["subnet6_class_parameters"]);
        gateway == if "gateway" in retrieved then First(retrieved, "gateway") else old(gateway)
    {
      var retrieved := h.parseQuery(rec["subnet6_class_parameters"]);
      if "gateway" in retrieved {
        gateway := First(retrieved, "gateway");
      }
      var computed := Reconcile(config.classParameters, retrieved);
      config := config.(space := rec["site_name"], block := rec["parent_subnet6_name"], name := rec["subnet6_name"],
        className := rec["subnet6_class_name"], terminal := rec["is_terminal"] == "1", classParameters := computed);
    }

    /**
     * The read handler: a 200 answer refreshes the configuration from the
     * record and the gateway from its `gateway` tag; any other answer fails
     * and keeps the id and the state.
     */
    method Read(h: Helpers, r: Reply) returns (d: Diag, sent: seq<Request>)
      requires Carries(r, ReadKeys)
      modifies this`config, this`gateway
      ensures sent == [InfoRequest(id)]
      ensures Fetched(r) ==>
        var retrieved := h.parseQuery(r.body[0]["subnet6_class_parameters"]);
        && d == Ok && config == ReadBack(h, old(config), r.body[0])
        && gateway == (if "gateway" in retrieved then First(retrieved, "gateway") else old(gateway))
      ensures r.TransportError? ==> d == Error(r.cause) && unchanged(this)
      ensures r.Answer? && !Fetched(r) ==> d == Error("Unable to find IPv6 subnet: " + config.name + "\n") && unchanged(this)
    {
      sent := [InfoRequest(id)];
      if r.TransportError? {
        d := Error(r.cause);
        return;
      }
      if Fetched(r) {
        Refresh(h, r.body[0]);
        d := Ok;
        return;
      }
      d := Error("Unable to find IPv6 subnet: " + config.name + "\n");
    }

    /** The import handler: the same refresh as a read; only the error
        message differs. */
    method Import(h: Helpers, r: Reply) returns (d: Diag, sent: seq<Request>)
      requires Carries(r, ReadKeys)
      modifies this`config, this`gateway
      ensures sent == [InfoRequest(id)]
      ensures Fetched(r) ==>
        var retrieved := h.parseQuery(r.body[0]["subnet6_class_parameters"]);
        && d == Ok && config == ReadBack(h, old(config), r.body[0])
        && gateway == (if "gateway" in retrieved then First(retrieved, "gateway") else old(gateway))
      ensures r.TransportError? ==> d == Error(r.cause) && unchanged(this)
      ensures r.Answer? && !Fetched(r) ==>
        d == Error("SOLIDServer - Unable to find and import IPv6 subnet (oid): " + id + "\n") && unchanged(this)
    {
      sent := [InfoRequest(id)];
      if r.TransportError? {
        d := Error(r.cause);
        return;
      }
      if Fetched(r) {
        Refresh(h, r.body[0]);
        d := Ok;
        return;
      }
      d := Error("SOLIDServer - Unable to find and import IPv6 subnet (oid): " + id + "\n");
    }
  }
}
