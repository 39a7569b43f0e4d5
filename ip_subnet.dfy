/**
 * `solidserver_ip_subnet`: an IPv4 subnet (or, without a parent block, an
 * IP block) reserved by walking the free prefixes the inventory proposes.
 */
module IpSubnet {
  import opened Base
  import opened Text
  import opened ClassParams
  import opened Reservation
  import opened Gateway

  /** The configurable attributes of the resource. */
  datatype Config = Config(
    space: string,
    block: string,
    requestIp: string,
    prefixSize: int,
    gatewayOffset: int,
    name: string,
    terminal: bool,
    className: string,
    classParameters: map<string, string>)

  /** What the inventory reports about the parent block: its id and its level. */
  datatype BlockInfo = BlockInfo(id: string, level: string)

  /** The inventory lookups that precede the candidate loop. */
  datatype Inventory = Inventory(
    siteIdByName: string -> Lookup<string>,
    subnetInfoByName: (string, string) -> Lookup<BlockInfo>,
    findBySize: (string, string, string, int) -> Lookup<seq<string>>)

  /** The inputs of the candidate loop: the site, the parent block and the
      free subnet addresses (in hexadecimal form). */
  datatype Plan = Plan(siteId: string, parent: BlockInfo, candidates: seq<string>)

  /**
   * The lookups before the loop: the site, the parent block when one is
   * configured, the refusal of a terminal block, then the free candidates
   * inside the parent (id "" for none).
   */
  function Prepare(c: Config, inv: Inventory): (r: Lookup<Plan>)
    ensures inv.siteIdByName(c.space).LookupError? ==> r == LookupError(inv.siteIdByName(c.space).cause)
    ensures r.Found? ==> !(|c.block| == 0 && c.terminal)
    ensures r.Found? ==>
      && inv.siteIdByName(c.space) == Found(r.value.siteId)
      && (|c.block| > 0 ==> inv.subnetInfoByName(r.value.siteId, c.block) == Found(r.value.parent))
      && (|c.block| == 0 ==> r.value.parent == BlockInfo("", ""))
      && inv.findBySize(r.value.siteId, r.value.parent.id, c.requestIp, c.prefixSize) == Found(r.value.candidates)
  {
    match inv.siteIdByName(c.space)
    case LookupError(cause) => LookupError(cause)
    case Found(siteId) =>
      var parent := if |c.block| > 0 then inv.subnetInfoByName(siteId, c.block) else Found(BlockInfo("", ""));
      if parent.LookupError? then LookupError(parent.cause)
      else if |c.block| == 0 && c.terminal then LookupError("Can't create a terminal IP block subnet: " + c.name)
      else match inv.findBySize(siteId, parent.value.id, c.requestIp, c.prefixSize)
        case LookupError(cause) => LookupError(cause)
        case Found(candidates) => Found(Plan(siteId, parent.value, candidates))
  }

  /** A block cannot be terminal: the create fails before any search. */
  lemma TerminalBlockRefused(c: Config, inv: Inventory)
    requires |c.block| == 0 && c.terminal && inv.siteIdByName(c.space).Found?
    ensures Prepare(c, inv) == LookupError("Can't create a terminal IP block subnet: " + c.name)
  {
  }

  /** `subnet_level`: 0 for a block, one below the parent otherwise (a
      level that does not parse counts as 0). */
  function SubnetLevel(c: Config, parent: BlockInfo): string
  {
    if |c.block| == 0 then "0" else Itoa(AtoiOrZero(parent.level) + 1)
  }

  /** The new subnet sits exactly one level below its parent block. */
  lemma SubnetLevelBelowParent(c: Config, parent: BlockInfo, level: int)
    requires |c.block| > 0 && Atoi(parent.level) == Some(level)
    ensures Atoi(SubnetLevel(c, parent)) == Some(level + 1)
  {
    ItoaRoundTrip(level + 1);
  }

  /** The gateway address of a candidate, as a uint32. */
  function GatewayValue(h: Helpers, c: Config, candidate: string): uint32
    requires c.gatewayOffset != 0
  {
    Gateway4(h.ipToLong(h.hexIpToIp(candidate)), h.prefixLengthToSize(c.prefixSize), c.gatewayOffset)
  }

  /** The gateway address of a candidate, in dotted form. */
  function CandidateGateway(h: Helpers, c: Config, candidate: string): string
    requires c.gatewayOffset != 0
  {
    h.longToIp(GatewayValue(h, c, candidate))
  }

  /** The class parameters the provider sets itself: the gateway, when an offset is configured. */
  function EngineTags(h: Helpers, c: Config, candidate: string): ParsedQuery
  {
    if c.gatewayOffset != 0 then map["gateway" := [CandidateGateway(h, c, candidate)]] else map[]
  }

  /** `is_terminal` as the inventory writes it. */
  function TerminalFlag(terminal: bool): string
  {
    if terminal then "1" else "0"
  }

  /** The class parameters a creation request sends for a candidate: the
      provider's own first, then the configured ones. */
  function SentTags(h: Helpers, c: Config, candidate: string): Query
  {
    Appended(EngineTags(h, c, candidate), c.classParameters)
  }

  /** The creation request for one candidate. */
  function AddRequest(h: Helpers, c: Config, plan: Plan, candidate: string): Request
  {
    Request("post", "rest/ip_subnet_add",
      map[
        "site_id" := plan.siteId,
        "add_flag" := "new_only",
        "subnet_name" := c.name,
        "subnet_addr" := h.hexIpToIp(candidate),
        "subnet_prefix" := Itoa(c.prefixSize),
        "subnet_class_name" := c.className,
        "subnet_level" := SubnetLevel(c, plan.parent),
        "is_terminal" := TerminalFlag(c.terminal)],
      SentTags(h, c, candidate))
  }

  /** One creation request per candidate, in the inventory's order. */
  function AddRequests(h: Helpers, c: Config, plan: Plan): (reqs: seq<Request>)
    ensures |reqs| == |plan.candidates|
  {
    seq(|plan.candidates|, i requires 0 <= i < |plan.candidates| => AddRequest(h, c, plan, plan.candidates[i]))
  }

  /**
   * The tags of a creation request: a configured offset puts the computed
   * gateway first under `gateway`, ahead of any configured `gateway` tag,
   * and every other configured tag reads back as configured.
   */
  lemma SentTagsReadBack(h: Helpers, c: Config, candidate: string)
    ensures var q := SentTags(h, c, candidate);
      && (forall k :: k in q ==> |q[k]| > 0)
      && ("gateway" in q <==> c.gatewayOffset != 0 || "gateway" in c.classParameters)
      && (c.gatewayOffset != 0 ==> q["gateway"][0] == CandidateGateway(h, c, candidate))
      && (forall k :: k in c.classParameters && (k != "gateway" || c.gatewayOffset == 0) ==>
            Reconciled(c.classParameters, q)[k] == c.classParameters[k])
  {
    ReadBackSent(EngineTags(h, c, candidate), c.classParameters);
  }

  /** Without a gateway tag set both by the provider and by the
      configuration, a read of the sent tags reports the configuration. */
  lemma SentTagsUnchanged(h: Helpers, c: Config, candidate: string)
    requires c.gatewayOffset == 0 || "gateway" !in c.classParameters
    ensures Reconciled(c.classParameters, SentTags(h, c, candidate)) == c.classParameters
  {
    var engine := EngineTags(h, c, candidate);
    assert forall k :: k in c.classParameters ==> k !in engine;
    ReadBackDisjoint(engine, c.classParameters);
  }

  /**
   * Under the codec's size law, a gateway offset smaller than the block
   * lands inside the block of a candidate that fits the address space; a
   * negative one never lands on the block's last address.
   */
  lemma GatewayInCandidateBlock(h: Helpers, c: Config, candidate: string)
    requires SizeLaw4(h) && 0 <= c.prefixSize <= 32
    requires c.gatewayOffset != 0 && Abs(c.gatewayOffset) < Pow2(32 - c.prefixSize)
    requires h.ipToLong(h.hexIpToIp(candidate)) + Pow2(32 - c.prefixSize) <= TwoTo32
    ensures var start := h.ipToLong(h.hexIpToIp(candidate));
      && start <= GatewayValue(h, c, candidate) < start + Pow2(32 - c.prefixSize)
      && (c.gatewayOffset > 0 ==> GatewayValue(h, c, candidate) == start + c.gatewayOffset)
      && (c.gatewayOffset < 0 ==> GatewayValue(h, c, candidate) == start + Pow2(32 - c.prefixSize) - 1 + c.gatewayOffset)
  {
    Gateway4InBlock(h.ipToLong(h.hexIpToIp(candidate)), Pow2(32 - c.prefixSize), c.gatewayOffset);
  }

  /** The fields a read needs from the subnet's record. */
  const ReadKeys: set<string> :=
    {"site_name", "parent_subnet_name", "subnet_name", "subnet_class_name", "is_terminal", "subnet_class_parameters"}

  /** The fields an import needs from the subnet's record. */
  const ImportKeys: set<string> :=
    {"site_name", "parent_subnet_name", "subnet_name", "start_ip_addr", "subnet_size", "subnet_class_name", "subnet_class_parameters"}

  /** The configuration after a read of `rec`. */
  function ReadBack(h: Helpers, c: Config, rec: Record): Config
    requires ReadKeys <= rec.Keys
  {
    c.(space := rec["site_name"],
       block := rec["parent_subnet_name"],
       name := rec["subnet_name"],
       className := rec["subnet_class_name"],
       terminal := rec["is_terminal"] == "1",
       classParameters := Reconciled(c.classParameters, h.parseQuery(rec["subnet_class_parameters"])))
  }

  /**
   * No drift: reading back the record of a subnet created from `c`, whose
   * tags the inventory stored as sent, yields `c` again, unless a
   * configured `gateway` tag was overridden by the computed gateway.
   */
  lemma ReadAfterCreate(h: Helpers, c: Config, candidate: string, rec: Record)
    requires ReadKeys <= rec.Keys
    requires rec["site_name"] == c.space && rec["parent_subnet_name"] == c.block
    requires rec["subnet_name"] == c.name && rec["subnet_class_name"] == c.className
    requires rec["is_terminal"] == TerminalFlag(c.terminal)
    requires h.parseQuery(rec["subnet_class_parameters"]) == SentTags(h, c, candidate)
    requires c.gatewayOffset == 0 || "gateway" !in c.classParameters
    ensures ReadBack(h, c, rec) == c
  {
    SentTagsUnchanged(h, c, candidate);
    EchoedRecord(h, c, rec);
  }

  /** A record that echoes every configured attribute reads back as `c`. */
  lemma EchoedRecord(h: Helpers, c: Config, rec: Record)
    requires ReadKeys <= rec.Keys
    requires rec["site_name"] == c.space && rec["parent_subnet_name"] == c.block
    requires rec["subnet_name"] == c.name && rec["subnet_class_name"] == c.className
    requires rec["is_terminal"] == TerminalFlag(c.terminal)
    requires Reconciled(c.classParameters, h.parseQuery(rec["subnet_class_parameters"])) == c.classParameters
    ensures ReadBack(h, c, rec) == c
  {
  }

  /** The prefix length an import derives from the record's `subnet_size`. */
  function ImportedLength(h: Helpers, rec: Record): int
    requires "subnet_size" in rec
  {
    h.sizeToPrefixLength(AtoiOrZero(rec["subnet_size"]))
  }

  /** The configuration after an import of `rec`: the gateway offset is
      reset to 0 and the requested address to "", the terminal flag is kept. */
  function Imported(h: Helpers, c: Config, rec: Record): Config
    requires ImportKeys <= rec.Keys
  {
    c.(space := rec["site_name"],
       block := rec["parent_subnet_name"],
       name := rec["subnet_name"],
       requestIp := "",
       prefixSize := ImportedLength(h, rec),
       gatewayOffset := 0,
       className := rec["subnet_class_name"],
       classParameters := Reconciled(c.classParameters, h.parseQuery(rec["subnet_class_parameters"])))
  }

  /**
   * An import recovers the prefix length of a subnet whose size the
   * inventory reports in decimal, given a size codec whose two directions
   * are inverse; the imported prefix string parses back into the imported
   * address and length.
   */
  lemma ImportRecoversPrefix(h: Helpers, c: Config, rec: Record, length: int)
    requires ImportKeys <= rec.Keys
    requires rec["subnet_size"] == Itoa(h.prefixLengthToSize(length))
    requires h.sizeToPrefixLength(h.prefixLengthToSize(length)) == length
    ensures Imported(h, c, rec).prefixSize == length
    ensures ParsePrefix(FormatPrefix(h.hexIpToIp(rec["start_ip_addr"]), ImportedLength(h, rec)))
      == Some((h.hexIpToIp(rec["start_ip_addr"]), length))
  {
    ItoaRoundTrip(h.prefixLengthToSize(length));
    PrefixRoundTrip(h.hexIpToIp(rec["start_ip_addr"]), length);
  }

  /** The gateway's address release, which the subnet delete sends first. */
  function GatewayDeleteRequest(space: string, gateway: string): Request
  {
    Request("delete", "rest/ip_delete", map["site_name" := space, "hostaddr" := gateway], map[])
  }

  /** The read request for the subnet `id`. */
  function InfoRequest(id: string): Request
  {
    Request("get", "rest/ip_block_subnet_info", map["subnet_id" := id], map[])
  }

  /** The resource's state: its configuration, its id and its computed attributes. */
  class Subnet {
    var id: string
    var config: Config
    var prefix: string
    var address: string
    var netmask: string
    var gateway: string

    constructor (config: Config)
      ensures this.config == config
      ensures id == "" && prefix == "" && address == "" && netmask == "" && gateway == ""
    {
      id := "";
      this.config := config;
      prefix := "";
      address := "";
      netmask := "";
      gateway := "";
    }

    /**
     * The create handler. `replies[i]` answers the creation request for
     * candidate `i`. On success the subnet's id and computed attributes
     * are those of the winning candidate; on failure nothing changes.
     */
    method Create(h: Helpers, inv: Inventory, replies: seq<Reply>) returns (d: Diag, sent: seq<Request>)
      requires Prepare(config, inv).Found? ==> |replies| >= |Prepare(config, inv).value.candidates|
      modifies this`id, this`prefix, this`address, this`netmask, this`gateway
      ensures Prepare(config, inv).LookupError? ==>
        d == Error(Prepare(config, inv).cause) && sent == [] && unchanged(this)
      ensures Prepare(config, inv).Found? ==>
        var plan := Prepare(config, inv).value;
        var v := Decide(replies[..|plan.candidates|]);
        && sent == AddRequests(h, config, plan)[..Attempts(v, |plan.candidates|)]
        && (v.Reserved? ==>
              var a := h.hexIpToIp(plan.candidates[v.index]);
              && d == Ok && id == v.oid && address == a
              && prefix == FormatPrefix(a, config.prefixSize)
              && netmask == h.prefixLengthToHexIp(config.prefixSize)
              && gateway == (if config.gatewayOffset != 0 then CandidateGateway(h, config, plan.candidates[v.index]) else old(gateway)))
        && (v.Aborted? ==> d == Error(v.cause) && unchanged(this))
        && (v.Exhausted? ==>
              d == Error("Unable to create IP subnet: " + config.name + ", unable to find a suitable prefix\n")
              && unchanged(this))
    {
      var p := Prepare(config, inv);
      if p.LookupError? {
        d := Error(p.cause);
        sent := [];
        return;
      }
      var plan := p.value;
      var v;
      v, sent := Reserve(AddRequests(h, config, plan), replies);
      match v
      case Reserved(i, oid) =>
        var a := h.hexIpToIp(plan.candidates[i]);
        id := oid;
        prefix := FormatPrefix(a, config.prefixSize);
        address := a;
        netmask := h.prefixLengthToHexIp(config.prefixSize);
        if config.gatewayOffset != 0 {
          gateway := CandidateGateway(h, config, plan.candidates[i]);
        }
        d := Ok;
      case Aborted(_, cause) =>
        d := Error(cause);
      case Exhausted =>
        d := Error("Unable to create IP subnet: " + config.name + ", unable to find a suitable prefix\n");
    }

    /** Releases the gateway address. */
    method GatewayDelete(r: Reply) returns (d: Diag, sent: seq<Request>)
      ensures sent == [GatewayDeleteRequest(config.space, gateway)]
      ensures d == ReleaseDiag(r)
    {
      sent := [GatewayDeleteRequest(config.space, gateway)];
      if r.TransportError? {
        d := Error(r.cause);
      } else {
        d := Ok;
      }
    }

    /**
     * The delete handler: with a gateway offset the gateway release goes
     * first and its outcome is ignored; the subnet's id is cleared exactly
     * when its own deletion succeeds.
     */
    method Delete(gatewayReply: Reply, r: Reply) returns (d: Diag, sent: seq<Request>)
      modifies this`id
      ensures sent == (if config.gatewayOffset != 0 then [GatewayDeleteRequest(config.space, gateway)] else [])
        + [Request("delete", "rest/ip_subnet_delete", map["subnet_id" := old(id)], map[])]
      ensures d == DeleteDiag(r, "Unable to delete IP subnet : " + config.name)
      ensures id == if d.Ok? then "" else old(id)
    {
      sent := [];
      if config.gatewayOffset != 0 {
        var _, gatewaySent := GatewayDelete(gatewayReply);
        sent := gatewaySent;
      }
      sent := sent + [Request("delete", "rest/ip_subnet_delete", map["subnet_id" := id], map[])];
      d := DeleteDiag(r, "Unable to delete IP subnet : " + config.name);
      if d.Ok? {
        id := "";
      }
    }

    /**
     * The read handler: a 200 answer refreshes the configuration from the
     * record and the gateway from its `gateway` tag; any other answer fails
     * and keeps the id and the state.
     */
    method Read(h: Helpers, r: Reply) returns (d: Diag, sent: seq<Request>)
      requires Carries(r, ReadKeys)
      modifies this`config, this`gateway
      ensures sent == [InfoRequest(id)]
      ensures Fetched(r) ==>
        var retrieved := h.parseQuery(r.body[0]["subnet_class_parameters"]);
        && d == Ok && config == ReadBack(h, old(config), r.body[0])
        && gateway == (if "gateway" in retrieved then First(retrieved, "gateway") else old(gateway))
      ensures r.TransportError? ==> d == Error(r.cause) && unchanged(this)
      ensures r.Answer? && !Fetched(r) ==> d == Error("Unable to find IP subnet: " + config.name + "\n") && unchanged(this)
    {
      sent := [InfoRequest(id)];
      if r.TransportError? {
        d := Error(r.cause);
        return;
      }
      if Fetched(r) {
        var rec := r.body[0];
        var retrieved := h.parseQuery(rec["subnet_class_parameters"]);
        if "gateway" in retrieved {
          gateway := First(retrieved, "gateway");
        }
        var computed := Reconcile(config.classParameters, retrieved);
        config := config.(space := rec["site_name"], block := rec["parent_subnet_name"], name := rec["subnet_name"],
          className := rec["subnet_class_name"], terminal := rec["is_terminal"] == "1", classParameters := computed);
        d := Ok;
        return;
      }
      d := Error("Unable to find IP subnet: " + config.name + "\n");
    }

    /**
     * The import handler: like a read, and it also derives the address,
     * the prefix and the netmask from the record, resets the requested
     * address and the gateway offset, and leaves the terminal flag alone.
     */
    method Import(h: Helpers, r: Reply) returns (d: Diag, sent: seq<Request>)
      requires Carries(r, ImportKeys)
      modifies this`config, this`prefix, this`address, this`netmask, this`gateway
      ensures sent == [InfoRequest(id)]
      ensures Fetched(r) ==>
        var rec := r.body[0];
        var retrieved := h.parseQuery(rec["subnet_class_parameters"]);
        var a := h.hexIpToIp(rec["start_ip_addr"]);
        && d == Ok && config == Imported(h, old(config), rec)
        && address == a && prefix == FormatPrefix(a, ImportedLength(h, rec))
        && netmask == h.prefixLengthToHexIp(ImportedLength(h, rec))
        && gateway == (if "gateway" in retrieved then First(retrieved, "gateway") else old(gateway))
      ensures r.TransportError? ==> d == Error(r.cause) && unchanged(this)
      ensures r.Answer? && !Fetched(r) ==>
        d == Error("SOLIDServer - Unable to find and import IP subnet (oid): " + id + "\n") && unchanged(this)
    {
      sent := [InfoRequest(id)];
      if r.TransportError? {
        d := Error(r.cause);
        return;
      }
      if Fetched(r) {
        var rec := r.body[0];
        var a := h.hexIpToIp(rec["start_ip_addr"]);
        var length := h.sizeToPrefixLength(AtoiOrZero(rec["subnet_size"]));
        var retrieved := h.parseQuery(rec["subnet_class_parameters"]);
        var computed := Reconcile(config.classParameters, retrieved);
        var updated := config.(space := rec["site_name"], block := rec["parent_subnet_name"], name := rec["subnet_name"],
          requestIp := "", prefixSize := length, gatewayOffset := 0,
          className := rec["subnet_class_name"], classParameters := computed);
        assert updated == Imported(h, config, rec);
        address := a;
        prefix := FormatPrefix(a, length);
        netmask := h.prefixLengthToHexIp(length);
        if "gateway" in retrieved {
          gateway := First(retrieved, "gateway");
        }
        config := updated;
        d := Ok;
        return;
      }
      d := Error("SOLIDServer - Unable to find and import IP subnet (oid): " + id + "\n");
    }
  }
}
