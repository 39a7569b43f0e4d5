/**
 * The IPv6 pool resource: a named range of addresses inside an IPv6
 * subnet, optionally mirrored by a DHCPv6 range. Whether the range exists
 * travels as the engine tag `dhcprange6` among the pool's class
 * parameters, and as the read-only flag of the pool.
 */
module Ip6Pool {
  import opened Base
  import opened Text
  import opened ClassParams

  datatype Config = Config(space: string, subnet: string, start: string, end: string, dhcpRange: bool,
                           name: string, className: string, classParameters: map<string, string>)

  /** What the inventory reports about the parent subnet. */
  datatype SubnetInfo = SubnetInfo(id: string, startAddr: string, prefixLength: int)

  /** The inventory lookups the create handler makes, by space name and by subnet name. */
  datatype Inventory = Inventory(
    siteIdByName: string -> Lookup<string>,
    subnetInfoByName: (string, string) -> Lookup<SubnetInfo>)

  /** The parent subnet of a new pool, or the first lookup that failed. */
  function Parent(c: Config, inv: Inventory): Lookup<SubnetInfo>
  {
    match inv.siteIdByName(c.space)
    case LookupError(cause) => LookupError(cause)
    case Found(siteId) => inv.subnetInfoByName(siteId, c.subnet)
  }

  // ----- the DHCP-range flag -----

  /** How the flag is sent, as `pool6_read_only` and as the `dhcprange6` tag. */
  function EncodeFlag(b: bool): string
  {
    if b then "1" else "0"
  }

  /** How a read interprets the `dhcprange6` tag: "1", or "yes" in any case. */
  function DecodeFlag(v: string): bool
  {
    v == "1" || ToLower(v) == "yes"
  }

  /** The flag survives the trip through the tag. */
  lemma FlagRoundTrip(b: bool)
    ensures DecodeFlag(EncodeFlag(b)) == b
  {
    if !b {
      assert ToLower("0") == "0";
    }
  }

  /** "yes" is read as true whatever its case; anything but "1" and "yes" as false. */
  lemma DecodeAcceptsYes(v: string)
    requires ToLower(v) == "yes"
    ensures DecodeFlag(v) && DecodeFlag(ToUpper(v))
  {
    LowerAfterUpper(v);
  }

  /** The engine's own tag. */
  function DhcpTag(b: bool): Query
  {
    map["dhcprange6" := [EncodeFlag(b)]]
  }

  /** The class parameters sent on creation and update: the engine tag first, then the configured tags. */
  function SentTags(c: Config): Query
  {
    Appended(DhcpTag(c.dhcpRange), c.classParameters)
  }

  /** The flag a later read finds first is the configured one, even when the
      configured tags carry a `dhcprange6` of their own. */
  lemma SentTagsCarryFlag(c: Config)
    ensures "dhcprange6" in SentTags(c) && |SentTags(c)["dhcprange6"]| > 0
    ensures DecodeFlag(First(SentTags(c), "dhcprange6")) == c.dhcpRange
  {
    AppendedKeepsFirst(DhcpTag(c.dhcpRange), c.classParameters);
    FlagRoundTrip(c.dhcpRange);
  }

  // ----- requests -----

  function AddRequest(h: Helpers, c: Config, parent: SubnetInfo): Request
  {
    Request("post", "rest/ip6_pool6_add",
      map["add_flag" := "new_only", "subnet6_id" := parent.id,
          "start_addr" := h.ip6ToHexIp6(c.start), "end_addr" := h.ip6ToHexIp6(c.end),
          "pool6_name" := c.name, "pool6_class_name" := c.className,
          "pool6_read_only" := EncodeFlag(c.dhcpRange)],
      SentTags(c))
  }

  function UpdateRequest(id: string, c: Config): Request
  {
    Request("put", "rest/ip6_pool6_add",
      map["pool6_id" := id, "add_flag" := "edit_only", "pool6_name" := c.name,
          "pool6_class_name" := c.className, "pool6_read_only" := EncodeFlag(c.dhcpRange)],
      SentTags(c))
  }

  function InfoRequest(id: string): Request
  {
    Request("get", "rest/ip6_pool6_info", map["pool6_id" := id], map[])
  }

  /** The parent subnet's prefix, as the pool reports it after creation. */
  function ParentPrefix(parent: SubnetInfo): string
  {
    FormatPrefix(parent.startAddr, parent.prefixLength)
  }

  /** The reported prefix names the parent subnet's start address and length. */
  lemma ParentPrefixParses(parent: SubnetInfo)
    ensures ParsePrefix(ParentPrefix(parent)) == Some((parent.startAddr, parent.prefixLength))
  {
    PrefixRoundTrip(parent.startAddr, parent.prefixLength);
  }

  // ----- reading back -----

  /** The fields the read and import handlers assert as strings. */
  const ReadKeys: set<string> := {"pool6_name", "pool6_class_name", "pool6_class_parameters"}

  /**
   * The configuration after a read of `rec`, as written: the decoded flag
   * is stored under the attribute name `dhcprange`, which the schema does
   * not declare (it declares `dhcp_range`), so the store fails silently and
   * the flag is never refreshed.
   */
  function ReadBackAsWritten(h: Helpers, c: Config, rec: Record): (c': Config)
    requires ReadKeys <= rec.Keys
    ensures c'.dhcpRange == c.dhcpRange
  {
    c.(name := rec["pool6_name"], className := rec["pool6_class_name"],
       classParameters := Reconciled(c.classParameters, h.parseQuery(rec["pool6_class_parameters"])))
  }

  /** The flag the server reports, when it reports one. */
  function ReportedFlag(retrieved: Query): Option<bool>
  {
    if "dhcprange6" in retrieved then Some(DecodeFlag(First(retrieved, "dhcprange6"))) else None
  }

  /** The configuration after a read of `rec`, as intended: the flag follows the server's `dhcprange6` tag. */
  function ReadBack(h: Helpers, c: Config, rec: Record): (c': Config)
    requires ReadKeys <= rec.Keys
    ensures var f := ReportedFlag(h.parseQuery(rec["pool6_class_parameters"]));
      c'.dhcpRange == if f.Some? then f.value else c.dhcpRange
    ensures c' == ReadBackAsWritten(h, c, rec).(dhcpRange := c'.dhcpRange)
  {
    var retrieved := h.parseQuery(rec["pool6_class_parameters"]);
    var f := ReportedFlag(retrieved);
    ReadBackAsWritten(h, c, rec).(dhcpRange := if f.Some? then f.value else c.dhcpRange)
  }

  /**
   * As written, a DHCP range turned on at the server is not noticed: the
   * read reports the configured `false`, where the intended read reports
   * `true`.
   */
  lemma FlagDriftMissed(h: Helpers, c: Config, rec: Record)
    requires ReadKeys <= rec.Keys && !c.dhcpRange
    requires var q := h.parseQuery(rec["pool6_class_parameters"]); "dhcprange6" in q && First(q, "dhcprange6") == "1"
    ensures !ReadBackAsWritten(h, c, rec).dhcpRange
    ensures ReadBack(h, c, rec).dhcpRange
  {
  }

  /**
   * Reading back what a create or an update sent gives the configuration
   * back, flag included, when no configured tag is named `dhcprange6`.
   */
  lemma ReadAfterCreate(h: Helpers, c: Config, rec: Record)
    requires ReadKeys <= rec.Keys
    requires rec["pool6_name"] == c.name && rec["pool6_class_name"] == c.className
    requires h.parseQuery(rec["pool6_class_parameters"]) == SentTags(c)
    requires "dhcprange6" !in c.classParameters
    ensures ReadBack(h, c, rec) == c
  {
    SentTagsCarryFlag(c);
    ReadBackDisjoint(DhcpTag(c.dhcpRange), c.classParameters);
  }

  class Pool {
    var id: string
    var config: Config
    var prefix: string
    var prefixSize: int

    constructor (config: Config)
      ensures this.config == config && id == "" && prefix == "" && prefixSize == 0
    {
      id := "";
      this.config := config;
      prefix := "";
      prefixSize := 0;
    }

    /**
     * The existence check: a 200 or 201 answer with a record means the pool
     * exists; any other answer forgets the id; a transport failure is
     * reported and keeps it.
     */
    method Exists(r: Reply) returns (found: bool, d: Diag, sent: seq<Request>)
      modifies this`id
      ensures sent == [InfoRequest(old(id))]
      ensures found <==> Accepted(r)
      ensures d == if r.TransportError? then Error(r.cause) else Ok
      ensures id == if r.Answer? && !Accepted(r) then "" else old(id)
    {
      sent := [InfoRequest(id)];
      if r.TransportError? {
        found, d := false, Error(r.cause);
        return;
      }
      found, d := Accepted(r), Ok;
      if !found {
        id := "";
      }
    }

    /**
     * The create handler: a failed lookup of the space or of the parent
     * subnet is reported before anything is sent; on success the pool
     * records its id and its parent subnet's prefix.
     */
    method Create(h: Helpers, inv: Inventory, r: Reply) returns (d: Diag, sent: seq<Request>)
      modifies this`id, this`prefix, this`prefixSize
      ensures Parent(config, inv).LookupError? ==>
        d == Error(Parent(config, inv).cause) && sent == [] && unchanged(this)
      ensures Parent(config, inv).Found? ==>
        var parent := Parent(config, inv).value;
        && sent == [AddRequest(h, config, parent)]
        && d == SubmitDiag(r, "SOLIDServer - Unable to create IPv6 pool: " + config.name)
        && (d.Ok? ==> id == RetOid(r).value && prefix == ParentPrefix(parent) && prefixSize == parent.prefixLength)
        && (!d.Ok? ==> unchanged(this))
    {
      var p := Parent(config, inv);
      if p.LookupError? {
        d := Error(p.cause);
        sent := [];
        return;
      }
      var parent := p.value;
      var tags := AddAll(DhcpTag(config.dhcpRange), config.classParameters);
      sent := [AddRequest(h, config, parent).(classParams := tags)];
      d := SubmitDiag(r, "SOLIDServer - Unable to create IPv6 pool: " + config.name);
      if d.Ok? {
        id := RetOid(r).value;
        prefix := ParentPrefix(parent);
        prefixSize := parent.prefixLength;
      }
    }

    /** The update handler: the pool adopts the object id the server returns. */
    method Update(r: Reply) returns (d: Diag, sent: seq<Request>)
      modifies this`id
      ensures sent == [UpdateRequest(old(id), config)]
      ensures d == SubmitDiag(r, "SOLIDServer - Unable to update IPv6 pool: " + config.name)
      ensures id == if d.Ok? then RetOid(r).value else old(id)
    {
      var tags := AddAll(DhcpTag(config.dhcpRange), config.classParameters);
      sent := [UpdateRequest(id, config).(classParams := tags)];
      d := SubmitDiag(r, "SOLIDServer - Unable to update IPv6 pool: " + config.name);
      if d.Ok? {
        id := RetOid(r).value;
      }
    }

    /** The delete handler: success exactly on status 200 or 204, which clears the id. */
    method Delete(r: Reply) returns (d: Diag, sent: seq<Request>)
      modifies this`id
      ensures sent == [Request("delete", "rest/ip6_pool6_delete", map["pool6_id" := old(id)], map[])]
      ensures d == DeleteDiag(r, "SOLIDServer - Unable to delete IPv6 pool: " + config.name)
      ensures id == if d.Ok? then "" else old(id)
    {
      sent := [Request("delete", "rest/ip6_pool6_delete", map["pool6_id" := id], map[])];
      d := DeleteDiag(r, "SOLIDServer - Unable to delete IPv6 pool: " + config.name);
      if d.Ok? {
        id := "";
      }
    }

    /** Refreshes the configuration from a fetched record, with the intended flag update. */
    method Refresh(h: Helpers, rec: Record)
      requires ReadKeys <= rec.Keys
      modifies this`config
      ensures config == ReadBack(h, old(config), rec)
    {
      var retrieved := h.parseQuery(rec["pool6_class_parameters"]);
      var computed := Reconcile(config.classParameters, retrieved);
      var flag := config.dhcpRange;
      if "dhcprange6" in retrieved {
        flag := DecodeFlag(First(retrieved, "dhcprange6"));
      }
      config := config.(name := rec["pool6_name"], className := rec["pool6_class_name"],
        classParameters := computed, dhcpRange := flag);
    }

    /** The read handler: a 200 answer refreshes the configuration; any other answer fails and keeps it. */
    method Read(h: Helpers, r: Reply) returns (d: Diag, sent: seq<Request>)
      requires Carries(r, ReadKeys)
      modifies this`config
      ensures sent == [InfoRequest(id)]
      ensures Fetched(r) ==> d == Ok && config == ReadBack(h, old(config), r.body[0])
      ensures r.TransportError? ==> d == Error(r.cause) && unchanged(this)
      ensures r.Answer? && !Fetched(r) ==>
        d == Error("SOLIDServer - Unable to find IPv6 pool: " + config.name + "\n") && unchanged(this)
    {
      sent := [InfoRequest(id)];
      if r.TransportError? {
        d := Error(r.cause);
        return;
      }
      if Fetched(r) {
        Refresh(h, r.body[0]);
        d := Ok;
        return;
      }
      d := Error("SOLIDServer - Unable to find IPv6 pool: " + config.name + "\n");
    }

    /** The import handler: as the read, with its own error message. */
    method Import(h: Helpers, r: Reply) returns (d: Diag, sent: seq<Request>)
      requires Carries(r, ReadKeys)
      modifies this`config
      ensures sent == [InfoRequest(id)]
      ensures Fetched(r) ==> d == Ok && config == ReadBack(h, old(config), r.body[0])
      ensures r.TransportError? ==> d == Error(r.cause) && unchanged(this)
      ensures r.Answer? && !Fetched(r) ==>
        d == Error("SOLIDServer - Unable to find and import IPv6 pool (oid): " + id + "\n") && unchanged(this)
    {
      sent := [InfoRequest(id)];
      if r.TransportError? {
        d := Error(r.cause);
        return;
      }
      if Fetched(r) {
        Refresh(h, r.body[0]);
        d := Ok;
        return;
      }
      d := Error("SOLIDServer - Unable to find and import IPv6 pool (oid): " + id + "\n");
    }
  }
}
