/**
 * The IP subnet data source: looks a subnet up by name and space and
 * reports its address, prefix, netmask, terminal flag, class, tags and
 * gateway. The gateway travels as the `gateway` tag, which the data source
 * reports on its own and leaves out of the tags.
 */
module IpSubnetData {
  import opened Base
  import opened Text
  import opened ClassParams
  import IpSubnet

  /** What the data source reports about a subnet. */
  datatype Facts = Facts(address: string, prefix: string, prefixSize: int, netmask: string,
                         terminal: bool, className: string, classParameters: map<string, string>, gateway: string)

  /** The fields the data source asserts as strings. */
  const DataKeys: set<string> :=
    {"subnet_id", "subnet_name", "start_ip_addr", "subnet_size", "is_terminal",
     "subnet_class_name", "subnet_class_parameters"}

  /** The lookup clause: the subnet name and the space name, matched with LIKE. */
  function WhereClause(name: string, space: string): string
  {
    "subnet_name LIKE '" + name + "'" + " and site_name LIKE '" + space + "'"
  }

  function ListRequest(name: string, space: string): Request
  {
    Request("get", "rest/ip_block_subnet_list", map["WHERE" := WhereClause(name, space)], map[])
  }

  /**
   * The facts read from `rec`: the prefix length is derived from the block
   * size (0 when the size is not a number), the prefix string reads back
   * as the address and that length, the subnet is terminal exactly when
   * `is_terminal` is "1", every tag but `gateway` is reported, and the
   * gateway is reported when the tag is present (`gateway` otherwise).
   */
  function Describe(h: Helpers, rec: Record, gateway: string): (f: Facts)
    requires DataKeys <= rec.Keys
    ensures f.prefixSize == IpSubnet.ImportedLength(h, rec)
    ensures ParsePrefix(f.prefix) == Some((f.address, f.prefixSize))
    ensures f.terminal <==> rec["is_terminal"] == "1"
    ensures var q := h.parseQuery(rec["subnet_class_parameters"]);
      && f.classParameters.Keys == q.Keys - {"gateway"}
      && (forall k :: k in f.classParameters ==> f.classParameters[k] == First(q, k))
      && f.gateway == if "gateway" in q then First(q, "gateway") else gateway
  {
    var address := h.hexIpToIp(rec["start_ip_addr"]);
    var length := h.sizeToPrefixLength(AtoiOrZero(rec["subnet_size"]));
    var q := h.parseQuery(rec["subnet_class_parameters"]);
    PrefixRoundTrip(address, length);
    Facts(address, FormatPrefix(address, length), length, h.prefixLengthToHexIp(length),
          rec["is_terminal"] == "1", rec["subnet_class_name"], WithoutGateway(q),
          if "gateway" in q then First(q, "gateway") else gateway)
  }

  /**
   * The data source describes a subnet the IPv4 resource created exactly as
   * the resource recorded it: the terminal flag it sent, the prefix length
   * it asked for (given a size codec whose two directions are inverse) and
   * the tags it sent but `gateway`.
   */
  lemma DescribesCreatedSubnet(h: Helpers, c: IpSubnet.Config, rec: Record, gateway: string)
    requires DataKeys <= rec.Keys
    requires rec["is_terminal"] == IpSubnet.TerminalFlag(c.terminal)
    requires rec["subnet_size"] == Itoa(h.prefixLengthToSize(c.prefixSize))
    requires h.sizeToPrefixLength(h.prefixLengthToSize(c.prefixSize)) == c.prefixSize
    requires "gateway" !in c.classParameters
    requires forall k :: k in c.classParameters ==>
      var q := h.parseQuery(rec["subnet_class_parameters"]); k in q && First(q, k) == c.classParameters[k]
    ensures Describe(h, rec, gateway).terminal == c.terminal
    ensures Describe(h, rec, gateway).prefixSize == c.prefixSize
    ensures forall k :: k in c.classParameters ==> Describe(h, rec, gateway).classParameters[k] == c.classParameters[k]
  {
    ItoaRoundTrip(h.prefixLengthToSize(c.prefixSize));
  }

  class SubnetData {
    var id: string
    var name: string
    var space: string
    var facts: Facts

    constructor (name: string, space: string)
      ensures this.name == name && this.space == space && id == ""
      ensures facts == Facts("", "", 0, "", false, "", map[], "")
    {
      id := "";
      this.name := name;
      this.space := space;
      facts := Facts("", "", 0, "", false, "", map[], "");
    }

    /**
     * The read: the id is cleared first and set to the subnet's id only on
     * success; a 200 answer with a record refreshes every fact.
     */
    method Read(h: Helpers, r: Reply) returns (d: Diag, sent: seq<Request>)
      requires Fetched(r) ==> DataKeys <= r.body[0].Keys
      modifies this`id, this`name, this`facts
      ensures sent == [ListRequest(old(name), space)]
      ensures Fetched(r) ==>
        && d == Ok && id == r.body[0]["subnet_id"] && name == r.body[0]["subnet_name"]
        && facts == Describe(h, r.body[0], old(facts.gateway))
      ensures !Fetched(r) ==> id == "" && name == old(name) && facts == old(facts)
      ensures r.TransportError? ==> d == Error(r.cause)
      ensures r.Answer? && !Fetched(r) ==> d == Error("Unable to find IP subnet: " + name)
    {
      id := "";
      sent := [ListRequest(name, space)];
      if r.TransportError? {
        d := Error(r.cause);
        return;
      }
      if Fetched(r) {
        var rec := r.body[0];
        id := rec["subnet_id"];
        var address := h.hexIpToIp(rec["start_ip_addr"]);
        var length := h.sizeToPrefixLength(AtoiOrZero(rec["subnet_size"]));
        var q := h.parseQuery(rec["subnet_class_parameters"]);
        var gateway := facts.gateway;
        if "gateway" in q {
          gateway := First(q, "gateway");
        }
        var computed := DropGateway(q);
        name := rec["subnet_name"];
        facts := Facts(address, FormatPrefix(address, length), length, h.prefixLengthToHexIp(length),
          rec["is_terminal"] == "1", rec["subnet_class_name"], computed, gateway);
        d := Ok;
        return;
      }
      d := Error("Unable to find IP subnet: " + name);
    }
  }
}
