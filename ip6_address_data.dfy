/**
 * The IPv6 address data source: looks an address up by space and address
 * and reports where it sits (subnet, pool, prefix), its name, device, MAC
 * address, class and tags.
 */
module Ip6AddressData {
  import opened Base
  import opened Text
  import opened ClassParams

  /** What the data source reports about an address. */
  datatype Facts = Facts(subnet: string, pool: string, name: string, device: string, mac: string,
                         prefix: string, prefixSize: int, className: string, classParameters: map<string, string>)

  /** The fields the data source asserts as strings. */
  const DataKeys: set<string> :=
    {"ip6_id", "site_name", "subnet6_name", "pool6_name", "ip6_name", "hostdev_name", "subnet6_prefix",
     "subnet6_start_ip6_addr", "ip6_mac_addr", "ip6_class_name", "ip6_class_parameters"}

  /** The lookup clause: the space and the address in its hexadecimal form. */
  function WhereClause(h: Helpers, space: string, address: string): (w: string)
    ensures w == Conjunction([("site_name", space), ("ip6_addr", h.ip6ToHexIp6(address))])
  {
    var hex := h.ip6ToHexIp6(address);
    SameClause(space, hex);
    "site_name='" + space + "' AND ip6_addr='" + hex + "'"
  }

  lemma SameClause(space: string, hex: string)
    ensures "site_name='" + space + "' AND ip6_addr='" + hex + "'"
      == Conjunction([("site_name", space), ("ip6_addr", hex)])
  {
    var cs := [("site_name", space), ("ip6_addr", hex)];
    assert Conjunction(cs[1..]) == Condition(("ip6_addr", hex));
    assert "site_name='" == "site_name" + "='";
    assert "' AND ip6_addr='" == "'" + " AND " + "ip6_addr" + "='";
  }

  function ListRequest(h: Helpers, space: string, address: string): Request
  {
    Request("get", "rest/ip6_address6_list", map["WHERE" := WhereClause(h, space, address)], map[])
  }

  /** The MAC address as reported: a placeholder the inventory marks with
      an "EIP:" prefix is reported as no address. */
  function ReportedMac(mac: string): (r: string)
    ensures !HasPrefix(r, "EIP:")
    ensures r == mac || r == ""
    ensures r == mac <==> !HasPrefix(mac, "EIP:")
  {
    if HasPrefix(mac, "EIP:") then "" else mac
  }

  /**
   * The facts read from `rec`: the prefix is the subnet's start address
   * followed by the length exactly as the server wrote it, the length is
   * its number (0 when it is not one), the MAC address is reported unless
   * it is a placeholder, and every tag but `gateway` is reported.
   */
  function Describe(h: Helpers, rec: Record): (f: Facts)
    requires DataKeys <= rec.Keys
    ensures f.prefix == h.hexIp6ToIp6(rec["subnet6_start_ip6_addr"]) + "/" + rec["subnet6_prefix"]
    ensures f.prefixSize == AtoiOrZero(rec["subnet6_prefix"])
    ensures f.mac == ReportedMac(rec["ip6_mac_addr"])
    ensures var q := h.parseQuery(rec["ip6_class_parameters"]);
      && f.classParameters.Keys == q.Keys - {"gateway"}
      && (forall k :: k in f.classParameters ==> f.classParameters[k] == First(q, k))
  {
    Facts(rec["subnet6_name"], rec["pool6_name"], rec["ip6_name"], rec["hostdev_name"], ReportedMac(rec["ip6_mac_addr"]),
          h.hexIp6ToIp6(rec["subnet6_start_ip6_addr"]) + "/" + rec["subnet6_prefix"], AtoiOrZero(rec["subnet6_prefix"]),
          rec["ip6_class_name"], WithoutGateway(h.parseQuery(rec["ip6_class_parameters"])))
  }

  /**
   * When the server writes the prefix length in decimal, as
   * `strconv.Itoa` does, the reported prefix string parses back into the
   * subnet's start address and the reported prefix length.
   */
  lemma PrefixAgreesWithSize(h: Helpers, rec: Record, length: int)
    requires DataKeys <= rec.Keys
    requires rec["subnet6_prefix"] == Itoa(length)
    ensures Describe(h, rec).prefixSize == length
    ensures ParsePrefix(Describe(h, rec).prefix) == Some((h.hexIp6ToIp6(rec["subnet6_start_ip6_addr"]), length))
  {
    ItoaRoundTrip(length);
    PrefixRoundTrip(h.hexIp6ToIp6(rec["subnet6_start_ip6_addr"]), length);
  }

  class AddressData {
    var id: string
    var space: string
    var address: string
    var facts: Facts

    constructor (space: string, address: string)
      ensures this.space == space && this.address == address && id == ""
      ensures facts == Facts("", "", "", "", "", "", 0, "", map[])
    {
      id := "";
      this.space := space;
      this.address := address;
      facts := Facts("", "", "", "", "", "", 0, "", map[]);
    }

    /**
     * The read: a 200 answer with a record sets the id and the space from
     * it and refreshes every fact; on any failure the id, the space and
     * the facts are kept.
     */
    method Read(h: Helpers, r: Reply) returns (d: Diag, sent: seq<Request>)
      requires Carries(r, DataKeys)
      modifies this`id, this`space, this`facts
      ensures sent == [ListRequest(h, old(space), address)]
      ensures Fetched(r) ==>
        d == Ok && id == r.body[0]["ip6_id"] && space == r.body[0]["site_name"] && facts == Describe(h, r.body[0])
      ensures !Fetched(r) ==> id == old(id) && space == old(space) && facts == old(facts)
      ensures r.TransportError? ==> d == Error(r.cause)
      ensures r.Answer? && !Fetched(r) ==> d == Error("Unable to find IPv6 address: " + facts.name)
    {
      sent := [ListRequest(h, space, address)];
      if r.TransportError? {
        d := Error(r.cause);
        return;
      }
      if Fetched(r) {
        var rec := r.body[0];
        id := rec["ip6_id"];
        space := rec["site_name"];
        var computed := DropGateway(h.parseQuery(rec["ip6_class_parameters"]));
        facts := Facts(rec["subnet6_name"], rec["pool6_name"], rec["ip6_name"], rec["hostdev_name"],
          ReportedMac(rec["ip6_mac_addr"]),
          h.hexIp6ToIp6(rec["subnet6_start_ip6_addr"]) + "/" + rec["subnet6_prefix"], AtoiOrZero(rec["subnet6_prefix"]),
          rec["ip6_class_name"], computed);
        d := Ok;
        return;
      }
      d := Error("Unable to find IPv6 address: " + facts.name);
    }
  }
}
