/**
 * `solidserver_ip6_mac`: the association of a MAC address with an IPv6
 * address. The MAC address is validated against a fixed format, sent
 * lower-cased, and compared without regard to case on read.
 */
module Ip6Mac {
  import opened Base
  import opened Text

  /** The configurable attributes of the resource. */
  datatype Config = Config(space: string, address: string, mac: string)

  // ----- the MAC address format -----

  predicate IsSeparator(c: char) { c == ':' || c == '-' }

  /** `[0-9A-Fa-f]{2}` */
  predicate IsOctet(t: string)
  {
    |t| == 2 && IsHexDigit(t[0]) && IsHexDigit(t[1])
  }

  /** `([0-9A-Fa-f]{2}[:-]){n}` matching all of `s`. */
  predicate LeadingGroups(s: string, n: nat)
    decreases n
  {
    if n == 0 then s == []
    else |s| >= 3 && IsOctet(s[..2]) && IsSeparator(s[2]) && LeadingGroups(s[3..], n - 1)
  }

  /** The validator `^([0-9A-Fa-f]{2}[:-]){5}([0-9A-Fa-f]{2})$`. */
  predicate IsMac(s: string)
  {
    |s| == 17 && LeadingGroups(s[..15], 5) && IsOctet(s[15..])
  }

  function OctetValue(t: string): (v: int)
    requires IsOctet(t)
    ensures 0 <= v < 256
  {
    HexDigitValue(t[0]) * 16 + HexDigitValue(t[1])
  }

  /** A lower-case hexadecimal digit. */
  function HexChar(v: int): (c: char)
    requires 0 <= v < 16
    ensures IsHexDigit(c)
  {
    if v < 10 then DigitChar(v) else ('a' as int + v - 10) as char
  }

  function FormatOctet(v: int): string
    requires 0 <= v < 256
  {
    [HexChar(v / 16), HexChar(v % 16)]
  }

  predicate IsByte(v: int) { 0 <= v < 256 }

  /** A MAC address as octets and the separators between them. */
  datatype Mac = Mac(octets: seq<int>, seps: seq<char>)

  predicate WellFormed(m: Mac)
  {
    && |m.octets| == |m.seps| + 1
    && (forall i :: 0 <= i < |m.octets| ==> IsByte(m.octets[i]))
    && (forall i :: 0 <= i < |m.seps| ==> IsSeparator(m.seps[i]))
  }

  /** The text of `m`, in lower case. */
  function Render(m: Mac): string
    requires WellFormed(m)
    decreases |m.seps|
  {
    if |m.seps| == 0 then FormatOctet(m.octets[0])
    else FormatOctet(m.octets[0]) + [m.seps[0]] + Render(Mac(m.octets[1..], m.seps[1..]))
  }

  /** Reads `n` separated groups followed by a last octet. */
  function ParseGroups(s: string, n: nat): (r: Option<Mac>)
    ensures r.Some? ==> WellFormed(r.value) && |r.value.seps| == n
    decreases n
  {
    if n == 0 then
      if IsOctet(s) then Some(Mac([OctetValue(s)], [])) else None
    else if |s| >= 3 && IsOctet(s[..2]) && IsSeparator(s[2]) then
      match ParseGroups(s[3..], n - 1)
      case None => None
      case Some(rest) => Some(Mac([OctetValue(s[..2])] + rest.octets, [s[2]] + rest.seps))
    else None
  }

  /** The six octets and five separators of a MAC address. */
  function ParseMac(s: string): (r: Option<Mac>)
    ensures r.Some? ==> WellFormed(r.value) && |r.value.octets| == 6
  {
    ParseGroups(s, 5)
  }

  // ----- the format laws -----

  lemma HexCharValue(v: int)
    requires 0 <= v < 16
    ensures HexDigitValue(HexChar(v)) == v
  {
  }

  lemma HexCharLower(c: char)
    requires IsHexDigit(c)
    ensures HexChar(HexDigitValue(c)) == LowerChar(c)
  {
  }

  lemma OctetRoundTrip(v: int)
    requires IsByte(v)
    ensures IsOctet(FormatOctet(v)) && OctetValue(FormatOctet(v)) == v
  {
    HexCharValue(v / 16);
    HexCharValue(v % 16);
  }

  lemma OctetLower(t: string)
    requires IsOctet(t)
    ensures FormatOctet(OctetValue(t)) == ToLower(t)
  {
    HexCharLower(t[0]);
    HexCharLower(t[1]);
  }

  lemma {:induction false} RenderLength(m: Mac)
    requires WellFormed(m)
    ensures |Render(m)| == 3 * |m.seps| + 2
    decreases |m.seps|
  {
    if |m.seps| > 0 {
      RenderLength(Mac(m.octets[1..], m.seps[1..]));
    }
  }

  /** Parsing reads back every rendered MAC address. */
  lemma {:induction false} ParseRender(m: Mac)
    requires WellFormed(m)
    ensures ParseGroups(Render(m), |m.seps|) == Some(m)
    decreases |m.seps|
  {
    OctetRoundTrip(m.octets[0]);
    if |m.seps| > 0 {
      var rest := Mac(m.octets[1..], m.seps[1..]);
      var s := Render(m);
      assert s[..2] == FormatOctet(m.octets[0]);
      assert s[2] == m.seps[0];
      assert s[3..] == Render(rest);
      ParseRender(rest);
      assert |rest.seps| == |m.seps| - 1;
      assert ParseGroups(s, |m.seps|) == Some(Mac([OctetValue(s[..2])] + rest.octets, [s[2]] + rest.seps));
      assert [m.octets[0]] + rest.octets == m.octets;
      assert [m.seps[0]] + rest.seps == m.seps;
    } else {
      assert m.octets == [m.octets[0]] && m.seps == [];
    }
  }

  /** Rendering what was parsed gives the text back, lower-cased. */
  lemma {:induction false} RenderParse(s: string, n: nat)
    requires ParseGroups(s, n).Some?
    ensures Render(ParseGroups(s, n).value) == ToLower(s)
    decreases n
  {
    var m := ParseGroups(s, n).value;
    if n == 0 {
      OctetLower(s);
    } else {
      var rest := ParseGroups(s[3..], n - 1).value;
      RenderParse(s[3..], n - 1);
      OctetLower(s[..2]);
      assert m.octets[1..] == rest.octets && m.seps[1..] == rest.seps;
      assert s == s[..2] + [s[2]] + s[3..];
      LowerAppend(s[..2] + [s[2]], s[3..]);
      LowerAppend(s[..2], [s[2]]);
    }
  }

  lemma LowerAppend(a: string, b: string)
    ensures ToLower(a + b) == ToLower(a) + ToLower(b)
  {
  }

  /** `n` separated groups and a last octet: what the parser reads is what
      the regular expression matches. */
  lemma {:induction false} GroupsParse(s: string, n: nat)
    ensures ParseGroups(s, n).Some? <==> |s| >= 3 * n && LeadingGroups(s[..3 * n], n) && IsOctet(s[3 * n..])
    decreases n
  {
    if n > 0 && |s| >= 3 * n {
      GroupsParse(s[3..], n - 1);
      var head := s[..3 * n];
      assert head[..2] == s[..2] && head[2] == s[2];
      assert head[3..] == s[3..][..3 * (n - 1)];
      assert s[3 * n..] == s[3..][3 * (n - 1)..];
    } else if n > 0 {
      if |s| >= 3 {
        GroupsParse(s[3..], n - 1);
      }
    }
  }

  /** The validator accepts exactly the strings that parse as a MAC address. */
  lemma ValidIffParses(s: string)
    ensures IsMac(s) <==> ParseMac(s).Some?
  {
    GroupsParse(s, 5);
  }

  // ----- the resource -----

  /** The association request: the address in its space, with the MAC
      address to record ("" to remove it), leaving the tags alone. */
  function MappingRequest(c: Config, mac: string): Request
  {
    Request("put", "rest/ip6_address6_add",
            map["site_name" := c.space, "add_flag" := "edit_only", "hostaddr" := c.address,
                "ip6_mac_addr" := mac, "keep_class_parameters" := "1"], map[])
  }

  /** The MAC address a create sends: the configured one, lower-cased,
      which is the rendering of its octets and separators. */
  function SentMac(c: Config): (m: string)
    ensures ParseMac(c.mac).Some? ==> m == Render(ParseMac(c.mac).value)
    ensures |m| == |c.mac|
  {
    if ParseMac(c.mac).Some? then
      RenderParse(c.mac, 5);
      ToLower(c.mac)
    else ToLower(c.mac)
  }

  function InfoRequest(id: string): Request
  {
    Request("get", "rest/ip6_address6_info", map["ip6_id" := id], map[])
  }

  /** The read's test: the address still carries the MAC address, compared without regard to case. */
  predicate StillMapped(r: Reply, mac: string)
  {
    Accepted(r) && "ip6_mac_addr" in r.body[0] && ToLower(r.body[0]["ip6_mac_addr"]) == ToLower(mac)
  }

  /**
   * Between two valid MAC addresses, comparing without regard to case is
   * comparing octets and separators: the same address written with other
   * separators does not match.
   */
  lemma SameMacIffSameParts(a: string, b: string)
    requires IsMac(a) && IsMac(b)
    ensures ToLower(a) == ToLower(b) <==> ParseMac(a) == ParseMac(b)
  {
    ValidIffParses(a);
    ValidIffParses(b);
    var ma, mb := ParseMac(a).value, ParseMac(b).value;
    RenderParse(a, 5);
    RenderParse(b, 5);
    if ToLower(a) == ToLower(b) {
      ParseRender(ma);
      ParseRender(mb);
    }
  }

  /** A read right after a create keeps the resource when the server
      stores the MAC address as it was sent. */
  lemma EchoKeepsMapping(c: Config, r: Reply)
    requires Accepted(r) && "ip6_mac_addr" in r.body[0] && r.body[0]["ip6_mac_addr"] == SentMac(c)
    ensures StillMapped(r, c.mac)
  {
    LowerAfterUpper(c.mac);
  }

  /** A read drops the resource when the server reports the same octets
      with other separators than the configured ones. */
  lemma SeparatorsMatter(r: Reply, mac: string)
    requires Accepted(r) && "ip6_mac_addr" in r.body[0]
    requires ParseMac(mac).Some? && ParseMac(r.body[0]["ip6_mac_addr"]).Some?
    requires ParseMac(mac).value.seps != ParseMac(r.body[0]["ip6_mac_addr"]).value.seps
    ensures !StillMapped(r, mac)
  {
    ValidIffParses(mac);
    ValidIffParses(r.body[0]["ip6_mac_addr"]);
    SameMacIffSameParts(r.body[0]["ip6_mac_addr"], mac);
  }

  class Mapping {
    var id: string
    const config: Config

    constructor (c: Config)
      ensures config == c && id == ""
    {
      config := c;
      id := "";
    }

    /**
     * The create: success with the new id when the server returns one; a
     * refusal fails naming the address and the MAC address; an accepted
     * answer without an id is reported as success and leaves the id unset.
     */
    method Create(r: Reply) returns (d: Diag, sent: seq<Request>)
      modifies this`id
      ensures sent == [MappingRequest(config, SentMac(config))]
      ensures RetOid(r).Some? ==> d == Ok && id == RetOid(r).value
      ensures RetOid(r).None? ==> id == old(id)
      ensures r.TransportError? ==> d == Error(r.cause)
      ensures r.Answer? && !Accepted(r) ==>
        d == Error("Failed to create IP MAC association between " + config.address + " and " + config.mac + "\n")
      ensures Accepted(r) ==> d == Ok
    {
      sent := [MappingRequest(config, ToLower(config.mac))];
      if r.TransportError? {
        d := Error(r.cause);
      } else if Accepted(r) {
        if "ret_oid" in r.body[0] {
          id := r.body[0]["ret_oid"];
        }
        d := Ok;
      } else {
        d := Error("Failed to create IP MAC association between " + config.address + " and " + config.mac + "\n");
      }
    }

    /** The delete: records an empty MAC address; the id is cleared when the server returns an object id. */
    method Delete(r: Reply) returns (d: Diag, sent: seq<Request>)
      modifies this`id
      ensures sent == [MappingRequest(config, "")]
      ensures RetOid(r).Some? ==> d == Ok && id == ""
      ensures RetOid(r).None? ==> id == old(id)
      ensures r.TransportError? ==> d == Error(r.cause)
      ensures r.Answer? && !Accepted(r) ==>
        d == Error("Failed to delete IP MAC association between " + config.address + " and " + config.mac + "\n")
      ensures Accepted(r) ==> d == Ok
    {
      sent := [MappingRequest(config, "")];
      if r.TransportError? {
        d := Error(r.cause);
      } else if Accepted(r) {
        if "ret_oid" in r.body[0] {
          id := "";
        }
        d := Ok;
      } else {
        d := Error("Failed to delete IP MAC association between " + config.address + " and " + config.mac + "\n");
      }
    }

    /** The read: the resource is kept exactly when the address still
        carries the MAC address; otherwise the id is cleared. Only a
        transport failure is reported. */
    method Read(r: Reply) returns (d: Diag, sent: seq<Request>)
      modifies this`id
      ensures sent == [InfoRequest(old(id))]
      ensures r.TransportError? ==> d == Error(r.cause) && id == old(id)
      ensures r.Answer? ==> d == Ok && id == (if StillMapped(r, config.mac) then old(id) else "")
    {
      sent := [InfoRequest(id)];
      if r.TransportError? {
        d := Error(r.cause);
        return;
      }
      if !StillMapped(r, config.mac) {
        id := "";
      }
      d := Ok;
    }
  }
}
