/**
 * The DNS resource record resource: a record of a DNS server, optionally
 * scoped to a view and a zone. It is looked up by a where clause over its
 * identifying columns rather than by its object id, because the id of a
 * record may change on the server.
 */
module DnsRR {
  import opened Base
  import opened Text

  /** The configurable attributes. An empty view or zone means "none". */
  datatype Config = Config(server: string, view: string, zone: string, name: string,
                           rrType: string, value: string, ttl: int)

  /** The record types the provider manages (sections 3.2.2 of RFC 1035, 2.1 of RFC 3596, and RFC 6672). */
  const SupportedTypes: set<string> := {"A", "AAAA", "PTR", "CNAME", "DNAME", "TXT", "NS"}

  /** The type validator: no error exactly for a supported type, in any case. */
  function ValidateType(t: string): (errors: seq<string>)
    ensures errors == [] <==> ToUpper(t) in SupportedTypes
    ensures errors != [] ==> errors == ["Unsupported RR type."]
  {
    var u := ToUpper(t);
    if u == "A" || u == "AAAA" || u == "PTR" || u == "CNAME" || u == "DNAME" || u == "TXT" || u == "NS" then []
    else ["Unsupported RR type."]
  }

  /** Validation ignores case: a type and its lower-case form are judged alike. */
  lemma ValidationIgnoresCase(t: string)
    ensures ValidateType(ToLower(t)) == ValidateType(t)
    ensures ValidateType(ToUpper(t)) == ValidateType(t)
  {
    LowerAfterUpper(t);
  }

  /** The value matched against `value1`: AAAA values in their expanded form. */
  function MatchValue(h: Helpers, c: Config): string
  {
    if ToUpper(c.rrType) == "AAAA" then h.shortIp6ToLongIp6(c.value) else c.value
  }

  /**
   * The conditions that identify the record: server, full name, upper-case
   * type, value, the view (`#`, the default view, when none is configured)
   * and the zone when one is configured.
   */
  function Conditions(h: Helpers, c: Config): (cs: seq<(string, string)>)
    ensures |cs| == if |c.zone| != 0 then 6 else 5
  {
    [("dns_name", c.server), ("rr_full_name", c.name), ("rr_type", ToUpper(c.rrType)),
     ("value1", MatchValue(h, c)), ("dnsview_name", if |c.view| != 0 then c.view else "#")]
    + (if |c.zone| != 0 then [("dnszone_name", c.zone)] else [])
  }

  /** Without a configured view the record is looked up in the default view `#`. */
  lemma DefaultViewLookup(h: Helpers, c: Config)
    requires |c.view| == 0
    ensures ("dnsview_name", "#") in Conditions(h, c)
    ensures forall v :: ("dnsview_name", v) in Conditions(h, c) ==> v == "#"
  {
    assert Conditions(h, c)[4] == ("dnsview_name", "#");
  }

  /** The zone takes part in the lookup exactly when one is configured. */
  lemma ZoneConditionWhenSet(h: Helpers, c: Config)
    ensures (exists z :: ("dnszone_name", z) in Conditions(h, c)) <==> |c.zone| != 0
    ensures |c.zone| != 0 ==> Conditions(h, c)[5] == ("dnszone_name", c.zone)
  {
    if |c.zone| != 0 {
      assert ("dnszone_name", c.zone) == Conditions(h, c)[5];
    }
  }

  /** The opening of the where clause: three conditions, the last one still missing its closing quote. */
  lemma OpeningText(server: string, name: string, rrType: string)
    ensures "dns_name" + "='" + server + "'" + " AND " + "rr_full_name" + "='" + name + "'" + " AND " + "rr_type" + "='" + rrType + "'"
         == Condition(("dns_name", server)) + " AND " + Condition(("rr_full_name", name)) + " AND " + Condition(("rr_type", rrType))
  {
  }

  /** Closing the open quote and appending one condition. */
  lemma QuoteStep(w: string, x: string, col: string, v: string)
    requires w + "'" == x
    ensures w + "'" + " AND " + col + "='" + v + "'" + " " == x + " AND " + Condition((col, v)) + " "
  {
  }

  /** Appending one condition after the trailing space. */
  lemma SpaceStep(w: string, x: string, col: string, v: string)
    requires w == x + " "
    ensures w + "AND " + col + "='" + v + "'" + " " == x + " AND " + Condition((col, v)) + " "
  {
  }

  /** The conjunction of `Conditions`, written out. */
  lemma ConditionsJoined(h: Helpers, c: Config, view: string, x: string)
    requires view == if |c.view| != 0 then c.view else "#"
    requires x
      == Condition(("dns_name", c.server)) + " AND " + Condition(("rr_full_name", c.name))
         + " AND " + Condition(("rr_type", ToUpper(c.rrType))) + " AND " + Condition(("value1", MatchValue(h, c)))
         + " AND " + Condition(("dnsview_name", view))
         + (if |c.zone| != 0 then " AND " + Condition(("dnszone_name", c.zone)) else "")
    ensures x == Conjunction(Conditions(h, c))
  {
    var cs := [("dns_name", c.server)];
    ConjunctionSnoc(cs, ("rr_full_name", c.name));
    cs := cs + [("rr_full_name", c.name)];
    ConjunctionSnoc(cs, ("rr_type", ToUpper(c.rrType)));
    cs := cs + [("rr_type", ToUpper(c.rrType))];
    ConjunctionSnoc(cs, ("value1", MatchValue(h, c)));
    cs := cs + [("value1", MatchValue(h, c))];
    ConjunctionSnoc(cs, ("dnsview_name", view));
    cs := cs + [("dnsview_name", view)];
    if |c.zone| != 0 {
      ConjunctionSnoc(cs, ("dnszone_name", c.zone));
      cs := cs + [("dnszone_name", c.zone)];
    }
    assert cs == Conditions(h, c);
  }

  /**
   * The where clause of the existence check and of the read, built by
   * successive appends (the literals are split at the column names): the
   * conjunction of `Conditions`, followed by a space.
   */
  method WhereClause(h: Helpers, c: Config) returns (w: string)
    ensures w == Conjunction(Conditions(h, c)) + " "
  {
    OpeningText(c.server, c.name, ToUpper(c.rrType));
    ghost var x := Condition(("dns_name", c.server)) + " AND " + Condition(("rr_full_name", c.name))
      + " AND " + Condition(("rr_type", ToUpper(c.rrType)));
    w := "dns_name" + "='" + c.server + "'" + " AND " + "rr_full_name" + "='" + c.name + "'" + " AND " + "rr_type" + "='" + ToUpper(c.rrType);
    if ToUpper(c.rrType) == "AAAA" {
      var value := h.shortIp6ToLongIp6(c.value);
      QuoteStep(w, x, "value1", value);
      w := w + "'" + " AND " + "value1" + "='" + value + "'" + " ";
    } else {
      QuoteStep(w, x, "value1", c.value);
      w := w + "'" + " AND " + "value1" + "='" + c.value + "'" + " ";
    }
    x := x + " AND " + Condition(("value1", MatchValue(h, c)));
    ghost var view := if |c.view| != 0 then c.view else "#";
    SpaceStep(w, x, "dnsview_name", view);
    if |c.view| != 0 {
      w := w + "AND " + "dnsview_name" + "='" + c.view + "'" + " ";
    } else {
      w := w + "AND " + "dnsview_name" + "='" + "#" + "'" + " ";
    }
    x := x + " AND " + Condition(("dnsview_name", view));
    if |c.zone| != 0 {
      SpaceStep(w, x, "dnszone_name", c.zone);
      w := w + "AND " + "dnszone_name" + "='" + c.zone + "'" + " ";
      x := x + " AND " + Condition(("dnszone_name", c.zone));
    }
    ConditionsJoined(h, c, view, x);
  }

  /** The lookup request of the existence check and of the read. */
  function ListRequest(clause: string): Request
  {
    Request("get", "rest/dns_rr_list", map["WHERE" := clause], map[])
  }

  /** The view and the zone sent on creation and update: lower-cased, and only when configured. */
  function Scoping(c: Config): map<string, string>
  {
    (if |c.view| != 0 then map["dnsview_name" := ToLower(c.view)] else map[])
    + (if |c.zone| != 0 then map["dnszone_name" := ToLower(c.zone)] else map[])
  }

  /** Scoping sends a view or a zone exactly when it is configured, lower-cased. */
  lemma ScopingSent(c: Config)
    ensures "dnsview_name" in Scoping(c) <==> |c.view| != 0
    ensures "dnszone_name" in Scoping(c) <==> |c.zone| != 0
    ensures "dnsview_name" in Scoping(c) ==> Scoping(c)["dnsview_name"] == ToLower(c.view)
    ensures "dnszone_name" in Scoping(c) ==> Scoping(c)["dnszone_name"] == ToLower(c.zone)
    ensures Scoping(c).Keys <= {"dnsview_name", "dnszone_name"}
  {
  }

  /** What is sent does not depend on the case in which the view and the zone are written. */
  lemma ScopingIgnoresCase(c: Config)
    ensures Scoping(c.(view := ToUpper(c.view), zone := ToUpper(c.zone))) == Scoping(c)
  {
    LowerAfterUpper(c.view);
    LowerAfterUpper(c.zone);
  }

  /** The record parameters of creation and update: the type upper-cased, the TTL in decimal. */
  function RecordParams(c: Config): map<string, string>
  {
    map["dns_name" := c.server, "rr_name" := c.name, "rr_type" := ToUpper(c.rrType),
        "value1" := c.value, "rr_ttl" := Itoa(c.ttl)]
  }

  function AddRequest(c: Config): Request
  {
    Request("post", "rest/dns_rr_add", RecordParams(c)["add_flag" := "new_only"] + Scoping(c), map[])
  }

  function UpdateRequest(id: string, c: Config): Request
  {
    Request("put", "rest/dns_rr_add", RecordParams(c)["rr_id" := id]["add_flag" := "edit_only"] + Scoping(c), map[])
  }

  function DeleteRequest(id: string, c: Config): Request
  {
    Request("delete", "rest/dns_rr_delete",
      map["rr_id" := id] + (if |c.view| != 0 then map["dnsview_name" := ToLower(c.view)] else map[]), map[])
  }

  function InfoRequest(id: string): Request
  {
    Request("get", "rest/dns_rr_info", map["rr_id" := id], map[])
  }

  /** The fields the read and import handlers assert as strings. */
  const ReadKeys: set<string> := {"dns_name", "rr_full_name", "rr_type", "value1", "ttl", "dnsview_name"}

  /**
   * The configuration after a read or an import of `rec`: AAAA values are
   * shortened, the TTL is parsed (0 when it is not a number), and the
   * default view `#` leaves the configured view as it was.
   */
  function ReadBack(h: Helpers, c: Config, rec: Record): (c': Config)
    requires ReadKeys <= rec.Keys
    ensures c'.zone == c.zone
    ensures c'.view == if rec["dnsview_name"] == "#" then c.view else rec["dnsview_name"]
    ensures c'.ttl == AtoiOrZero(rec["ttl"])
  {
    c.(server := rec["dns_name"], name := rec["rr_full_name"], rrType := rec["rr_type"],
       value := if ToUpper(rec["rr_type"]) == "AAAA" then h.longIp6ToShortIp6(rec["value1"]) else rec["value1"],
       ttl := AtoiOrZero(rec["ttl"]),
       view := if rec["dnsview_name"] != "#" then rec["dnsview_name"] else c.view)
  }

  /** The address codec's law for one value: expanding and then shortening gives it back. */
  predicate ShortensBack(h: Helpers, v: string)
  {
    h.longIp6ToShortIp6(h.shortIp6ToLongIp6(v)) == v
  }

  /**
   * Reading back a record the server stores as it was created (the type
   * upper-cased, the view lower-cased or `#`, AAAA values expanded, the
   * TTL in decimal) gives the configuration back, up to the case of the
   * type and the view.
   */
  lemma ReadAfterCreate(h: Helpers, c: Config, rec: Record)
    requires ReadKeys <= rec.Keys
    requires rec["dns_name"] == c.server && rec["rr_full_name"] == c.name
    requires rec["rr_type"] == ToUpper(c.rrType) && rec["value1"] == MatchValue(h, c)
    requires ToUpper(c.rrType) == "AAAA" ==> ShortensBack(h, c.value)
    requires rec["ttl"] == Itoa(c.ttl)
    requires rec["dnsview_name"] == if |c.view| != 0 then ToLower(c.view) else "#"
    ensures ReadBack(h, c, rec) == c.(rrType := ToUpper(c.rrType), view := ToLower(c.view))
  {
    LowerAfterUpper(c.rrType);
    ItoaRoundTrip(c.ttl);
    var c' := ReadBack(h, c, rec);
    assert c'.value == c.value;
    assert c'.view == ToLower(c.view);
  }

  class ResourceRecord {
    var id: string
    var config: Config

    constructor (config: Config)
      ensures this.config == config && id == ""
    {
      id := "";
      this.config := config;
    }

    /**
     * The existence check, by where clause: a 200 or 201 answer with a
     * record means the record exists and adopts its `rr_id`; any other
     * answer forgets the id; a transport failure is reported and keeps it.
     */
    method Exists(h: Helpers, r: Reply) returns (found: bool, d: Diag, sent: seq<Request>)
      modifies this`id
      ensures sent == [ListRequest(Conjunction(Conditions(h, config)) + " ")]
      ensures found <==> Accepted(r)
      ensures d == if r.TransportError? then Error(r.cause) else Ok
      ensures id == if Accepted(r) && "rr_id" in r.body[0] then r.body[0]["rr_id"]
                    else if r.Answer? && !Accepted(r) then "" else old(id)
    {
      var clause := WhereClause(h, config);
      sent := [ListRequest(clause)];
      if r.TransportError? {
        found, d := false, Error(r.cause);
        return;
      }
      d := Ok;
      if Accepted(r) {
        if "rr_id" in r.body[0] {
          id := r.body[0]["rr_id"];
        }
        found := true;
        return;
      }
      id := "";
      found := false;
    }

    /** The create handler: the record's id is the object id the server returns. */
    method Create(r: Reply) returns (d: Diag, sent: seq<Request>)
      modifies this`id
      ensures sent == [AddRequest(config)]
      ensures d == SubmitDiag(r, "SOLIDServer - Unable to create RR: " + config.name)
      ensures id == if d.Ok? then RetOid(r).value else old(id)
    {
      sent := [AddRequest(config)];
      d := SubmitDiag(r, "SOLIDServer - Unable to create RR: " + config.name);
      if d.Ok? {
        id := RetOid(r).value;
      }
    }

    /** The update handler: the record adopts the object id the server returns. */
    method Update(r: Reply) returns (d: Diag, sent: seq<Request>)
      modifies this`id
      ensures sent == [UpdateRequest(old(id), config)]
      ensures d == SubmitDiag(r, "SOLIDServer - Unable to update RR: " + config.name)
      ensures id == if d.Ok? then RetOid(r).value else old(id)
    {
      sent := [UpdateRequest(id, config)];
      d := SubmitDiag(r, "SOLIDServer - Unable to update RR: " + config.name);
      if d.Ok? {
        id := RetOid(r).value;
      }
    }

    /** The delete handler: success exactly on status 200 or 204, which clears the id. */
    method Delete(r: Reply) returns (d: Diag, sent: seq<Request>)
      modifies this`id
      ensures sent == [DeleteRequest(old(id), config)]
      ensures d == DeleteDiag(r, "SOLIDServer - Unable to delete RR: " + config.name)
      ensures id == if d.Ok? then "" else old(id)
    {
      sent := [DeleteRequest(id, config)];
      d := DeleteDiag(r, "SOLIDServer - Unable to delete RR: " + config.name);
      if d.Ok? {
        id := "";
      }
    }

    /**
     * The read handler, by where clause: a 200 answer adopts the record's
     * `rr_id` when it carries one and refreshes the configuration; any
     * other answer fails and keeps the state.
     */
    method Read(h: Helpers, r: Reply) returns (d: Diag, sent: seq<Request>)
      requires Carries(r, ReadKeys)
      modifies this`id, this`config
      ensures sent == [ListRequest(Conjunction(Conditions(h, old(config))) + " ")]
      ensures Fetched(r) ==>
        && d == Ok && config == ReadBack(h, old(config), r.body[0])
        && id == if "rr_id" in r.body[0] then r.body[0]["rr_id"] else old(id)
      ensures r.TransportError? ==> d == Error(r.cause) && unchanged(this)
      ensures r.Answer? && !Fetched(r) ==> d == Error("SOLIDServer - Unable to find RR: " + config.name + "\n") && unchanged(this)
    {
      var clause := WhereClause(h, config);
      sent := [ListRequest(clause)];
      if r.TransportError? {
        d := Error(r.cause);
        return;
      }
      if Fetched(r) {
        if "rr_id" in r.body[0] {
          id := r.body[0]["rr_id"];
        }
        config := ReadBack(h, config, r.body[0]);
        d := Ok;
        return;
      }
      d := Error("SOLIDServer - Unable to find RR: " + config.name + "\n");
    }

    /** The import handler, by object id: a 200 answer refreshes the configuration as a read does. */
    method Import(h: Helpers, r: Reply) returns (d: Diag, sent: seq<Request>)
      requires Carries(r, ReadKeys)
      modifies this`config
      ensures sent == [InfoRequest(id)]
      ensures Fetched(r) ==> d == Ok && config == ReadBack(h, old(config), r.body[0])
      ensures r.TransportError? ==> d == Error(r.cause) && unchanged(this)
      ensures r.Answer? && !Fetched(r) ==>
        d == Error("SOLIDServer - Unable to find and import RR (oid): " + id + "\n") && unchanged(this)
    {
      sent := [InfoRequest(id)];
      if r.TransportError? {
        d := Error(r.cause);
        return;
      }
      if Fetched(r) {
        config := ReadBack(h, config, r.body[0]);
        d := Ok;
        return;
      }
      d := Error("SOLIDServer - Unable to find and import RR (oid): " + id + "\n");
    }
  }
}
