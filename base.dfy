/**
 * Shared vocabulary of the model: optional values, Go's uint32, url.Values,
 * the inventory's answers, the requests the provider sends, the diagnostics
 * its handlers return, and the helper functions it calls but that are not
 * part of this model.
 */
module Base {

  datatype Option<+T> = None | Some(value: T)

  /** Result of a lookup against the inventory (site, parent block, free candidates). */
  datatype Lookup<+T> = Found(value: T) | LookupError(cause: string)

  const TwoTo32: int := 0x1_0000_0000

  /** The values of Go's `uint32`. */
  type uint32 = x: int | 0 <= x < 0x1_0000_0000

  /** Go's conversion `uint32(x)`, and the wrap-around of uint32 `+` and `-`. */
  function U32(x: int): uint32
  {
    x % TwoTo32
  }

  /** `url.Values`: every key maps to the list of values added for it, in order. */
  type Query = map<string, seq<string>>

  /** What `url.ParseQuery` yields: no key has an empty list of values. */
  type ParsedQuery = q: Query | forall k :: k in q ==> |q[k]| > 0 witness map[]

  /** `q[k][0]`, read once `k` is known to be present; "" for an empty
      list of values, which `url.ParseQuery` never yields. */
  function First(q: Query, k: string): string
    requires k in q
  {
    if |q[k]| > 0 then q[k][0] else ""
  }

  /** `url.Values.Add`: appends `v` to the values of `k`. */
  function Add(q: Query, k: string, v: string): Query
  {
    q[k := ValuesOf(q, k) + [v]]
  }

  /** The values of `k` in `q`, empty when `k` is absent. */
  function ValuesOf(q: Query, k: string): seq<string>
  {
    if k in q then q[k] else []
  }

  /**
   * One JSON object of an answer body, restricted to its string-valued
   * fields: a Go type assertion `buf[0][key].(string)` succeeds exactly
   * when `key` is in the record.
   */
  type Record = map<string, string>

  /** The answer to one request: a transport failure or an HTTP answer with its decoded body. */
  datatype Reply = TransportError(cause: string) | Answer(status: int, body: seq<Record>)

  /** A request sent to the inventory's REST interface. `classParams` is the
      class-parameter set before `url.Values.Encode`. */
  datatype Request = Request(verb: string, service: string, params: map<string, string>, classParams: Query)

  /** What a handler reports: success, or an error with its message. */
  datatype Diag = Ok | Error(message: string)

  /** The string field `key` of the first record of an answer, if any. */
  function Field(r: Reply, key: string): Option<string>
  {
    if r.Answer? && |r.body| > 0 && key in r.body[0] then Some(r.body[0][key]) else None
  }

  /** The success test shared by create/update handlers: status 200 or 201 and a non-empty body. */
  predicate Accepted(r: Reply)
  {
    r.Answer? && (r.status == 200 || r.status == 201) && |r.body| > 0
  }

  /** The success test of the read handlers: status 200 and a non-empty body. */
  predicate Fetched(r: Reply)
  {
    r.Answer? && r.status == 200 && |r.body| > 0
  }

  /** A successful read answer carries every one of `keys` in its first
      record; the handlers' type assertions on those fields panic otherwise. */
  predicate Carries(r: Reply, keys: set<string>)
  {
    Fetched(r) ==> keys <= r.body[0].Keys
  }

  /**
   * The verdict of the delete handlers: a transport failure is reported as
   * is; any status other than 200 and 204 fails with `failure`, followed by
   * the server's `errmsg` in parentheses when it sent one.
   */
  function DeleteDiag(r: Reply, failure: string): (d: Diag)
    ensures d.Ok? <==> r.Answer? && (r.status == 200 || r.status == 204)
    ensures r.TransportError? ==> d == Error(r.cause)
    ensures r.Answer? && !d.Ok? ==> HasPrefix(d.message, failure)
  {
    if r.TransportError? then Error(r.cause)
    else if r.status != 200 && r.status != 204 then
      match ErrMsg(r)
      case Some(m) => Error(failure + " (" + m + ")")
      case None => Error(failure)
    else Ok
  }

  /**
   * The verdict of creation and update: success exactly when the server
   * returns an object id; otherwise `failure`, with the server's `errmsg`
   * in parentheses when it sent one.
   */
  function SubmitDiag(r: Reply, failure: string): (d: Diag)
    ensures d.Ok? <==> RetOid(r).Some?
    ensures r.TransportError? ==> d == Error(r.cause)
    ensures r.Answer? && ErrMsg(r).Some? && !d.Ok? ==> d == Error(failure + " (" + ErrMsg(r).value + ")")
    ensures r.Answer? && ErrMsg(r).None? && !d.Ok? ==> d == Error(failure + "\n")
  {
    if r.TransportError? then Error(r.cause)
    else if RetOid(r).Some? then Ok
    else if |r.body| > 0 && "errmsg" in r.body[0] then Error(failure + " (" + r.body[0]["errmsg"] + ")")
    else Error(failure + "\n")
  }

  /** The verdict of a best-effort release (a subnet's gateway address): it
      fails only on a transport failure; a refusal by the server is only
      logged and counts as success. */
  function ReleaseDiag(r: Reply): (d: Diag)
    ensures d.Ok? <==> r.Answer?
    ensures r.TransportError? ==> d == Error(r.cause)
  {
    if r.TransportError? then Error(r.cause) else Ok
  }

  /** strings.HasPrefix */
  predicate HasPrefix(s: string, p: string)
  {
    |p| <= |s| && s[..|p|] == p
  }

  /** The object id a successful creation returns (`ret_oid`), if the answer carries one. */
  function RetOid(r: Reply): (oid: Option<string>)
    ensures oid.Some? <==> Accepted(r) && "ret_oid" in r.body[0]
  {
    if Accepted(r) then Field(r, "ret_oid") else None
  }

  /** The server's error message (`errmsg`), if the answer carries one. */
  function ErrMsg(r: Reply): Option<string>
  {
    Field(r, "errmsg")
  }

  /**
   * Helpers the handlers call whose definitions are not part of this model
   * (address codec, class-parameter helpers, `url.ParseQuery`). They are
   * passed in as function values; laws about them are stated where a lemma
   * needs one.
   */
  datatype Helpers = Helpers(
    hexIpToIp: string -> string,
    ipToLong: string -> uint32,
    longToIp: uint32 -> string,
    prefixLengthToSize: int -> int,
    sizeToPrefixLength: int -> int,
    prefixLengthToHexIp: int -> string,
    hexIp6ToIp6: string -> string,
    ip6ToHexIp6: string -> string,
    bigIntToHexStr: int -> string,
    prefix6LengthToSize: int -> int,
    shortIp6ToLongIp6: string -> string,
    longIp6ToShortIp6: string -> string,
    urlFromClassParams: map<string, string> -> Query,
    typeListConsistentMerge: (seq<string>, seq<string>) -> seq<string>,
    parseQuery: string -> Query)

  /** The law the IPv4 codec is assumed to obey: a /p block holds 2^(32-p) addresses. */
  predicate SizeLaw4(h: Helpers)
  {
    forall p :: 0 <= p <= 32 ==> h.prefixLengthToSize(p) == Pow2(32 - p)
  }

  /** The law the IPv6 codec is assumed to obey: a /p block holds 2^(128-p) addresses. */
  predicate SizeLaw6(h: Helpers)
  {
    forall p :: 0 <= p <= 128 ==> h.prefix6LengthToSize(p) == Pow2(128 - p)
  }

  function Pow2(n: nat): (r: nat)
    ensures r >= 1
  {
    if n == 0 then 1 else 2 * Pow2(n - 1)
  }
}
