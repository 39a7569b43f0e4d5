/**
 * Class parameters: the free-form key/value tags attached to an object.
 * On the way out the handlers add the configured tags to a `url.Values`
 * after any tag the engine sets itself (`gateway`, `dhcprange6`); on the
 * way back they keep, for each configured key, the first value the server
 * returned, or reject the `gateway` key for the data sources.
 */
module ClassParams {
  import opened Base

  /** The tags after `for k, v := range params { q.Add(k, v) }`. */
  function Appended(q: Query, params: map<string, string>): Query
  {
    map k | k in q.Keys + params.Keys :: ValuesOf(q, k) + (if k in params then [params[k]] else [])
  }

  /** Adds every configured tag to `q`, in the map's (unspecified) order. */
  method AddAll(q: Query, params: map<string, string>) returns (r: Query)
    ensures r == Appended(q, params)
  {
    r := q;
    var todo := params.Keys;
    while todo != {}
      invariant todo <= params.Keys
      invariant r.Keys == q.Keys + (params.Keys - todo)
      invariant forall k :: k in r ==> r[k] == ValuesOf(q, k) + (if k in params && k !in todo then [params[k]] else [])
      decreases todo
    {
      var k :| k in todo;
      r := Add(r, k, params[k]);
      todo := todo - {k};
    }
  }

  /** Adding tags keeps every key's earlier values first: a tag the engine
      set before the loop is the one a later read sees first. */
  lemma AppendedKeepsFirst(q: ParsedQuery, params: map<string, string>)
    ensures var a := Appended(q, params);
      && a.Keys == q.Keys + params.Keys
      && (forall k :: k in a ==> |a[k]| > 0)
      && (forall k :: k in q ==> a[k][0] == q[k][0])
      && (forall k :: k in params && k !in q ==> a[k] == [params[k]])
  {
  }

  /** The configured tags as a read reports them. */
  function Reconciled(current: map<string, string>, retrieved: Query): map<string, string>
  {
    map k | k in current :: if k in retrieved then First(retrieved, k) else ""
  }

  /**
   * The read-side loop: exactly the configured keys, each with the first
   * value the server returned for it, or "" when the server has none.
   */
  method Reconcile(current: map<string, string>, retrieved: Query) returns (computed: map<string, string>)
    ensures computed.Keys == current.Keys
    ensures forall k :: k in computed && k in retrieved ==> computed[k] == First(retrieved, k)
    ensures forall k :: k in computed && k !in retrieved ==> computed[k] == ""
    ensures computed == Reconciled(current, retrieved)
  {
    computed := map[];
    var todo := current.Keys;
    ghost var spec := Reconciled(current, retrieved);
    while todo != {}
      invariant todo <= current.Keys
      invariant computed.Keys == current.Keys - todo
      invariant forall k :: k in computed ==> computed[k] == spec[k]
      decreases todo
    {
      var ck :| ck in todo;
      if ck in retrieved {
        computed := computed[ck := First(retrieved, ck)];
      } else {
        computed := computed[ck := ""];
      }
      todo := todo - {ck};
    }
    assert computed.Keys == spec.Keys;
  }

  /**
   * Reading back what a create sent: every configured tag comes back as
   * configured, except a configured tag that the engine also set itself
   * (`engine`), which comes back with the engine's value.
   */
  lemma ReadBackSent(engine: ParsedQuery, current: map<string, string>)
    ensures var sent := Appended(engine, current);
      && (forall k :: k in sent ==> |sent[k]| > 0)
      && (forall k :: k in current && k !in engine ==> Reconciled(current, sent)[k] == current[k])
      && (forall k :: k in current && k in engine ==> Reconciled(current, sent)[k] == engine[k][0])
  {
    AppendedKeepsFirst(engine, current);
  }

  /** A read reports every configured tag that comes back first with its configured value. */
  lemma ReconciledIdentity(current: map<string, string>, retrieved: Query)
    requires forall k :: k in current ==> k in retrieved && First(retrieved, k) == current[k]
    ensures Reconciled(current, retrieved) == current
  {
  }

  /** When the engine sets none of the configured keys, a read of what
      was sent reports the configuration unchanged. */
  lemma ReadBackDisjoint(engine: ParsedQuery, current: map<string, string>)
    requires forall k :: k in current ==> k !in engine
    ensures var sent := Appended(engine, current);
      (forall k :: k in sent ==> |sent[k]| > 0) && Reconciled(current, sent) == current
  {
    var sent := Appended(engine, current);
    assert forall k :: k in sent ==> |sent[k]| > 0;
    assert forall k :: k in current ==> k in sent && sent[k][0] == current[k];
    ReconciledIdentity(current, sent);
  }

  /** The data sources' tags: every returned key but `gateway`, with its first value. */
  function WithoutGateway(retrieved: Query): map<string, string>
  {
    map k | k in retrieved && k != "gateway" :: First(retrieved, k)
  }

  /** The data-source loop that skips the `gateway` key. */
  method DropGateway(retrieved: Query) returns (computed: map<string, string>)
    ensures computed.Keys == retrieved.Keys - {"gateway"}
    ensures forall k :: k in computed ==> computed[k] == First(retrieved, k)
    ensures computed == WithoutGateway(retrieved)
  {
    computed := map[];
    var todo := retrieved.Keys;
    while todo != {}
      invariant todo <= retrieved.Keys
      invariant computed.Keys == (retrieved.Keys - todo) - {"gateway"}
      invariant forall k :: k in computed ==> computed[k] == First(retrieved, k)
      decreases todo
    {
      var ck :| ck in todo;
      if ck != "gateway" {
        computed := computed[ck := First(retrieved, ck)];
      }
      todo := todo - {ck};
    }
  }

  /** What a data source reports, configured on a resource, is reported
      back unchanged by that resource's read: no drift. */
  lemma DataSourceTagsAreStable(retrieved: Query)
    ensures Reconciled(WithoutGateway(retrieved), retrieved) == WithoutGateway(retrieved)
  {
  }
}
