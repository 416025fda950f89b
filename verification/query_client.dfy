/**
 The query client: a registry from string keys to queries. A key's query is
 created lazily, bound to the first producer offered for that key, and never
 replaced or removed.
 */
module QueryClients {
  import opened Values
  import opened Queries

  /** The registry's store. The source keeps query objects and mutates them in
      place; here a changed query is written back under its key. */
  type Registry<V, E> = map<string, Query<V, E>>

  /** The result of `getQuery`: the registry after the call and the query
      handed back. */
  datatype Lookup<V, E> = Lookup(registry: Registry<V, E>, query: Query<V, E>)

  /** The registry before any call. */
  function EmptyRegistry<V, E>(): (reg: Registry<V, E>)
    ensures |reg| == 0
  {
    map[]
  }

  /** Get-or-create, first writer wins. When `key` is present its query is
      returned, the registry is left as it was and `callback` is discarded.
      When `key` is absent exactly one new query bound to `callback` is stored
      under it and every other key keeps its query. */
  function GetQuery<V, E>(reg: Registry<V, E>, key: string, callback: Producer<V>): (r: Lookup<V, E>)
    ensures key in r.registry && r.registry[key] == r.query
    ensures key in reg ==> r.registry == reg && r.query == reg[key]
    ensures key !in reg ==> r.query == NewQuery(callback)
    ensures r.registry.Keys == reg.Keys + {key}
    ensures forall k :: k in reg ==> k in r.registry && r.registry[k] == reg[k]
  {
    if key in reg then
      Lookup(reg, reg[key])
    else
      var q := NewQuery(callback);
      Lookup(reg[key := q], q)
  }

  /** `setQueryData(key, data)`: get-or-create with the constant producer of
      `data`, then `run` with the default parameters. The value reaches
      `data` only when that run settles, and only when the key was absent:
      for a present key the constant producer is discarded and the existing
      producer is invoked again, or its pending operation joined. */
  function SetQueryData<V, E>(reg: Registry<V, E>, key: string, data: V): (r: Registry<V, E>)
    ensures r.Keys == reg.Keys + {key}
    ensures forall k :: k in reg && k != key ==> r[k] == reg[k]
    ensures r[key].pending.Some?
    ensures key !in reg ==> r[key].callback == Constant(data)
    ensures key !in reg ==> r[key].Observed() == (false, Undefined, None)
    ensures key !in reg ==> r[key].calls == [EmptyObject] && r[key].InFlight()
    ensures key in reg ==> r[key].callback == reg[key].callback
    ensures key in reg ==> r[key].Observed() == reg[key].Observed()
    ensures key in reg && reg[key].pending.Some? ==> r == reg
    ensures key in reg && reg[key].pending.None? ==> r[key].calls == reg[key].calls + [EmptyObject]
  {
    var found := GetQuery(reg, key, Constant(data));
    var ran := Run(found.query, EmptyObject);
    found.registry[key := ran.query]
  }

  /** On a present key `setQueryData` does not depend on the value offered:
      the constant producer built from it is discarded by `getQuery`, so any
      two values leave the registry in the same state. */
  lemma SetQueryDataIgnoresValue<V, E>(reg: Registry<V, E>, key: string, d1: V, d2: V)
    requires key in reg
    ensures SetQueryData(reg, key, d1) == SetQueryData(reg, key, d2)
  {
  }

  /** Identity across calls: however many producers are offered for `key`,
      the query stored by the first `getQuery` is the one every later call
      returns, bound to the first producer. */
  lemma FirstWriterWins<V, E>(reg: Registry<V, E>, key: string, first: Producer<V>, later: seq<Producer<V>>)
    ensures key !in reg ==> GetQuery(reg, key, first).query.callback == first
    ensures var created := GetQuery(reg, key, first);
            var after := GetAll(created.registry, key, later);
            && after.0 == created.registry
            && forall i :: 0 <= i < |after.1| ==> after.1[i] == created.query
  {
  }

  /** `getQuery(key, cb)` called once for each producer of `cbs` in turn,
      collecting the queries returned. Once `key` is present, every call
      returns its stored query and the registry never changes. */
  function GetAll<V, E>(reg: Registry<V, E>, key: string, cbs: seq<Producer<V>>): (r: (Registry<V, E>, seq<Query<V, E>>))
    ensures |r.1| == |cbs|
    ensures key in reg ==> r.0 == reg && forall i :: 0 <= i < |r.1| ==> r.1[i] == reg[key]
    decreases |cbs|
  {
    if |cbs| == 0 then
      (reg, [])
    else
      var found := GetQuery(reg, key, cbs[0]);
      var rest := GetAll(found.registry, key, cbs[1..]);
      (rest.0, [found.query] + rest.1)
  }
}
