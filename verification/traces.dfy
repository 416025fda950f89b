/**
 The query client as an event system. Callers issue `getQuery`,
 `setQueryData` and `run`; the environment settles in-flight operations and
 later runs their `finally` handlers. Every state reachable from the empty
 registry keeps the invariant `Wf`, and no event ever rebinds a key's
 producer or removes a key.
 */
module Traces {
  import opened Values
  import opened Queries
  import opened QueryClients

  /** One step of the system. */
  datatype Event<V, E> =
    | GetQueryEvent(key: string, producer: Producer<V>)
    | SetQueryDataEvent(key: string, value: V)
    | RunEvent(key: string, params: Params)
    | SettleEvent(key: string, outcome: Outcome<V, E>)
    | FinallyEvent(key: string)

  /** The registry after `ev`, or `None` when `ev` cannot happen: `run` on a
      key nobody created, a settlement with no operation in flight or with an
      outcome the producer cannot yield, a `finally` handler before its
      operation's `execute()` finished. */
  function Step<V(==), E(==)>(reg: Registry<V, E>, ev: Event<V, E>): (r: Option<Registry<V, E>>)
    ensures r.Some? ==> reg.Keys <= r.value.Keys
    ensures r.Some? ==> forall k :: k in reg ==> r.value[k].callback == reg[k].callback
    ensures ev.RunEvent? ==> (r.Some? <==> ev.key in reg)
    ensures ev.SettleEvent? ==> (r.Some? <==> ev.key in reg && reg[ev.key].InFlight() && CanYield(reg[ev.key].callback, ev.outcome))
    ensures ev.FinallyEvent? ==> (r.Some? <==> ev.key in reg && reg[ev.key].AwaitingFinally())
    ensures ev.GetQueryEvent? || ev.SetQueryDataEvent? ==> r.Some?
  {
    match ev
    case GetQueryEvent(k, p) => Some(GetQuery(reg, k, p).registry)
    case SetQueryDataEvent(k, v) => Some(SetQueryData(reg, k, v))
    case RunEvent(k, p) =>
      if k in reg then Some(reg[k := Run(reg[k], p).query]) else None
    case SettleEvent(k, o) =>
      if k in reg && reg[k].InFlight() && CanYield(reg[k].callback, o)
      then Some(reg[k := Settle(reg[k], o)])
      else None
    case FinallyEvent(k) =>
      if k in reg && reg[k].AwaitingFinally() then Some(reg[k := Finally(reg[k])]) else None
  }

  /** The registry after the events of `evs` in order, or `None` when one of
      them cannot happen. */
  function Apply<V(==), E(==)>(reg: Registry<V, E>, evs: seq<Event<V, E>>): Option<Registry<V, E>>
    decreases |evs|
  {
    if |evs| == 0 then
      Some(reg)
    else
      match Step(reg, evs[0])
      case None => None
      case Some(next) => Apply(next, evs[1..])
  }

  /** The invariant of a reachable query.
      - `isLoading` is false: nothing ever assigns true to it.
      - A pending operation stands for the latest producer invocation.
      - An executed operation carries exactly the value written into `data`.
      - `data` is null exactly when `error` is set.
      - `data` is undefined exactly until the first operation has settled.
      - A query bound to the constant producer of `d` never fails, and once
        settled holds `d`. */
  ghost predicate Wf<V, E>(q: Query<V, E>)
  {
    && !q.isLoading
    && (q.pending.Some? ==> |q.calls| > 0 && q.pending.value.id == |q.calls| - 1)
    && (q.AwaitingFinally() ==> q.pending.value.state.result == q.data)
    && (q.data.Null? <==> q.error.Some?)
    && (q.data.Undefined? <==> |q.calls| == 0 || (|q.calls| == 1 && q.InFlight()))
    && (q.callback.Constant? ==> !q.data.Null?)
    && (q.callback.Constant? && q.data.Value? ==> q.data.value == q.callback.value)
  }

  ghost predicate AllWf<V, E>(reg: Registry<V, E>)
  {
    forall k :: k in reg ==> Wf(reg[k])
  }

  /** Every step keeps every query well formed. */
  lemma StepKeepsWf<V, E>(reg: Registry<V, E>, ev: Event<V, E>)
    requires AllWf(reg)
    requires Step(reg, ev).Some?
    ensures AllWf(Step(reg, ev).value)
  {
  }

  /** A run started after `execute()` has finished but before the `finally`
      handler has run joins that operation: the producer is not invoked, and
      the caller receives the still-pending promise, which fulfils after
      `Finally` with the value already written into `data`. */
  lemma RunBeforeFinallyJoins<V, E>(q: Query<V, E>, params: Params)
    requires Wf(q) && q.AwaitingFinally()
    ensures Run(q, params).query == q
    ensures Run(q, params).op == q.pending.value
    ensures Run(q, params).op.state == Executed(q.data)
  {
  }

  /** Any run of events keeps every query well formed. */
  lemma {:induction false} ApplyKeepsWf<V, E>(reg: Registry<V, E>, evs: seq<Event<V, E>>)
    requires AllWf(reg)
    requires Apply(reg, evs).Some?
    ensures AllWf(Apply(reg, evs).value)
    decreases |evs|
  {
    if |evs| > 0 {
      StepKeepsWf(reg, evs[0]);
      ApplyKeepsWf(Step(reg, evs[0]).value, evs[1..]);
    }
  }

  /** In every state reachable from the empty registry every query is well
      formed; in particular no query ever reports `isLoading == true`. */
  lemma ReachableIsWf<V, E>(evs: seq<Event<V, E>>)
    requires Apply(EmptyRegistry(), evs).Some?
    ensures AllWf(Apply(EmptyRegistry(), evs).value)
    ensures forall k :: k in Apply(EmptyRegistry(), evs).value ==> !Apply(EmptyRegistry(), evs).value[k].isLoading
  {
    ApplyKeepsWf(EmptyRegistry(), evs);
  }

  /** No sequence of events removes a key or rebinds its producer: the first
      producer offered for a key is the one it keeps for good. */
  lemma {:induction false} ApplyKeepsProducers<V, E>(reg: Registry<V, E>, evs: seq<Event<V, E>>)
    requires Apply(reg, evs).Some?
    ensures reg.Keys <= Apply(reg, evs).value.Keys
    ensures forall k :: k in reg ==> Apply(reg, evs).value[k].callback == reg[k].callback
    decreases |evs|
  {
    if |evs| > 0 {
      ApplyKeepsProducers(Step(reg, evs[0]).value, evs[1..]);
    }
  }

  /** `setQueryData(k, d)` on an absent key: the value is not visible at once,
      the only settlement the constant producer allows is success with `d`,
      and after it `data` holds `d` and `error` is undefined. */
  lemma SeededKeySettlesToValue<V, E>(reg: Registry<V, E>, key: string, d: V, outcome: Outcome<V, E>)
    requires key !in reg
    ensures SetQueryData(reg, key, d)[key].data.Undefined?
    ensures Step(SetQueryData(reg, key, d), SettleEvent(key, outcome)).Some? <==> outcome == Success(d)
    ensures var settled := Step(SetQueryData(reg, key, d), SettleEvent(key, Success(d))).value;
            settled[key].data == Value(d) && settled[key].error.None?
  {
  }

  /** `setQueryData(k, d)` on a key bound to an opaque producer starts or
      joins that producer's run, which may settle with any value, `d` or
      another, or fail. */
  lemma SetQueryDataOnFetcherKeySettlesFreely<V, E>(reg: Registry<V, E>, key: string, d: V, other: V, e: E)
    requires key in reg && reg[key].callback.Fetcher?
    requires !reg[key].AwaitingFinally()
    ensures var seeded := SetQueryData(reg, key, d);
            && Step(seeded, SettleEvent(key, Success(other))).Some?
            && Step(seeded, SettleEvent(key, Success(other))).value[key].data == Value(other)
            && Step(seeded, SettleEvent(key, Failure(e))).Some?
            && Step(seeded, SettleEvent(key, Failure(e))).value[key].data.Null?
  {
  }

  /** Seeding a key twice: after `setQueryData(k, d1)` has settled and its
      `finally` handler has run, `setQueryData(k, d2)` re-runs the first
      constant producer, so the only possible settlement is success with `d1`
      and `data` goes on holding `d1`. */
  lemma ReseedKeepsFirstValue<V, E>(reg: Registry<V, E>, key: string, d1: V, d2: V, outcome: Outcome<V, E>)
    requires key !in reg
    ensures var first := SetQueryData(reg, key, d1);
            var settled := Step(first, SettleEvent(key, Success(d1))).value;
            var finished := Step(settled, FinallyEvent(key)).value;
            var second := SetQueryData(finished, key, d2);
            && second[key].callback == Constant(d1)
            && |second[key].calls| == 2
            && (Step(second, SettleEvent(key, outcome)).Some? <==> outcome == Success(d1))
            && Step(second, SettleEvent(key, Success(d1))).value[key].data == Value(d1)
  {
  }

  /** The scenario of three consumers of one key: three `getQuery` calls with
      different producers in the same tick, then three runs, invoke only the
      first producer, once. */
  lemma ThreeConsumersShareOneInvocation<V, E>(key: string)
    ensures var evs := [
              GetQueryEvent(key, Fetcher(1)), GetQueryEvent(key, Fetcher(2)), GetQueryEvent(key, Fetcher(3)),
              RunEvent(key, EmptyObject), RunEvent(key, EmptyObject), RunEvent(key, EmptyObject)];
            var after := Apply(EmptyRegistry<V, E>(), evs);
            after.Some? && key in after.value && after.value[key].callback == Fetcher(1) && |after.value[key].calls| == 1
  {
    var run: Event<V, E> := RunEvent(key, EmptyObject);
    var created := GetQuery(EmptyRegistry<V, E>(), key, Fetcher(1)).registry;
    var ran := Step(created, run).value;
    assert ran[key].callback == Fetcher(1) && |ran[key].calls| == 1 && ran[key].pending.Some?;
    assert Run(ran[key], EmptyObject).query == ran[key];
    assert ran[key := ran[key]] == ran;
    assert Step(ran, run) == Some(ran);
    assert [run, run][1..] == [run] && [run][1..] == [];
    assert Apply(ran, [run]) == Some(ran);
    assert Apply(ran, [run, run]) == Some(ran);
    assert Apply(created, [run, run, run]) == Some(ran);
    assert Apply(created, [GetQueryEvent(key, Fetcher(3)), run, run, run]) == Some(ran);
    assert Apply(created, [GetQueryEvent(key, Fetcher(2)), GetQueryEvent(key, Fetcher(3)), run, run, run]) == Some(ran);
  }
}
