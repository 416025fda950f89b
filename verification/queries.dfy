/**
 One query: a producer, the three observable fields `isLoading`, `data` and
 `error`, and the private pending operation that de-duplicates overlapping
 runs.

 The asynchronous `run` is split into the three steps a single-threaded event
 loop performs:
 - `Run`: the synchronous part. It joins the pending operation or invokes the
   producer once and records a new one.
 - `Settle`: the producer's promise settled. The inner `execute()` writes the
   three fields in one step and returns the value it wrote into `data`.
 - `Finally`: the `finally` handler runs later and forgets the pending
   operation. Only then does the promise that `run` handed out (the one
   `finally` returns) fulfil, with the value `execute()` returned, so every
   awaiter resumes after the pending operation is gone and the next `Run`
   starts afresh.
 */
module Queries {
  import opened Values

  /** The state of an operation: still waiting on the producer, or `Executed`
      when the inner `execute()` has finished and returned `result`. An
      executed operation's promise is itself still pending: it fulfils with
      `result` only once the `finally` handler has run. */
  datatype OpState<+V> = InFlight | Executed(result: Slot<V>)

  /** An operation (the source's pending promise). `id` is the index of the
      producer invocation it stands for. */
  datatype Operation<+V> = Operation(id: nat, state: OpState<V>)

  /** A query. `calls` records, in order, the parameters of every producer
      invocation; its length counts the invocations. */
  datatype Query<+V, +E> = Query(
    callback: Producer<V>,
    isLoading: bool,
    data: Slot<V>,
    error: Option<E>,
    pending: Option<Operation<V>>,
    calls: seq<Params>)
  {
    /** An operation is waiting on the producer. */
    predicate InFlight() {
      pending.Some? && pending.value.state.InFlight?
    }

    /** The inner `execute()` has finished but the `finally` handler has not
        yet run, so the operation's promise is still pending. */
    predicate AwaitingFinally() {
      pending.Some? && pending.value.state.Executed?
    }

    /** The three fields an observer can see. */
    function Observed(): (bool, Slot<V>, Option<E>) {
      (isLoading, data, error)
    }
  }

  /** The result of `run`: the query after the call and the operation handed
      back to the caller. */
  datatype Ran<+V, +E> = Ran(query: Query<V, E>, op: Operation<V>)

  /** A freshly constructed query bound to `callback`. */
  function NewQuery<V, E>(callback: Producer<V>): (q: Query<V, E>)
    ensures q.callback == callback
    ensures !q.isLoading && q.data.Undefined? && q.error.None?
    ensures q.pending.None? && |q.calls| == 0
  {
    Query(callback, false, Undefined, None, None, [])
  }

  /** What the `data` field holds after the producer settled with `outcome`. */
  function DataAfter<V, E>(outcome: Outcome<V, E>): (d: Slot<V>)
    ensures outcome.Success? <==> d.Value?
    ensures outcome.Success? ==> d.value == outcome.value
    ensures outcome.Failure? <==> d.Null?
  {
    match outcome
    case Success(v) => Value(v)
    case Failure(_) => Null
  }

  /** What the `error` field holds after the producer settled with `outcome`. */
  function ErrorAfter<V, E>(outcome: Outcome<V, E>): (e: Option<E>)
    ensures outcome.Success? <==> e.None?
    ensures outcome.Failure? ==> e == Some(outcome.error)
  {
    match outcome
    case Success(_) => None
    case Failure(err) => Some(err)
  }

  /** The synchronous part of `run(params)`. While an operation is pending the
      call returns it and changes nothing: the producer is not invoked and
      `params` is ignored. Otherwise the producer is invoked exactly once, with
      `params`, and the new in-flight operation is recorded and returned. No
      observable field changes either way: in particular `isLoading` is not
      set. A producer that throws before returning its promise is the one
      exception: the source settles it inside this same call, which the model
      writes as `Run` followed at once by `Settle` with a failure. */
  function Run<V, E>(q: Query<V, E>, params: Params): (r: Ran<V, E>)
    ensures r.query.Observed() == q.Observed()
    ensures r.query.callback == q.callback
    ensures r.query.pending == Some(r.op)
    ensures q.pending.Some? ==> r.query == q && r.op == q.pending.value
    ensures q.pending.None? ==> r.query.calls == q.calls + [params]
    ensures q.pending.None? ==> r.op == Operation(|q.calls|, InFlight)
  {
    if q.pending.Some? then
      Ran(q, q.pending.value)
    else
      var op := Operation(|q.calls|, InFlight);
      Ran(q.(pending := Some(op), calls := q.calls + [params]), op)
  }

  /** The producer's promise settled with `outcome`. The three fields are
      written together: `isLoading` to false, `data` to the value or to
      null, `error` to the rejection or to undefined. The operation records
      that `execute()` returned the value written into `data`; that is the
      value its promise fulfils with after `Finally`, so it never rejects. When no
      operation is in flight there is nothing to settle and nothing changes. */
  function Settle<V, E>(q: Query<V, E>, outcome: Outcome<V, E>): (r: Query<V, E>)
    ensures r.callback == q.callback && r.calls == q.calls
    ensures !q.InFlight() ==> r == q
    ensures q.InFlight() ==> !r.isLoading
    ensures q.InFlight() && outcome.Success? ==> r.data == Value(outcome.value) && r.error.None?
    ensures q.InFlight() && outcome.Failure? ==> r.data.Null? && r.error == Some(outcome.error)
    ensures q.InFlight() ==> r.pending == Some(Operation(q.pending.value.id, Executed(r.data)))
  {
    if q.InFlight() then
      var data := DataAfter(outcome);
      q.(isLoading := false,
         data := data,
         error := ErrorAfter(outcome),
         pending := Some(q.pending.value.(state := Executed(data))))
    else
      q
  }

  /** The operation's `finally` handler: the executed pending operation is
      forgotten and its promise fulfils. Fields are untouched. It runs only
      after `execute()` has finished, so an in-flight operation is kept. */
  function Finally<V, E>(q: Query<V, E>): (r: Query<V, E>)
    ensures r.Observed() == q.Observed() && r.callback == q.callback && r.calls == q.calls
    ensures q.AwaitingFinally() ==> r.pending.None?
    ensures !q.AwaitingFinally() ==> r == q
  {
    if q.AwaitingFinally() then q.(pending := None) else q
  }

  /** The operation settles and its `finally` handler runs. */
  function Complete<V, E>(q: Query<V, E>, outcome: Outcome<V, E>): (r: Query<V, E>)
    ensures q.InFlight() ==> r.pending.None?
    ensures q.InFlight() ==> r.data == DataAfter(outcome) && r.error == ErrorAfter(outcome)
  {
    Finally(Settle(q, outcome))
  }

  /** `run` called once per element of `ps`, one after another, with nothing
      settling in between. Only the first call can invoke the producer, and
      only when nothing was pending; every call hands back the same
      operation, and the parameters of the later calls are never used. */
  function RunAll<V, E>(q: Query<V, E>, ps: seq<Params>): (r: (Query<V, E>, seq<Operation<V>>))
    ensures |r.1| == |ps|
    ensures r.0.Observed() == q.Observed() && r.0.callback == q.callback
    ensures |ps| == 0 ==> r.0 == q
    ensures |ps| > 0 ==> r.0.pending == Some(r.1[0])
    ensures |ps| > 0 && q.pending.Some? ==> r.0 == q
    ensures |ps| > 0 && q.pending.None? ==> r.0.calls == q.calls + [ps[0]]
    ensures forall i :: 0 <= i < |r.1| ==> r.1[i] == r.1[0]
    decreases |ps|
  {
    if |ps| == 0 then
      (q, [])
    else
      var first := Run(q, ps[0]);
      var rest := RunAll(first.query, ps[1..]);
      (rest.0, [first.op] + rest.1)
  }

  /** De-duplication: however many times `run` is called before the pending
      operation settles, the producer is invoked at most once, and exactly
      once when nothing was pending. */
  lemma RunAllInvokesOnce<V, E>(q: Query<V, E>, ps: seq<Params>)
    requires |ps| > 0
    ensures |RunAll(q, ps).0.calls| == |q.calls| + (if q.pending.None? then 1 else 0)
  {
  }

  /** After an operation has settled and its `finally` handler has run, the
      next `run` invokes the producer again, with its own parameters. */
  lemma RunAfterCompleteStartsFresh<V, E>(q: Query<V, E>, outcome: Outcome<V, E>, params: Params)
    requires q.InFlight()
    ensures Run(Complete(q, outcome), params).query.calls == q.calls + [params]
    ensures Run(Complete(q, outcome), params).op == Operation(|q.calls|, InFlight)
  {
  }

  /** Every caller that joined the operation observes the same outcome,
      whether the burst of calls started the operation or joined one already
      in flight: once the producer settles, the one operation they all hold
      records the value written into `data` (null after a failure), which its
      promise fulfils with after `Finally`. */
  lemma JoinersShareResult<V, E>(q: Query<V, E>, ps: seq<Params>, outcome: Outcome<V, E>)
    requires !q.AwaitingFinally() && |ps| > 0
    ensures var (joined, ops) := RunAll(q, ps);
            forall i :: 0 <= i < |ops| ==>
              Settle(joined, outcome).pending == Some(Operation(ops[i].id, Executed(DataAfter(outcome))))
  {
  }
}
