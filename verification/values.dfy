/**
 The value vocabulary of the query cache: optional fields, the three-way
 state of the `data` field, producer outcomes, call parameters and the
 opaque producers a query is bound to.
 */
module Values {

  /** An optional value; `None` stands for JavaScript's `undefined`. */
  datatype Option<+T> = None | Some(value: T)

  /** The `data` field of a query. It starts `undefined`, a failed run writes
      `null` into it and a successful run writes the produced value. The same
      three-way value is what an operation's promise fulfils with. A payload
      `Value(v)` is never null or undefined: the model's payload type `V`
      leaves out nullish values. */
  datatype Slot<+T> = Undefined | Null | Value(value: T)

  /** How the producer's promise settled: fulfilled with a non-nullish value
      or rejected with an error value. */
  datatype Outcome<+V, +E> = Success(value: V) | Failure(error: E)

  /** The argument `run` passes to the producer. When the caller gives none,
      `run` defaults it to a fresh empty object. */
  datatype Params = EmptyObject | Supplied(tag: nat)

  /** A producer, reduced to what the cache can tell about it: either an opaque
      asynchronous function known only by identity, or the constant producer
      that resolves at once to a fixed value. */
  datatype Producer<+V> = Fetcher(id: nat) | Constant(value: V)

  /** Whether `producer` can settle with `outcome`. An opaque producer can
      settle either way with anything; a constant producer never rejects and
      always resolves to its own value, which holds because `V` leaves out
      thenables (an `async` function returning a thenable adopts its state). */
  predicate CanYield<V(==), E(==)>(producer: Producer<V>, outcome: Outcome<V, E>)
  {
    match producer
    case Fetcher(_) => true
    case Constant(v) => outcome == Success(v)
  }
}
