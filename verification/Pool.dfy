/** The executor pool's availability word: one bit per executor. */
module Pool {
  import opened Basics
  import opened Transactions

  const BITS: nat := 64
  const MAX_EXECUTORS: nat := BITS

  /** A `u64`, lowest bit first. */
  type Word = w: seq<bool> | |w| == BITS witness seq(BITS, _ => false)

  const MAX: Word := seq(BITS, _ => true)
  const ONE: Word := seq(BITS, i => i == 0)

  function Or(a: Word, b: Word): Word {
    seq(BITS, i requires 0 <= i < BITS => a[i] || b[i])
  }

  function And(a: Word, b: Word): Word {
    seq(BITS, i requires 0 <= i < BITS => a[i] && b[i])
  }

  function Not(a: Word): Word {
    seq(BITS, i requires 0 <= i < BITS => !a[i])
  }

  function Shl(a: Word, n: nat): Word {
    seq(BITS, i requires 0 <= i < BITS => i >= n && a[i - n])
  }

  function Shr(a: Word, n: nat): Word {
    seq(BITS, i requires 0 <= i < BITS => i + n < BITS && a[i + n])
  }

  type ExecutorId = nat

  /** A worker's bit is set exactly when it belongs to the pool and holds no work. */
  predicate Tracks(word: Word, count: nat, busy: set<ExecutorId>) {
    forall id :: 0 <= id < BITS ==> (word[id] <==> id < count && id !in busy)
  }

  /** Position of the lowest set bit, or the width when there is none. */
  method TrailingZeros(word: Word) returns (id: nat)
    ensures id <= BITS && (id < BITS ==> word[id])
    ensures forall i :: 0 <= i < id ==> !word[i]
  {
    id := 0;
    while id < BITS && !word[id]
      invariant id <= BITS
      invariant forall i :: 0 <= i < id ==> !word[i]
    {
      id := id + 1;
    }
  }

  /** Availability bookkeeping; `running` is the ticket each busy worker was sent. */
  class Executors {
    const count: nat
    var available: Word
    var running: map<ExecutorId, nat>

    /** A worker's bit is clear exactly while it holds one ticket. */
    ghost predicate Valid()
      reads this
    {
      && count <= MAX_EXECUTORS
      && Tracks(available, count, running.Keys)
      && forall id :: id in running ==> id < count
    }

    constructor (count: nat)
      requires count <= MAX_EXECUTORS
      ensures Valid() && running == map[] && this.count == count
    {
      this.count := count;
      available := if count == 0 then seq(BITS, _ => false) else Shr(MAX, BITS - count);
      running := map[];
    }

    /** The lowest idle worker, if any. */
    method Available() returns (id: Option<ExecutorId>)
      requires Valid()
      ensures id.None? ==> forall i :: 0 <= i < count ==> i in running
      ensures id.Some? ==> id.value < count && id.value !in running
      ensures id.Some? ==> forall i :: 0 <= i < id.value ==> i in running
    {
      var first := TrailingZeros(available);
      id := if first != BITS then Some(first) else None;
    }

    method Dispatch(id: ExecutorId, ticket: nat)
      requires Valid() && id < count && id !in running
      modifies this
      ensures Valid() && running == old(running)[id := ticket]
    {
      available := And(available, Not(Shl(ONE, id)));
      running := running[id := ticket];
    }

    method Release(id: ExecutorId)
      requires Valid() && id in running
      modifies this
      ensures Valid() && running == old(running) - {id}
    {
      available := Or(available, Shl(ONE, id));
      running := running - {id};
    }
  }
}
