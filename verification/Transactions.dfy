/** Transactions as the engine schedules them: a list of declared account
    accesses, executed by a pure function of the accounts it declares. */
module Transactions {
  import opened Basics

  type Value = nat

  /** Persisted account state; an absent key is an account that does not exist. */
  type State = map<Pubkey, Value>

  datatype Access = Access(key: Pubkey, writable: bool)

  datatype Transaction = Transaction(signature: Signature, accesses: seq<Access>)

  predicate UniqueUpTo(tx: Transaction, n: nat)
    requires n <= |tx.accesses|
  {
    forall i, j :: 0 <= i < j < n ==> tx.accesses[i].key != tx.accesses[j].key
  }

  /** Sanitisation rejects duplicate static account keys. */
  predicate UniqueKeys(tx: Transaction) {
    UniqueUpTo(tx, |tx.accesses|)
  }

  function KeysUpTo(tx: Transaction, n: nat): set<Pubkey>
    requires n <= |tx.accesses|
  {
    set i | 0 <= i < n :: tx.accesses[i].key
  }

  lemma OneMoreKey(tx: Transaction, n: nat)
    requires n < |tx.accesses|
    ensures KeysUpTo(tx, n + 1) == KeysUpTo(tx, n) + {tx.accesses[n].key}
  {
  }

  lemma OneMoreUnique(tx: Transaction, n: nat)
    requires n < |tx.accesses|
    ensures UniqueUpTo(tx, n + 1) <==> UniqueUpTo(tx, n) && tx.accesses[n].key !in KeysUpTo(tx, n)
  {
  }

  lemma {:induction false} KeysCount(tx: Transaction, n: nat)
    requires n <= |tx.accesses|
    ensures |KeysUpTo(tx, n)| <= n && (|KeysUpTo(tx, n)| == n <==> UniqueUpTo(tx, n))
  {
    if n > 0 {
      hide KeysUpTo, UniqueUpTo;
      KeysCount(tx, n - 1);
      OneMoreKey(tx, n - 1);
      OneMoreUnique(tx, n - 1);
    }
  }

  /** Keys are unique exactly when there are as many as declared accesses. */
  lemma UniqueIffCounted(tx: Transaction)
    ensures UniqueKeys(tx) <==> |KeysUpTo(tx, |tx.accesses|)| == |tx.accesses|
  {
    KeysCount(tx, |tx.accesses|);
  }

  predicate Reads(tx: Transaction, k: Pubkey) {
    Access(k, false) in tx.accesses
  }

  predicate Writes(tx: Transaction, k: Pubkey) {
    Access(k, true) in tx.accesses
  }

  predicate Touches(tx: Transaction, k: Pubkey) {
    Reads(tx, k) || Writes(tx, k)
  }

  /** Both transactions use `k`, and at least one of them writes it. */
  predicate ConflictOn(a: Transaction, b: Transaction, k: Pubkey) {
    Touches(a, k) && Touches(b, k) && (Writes(a, k) || Writes(b, k))
  }

  ghost predicate Conflict(a: Transaction, b: Transaction) {
    exists k :: ConflictOn(a, b, k)
  }

  /** The parts of execution the scheduler treats as opaque: what a transaction
      computes from the accounts it declares, how a block boundary rewrites the
      sysvar accounts, and the block digest. */
  datatype Semantics = Semantics(
    run: (Transaction, State) -> State,
    boundary: (Hash, State) -> State,
    digest: (Hash, seq<Signature>) -> Hash)

  /** The declared accounts as a transaction sees them when it starts. */
  function View(tx: Transaction, s: State): State {
    map k | k in s && Touches(tx, k) :: s[k]
  }

  /** Lands a transaction's output: only declared writable accounts change. */
  function Land(tx: Transaction, s: State, out: State): State {
    map k | k in s.Keys + out.Keys && (if Writes(tx, k) then k in out else k in s)
      :: if Writes(tx, k) then out[k] else s[k]
  }

  /** One transaction executed alone. */
  function Apply(sem: Semantics, tx: Transaction, s: State): State {
    Land(tx, s, sem.run(tx, View(tx, s)))
  }

  /** Transactions executed one after another in list order. */
  function Serial(sem: Semantics, txs: seq<Transaction>, s: State): State {
    if txs == [] then s else Apply(sem, txs[|txs| - 1], Serial(sem, txs[..|txs| - 1], s))
  }

  /** Two states hold the same account under `k`. */
  predicate Same(a: State, b: State, k: Pubkey) {
    && (k in a <==> k in b)
    && (k in a ==> a[k] == b[k])
  }

  /** What a transaction is given to work on: exactly its declared accounts, each
      with the value it has in `s`. */
  ghost predicate Shows(tx: Transaction, saw: State, s: State) {
    && (forall k, w :: Access(k, w) in tx.accesses ==> Same(saw, s, k))
    && (forall k :: k in saw ==> Access(k, false) in tx.accesses || Access(k, true) in tx.accesses)
  }

  /** What running a transaction does to `s`: the accounts declared writable become
      what it returned for the accounts it saw, all others stay. */
  ghost predicate Becomes(sem: Semantics, tx: Transaction, s: State, saw: State, after: State) {
    && Shows(tx, saw, s)
    && (forall k :: Access(k, true) in tx.accesses ==> Same(after, sem.run(tx, saw), k))
    && (forall k :: Access(k, true) !in tx.accesses ==> Same(after, s, k))
  }

  lemma ViewShows(tx: Transaction, s: State)
    ensures Shows(tx, View(tx, s), s)
  {
    forall k, w | Access(k, w) in tx.accesses ensures Same(View(tx, s), s, k) {
      assert Access(k, if w then true else false) in tx.accesses;
    }
  }

  /** Landing takes written accounts from the output and leaves the others. */
  lemma LandAt(tx: Transaction, s: State, out: State, k: Pubkey)
    ensures Same(Land(tx, s, out), if Access(k, true) in tx.accesses then out else s, k)
  {
  }

  lemma ApplyBecomes(sem: Semantics, tx: Transaction, s: State)
    ensures Becomes(sem, tx, s, View(tx, s), Apply(sem, tx, s))
  {
    hide View, Land;
    ViewShows(tx, s);
    forall k
      ensures Same(Apply(sem, tx, s), if Access(k, true) in tx.accesses then sem.run(tx, View(tx, s)) else s, k)
    {
      LandAt(tx, s, sem.run(tx, View(tx, s)), k);
    }
  }

  lemma {:induction false} SerialPrefix(sem: Semantics, txs: seq<Transaction>, tx: Transaction, j: nat, s: State)
    requires j <= |txs|
    ensures Serial(sem, (txs + [tx])[..j], s) == Serial(sem, txs[..j], s)
    ensures Serial(sem, txs + [tx], s) == Apply(sem, tx, Serial(sem, txs, s))
  {
    assert (txs + [tx])[..j] == txs[..j];
    assert (txs + [tx])[..|txs|] == txs;
  }

  /** Accounts nobody between two points writes keep their serial value. */
  lemma {:induction false} SerialUntouched(sem: Semantics, txs: seq<Transaction>, s: State, i: nat, j: nat, k: Pubkey)
    requires i <= j <= |txs|
    requires forall m :: i <= m < j ==> !Writes(txs[m], k)
    ensures Same(Serial(sem, txs[..i], s), Serial(sem, txs[..j], s), k)
    decreases j
  {
    if i < j {
      SerialUntouched(sem, txs, s, i, j - 1, k);
      assert txs[..j][..j - 1] == txs[..j - 1];
      assert !Writes(txs[j - 1], k);
    }
  }
}
