/** The sequencer, its executors and the account state as one transition system.
    Executors load, land and report in separate steps, so every interleaving of
    reads, writes and completions of running transactions is a run. */
module Sequencer {
  import opened Basics
  import opened Transactions
  import opened Ordering
  import opened OrderingRegister
  import opened OrderingComplete
  import opened Pool

  /** Pending transactions per executor before the sequencer stops accepting. */
  const MAX_PENDING_EXECUTOR_TXNS: nat := 16

  /** One admitted message: a transaction, or a block boundary. */
  datatype Item = Tx(tx: Transaction) | Boundary

  /** Account state and hash chain of the reference, one-at-a-time engine. */
  datatype Chain = Chain(accounts: State, parent: Hash, absorbed: seq<Signature>)

  function ReplayItem(sem: Semantics, item: Item, c: Chain): Chain {
    match item
    case Tx(tx) => Chain(Apply(sem, tx, c.accounts), c.parent, c.absorbed + [tx.signature])
    case Boundary =>
      var hash := sem.digest(c.parent, c.absorbed);
      Chain(sem.boundary(hash, c.accounts), hash, [])
  }

  /** The admitted stream executed strictly in order by one thread. */
  function Replay(sem: Semantics, items: seq<Item>, c: Chain): Chain {
    if items == [] then c else ReplayItem(sem, items[|items| - 1], Replay(sem, items[..|items| - 1], c))
  }

  datatype Phase = Assigned | Loaded(view: State) | Landed

  datatype Job = Job(ticket: Ticket, request: Transaction, phase: Phase)

  /** `history`, `txs` and `base` only record what was admitted: everything so
      far, this drain epoch, and the reference chain when the epoch began. */
  datatype System = System(
    table: Table,
    running: map<ExecutorId, Job>,
    count: nat,
    accounts: State,
    parent: Hash,
    absorbed: seq<Signature>,
    history: seq<Item>,
    txs: seq<Transaction>,
    base: Chain)

  datatype Step =
    | Admit(tx: Transaction)
    | Dispatch(id: ExecutorId)
    | Load(id: ExecutorId)
    | Commit(id: ExecutorId)
    | Acknowledge(id: ExecutorId)
    | Barrier
    | Seal

  function Start(count: nat, c: Chain): System {
    System(EMPTY, map[], count, c.accounts, c.parent, c.absorbed, [], [], c)
  }

  predicate Accepting(s: System) {
    s.table.outstanding < MAX_PENDING_EXECUTOR_TXNS * s.count
  }

  predicate Enabled(s: System, step: Step) {
    match step
    case Admit(tx) => Accepting(s) && UniqueKeys(tx)
    case Dispatch(id) => id < s.count && id !in s.running && s.table.ready != []
    case Load(id) => id in s.running && s.running[id].phase.Assigned?
    case Commit(id) => id in s.running && s.running[id].phase.Loaded?
    case Acknowledge(id) => id in s.running && s.running[id].phase.Landed?
                            && s.running[id].ticket < |s.table.nodes| && s.table.outstanding > 0
    case Barrier => s.table.outstanding == 0
    case Seal => s.table.outstanding == 0
  }

  function Next(sem: Semantics, s: System, step: Step): System
    requires Enabled(s, step)
  {
    match step
    case Admit(tx) =>
      s.(table := Registered(s.table, tx), absorbed := s.absorbed + [tx.signature],
      history := s.history + [Tx(tx)], txs := s.txs + [tx])
    case Dispatch(id) =>
      var next := s.table.ready[0];
      s.(table := s.table.(ready := s.table.ready[1..]),
      running := s.running[id := Job(next.ticket, next.request, Assigned)])
    case Load(id) =>
      var job := s.running[id];
      s.(running := s.running[id := job.(phase := Loaded(View(job.request, s.accounts)))])
    case Commit(id) =>
      var job := s.running[id];
      s.(accounts := Land(job.request, s.accounts, sem.run(job.request, job.phase.view)),
      running := s.running[id := job.(phase := Landed)])
    case Acknowledge(id) =>
      s.(table := Completed(s.table, s.running[id].ticket), running := s.running - {id})
    case Barrier =>
      s.(table := EMPTY, txs := [], base := Chain(s.accounts, s.parent, s.absorbed))
    case Seal =>
      var hash := sem.digest(s.parent, s.absorbed);
      var accounts := sem.boundary(hash, s.accounts);
      s.(table := EMPTY, accounts := accounts, parent := hash, absorbed := [],
      history := s.history + [Boundary], txs := [], base := Chain(accounts, hash, []))
  }

  /** `steps` is a run from `s`, ending in `e`. */
  ghost predicate Run(sem: Semantics, s: System, steps: seq<Step>, e: System)
    decreases |steps|
  {
    if steps == [] then s == e
    else exists m :: RunStep(sem, s, steps, m, e)
  }

  ghost predicate RunStep(sem: Semantics, s: System, steps: seq<Step>, m: System, e: System)
    requires steps != []
    decreases |steps|, 0
  {
    var last := steps[|steps| - 1];
    Run(sem, s, steps[..|steps| - 1], m) && Enabled(m, last) && e == Next(sem, m, last)
  }

  // ---------------------------------------------------------------- Invariant

  /** Executors hold exactly the released, unfinished, dequeued tickets, one each. */
  ghost predicate PoolSound(s: System) {
    && 0 < s.count <= MAX_EXECUTORS
    && |s.table.nodes| == |s.txs|
    && (forall id :: id in s.running ==>
          && id < s.count
          && s.running[id].ticket < |s.txs|
          && InFlight(s.table, s.running[id].ticket)
          && s.running[id].request == s.txs[s.running[id].ticket])
    && (forall a, b :: a in s.running && b in s.running && s.running[a].ticket == s.running[b].ticket ==> a == b)
    && AllHeld(s)
  }

  ghost predicate AllHeld(s: System) {
    forall c: Ticket :: InFlight(s.table, c) ==> exists id :: Holds(s, id, c)
  }

  predicate Holds(s: System, id: ExecutorId, c: Ticket) {
    id in s.running && s.running[id].ticket == c
  }

  function Signatures(txs: seq<Transaction>): seq<Signature> {
    seq(|txs|, i requires 0 <= i < |txs| => txs[i].signature)
  }

  /** The reference chain after everything admitted so far. */
  ghost predicate HistorySound(sem: Semantics, init: Chain, s: System) {
    && Replay(sem, s.history, init) == Chain(Serial(sem, s.txs, s.base.accounts), s.parent, s.absorbed)
  }

  /** The account effects of `i` have landed. */
  ghost predicate HasLanded(s: System, i: Ticket) {
    Done(s.table, i) || exists id :: Holds(s, id, i) && s.running[id].phase.Landed?
  }

  /** Of the transactions writing `k`, exactly those before `j` have landed. */
  ghost predicate Split(s: System, k: Pubkey, j: nat) {
    forall i: Ticket :: i < |s.txs| && Writes(s.txs[i], k) ==> (HasLanded(s, i) <==> i < j)
  }

  /** Every account holds its value at its own point of the serial execution. */
  ghost predicate AccountsSound(sem: Semantics, s: System) {
    forall k, j: nat {:trigger Split(s, k, j)} :: j <= |s.txs| && Split(s, k, j) ==>
      Same(s.accounts, Serial(sem, s.txs[..j], s.base.accounts), k)
  }

  /** A running transaction saw exactly the serial state before its ticket. */
  ghost predicate ViewsSound(sem: Semantics, s: System)
    requires PoolSound(s)
  {
    forall id :: id in s.running && s.running[id].phase.Loaded? ==>
      s.running[id].phase.view ==
      View(s.running[id].request, Serial(sem, s.txs[..s.running[id].ticket], s.base.accounts))
  }

  ghost predicate SystemInv(sem: Semantics, init: Chain, s: System) {
    && Inv(s.table, s.txs)
    && PoolSound(s)
    && HistorySound(sem, init, s)
    && AccountsSound(sem, s)
    && ViewsSound(sem, s)
    && s.table.outstanding <= MAX_PENDING_EXECUTOR_TXNS * s.count
  }
}
