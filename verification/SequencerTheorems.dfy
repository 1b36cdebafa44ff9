/** Whole-run results: serial equivalence, determinism, backpressure and drain. */
module SequencerTheorems {
  import opened Basics
  import opened Transactions
  import opened Ordering
  import opened OrderingComplete
  import opened Pool
  import opened Sequencer
  import opened SequencerRuns

  /** The input stream a run admitted: transactions and block boundaries, in order. */
  function Admitted(steps: seq<Step>): seq<Item> {
    if steps == [] then []
    else
      var front, last := Admitted(steps[..|steps| - 1]), steps[|steps| - 1];
      match last
      case Admit(tx) => front + [Tx(tx)]
      case Seal => front + [Boundary]
      case _ => front
  }

  lemma {:induction false} RunKeeps(sem: Semantics, count: nat, c: Chain, steps: seq<Step>, e: System)
    requires 0 < count <= MAX_EXECUTORS && Run(sem, Start(count, c), steps, e)
    ensures SystemInv(sem, c, e)
    ensures e.history == Admitted(steps) && e.count == count
    decreases |steps|
  {
    if steps == [] {
      EmptyInv();
      assert forall i: Ticket :: !InFlight(EMPTY, i);
      assert forall j: nat :: j <= |e.txs| ==> e.txs[..j] == [];
    } else {
      var m :| RunStep(sem, Start(count, c), steps, m, e);
      RunKeeps(sem, count, c, steps[..|steps| - 1], m);
      StepKeeps(sem, c, m, steps[|steps| - 1]);
    }
  }

  /** Conflict serialisability: whatever the interleaving of loads, landings and
      completions, a drained engine holds the accounts and the hash chain of
      executing the admitted stream one transaction at a time. */
  lemma SerialEquivalence(sem: Semantics, count: nat, c: Chain, steps: seq<Step>, e: System)
    requires 0 < count <= MAX_EXECUTORS && Run(sem, Start(count, c), steps, e)
    ensures e.parent == Replay(sem, Admitted(steps), c).parent
    ensures e.absorbed == Replay(sem, Admitted(steps), c).absorbed
    ensures e.table.outstanding == 0 ==> e.accounts == Replay(sem, Admitted(steps), c).accounts
  {
    RunKeeps(sem, count, c, steps, e);
    if e.table.outstanding == 0 {
      DrainedLanded(sem, c, e);
    }
  }

  // ---------------------------------------------------------------- What a drained engine holds

  /** The items after `i` leave account `k` alone. */
  ghost predicate LeftAlone(items: seq<Item>, i: int, k: Pubkey) {
    forall j :: i < j < |items| && 0 <= j ==> items[j].Tx? && Access(k, true) !in items[j].tx.accesses
  }

  /** What the item that decided account `k` left there. Account-wise: a transaction
      that declares `k` writable leaves what it returned for the accounts it saw, which
      are its declared accounts as they were then; a boundary leaves what the block's
      digest and the accounts before it make of `k`. */
  ghost predicate Decided(sem: Semantics, before: Chain, item: Item, saw: State, accounts: State, k: Pubkey) {
    match item
    case Tx(tx) =>
      Access(k, true) in tx.accesses && Shows(tx, saw, before.accounts) && Same(accounts, sem.run(tx, saw), k)
    case Boundary =>
      Same(accounts, sem.boundary(sem.digest(before.parent, before.absorbed), before.accounts), k)
  }

  /** Item `i` decided account `k`, and nobody did when `i` is -1. */
  ghost predicate LastWrite(
    sem: Semantics, items: seq<Item>, c: Chain, accounts: State, k: Pubkey, i: int, saw: State
  ) {
    && -1 <= i < |items| && LeftAlone(items, i, k)
    && (i == -1 ==> Same(accounts, c.accounts, k))
    && (i >= 0 ==> Decided(sem, Replay(sem, items[..i], c), items[i], saw, accounts, k))
  }

  ghost predicate HoldsLastWrite(sem: Semantics, items: seq<Item>, c: Chain, accounts: State, k: Pubkey) {
    exists i, saw :: LastWrite(sem, items, c, accounts, k, i, saw)
  }

  /** Every account holds what its last writer left, or its start value if nobody
      wrote it. */
  ghost predicate HoldsLastWrites(sem: Semantics, items: seq<Item>, c: Chain, accounts: State) {
    forall k :: HoldsLastWrite(sem, items, c, accounts, k)
  }

  lemma {:induction false} ReplayLastWrite(sem: Semantics, items: seq<Item>, c: Chain, k: Pubkey)
    returns (i: int, saw: State)
    ensures LastWrite(sem, items, c, Replay(sem, items, c).accounts, k, i, saw)
  {
    hide View, Land, Apply;
    i, saw := -1, map[];
    if items != [] {
      var front, last := items[..|items| - 1], items[|items| - 1];
      var before := Replay(sem, front, c);
      if last.Tx? {
        ApplyBecomes(sem, last.tx, before.accounts);
      }
      if last.Boundary? || Access(k, true) in last.tx.accesses {
        i := |items| - 1;
        saw := if last.Tx? then View(last.tx, before.accounts) else map[];
      } else {
        i, saw := ReplayLastWrite(sem, front, c, k);
        assert i >= 0 ==> front[..i] == items[..i] && front[i] == items[i];
      }
    }
  }

  /** In a drained engine every account holds what the last admitted writer of it
      returned for the accounts it saw, or its start value if nobody wrote it. */
  lemma DrainedHoldsLastWrites(sem: Semantics, count: nat, c: Chain, steps: seq<Step>, e: System)
    requires 0 < count <= MAX_EXECUTORS && Run(sem, Start(count, c), steps, e) && e.table.outstanding == 0
    ensures HoldsLastWrites(sem, Admitted(steps), c, e.accounts)
  {
    hide Run, Replay, LastWrite;
    SerialEquivalence(sem, count, c, steps, e);
    forall k ensures HoldsLastWrite(sem, Admitted(steps), c, e.accounts, k) {
      var i, saw := ReplayLastWrite(sem, Admitted(steps), c, k);
    }
  }

  /** Two engines with any pool sizes and schedules agree once drained. */
  lemma Determinism(sem: Semantics, c: Chain, count: nat, steps: seq<Step>, e: System,
                    count': nat, steps': seq<Step>, e': System)
    requires 0 < count <= MAX_EXECUTORS && Run(sem, Start(count, c), steps, e)
    requires 0 < count' <= MAX_EXECUTORS && Run(sem, Start(count', c), steps', e')
    requires Admitted(steps) == Admitted(steps')
    ensures e.parent == e'.parent && e.absorbed == e'.absorbed
    ensures e.table.outstanding == 0 && e'.table.outstanding == 0 ==> e.accounts == e'.accounts
  {
    SerialEquivalence(sem, count, c, steps, e);
    SerialEquivalence(sem, count', c, steps', e');
  }

  /** In every reachable state: conflicting transactions do not overlap, they
      complete in admission order, a ticket is released exactly by the all-pairs
      rule, and the backlog respects the backpressure bound. */
  lemma ReachableSafety(sem: Semantics, count: nat, c: Chain, steps: seq<Step>, e: System)
    requires 0 < count <= MAX_EXECUTORS && Run(sem, Start(count, c), steps, e)
    ensures |e.table.nodes| == |e.txs|
    ensures forall a, b :: a in e.running && b in e.running && a != b ==>
              !Conflict(e.running[a].request, e.running[b].request)
    ensures DoneInOrder(e.table, e.txs)
    ensures forall j: Ticket :: Live(e.table, j) ==>
              (Unobstructed(e.table, e.txs, j) <==> j in Tickets(e.table.ready) || exists id :: Holds(e, id, j))
    ensures e.table.outstanding <= 16 * count
  {
    RunKeeps(sem, count, c, steps, e);
    forall a, b | a in e.running && b in e.running && a != b
      ensures !Conflict(e.running[a].request, e.running[b].request)
    {
      ConflictsNeverOverlap(e, a, b);
    }
    forall j: Ticket | Live(e.table, j)
      ensures Unobstructed(e.table, e.txs, j) <==> j in Tickets(e.table.ready) || exists id :: Holds(e, id, j)
    {
      FrontierRefinesAllPairs(e.table, e.txs, j);
      ReleasedTicket(e, j);
    }
  }

  lemma ReleasedTicket(e: System, j: Ticket)
    requires Inv(e.table, e.txs) && PoolSound(e) && Live(e.table, j)
    ensures e.table.nodes[j].predecessors == Waiting(0) <==>
            j in Tickets(e.table.ready) || exists id :: Holds(e, id, j)
  {
    if e.table.nodes[j].predecessors == Waiting(0) && j !in Tickets(e.table.ready) {
      assert InFlight(e.table, j);
    }
    if id :| Holds(e, id, j) {
      assert InFlight(e.table, j);
    }
  }

  // ---------------------------------------------------------------- Drain

  predicate IsWork(step: Step) {
    step.Dispatch? || step.Load? || step.Commit? || step.Acknowledge?
  }

  ghost function Started(running: map<ExecutorId, Job>): set<ExecutorId> {
    set id | id in running && !running[id].phase.Assigned?
  }

  ghost function Finished(running: map<ExecutorId, Job>): set<ExecutorId> {
    set id | id in running && running[id].phase.Landed?
  }

  /** Work steps already taken by the running transactions. */
  ghost function Progress(running: map<ExecutorId, Job>): nat {
    |running.Keys| + |Started(running)| + |Finished(running)|
  }

  function Stage(p: Phase): nat {
    match p
    case Assigned => 1
    case Loaded(_) => 2
    case Landed => 3
  }

  lemma ProgressRemove(running: map<ExecutorId, Job>, id: ExecutorId)
    requires id in running
    ensures Progress(running - {id}) == Progress(running) - Stage(running[id].phase)
  {
    var rest := running - {id};
    assert running.Keys == rest.Keys + {id};
    assert Started(rest) == Started(running) - {id};
    assert Finished(rest) == Finished(running) - {id};
  }

  lemma ProgressAdd(running: map<ExecutorId, Job>, id: ExecutorId, job: Job)
    requires id !in running
    ensures Progress(running[id := job]) == Progress(running) + Stage(job.phase)
  {
    var more := running[id := job];
    assert more - {id} == running;
    ProgressRemove(more, id);
  }

  lemma ProgressReplace(running: map<ExecutorId, Job>, id: ExecutorId, job: Job)
    requires id in running
    ensures Progress(running[id := job]) == Progress(running) - Stage(running[id].phase) + Stage(job.phase)
  {
    ProgressRemove(running, id);
    ProgressAdd(running - {id}, id, job);
    assert (running - {id})[id := job] == running[id := job];
  }

  /** Work steps left before the engine is drained. */
  ghost function Remaining(s: System): int {
    4 * s.table.outstanding - Progress(s.running)
  }

  /** While anything is outstanding, some work step can happen. */
  lemma WorkIsEnabled(sem: Semantics, init: Chain, s: System) returns (step: Step)
    requires SystemInv(sem, init, s) && s.table.outstanding > 0
    ensures IsWork(step) && Enabled(s, step)
  {
    if id :| id in s.running {
      step := match s.running[id].phase
        case Assigned => Load(id)
        case Loaded(_) => Commit(id)
        case Landed => Acknowledge(id);
    } else {
      var j := SomeTicketIsReleased(s.table, s.txs);
      ReleasedTicket(s, j);
      step := Dispatch(0);
    }
  }

  lemma WorkDecreases(sem: Semantics, s: System, step: Step)
    requires IsWork(step) && Enabled(s, step)
    ensures Remaining(Next(sem, s, step)) == Remaining(s) - 1
  {
    match step
    case Dispatch(id) => ProgressAdd(s.running, id, Next(sem, s, step).running[id]);
    case Load(id) => ProgressReplace(s.running, id, Next(sem, s, step).running[id]);
    case Commit(id) => ProgressReplace(s.running, id, Next(sem, s, step).running[id]);
    case Acknowledge(id) => ProgressRemove(s.running, id);
  }

  lemma {:induction false} DistinctTickets(running: map<ExecutorId, Job>, live: set<Ticket>)
    requires forall id :: id in running ==> running[id].ticket in live
    requires forall a, b :: a in running && b in running && running[a].ticket == running[b].ticket ==> a == b
    ensures |running| <= |live|
    decreases |running|
  {
    if id :| id in running {
      assert (running - {id}).Keys == running.Keys - {id};
      DistinctTickets(running - {id}, live - {running[id].ticket});
    }
  }

  lemma RemainingBounds(sem: Semantics, init: Chain, s: System)
    requires SystemInv(sem, init, s)
    ensures s.table.outstanding <= Remaining(s) <= 4 * s.table.outstanding
  {
    forall id | id in s.running ensures s.running[id].ticket in LiveTickets(s.table) {
      assert InFlight(s.table, s.running[id].ticket);
    }
    DistinctTickets(s.running, LiveTickets(s.table));
    assert Started(s.running) <= s.running.Keys && Finished(s.running) <= s.running.Keys;
    SubsetCardinality(Started(s.running), s.running.Keys);
    SubsetCardinality(Finished(s.running), s.running.Keys);
  }

  lemma {:induction false} SubsetCardinality(a: set<ExecutorId>, b: set<ExecutorId>)
    requires a <= b
    ensures |a| <= |b|
  {
    assert b == a + (b - a);
  }

  /** Draining: with no further admissions every schedule of work steps has the
      same length, at most four per outstanding ticket, and it can always
      continue until the engine is drained. */
  lemma {:induction false} DrainTerminates(sem: Semantics, init: Chain, s: System, steps: seq<Step>, e: System)
    requires SystemInv(sem, init, s) && Run(sem, s, steps, e)
    requires forall i :: 0 <= i < |steps| ==> IsWork(steps[i])
    ensures SystemInv(sem, init, e)
    ensures |steps| + Remaining(e) == Remaining(s) <= 4 * s.table.outstanding
    ensures Remaining(e) == 0 <==> e.table.outstanding == 0
    ensures e.table.outstanding > 0 ==> exists step :: IsWork(step) && Enabled(e, step)
    decreases |steps|
  {
    hide SystemInv, Remaining, Enabled, Next;
    RemainingBounds(sem, init, s);
    if steps != [] {
      var front, last := steps[..|steps| - 1], steps[|steps| - 1];
      var m :| RunStep(sem, s, steps, m, e);
      DrainTerminates(sem, init, s, front, m);
      StepKeeps(sem, init, m, last);
      WorkDecreases(sem, m, last);
    }
    RemainingBounds(sem, init, e);
    if e.table.outstanding > 0 {
      var step := WorkIsEnabled(sem, init, e);
    }
  }
}
