/** The sequencer's event handlers over the mutable arena and pool. Every
    handler is a stretch of steps of the transition system: `trace` records
    them, and `Valid` says the concrete objects are in the state it leads to. */
module SequencerService {
  import opened Basics
  import opened Transactions
  import opened Ordering
  import opened OrderingComplete
  import opened OrderingArena
  import opened Pool
  import opened Sequencer
  import opened SequencerRuns
  import opened SequencerTheorems

  /** `later` extends `earlier` by `first` and then dispatches only. */
  ghost predicate Followed(earlier: seq<Step>, first: seq<Step>, later: seq<Step>) {
    && |later| >= |earlier + first| && later[..|earlier + first|] == earlier + first
    && forall i :: |earlier + first| <= i < |later| ==> later[i].Dispatch?
  }

  /** `later` extends `earlier` by work of the executors and dispatches only. */
  ghost predicate Worked(earlier: seq<Step>, later: seq<Step>) {
    && earlier <= later && forall i :: |earlier| <= i < |later| ==> IsWork(later[i])
  }

  /** Then one more step. */
  ghost predicate WorkedThen(earlier: seq<Step>, later: seq<Step>, last: Step) {
    later != [] && later[|later| - 1] == last && Worked(earlier, later[..|later| - 1])
  }

  lemma WorkedOn(a: seq<Step>, b: seq<Step>, c: seq<Step>)
    requires Worked(a, b) && Worked(b, c)
    ensures Worked(a, c)
  {
    forall i | |a| <= i < |c| ensures IsWork(c[i]) {
      assert i < |b| ==> c[i] == b[i];
    }
  }

  lemma FollowedIsWork(earlier: seq<Step>, first: seq<Step>, later: seq<Step>)
    requires Followed(earlier, first, later) && forall i :: 0 <= i < |first| ==> IsWork(first[i])
    ensures Worked(earlier, later)
  {
    var n := |earlier + first|;
    forall i | |earlier| <= i < |later| ensures IsWork(later[i]) {
      assert i < n ==> later[i] == (earlier + first)[i];
    }
    assert later[..|earlier|] == later[..n][..|earlier|] == earlier;
  }

  /** While anything is outstanding and no ready work waits, some executor is busy. */
  lemma SomeoneIsBusy(sem: Semantics, init: Chain, s: System)
    requires SystemInv(sem, init, s) && s.table.outstanding > 0
    requires s.table.ready == [] || forall id :: 0 <= id < s.count ==> id in s.running
    ensures s.running != map[]
  {
    if s.table.ready == [] {
      var j := SomeTicketIsReleased(s.table, s.txs);
      ReleasedTicket(s, j);
      var id :| Holds(s, id, j);
    } else {
      assert 0 in s.running;
    }
  }

  class Service {
    const ordering: OrderingTable
    const executors: Executors
    const sem: Semantics
    var parent: Hash
    var absorbed: seq<Signature>
    ghost const init: Chain
    ghost var sys: System
    ghost var trace: seq<Step>

    ghost predicate Valid()
      reads this, ordering, executors
    {
      && ordering.Value() == sys.table
      && executors.Valid() && 0 < executors.count == sys.count
      && executors.running.Keys == sys.running.Keys
      && (forall id :: id in sys.running ==> executors.running[id] == sys.running[id].ticket)
      && parent == sys.parent && absorbed == sys.absorbed
      && Run(sem, Start(sys.count, init), trace, sys)
    }

    /** Ready work never waits beside an idle executor. */
    ghost predicate Saturated()
      reads this
    {
      sys.table.ready == [] || forall id :: 0 <= id < sys.count ==> id in sys.running
    }

    constructor (count: nat, sem: Semantics, chain: Chain)
      requires 0 < count <= MAX_EXECUTORS
      ensures Valid() && Saturated() && trace == [] && sys.count == count && this.sem == sem
      ensures fresh(ordering) && fresh(executors) && init == chain
    {
      ordering := new OrderingTable();
      executors := new Executors(count);
      this.sem := sem;
      parent, absorbed := chain.parent, chain.absorbed;
      init := chain;
      sys, trace := Start(count, chain), [];
    }

    ghost method Take(step: Step)
      requires Enabled(sys, step) && Run(sem, Start(sys.count, init), trace, sys)
      modifies this`sys, this`trace
      ensures sys == Next(sem, old(sys), step) && trace == old(trace) + [step]
      ensures Run(sem, Start(sys.count, init), trace, sys)
      ensures IsWork(step) ==> Remaining(sys) == old(Remaining(sys)) - 1
    {
      hide Remaining;
      if IsWork(step) {
        WorkDecreases(sem, sys, step);
      }
      ghost var s := sys;
      sys, trace := Next(sem, sys, step), trace + [step];
      assert trace[..|trace| - 1] == old(trace);
      assert RunStep(sem, Start(sys.count, init), trace, s, sys);
    }

    /** The dependency table satisfies its invariant. */
    lemma Sound()
      requires Valid()
      ensures Inv(sys.table, sys.txs)
    {
      hide Inv, Run, PoolSound, HistorySound, AccountsSound, ViewsSound;
      RunKeeps(sem, sys.count, init, trace, sys);
    }

    lemma HeldInFlight(id: ExecutorId)
      requires Valid() && id in sys.running
      ensures InFlight(sys.table, sys.running[id].ticket)
    {
      hide Inv, Run, InFlight, HistorySound, AccountsSound, ViewsSound;
      RunKeeps(sem, sys.count, init, trace, sys);
      RunningInFlight(sys, id);
    }

    /** Whether another inbound message fits within the pending-work bound. */
    method IsAccepting() returns (accepting: bool)
      requires Valid()
      ensures accepting <==> Accepting(sys)
      ensures accepting <==> sys.table.outstanding < 16 * sys.count
    {
      accepting := ordering.outstanding < MAX_PENDING_EXECUTOR_TXNS * executors.count;
    }

    /** Fills all available executors from the dependency-ready queue. */
    method DispatchReady()
      requires Valid()
      modifies this`sys, this`trace, ordering, executors
      ensures Valid() && Saturated()
      ensures Followed(old(trace), [], trace)
      ensures sys.history == old(sys.history) && sys.count == old(sys.count)
      ensures Remaining(sys) <= old(Remaining(sys))
    {
      hide Remaining;
      var more := true;
      while more
        invariant Valid() && Followed(old(trace), [], trace)
        invariant !more ==> Saturated()
        invariant sys.history == old(sys.history) && sys.count == old(sys.count)
        invariant Remaining(sys) <= old(Remaining(sys))
        decreases more, |sys.table.ready|
      {
        more := DispatchNext();
      }
    }

    /** Dispatches one ready ticket, if a worker is idle and one is ready. */
    method DispatchNext() returns (more: bool)
      requires Valid()
      modifies this`sys, this`trace, ordering, executors
      ensures Valid() && (!more ==> Saturated() && trace == old(trace))
      ensures more ==> |sys.table.ready| < |old(sys.table.ready)|
      ensures more ==> exists id :: trace == old(trace) + [Dispatch(id)]
      ensures sys.history == old(sys.history) && sys.count == old(sys.count)
      ensures Remaining(sys) <= old(Remaining(sys))
    {
      hide Remaining, Inv, InFlight, Run;
      Sound();
      var id := executors.Available();
      if id.None? {
        return false;
      }
      var next := ordering.TakeReady(sys.txs);
      if next.None? {
        return false;
      }
      executors.Dispatch(id.value, next.value.ticket);
      Take(Dispatch(id.value));
      return true;
    }

    /** Registers a transaction in input order and dispatches all ready work. */
    method Schedule(request: Transaction)
      requires Valid() && Accepting(sys) && UniqueKeys(request)
      modifies this, ordering, executors
      ensures Valid() && Saturated()
      ensures Followed(old(trace), [Admit(request)], trace)
      ensures sys.history == old(sys.history) + [Tx(request)] && sys.count == old(sys.count)
    {
      Enroll(request);
      DispatchReady();
    }

    /** Absorbs the signature and registers the transaction. */
    method Enroll(request: Transaction)
      requires Valid() && Accepting(sys) && UniqueKeys(request)
      modifies this, ordering
      ensures Valid() && trace == old(trace) + [Admit(request)]
      ensures sys.history == old(sys.history) + [Tx(request)] && sys.count == old(sys.count)
    {
      hide HistorySound, AccountsSound, ViewsSound, AllHeld, Run, Inv, InFlight, Registered;
      RunKeeps(sem, sys.count, init, trace, sys);
      absorbed := absorbed + [request.signature];
      var isBlocked := ordering.Register(request, sys.txs);
      Take(Admit(request));
    }

    /** Applies a completion: frees the worker, releases dependents, dispatches. */
    method HandleCompleted(id: ExecutorId, ticket: Ticket)
      requires Valid() && Enabled(sys, Acknowledge(id)) && sys.running[id].ticket == ticket
      modifies this, ordering, executors
      ensures Valid() && Saturated()
      ensures Followed(old(trace), [Acknowledge(id)], trace)
      ensures sys.history == old(sys.history) && sys.count == old(sys.count)
      ensures Remaining(sys) < old(Remaining(sys))
    {
      hide Remaining, Inv, InFlight, Run, Completed;
      Sound();
      HeldInFlight(id);
      executors.Release(id);
      var released := ordering.Complete(ticket, sys.txs);
      Take(Acknowledge(id));
      DispatchReady();
    }

    /** Executors load and land their transactions, in any order and number. */
    ghost method ExecutorsRun()
      requires Valid()
      modifies this`sys, this`trace
      ensures Valid() && Worked(old(trace), trace)
      ensures sys.table == old(sys.table) && sys.running.Keys == old(sys.running.Keys)
      ensures sys.history == old(sys.history) && sys.count == old(sys.count)
      ensures Remaining(sys) <= old(Remaining(sys))
    {
      hide Remaining;
      while *
        invariant Valid() && Worked(old(trace), trace) && Remaining(sys) <= old(Remaining(sys))
        invariant sys.table == old(sys.table) && sys.running.Keys == old(sys.running.Keys)
        invariant sys.history == old(sys.history) && sys.count == old(sys.count)
        decreases Remaining(sys)
      {
        StillRemaining();
        if id :| id in sys.running && !sys.running[id].phase.Landed? {
          ExecutorStep(id);
        } else {
          break;
        }
      }
    }

    lemma StillRemaining()
      requires Valid()
      ensures 0 <= sys.table.outstanding <= Remaining(sys)
    {
      hide Remaining;
      RunKeeps(sem, sys.count, init, trace, sys);
      RemainingBounds(sem, init, sys);
    }

    /** One executor loads or lands its transaction. */
    ghost method ExecutorStep(id: ExecutorId)
      requires Valid() && id in sys.running && !sys.running[id].phase.Landed?
      modifies this`sys, this`trace
      ensures Valid() && Worked(old(trace), trace)
      ensures sys.table == old(sys.table) && sys.running.Keys == old(sys.running.Keys)
      ensures sys.history == old(sys.history) && sys.count == old(sys.count)
      ensures sys.running[id].ticket == old(sys.running[id].ticket)
      ensures Stage(sys.running[id].phase) == old(Stage(sys.running[id].phase)) + 1
      ensures Remaining(sys) < old(Remaining(sys))
    {
      hide Run, Remaining;
      Take(if sys.running[id].phase.Assigned? then Load(id) else Commit(id));
    }

    /** The next completion from the executors: after any amount of other work, some
        busy executor has landed its transaction. */
    method Receive() returns (id: ExecutorId, ticket: Ticket)
      requires Valid() && executors.running != map[] && sys.table.outstanding > 0
      modifies this`sys, this`trace
      ensures Valid() && Worked(old(trace), trace)
      ensures Enabled(sys, Acknowledge(id)) && sys.running[id].ticket == ticket
      ensures sys.table == old(sys.table) && sys.history == old(sys.history) && sys.count == old(sys.count)
      ensures Remaining(sys) <= old(Remaining(sys))
    {
      hide Run, Remaining;
      ExecutorsRun();
      id :| id in executors.running.Keys;
      ticket := executors.running[id];
      ghost var before := trace;
      while !sys.running[id].phase.Landed?
        invariant Valid() && Worked(old(trace), trace) && id in sys.running && sys.running[id].ticket == ticket
        invariant sys.table == old(sys.table) && sys.history == old(sys.history) && sys.count == old(sys.count)
        invariant Remaining(sys) <= old(Remaining(sys))
        decreases 3 - Stage(sys.running[id].phase)
      {
        before := trace;
        ExecutorStep(id);
        WorkedOn(old(trace), before, trace);
      }
      RunningIsLive(id);
    }

    lemma RunningIsLive(id: ExecutorId)
      requires Valid() && id in sys.running && sys.running[id].phase.Landed? && sys.table.outstanding > 0
      ensures Enabled(sys, Acknowledge(id))
    {
      hide HistorySound, AccountsSound, ViewsSound, AllHeld, Run;
      RunKeeps(sem, sys.count, init, trace, sys);
    }

    /** Finishes all accepted work, including transactions released on the way. */
    method Drain()
      requires Valid()
      modifies this, ordering, executors
      ensures Valid() && sys.table.outstanding == 0 && Worked(old(trace), trace)
      ensures sys.history == old(sys.history) && sys.count == old(sys.count)
    {
      hide Run, Remaining;
      DispatchReady();
      FollowedIsWork(old(trace), [], trace);
      while ordering.outstanding != 0
        invariant Valid() && Saturated() && Worked(old(trace), trace)
        invariant sys.history == old(sys.history) && sys.count == old(sys.count)
        decreases Remaining(sys)
      {
        StillRemaining();
        DrainNext();
      }
    }

    /** Waits for one completion and handles it. */
    method DrainNext()
      requires Valid() && Saturated() && sys.table.outstanding > 0
      modifies this, ordering, executors
      ensures Valid() && Saturated() && Worked(old(trace), trace)
      ensures sys.history == old(sys.history) && sys.count == old(sys.count)
      ensures Remaining(sys) < old(Remaining(sys))
    {
      hide Run, Remaining, SystemInv;
      RunKeeps(sem, sys.count, init, trace, sys);
      SomeoneIsBusy(sem, init, sys);
      var id, ticket := Receive();
      ghost var before := trace;
      HandleCompleted(id, ticket);
      FollowedIsWork(before, [Acknowledge(id)], trace);
      WorkedOn(old(trace), before, trace);
    }

    /** A drain at a barrier: all accepted work finishes and the arena resets. The
        accounts are then those of executing everything admitted in order. */
    method FinishDrain()
      requires Valid()
      modifies this, ordering, executors
      ensures Valid() && sys.table.outstanding == 0 && WorkedThen(old(trace), trace, Barrier)
      ensures sys.history == old(sys.history)
      ensures sys.accounts == Replay(sem, old(sys.history), init).accounts
      ensures HoldsLastWrites(sem, old(sys.history), init, sys.accounts)
    {
      hide HistorySound, AccountsSound, ViewsSound, AllHeld, Run, HoldsLastWrites;
      Drain();
      RunKeeps(sem, sys.count, init, trace, sys);
      ordering.Reset(sys.txs);
      Take(Barrier);
      assert trace[..|trace| - 1] + [Barrier] == trace;
      Agreement();
    }

    /** The drained service agrees with the reference engine. */
    lemma Agreement()
      requires Valid() && sys.table.outstanding == 0
      ensures sys.parent == Replay(sem, sys.history, init).parent
      ensures sys.accounts == Replay(sem, sys.history, init).accounts
      ensures HoldsLastWrites(sem, sys.history, init, sys.accounts)
    {
      hide HoldsLastWrites;
      RunKeeps(sem, sys.count, init, trace, sys);
      SerialEquivalence(sem, sys.count, init, trace, sys);
      DrainedHoldsLastWrites(sem, sys.count, init, trace, sys);
    }

    /** The end of a block: all accepted work finishes, the arena resets and the hash
        chain advances. */
    method Finalize() returns (hash: Hash)
      requires Valid()
      modifies this, ordering, executors
      ensures Valid() && sys.table.outstanding == 0 && WorkedThen(old(trace), trace, Seal)
      ensures sys.history == old(sys.history) + [Boundary]
      ensures hash == parent == Replay(sem, sys.history, init).parent
      ensures sys.accounts == Replay(sem, sys.history, init).accounts
      ensures HoldsLastWrites(sem, sys.history, init, sys.accounts)
    {
      hide HistorySound, AccountsSound, ViewsSound, AllHeld, Run, HoldsLastWrites;
      Drain();
      RunKeeps(sem, sys.count, init, trace, sys);
      hash := sem.digest(parent, absorbed);
      ordering.Reset(sys.txs);
      parent, absorbed := hash, [];
      Take(Seal);
      assert trace[..|trace| - 1] + [Seal] == trace;
      Agreement();
    }
  }
}
