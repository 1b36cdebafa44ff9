/** Every run of the sequencer is equivalent to executing its input in order. */
module SequencerRuns {
  import opened Basics
  import opened Transactions
  import opened Ordering
  import opened OrderingRegister
  import opened OrderingComplete
  import opened Pool
  import opened Sequencer

  lemma ConflictSymmetric(a: Transaction, b: Transaction)
    ensures Conflict(a, b) <==> Conflict(b, a)
  {
    if k :| ConflictOn(a, b, k) {
      assert ConflictOn(b, a, k);
    }
    if k :| ConflictOn(b, a, k) {
      assert ConflictOn(a, b, k);
    }
  }

  /** A running transaction excludes everything it conflicts with: what came
      before has completed, what comes after has not started. */
  lemma RunningExcludesConflicts(t: Table, txs: seq<Transaction>, c: Ticket, i: Ticket)
    requires Inv(t, txs) && InFlight(t, c) && i < |txs| && i != c && Conflict(txs[i], txs[c])
    ensures i < c ==> Done(t, i)
    ensures c < i ==> Live(t, i) && t.nodes[i].predecessors.count > 0
  {
    ConflictSymmetric(txs[i], txs[c]);
    if i < c {
      FrontierRefinesAllPairs(t, txs, c);
    } else {
      assert Live(t, i);
      assert MustWait(t, txs, c, i);
      ObstructedCounts(t, txs, c, i);
    }
  }

  /** Two conflicting transactions are never held by executors at the same time. */
  lemma ConflictsNeverOverlap(s: System, a: ExecutorId, b: ExecutorId)
    requires Inv(s.table, s.txs) && PoolSound(s) && a in s.running && b in s.running && a != b
    ensures !Conflict(s.running[a].request, s.running[b].request)
  {
    var i, j := s.running[a].ticket, s.running[b].ticket;
    if Conflict(s.running[a].request, s.running[b].request) {
      RunningExcludesConflicts(s.table, s.txs, j, i);
    }
  }

  /** Before a running transaction lands, its accounts are exactly at its ticket. */
  lemma RunningSplits(s: System, id: ExecutorId, k: Pubkey)
    requires Inv(s.table, s.txs) && PoolSound(s)
    requires id in s.running && !s.running[id].phase.Landed? && Touches(s.running[id].request, k)
    ensures Split(s, k, s.running[id].ticket)
  {
    var c := s.running[id].ticket;
    forall i: Ticket | i < |s.txs| && Writes(s.txs[i], k)
      ensures HasLanded(s, i) <==> i < c
    {
      if i == c {
        assert !Done(s.table, c);
        assert forall e :: Holds(s, e, c) ==> e == id;
      } else {
        assert ConflictOn(s.txs[i], s.txs[c], k);
        RunningExcludesConflicts(s.table, s.txs, c, i);
        if c < i {
          assert forall e :: Holds(s, e, i) ==> InFlight(s.table, i);
        }
      }
    }
  }

  lemma ViewAgrees(tx: Transaction, a: State, b: State)
    requires forall k :: Touches(tx, k) ==> Same(a, b, k)
    ensures View(tx, a) == View(tx, b)
  {
  }

  // ---------------------------------------------------------------- Steps

  lemma AdmitKeeps(sem: Semantics, init: Chain, s: System, tx: Transaction)
    requires SystemInv(sem, init, s) && Enabled(s, Admit(tx))
    ensures SystemInv(sem, init, Next(sem, s, Admit(tx)))
  {
    var e := Next(sem, s, Admit(tx));
    RegisterKeepsInv(s.table, s.txs, tx);
    AdmitKeepsPool(sem, s, tx);
    AdmitKeepsAccounts(sem, s, tx);
    SerialPrefix(sem, s.txs, tx, 0, s.base.accounts);
    assert e.history[..|s.history|] == s.history;
    forall id | id in e.running && e.running[id].phase.Loaded?
      ensures e.running[id].phase.view ==
              View(e.running[id].request, Serial(sem, e.txs[..e.running[id].ticket], e.base.accounts))
    {
      SerialPrefix(sem, s.txs, tx, e.running[id].ticket, s.base.accounts);
    }
  }

  lemma AdmitKeepsPool(sem: Semantics, s: System, tx: Transaction)
    requires Inv(s.table, s.txs) && PoolSound(s) && Enabled(s, Admit(tx))
    ensures PoolSound(Next(sem, s, Admit(tx)))
    ensures forall i: Ticket :: HasLanded(Next(sem, s, Admit(tx)), i) <==> HasLanded(s, i)
  {
    hide Inv, InFlight, Registered, PoolSound, HasLanded;
    var e := Next(sem, s, Admit(tx));
    RegisteredShape(s.table, tx);
    PoolSize(s);
    forall c: Ticket ensures InFlight(e.table, c) <==> InFlight(s.table, c) {
      RegisteredInFlight(s.table, s.txs, tx, c);
    }
    ExtendKeepsPool(s, e, tx);
    ExtendLandsNothing(s, e);
  }

  lemma PoolSize(s: System)
    requires PoolSound(s)
    ensures |s.table.nodes| == |s.txs|
  {
    hide InFlight, AllHeld;
  }

  /** Registering starts nothing: the new ticket is queued or blocked. */
  lemma RegisteredInFlight(t: Table, txs: seq<Transaction>, tx: Transaction, c: Ticket)
    requires Inv(t, txs)
    ensures InFlight(Registered(t, tx), c) <==> InFlight(t, c)
  {
    hide EdgesSound, CountsExact, DoneInOrder, Covered, FrontiersSound, LiveTickets, Predecessors, Advanced;
    RegisteredShape(t, tx);
    var t' := Registered(t, tx);
    if c == |txs| {
      assert Predecessors(t, tx) == {} ==> Ready(c, tx) in t'.ready;
    } else {
      assert c in Tickets(t'.ready) <==> c in Tickets(t.ready) by {
        assert forall x :: x in t.ready ==> x in t'.ready;
        assert forall x :: x in t'.ready && x.ticket != |txs| ==> x in t.ready;
      }
    }
  }

  lemma ExtendKeepsPool(s: System, e: System, tx: Transaction)
    requires PoolSound(s) && e.running == s.running && e.count == s.count && e.txs == s.txs + [tx]
    requires |e.table.nodes| == |e.txs| && forall c: Ticket :: InFlight(e.table, c) <==> InFlight(s.table, c)
    ensures PoolSound(e)
  {
    hide InFlight;
    forall c: Ticket | InFlight(e.table, c) ensures exists id :: Holds(e, id, c) {
      var id :| Holds(s, id, c);
      assert Holds(e, id, c);
    }
  }

  lemma ExtendLandsNothing(s: System, e: System)
    requires e.running == s.running && forall i: Ticket :: Done(e.table, i) <==> Done(s.table, i)
    ensures forall i: Ticket :: HasLanded(e, i) <==> HasLanded(s, i)
  {
    hide Done;
    forall i: Ticket ensures HasLanded(e, i) <==> HasLanded(s, i) {
      forall id ensures Holds(e, id, i) <==> Holds(s, id, i) {
      }
    }
  }

  lemma AdmitKeepsAccounts(sem: Semantics, s: System, tx: Transaction)
    requires Inv(s.table, s.txs) && PoolSound(s) && AccountsSound(sem, s) && Enabled(s, Admit(tx))
    ensures AccountsSound(sem, Next(sem, s, Admit(tx)))
  {
    hide Inv, PoolSound, AccountsSound, HasLanded;
    var e := Next(sem, s, Admit(tx));
    AdmitKeepsPool(sem, s, tx);
    NotYetLanded(s);
    forall k, j: nat | j <= |e.txs| && Split(e, k, j)
      ensures Same(e.accounts, Serial(sem, e.txs[..j], e.base.accounts), k)
    {
      AdmitKeepsAccount(sem, s, e, tx, k, j);
    }
    AccountsFrom(sem, e);
  }

  lemma AccountsFrom(sem: Semantics, s: System)
    requires forall k, j: nat {:trigger Split(s, k, j)} :: j <= |s.txs| && Split(s, k, j) ==>
               Same(s.accounts, Serial(sem, s.txs[..j], s.base.accounts), k)
    ensures AccountsSound(sem, s)
  {
  }

  lemma AccountsAt(sem: Semantics, s: System, k: Pubkey, j: nat)
    requires AccountsSound(sem, s) && j <= |s.txs| && Split(s, k, j)
    ensures Same(s.accounts, Serial(sem, s.txs[..j], s.base.accounts), k)
  {
  }

  /** A ticket that was not handed out has not landed. */
  lemma NotYetLanded(s: System)
    requires PoolSound(s)
    ensures !HasLanded(s, |s.txs|)
  {
    hide InFlight, AllHeld;
  }

  lemma AdmitKeepsAccount(sem: Semantics, s: System, e: System, tx: Transaction, k: Pubkey, j: nat)
    requires AccountsSound(sem, s) && !HasLanded(s, |s.txs|)
    requires e.txs == s.txs + [tx] && e.accounts == s.accounts && e.base == s.base
    requires (forall i: Ticket :: HasLanded(e, i) <==> HasLanded(s, i)) && j <= |e.txs| && Split(e, k, j)
    ensures Same(e.accounts, Serial(sem, e.txs[..j], e.base.accounts), k)
  {
    hide HasLanded, AccountsSound, Serial, Same;
    var n := |s.txs|;
    var m := if j <= n then j else n;
    forall i: Ticket | i < n && Writes(s.txs[i], k) ensures HasLanded(s, i) <==> i < m {
      assert e.txs[i] == s.txs[i];
    }
    assert Split(s, k, m);
    AccountsAt(sem, s, k, m);
    SerialPrefix(sem, s.txs, tx, m, s.base.accounts);
    if m < j {
      assert e.txs[n] == tx;
      SerialUntouched(sem, e.txs, e.base.accounts, m, j, k);
      SameTrans(s.accounts, Serial(sem, e.txs[..m], e.base.accounts), Serial(sem, e.txs[..j], e.base.accounts), k);
    }
  }

  lemma SameTrans(a: State, b: State, c: State, k: Pubkey)
    requires Same(a, b, k) && (Same(b, c, k) || Same(c, b, k))
    ensures Same(a, c, k)
  {
  }

  /** Steps that leave landed effects, the epoch and its base alone keep the account invariant. */
  lemma SameLandedKeepsAccounts(sem: Semantics, s: System, e: System)
    requires AccountsSound(sem, s)
    requires e.accounts == s.accounts && e.txs == s.txs && e.base == s.base
    requires forall i: Ticket :: HasLanded(e, i) <==> HasLanded(s, i)
    ensures AccountsSound(sem, e)
  {
    forall k, j: nat | j <= |e.txs| && Split(e, k, j)
      ensures Same(e.accounts, Serial(sem, e.txs[..j], e.base.accounts), k)
    {
      assert Split(s, k, j);
    }
  }

  lemma DispatchKeeps(sem: Semantics, init: Chain, s: System, id: ExecutorId)
    requires SystemInv(sem, init, s) && Enabled(s, Dispatch(id))
    ensures SystemInv(sem, init, Next(sem, s, Dispatch(id)))
  {
    hide Inv, PoolSound, AccountsSound, ViewsSound, HistorySound, HasLanded;
    var e := Next(sem, s, Dispatch(id));
    TakeReadyKeepsInv(s.table, s.txs);
    DispatchKeepsPool(sem, s, id);
    SameLandedKeepsAccounts(sem, s, e);
    DispatchKeepsViews(sem, s, id);
    SameHistory(sem, init, s, e);
  }

  lemma DispatchKeepsViews(sem: Semantics, s: System, id: ExecutorId)
    requires PoolSound(s) && ViewsSound(sem, s) && Enabled(s, Dispatch(id)) && PoolSound(Next(sem, s, Dispatch(id)))
    ensures ViewsSound(sem, Next(sem, s, Dispatch(id)))
  {
    hide InFlight, AllHeld;
  }

  lemma SameHistory(sem: Semantics, init: Chain, s: System, e: System)
    requires HistorySound(sem, init, s) && e.history == s.history && e.txs == s.txs && e.base == s.base
    requires e.parent == s.parent && e.absorbed == s.absorbed
    ensures HistorySound(sem, init, e)
  {
  }

  lemma DispatchKeepsPool(sem: Semantics, s: System, id: ExecutorId)
    requires Inv(s.table, s.txs) && PoolSound(s) && Enabled(s, Dispatch(id))
    ensures PoolSound(Next(sem, s, Dispatch(id)))
    ensures forall i: Ticket :: HasLanded(Next(sem, s, Dispatch(id)), i) <==> HasLanded(s, i)
  {
    var next := s.table.ready[0];
    assert next in s.table.ready;
    assert next.ticket in Tickets(s.table.ready);
    TakenInFlight(s.table, s.txs);
    var e := Next(sem, s, Dispatch(id));
    AssignKeepsPool(s, e, id, next.ticket);
    AssignLandsNothing(s, e, id, e.running[id]);
  }

  /** Handing a newly started ticket to an idle executor keeps the pool. */
  lemma AssignKeepsPool(s: System, e: System, id: ExecutorId, c: Ticket)
    requires PoolSound(s) && id < s.count && id !in s.running && c < |s.txs|
    requires e == s.(table := e.table, running := s.running[id := Job(c, s.txs[c], Assigned)])
    requires e.table.nodes == s.table.nodes && !InFlight(s.table, c)
    requires forall i: Ticket :: InFlight(e.table, i) <==> InFlight(s.table, i) || i == c
    ensures PoolSound(e)
  {
    forall i: Ticket | InFlight(e.table, i) ensures exists a :: Holds(e, a, i) {
      if i == c {
        assert Holds(e, id, i);
      } else {
        var a :| Holds(s, a, i);
        assert Holds(e, a, i);
      }
    }
  }

  lemma AssignLandsNothing(s: System, e: System, id: ExecutorId, job: Job)
    requires id !in s.running && e.running == s.running[id := job] && !job.phase.Landed?
    requires e.table.nodes == s.table.nodes
    ensures forall i: Ticket :: HasLanded(e, i) <==> HasLanded(s, i)
  {
    forall i: Ticket ensures HasLanded(e, i) <==> HasLanded(s, i) {
      if a :| Holds(s, a, i) && s.running[a].phase.Landed? {
        assert Holds(e, a, i);
      }
    }
  }

  lemma PhaseKeepsHolds(s: System, e: System, id: ExecutorId, phase: Phase)
    requires id in s.running && e.running == s.running[id := s.running[id].(phase := phase)]
    ensures forall a, c: Ticket :: Holds(e, a, c) <==> Holds(s, a, c)
  {
  }

  /** Changing only a job's phase keeps the pool. */
  lemma PhaseKeepsPool(s: System, e: System, id: ExecutorId, phase: Phase)
    requires PoolSound(s) && id in s.running
    requires e == s.(running := s.running[id := s.running[id].(phase := phase)], accounts := e.accounts)
    ensures PoolSound(e)
  {
    hide InFlight;
    PhaseKeepsHolds(s, e, id, phase);
    assert AllHeld(e) by {
      assert AllHeld(s);
      forall c: Ticket | InFlight(e.table, c) ensures exists a :: Holds(e, a, c) {
        var a :| Holds(s, a, c);
        assert Holds(e, a, c);
      }
    }
  }

  lemma LoadKeeps(sem: Semantics, init: Chain, s: System, id: ExecutorId)
    requires SystemInv(sem, init, s) && Enabled(s, Load(id))
    ensures SystemInv(sem, init, Next(sem, s, Load(id)))
  {
    hide Inv, PoolSound, AccountsSound, ViewsSound, HasLanded;
    var e := Next(sem, s, Load(id));
    PhaseKeepsPool(s, e, id, e.running[id].phase);
    LoadLandsNothing(sem, s, id);
    SameLandedKeepsAccounts(sem, s, e);
    LoadKeepsViews(sem, s, id);
  }

  lemma LoadLandsNothing(sem: Semantics, s: System, id: ExecutorId)
    requires Enabled(s, Load(id))
    ensures forall i: Ticket :: HasLanded(Next(sem, s, Load(id)), i) <==> HasLanded(s, i)
  {
    var e := Next(sem, s, Load(id));
    forall i: Ticket ensures HasLanded(e, i) <==> HasLanded(s, i) {
      if a :| Holds(s, a, i) && s.running[a].phase.Landed? {
        assert Holds(e, a, i);
      }
    }
  }

  lemma LoadKeepsViews(sem: Semantics, s: System, id: ExecutorId)
    requires Inv(s.table, s.txs) && PoolSound(s) && AccountsSound(sem, s) && ViewsSound(sem, s)
    requires Enabled(s, Load(id)) && PoolSound(Next(sem, s, Load(id)))
    ensures ViewsSound(sem, Next(sem, s, Load(id)))
  {
    hide Inv, AccountsSound, InFlight;
    LoadSeesSerialState(sem, s, id);
  }

  /** The account images a transaction loads are those of the serial execution. */
  lemma LoadSeesSerialState(sem: Semantics, s: System, id: ExecutorId)
    requires Inv(s.table, s.txs) && PoolSound(s) && AccountsSound(sem, s)
    requires id in s.running && s.running[id].phase.Assigned?
    ensures View(s.running[id].request, s.accounts) ==
            View(s.running[id].request, Serial(sem, s.txs[..s.running[id].ticket], s.base.accounts))
  {
    var job := s.running[id];
    forall k | Touches(job.request, k)
      ensures Same(s.accounts, Serial(sem, s.txs[..job.ticket], s.base.accounts), k)
    {
      RunningSplits(s, id, k);
    }
    ViewAgrees(job.request, s.accounts, Serial(sem, s.txs[..job.ticket], s.base.accounts));
  }

  lemma CommitKeeps(sem: Semantics, init: Chain, s: System, id: ExecutorId)
    requires SystemInv(sem, init, s) && Enabled(s, Commit(id))
    ensures SystemInv(sem, init, Next(sem, s, Commit(id)))
  {
    var e := Next(sem, s, Commit(id));
    PhaseKeepsPool(s, e, id, Landed);
    CommitLands(sem, s, id);
    forall k, j: nat | j <= |e.txs| && Split(e, k, j)
      ensures Same(e.accounts, Serial(sem, e.txs[..j], e.base.accounts), k)
    {
      CommitKeepsAccount(sem, s, id, k, j);
    }
  }

  lemma CommitLands(sem: Semantics, s: System, id: ExecutorId)
    requires PoolSound(s) && Enabled(s, Commit(id))
    ensures forall i: Ticket :: HasLanded(Next(sem, s, Commit(id)), i) <==> HasLanded(s, i) || i == s.running[id].ticket
  {
    var e := Next(sem, s, Commit(id));
    assert Holds(e, id, s.running[id].ticket);
    forall i: Ticket
      ensures HasLanded(e, i) <==> HasLanded(s, i) || i == s.running[id].ticket
    {
      if a :| Holds(s, a, i) && s.running[a].phase.Landed? {
        assert Holds(e, a, i) && e.running[a].phase.Landed?;
      }
      if a :| Holds(e, a, i) && e.running[a].phase.Landed? {
        assert Holds(s, a, i);
      }
    }
  }

  /** Landing moves exactly the written accounts from before the ticket to after it. */
  lemma CommitKeepsAccount(sem: Semantics, s: System, id: ExecutorId, k: Pubkey, j: nat)
    requires Inv(s.table, s.txs) && PoolSound(s) && AccountsSound(sem, s) && ViewsSound(sem, s)
    requires Enabled(s, Commit(id)) && j <= |s.txs| && Split(Next(sem, s, Commit(id)), k, j)
    ensures Same(Next(sem, s, Commit(id)).accounts, Serial(sem, s.txs[..j], s.base.accounts), k)
  {
    var e := Next(sem, s, Commit(id));
    if Writes(s.running[id].request, k) {
      CommitWrites(sem, s, id, k, j);
    } else {
      CommitSplits(sem, s, id, k, j);
      assert Split(s, k, j);
    }
  }

  lemma CommitSplits(sem: Semantics, s: System, id: ExecutorId, k: Pubkey, j: nat)
    requires PoolSound(s) && Enabled(s, Commit(id)) && !Writes(s.running[id].request, k)
    requires Split(Next(sem, s, Commit(id)), k, j)
    ensures Split(s, k, j)
  {
    hide HasLanded, InFlight;
    CommitLands(sem, s, id);
  }

  lemma CommitWrites(sem: Semantics, s: System, id: ExecutorId, k: Pubkey, j: nat)
    requires Inv(s.table, s.txs) && PoolSound(s) && ViewsSound(sem, s)
    requires Enabled(s, Commit(id)) && j <= |s.txs| && Split(Next(sem, s, Commit(id)), k, j)
    requires Writes(s.running[id].request, k)
    ensures Same(Next(sem, s, Commit(id)).accounts, Serial(sem, s.txs[..j], s.base.accounts), k)
  {
    hide ViewsSound, PoolSound, Inv, Split;
    var c := s.running[id].ticket;
    NoWritesBetween(sem, s, id, k, j);
    LandIsSerialStep(sem, s, id, k);
    SerialUntouched(sem, s.txs, s.base.accounts, c + 1, j, k);
  }

  /** Once the ticket lands, later writers of its accounts are still to come. */
  lemma NoWritesBetween(sem: Semantics, s: System, id: ExecutorId, k: Pubkey, j: nat)
    requires Inv(s.table, s.txs) && PoolSound(s)
    requires Enabled(s, Commit(id)) && j <= |s.txs| && Split(Next(sem, s, Commit(id)), k, j)
    requires Writes(s.running[id].request, k)
    ensures s.running[id].ticket < j && forall m :: s.running[id].ticket + 1 <= m < j ==> !Writes(s.txs[m], k)
  {
    hide Inv, HasLanded, InFlight;
    CommitLands(sem, s, id);
    RunningSplits(s, id, k);
  }

  /** What a transaction lands is what serial execution writes at its ticket. */
  lemma LandIsSerialStep(sem: Semantics, s: System, id: ExecutorId, k: Pubkey)
    requires PoolSound(s) && ViewsSound(sem, s) && Enabled(s, Commit(id)) && Writes(s.running[id].request, k)
    ensures s.running[id].ticket < |s.txs|
    ensures Same(Next(sem, s, Commit(id)).accounts, Serial(sem, s.txs[..s.running[id].ticket + 1], s.base.accounts), k)
  {
    hide InFlight, AllHeld, Serial, Land, View;
    var c, job := s.running[id].ticket, s.running[id];
    var before := Serial(sem, s.txs[..c], s.base.accounts);
    SerialOneMore(sem, s.txs, c, s.base.accounts);
    LandsAlike(sem, job.request, s.accounts, before, k);
  }

  lemma SerialOneMore(sem: Semantics, txs: seq<Transaction>, c: nat, base: State)
    requires c < |txs|
    ensures Serial(sem, txs[..c + 1], base) == Apply(sem, txs[c], Serial(sem, txs[..c], base))
  {
    assert txs[..c + 1][..c] == txs[..c];
  }

  /** A written account gets the same value wherever the result lands. */
  lemma LandsAlike(sem: Semantics, tx: Transaction, a: State, b: State, k: Pubkey)
    requires Writes(tx, k)
    ensures Same(Land(tx, a, sem.run(tx, View(tx, b))), Apply(sem, tx, b), k)
  {
  }

  lemma AcknowledgeKeeps(sem: Semantics, init: Chain, s: System, id: ExecutorId)
    requires SystemInv(sem, init, s) && Enabled(s, Acknowledge(id))
    ensures SystemInv(sem, init, Next(sem, s, Acknowledge(id)))
  {
    hide Inv, PoolSound, AccountsSound, ViewsSound, HistorySound, HasLanded;
    var e := Next(sem, s, Acknowledge(id));
    RunningInFlight(s, id);
    CompleteKeepsInv(s.table, s.txs, s.running[id].ticket);
    AcknowledgeKeepsPool(sem, s, id);
    SameLandedKeepsAccounts(sem, s, e);
    AcknowledgeKeepsViews(sem, s, id);
    SameHistory(sem, init, s, e);
  }

  lemma RunningInFlight(s: System, id: ExecutorId)
    requires PoolSound(s) && id in s.running
    ensures s.running[id].ticket < |s.txs| == |s.table.nodes| && InFlight(s.table, s.running[id].ticket)
  {
    hide InFlight, AllHeld;
  }

  lemma AcknowledgeKeepsViews(sem: Semantics, s: System, id: ExecutorId)
    requires PoolSound(s) && ViewsSound(sem, s) && Enabled(s, Acknowledge(id))
    requires PoolSound(Next(sem, s, Acknowledge(id)))
    ensures ViewsSound(sem, Next(sem, s, Acknowledge(id)))
  {
    hide InFlight, AllHeld, Completed;
  }

  lemma AcknowledgeKeepsPool(sem: Semantics, s: System, id: ExecutorId)
    requires Inv(s.table, s.txs) && PoolSound(s) && Enabled(s, Acknowledge(id))
    ensures PoolSound(Next(sem, s, Acknowledge(id)))
    ensures forall i: Ticket :: HasLanded(Next(sem, s, Acknowledge(id)), i) <==> HasLanded(s, i)
  {
    hide Inv, InFlight, PoolSound, HasLanded, Completed;
    var done := s.running[id].ticket;
    RunningInFlight(s, id);
    CompletedInFlight(s.table, s.txs, done);
    CompletedDone(s.table, s.txs, done);
    DropKeepsPool(s, Next(sem, s, Acknowledge(id)), id);
    AcknowledgeLandsNothing(sem, s, id);
  }

  /** Taking a finished ticket off its executor keeps the pool. */
  lemma DropKeepsPool(s: System, e: System, id: ExecutorId)
    requires PoolSound(s) && id in s.running && e == s.(table := e.table, running := s.running - {id})
    requires |e.table.nodes| == |s.txs|
    requires forall i: Ticket :: InFlight(e.table, i) <==> InFlight(s.table, i) && i != s.running[id].ticket
    ensures PoolSound(e)
  {
    hide InFlight, AllHeld;
    DropKeepsHeld(s, e, id);
  }

  lemma DropKeepsHeld(s: System, e: System, id: ExecutorId)
    requires AllHeld(s) && id in s.running && e.running == s.running - {id}
    requires forall i: Ticket :: InFlight(e.table, i) <==> InFlight(s.table, i) && i != s.running[id].ticket
    ensures AllHeld(e)
  {
    hide InFlight;
    forall c: Ticket | InFlight(e.table, c) ensures exists a :: Holds(e, a, c) {
      var a :| Holds(s, a, c);
      assert Holds(e, a, c);
    }
  }

  lemma AcknowledgeLandsNothing(sem: Semantics, s: System, id: ExecutorId)
    requires Inv(s.table, s.txs) && PoolSound(s) && Enabled(s, Acknowledge(id))
    ensures forall i: Ticket :: HasLanded(Next(sem, s, Acknowledge(id)), i) <==> HasLanded(s, i)
  {
    hide Inv, InFlight;
    var e := Next(sem, s, Acknowledge(id));
    var done := s.running[id].ticket;
    CompletedDone(s.table, s.txs, done);
    forall i: Ticket ensures HasLanded(e, i) <==> HasLanded(s, i) {
      if i == done {
        assert Holds(s, id, done);
      } else if a :| Holds(s, a, i) && s.running[a].phase.Landed? {
        assert Holds(e, a, i);
      }
    }
  }

  lemma CompletedDone(t: Table, txs: seq<Transaction>, c: Ticket)
    requires Inv(t, txs) && InFlight(t, c) && t.outstanding > 0
    ensures |Completed(t, c).nodes| == |txs| && forall i: Ticket :: Done(Completed(t, c), i) <==> Done(t, i) || i == c
  {
  }

  /** Completing one ticket neither starts nor stops any other. */
  lemma CompletedInFlight(t: Table, txs: seq<Transaction>, c: Ticket)
    requires Inv(t, txs) && InFlight(t, c) && t.outstanding > 0
    ensures forall i: Ticket :: InFlight(Completed(t, c), i) <==> InFlight(t, i) && i != c
  {
    var t' := Completed(t, c);
    CompletedShape(t, txs, c);
    var released := Released(t, t.nodes[c].dependents);
    forall i: Ticket
      ensures InFlight(t', i) <==> InFlight(t, i) && i != c
    {
      assert i in Tickets(t'.ready) <==> i in Tickets(t.ready) || i in Tickets(released) by {
        assert forall x :: x in t'.ready <==> x in t.ready || x in released;
      }
      if Live(t, i) && Edge(t, c, i) {
        assert c in Pending(t, i);
        if t.nodes[i].predecessors == Waiting(1) {
          assert Ready(i, t.blocked[i]) in released;
        }
      } else {
        assert i !in Tickets(released);
      }
    }
  }

  /** Once every transaction landed, the accounts are the serial result. */
  lemma AllLanded(sem: Semantics, s: System)
    requires AccountsSound(sem, s)
    requires forall i: Ticket :: i < |s.txs| ==> HasLanded(s, i)
    ensures s.accounts == Serial(sem, s.txs, s.base.accounts)
  {
    var serial := Serial(sem, s.txs, s.base.accounts);
    assert s.txs[..|s.txs|] == s.txs;
    forall k ensures Same(s.accounts, serial, k) {
      assert Split(s, k, |s.txs|);
    }
    assert forall k :: k in s.accounts ==> Same(s.accounts, serial, k);
    assert forall k :: k in serial ==> Same(s.accounts, serial, k);
  }

  lemma RunningIsOutstanding(s: System, id: ExecutorId)
    requires Inv(s.table, s.txs) && PoolSound(s) && id in s.running
    ensures s.table.outstanding > 0
  {
    assert s.running[id].ticket in LiveTickets(s.table);
  }

  lemma DrainedLanded(sem: Semantics, init: Chain, s: System)
    requires SystemInv(sem, init, s) && s.table.outstanding == 0
    ensures s.accounts == Serial(sem, s.txs, s.base.accounts)
    ensures s.running == map[]
  {
    DrainedIsEmpty(s.table, s.txs);
    assert forall i: Ticket :: i < |s.txs| ==> HasLanded(s, i);
    AllLanded(sem, s);
    if id :| id in s.running {
      RunningIsOutstanding(s, id);
    }
  }

  lemma BoundaryKeeps(sem: Semantics, init: Chain, s: System, step: Step)
    requires SystemInv(sem, init, s) && Enabled(s, step) && (step == Barrier || step == Seal)
    ensures SystemInv(sem, init, Next(sem, s, step))
  {
    var e := Next(sem, s, step);
    DrainedLanded(sem, init, s);
    EmptyInv();
    assert e.table == EMPTY && e.txs == [];
    assert step == Seal ==> e.history[..|s.history|] == s.history;
    forall c: Ticket ensures !InFlight(e.table, c) {
    }
    forall k, j: nat | j <= |e.txs| && Split(e, k, j)
      ensures Same(e.accounts, Serial(sem, e.txs[..j], e.base.accounts), k)
    {
      assert e.txs[..j] == [];
    }
  }

  lemma StepKeeps(sem: Semantics, init: Chain, s: System, step: Step)
    requires SystemInv(sem, init, s) && Enabled(s, step)
    ensures SystemInv(sem, init, Next(sem, s, step))
  {
    match step
    case Admit(tx) => AdmitKeeps(sem, init, s, tx);
    case Dispatch(id) => DispatchKeeps(sem, init, s, id);
    case Load(id) => LoadKeeps(sem, init, s, id);
    case Commit(id) => CommitKeeps(sem, init, s, id);
    case Acknowledge(id) => AcknowledgeKeeps(sem, init, s, id);
    case Barrier => BoundaryKeeps(sem, init, s, step);
    case Seal => BoundaryKeeps(sem, init, s, step);
  }
}
