/** Registering a transaction keeps the dependency invariant. */
module OrderingRegister {
  import opened Basics
  import opened Transactions
  import opened Ordering

  lemma PredecessorsAreLiveConflicts(t: Table, txs: seq<Transaction>, tx: Transaction)
    requires |t.nodes| == |txs| && FrontiersSound(t, txs)
    ensures forall p :: p in Predecessors(t, tx) ==> Live(t, p) && Conflict(txs[p], tx)
  {
    forall p | p in Predecessors(t, tx)
      ensures Live(t, p) && Conflict(txs[p], tx)
    {
      var a :| a in tx.accesses && p in PredecessorsAt(t, FrontierAt(t.accounts, a.key), a.writable);
      assert FrontierSound(t, txs, a.key, FrontierAt(t.accounts, a.key));
      assert a == Access(a.key, a.writable);
      assert ConflictOn(txs[p], tx, a.key);
    }
  }

  /** How registration changes liveness and edges. */
  lemma RegisteredShape(t: Table, tx: Transaction)
    ensures var t' := Registered(t, tx);
      && |t'.nodes| == |t.nodes| + 1
      && (forall i: Ticket :: Done(t', i) <==> Done(t, i))
      && (forall i: Ticket :: Live(t', i) <==> Live(t, i) || i == |t.nodes|)
      && (forall i: Ticket, j: Ticket :: Edge(t', i, j) <==>
            Edge(t, i, j) || (i < |t.nodes| && j == |t.nodes| && i in Predecessors(t, tx)))
      && (forall i: Ticket :: i < |t.nodes| ==> t'.nodes[i].predecessors == t.nodes[i].predecessors)
  {
  }

  lemma RegisteredDependents(t: Table, tx: Transaction, i: Ticket)
    requires i <= |t.nodes|
    ensures |Registered(t, tx).nodes| == |t.nodes| + 1
    ensures Registered(t, tx).nodes[i].dependents ==
            if i == |t.nodes| then []
            else if i in Predecessors(t, tx) then t.nodes[i].dependents + [|t.nodes|]
            else t.nodes[i].dependents
  {
    hide Predecessors, Advanced;
  }

  lemma RegisterKeepsEdges(t: Table, txs: seq<Transaction>, tx: Transaction)
    requires |t.nodes| == |txs| && EdgesSound(t, txs) && FrontiersSound(t, txs)
    ensures |Registered(t, tx).nodes| == |txs + [tx]| && EdgesSound(Registered(t, tx), txs + [tx])
  {
    hide Registered, Predecessors, FrontiersSound, Conflict;
    var t', txs' := Registered(t, tx), txs + [tx];
    RegisteredShape(t, tx);
    PredecessorsAreLiveConflicts(t, txs, tx);
    assert forall i :: 0 <= i < |txs| ==> txs'[i] == txs[i];
    forall i | 0 <= i < |t'.nodes|
      ensures Distinct(t'.nodes[i].dependents)
    {
      RegisteredDependents(t, tx, i);
      if i < |t.nodes| {
        assert Distinct(t.nodes[i].dependents);
        forall m | 0 <= m < |t.nodes[i].dependents|
          ensures t.nodes[i].dependents[m] != |txs|
        {
          assert Edge(t, i, t.nodes[i].dependents[m]);
        }
      }
    }
  }

  lemma RegisterKeepsCounts(t: Table, txs: seq<Transaction>, tx: Transaction)
    requires |t.nodes| == |txs| && EdgesSound(t, txs) && FrontiersSound(t, txs) && CountsExact(t)
    ensures CountsExact(Registered(t, tx))
  {
    var t' := Registered(t, tx);
    RegisteredShape(t, tx);
    PredecessorsAreLiveConflicts(t, txs, tx);
    forall j: Ticket | Live(t', j)
      ensures t'.nodes[j].predecessors.count == |Pending(t', j)|
    {
      if j == |t.nodes| {
        assert Pending(t', j) == Predecessors(t, tx);
      } else {
        assert Pending(t', j) == Pending(t, j);
      }
    }
  }

  /** A writer that left the frontier leaves no unfinished user of the account behind. */
  lemma FrontierCovers(t: Table, txs: seq<Transaction>, tx: Transaction, i: Ticket, k: Pubkey) returns (p: Ticket)
    requires Inv(t, txs) && Live(t, i) && ConflictOn(txs[i], tx, k)
    ensures p in Predecessors(t, tx) && p < |txs| && (p == i || (i < p && Conflict(txs[i], txs[p])))
  {
    var f := FrontierAt(t.accounts, k);
    assert FrontierSound(t, txs, k, f);
    var a := Access(k, Writes(tx, k));
    assert a in tx.accesses;
    if f.lastWriter.Some? && i <= f.lastWriter.value {
      p := f.lastWriter.value;
      assert i < p ==> ConflictOn(txs[i], txs[p], k);
      assert !Done(t, p);
    } else {
      p := i;
    }
    assert p in PredecessorsAt(t, f, a.writable);
  }

  lemma RegisterKeepsCovered(t: Table, txs: seq<Transaction>, tx: Transaction)
    requires Inv(t, txs)
    ensures |Registered(t, tx).nodes| == |txs + [tx]| && Covered(Registered(t, tx), txs + [tx])
  {
    var t', txs' := Registered(t, tx), txs + [tx];
    RegisteredShape(t, tx);
    forall i: Ticket, j: Ticket | MustWait(t', txs', i, j)
      ensures exists p: Ticket :: Covers(t', txs', i, p, j)
    {
      if j == |txs| {
        var k :| ConflictOn(txs[i], tx, k);
        var p := FrontierCovers(t, txs, tx, i, k);
        assert Covers(t', txs', i, p, j);
      } else {
        assert MustWait(t, txs, i, j);
        var p: Ticket :| Covers(t, txs, i, p, j);
        assert Covers(t', txs', i, p, j);
      }
    }
  }

  lemma RegisterKeepsFrontiers(t: Table, txs: seq<Transaction>, tx: Transaction)
    requires |t.nodes| == |txs| && FrontiersSound(t, txs) && DoneInOrder(t, txs) && UniqueKeys(tx)
    ensures |Registered(t, tx).nodes| == |txs + [tx]| && FrontiersSound(Registered(t, tx), txs + [tx])
  {
    hide Registered, FrontierSound, DoneInOrder;
    var t', txs' := Registered(t, tx), txs + [tx];
    RegisteredShape(t, tx);
    forall k
      ensures FrontierSound(t', txs', k, FrontierAt(t'.accounts, k))
    {
      RegisterKeepsFrontier(t, txs, tx, k);
    }
  }

  lemma RegisterKeepsFrontier(t: Table, txs: seq<Transaction>, tx: Transaction, k: Pubkey)
    requires |t.nodes| == |txs| && FrontierSound(t, txs, k, FrontierAt(t.accounts, k)) && DoneInOrder(t, txs)
    requires UniqueKeys(tx)
    ensures var t' := Registered(t, tx);
      |t'.nodes| == |txs + [tx]| && FrontierSound(t', txs + [tx], k, FrontierAt(t'.accounts, k))
  {
    hide Registered, FrontierSound, DoneInOrder, Advance;
    RegisteredShape(t, tx);
    FrontierAfter(t, tx, k);
    if Touches(tx, k) {
      AccessedOneWay(tx, k);
      AdvanceSound(t, Registered(t, tx), txs, tx, k, FrontierAt(t.accounts, k));
    } else {
      UntouchedSound(t, Registered(t, tx), txs, tx, k, FrontierAt(t.accounts, k));
    }
  }

  lemma FrontierAfter(t: Table, tx: Transaction, k: Pubkey)
    ensures FrontierAt(Registered(t, tx).accounts, k) ==
            if Touches(tx, k) then Advance(t, FrontierAt(t.accounts, k), Writes(tx, k), |t.nodes|)
            else FrontierAt(t.accounts, k)
  {
    hide Predecessors, Linked, Advance;
    if Touches(tx, k) {
      assert Access(k, Writes(tx, k)) in tx.accesses;
    }
  }

  /** With unique keys an account is either read or written. */
  lemma AccessedOneWay(tx: Transaction, k: Pubkey)
    requires UniqueKeys(tx)
    ensures Writes(tx, k) ==> !Reads(tx, k)
  {
  }

  /** The registered transaction does not touch the account. */
  lemma UntouchedSound(t: Table, t': Table, txs: seq<Transaction>, tx: Transaction, k: Pubkey, f: Frontier)
    requires |t.nodes| == |txs| && FrontierSound(t, txs, k, f) && !Touches(tx, k)
    requires |t'.nodes| == |txs| + 1 && forall i: Ticket :: Live(t', i) <==> Live(t, i) || i == |txs|
    ensures FrontierSound(t', txs + [tx], k, f)
  {
    var txs' := txs + [tx];
    assert forall i :: 0 <= i < |txs| ==> txs'[i] == txs[i];
  }

  lemma AdvanceSound(t: Table, t': Table, txs: seq<Transaction>, tx: Transaction, k: Pubkey, f: Frontier)
    requires |t.nodes| == |txs| && FrontierSound(t, txs, k, f) && DoneInOrder(t, txs) && Touches(tx, k)
    requires Writes(tx, k) ==> !Reads(tx, k)
    requires |t'.nodes| == |txs| + 1 && forall i: Ticket :: Live(t', i) <==> Live(t, i) || i == |txs|
    ensures FrontierSound(t', txs + [tx], k, Advance(t, f, Writes(tx, k), |txs|))
  {
    hide DoneInOrder;
    var txs' := txs + [tx];
    assert forall i :: 0 <= i < |txs| ==> txs'[i] == txs[i];
    if !Writes(tx, k) {
      if f.lastWriter.Some? && Done(t, f.lastWriter.value) {
        NoneLiveBelowDoneWriter(t, txs, k, f.lastWriter.value);
      }
      ReadAdvances(t, t', txs, tx, k, f);
    } else {
      WriteAdvances(t, t', txs, tx, k);
    }
  }

  lemma WriteAdvances(t: Table, t': Table, txs: seq<Transaction>, tx: Transaction, k: Pubkey)
    requires |t.nodes| == |txs| && Writes(tx, k) && !Reads(tx, k)
    requires |t'.nodes| == |txs| + 1 && forall i: Ticket :: Live(t', i) <==> Live(t, i) || i == |txs|
    ensures FrontierSound(t', txs + [tx], k, Frontier(Some(|txs|), []))
  {
  }

  lemma ReadAdvances(t: Table, t': Table, txs: seq<Transaction>, tx: Transaction, k: Pubkey, f: Frontier)
    requires |t.nodes| == |txs| && FrontierSound(t, txs, k, f) && Reads(tx, k) && !Writes(tx, k)
    requires |t'.nodes| == |txs| + 1 && forall i: Ticket :: Live(t', i) <==> Live(t, i) || i == |txs|
    requires f.lastWriter.Some? && Done(t, f.lastWriter.value) ==>
               forall i: Ticket :: i <= f.lastWriter.value && Live(t, i) ==> !Touches(txs[i], k)
    ensures FrontierSound(t', txs + [tx], k, Frontier(LiveWriter(t, f), f.readers + [|txs|]))
  {
    var txs' := txs + [tx];
    assert forall i :: 0 <= i < |txs| ==> txs'[i] == txs[i];
  }

  lemma NoneLiveBelowDoneWriter(t: Table, txs: seq<Transaction>, k: Pubkey, w: Ticket)
    requires |t.nodes| == |txs| && DoneInOrder(t, txs) && Done(t, w) && Writes(txs[w], k)
    ensures forall i: Ticket :: i <= w && Live(t, i) ==> !Touches(txs[i], k)
  {
    forall i: Ticket | i <= w && Live(t, i)
      ensures !Touches(txs[i], k)
    {
      if Touches(txs[i], k) {
        assert ConflictOn(txs[i], txs[w], k);
      }
    }
  }

  lemma RegisterKeepsQueues(t: Table, txs: seq<Transaction>, tx: Transaction)
    requires |t.nodes| == |txs| && QueuesSound(t, txs)
    ensures |Registered(t, tx).nodes| == |txs + [tx]| && QueuesSound(Registered(t, tx), txs + [tx])
  {
    var t' := Registered(t, tx);
    RegisteredShape(t, tx);
    assert |txs| !in t.blocked;
    forall r | r in t.ready ensures r.ticket < |txs| { assert Live(t, r.ticket); }
    assert Ready(|txs|, tx) !in t.ready;
  }

  lemma RegisterKeepsOrder(t: Table, txs: seq<Transaction>, tx: Transaction)
    requires |t.nodes| == |txs| && DoneInOrder(t, txs)
    ensures |Registered(t, tx).nodes| == |txs + [tx]| && DoneInOrder(Registered(t, tx), txs + [tx])
  {
  }

  lemma RegisterCounts(t: Table, tx: Transaction)
    ensures |LiveTickets(Registered(t, tx))| == |LiveTickets(t)| + 1
  {
    RegisteredShape(t, tx);
    hide Registered, Live;
    assert LiveTickets(Registered(t, tx)) == LiveTickets(t) + {|t.nodes|};
  }

  lemma RegisterKeepsInv(t: Table, txs: seq<Transaction>, tx: Transaction)
    requires Inv(t, txs) && UniqueKeys(tx)
    ensures Inv(Registered(t, tx), txs + [tx])
  {
    hide EdgesSound, CountsExact, DoneInOrder, Covered, FrontiersSound, QueuesSound, LiveTickets;
    RegisterKeepsEdges(t, txs, tx);
    RegisterKeepsCounts(t, txs, tx);
    RegisterKeepsOrder(t, txs, tx);
    RegisterKeepsCovered(t, txs, tx);
    RegisterKeepsFrontiers(t, txs, tx);
    RegisterKeepsQueues(t, txs, tx);
    RegisterCounts(t, tx);
  }
}
