/** Completing a running transaction keeps the dependency invariant. */
module OrderingComplete {
  import opened Transactions
  import opened Ordering

  /** Running: released by the counts and no longer queued. */
  ghost predicate InFlight(t: Table, c: Ticket) {
    Live(t, c) && t.nodes[c].predecessors.count == 0 && c !in Tickets(t.ready)
  }

  lemma TakeReadyKeepsInv(t: Table, txs: seq<Transaction>)
    requires Inv(t, txs) && t.ready != []
    ensures var t' := t.(ready := t.ready[1..]);
      Inv(t', txs) && InFlight(t', t.ready[0].ticket)
  {
    var t' := t.(ready := t.ready[1..]);
    assert forall i: Ticket :: Live(t', i) == Live(t, i) && Done(t', i) == Done(t, i);
    assert forall i: Ticket, j: Ticket :: Edge(t', i, j) == Edge(t, i, j);
    assert forall j: Ticket :: Pending(t', j) == Pending(t, j);
    assert LiveTickets(t') == LiveTickets(t);
    forall i: Ticket, j: Ticket | MustWait(t', txs, i, j)
      ensures exists p: Ticket :: Covers(t', txs, i, p, j)
    {
      assert MustWait(t, txs, i, j);
      var p: Ticket :| Covers(t, txs, i, p, j);
      assert Covers(t', txs, i, p, j);
    }
    forall k
      ensures FrontierSound(t', txs, k, FrontierAt(t'.accounts, k))
    {
      assert FrontierSound(t, txs, k, FrontierAt(t.accounts, k));
    }
    forall x | x in t'.ready
      ensures x.ticket != t.ready[0].ticket
    {
      assert x in t.ready && x.request == txs[x.ticket];
      assert t.ready[0] in t.ready;
    }
  }

  /** How completion changes liveness, edges and counts. */
  lemma CompletedShape(t: Table, txs: seq<Transaction>, c: Ticket)
    requires |t.nodes| == |txs| && EdgesSound(t, txs) && Live(t, c) && t.outstanding > 0
    ensures var t' := Completed(t, c);
      && |t'.nodes| == |txs|
      && (forall i: Ticket :: Done(t', i) <==> Done(t, i) || i == c)
      && (forall i: Ticket :: Live(t', i) <==> Live(t, i) && i != c)
      && (forall i: Ticket, j: Ticket :: Edge(t', i, j) <==> Edge(t, i, j) && i != c)
      && (forall i: Ticket :: i < |txs| && i != c && Edge(t, c, i) ==>
            t'.nodes[i].predecessors == Decremented(t.nodes[i].predecessors))
      && (forall i: Ticket :: i < |txs| && i != c && !Edge(t, c, i) ==>
            t'.nodes[i].predecessors == t.nodes[i].predecessors)
  {
  }

  lemma CompleteKeepsEdges(t: Table, txs: seq<Transaction>, c: Ticket)
    requires |t.nodes| == |txs| && EdgesSound(t, txs) && CountsExact(t)
    requires Live(t, c) && t.nodes[c].predecessors.count == 0 && t.outstanding > 0
    ensures |Completed(t, c).nodes| == |txs|
    ensures EdgesSound(Completed(t, c), txs) && CountsExact(Completed(t, c))
  {
    var t' := Completed(t, c);
    CompletedShape(t, txs, c);
    assert Pending(t, c) == {};
    assert forall i: Ticket :: i in Pending(t, c) <==> Edge(t, i, c);
    forall i | 0 <= i < |t'.nodes|
      ensures Distinct(t'.nodes[i].dependents)
    {
      assert Distinct(t.nodes[i].dependents);
      assert t'.nodes[i].dependents == t.nodes[i].dependents || t'.nodes[i].dependents == [];
    }
    forall j: Ticket | Live(t', j)
      ensures t'.nodes[j].predecessors.count == |Pending(t', j)|
    {
      assert Pending(t', j) == Pending(t, j) - {c};
      assert c in Pending(t, j) <==> Edge(t, c, j);
    }
  }

  lemma CompleteKeepsOrder(t: Table, txs: seq<Transaction>, c: Ticket)
    requires Inv(t, txs) && Live(t, c) && t.nodes[c].predecessors.count == 0 && t.outstanding > 0
    ensures |Completed(t, c).nodes| == |txs|
    ensures DoneInOrder(Completed(t, c), txs) && Covered(Completed(t, c), txs)
  {
    var t' := Completed(t, c);
    CompletedShape(t, txs, c);
    FrontierRefinesAllPairs(t, txs, c);
    forall i: Ticket, j: Ticket | MustWait(t', txs, i, j)
      ensures exists p: Ticket :: Covers(t', txs, i, p, j)
    {
      assert MustWait(t, txs, i, j);
      var p: Ticket :| Covers(t, txs, i, p, j);
      assert Covers(t', txs, i, p, j);
    }
  }

  lemma ReleasedDistinct(t: Table, deps: seq<Ticket>)
    requires Distinct(deps)
    ensures Distinct(Released(t, deps))
  {
  }

  /** Who stays blocked when `c` completes: everyone who waits for somebody else, too. */
  lemma CompletedBlocked(t: Table, txs: seq<Transaction>, c: Ticket, j: Ticket)
    requires |t.nodes| == |txs| && EdgesSound(t, txs) && CountsExact(t) && QueuesSound(t, txs)
    requires InFlight(t, c) && t.outstanding > 0
    ensures var t' := Completed(t, c);
      j in t'.blocked <==> Live(t', j) && t'.nodes[j].predecessors.count > 0
  {
    var t' := Completed(t, c);
    CompletedShape(t, txs, c);
    var released := Released(t, t.nodes[c].dependents);
    if Live(t, j) && Edge(t, c, j) {
      assert c in Pending(t, j);
      assert j in Tickets(released) <==> t.nodes[j].predecessors == Waiting(1) by {
        if t.nodes[j].predecessors == Waiting(1) {
          assert Ready(j, t.blocked[j]) in released;
        }
      }
    }
    assert j in Tickets(released) ==> Edge(t, c, j) && Live(t, j);
  }

  lemma CompleteKeepsQueues(t: Table, txs: seq<Transaction>, c: Ticket)
    requires |t.nodes| == |txs| && EdgesSound(t, txs) && CountsExact(t) && QueuesSound(t, txs)
    requires InFlight(t, c) && t.outstanding > 0
    ensures |Completed(t, c).nodes| == |txs| && QueuesSound(Completed(t, c), txs)
  {
    var t' := Completed(t, c);
    CompletedShape(t, txs, c);
    var deps := t.nodes[c].dependents;
    var released := Released(t, deps);
    assert Distinct(deps);
    ReleasedDistinct(t, deps);
    forall j: Ticket
      ensures j in t'.blocked <==> Live(t', j) && t'.nodes[j].predecessors.count > 0
    {
      CompletedBlocked(t, txs, c, j);
    }
    forall x | x in t'.ready
      ensures Live(t', x.ticket) && t'.nodes[x.ticket].predecessors.count == 0 && x.request == txs[x.ticket]
    {
      if x in t.ready {
        assert x.ticket in Tickets(t.ready);
        assert Edge(t, c, x.ticket) ==> c in Pending(t, x.ticket);
      }
    }
    forall x | x in released ensures x !in t.ready {
      assert t.nodes[x.ticket].predecessors == Waiting(1);
    }
  }

  lemma CompleteKeepsInv(t: Table, txs: seq<Transaction>, c: Ticket)
    requires Inv(t, txs) && InFlight(t, c)
    ensures t.outstanding > 0 && Inv(Completed(t, c), txs)
  {
    assert c in LiveTickets(t);
    var t' := Completed(t, c);
    CompletedShape(t, txs, c);
    CompleteKeepsEdges(t, txs, c);
    CompleteKeepsOrder(t, txs, c);
    CompleteKeepsQueues(t, txs, c);
    assert LiveTickets(t') == LiveTickets(t) - {c};
    forall k
      ensures FrontierSound(t', txs, k, FrontierAt(t'.accounts, k))
    {
      assert FrontierSound(t, txs, k, FrontierAt(t.accounts, k));
    }
  }

  lemma ReadyIsOutstanding(t: Table, txs: seq<Transaction>)
    requires Inv(t, txs) && t.ready != []
    ensures t.outstanding > 0
  {
    assert t.ready[0] in t.ready;
    assert t.ready[0].ticket in LiveTickets(t);
  }

  /** A drained table holds no queued payload: the reset discards nothing. */
  lemma DrainedIsEmpty(t: Table, txs: seq<Transaction>)
    requires Inv(t, txs) && t.outstanding == 0
    ensures t.blocked == map[] && t.ready == []
    ensures forall i: Ticket :: i < |txs| ==> Done(t, i)
  {
    assert LiveTickets(t) == {};
    forall i: Ticket | i < |txs| ensures Done(t, i) {
      assert i !in LiveTickets(t);
      assert !Live(t, i);
    }
    if t.ready != [] {
      ReadyIsOutstanding(t, txs);
    }
  }

  /** Taking the queue's head puts exactly that ticket in flight. */
  lemma TakenInFlight(t: Table, txs: seq<Transaction>)
    requires Inv(t, txs) && t.ready != []
    ensures var t', head := t.(ready := t.ready[1..]), t.ready[0].ticket;
      forall c: Ticket :: InFlight(t', c) <==> InFlight(t, c) || c == head
  {
  }
}
