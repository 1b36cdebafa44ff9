/** The append-only transaction arena and per-account frontiers, updated in place.
    Each method is proved against the corresponding operation on table values. */
module OrderingArena {
  import opened Basics
  import opened Transactions
  import opened Ordering
  import opened OrderingRegister
  import opened OrderingComplete

  ghost predicate Ascends(s: seq<Ticket>) {
    forall i, j :: 0 <= i < j < |s| ==> s[i] < s[j]
  }

  lemma AscendsFrom(x: Ticket, s: seq<Ticket>)
    requires Ascends(s) && forall y :: y in s ==> x < y
    ensures Ascends([x] + s)
  {
    var r := [x] + s;
    forall i, j | 0 <= i < j < |r| ensures r[i] < r[j] {
      assert r[j] == s[j - 1] && s[j - 1] in s;
      assert i > 0 ==> r[i] == s[i - 1];
    }
  }

  lemma AscendsTail(s: seq<Ticket>)
    requires Ascends(s) && s != []
    ensures Ascends(s[1..]) && forall y :: y in s[1..] ==> s[0] < y
    ensures forall y :: y in s <==> y == s[0] || y in s[1..]
  {
    assert s == [s[0]] + s[1..];
  }

  lemma AscendsDistinct(s: seq<Ticket>)
    requires Ascends(s)
    ensures Distinct(s)
  {
  }

  /** Inserts into a strictly ascending list, dropping a duplicate. */
  function Insert(x: Ticket, s: seq<Ticket>): (r: seq<Ticket>)
    requires Ascends(s)
    ensures Ascends(r) && forall y :: y in r <==> y == x || y in s
  {
    if s == [] then [x]
    else
      AscendsTail(s);
      if x < s[0] then
        AscendsFrom(x, s);
        [x] + s
      else if x == s[0] then s
      else
        var rest := Insert(x, s[1..]);
        AscendsFrom(s[0], rest);
        [s[0]] + rest
  }

  /** `sort_unstable` followed by `dedup`. */
  function SortedUnique(s: seq<Ticket>): (r: seq<Ticket>)
    ensures Ascends(r) && forall y :: y in r <==> y in s
  {
    if s == [] then []
    else
      assert s == [s[0]] + s[1..];
      Insert(s[0], SortedUnique(s[1..]))
  }

  function Elements(s: seq<Ticket>): set<Ticket> {
    set x | x in s
  }

  lemma {:induction false} DistinctCardinality(s: seq<Ticket>)
    requires Distinct(s)
    ensures |Elements(s)| == |s|
  {
    if s == [] {
      assert Elements(s) == {};
    } else {
      var front, last := s[..|s| - 1], s[|s| - 1];
      DistinctCardinality(front);
      assert last !in front;
      assert Elements(s) == Elements(front) + {last};
    }
  }

  /** Keeps the readers that have not completed. */
  function Unfinished(t: Table, readers: seq<Ticket>): (r: seq<Ticket>)
    ensures forall x :: x in r <==> x in readers && !Done(t, x)
  {
    if readers == [] then []
    else
      var rest := Unfinished(t, readers[1..]);
      if Done(t, readers[0]) then rest else [readers[0]] + rest
  }

  function AccessAdvance(t: Table, a: Access): Frontier {
    Advance(t, FrontierAt(t.accounts, a.key), a.writable, |t.nodes|)
  }

  function AccessPredecessors(t: Table, a: Access): set<Ticket> {
    PredecessorsAt(t, FrontierAt(t.accounts, a.key), a.writable)
  }

  /** The transaction restricted to its first `i` accesses. */
  function Prefix(tx: Transaction, i: nat): Transaction
    requires i <= |tx.accesses|
  {
    tx.(accesses := tx.accesses[..i])
  }

  /** What one more access adds to the declared keys of a prefix. */
  lemma PrefixStep(tx: Transaction, i: nat)
    requires i < |tx.accesses| && UniqueKeys(tx)
    ensures var a, pre, post := tx.accesses[i], Prefix(tx, i), Prefix(tx, i + 1);
      && post.accesses == pre.accesses + [a]
      && !Touches(pre, a.key) && Touches(post, a.key) && Writes(post, a.key) == a.writable
      && (forall k :: k != a.key ==> Touches(pre, k) == Touches(post, k) && Writes(pre, k) == Writes(post, k))
      && (set b | b in post.accesses :: b.key) == (set b | b in pre.accesses :: b.key) + {a.key}
  {
  }

  /** An account no visited access names still has its original frontier. */
  lemma Unvisited(t: Table, tx: Transaction, i: nat, now: Table)
    requires i < |tx.accesses| && UniqueKeys(tx)
    requires now == t.(accounts := Advanced(t, Prefix(tx, i)))
    ensures AccessAdvance(now, tx.accesses[i]) == AccessAdvance(t, tx.accesses[i])
    ensures AccessPredecessors(now, tx.accesses[i]) == AccessPredecessors(t, tx.accesses[i])
  {
  }

  /** Visiting one more access extends the declarative update by that access. */
  lemma VisitStep(t: Table, tx: Transaction, i: nat)
    requires i < |tx.accesses| && UniqueKeys(tx)
    ensures Advanced(t, Prefix(tx, i + 1)) ==
            Advanced(t, Prefix(tx, i))[tx.accesses[i].key := AccessAdvance(t, tx.accesses[i])]
  {
    PrefixStep(tx, i);
    AdvancedStep(t, Prefix(tx, i), Prefix(tx, i + 1), tx.accesses[i]);
  }

  lemma AdvancedStep(t: Table, pre: Transaction, post: Transaction, a: Access)
    requires Touches(post, a.key) && Writes(post, a.key) == a.writable
    requires forall k :: k != a.key ==> Touches(pre, k) == Touches(post, k) && Writes(pre, k) == Writes(post, k)
    requires (set b | b in post.accesses :: b.key) == (set b | b in pre.accesses :: b.key) + {a.key}
    ensures Advanced(t, post) == Advanced(t, pre)[a.key := AccessAdvance(t, a)]
  {
  }

  lemma VisitStepPredecessors(t: Table, tx: Transaction, i: nat)
    requires i < |tx.accesses|
    ensures Predecessors(t, Prefix(tx, i + 1)) ==
            Predecessors(t, Prefix(tx, i)) + AccessPredecessors(t, tx.accesses[i])
  {
  }

  /** The arena midway through a completion, after `done` dependents were visited. */
  function PartlySettled(before: seq<Node>, c: Ticket, done: seq<Ticket>): (after: seq<Node>)
    requires c < |before|
    ensures |after| == |before|
  {
    seq(|before|, i requires 0 <= i < |before| =>
      if i == c then Node(Count.Complete, [])
      else if i in done then before[i].(predecessors := Decremented(before[i].predecessors))
      else before[i])
  }

  lemma ReleaseNone(t: Table, c: Ticket)
    requires c < |t.nodes|
    ensures PartlySettled(t.nodes, c, []) == t.nodes[c := Node(Count.Complete, [])]
    ensures Released(t, []) == [] && Tickets([]) == {}
  {
  }

  /** Visiting one more dependent extends the settled arena and the released list. */
  lemma ReleaseStep(t: Table, c: Ticket, deps: seq<Ticket>, i: nat)
    requires c < |t.nodes| && i < |deps| && Distinct(deps) && deps[i] != c && deps[i] < |t.nodes|
    ensures var d := deps[i];
      && deps[i] !in Tickets(Released(t, deps[..i]))
      && PartlySettled(t.nodes, c, deps[..i])[d] == t.nodes[d]
      && PartlySettled(t.nodes, c, deps[..i + 1]) ==
         PartlySettled(t.nodes, c, deps[..i])[d := t.nodes[d].(predecessors := Decremented(t.nodes[d].predecessors))]
      && Released(t, deps[..i + 1]) == Released(t, deps[..i]) +
         (if t.nodes[d].predecessors == Waiting(1) && d in t.blocked then [Ready(d, t.blocked[d])] else [])
  {
    assert deps[..i + 1][..i] == deps[..i];
    assert deps[i] !in deps[..i];
  }

  lemma BlockedWhenObstructed(t: Table, txs: seq<Transaction>, tx: Transaction)
    requires Inv(t, txs) && UniqueKeys(tx)
    ensures |Registered(t, tx).nodes| == |txs + [tx]|
    ensures Predecessors(t, tx) != {} <==> !Unobstructed(Registered(t, tx), txs + [tx], |txs|)
  {
    RegisterKeepsInv(t, txs, tx);
    RegisteredShape(t, tx);
    FrontierRefinesAllPairs(Registered(t, tx), txs + [tx], |txs|);
  }

  lemma TicketsAppend(a: seq<Ready>, x: Ready)
    ensures Tickets(a + [x]) == Tickets(a) + {x.ticket}
  {
  }

  /** A node's dependents are distinct, later, and really wait for it. */
  lemma DependentsWait(t: Table, txs: seq<Transaction>, c: Ticket)
    requires Inv(t, txs) && Live(t, c)
    ensures Distinct(t.nodes[c].dependents)
    ensures forall d :: d in t.nodes[c].dependents ==>
              c < d < |t.nodes| && t.nodes[d].predecessors.Waiting? && t.nodes[d].predecessors.count > 0
  {
    forall d | d in t.nodes[c].dependents
      ensures c < d < |t.nodes| && t.nodes[d].predecessors.Waiting? && t.nodes[d].predecessors.count > 0
    {
      assert Edge(t, c, d);
      assert c in Pending(t, d);
    }
  }

  class OrderingTable {
    var accounts: map<Pubkey, Frontier>
    var nodes: seq<Node>
    var blocked: map<Ticket, Transaction>
    var ready: seq<Ready>
    var outstanding: nat

    function Value(): Table
      reads this
    {
      Table(accounts, nodes, blocked, ready, outstanding)
    }

    constructor ()
      ensures Value() == EMPTY
    {
      accounts, nodes, blocked, ready, outstanding := map[], [], map[], [], 0;
    }

    /** Registers a transaction after every earlier one; reports whether it is blocked. */
    method Register(request: Transaction, ghost txs: seq<Transaction>) returns (isBlocked: bool)
      requires Inv(Value(), txs) && UniqueKeys(request)
      modifies this
      ensures Value() == Registered(old(Value()), request)
      ensures Inv(Value(), txs + [request])
      ensures isBlocked <==> !Unobstructed(Value(), txs + [request], |txs|)
    {
      RegisterKeepsInv(Value(), txs, request);
      BlockedWhenObstructed(Value(), txs, request);
      PredecessorsAreLiveConflicts(Value(), txs, request);
      isBlocked := Append(request);
    }

    method Append(request: Transaction) returns (isBlocked: bool)
      requires UniqueKeys(request)
      requires forall p :: p in Predecessors(Value(), request) ==> p < |nodes|
      modifies this
      ensures Value() == Registered(old(Value()), request)
      ensures isBlocked <==> Predecessors(old(Value()), request) != {}
    {
      hide Predecessors, Advanced, Linked;
      ghost var preds := Predecessors(Value(), request);
      var ticket := |nodes|;
      var predecessors := Visit(request);
      predecessors := SortedUnique(predecessors);
      assert Elements(predecessors) == preds;
      AscendsDistinct(predecessors);
      DistinctCardinality(predecessors);
      assert forall p :: p in predecessors ==> p in preds;
      Link(predecessors, ticket);
      isBlocked := predecessors != [];
      assert isBlocked ==> predecessors[0] in preds;
      if isBlocked {
        blocked := blocked[ticket := request];
      } else {
        ready := ready + [Ready(ticket, request)];
      }
      nodes := nodes + [Node(Waiting(|predecessors|), [])];
      outstanding := outstanding + 1;
    }

    /** Advances the frontier of every declared account and collects the
        unfinished tickets found there, duplicates included. */
    method Visit(request: Transaction) returns (predecessors: seq<Ticket>)
      requires UniqueKeys(request)
      modifies this`accounts
      ensures accounts == Advanced(old(Value()), request)
      ensures Elements(predecessors) == Predecessors(old(Value()), request)
    {
      ghost var t := Value();
      predecessors := [];
      var i := 0;
      assert Advanced(t, Prefix(request, 0)) == t.accounts;
      assert Elements(predecessors) == Predecessors(t, Prefix(request, 0));
      while i < |request.accesses|
        invariant 0 <= i <= |request.accesses|
        invariant Value() == t.(accounts := Advanced(t, Prefix(request, i)))
        invariant Elements(predecessors) == Predecessors(t, Prefix(request, i))
      {
        Unvisited(t, request, i, Value());
        VisitStep(t, request, i);
        VisitStepPredecessors(t, request, i);
        var found := VisitAccess(request.accesses[i]);
        ghost var before := predecessors;
        predecessors := predecessors + found;
        assert Elements(predecessors) == Elements(before) + Elements(found);
        i := i + 1;
      }
      assert Prefix(request, i) == request;
    }

    /** One step of the registration loop. */
    method VisitAccess(access: Access) returns (found: seq<Ticket>)
      modifies this`accounts
      ensures accounts == old(accounts)[access.key := AccessAdvance(old(Value()), access)]
      ensures Elements(found) == AccessPredecessors(old(Value()), access)
    {
      var frontier := FrontierAt(accounts, access.key);
      found := [];
      if frontier.lastWriter.Some? && IsComplete(frontier.lastWriter.value) {
        frontier := frontier.(lastWriter := None);
      }
      if frontier.lastWriter.Some? {
        found := [frontier.lastWriter.value];
      }
      if access.writable {
        found := found + Unfinished(Value(), frontier.readers);
        frontier := Frontier(Some(|nodes|), []);
      } else {
        frontier := frontier.(readers := frontier.readers + [|nodes|]);
      }
      accounts := accounts[access.key := frontier];
    }

    predicate IsComplete(i: Ticket)
      reads this
    {
      i < |nodes| && nodes[i].predecessors.Complete?
    }

    /** Pushes `ticket` onto every predecessor's dependents. */
    method Link(predecessors: seq<Ticket>, ticket: Ticket)
      requires Distinct(predecessors)
      requires forall p :: p in predecessors ==> p < |nodes|
      modifies this`nodes
      ensures nodes == Linked(old(nodes), Elements(predecessors), ticket)
    {
      ghost var before := nodes;
      var i := 0;
      while i < |predecessors|
        invariant 0 <= i <= |predecessors|
        invariant nodes == Linked(before, Elements(predecessors[..i]), ticket)
      {
        var p := predecessors[i];
        assert p in predecessors && p !in predecessors[..i];
        nodes := nodes[p := nodes[p].(dependents := nodes[p].dependents + [ticket])];
        i := i + 1;
        assert predecessors[..i] == predecessors[..i - 1] + [p];
      }
      assert predecessors[..i] == predecessors;
    }

    /** Takes the next dependency-free transaction for dispatch. */
    method TakeReady(ghost txs: seq<Transaction>) returns (next: Option<Ready>)
      requires Inv(Value(), txs)
      modifies this`ready
      ensures Inv(Value(), txs)
      ensures next.None? <==> old(ready) == []
      ensures next.None? ==> ready == []
      ensures next.Some? ==> [next.value] + ready == old(ready) && InFlight(Value(), next.value.ticket)
    {
      if ready == [] {
        return None;
      }
      TakeReadyKeepsInv(Value(), txs);
      next := Some(ready[0]);
      ready := ready[1..];
    }

    /** Completes a ticket and returns how many direct dependents became ready. */
    method Complete(ticket: Ticket, ghost txs: seq<Transaction>) returns (released: nat)
      requires Inv(Value(), txs) && InFlight(Value(), ticket)
      modifies this
      ensures old(outstanding) > 0 && Value() == Completed(old(Value()), ticket)
      ensures Inv(Value(), txs)
      ensures released == |ready| - |old(ready)|
    {
      ghost var t := Value();
      CompleteKeepsInv(t, txs, ticket);
      DependentsWait(t, txs, ticket);
      var dependents := nodes[ticket].dependents;
      nodes := nodes[ticket := Node(Count.Complete, [])];
      outstanding := outstanding - 1;
      released := Release(dependents, ticket, t);
      assert nodes == Settled(t.nodes, ticket);
    }

    /** Decrements each dependent once and queues those that reach zero. */
    method Release(dependents: seq<Ticket>, ghost c: Ticket, ghost t: Table) returns (released: nat)
      requires c < |t.nodes| && nodes == t.nodes[c := Node(Count.Complete, [])]
      requires blocked == t.blocked && ready == t.ready
      requires Distinct(dependents) && c !in dependents
      requires forall d :: d in dependents ==> d < |t.nodes| && t.nodes[d].predecessors.Waiting? &&
                                               t.nodes[d].predecessors.count > 0
      modifies this`nodes, this`blocked, this`ready
      ensures nodes == PartlySettled(t.nodes, c, dependents)
      ensures ready == t.ready + Released(t, dependents)
      ensures blocked == t.blocked - Tickets(Released(t, dependents))
      ensures released == |Released(t, dependents)|
    {
      hide PartlySettled, Released, Tickets;
      released := 0;
      ReleaseNone(t, c);
      var i := 0;
      while i < |dependents|
        invariant 0 <= i <= |dependents|
        invariant nodes == PartlySettled(t.nodes, c, dependents[..i])
        invariant ready == t.ready + Released(t, dependents[..i])
        invariant released == |Released(t, dependents[..i])|
        invariant blocked == t.blocked - Tickets(Released(t, dependents[..i]))
      {
        var d := dependents[i];
        assert d in dependents;
        ReleaseStep(t, c, dependents, i);
        var one := ReleaseOne(d, t, Released(t, dependents[..i]));
        released := released + one;
        i := i + 1;
      }
      assert dependents[..i] == dependents;
    }

    method ReleaseOne(d: Ticket, ghost t: Table, ghost before: seq<Ready>) returns (released: nat)
      requires d < |nodes| && d < |t.nodes| && nodes[d] == t.nodes[d]
      requires nodes[d].predecessors.Waiting? && nodes[d].predecessors.count > 0
      requires d !in Tickets(before) && blocked == t.blocked - Tickets(before)
      modifies this`nodes, this`blocked, this`ready
      ensures nodes == old(nodes)[d := t.nodes[d].(predecessors := Decremented(t.nodes[d].predecessors))]
      ensures var now := if t.nodes[d].predecessors == Waiting(1) && d in t.blocked
                         then [Ready(d, t.blocked[d])] else [];
        ready == old(ready) + now && blocked == t.blocked - Tickets(before + now) && released == |now|
    {
      released := 0;
      nodes := nodes[d := nodes[d].(predecessors := Waiting(nodes[d].predecessors.count - 1))];
      if nodes[d].predecessors.count == 0 {
        if d in blocked {
          var request := blocked[d];
          TicketsAppend(before, Ready(d, request));
          blocked := blocked - {d};
          ready := ready + [Ready(d, request)];
          released := 1;
        }
      }
      assert before + [] == before;
    }

    /** Clears the arena after a full drain. */
    method Reset(ghost txs: seq<Transaction>)
      requires Inv(Value(), txs) && outstanding == 0
      modifies this
      ensures Value() == EMPTY
      ensures old(blocked) == map[] && old(ready) == []
      ensures forall i :: 0 <= i < |txs| ==> Done(old(Value()), i)
    {
      DrainedIsEmpty(Value(), txs);
      accounts, nodes, blocked, ready := map[], [], map[], [];
    }
  }
}
