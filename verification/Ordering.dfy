/** The dependency table as a value: what registering and completing a
    transaction do to it, the invariant that ties the account frontiers to the
    conflicts of the input stream, and its equivalence with the all-pairs rule. */
module Ordering {
  import opened Basics
  import opened Transactions

  type Ticket = nat

  /** Unfinished predecessor count, or the completed sentinel. */
  datatype Count = Complete | Waiting(count: nat)

  datatype Frontier = Frontier(lastWriter: Option<Ticket>, readers: seq<Ticket>)

  datatype Node = Node(predecessors: Count, dependents: seq<Ticket>)

  datatype Ready = Ready(ticket: Ticket, request: Transaction)

  datatype Table = Table(
    accounts: map<Pubkey, Frontier>,
    nodes: seq<Node>,
    blocked: map<Ticket, Transaction>,
    ready: seq<Ready>,
    outstanding: nat)

  const EMPTY := Table(map[], [], map[], [], 0)

  predicate Done(t: Table, i: Ticket) {
    i < |t.nodes| && t.nodes[i].predecessors.Complete?
  }

  predicate Live(t: Table, i: Ticket) {
    i < |t.nodes| && !t.nodes[i].predecessors.Complete?
  }

  /** `j` waits directly for `i`. */
  predicate Edge(t: Table, i: Ticket, j: Ticket) {
    i < |t.nodes| && j in t.nodes[i].dependents
  }

  predicate Distinct<T(==)>(s: seq<T>) {
    forall i, j :: 0 <= i < j < |s| ==> s[i] != s[j]
  }

  // ---------------------------------------------------------------- Registering

  function FrontierAt(accounts: map<Pubkey, Frontier>, k: Pubkey): Frontier {
    if k in accounts then accounts[k] else Frontier(None, [])
  }

  /** The last writer, unless it already completed. */
  function LiveWriter(t: Table, f: Frontier): Option<Ticket> {
    if f.lastWriter.Some? && Done(t, f.lastWriter.value) then None else f.lastWriter
  }

  /** The frontier after ticket `n` accessed the account. */
  function Advance(t: Table, f: Frontier, writable: bool, n: Ticket): Frontier {
    if writable then Frontier(Some(n), []) else Frontier(LiveWriter(t, f), f.readers + [n])
  }

  /** Direct predecessors contributed by one access. */
  function PredecessorsAt(t: Table, f: Frontier, writable: bool): set<Ticket> {
    (if LiveWriter(t, f).Some? then {LiveWriter(t, f).value} else {}) +
    (if writable then set r | r in f.readers && !Done(t, r) else {})
  }

  function Predecessors(t: Table, tx: Transaction): set<Ticket> {
    set a, p | a in tx.accesses && p in PredecessorsAt(t, FrontierAt(t.accounts, a.key), a.writable) :: p
  }

  function Advanced(t: Table, tx: Transaction): map<Pubkey, Frontier> {
    map k | k in t.accounts.Keys + (set a | a in tx.accesses :: a.key)
      :: if Touches(tx, k) then Advance(t, FrontierAt(t.accounts, k), Writes(tx, k), |t.nodes|)
         else FrontierAt(t.accounts, k)
  }

  /** Records `n` as a dependent of every node in `preds`. */
  function Linked(nodes: seq<Node>, preds: set<Ticket>, n: Ticket): seq<Node> {
    seq(|nodes|, i requires 0 <= i < |nodes| =>
      if i in preds then nodes[i].(dependents := nodes[i].dependents + [n]) else nodes[i])
  }

  function Registered(t: Table, tx: Transaction): Table {
    var n := |t.nodes|;
    var preds := Predecessors(t, tx);
    Table(
      Advanced(t, tx),
      Linked(t.nodes, preds, n) + [Node(Waiting(|preds|), [])],
      if preds == {} then t.blocked else t.blocked[n := tx],
      if preds == {} then t.ready + [Ready(n, tx)] else t.ready,
      t.outstanding + 1)
  }

  // ---------------------------------------------------------------- Completing

  function Decremented(c: Count): Count {
    if c.Waiting? && c.count > 0 then Waiting(c.count - 1) else c
  }

  function Settled(nodes: seq<Node>, c: Ticket): seq<Node>
    requires c < |nodes|
  {
    seq(|nodes|, i requires 0 <= i < |nodes| =>
      if i == c then Node(Complete, [])
      else if i in nodes[c].dependents then nodes[i].(predecessors := Decremented(nodes[i].predecessors))
      else nodes[i])
  }

  /** The dependents whose last unfinished predecessor is completing, in order. */
  function Released(t: Table, deps: seq<Ticket>): (r: seq<Ready>)
    ensures forall x :: x in r <==> x.ticket in deps && x.ticket in t.blocked && x.request == t.blocked[x.ticket] &&
                                    x.ticket < |t.nodes| && t.nodes[x.ticket].predecessors == Waiting(1)
  {
    if deps == [] then []
    else
      var d := deps[|deps| - 1];
      var rest := Released(t, deps[..|deps| - 1]);
      if d < |t.nodes| && t.nodes[d].predecessors == Waiting(1) && d in t.blocked
      then rest + [Ready(d, t.blocked[d])] else rest
  }

  function Tickets(r: seq<Ready>): set<Ticket> {
    set x | x in r :: x.ticket
  }

  function Completed(t: Table, c: Ticket): Table
    requires c < |t.nodes| && t.outstanding > 0
  {
    var released := Released(t, t.nodes[c].dependents);
    Table(
      t.accounts,
      Settled(t.nodes, c),
      t.blocked - Tickets(released),
      t.ready + released,
      t.outstanding - 1)
  }

  // ---------------------------------------------------------------- Invariant

  /** The unfinished tickets a node still waits for. */
  ghost function Pending(t: Table, j: Ticket): set<Ticket> {
    set i | 0 <= i < |t.nodes| && Edge(t, i, j)
  }

  ghost function LiveTickets(t: Table): set<Ticket> {
    set i | 0 <= i < |t.nodes| && Live(t, i)
  }

  /** Edges run forward between unfinished, conflicting transactions. */
  ghost predicate EdgesSound(t: Table, txs: seq<Transaction>)
    requires |t.nodes| == |txs|
  {
    && (forall i: Ticket, j: Ticket :: Edge(t, i, j) ==> i < j && Live(t, i) && Live(t, j) && Conflict(txs[i], txs[j]))
    && (forall i :: 0 <= i < |t.nodes| ==> Distinct(t.nodes[i].dependents))
  }

  ghost predicate CountsExact(t: Table) {
    forall j: Ticket :: Live(t, j) ==> t.nodes[j].predecessors.count == |Pending(t, j)|
  }

  /** Conflicting transactions complete in ticket order. */
  ghost predicate DoneInOrder(t: Table, txs: seq<Transaction>)
    requires |t.nodes| == |txs|
  {
    forall i: Ticket, j: Ticket :: i < j && Done(t, j) && Conflict(txs[i], txs[j]) ==> Done(t, i)
  }

  /** `p` is a direct, unfinished reason for `j` to wait for `i`. */
  ghost predicate Covers(t: Table, txs: seq<Transaction>, i: Ticket, p: Ticket, j: Ticket)
    requires |t.nodes| == |txs|
  {
    Edge(t, p, j) && p < |txs| && i < |txs| && (p == i || (i < p && Conflict(txs[i], txs[p])))
  }

  /** By the all-pairs rule, the unfinished `j` has to wait for the unfinished `i`. */
  ghost predicate MustWait(t: Table, txs: seq<Transaction>, i: Ticket, j: Ticket)
    requires |t.nodes| == |txs|
  {
    i < j && Live(t, i) && Live(t, j) && Conflict(txs[i], txs[j])
  }

  /** Every unfinished conflict is represented by some direct edge. */
  ghost predicate Covered(t: Table, txs: seq<Transaction>)
    requires |t.nodes| == |txs|
  {
    forall i: Ticket, j: Ticket {:trigger MustWait(t, txs, i, j)} :: MustWait(t, txs, i, j) ==>
      exists p: Ticket :: Covers(t, txs, i, p, j)
  }

  /** What an account's frontier remembers of the unfinished transactions on it. */
  ghost predicate FrontierSound(t: Table, txs: seq<Transaction>, k: Pubkey, f: Frontier)
    requires |t.nodes| == |txs|
  {
    && (f.lastWriter.Some? ==> f.lastWriter.value < |txs| && Writes(txs[f.lastWriter.value], k))
    && (forall r :: r in f.readers ==> r < |txs| && Reads(txs[r], k))
    && (forall i: Ticket :: Live(t, i) && Writes(txs[i], k) ==> f.lastWriter.Some? && i <= f.lastWriter.value)
    && (forall i: Ticket :: Live(t, i) && Reads(txs[i], k) ==>
          i in f.readers || (f.lastWriter.Some? && i < f.lastWriter.value))
  }

  ghost predicate FrontiersSound(t: Table, txs: seq<Transaction>)
    requires |t.nodes| == |txs|
  {
    forall k :: FrontierSound(t, txs, k, FrontierAt(t.accounts, k))
  }

  /** Payload storage follows the counts. */
  ghost predicate QueuesSound(t: Table, txs: seq<Transaction>)
    requires |t.nodes| == |txs|
  {
    && (forall j: Ticket :: j in t.blocked <==> Live(t, j) && t.nodes[j].predecessors.count > 0)
    && (forall j: Ticket :: j in t.blocked ==> t.blocked[j] == txs[j])
    && (forall r :: r in t.ready ==> Live(t, r.ticket) && t.nodes[r.ticket].predecessors.count == 0
                                     && r.request == txs[r.ticket])
    && Distinct(t.ready)
  }

  ghost predicate Inv(t: Table, txs: seq<Transaction>) {
    && |t.nodes| == |txs|
    && EdgesSound(t, txs)
    && CountsExact(t)
    && DoneInOrder(t, txs)
    && Covered(t, txs)
    && FrontiersSound(t, txs)
    && QueuesSound(t, txs)
    && t.outstanding == |LiveTickets(t)|
  }

  lemma EmptyInv()
    ensures Inv(EMPTY, [])
  {
  }

  // ---------------------------------------------------------------- The all-pairs rule

  /** The naive rule: every earlier conflicting transaction has completed. */
  ghost predicate Unobstructed(t: Table, txs: seq<Transaction>, j: Ticket)
    requires |t.nodes| == |txs|
    requires j < |txs|
  {
    forall i: Ticket :: i < j && Conflict(txs[i], txs[j]) ==> Done(t, i)
  }

  lemma ObstructedCounts(t: Table, txs: seq<Transaction>, i: Ticket, j: Ticket)
    requires Inv(t, txs) && MustWait(t, txs, i, j)
    ensures t.nodes[j].predecessors.count > 0
  {
    var p: Ticket :| Covers(t, txs, i, p, j);
    assert p in Pending(t, j);
  }

  lemma CountedObstructs(t: Table, txs: seq<Transaction>, j: Ticket) returns (i: Ticket)
    requires Inv(t, txs) && Live(t, j) && t.nodes[j].predecessors.count > 0
    ensures MustWait(t, txs, i, j)
  {
    assert Pending(t, j) != {};
    i :| i in Pending(t, j);
    assert Edge(t, i, j);
  }

  /** The frontier table releases a ticket exactly when the all-pairs rule does. */
  lemma FrontierRefinesAllPairs(t: Table, txs: seq<Transaction>, j: Ticket)
    requires Inv(t, txs) && Live(t, j)
    ensures t.nodes[j].predecessors == Waiting(0) <==> Unobstructed(t, txs, j)
  {
    if t.nodes[j].predecessors.count > 0 {
      var i := CountedObstructs(t, txs, j);
    } else {
      forall i: Ticket | i < j && Conflict(txs[i], txs[j])
        ensures Done(t, i)
      {
        if Live(t, i) {
          ObstructedCounts(t, txs, i, j);
        }
      }
    }
  }

  lemma {:induction false} OldestLive(t: Table, i: Ticket) returns (j: Ticket)
    requires Live(t, i)
    ensures Live(t, j) && forall m: Ticket :: m < j ==> !Live(t, m)
  {
    j := i;
    if m: Ticket :| m < i && Live(t, m) {
      j := OldestLive(t, m);
    }
  }

  /** While work is outstanding, the oldest unfinished ticket is free to run. */
  lemma {:induction false} SomeTicketIsReleased(t: Table, txs: seq<Transaction>) returns (j: Ticket)
    requires Inv(t, txs) && t.outstanding > 0
    ensures Live(t, j) && t.nodes[j].predecessors == Waiting(0)
  {
    assert LiveTickets(t) != {};
    var i :| i in LiveTickets(t);
    j := OldestLive(t, i);
    FrontierRefinesAllPairs(t, txs, j);
  }
}
