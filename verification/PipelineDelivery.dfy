/** What is written reaches the index: transactions with their executions, and
    blocks, each under the superblock they were written in; and every event of the
    appender comes to an end. */
module PipelineDelivery {
  import opened Basics
  import opened Pipeline
  import opened PipelineProofs

  // ---------------------------------------------------------------- Files

  /** Files grow by exactly the records of the events, and only the active ones do. */
  lemma StepWrites(enc: Encoding, s: State, step: Step)
    requires Inv(enc, s) && Enabled(s, step)
    ensures var e := Next(enc, s, step);
      && (forall id :: id in s.segments ==> id in e.segments)
      && (forall id :: id in s.segments && id != s.head ==> e.segments[id] == s.segments[id])
      && (forall id :: id in e.segments && id !in s.segments ==> e.segments[id] == EMPTY && id == e.head)
    ensures var a, b := s.segments[s.head], Next(enc, s, step).segments[s.head];
      && b.blockstore == a.blockstore + Encoded(enc, if step.Begin? then Logged(step.event) else None)
      && b.executions == a.executions + Encoded(enc, if step.Begin? then Executed(s, step.event) else None)
  {
    hide CommittedSound, EntriesLocated, CommitsPublished, SentSound, FenceSound, RotationSound, CursorsBound, Located,
         Begun, Proceeded, Logged, Executed;
    match step
    case Begin(event) => BegunWrites(enc, s, event);
    case Proceed => ProceededWrites(s);
    case Index =>
  }

  lemma ProceededWrites(s: State)
    requires s.head in s.segments && (s.pc.Rotate? ==> s.pc.id !in s.segments)
    ensures var e := Proceeded(s);
      && (forall id :: id in s.segments ==> id in e.segments)
      && (forall id :: id in s.segments && id != s.head ==> e.segments[id] == s.segments[id])
      && (forall id :: id in e.segments && id !in s.segments ==> e.segments[id] == EMPTY && id == e.head)
      && e.segments[s.head].blockstore == s.segments[s.head].blockstore
      && e.segments[s.head].executions == s.segments[s.head].executions
  {
  }

  // ---------------------------------------------------------------- Entries match

  /** A transaction is indexed with its own execution. */
  predicate Matched(e: Entry) {
    match e
    case TxEntry(tx, execution, _, _) => tx.Transaction? && execution.Execution? && execution.executed == tx.signature
    case BlockEntry(block, _) => block.Block?
  }

  ghost predicate AllMatched(s: State) {
    && (forall g :: g in s.pending ==> s.pending[g].tx.Transaction? && s.pending[g].tx.signature == g)
    && (s.pc.SendTx? || s.pc.PublishBlock? || s.pc.SendBlock? ==> Matched(s.pc.entry))
    && (forall i :: 0 <= i < |s.queue| && !s.queue[i].Fence? ==> Matched(s.queue[i].entry))
    && (forall i :: 0 <= i < |s.batch| ==> Matched(s.batch[i]))
    && (forall id, e :: (id, e) in s.committed ==> Matched(e))
  }

  lemma StepKeepsMatched(enc: Encoding, s: State, step: Step)
    requires AllMatched(s) && Enabled(s, step)
    ensures AllMatched(Next(enc, s, step))
  {
    match step
    case Begin(event) => BegunMatches(enc, s, event);
    case Proceed => ProceededMatches(s);
    case Index => IndexedMatches(s);
  }

  lemma BegunMatches(enc: Encoding, s: State, event: Event)
    requires AllMatched(s) && s.head in s.segments && Accepts(s, event)
    ensures AllMatched(Begun(enc, s, event))
  {
    hide Appended;
  }

  lemma ProceededMatches(s: State)
    requires AllMatched(s) && s.head in s.segments
    ensures AllMatched(Proceeded(s))
  {
    hide Published;
  }

  lemma IndexedMatches(s: State)
    requires AllMatched(s) && s.queue != []
    ensures AllMatched(Indexed(s))
  {
  }

  lemma {:induction false} RunKeepsMatched(enc: Encoding, s: State, steps: seq<Step>, e: State)
    requires AllMatched(s) && Run(enc, s, steps, e)
    ensures AllMatched(e)
    decreases |steps|
  {
    hide AllMatched;
    if steps != [] {
      var m :| RunStep(enc, s, steps, m, e);
      RunKeepsMatched(enc, s, steps[..|steps| - 1], m);
      StepKeepsMatched(enc, m, steps[|steps| - 1]);
    }
  }

  /** In every interleaving a committed transaction carries its own execution. */
  lemma CommittedIsMatched(enc: Encoding, head: nat, steps: seq<Step>, e: State)
    requires Run(enc, Start(head), steps, e)
    ensures AllMatched(e)
    ensures forall id, entry :: (id, entry) in e.committed && entry.TxEntry? ==>
              && entry.tx.Transaction? && entry.execution.Execution?
              && entry.execution.executed == entry.tx.signature
  {
    StartMatched(head);
    RunKeepsMatched(enc, Start(head), steps, e);
  }

  lemma StartMatched(head: nat)
    ensures AllMatched(Start(head))
  {
  }

  // ---------------------------------------------------------------- Delivery

  /** The appender holds the entry, or has handed it over, under superblock `id`. */
  ghost predicate Delivering(s: State, id: nat, e: Entry) {
    || (s.head == id && (s.pc == SendTx(e) || (s.pc.PublishBlock? && s.pc.entry == e) ||
                         (s.pc.SendBlock? && s.pc.entry == e)))
    || (id, e) in s.sent
  }

  lemma StepKeepsDelivering(enc: Encoding, s: State, step: Step, id: nat, e: Entry)
    requires Enabled(s, step) && Delivering(s, id, e)
    ensures Delivering(Next(enc, s, step), id, e)
  {
  }

  lemma {:induction false} RunKeepsDelivering(enc: Encoding, s: State, steps: seq<Step>, t: State, id: nat, e: Entry)
    requires Run(enc, s, steps, t) && Delivering(s, id, e)
    ensures Delivering(t, id, e)
    decreases |steps|
  {
    hide Delivering;
    if steps != [] {
      var m :| RunStep(enc, s, steps, m, t);
      RunKeepsDelivering(enc, s, steps[..|steps| - 1], m, id, e);
      StepKeepsDelivering(enc, m, steps[|steps| - 1], id, e);
    }
  }

  lemma {:induction false} RunKeepsInv(enc: Encoding, s: State, steps: seq<Step>, e: State)
    requires Inv(enc, s) && Run(enc, s, steps, e)
    ensures Inv(enc, e)
    decreases |steps|
  {
    hide Inv;
    if steps != [] {
      var m :| RunStep(enc, s, steps, m, e);
      RunKeepsInv(enc, s, steps[..|steps| - 1], m);
      StepKeeps(enc, m, steps[|steps| - 1]);
    }
  }

  /** Once the appender is idle and the indexer has caught up, the entry is committed. */
  lemma DeliveredWhenIdle(enc: Encoding, s: State, id: nat, e: Entry)
    requires Inv(enc, s) && Delivering(s, id, e)
    ensures s.pc.Idle? ==> (id, e) in s.sent
    ensures s.pc.Idle? && s.queue == [] && s.batch == [] ==> (id, e) in s.committed
  {
    hide CommittedSound, EntriesLocated, CommitsPublished, FenceSound, RotationSound, PcSound, CursorsBound;
  }

  /** An execution of a pending transaction is accepted, stored once, and its entry
      is handed over by the next step of the appender; once the appender is idle and
      the indexer has caught up, the entry is committed. */
  lemma ExecutionIsIndexed(enc: Encoding, s: State, x: Record, after: seq<Step>, e: State)
    requires Inv(enc, s) && AllMatched(s) && Enabled(s, Begin(WriteExecution(x))) && x.executed in s.pending
    requires Run(enc, Next(enc, s, Begin(WriteExecution(x))), after, e)
    ensures var m := Next(enc, s, Begin(WriteExecution(x)));
      var was, segment := s.pending[x.executed], s.segments[s.head];
      var entry := TxEntry(was.tx, x, was.span, Span(|segment.executions|, |enc(x)|));
      && was.tx.signature == x.executed && m.pending == s.pending - {x.executed}
      && m.segments[s.head].executions == segment.executions + enc(x)
      && Enabled(m, Proceed) && (s.head, entry) in Next(enc, m, Proceed).sent
      && (e.pc.Idle? ==> (s.head, entry) in e.sent)
      && (e.pc.Idle? && e.queue == [] && e.batch == [] ==> (s.head, entry) in e.committed)
  {
    hide Inv, AllMatched, Run;
    InvHead(enc, s);
    var m := Next(enc, s, Begin(WriteExecution(x)));
    var was, segment := s.pending[x.executed], s.segments[s.head];
    var entry := TxEntry(was.tx, x, was.span, Span(|segment.executions|, |enc(x)|));
    MatchedPending(s, x.executed);
    StepKeeps(enc, s, Begin(WriteExecution(x)));
    InvHead(enc, m);
    RunKeepsDelivering(enc, m, after, e, s.head, entry);
    RunKeepsInv(enc, m, after, e);
    DeliveredWhenIdle(enc, e, s.head, entry);
  }

  lemma InvHead(enc: Encoding, s: State)
    requires Inv(enc, s)
    ensures s.head in s.segments
  {
  }

  lemma MatchedPending(s: State, g: Signature)
    requires AllMatched(s) && g in s.pending
    ensures s.pending[g].tx.Transaction? && s.pending[g].tx.signature == g
  {
  }

  /** A block is indexed the same way. */
  lemma BlockIsIndexed(enc: Encoding, s: State, block: Record, sync: bool, after: seq<Step>, e: State)
    requires Inv(enc, s) && Enabled(s, Begin(WriteBlock(block, sync)))
    requires Run(enc, Next(enc, s, Begin(WriteBlock(block, sync))), after, e)
    ensures var entry := BlockEntry(block, Span(|s.segments[s.head].blockstore|, |enc(block)|));
      && (e.pc.Idle? ==> (s.head, entry) in e.sent)
      && (e.pc.Idle? && e.queue == [] && e.batch == [] ==> (s.head, entry) in e.committed)
  {
    hide Inv, Run;
    InvHead(enc, s);
    var m := Next(enc, s, Begin(WriteBlock(block, sync)));
    var entry := BlockEntry(block, Span(|s.segments[s.head].blockstore|, |enc(block)|));
    StepKeeps(enc, s, Begin(WriteBlock(block, sync)));
    RunKeepsDelivering(enc, m, after, e, s.head, entry);
    RunKeepsInv(enc, m, after, e);
    DeliveredWhenIdle(enc, e, s.head, entry);
  }

  // ---------------------------------------------------------------- Pending transactions

  /** No step of the stretch writes `g` again or executes it. */
  predicate Leaves(steps: seq<Step>, g: Signature) {
    forall i :: 0 <= i < |steps| && steps[i].Begin? ==>
      match steps[i].event
      case WriteTransaction(tx) => tx.Transaction? ==> tx.signature != g
      case WriteExecution(x) => x.Execution? ==> x.executed != g
      case _ => true
  }

  /** A pending transaction stays pending, and holds up rotation, until it is executed. */
  lemma StepKeepsPending(enc: Encoding, s: State, step: Step, g: Signature)
    requires Inv(enc, s) && Enabled(s, step) && g in s.pending && Leaves([step], g)
    ensures var e := Next(enc, s, step);
      e.head == s.head && g in e.pending && e.pending[g] == s.pending[g]
  {
    hide CommittedSound, EntriesLocated, CommitsPublished, FenceSound, RotationSound, CursorsBound, SentSound, Located;
    assert [step][0] == step;
  }

  lemma {:induction false} RunKeepsPending(enc: Encoding, s: State, steps: seq<Step>, e: State, g: Signature)
    requires Inv(enc, s) && g in s.pending && Run(enc, s, steps, e) && Leaves(steps, g)
    ensures e.head == s.head && g in e.pending && e.pending[g] == s.pending[g]
    decreases |steps|
  {
    hide Inv;
    if steps != [] {
      var m :| RunStep(enc, s, steps, m, e);
      var front, last := steps[..|steps| - 1], steps[|steps| - 1];
      assert forall i :: 0 <= i < |front| ==> front[i] == steps[i];
      RunKeepsPending(enc, s, front, m, g);
      RunKeepsInv(enc, s, front, m);
      StepKeepsPending(enc, m, last, g);
    }
  }

  /** A transaction written at any moment of a run, and executed later, is indexed
      with that execution under the superblock both were written in, whatever was
      written, indexed or published in between. */
  lemma TransactionIsIndexed(enc: Encoding, head: nat, before: seq<Step>, s: State, tx: Record, between: seq<Step>,
                             t: State, x: Record, after: seq<Step>, e: State)
    requires Run(enc, Start(head), before, s) && Enabled(s, Begin(WriteTransaction(tx)))
    requires Run(enc, Next(enc, s, Begin(WriteTransaction(tx))), between, t) && Leaves(between, tx.signature)
    requires Enabled(t, Begin(WriteExecution(x))) && x.executed == tx.signature
    requires Run(enc, Next(enc, t, Begin(WriteExecution(x))), after, e)
    ensures s.head in s.segments && s.head in t.segments
    ensures var entry := TxEntry(tx, x, Span(|s.segments[s.head].blockstore|, |enc(tx)|),
                                 Span(|t.segments[s.head].executions|, |enc(x)|));
      && (e.pc.Idle? ==> (s.head, entry) in e.sent)
      && (e.pc.Idle? && e.queue == [] && e.batch == [] ==> (s.head, entry) in e.committed)
  {
    hide Inv, AllMatched, Run, Leaves;
    RunKeeps(enc, head, before, s);
    CommittedIsMatched(enc, head, before, s);
    InvHead(enc, s);
    var m := Next(enc, s, Begin(WriteTransaction(tx)));
    StepKeeps(enc, s, Begin(WriteTransaction(tx)));
    StepKeepsMatched(enc, s, Begin(WriteTransaction(tx)));
    RunKeepsPending(enc, m, between, t, tx.signature);
    RunKeepsInv(enc, m, between, t);
    RunKeepsMatched(enc, m, between, t);
    InvHead(enc, t);
    ExecutionIsIndexed(enc, t, x, after, e);
  }

  // ---------------------------------------------------------------- Events end

  /** Between events the appender takes every well-formed event; a seal also needs
      every transaction executed and a successor that is new. */
  lemma IdleAccepts(enc: Encoding, s: State, event: Event)
    requires Inv(enc, s) && s.pc.Idle?
    ensures Enabled(s, Begin(event)) <==>
            && (event.WriteTransaction? ==> event.tx.Transaction?)
            && (event.WriteExecution? ==> event.execution.Execution?)
            && (event.WriteBlock? ==> event.block.Block?)
            && (event.Seal? ==> s.pending.Keys == {} && event.successor !in s.segments)
  {
    hide CommittedSound, EntriesLocated, CommitsPublished, FenceSound, RotationSound, CursorsBound, SentSound, Located;
    assert s.pending.Keys == {} <==> s.pending == map[];
  }

  /** Steps of the appender left in the event it is handling. */
  function Remaining(pc: Pc): nat {
    match pc
    case Idle => 0
    case SendTx(_) => 1
    case PublishOnly => 1
    case PublishBlock(_, sync) => if sync then 5 else 2
    case SendBlock(_, sync) => if sync then 4 else 1
    case PublishSync(next) => if next.Some? then 6 else 3
    case FenceSync(next) => if next.Some? then 5 else 2
    case AwaitSync(next) => if next.Some? then 4 else 1
    case Rotate(_) => 3
    case FenceRotate(_) => 2
    case AwaitRotate(_) => 1
  }

  /** Each step of the appender may queue one message, which the indexer takes off. */
  function Work(s: State): nat {
    2 * Remaining(s.pc) + |s.queue|
  }

  lemma StepLowersWork(enc: Encoding, s: State, step: Step)
    requires Enabled(s, step) && !step.Begin?
    ensures Work(Next(enc, s, step)) < Work(s)
  {
  }

  /** While an event is being handled, or anything is queued, a step is possible. */
  lemma WorkIsEnabled(enc: Encoding, s: State)
    requires Inv(enc, s) && Work(s) > 0
    ensures Enabled(s, Proceed) || Enabled(s, Index)
  {
    hide CommittedSound, EntriesLocated, CommitsPublished, RotationSound, CursorsBound, SentSound, PcSound;
  }

  lemma {:induction false} EventEnds(enc: Encoding, s: State, steps: seq<Step>, e: State)
    requires Inv(enc, s) && Run(enc, s, steps, e) && forall i :: 0 <= i < |steps| ==> !steps[i].Begin?
    ensures |steps| + Work(e) <= Work(s)
    ensures (e.pc.Idle? && e.queue == []) || Enabled(e, Proceed) || Enabled(e, Index)
    decreases |steps|
  {
    hide Inv, Work, Enabled, Next;
    RunKeepsInv(enc, s, steps, e);
    if steps != [] {
      var m :| RunStep(enc, s, steps, m, e);
      var front := steps[..|steps| - 1];
      assert forall i :: 0 <= i < |front| ==> front[i] == steps[i];
      EventEnds(enc, s, front, m);
      StepLowersWork(enc, m, steps[|steps| - 1]);
    }
    if !(e.pc.Idle? && e.queue == []) {
      UnfinishedWork(e);
      WorkIsEnabled(enc, e);
    }
  }

  lemma UnfinishedWork(s: State)
    requires !s.pc.Idle? || s.queue != []
    ensures Work(s) > 0
  {
  }

  // ---------------------------------------------------------------- Durability points

  /** On the way to a durability point of superblock `id`, to rotate to `next` after it. */
  ghost predicate Syncing(s: State, id: nat, next: Option<nat>) {
    id in s.segments &&
    match s.pc
    case PublishBlock(_, sync) => s.head == id && sync && next.None?
    case SendBlock(_, sync) => s.head == id && sync && next.None?
    case PublishSync(n) => s.head == id && n == next
    case FenceSync(n) => s.head == id && n == next && Clean(s.segments[id])
    case AwaitSync(n) => s.head == id && n == next && Clean(s.segments[id])
    case Rotate(n) => s.head == id && Some(n) == next && Clean(s.segments[id])
    case FenceRotate(n) => Some(n) == next && Opened(s, id, n)
    case AwaitRotate(n) => Some(n) == next && Opened(s, id, n)
    case Idle => Settled(s, id, next)
    case _ => false
  }

  /** The successor is open and empty, its predecessor complete. */
  ghost predicate Opened(s: State, id: nat, next: nat) {
    && s.head == next && next != id && id in s.segments && Clean(s.segments[id])
    && next in s.segments && s.segments[next] == EMPTY
  }

  /** Everything written is published and everything sent is committed. */
  ghost predicate Settled(s: State, id: nat, next: Option<nat>) {
    && s.queue == [] && s.batch == [] && s.sent <= s.committed
    && id in s.segments && Clean(s.segments[id]) && s.keyspace == s.head
    && if next.None? then s.head == id else Opened(s, id, next.value)
  }

  lemma SyncStep(enc: Encoding, s: State, step: Step, id: nat, next: Option<nat>)
    requires Inv(enc, s) && Enabled(s, step) && !step.Begin? && Syncing(s, id, next)
    ensures Syncing(Next(enc, s, step), id, next)
  {
    hide CommittedSound, EntriesLocated, CommitsPublished, CursorsBound, Located;
    if s.queue == [] && s.batch == [] {
      CaughtUp(s);
    }
  }

  lemma CaughtUp(s: State)
    requires SentSound(s) && s.queue == [] && s.batch == []
    ensures s.sent <= s.committed
  {
    forall x | x in s.sent ensures x in s.committed {
      assert x == (x.0, x.1);
    }
  }

  /** On the way to publishing everything written to superblock `id`. */
  ghost predicate Publishing(s: State, id: nat) {
    && id in s.segments
    && ((s.head == id && (s.pc.PublishOnly? || s.pc.PublishBlock? || s.pc.PublishSync?)) || Clean(s.segments[id]))
    && (s.pc.Rotate? ==> s.pc.id != id)
  }

  lemma PublishStep(enc: Encoding, s: State, step: Step, id: nat)
    requires Inv(enc, s) && Enabled(s, step) && !step.Begin? && Publishing(s, id)
    ensures Publishing(Next(enc, s, step), id)
  {
    hide CommittedSound, EntriesLocated, CommitsPublished, CursorsBound, Located, SentSound, FenceSound;
  }

  lemma {:induction false} PublishRun(enc: Encoding, s: State, steps: seq<Step>, e: State, id: nat)
    requires Inv(enc, s) && Run(enc, s, steps, e) && forall i :: 0 <= i < |steps| ==> !steps[i].Begin?
    requires Publishing(s, id)
    ensures Publishing(e, id)
    decreases |steps|
  {
    hide Inv, Publishing, Enabled, Next;
    if steps != [] {
      var m :| RunStep(enc, s, steps, m, e);
      var front := steps[..|steps| - 1];
      assert forall i :: 0 <= i < |front| ==> front[i] == steps[i];
      PublishRun(enc, s, front, m, id);
      RunKeepsInv(enc, s, front, m);
      PublishStep(enc, m, steps[|steps| - 1], id);
    }
  }

  /** Every event but a transaction or an execution ends with everything written to its
      superblock published. */
  lemma EventPublishes(enc: Encoding, s: State, event: Event, steps: seq<Step>, e: State)
    requires Inv(enc, s) && Enabled(s, Begin(event)) && !event.WriteTransaction? && !event.WriteExecution?
    requires Run(enc, Next(enc, s, Begin(event)), steps, e) && forall i :: 0 <= i < |steps| ==> !steps[i].Begin?
    requires e.pc.Idle?
    ensures s.head in e.segments && Clean(e.segments[s.head])
  {
    hide Inv;
    StepKeeps(enc, s, Begin(event));
    PublishRun(enc, Next(enc, s, Begin(event)), steps, e, s.head);
  }

  /** Does the event end at a durability point. */
  predicate Syncs(event: Event) {
    event.Sync? || event.WriteReset? || event.Seal? || (event.WriteBlock? && event.sync)
  }

  lemma {:induction false} SyncRun(enc: Encoding, s: State, steps: seq<Step>, e: State, id: nat, next: Option<nat>)
    requires Inv(enc, s) && Run(enc, s, steps, e) && forall i :: 0 <= i < |steps| ==> !steps[i].Begin?
    requires Syncing(s, id, next)
    ensures Syncing(e, id, next)
    decreases |steps|
  {
    hide Inv, Syncing, Enabled, Next;
    if steps != [] {
      var m :| RunStep(enc, s, steps, m, e);
      var front := steps[..|steps| - 1];
      assert forall i :: 0 <= i < |front| ==> front[i] == steps[i];
      SyncRun(enc, s, front, m, id, next);
      RunKeepsInv(enc, s, front, m);
      SyncStep(enc, m, steps[|steps| - 1], id, next);
    }
  }

  /** When a sync, a reset, a synced block or a seal is done, everything written is
      published and everything handed over is committed; after a seal the empty
      successor is the active superblock, for the indexer too. */
  lemma SyncSettles(enc: Encoding, s: State, event: Event, steps: seq<Step>, e: State)
    requires Inv(enc, s) && Enabled(s, Begin(event)) && Syncs(event)
    requires Run(enc, Next(enc, s, Begin(event)), steps, e) && forall i :: 0 <= i < |steps| ==> !steps[i].Begin?
    requires e.pc.Idle?
    ensures Settled(e, s.head, if event.Seal? then Some(event.successor) else None)
  {
    hide Inv, Settled;
    var next := if event.Seal? then Some(event.successor) else None;
    StepKeeps(enc, s, Begin(event));
    SyncRun(enc, Next(enc, s, Begin(event)), steps, e, s.head, next);
  }
}
