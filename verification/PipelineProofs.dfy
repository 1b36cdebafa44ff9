/** Every committed index entry is backed by published bytes of its superblock,
    and a rotation never discards a batch. */
module PipelineProofs {
  import opened Basics
  import opened Pipeline

  /** Files only grow and cursors only advance. */
  predicate Extends(a: Segment, b: Segment) {
    && a.blockstore <= b.blockstore && a.executions <= b.executions
    && a.blockstoreCursor <= b.blockstoreCursor && a.executionsCursor <= b.executionsCursor
  }

  lemma InFileGrows(file: seq<Byte>, more: seq<Byte>, span: Span, bytes: seq<Byte>)
    requires file <= more && InFile(file, span, bytes)
    ensures InFile(more, span, bytes)
  {
  }

  lemma LocatedGrows(enc: Encoding, a: Segment, b: Segment, e: Entry)
    requires Extends(a, b) && Located(enc, a, e)
    ensures Located(enc, b, e)
  {
  }

  /** Everything already written or published stays so as the head grows. */
  lemma GrowthKeeps(enc: Encoding, s: State, e: State)
    requires s.head in s.segments && CommittedSound(enc, s) && EntriesLocated(enc, s) && CommitsPublished(s)
    requires e.head == s.head && e.segments.Keys == s.segments.Keys && Extends(s.segments[s.head], e.segments[s.head])
    requires forall id :: id in s.segments && id != s.head ==> e.segments[id] == s.segments[id]
    requires e.batch == s.batch && e.queue == s.queue && e.committed == s.committed && e.pending == s.pending
    ensures CommittedSound(enc, e) && EntriesLocated(enc, e) && CommitsPublished(e)
  {
    var a, b := s.segments[s.head], e.segments[s.head];
    forall id, x | (id, x) in e.committed ensures Backed(enc, e, id, x) {
      assert Backed(enc, s, id, x);
      if id == s.head {
        LocatedGrows(enc, a, b, x);
      }
    }
    forall i | 0 <= i < |s.batch| ensures Located(enc, b, s.batch[i]) {
      LocatedGrows(enc, a, b, s.batch[i]);
    }
    forall i | 0 <= i < |s.queue| && !s.queue[i].Fence? ensures Located(enc, b, s.queue[i].entry) {
      LocatedGrows(enc, a, b, s.queue[i].entry);
    }
    forall g | g in s.pending ensures InFile(b.blockstore, s.pending[g].span, enc(s.pending[g].tx)) {
      InFileGrows(a.blockstore, b.blockstore, s.pending[g].span, enc(s.pending[g].tx));
    }
  }

  lemma AppendedInFile(file: seq<Byte>, bytes: seq<Byte>)
    ensures InFile(file + bytes, Span(|file|, |bytes|), bytes)
  {
  }

  /** The record an event puts into the blockstore. */
  function Logged(event: Event): Option<Record> {
    match event
    case WriteTransaction(tx) => Some(tx)
    case WriteBlock(block, _) => Some(block)
    case WriteCheckpoint(record) => Some(record)
    case WriteReset(record) => Some(record)
    case Seal(record, _) => Some(record)
    case _ => None
  }

  /** The execution an event puts into the executions file: only that of a pending
      transaction is kept. */
  function Executed(s: State, event: Event): Option<Record> {
    if event.WriteExecution? && event.execution.Execution? && event.execution.executed in s.pending
    then Some(event.execution) else None
  }

  function Encoded(enc: Encoding, r: Option<Record>): seq<Byte> {
    if r.Some? then enc(r.value) else []
  }

  lemma BegunWrites(enc: Encoding, s: State, event: Event)
    requires s.head in s.segments && Accepts(s, event)
    ensures var e := Begun(enc, s, event);
      && e.head == s.head && e.segments.Keys == s.segments.Keys
      && (forall id :: id in s.segments && id != s.head ==> e.segments[id] == s.segments[id])
      && e.segments[s.head].blockstore == s.segments[s.head].blockstore + Encoded(enc, Logged(event))
      && e.segments[s.head].executions == s.segments[s.head].executions + Encoded(enc, Executed(s, event))
      && e.segments[s.head].blockstoreCursor == s.segments[s.head].blockstoreCursor
      && e.segments[s.head].executionsCursor == s.segments[s.head].executionsCursor
  {
  }

  /** Writing a record only appends to the active segment's files. */
  lemma BegunGrows(enc: Encoding, s: State, event: Event)
    requires s.head in s.segments && CursorsBound(s) && Accepts(s, event)
    ensures var segments := Begun(enc, s, event).segments;
      && segments.Keys == s.segments.Keys && Extends(s.segments[s.head], segments[s.head])
      && (forall id :: id in s.segments && id != s.head ==> segments[id] == s.segments[id])
      && CursorsBound(s.(segments := segments))
  {
    hide Begun, Logged, Executed, Encoded;
    BegunWrites(enc, s, event);
  }

  /** Writing a record leaves everything but the new record's own claims in place. */
  lemma WriteKeeps(enc: Encoding, s: State, event: Event)
    requires Inv(enc, s) && Enabled(s, Begin(event))
    ensures var m := s.(segments := Begun(enc, s, event).segments);
      CursorsBound(m) && CommittedSound(enc, m) && EntriesLocated(enc, m) && CommitsPublished(m)
  {
    hide FenceSound, RotationSound, PcSound, SentSound, CursorsBound, CommittedSound, EntriesLocated, CommitsPublished,
         Extends, Begun;
    BegunGrows(enc, s, event);
    GrowthKeeps(enc, s, s.(segments := Begun(enc, s, event).segments));
  }

  lemma BeginKeeps(enc: Encoding, s: State, event: Event)
    requires Inv(enc, s) && Enabled(s, Begin(event))
    ensures Inv(enc, Next(enc, s, Begin(event)))
  {
    hide CursorsBound, CommittedSound, EntriesLocated, CommitsPublished, FenceSound, RotationSound, PcSound, SentSound,
         Begun;
    WriteKeeps(enc, s, event);
    BegunKeepsRest(enc, s, event);
    var e := Begun(enc, s, event);
    SameCommitted(enc, s.(segments := e.segments), e);
    BeginLocates(enc, s, event);
  }

  /** Writing a record does not touch the queue, the indexer or any fence. */
  lemma BegunKeepsRest(enc: Encoding, s: State, event: Event)
    requires Inv(enc, s) && Enabled(s, Begin(event))
    ensures var e := Begun(enc, s, event);
      && e.head == s.head && e.queue == s.queue && e.batch == s.batch && e.committed == s.committed
      && e.head in e.segments && SentSound(e) && FenceSound(e) && RotationSound(e)
      && (CursorsBound(s.(segments := e.segments)) ==> CursorsBound(e))
  {
    hide CommittedSound, EntriesLocated, CommitsPublished, PcSound;
  }

  lemma SameCommitted(enc: Encoding, m: State, e: State)
    requires m.head in m.segments && e.head == m.head && e.segments == m.segments && e.committed == m.committed
    requires e.queue == m.queue && e.batch == m.batch && CommittedSound(enc, m) && CommitsPublished(m)
    ensures CommittedSound(enc, e) && CommitsPublished(e)
  {
  }

  lemma SameLocated(enc: Encoding, m: State, e: State)
    requires m.head in m.segments && e.head == m.head && e.segments == m.segments && EntriesLocated(enc, m)
    requires e.queue == m.queue && e.batch == m.batch
    requires forall g :: g in e.pending ==>
               InFile(m.segments[m.head].blockstore, e.pending[g].span, enc(e.pending[g].tx))
    ensures EntriesLocated(enc, e)
  {
  }

  /** The new record sits at its span, and so does what the appender holds. */
  lemma BeginLocates(enc: Encoding, s: State, event: Event)
    requires Inv(enc, s) && Enabled(s, Begin(event))
    requires EntriesLocated(enc, s.(segments := Begun(enc, s, event).segments))
    ensures EntriesLocated(enc, Begun(enc, s, event)) && PcSound(enc, Begun(enc, s, event))
  {
    hide CommittedSound, CommitsPublished, SentSound, FenceSound, CursorsBound, RotationSound, InFile;
    var e, segment := Begun(enc, s, event), s.segments[s.head];
    match event {
      case WriteTransaction(tx) => AppendedInFile(segment.blockstore, enc(tx));
      case WriteExecution(execution) => AppendedInFile(segment.executions, enc(execution));
      case WriteBlock(block, _) => AppendedInFile(segment.blockstore, enc(block));
      case _ =>
    }
    SameLocated(enc, s.(segments := e.segments), e);
  }

  /** Once cursors are published, everything written is below them. */
  lemma CleanPublishes(enc: Encoding, segment: Segment, e: Entry)
    requires Located(enc, segment, e) && Clean(segment)
    ensures Below(segment, e)
  {
  }

  /** Publishing only raises the active segment's cursors. */
  lemma PublishedGrows(s: State)
    requires s.head in s.segments && CursorsBound(s)
    ensures var segments := Published(s);
      && segments.Keys == s.segments.Keys && Extends(s.segments[s.head], segments[s.head])
      && (forall id :: id in s.segments && id != s.head ==> segments[id] == s.segments[id])
      && CursorsBound(s.(segments := segments)) && Clean(segments[s.head])
  {
  }

  lemma PublishKeeps(enc: Encoding, s: State)
    requires Inv(enc, s) && (s.pc.PublishOnly? || s.pc.PublishBlock? || s.pc.PublishSync?)
    ensures Inv(enc, Proceeded(s))
  {
    hide CursorsBound, CommittedSound, EntriesLocated, CommitsPublished, FenceSound, RotationSound, PcSound, SentSound,
         Extends, Published, Clean;
    var e := Proceeded(s);
    PublishedGrows(s);
    var m := s.(segments := e.segments);
    GrowthKeeps(enc, s, m);
    SameCommitted(enc, m, e);
    SamePending(enc, m, e);
    PublishKeepsRest(enc, s);
    PublishKeepsPc(enc, s);
  }

  lemma SamePending(enc: Encoding, m: State, e: State)
    requires m.head in m.segments && e.head == m.head && e.segments == m.segments && e.pending == m.pending
    requires e.queue == m.queue && e.batch == m.batch && EntriesLocated(enc, m)
    ensures EntriesLocated(enc, e)
  {
    hide Located, InFile;
  }

  lemma PublishKeepsRest(enc: Encoding, s: State)
    requires Inv(enc, s) && (s.pc.PublishOnly? || s.pc.PublishBlock? || s.pc.PublishSync?)
    ensures var e := Proceeded(s);
      && SentSound(e) && FenceSound(e) && RotationSound(e)
      && (CursorsBound(s.(segments := e.segments)) ==> CursorsBound(e))
  {
    hide CommittedSound, EntriesLocated, CommitsPublished, PcSound, Published;
  }

  lemma PublishKeepsPc(enc: Encoding, s: State)
    requires Inv(enc, s) && (s.pc.PublishOnly? || s.pc.PublishBlock? || s.pc.PublishSync?)
    ensures s.head in Proceeded(s).segments && PcSound(enc, Proceeded(s))
  {
    hide CommittedSound, EntriesLocated, CommitsPublished, SentSound, FenceSound, RotationSound, CursorsBound, Located,
         Published;
    PublishedGrows(s);
    if s.pc.PublishBlock? {
      LocatedGrows(enc, s.segments[s.head], Published(s)[s.head], s.pc.entry);
    }
  }

  /** Sending an entry or a fence behind what is queued. */
  lemma SendKeeps(enc: Encoding, s: State)
    requires Inv(enc, s) && (s.pc.SendTx? || s.pc.SendBlock? || s.pc.FenceSync? || s.pc.FenceRotate?)
    ensures Inv(enc, Proceeded(s))
  {
    hide CursorsBound, CommittedSound, EntriesLocated, CommitsPublished, FenceSound, RotationSound, PcSound, SentSound;
    SendKeepsLocated(enc, s);
    SendKeepsPublished(enc, s);
    SendKeepsSent(enc, s);
    SendKeepsRest(enc, s);
  }

  lemma SendKeepsLocated(enc: Encoding, s: State)
    requires Inv(enc, s) && (s.pc.SendTx? || s.pc.SendBlock? || s.pc.FenceSync? || s.pc.FenceRotate?)
    ensures EntriesLocated(enc, Proceeded(s))
  {
    hide CommittedSound, CommitsPublished, FenceSound, RotationSound, SentSound, CursorsBound, Located, InFile;
  }

  lemma SendKeepsPublished(enc: Encoding, s: State)
    requires Inv(enc, s) && (s.pc.SendTx? || s.pc.SendBlock? || s.pc.FenceSync? || s.pc.FenceRotate?)
    ensures CommitsPublished(Proceeded(s))
  {
    hide CommittedSound, FenceSound, RotationSound, SentSound, CursorsBound, Located, InFile, Below;
    var e, segment := Proceeded(s), s.segments[s.head];
    if s.pc.SendBlock? || s.pc.FenceSync? {
      forall i | 0 <= i < |s.batch| ensures Below(segment, s.batch[i]) {
        CleanPublishes(enc, segment, s.batch[i]);
      }
      forall i | 0 <= i < |e.queue| && !e.queue[i].Fence? ensures Below(segment, e.queue[i].entry) {
        if i < |s.queue| {
          assert e.queue[i] == s.queue[i];
        }
        CleanPublishes(enc, segment, e.queue[i].entry);
      }
    }
  }

  lemma SendKeepsSent(enc: Encoding, s: State)
    requires Inv(enc, s) && (s.pc.SendTx? || s.pc.SendBlock? || s.pc.FenceSync? || s.pc.FenceRotate?)
    ensures SentSound(Proceeded(s))
  {
    hide CommittedSound, EntriesLocated, CommitsPublished, FenceSound, RotationSound, PcSound, CursorsBound;
    var e := Proceeded(s);
    forall id, x | (id, x) in e.sent ensures (id, x) in e.committed || (id == e.head && Travelling(e, x)) {
      if (id, x) in s.sent && (id, x) !in s.committed {
        assert Travelling(s, x);
      }
    }
  }

  lemma SendKeepsRest(enc: Encoding, s: State)
    requires Inv(enc, s) && (s.pc.SendTx? || s.pc.SendBlock? || s.pc.FenceSync? || s.pc.FenceRotate?)
    ensures var e := Proceeded(s);
      CursorsBound(e) && CommittedSound(enc, e) && FenceSound(e) && RotationSound(e) && PcSound(enc, e)
  {
    hide EntriesLocated, CommitsPublished, SentSound, Located, Below;
  }

  lemma WaitKeeps(enc: Encoding, s: State)
    requires Inv(enc, s) && (s.pc.AwaitSync? || s.pc.AwaitRotate?) && s.acked
    ensures Inv(enc, Proceeded(s))
  {
  }

  lemma RotateKeeps(enc: Encoding, s: State)
    requires Inv(enc, s) && s.pc.Rotate?
    ensures Inv(enc, Proceeded(s))
  {
  }

  /** What the indexer commits is published, in the segment its keyspace belongs to. */
  lemma CommitKeeps(enc: Encoding, s: State, entries: seq<Entry>)
    requires s.head in s.segments && CommittedSound(enc, s) && s.keyspace == s.head
    requires forall i :: 0 <= i < |entries| ==>
               Located(enc, s.segments[s.head], entries[i]) && Below(s.segments[s.head], entries[i])
    ensures CommittedSound(enc, s.(committed := Commit(s, entries)))
  {
  }

  /** Taking a message off the queue keeps what is said of the others. */
  lemma TailKeeps(enc: Encoding, s: State, e: State)
    requires Inv(enc, s) && s.queue != []
    requires e.head == s.head && e.segments == s.segments && e.pending == s.pending && e.queue == s.queue[1..]
    requires e.batch == [] || (s.queue[0].TxMessage? && e.batch == s.batch + [s.queue[0].entry])
    ensures EntriesLocated(enc, e) && CommitsPublished(e)
  {
  }

  lemma InTail(s: State, m: Message)
    requires s.queue != [] && m in s.queue && m != s.queue[0]
    ensures m in s.queue[1..]
  {
  }

  lemma InCommit(s: State, entries: seq<Entry>, x: Entry)
    requires x in entries
    ensures (s.keyspace, x) in Commit(s, entries)
  {
  }

  /** What leaves the queue enters the batch, what leaves the batch is committed. */
  lemma IndexKeepsSent(s: State)
    requires s.queue != [] && SentSound(s)
    requires s.queue[0].Fence? ==> s.batch == [] || s.queue[0].next.None?
    requires s.batch != [] || !s.queue[0].Fence? ==> s.keyspace == s.head
    ensures SentSound(Indexed(s))
  {
    var e := Indexed(s);
    forall id, x | (id, x) in e.sent ensures (id, x) in e.committed || (id == e.head && Travelling(e, x)) {
      if (id, x) !in s.committed {
        assert Travelling(s, x);
        if TxMessage(x) in s.queue && s.queue[0] != TxMessage(x) {
          InTail(s, TxMessage(x));
        } else if BlockMessage(x) in s.queue && s.queue[0] != BlockMessage(x) {
          InTail(s, BlockMessage(x));
        } else if s.queue[0].BlockMessage? {
          InCommit(s, s.batch + [s.queue[0].entry], x);
        } else if s.queue[0] == Fence(None) {
          InCommit(s, s.batch, x);
        }
      }
    }
  }

  lemma IndexKeeps(enc: Encoding, s: State)
    requires Inv(enc, s) && s.queue != []
    ensures Inv(enc, Indexed(s))
    ensures s.queue[0].Fence? && s.queue[0].next.Some? ==> s.batch == []
  {
    hide CursorsBound, CommittedSound, EntriesLocated, CommitsPublished, PcSound, SentSound;
    IndexKeepsRest(enc, s);
    TailKeeps(enc, s, Indexed(s));
    IndexKeepsSent(s);
    IndexKeepsCommitted(enc, s);
  }

  lemma IndexKeepsRest(enc: Encoding, s: State)
    requires Inv(enc, s) && s.queue != []
    ensures var e := Indexed(s);
      && e.head == s.head && e.segments == s.segments && e.pending == s.pending
      && CursorsBound(e) && FenceSound(e) && RotationSound(e) && PcSound(enc, e)
    ensures s.queue[0].Fence? ==> s.batch == [] || s.queue[0].next.None?
    ensures s.batch != [] || !s.queue[0].Fence? ==> s.keyspace == s.head
    ensures Commits(s.queue[0]) ==> s.keyspace == s.head
  {
    hide CommittedSound, EntriesLocated, CommitsPublished, SentSound, Located;
  }

  lemma IndexKeepsCommitted(enc: Encoding, s: State)
    requires Inv(enc, s) && s.queue != []
    ensures CommittedSound(enc, Indexed(s))
  {
    hide CursorsBound, SentSound, PcSound, Located, Below, CommittedSound;
    IndexKeepsRest(enc, s);
    match s.queue[0]
    case BlockMessage(entry) =>
      assert Commits(s.queue[0]);
      CommitKeeps(enc, s, s.batch + [entry]);
      CommittedAlone(enc, s.(committed := Commit(s, s.batch + [entry])), Indexed(s));
    case Fence(None) =>
      assert Commits(s.queue[0]);
      CommitKeeps(enc, s, s.batch);
      CommittedAlone(enc, s.(committed := Commit(s, s.batch)), Indexed(s));
    case _ =>
      CommittedAlone(enc, s, Indexed(s));
  }

  lemma CommittedAlone(enc: Encoding, m: State, e: State)
    requires CommittedSound(enc, m) && e.segments == m.segments && e.committed == m.committed
    ensures CommittedSound(enc, e)
  {
    hide Located, Below;
  }

  lemma StepKeeps(enc: Encoding, s: State, step: Step)
    requires Inv(enc, s) && Enabled(s, step)
    ensures Inv(enc, Next(enc, s, step))
  {
    match step
    case Begin(event) => BeginKeeps(enc, s, event);
    case Index => IndexKeeps(enc, s);
    case Proceed =>
      match s.pc
      case PublishOnly => PublishKeeps(enc, s);
      case PublishBlock(_, _) => PublishKeeps(enc, s);
      case PublishSync(_) => PublishKeeps(enc, s);
      case AwaitSync(_) => WaitKeeps(enc, s);
      case AwaitRotate(_) => WaitKeeps(enc, s);
      case Rotate(_) => RotateKeeps(enc, s);
      case _ => SendKeeps(enc, s);
  }

  lemma {:induction false} RunKeeps(enc: Encoding, head: nat, steps: seq<Step>, e: State)
    requires Run(enc, Start(head), steps, e)
    ensures Inv(enc, e)
    decreases |steps|
  {
    if steps != [] {
      var m :| RunStep(enc, Start(head), steps, m, e);
      RunKeeps(enc, head, steps[..|steps| - 1], m);
      StepKeeps(enc, m, steps[|steps| - 1]);
    }
  }

  /** In every interleaving, each committed entry names spans of its own superblock
      that hold its very records and lie below the published cursors. */
  lemma CommittedIsPublished(enc: Encoding, head: nat, steps: seq<Step>, e: State, id: nat, entry: Entry)
    requires Run(enc, Start(head), steps, e) && (id, entry) in e.committed
    ensures Backed(enc, e, id, entry)
    ensures id in e.segments && var segment := e.segments[id];
      match entry
      case TxEntry(tx, execution, b, x) =>
        && b.End() <= segment.blockstoreCursor <= |segment.blockstore|
        && x.End() <= segment.executionsCursor <= |segment.executions|
        && segment.blockstore[b.offset..b.End()] == enc(tx)
        && segment.executions[x.offset..x.End()] == enc(execution)
      case BlockEntry(block, b) =>
        && b.End() <= segment.blockstoreCursor <= |segment.blockstore|
        && segment.blockstore[b.offset..b.End()] == enc(block)
  {
    hide EntriesLocated, CommitsPublished, FenceSound, RotationSound, PcSound, SentSound;
    RunKeeps(enc, head, steps, e);
    assert Backed(enc, e, id, entry);
  }

  /** A rotation never discards a batch: every entry handed over is committed under
      the superblock it was written in, or still on its way there. */
  lemma NothingDiscarded(enc: Encoding, head: nat, steps: seq<Step>, e: State)
    requires Run(enc, Start(head), steps, e)
    ensures e.queue != [] && e.queue[0].Fence? && e.queue[0].next.Some? ==> e.batch == []
    ensures forall id, entry :: (id, entry) in e.sent ==>
              (id, entry) in e.committed || (id == e.head && Travelling(e, entry))
  {
    RunKeeps(enc, head, steps, e);
    if e.queue != [] {
      IndexKeeps(enc, e);
    }
  }
}
