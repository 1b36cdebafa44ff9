/** The ledger appender and the indexer as two services joined by a queue. Every
    send, publication, fence and rotation is its own step, so the indexer may run
    arbitrarily far behind. */
module Pipeline {
  import opened Basics

  /** Records written to the blockstore and executions files. */
  datatype Record =
    | Transaction(signature: Signature, payload: nat)
    | Execution(executed: Signature, details: nat)
    | Block(slot: Slot, hash: nat)
    | Other(content: nat)

  type Encoding = Record -> seq<Byte>

  datatype Span = Span(offset: nat, size: nat) {
    function End(): nat {
      offset + size
    }
  }

  /** An index entry, with the records it stands for. */
  datatype Entry =
    | TxEntry(tx: Record, execution: Record, blockstoreSpan: Span, executionSpan: Span)
    | BlockEntry(block: Record, span: Span)

  datatype Message = TxMessage(entry: Entry) | BlockMessage(entry: Entry) | Fence(next: Option<nat>)

  /** One superblock's data files and its published cursors. */
  datatype Segment = Segment(blockstore: seq<Byte>, executions: seq<Byte>, blockstoreCursor: nat, executionsCursor: nat)

  const EMPTY := Segment([], [], 0, 0)

  /** What the appender does next. A sealing sync carries the successor's id. */
  datatype Pc =
    | Idle
    | SendTx(entry: Entry)
    | PublishOnly
    | PublishBlock(entry: Entry, sync: bool)
    | SendBlock(entry: Entry, sync: bool)
    | PublishSync(next: Option<nat>)
    | FenceSync(next: Option<nat>)
    | AwaitSync(next: Option<nat>)
    | Rotate(id: nat)
    | FenceRotate(id: nat)
    | AwaitRotate(id: nat)

  datatype Pending = Pending(span: Span, tx: Record)

  /** `sent` only records which entries were handed to the indexer. */
  datatype State = State(
    segments: map<nat, Segment>,
    head: nat,
    pending: map<Signature, Pending>,
    pc: Pc,
    queue: seq<Message>,
    acked: bool,
    keyspace: nat,
    batch: seq<Entry>,
    committed: set<(nat, Entry)>,
    sent: set<(nat, Entry)>)

  datatype Event =
    | WriteTransaction(tx: Record)
    | WriteExecution(execution: Record)
    | WriteBlock(block: Record, sync: bool)
    | WriteCheckpoint(record: Record)
    | WriteReset(record: Record)
    | Sync
    | Seal(record: Record, successor: nat)

  datatype Step = Begin(event: Event) | Proceed | Index

  function Start(head: nat): State {
    State(map[head := EMPTY], head, map[], Idle, [], true, head, [], {}, {})
  }

  // ---------------------------------------------------------------- Appender

  /** Execution is drained before a seal, so nothing is pending then, and the
      successor is a new superblock. */
  predicate Accepts(s: State, event: Event) {
    match event
    case WriteTransaction(tx) => tx.Transaction?
    case WriteExecution(execution) => execution.Execution?
    case WriteBlock(block, _) => block.Block?
    case Seal(_, successor) => s.pending == map[] && successor !in s.segments
    case _ => true
  }

  /** The active segment with bytes appended to its blockstore. */
  function Appended(s: State, bytes: seq<Byte>): map<nat, Segment>
    requires s.head in s.segments
  {
    var segment := s.segments[s.head];
    s.segments[s.head := segment.(blockstore := segment.blockstore + bytes)]
  }

  function Begun(enc: Encoding, s: State, event: Event): State
    requires s.head in s.segments
  {
    var segment := s.segments[s.head];
    match event
    case WriteTransaction(tx) =>
      var span := Span(|segment.blockstore|, |enc(tx)|);
      if !tx.Transaction? then s
      else s.(segments := Appended(s, enc(tx)), pending := s.pending[tx.signature := Pending(span, tx)])
    case WriteExecution(execution) =>
      if !execution.Execution? || execution.executed !in s.pending then s
      else
        var sent := s.pending[execution.executed];
        var span := Span(|segment.executions|, |enc(execution)|);
        s.(segments := s.segments[s.head := segment.(executions := segment.executions + enc(execution))],
        pending := s.pending - {execution.executed},
        pc := SendTx(TxEntry(sent.tx, execution, sent.span, span)))
    case WriteBlock(block, sync) =>
      var span := Span(|segment.blockstore|, |enc(block)|);
      s.(segments := Appended(s, enc(block)), pc := PublishBlock(BlockEntry(block, span), sync))
    case WriteCheckpoint(record) => s.(segments := Appended(s, enc(record)), pc := PublishOnly)
    case WriteReset(record) => s.(segments := Appended(s, enc(record)), pc := PublishSync(None))
    case Sync => s.(pc := PublishSync(None))
    case Seal(record, successor) => s.(segments := Appended(s, enc(record)), pc := PublishSync(Some(successor)))
  }

  /** The active segment with its cursors published. */
  function Published(s: State): map<nat, Segment>
    requires s.head in s.segments
  {
    var segment := s.segments[s.head];
    s.segments[s.head := segment.(blockstoreCursor := |segment.blockstore|, executionsCursor := |segment.executions|)]
  }

  function Proceeded(s: State): State
    requires s.head in s.segments
  {
    match s.pc
    case Idle => s
    case SendTx(entry) => s.(queue := s.queue + [TxMessage(entry)], sent := s.sent + {(s.head, entry)}, pc := Idle)
    case PublishOnly => s.(segments := Published(s), pc := Idle)
    case PublishBlock(entry, sync) => s.(segments := Published(s), pc := SendBlock(entry, sync))
    case SendBlock(entry, sync) =>
      s.(queue := s.queue + [BlockMessage(entry)], sent := s.sent + {(s.head, entry)},
         pc := if sync then PublishSync(None) else Idle)
    case PublishSync(next) => s.(segments := Published(s), pc := FenceSync(next))
    case FenceSync(next) => s.(queue := s.queue + [Fence(None)], acked := false, pc := AwaitSync(next))
    case AwaitSync(next) => s.(pc := if next.None? then Idle else Rotate(next.value))
    case Rotate(id) => s.(segments := s.segments[id := EMPTY], head := id, pc := FenceRotate(id))
    case FenceRotate(id) => s.(queue := s.queue + [Fence(Some(id))], acked := false, pc := AwaitRotate(id))
    case AwaitRotate(_) => s.(pc := Idle)
  }

  // ---------------------------------------------------------------- Indexer

  /** Entries committed together under the current keyspace. */
  function Commit(s: State, entries: seq<Entry>): set<(nat, Entry)> {
    s.committed + set i | 0 <= i < |entries| :: (s.keyspace, entries[i])
  }

  function Indexed(s: State): State
    requires s.queue != []
  {
    var rest := s.(queue := s.queue[1..]);
    match s.queue[0]
    case TxMessage(entry) => rest.(batch := s.batch + [entry])
    case BlockMessage(entry) => rest.(committed := Commit(s, s.batch + [entry]), batch := [])
    case Fence(None) => rest.(committed := Commit(s, s.batch), batch := [], acked := true)
    case Fence(Some(id)) => rest.(keyspace := id, batch := [], acked := true)
  }

  // ---------------------------------------------------------------- Runs

  predicate Enabled(s: State, step: Step) {
    s.head in s.segments &&
    match step
    case Begin(event) => s.pc.Idle? && Accepts(s, event)
    case Proceed => !s.pc.Idle? && (s.pc.AwaitSync? || s.pc.AwaitRotate? ==> s.acked)
    case Index => s.queue != []
  }

  function Next(enc: Encoding, s: State, step: Step): State
    requires Enabled(s, step)
  {
    match step
    case Begin(event) => Begun(enc, s, event)
    case Proceed => Proceeded(s)
    case Index => Indexed(s)
  }

  ghost predicate Run(enc: Encoding, s: State, steps: seq<Step>, e: State)
    decreases |steps|
  {
    if steps == [] then s == e
    else exists m :: RunStep(enc, s, steps, m, e)
  }

  ghost predicate RunStep(enc: Encoding, s: State, steps: seq<Step>, m: State, e: State)
    requires steps != []
    decreases |steps|, 0
  {
    var last := steps[|steps| - 1];
    Run(enc, s, steps[..|steps| - 1], m) && Enabled(m, last) && e == Next(enc, m, last)
  }

  // ---------------------------------------------------------------- Invariant

  predicate InFile(file: seq<Byte>, span: Span, bytes: seq<Byte>) {
    span.End() <= |file| && file[span.offset..span.End()] == bytes
  }

  /** The spans of an entry hold exactly the encodings of its records. */
  predicate Located(enc: Encoding, segment: Segment, e: Entry) {
    match e
    case TxEntry(tx, execution, blockstoreSpan, executionSpan) =>
      InFile(segment.blockstore, blockstoreSpan, enc(tx)) && InFile(segment.executions, executionSpan, enc(execution))
    case BlockEntry(block, span) => InFile(segment.blockstore, span, enc(block))
  }

  /** The spans of an entry lie below the published cursors. */
  predicate Below(segment: Segment, e: Entry) {
    match e
    case TxEntry(_, _, blockstoreSpan, executionSpan) =>
      blockstoreSpan.End() <= segment.blockstoreCursor && executionSpan.End() <= segment.executionsCursor
    case BlockEntry(_, span) => span.End() <= segment.blockstoreCursor
  }

  predicate Clean(segment: Segment) {
    segment.blockstoreCursor == |segment.blockstore| && segment.executionsCursor == |segment.executions|
  }

  /** A committed entry is backed by published bytes of its own superblock. */
  ghost predicate Backed(enc: Encoding, s: State, id: nat, e: Entry) {
    id in s.segments && Located(enc, s.segments[id], e) && Below(s.segments[id], e)
  }

  ghost predicate CommittedSound(enc: Encoding, s: State) {
    forall id, e :: (id, e) in s.committed ==> Backed(enc, s, id, e)
  }

  /** A message that makes the indexer commit. */
  predicate Commits(m: Message) {
    m.BlockMessage? || m == Fence(None)
  }

  /** Entries in the batch or the queue are written in the active segment. */
  ghost predicate EntriesLocated(enc: Encoding, s: State)
    requires s.head in s.segments
  {
    && (forall i :: 0 <= i < |s.batch| ==> Located(enc, s.segments[s.head], s.batch[i]))
    && (forall i :: 0 <= i < |s.queue| && !s.queue[i].Fence? ==> Located(enc, s.segments[s.head], s.queue[i].entry))
    && (forall g :: g in s.pending ==> InFile(s.segments[s.head].blockstore, s.pending[g].span, enc(s.pending[g].tx)))
  }

  /** Whatever precedes a queued commit is already published. */
  ghost predicate CommitsPublished(s: State)
    requires s.head in s.segments
  {
    forall j :: 0 <= j < |s.queue| && Commits(s.queue[j]) ==>
      && (forall i :: 0 <= i < |s.batch| ==> Below(s.segments[s.head], s.batch[i]))
      && (forall i :: 0 <= i <= j && !s.queue[i].Fence? ==> Below(s.segments[s.head], s.queue[i].entry))
  }

  /** At most one fence is queued, last, and only while the appender waits for it. */
  ghost predicate FenceSound(s: State) {
    && (forall i :: 0 <= i < |s.queue| && s.queue[i].Fence? ==>
          && i == |s.queue| - 1 && !s.acked
          && (if s.pc.AwaitRotate? then s.queue[i] == Fence(Some(s.head))
              else s.pc.AwaitSync? && s.queue[i] == Fence(None)))
    && ((s.pc.AwaitSync? || s.pc.AwaitRotate?) && !s.acked ==> s.queue != [] && s.queue[|s.queue| - 1].Fence?)
    && ((s.pc.AwaitSync? || s.pc.AwaitRotate?) && s.acked ==> s.queue == [])
  }

  /** Between opening a successor and its fence, the pipeline is empty. */
  ghost predicate RotationSound(s: State) {
    && (s.pc.Rotate? || s.pc.FenceRotate? ==> s.queue == [])
    && (s.pc.AwaitRotate? ==> |s.queue| <= 1)
    && (s.pc.Rotate? || s.pc.FenceRotate? || s.pc.AwaitRotate? || (s.pc.AwaitSync? && s.acked) ==> s.batch == [])
    && (if s.pc.FenceRotate? || (s.pc.AwaitRotate? && !s.acked) then s.pc.id == s.head else s.keyspace == s.head)
  }

  /** The appender's own state at each point of an event. */
  ghost predicate PcSound(enc: Encoding, s: State)
    requires s.head in s.segments
  {
    var segment := s.segments[s.head];
    && (s.pc.SendTx? || s.pc.PublishBlock? || s.pc.SendBlock? ==> Located(enc, segment, s.pc.entry))
    && (s.pc.SendBlock? || s.pc.FenceSync? ==> Clean(segment))
    && ((s.pc.PublishSync? || s.pc.FenceSync? || s.pc.AwaitSync?) && s.pc.next.Some? ==>
          s.pending == map[] && s.pc.next.value !in s.segments)
    && (s.pc.Rotate? ==> s.pending == map[] && s.pc.id !in s.segments)
    && (s.pc.FenceRotate? || s.pc.AwaitRotate? ==> s.pending == map[])
  }

  ghost predicate CursorsBound(s: State) {
    forall id :: id in s.segments ==>
      && s.segments[id].blockstoreCursor <= |s.segments[id].blockstore|
      && s.segments[id].executionsCursor <= |s.segments[id].executions|
  }

  /** An entry on its way to the index. */
  ghost predicate Travelling(s: State, e: Entry) {
    e in s.batch || TxMessage(e) in s.queue || BlockMessage(e) in s.queue
  }

  /** No entry handed over is ever dropped. */
  ghost predicate SentSound(s: State) {
    forall id, e :: (id, e) in s.sent ==> (id, e) in s.committed || (id == s.head && Travelling(s, e))
  }

  ghost predicate Inv(enc: Encoding, s: State) {
    && s.head in s.segments && CursorsBound(s) && SentSound(s)
    && CommittedSound(enc, s) && EntriesLocated(enc, s) && CommitsPublished(s)
    && FenceSound(s) && RotationSound(s) && PcSound(enc, s)
  }
}
