/** The follower: it decodes the leader's stream, hands batches to its engine, and
    after any disconnect resumes from the end of its own log. */
module Replica {
  import opened Basics
  import opened LogServer
  import opened Records
  import opened ReplicaEngine
  import A = Admission
  import R = AdmissionReplay

  const MAX_BATCH_TRANSACTIONS: nat := 128
  const MAX_BATCH_BYTES: nat := 128 * 1024

  /** Payload bytes of a batch. */
  function Size(batch: seq<Record>): nat {
    if batch == [] then 0
    else Size(batch[..|batch| - 1]) + (if batch[|batch| - 1].Tx? then |batch[|batch| - 1].payload| else 0)
  }

  predicate IsFull(batch: seq<Record>) {
    |batch| >= MAX_BATCH_TRANSACTIONS || Size(batch) >= MAX_BATCH_BYTES
  }

  /** One connection: where it resumed, bytes received so far and not yet decoded,
      transactions batched, and records handed to the client loop. */
  datatype Link =
    | Down
    | Up(from: nat, start: Position, received: seq<Byte>, buffer: seq<Byte>, batch: seq<Record>,
         handoff: seq<Record>, open: bool)

  /** A follower bootstrapped into segment `id`, which starts at leader record `base`,
      with the last `hashes` block hashes; `queued` is on its way into its engine.
      `strayed` once it has resumed from a log that lacks a dropped transaction. */
  datatype State = State(
    base: nat, id: nat, hashes: nat, engine: Engine, queued: seq<Record>, link: Link, strayed: bool)

  datatype Step =
    | Bootstrap(base: nat, id: nat, hashes: nat)
    | Connect(written: nat, kept: set<nat>)
    | Receive(bytes: seq<Byte>, through: Position)
    | Decode
    | Lose
    | Consume
    | Append
    | Resume

  /** The leader's whole history: the events its admission went through from `start`,
      and the records it wrote, in segments numbered from `first`. */
  datatype Leader = Leader(
    c: Codec, digest: Digest, first: nat, start: A.State, events: seq<A.Event>, rs: seq<Record>)
  {
    function Log(n: nat): Log
      requires n <= |rs|
    {
      Written(c, first, rs[..n])
    }

    function At(n: nat): Position
      requires n <= |rs|
    {
      Tip(c, first, rs[..n])
    }

    function Genesis(): Hash {
      if start.chain == [] then 0 else start.chain[|start.chain| - 1]
    }

    /** The block hashes known after `n` records. */
    function Chain(n: nat): seq<Hash>
      requires n <= |rs|
    {
      start.chain + A.Blocks(EventsOf(rs[..n]))
    }

    /** What a follower restored with the last `hashes` block hashes can admit. */
    function Restored(base: nat, hashes: nat): A.State
      requires base <= |rs| && 0 < hashes <= |Chain(base)|
    {
      var k := |Chain(base)| - hashes;
      R.Restored(start.first + k, Chain(base)[k..], start.blocks.ttl, start.signatures.ttl)
    }

    /** The records are what the leader's own admission let through, its blocks chain,
        and a superblock is sealed right after a block. */
    ghost predicate Sound() {
      && Lawful(c) && A.BlocksSound(start) && start.log == []
      && A.FreshBlocks(start, events) && A.After(start, events).log == EventsOf(rs)
      && ChainSound(digest, Genesis(), rs)
      && (forall i :: 0 <= i < |rs| && rs[i].Seal? ==> Absorbed(rs[..i]) == [])
    }

    /** A snapshot exists at the start of every segment but the first. */
    predicate Bootable(base: nat, id: nat, hashes: nat) {
      base <= |rs| && At(base) == Position(id, 0) && 1 < id && 0 < hashes <= |Chain(base)|
    }
  }

  function Booted(l: Leader, base: nat, id: nat, hashes: nat): State
    requires l.Bootable(base, id, hashes)
  {
    var engine := Fresh(l.Restored(base, hashes), LastHash(l.Genesis(), l.rs[..base]));
    State(base, id, hashes, engine, [], Down, false)
  }

  /** The follower's durable position, sent in the handshake. */
  function Cursor(l: Leader, s: State): Position {
    Tip(l.c, s.id, s.engine.log)
  }

  /** A connection is accepted by a leader that has written `written` records and kept
      the segments `kept`. Bytes arrive in order, out of what the server has sent: the
      log from the resume position through some later one. */
  ghost predicate Enabled(l: Leader, s: State, step: Step) {
    match step
    case Bootstrap(base, id, hashes) => l.Bootable(base, id, hashes)
    case Connect(written, kept) =>
      && s.link.Down? && s.queued == [] && written <= |l.rs|
      && Handshake(Retained(l.Log(written), kept), l.At(written), Cursor(l, s)).Stream?
    case Receive(bytes, through) =>
      && s.link.Up? && s.link.open && Connected(l.Log(|l.rs|), s.link.start, through)
      && s.link.received + bytes <= Between(l.Log(|l.rs|), s.link.start, through)
    case Decode => s.link.Up? && s.link.open && l.c.decode(s.link.buffer).Some?
    case Lose => s.link.Up? && s.link.open
    case Consume => s.link.Up? && s.link.handoff != []
    case Append => s.queued != [] && !s.engine.halted
    case Resume => s.link.Up? && !s.link.open && s.link.handoff == [] && s.queued == []
  }

  /** Batching: transactions accumulate until the batch is full; any other record
      flushes them first, and so does losing the transport. */
  function Decoded(l: Leader, link: Link): Link
    requires link.Up? && l.c.decode(link.buffer).Some?
    requires |l.c.encode(l.c.decode(link.buffer).value)| <= |link.buffer|
  {
    var r := l.c.decode(link.buffer).value;
    var rest := link.(buffer := link.buffer[|l.c.encode(r)|..]);
    if r.Tx? && !IsFull(link.batch + [r]) then rest.(batch := link.batch + [r])
    else rest.(batch := [], handoff := link.handoff + link.batch + [r])
  }

  /** The engine takes the next queued record; a block it cannot accept stays queued. */
  function Appended(l: Leader, s: State): State {
    if s.queued == [] then s
    else
      var engine := Take(l.digest, s.engine, s.queued[0]);
      s.(engine := engine, queued := if engine.halted then s.queued else s.queued[1..])
  }

  ghost function Next(l: Leader, s: State, step: Step): State
    requires Lawful(l.c) && Enabled(l, s, step)
  {
    match step
    case Bootstrap(base, id, hashes) => Booted(l, base, id, hashes)
    case Connect(_, _) =>
      s.(link := Up(s.base + |s.engine.consumed|, Cursor(l, s), [], [], [], [], true),
         strayed := s.strayed || Dropped(s.engine))
    case Receive(bytes, _) =>
      s.(link := s.link.(received := s.link.received + bytes, buffer := s.link.buffer + bytes))
    case Decode => s.(link := Decoded(l, s.link))
    case Lose => s.(link := s.link.(open := false, buffer := [], batch := [], handoff := s.link.handoff + s.link.batch))
    case Consume => s.(queued := s.queued + [s.link.handoff[0]], link := s.link.(handoff := s.link.handoff[1..]))
    case Append => Appended(l, s)
    case Resume => s.(link := Down)
  }

  ghost predicate Run(l: Leader, s: State, steps: seq<Step>, e: State)
    requires Lawful(l.c)
    decreases |steps|
  {
    if steps == [] then s == e
    else exists m :: RunStep(l, s, steps, m, e)
  }

  ghost predicate RunStep(l: Leader, s: State, steps: seq<Step>, m: State, e: State)
    requires Lawful(l.c) && steps != []
    decreases |steps|, 0
  {
    var last := steps[|steps| - 1];
    Run(l, s, steps[..|steps| - 1], m) && Enabled(l, m, last) && e == Next(l, m, last)
  }

  // ---------------------------------------------------------------- Invariant

  /** Everything taken from the leader so far, in order. */
  function Taken(s: State): seq<Record> {
    s.engine.consumed + s.queued + (if s.link.Up? then s.link.handoff + s.link.batch else [])
  }

  /** The leader record that comes next. */
  function Upto(s: State): nat {
    s.base + |Taken(s)|
  }

  ghost predicate TakenSound(l: Leader, s: State) {
    && s.base <= |l.rs| && l.At(s.base) == Position(s.id, 0)
    && Upto(s) <= |l.rs| && Taken(s) == l.rs[s.base..Upto(s)]
  }

  /** Received bytes are the encodings of the records taken on this connection,
      then the undecoded rest; all of it is what the leader's log continues with. */
  ghost predicate LinkSound(l: Leader, s: State)
    requires Upto(s) <= |l.rs|
  {
    s.link.Up? ==>
      && s.link.from <= Upto(s) && s.link.start == l.At(s.link.from)
      && s.link.received <= EncodeAll(l.c, l.rs[s.link.from..])
      && (s.link.open ==> s.link.received == EncodeAll(l.c, l.rs[s.link.from..Upto(s)]) + s.link.buffer)
      && (!s.link.open ==> s.link.batch == [])
  }

  /** The transport has delivered the leader's records in order. */
  ghost predicate InStep(l: Leader, s: State) {
    TakenSound(l, s) && LinkSound(l, s)
  }

  /** The engine has consumed them in order, too. */
  ghost predicate EngineSound(l: Leader, s: State) {
    Agrees(l.Genesis(), l.rs, s.base, s.base + |s.engine.consumed|, s.engine)
  }

  ghost predicate Inv(l: Leader, s: State) {
    && l.Bootable(s.base, s.id, s.hashes)
    && Tracks(l.Restored(s.base, s.hashes), s.engine)
    && (s.strayed ==> Dropped(s.engine))
    && (!s.strayed ==> InStep(l, s) && EngineSound(l, s))
  }

  // ---------------------------------------------------------------- Positions

  /** A follower bootstrapped at a segment start has the leader's positions and
      the leader's segments from there on. */
  lemma {:induction false} LogShifts(l: Leader, base: nat, id: nat, n: nat)
    requires base <= n <= |l.rs| && l.At(base) == Position(id, 0)
    ensures Tip(l.c, id, l.rs[base..n]) == l.At(n)
    ensures forall i :: i in Written(l.c, id, l.rs[base..n]).segments ==>
              i in l.Log(n).segments && l.Log(n).segments[i] == Written(l.c, id, l.rs[base..n]).segments[i]
    decreases n
  {
    if base == n {
      assert l.rs[base..n] == [];
    } else {
      LogShifts(l, base, id, n - 1);
      assert l.rs[base..n - 1] + [l.rs[n - 1]] == l.rs[base..n];
      assert l.rs[..n - 1] + [l.rs[n - 1]] == l.rs[..n];
      OneMoreShifts(l.c, l.first, l.rs[..n - 1], id, l.rs[base..n - 1], l.rs[n - 1]);
    }
  }

  /** Writing the same record to two logs that agree keeps them in agreement. */
  lemma OneMoreShifts(c: Codec, first: nat, rs: seq<Record>, id: nat, part: seq<Record>, r: Record)
    requires Tip(c, id, part) == Tip(c, first, rs)
    requires forall i :: i in Written(c, id, part).segments ==>
               i in Written(c, first, rs).segments &&
               Written(c, first, rs).segments[i] == Written(c, id, part).segments[i]
    ensures Tip(c, id, part + [r]) == Tip(c, first, rs + [r])
    ensures forall i :: i in Written(c, id, part + [r]).segments ==>
              i in Written(c, first, rs + [r]).segments &&
              Written(c, first, rs + [r]).segments[i] == Written(c, id, part + [r]).segments[i]
  {
    assert (part + [r])[..|part|] == part && (rs + [r])[..|rs|] == rs;
  }

  /** The stream a server sends from a boundary is the encoding of what follows. */
  lemma StreamFrom(l: Leader, from: nat, through: Position)
    requires from <= |l.rs| && Connected(l.Log(|l.rs|), l.At(from), through)
    ensures Between(l.Log(|l.rs|), l.At(from), through) <= EncodeAll(l.c, l.rs[from..])
  {
    assert l.rs[..|l.rs|] == l.rs;
    var full, tip := l.Log(|l.rs|), l.At(|l.rs|);
    SegmentsAreConsecutive(l.c, l.first, l.rs);
    RecordsBetween(l.c, l.first, l.rs, from);
    BetweenJoins(full, l.At(from), through, tip);
  }
}
