/** Across any sequence of disconnects and reconnects a follower that drops nothing
    keeps a record-for-record prefix of the leader's log. */
module ReplicaProofs {
  import opened Basics
  import opened LogServer
  import opened Records
  import opened ReplicaEngine
  import opened Replica
  import A = Admission

  /** A record decoded from the stream is the leader's next record. */
  lemma DecodesNext(l: Leader, m: nat, buffer: seq<Byte>)
    requires Lawful(l.c) && m <= |l.rs| && buffer <= EncodeAll(l.c, l.rs[m..]) && l.c.decode(buffer).Some?
    ensures m < |l.rs| && l.c.decode(buffer) == Some(l.rs[m]) && l.c.encode(l.rs[m]) <= buffer
  {
    var r, ahead := l.c.decode(buffer).value, EncodeAll(l.c, l.rs[m..]);
    assert l.c.encode(r) <= buffer;
    assert l.c.encode(r) <= ahead;
    assert m < |l.rs|;
    assert l.c.encode(l.rs[m]) <= ahead;
    assert l.c.decode(ahead) == Some(r) && l.c.decode(ahead) == Some(l.rs[m]);
  }

  lemma DropCommon(a: seq<Byte>, x: seq<Byte>, b: seq<Byte>)
    requires a + x <= a + b
    ensures x <= b
  {
    assert (a + b)[..|a + x|][|a|..] == b[..|x|];
    assert (a + x)[|a|..] == x;
  }

  /** What is still undecoded continues the leader's log. */
  lemma BufferContinues(l: Leader, s: State)
    requires InStep(l, s) && s.link.Up? && s.link.open
    ensures s.link.buffer <= EncodeAll(l.c, l.rs[Upto(s)..])
  {
    hide TakenSound;
    TakenInRange(l, s);
    var from, m := s.link.from, Upto(s);
    assert l.rs[from..] == l.rs[from..m] + l.rs[m..];
    EncodeJoins(l.c, l.rs[from..m], l.rs[m..]);
    DropCommon(EncodeAll(l.c, l.rs[from..m]), s.link.buffer, EncodeAll(l.c, l.rs[m..]));
  }

  /** Decoding a record takes it and its bytes off the buffer. */
  lemma DecodeTakes(l: Leader, s: State, r: Record)
    requires s.link.Up? && l.c.decode(s.link.buffer) == Some(r) && l.c.encode(r) <= s.link.buffer
    ensures Taken(s.(link := Decoded(l, s.link))) == Taken(s) + [r]
    ensures var link := Decoded(l, s.link);
      && s.link.buffer == l.c.encode(r) + link.buffer
      && link.Up? && link.from == s.link.from && link.start == s.link.start && link.received == s.link.received
      && link.open == s.link.open
  {
    hide IsFull;
  }

  lemma TakeNext(l: Leader, s: State, e: State)
    requires TakenSound(l, s) && Upto(s) < |l.rs| && e.base == s.base && e.id == s.id
    requires Taken(e) == Taken(s) + [l.rs[Upto(s)]]
    ensures TakenSound(l, e) && Upto(e) == Upto(s) + 1
  {
  }

  lemma DecodeKeeps(l: Leader, s: State)
    requires Lawful(l.c) && InStep(l, s) && Enabled(l, s, Decode)
    ensures InStep(l, Next(l, s, Decode))
  {
    hide Lawful, TakenSound, Taken, LinkSound, EncodeAll, Decoded;
    BufferContinues(l, s);
    TakenInRange(l, s);
    DecodesNext(l, Upto(s), s.link.buffer);
    var r := l.rs[Upto(s)];
    DecodeTakes(l, s, r);
    TakeNext(l, s, Next(l, s, Decode));
    DecodeKeepsLink(l, s, Decoded(l, s.link), r);
  }

  /** The taken record moves from the buffer to what was received before it. */
  lemma DecodeKeepsLink(l: Leader, s: State, link: Link, r: Record)
    requires s.link.Up? && s.link.open && Upto(s) < |l.rs| && r == l.rs[Upto(s)] && LinkSound(l, s)
    requires link.Up? && link.open && link.from == s.link.from && link.start == s.link.start
    requires link.received == s.link.received && s.link.buffer == l.c.encode(r) + link.buffer
    requires Upto(s.(link := link)) == Upto(s) + 1
    ensures LinkSound(l, s.(link := link))
  {
    hide Upto, Written;
    var from, m := s.link.from, Upto(s);
    assert l.rs[from..m + 1] == l.rs[from..m] + [r];
    EncodeJoins(l.c, l.rs[from..m], [r]);
    EncodeOne(l.c, r);
    SplitOff(EncodeAll(l.c, l.rs[from..m]), l.c.encode(r), link.buffer);
  }

  lemma SplitOff(a: seq<Byte>, b: seq<Byte>, c: seq<Byte>)
    ensures a + (b + c) == a + b + c
  {
  }

  lemma TakenInRange(l: Leader, s: State)
    requires TakenSound(l, s)
    ensures Upto(s) <= |l.rs|
  {
  }

  lemma ReceiveKeeps(l: Leader, s: State, bytes: seq<Byte>, through: Position)
    requires Lawful(l.c) && InStep(l, s) && Enabled(l, s, Receive(bytes, through))
    ensures InStep(l, Next(l, s, Receive(bytes, through)))
  {
    hide Lawful, Written;
    var e := Next(l, s, Receive(bytes, through));
    StreamFrom(l, s.link.from, through);
    assert Taken(e) == Taken(s);
  }

  lemma ConnectKeeps(l: Leader, s: State, written: nat, kept: set<nat>)
    requires Lawful(l.c) && InStep(l, s) && Enabled(l, s, Connect(written, kept)) && s.engine.log == s.engine.consumed
    ensures InStep(l, Next(l, s, Connect(written, kept)))
  {
    hide Written, Tip, Handshake;
    var e := Next(l, s, Connect(written, kept));
    assert Taken(e) == Taken(s) == s.engine.log;
    assert l.rs[Upto(s)..Upto(s)] == [];
    LogShifts(l, s.base, s.id, Upto(s));
  }

  /** Handing records on, losing the transport and resuming take nothing and lose
      nothing: the batch is flushed and the order kept. */
  lemma HandoverKeepsTaken(l: Leader, s: State, step: Step)
    requires Lawful(l.c) && Enabled(l, s, step) && (step.Lose? || step.Consume? || step.Append? || step.Resume?)
    requires s.link.Up? && !s.link.open ==> s.link.batch == []
    ensures Taken(Next(l, s, step)) == Taken(s)
  {
    hide Take;
    match step
    case Append => AppendKeepsTaken(l, s);
    case Consume => ConsumeKeepsTaken(s.engine.consumed, s.queued, s.link.handoff, s.link.batch);
    case Lose => assert s.link.handoff + s.link.batch + [] == s.link.handoff + s.link.batch;
    case Resume => assert s.engine.consumed + s.queued + ([] + []) == s.engine.consumed + s.queued + [];
  }

  lemma ConsumeKeepsTaken(consumed: seq<Record>, queued: seq<Record>, handoff: seq<Record>, batch: seq<Record>)
    requires handoff != []
    ensures consumed + (queued + [handoff[0]]) + (handoff[1..] + batch) == consumed + queued + (handoff + batch)
  {
    assert handoff == [handoff[0]] + handoff[1..];
  }

  lemma AppendKeepsTaken(l: Leader, s: State)
    requires s.queued != [] && !s.engine.halted
    ensures Taken(Appended(l, s)) == Taken(s)
  {
    hide Take;
    AppendConsumes(l, s);
    assert s.queued == [s.queued[0]] + s.queued[1..];
    assert s.engine.consumed + [s.queued[0]] + s.queued[1..] == s.engine.consumed + s.queued;
  }

  lemma AppendConsumes(l: Leader, s: State)
    requires s.queued != [] && !s.engine.halted
    ensures var engine := Take(l.digest, s.engine, s.queued[0]);
      engine.consumed == if engine.halted then s.engine.consumed else s.engine.consumed + [s.queued[0]]
  {
  }

  lemma HandoverKeeps(l: Leader, s: State, step: Step)
    requires Lawful(l.c) && InStep(l, s) && Enabled(l, s, step)
    requires step.Lose? || step.Consume? || step.Append? || step.Resume?
    ensures InStep(l, Next(l, s, step))
  {
    hide Lawful, Taken, Written, Take;
    HandoverKeepsTaken(l, s, step);
  }

  /** The first queued record is the leader's next one for the engine. */
  lemma QueuedIsNext(l: Leader, s: State)
    requires TakenSound(l, s) && s.queued != []
    ensures s.base + |s.engine.consumed| < |l.rs| && s.queued[0] == l.rs[s.base + |s.engine.consumed|]
  {
    assert Taken(s)[|s.engine.consumed|] == s.queued[0];
  }

  lemma AppendKeepsEngine(l: Leader, s: State)
    requires l.Sound() && Inv(l, s) && Enabled(l, s, Append)
    ensures var e := Appended(l, s);
      && Tracks(l.Restored(s.base, s.hashes), e.engine)
      && (Dropped(s.engine) ==> Dropped(e.engine))
      && (!s.strayed ==> EngineSound(l, e))
  {
    hide l.Sound, Tracks, InStep, l.Restored, EngineSound, Take, Dropped;
    TakeTracks(l.digest, l.Restored(s.base, s.hashes), s.engine, s.queued[0]);
    TakeKeepsDropped(l.digest, s.engine, s.queued[0]);
    if !s.strayed {
      AppendAgrees(l, s, l.Restored(s.base, s.hashes));
    }
  }

  lemma AppendAgrees(l: Leader, s: State, f0: A.State)
    requires l.Sound() && Tracks(f0, s.engine) && InStep(l, s) && EngineSound(l, s)
    requires s.queued != [] && !s.engine.halted
    ensures EngineSound(l, Appended(l, s))
  {
    hide l.Sound, Tracks, InStep, Agrees, Take, Dropped;
    LeaderChains(l);
    QueuedOf(l, s);
    var n := s.base + |s.engine.consumed|;
    TakeAgrees(l.digest, l.Genesis(), l.rs, s.base, n, f0, s.engine);
    AppendConsumes(l, s);
    HaltedAgrees(l, s.base, n, s.engine);
  }

  lemma QueuedOf(l: Leader, s: State)
    requires InStep(l, s) && s.queued != []
    ensures s.base + |s.engine.consumed| < |l.rs| && s.queued[0] == l.rs[s.base + |s.engine.consumed|]
  {
    QueuedIsNext(l, s);
  }

  lemma LeaderChains(l: Leader)
    requires l.Sound()
    ensures ChainSound(l.digest, l.Genesis(), l.rs)
  {
  }

  lemma HaltedAgrees(l: Leader, base: nat, n: nat, e: Engine)
    requires Agrees(l.Genesis(), l.rs, base, n, e)
    ensures Dropped(e) ==> Agrees(l.Genesis(), l.rs, base, n, e.(halted := true))
  {
  }

  lemma TakeKeepsDropped(digest: Digest, e: Engine, r: Record)
    ensures Dropped(e) ==> Dropped(Take(digest, e, r))
  {
  }

  /** A segment starts at the very first record or right after a seal, with no
      transaction of an unfinished block before it. */
  lemma SegmentStartsClean(l: Leader, base: nat, id: nat)
    requires l.Sound() && base <= |l.rs| && l.At(base) == Position(id, 0)
    ensures Absorbed(l.rs[..base]) == []
  {
    hide A.BlocksSound, A.FreshBlocks, A.After, ChainSound;
    if base > 0 {
      var front, last := l.rs[..base - 1], l.rs[base - 1];
      assert l.rs[..base][..base - 1] == front;
      assert l.c.encode(last) != [];
      assert last.Seal?;
    }
  }

  lemma BootedInv(l: Leader, base: nat, id: nat, hashes: nat)
    requires l.Sound() && l.Bootable(base, id, hashes)
    ensures Inv(l, Booted(l, base, id, hashes))
  {
    hide l.Sound, l.Restored, Tracks, Written;
    SegmentStartsClean(l, base, id);
    FreshTracks(l.Restored(base, hashes), LastHash(l.Genesis(), l.rs[..base]));
    assert l.rs[base..base] == [];
  }

  lemma AppendKeeps(l: Leader, s: State)
    requires l.Sound() && Inv(l, s) && Enabled(l, s, Append)
    ensures Inv(l, Next(l, s, Append))
  {
    hide l.Sound, l.Bootable, l.Restored, Tracks, InStep, EngineSound, Lawful, Dropped, Take;
    LeaderDecodes(l);
    AppendKeepsEngine(l, s);
    if !s.strayed {
      HandoverKeeps(l, s, Append);
    }
  }

  lemma LeaderDecodes(l: Leader)
    requires l.Sound()
    ensures Lawful(l.c)
  {
  }

  /** Steps of the transport leave the engine alone. */
  lemma TransportKeeps(l: Leader, s: State, step: Step)
    requires Lawful(l.c) && Inv(l, s) && Enabled(l, s, step) && !step.Bootstrap? && !step.Append?
    requires var e := Next(l, s, step); !e.strayed ==> InStep(l, e)
    ensures Inv(l, Next(l, s, step))
  {
    hide l.Bootable, l.Restored, Tracks, InStep, Lawful, Agrees, Handshake, Connected;
  }

  lemma StepKeeps(l: Leader, s: State, step: Step)
    requires l.Sound() && Inv(l, s) && Enabled(l, s, step)
    ensures Inv(l, Next(l, s, step))
  {
    hide l.Sound, Inv, InStep, Enabled, Lawful, Dropped;
    LeaderDecodes(l);
    if step.Bootstrap? {
      BootstrapKeeps(l, s, step.base, step.id, step.hashes);
    } else if step.Append? {
      AppendKeeps(l, s);
    } else {
      TransportInStep(l, s, step);
      TransportKeeps(l, s, step);
    }
  }

  lemma BootstrapKeeps(l: Leader, s: State, base: nat, id: nat, hashes: nat)
    requires l.Sound() && Enabled(l, s, Bootstrap(base, id, hashes))
    ensures Inv(l, Next(l, s, Bootstrap(base, id, hashes)))
  {
    hide l.Sound, Inv;
    LeaderDecodes(l);
    BootedInv(l, base, id, hashes);
  }

  lemma LogOrDropped(l: Leader, s: State)
    requires Inv(l, s)
    ensures !Dropped(s.engine) ==> s.engine.log == s.engine.consumed
  {
    hide InStep, EngineSound, l.Restored, A.After, EventsOf;
  }

  lemma TransportInStep(l: Leader, s: State, step: Step)
    requires Lawful(l.c) && Inv(l, s) && Enabled(l, s, step) && !step.Bootstrap? && !step.Append?
    ensures var e := Next(l, s, step); !e.strayed ==> InStep(l, e)
  {
    hide InStep, Lawful, l.Bootable, l.Restored, Agrees, Handshake, Connected;
    if !Next(l, s, step).strayed {
      match step
      case Connect(written, kept) =>
        LogOrDropped(l, s);
        ConnectKeeps(l, s, written, kept);
      case Receive(bytes, through) => ReceiveKeeps(l, s, bytes, through);
      case Decode => DecodeKeeps(l, s);
      case _ => HandoverKeeps(l, s, step);
    }
  }

  lemma {:induction false} RunKeeps(l: Leader, s: State, steps: seq<Step>, e: State)
    requires l.Sound() && Inv(l, s) && Run(l, s, steps, e)
    ensures Inv(l, e)
    decreases |steps|
  {
    hide Inv, Enabled, Next;
    if steps != [] {
      var m :| RunStep(l, s, steps, m, e);
      RunKeeps(l, s, steps[..|steps| - 1], m);
      StepKeeps(l, m, steps[|steps| - 1]);
    }
  }

  lemma ReachableInv(l: Leader, base: nat, id: nat, hashes: nat, steps: seq<Step>, e: State)
    requires l.Sound() && l.Bootable(base, id, hashes) && Run(l, Booted(l, base, id, hashes), steps, e)
    ensures Inv(l, e)
  {
    hide Inv, Run, l.Bootable;
    BootedInv(l, base, id, hashes);
    RunKeeps(l, Booted(l, base, id, hashes), steps, e);
  }

  // ---------------------------------------------------------------- Without a drop

  /** The follower's log is the leader's from its base on: nothing lost, duplicated or
      reordered; its position is a record boundary of the leader; and each of its
      segments is a byte prefix of the leader's segment with the same id, all but the
      current one whole. */
  ghost predicate IsPrefix(l: Leader, e: State) {
    && e.base + |e.engine.log| <= |l.rs| && e.engine.log == l.rs[e.base..e.base + |e.engine.log|]
    && Cursor(l, e) == l.At(e.base + |e.engine.log|)
    && Sees(l.Log(|l.rs|), Written(l.c, e.id, e.engine.log))
  }

  /** Over every run, a follower that has dropped nothing since its bootstrap has a
      prefix of the leader's log and has not stopped. */
  lemma ReplicaIsPrefix(l: Leader, base: nat, id: nat, hashes: nat, steps: seq<Step>, e: State)
    requires l.Sound() && l.Bootable(base, id, hashes) && Run(l, Booted(l, base, id, hashes), steps, e)
    requires !Dropped(e.engine)
    ensures IsPrefix(l, e) && !e.engine.halted
  {
    hide Run, l.Sound, Written, Tip;
    ReachableInv(l, base, id, hashes, steps, e);
    InvIsPrefix(l, e);
  }

  lemma InvIsPrefix(l: Leader, e: State)
    requires Inv(l, e) && !Dropped(e.engine)
    ensures IsPrefix(l, e) && !e.engine.halted
  {
    hide Written, Tip, Sees, Inv;
    UndroppedIsRange(l, e);
    SharedSegments(l, e.base, e.id, e.base + |e.engine.log|);
  }

  lemma UndroppedIsRange(l: Leader, e: State)
    requires Inv(l, e) && !Dropped(e.engine)
    ensures e.base + |e.engine.log| <= |l.rs| && e.engine.log == l.rs[e.base..e.base + |e.engine.log|]
    ensures l.At(e.base) == Position(e.id, 0) && !e.engine.halted
  {
    hide Written, Tip, Tracks, InStep, l.Restored, LastHash, Absorbed, A.Blocks, EventsOf;
    LogOrDropped(l, e);
  }

  lemma SharedSegments(l: Leader, base: nat, id: nat, n: nat)
    requires base <= n <= |l.rs| && l.At(base) == Position(id, 0)
    ensures Tip(l.c, id, l.rs[base..n]) == l.At(n)
    ensures Sees(l.Log(|l.rs|), Written(l.c, id, l.rs[base..n]))
  {
    LogShifts(l, base, id, n);
    SegmentsAreConsecutive(l.c, id, l.rs[base..n]);
    assert l.rs[..|l.rs|] == l.rs;
    PrefixIsSeen(l.c, l.first, l.rs, n);
  }

  /** Whatever the leader has truncated, a reconnecting follower that dropped nothing is
      streamed to from the record right after its own last one if that segment is still
      there, and is given a snapshot otherwise; it is never turned away. */
  lemma ResumeIsServed(l: Leader, base: nat, id: nat, hashes: nat, steps: seq<Step>, e: State,
                       written: nat, kept: set<nat>)
    requires l.Sound() && l.Bootable(base, id, hashes) && Run(l, Booted(l, base, id, hashes), steps, e)
    requires !Dropped(e.engine) && e.base + |e.engine.log| <= written <= |l.rs|
    ensures Served(l, e, written, kept)
  {
    hide Run, l.Sound, Sees, l.Bootable, Written, Served, Inv;
    ReachableInv(l, base, id, hashes, steps, e);
    InvIsServed(l, e, written, kept);
  }

  ghost predicate Served(l: Leader, e: State, written: nat, kept: set<nat>)
    requires e.base + |e.engine.log| <= written <= |l.rs|
  {
    var next := l.At(e.base + |e.engine.log|);
    Handshake(Retained(l.Log(written), kept), l.At(written), Cursor(l, e)) ==
    if next.superblock in kept then Stream(next) else Snapshot
  }

  lemma InvIsServed(l: Leader, e: State, written: nat, kept: set<nat>)
    requires Inv(l, e) && !Dropped(e.engine) && e.base + |e.engine.log| <= written <= |l.rs|
    ensures Served(l, e, written, kept)
  {
    hide Written, Sees, Inv;
    InvIsPrefix(l, e);
    BoundaryIsServed(l, e.base + |e.engine.log|, written, kept);
    PastFirst(l, e);
  }

  lemma PastFirst(l: Leader, e: State)
    requires Inv(l, e)
    ensures 1 < Cursor(l, e).superblock
  {
    hide Written, InStep, EngineSound, Tracks, l.Restored;
    SegmentsAreConsecutive(l.c, e.id, e.engine.log);
  }

  lemma BoundaryIsServed(l: Leader, n: nat, written: nat, kept: set<nat>)
    requires n <= written <= |l.rs|
    ensures Handshake(Retained(l.Log(written), kept), l.At(written), l.At(n)) ==
            if l.At(n).superblock != 1 && l.At(n).superblock in kept then Stream(l.At(n)) else Snapshot
  {
    hide Between;
    var rs := l.rs[..written];
    assert rs[..n] == l.rs[..n];
    RecordsBetween(l.c, l.first, rs, n);
  }

  // ---------------------------------------------------------------- After a drop

  ghost predicate Pending(l: Leader, s: State) {
    !s.strayed ==>
      s.base + |s.engine.consumed| <= |l.rs| && DropPending(l.rs, s.base + |s.engine.consumed|, s.engine)
  }

  /** What the next record does to the engine: a block stops an engine that has
      dropped something, everything else keeps the divergence pending. */
  lemma TakesNext(l: Leader, s: State)
    requires l.Sound() && Injective(l.digest) && Inv(l, s) && Pending(l, s) && !s.strayed
    requires s.queued != [] && !s.engine.halted
    ensures var n, next := s.base + |s.engine.consumed|, Take(l.digest, s.engine, s.queued[0]);
      && n < |l.rs|
      && if s.queued[0].Block? && Dropped(s.engine) then next == s.engine.(halted := true)
         else !next.halted && DropPending(l.rs, n + 1, next)
  {
    hide l.Sound, Tracks, l.Restored, Agrees, DropPending, LinkSound, Take, Dropped, Injective;
    LeaderChains(l);
    QueuedIsNext(l, s);
    TakeStaysPending(l.digest, l.Genesis(), l.rs, s.base, s.base + |s.engine.consumed|,
                     l.Restored(s.base, s.hashes), s.engine);
  }

  lemma AppendPends(l: Leader, s: State)
    requires l.Sound() && Injective(l.digest) && Inv(l, s) && Pending(l, s) && Enabled(l, s, Append)
    ensures Pending(l, Appended(l, s))
  {
    hide l.Sound, Inv, DropPending, Take, Dropped, Injective;
    if !s.strayed {
      TakesNext(l, s);
      AppendConsumes(l, s);
      HaltedPends(l, s.base + |s.engine.consumed|, s.engine);
    }
  }

  lemma HaltedPends(l: Leader, n: nat, e: Engine)
    requires n <= |l.rs| && DropPending(l.rs, n, e)
    ensures DropPending(l.rs, n, e.(halted := true))
  {
  }

  lemma StepPends(l: Leader, s: State, step: Step)
    requires l.Sound() && Injective(l.digest) && Inv(l, s) && Pending(l, s) && Enabled(l, s, step)
    ensures Pending(l, Next(l, s, step))
  {
    hide l.Sound, Inv;
    if step.Append? {
      AppendPends(l, s);
    }
  }

  lemma {:induction false} RunPends(l: Leader, s: State, steps: seq<Step>, e: State)
    requires l.Sound() && Injective(l.digest) && Inv(l, s) && Pending(l, s) && Run(l, s, steps, e)
    ensures Pending(l, e)
    decreases |steps|
  {
    hide Inv, Enabled, Next, Pending;
    if steps != [] {
      var m :| RunStep(l, s, steps, m, e);
      RunKeeps(l, s, steps[..|steps| - 1], m);
      RunPends(l, s, steps[..|steps| - 1], m);
      StepPends(l, m, steps[|steps| - 1]);
    }
  }

  /** Up to its last accepted block the log is the leader's, and no block follows. */
  ghost predicate AgreesUntilBlock(l: Leader, e: State) {
    var checked := e.engine.checked;
    && e.base + checked <= |l.rs| && checked <= |e.engine.log|
    && e.engine.log[..checked] == l.rs[e.base..e.base + checked]
    && (forall i :: checked <= i < |e.engine.log| ==> !e.engine.log[i].Block?)
  }

  /** Taking a block stops the engine. */
  ghost predicate StopsAtBlock(l: Leader, e: State) {
    e.queued != [] && e.queued[0].Block? && !e.engine.halted ==>
      Appended(l, e) == e.(engine := e.engine.(halted := true))
  }

  /** Until it reconnects, a follower that has dropped a transaction accepts no further
      block, and the next one it takes stops it. */
  lemma DropIsTerminal(l: Leader, base: nat, id: nat, hashes: nat, steps: seq<Step>, e: State)
    requires l.Sound() && Injective(l.digest)
    requires l.Bootable(base, id, hashes) && Run(l, Booted(l, base, id, hashes), steps, e)
    requires Dropped(e.engine) && !e.strayed
    ensures AgreesUntilBlock(l, e) && StopsAtBlock(l, e)
  {
    hide Run, l.Sound, Inv, l.Bootable, Booted, Pending, Injective, AgreesUntilBlock, StopsAtBlock;
    BootedInv(l, base, id, hashes);
    BootedPends(l, base, id, hashes);
    RunPends(l, Booted(l, base, id, hashes), steps, e);
    ReachableInv(l, base, id, hashes, steps, e);
    PendingAgrees(l, e);
    PendingStops(l, e);
  }

  lemma PendingAgrees(l: Leader, e: State)
    requires Inv(l, e) && Pending(l, e) && Dropped(e.engine) && !e.strayed
    ensures AgreesUntilBlock(l, e)
  {
    hide Inv, Absorbed;
    ConsumedIsRange(l, e);
    assert e.engine.consumed[..e.engine.checked] == l.rs[e.base..e.base + e.engine.checked];
  }

  lemma PendingStops(l: Leader, e: State)
    requires l.Sound() && Injective(l.digest) && Inv(l, e) && Pending(l, e) && Dropped(e.engine) && !e.strayed
    ensures StopsAtBlock(l, e)
  {
    hide l.Sound, Inv, Pending, Injective, Take, Dropped;
    if e.queued != [] && !e.engine.halted {
      TakesNext(l, e);
    }
  }

  lemma BootedPends(l: Leader, base: nat, id: nat, hashes: nat)
    requires l.Bootable(base, id, hashes)
    ensures Pending(l, Booted(l, base, id, hashes))
  {
    hide l.Restored, Written;
  }

  lemma ConsumedIsRange(l: Leader, e: State)
    requires Inv(l, e) && !e.strayed
    ensures e.base + |e.engine.consumed| <= |l.rs| && e.engine.consumed == l.rs[e.base..e.base + |e.engine.consumed|]
  {
    hide InStep, Tracks, l.Restored, l.Bootable, LastHash, Absorbed;
  }
}
