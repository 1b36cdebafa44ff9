/** The follower gets somewhere: what it has received whole it decodes, what it has
    decoded reaches its engine, and a lost connection is given up for a new one. */
module ReplicaProgress {
  import opened Basics
  import opened LogServer
  import opened Records
  import opened ReplicaEngine
  import opened Replica
  import opened ReplicaProofs

  /** Steps a follower takes by itself with what it already has. */
  predicate IsOwn(step: Step) {
    step.Decode? || step.Consume? || step.Append?
  }

  /** Every byte to decode, and every record on its way to the engine, weighted by
      how far it still has to go. */
  function Work(s: State): nat {
    |s.queued| + if s.link.Up? then 4 * |s.link.buffer| + 3 * |s.link.batch| + 2 * |s.link.handoff| else 0
  }

  lemma DecodeLowersWork(l: Leader, s: State)
    requires Lawful(l.c) && Enabled(l, s, Decode)
    ensures Work(Next(l, s, Decode)) < Work(s)
  {
    hide IsFull;
    var r := l.c.decode(s.link.buffer).value;
    assert l.c.encode(r) != [] && l.c.encode(r) <= s.link.buffer;
  }

  lemma OwnLowersWork(l: Leader, s: State, step: Step)
    requires Lawful(l.c) && Enabled(l, s, step) && IsOwn(step)
    ensures var e := Next(l, s, step);
      Work(e) < Work(s) || (e.engine.halted && !s.engine.halted && Work(e) == Work(s))
  {
    hide Lawful, Take, Decoded;
    if step.Decode? {
      DecodeLowersWork(l, s);
    }
  }

  lemma StaysHalted(l: Leader, s: State, step: Step)
    requires Lawful(l.c) && Enabled(l, s, step) && IsOwn(step)
    ensures s.engine.halted ==> Next(l, s, step).engine.halted
  {
  }

  /** Its own steps come to an end, whatever their order. */
  lemma {:induction false} OwnStepsEnd(l: Leader, s: State, steps: seq<Step>, e: State)
    requires Lawful(l.c) && Run(l, s, steps, e) && forall i :: 0 <= i < |steps| ==> IsOwn(steps[i])
    ensures |steps| + Work(e) <= Work(s) + (if e.engine.halted && !s.engine.halted then 1 else 0)
    ensures s.engine.halted ==> e.engine.halted
    decreases |steps|
  {
    hide Lawful, Work, Enabled, Next;
    if steps != [] {
      var m :| RunStep(l, s, steps, m, e);
      var front, last := steps[..|steps| - 1], steps[|steps| - 1];
      assert forall i :: 0 <= i < |front| ==> front[i] == steps[i];
      OwnStepsEnd(l, s, front, m);
      OwnLowersWork(l, m, last);
      StaysHalted(l, m, last);
    }
  }

  /** No step of its own is left. */
  ghost predicate Quiescent(l: Leader, s: State) {
    !Enabled(l, s, Decode) && !Enabled(l, s, Consume) && !Enabled(l, s, Append)
  }

  /** Whole records in the buffer can be decoded. */
  lemma WholeRecordDecodes(l: Leader, s: State, n: nat)
    requires Lawful(l.c) && InStep(l, s) && s.link.Up? && s.link.open && s.link.from <= n <= |l.rs|
    requires EncodeAll(l.c, l.rs[s.link.from..n]) <= s.link.received && Upto(s) < n
    ensures Enabled(l, s, Decode)
  {
    hide TakenSound, Upto, EncodeAll, Lawful, Tip;
    var from, m := s.link.from, Upto(s);
    TakenInRange(l, s);
    assert l.rs[from..n] == l.rs[from..m] + l.rs[m..n];
    EncodeJoins(l.c, l.rs[from..m], l.rs[m..n]);
    DropCommon(EncodeAll(l.c, l.rs[from..m]), EncodeAll(l.c, l.rs[m..n]), s.link.buffer);
    FirstDecodes(l.c, l.rs[m..n], s.link.buffer);
  }

  lemma FirstDecodes(c: Codec, rs: seq<Record>, bytes: seq<Byte>)
    requires Lawful(c) && rs != [] && EncodeAll(c, rs) <= bytes
    ensures c.decode(bytes).Some?
  {
    assert c.encode(rs[0]) <= EncodeAll(c, rs);
    assert c.encode(rs[0]) <= bytes;
  }

  /** A follower that can take no more steps of its own, and whose engine has not
      stopped, has taken in every record it received whole; all but the current
      batch have gone through its engine, and have been kept unless dropped. */
  lemma QuiescentHasAll(l: Leader, s: State, n: nat)
    requires l.Sound() && Inv(l, s) && !s.strayed && Quiescent(l, s) && !s.engine.halted
    requires s.link.Up? && s.link.from <= n <= |l.rs|
    requires s.link.open ==> EncodeAll(l.c, l.rs[s.link.from..n]) <= s.link.received
    ensures s.link.open ==> n <= Upto(s)
    ensures Upto(s) <= |l.rs| && s.engine.consumed + s.link.batch == l.rs[s.base..Upto(s)]
    ensures !Dropped(s.engine) ==> s.engine.log == s.engine.consumed
  {
    hide l.Sound, Inv, InStep, EncodeAll, Lawful;
    LeaderDecodes(l);
    LogOrDropped(l, s);
    StaysInStep(l, s);
    assert s.queued == [] && s.link.handoff == [];
    assert Taken(s) == s.engine.consumed + s.link.batch;
    if s.link.open && Upto(s) < n {
      WholeRecordDecodes(l, s, n);
    }
  }

  lemma StaysInStep(l: Leader, s: State)
    requires Inv(l, s) && !s.strayed
    ensures InStep(l, s) && Upto(s) <= |l.rs| && Taken(s) == l.rs[s.base..Upto(s)]
  {
    hide Tracks, EngineSound, l.Bootable, l.Restored, LinkSound;
  }

  /** A batch in the making holds only transactions, fewer than 128 and less than
      128 KiB of them: any other record, or a full batch, is handed over at once. */
  predicate BatchOpen(s: State) {
    s.link.Up? ==>
      && (forall i :: 0 <= i < |s.link.batch| ==> s.link.batch[i].Tx?)
      && |s.link.batch| < 128 && Size(s.link.batch) < 131072
  }

  lemma StepKeepsBatch(l: Leader, s: State, step: Step)
    requires Lawful(l.c) && Enabled(l, s, step) && BatchOpen(s)
    ensures BatchOpen(Next(l, s, step))
  {
    hide Take, Handshake, Fresh, l.Bootable, l.Restored, Cursor;
  }

  lemma {:induction false} RunKeepsBatch(l: Leader, s: State, steps: seq<Step>, e: State)
    requires Lawful(l.c) && Run(l, s, steps, e) && BatchOpen(s)
    ensures BatchOpen(e)
    decreases |steps|
  {
    hide BatchOpen, Enabled, Next, Lawful;
    if steps != [] {
      var m :| RunStep(l, s, steps, m, e);
      RunKeepsBatch(l, s, steps[..|steps| - 1], m);
      StepKeepsBatch(l, m, steps[|steps| - 1]);
    }
  }

  /** A closed connection that is worked off leaves nothing between it and the engine. */
  lemma ClosedIsEmpty(l: Leader, s: State)
    requires Inv(l, s) && !s.strayed && s.link.Up? && !s.link.open && s.queued == [] && s.link.handoff == []
    ensures s.base + |s.engine.consumed| <= |l.rs| && s.link.batch == []
    ensures s.engine.consumed == l.rs[s.base..s.base + |s.engine.consumed|]
  {
    hide Tracks, EngineSound, l.Bootable, l.Restored, EncodeAll, Tip;
    assert Taken(s) == s.engine.consumed;
  }

  /** Once a lost connection is worked off, everything it brought has gone through the
      engine, and the follower gives it up: it may then connect again wherever the
      leader still serves the end of its log. */
  lemma LostLinkIsGivenUp(l: Leader, s: State)
    requires l.Sound() && Inv(l, s) && !s.strayed && Quiescent(l, s) && !s.engine.halted
    requires s.link.Up? && !s.link.open
    ensures Lawful(l.c) && Enabled(l, s, Resume)
    ensures s.base + |s.engine.consumed| <= |l.rs|
    ensures s.engine.consumed == l.rs[s.base..s.base + |s.engine.consumed|]
    ensures var e := Next(l, s, Resume); e.engine == s.engine && e.base == s.base && e.id == s.id && Disconnected(l, e)
  {
    hide Inv, Disconnected, l.Sound;
    LeaderDecodes(l);
    ClosedIsEmpty(l, s);
    DownIsDisconnected(l, Next(l, s, Resume));
  }

  /** Free to connect, wherever the leader still serves the end of the log. */
  ghost predicate Disconnected(l: Leader, s: State) {
    forall written: nat, kept :: Enabled(l, s, Connect(written, kept)) <==>
      written <= |l.rs| && Handshake(Retained(l.Log(written), kept), l.At(written), Cursor(l, s)).Stream?
  }

  lemma DownIsDisconnected(l: Leader, s: State)
    requires s.link.Down? && s.queued == []
    ensures Disconnected(l, s)
  {
    hide Handshake, Retained, Cursor, Written, Tip;
  }

  /** A new connection starts at the end of the follower's log with nothing pending. */
  lemma ReconnectStartsClean(l: Leader, s: State, written: nat, kept: set<nat>)
    requires l.Sound() && Inv(l, s) && Lawful(l.c) && Enabled(l, s, Connect(written, kept)) && !Dropped(s.engine)
    ensures var e := Next(l, s, Connect(written, kept));
      && e.engine == s.engine && e.link.Up? && e.link.open && e.link.start == Cursor(l, s)
      && e.link.from == s.base + |s.engine.log| && Work(e) == 0
  {
    hide l.Bootable, l.Restored, InStep, EngineSound, Handshake, Retained, EncodeAll, l.Sound;
    LogOrDropped(l, s);
  }

  lemma BootedBatch(l: Leader, base: nat, id: nat, hashes: nat)
    requires l.Bootable(base, id, hashes)
    ensures BatchOpen(Booted(l, base, id, hashes))
  {
    hide l.Bootable;
  }

  /** From any state a run reaches, a follower's own steps are bounded in number, and
      when it can take no more it has taken in every record it received whole, unless
      its engine has stopped. */
  lemma FollowerCatchesUp(l: Leader, base: nat, id: nat, hashes: nat, before: seq<Step>, s: State, own: seq<Step>,
                          e: State, n: nat)
    requires l.Sound() && l.Bootable(base, id, hashes) && Run(l, Booted(l, base, id, hashes), before, s)
    requires Run(l, s, own, e) && forall i :: 0 <= i < |own| ==> IsOwn(own[i])
    ensures |own| <= Work(s) + 1
    ensures && !e.strayed && e.link.Up? && e.link.open && e.link.from <= n <= |l.rs|
            && EncodeAll(l.c, l.rs[e.link.from..n]) <= e.link.received ==>
              || e.engine.halted || !Quiescent(l, e)
              || (n <= Upto(e) <= |l.rs| && e.engine.consumed + e.link.batch == l.rs[e.base..Upto(e)])
    ensures BatchOpen(e)
  {
    hide Inv, Run, l.Sound, l.Bootable, Booted, Work, Quiescent, EncodeAll, BatchOpen;
    LeaderDecodes(l);
    BootedBatch(l, base, id, hashes);
    RunKeepsBatch(l, Booted(l, base, id, hashes), before, s);
    RunKeepsBatch(l, s, own, e);
    ReachableInv(l, base, id, hashes, before, s);
    RunKeeps(l, s, own, e);
    OwnStepsEnd(l, s, own, e);
    if && !e.strayed && e.link.Up? && e.link.open && e.link.from <= n <= |l.rs|
       && EncodeAll(l.c, l.rs[e.link.from..n]) <= e.link.received && !e.engine.halted && Quiescent(l, e)
    {
      QuiescentHasAll(l, e, n);
    }
  }
}
