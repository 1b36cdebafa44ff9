/** How many block hashes a follower must be restored with so that it never drops a
    transaction of the leader's. */
module ReplicaCoverage {
  import opened Basics
  import opened LogServer
  import opened Records
  import opened ReplicaEngine
  import opened Replica
  import opened ReplicaProofs
  import A = Admission
  import C = ExpiringCaches
  import R = AdmissionReplay

  // ---------------------------------------------------------------- The leader's admission

  /** Every prefix of the log was the log after some prefix of the events. */
  lemma {:induction false} ReachedAt(s: A.State, events: seq<A.Event>, n: nat) returns (j: nat)
    requires |s.log| <= n <= |A.After(s, events).log|
    ensures j <= |events| && A.After(s, events[..j]).log == A.After(s, events).log[..n]
    decreases |events|
  {
    hide C.Pushed;
    j := |events|;
    assert events[..j] == events;
    if n < |A.After(s, events).log| {
      var front, last := events[..j - 1], events[j - 1];
      j := ReachedAt(s, front, n);
      assert front[..j] == events[..j];
      assert A.After(s, front).log[..n] == A.After(s, events).log[..n];
    }
  }

  lemma {:induction false} BlocksJoin(a: seq<A.Event>, b: seq<A.Event>)
    ensures A.Blocks(a + b) == A.Blocks(a) + A.Blocks(b)
  {
    hide A.Blocks;
    if b == [] {
      NoBlocks();
      assert a + b == a && A.Blocks(a) + [] == A.Blocks(a);
    } else {
      var front, last := b[..|b| - 1], b[|b| - 1];
      BlocksJoin(a, front);
      A.BlocksOne(a + front, last);
      A.BlocksOne(front, last);
      assert a + b == a + front + [last] && b == front + [last];
    }
  }

  lemma NoBlocks()
    ensures A.Blocks([]) == []
  {
  }

  /** Every published block is logged. */
  lemma {:induction false} BlocksLogged(s: A.State, events: seq<A.Event>)
    ensures A.Blocks(R.NewLog(s, events)) == A.Blocks(events)
  {
    hide A.Admits, R.NewLog;
    if events == [] {
      NothingLogged(s);
    } else {
      var front, last := events[..|events| - 1], events[|events| - 1];
      BlocksLogged(s, front);
      assert front + [last] == events;
      R.NewLogOne(s, front, last);
      R.BlocksAdmitted(A.After(s, front), last);
      if A.Admits(A.After(s, front), last) {
        A.BlocksOne(R.NewLog(s, front), last);
      }
      assert R.NewLog(s, front) + [] == R.NewLog(s, front);
    }
  }

  lemma NothingLogged(s: A.State)
    ensures R.NewLog(s, []) == []
  {
  }

  /** Fresh hashes stay fresh part by part. */
  lemma FreshSplits(s: A.State, a: seq<A.Event>, b: seq<A.Event>)
    requires A.FreshBlocks(s, a + b)
    ensures A.FreshBlocks(s, a) && A.FreshBlocks(A.After(s, a), b)
  {
    hide A.After, A.Blocks;
    BlocksJoin(a, b);
    A.AfterChain(s, a);
    var whole := s.chain + A.Blocks(a + b);
    assert whole == s.chain + A.Blocks(a) + A.Blocks(b);
    forall i | 0 <= i < |s.chain + A.Blocks(a)| ensures (s.chain + A.Blocks(a))[i] == whole[i] {
    }
  }

  /** The leader's admission state after `base` records. */
  lemma LeaderBefore(l: Leader, base: nat, j: nat) returns (m: A.State)
    requires l.Sound() && base <= |l.rs| && j <= |l.events|
    requires A.After(l.start, l.events[..j]).log == EventsOf(l.rs[..base])
    ensures m == A.After(l.start, l.events[..j]) && A.BlocksSound(m)
    ensures m.first == l.start.first && m.chain == l.Chain(base)
    ensures m.blocks.ttl == l.start.blocks.ttl && m.signatures.ttl == l.start.signatures.ttl
  {
    hide A.BlocksSound, A.FreshBlocks, ChainSound, A.After, A.Blocks, EventsOf, Lawful;
    var before := l.events[..j];
    m := A.After(l.start, before);
    assert before + l.events[j..] == l.events;
    FreshSplits(l.start, before, l.events[j..]);
    A.AfterKeepsBlocks(l.start, before);
    A.AfterChain(l.start, before);
    BlocksLogged(l.start, before);
    assert R.NewLog(l.start, before) == EventsOf(l.rs[..base]);
  }

  /** That state and the events from there to record `n`. */
  lemma LeaderPart(l: Leader, base: nat, n: nat) returns (m: A.State, events: seq<A.Event>)
    requires l.Sound() && base <= n <= |l.rs|
    ensures A.BlocksSound(m) && m.first == l.start.first && m.chain == l.Chain(base)
    ensures m.blocks.ttl == l.start.blocks.ttl && m.signatures.ttl == l.start.signatures.ttl
    ensures A.FreshBlocks(m, events) && R.NewLog(m, events) == EventsOf(l.rs[base..n])
  {
    hide A.BlocksSound, A.FreshBlocks, ChainSound, A.After, A.Blocks, EventsOf, Lawful;
    var j, i := SplitAt(l, base, n);
    m := LeaderBefore(l, base, j);
    var before, whole := l.events[..j], l.events[..i];
    events := whole[j..];
    assert whole == before + events && whole + l.events[i..] == l.events;
    FreshSplits(l.start, whole, l.events[i..]);
    FreshSplits(l.start, before, events);
    A.AfterJoins(l.start, before, events);
    A.AfterChain(m, events);
    assert l.rs[..n] == l.rs[..base] + l.rs[base..n];
    EventsJoin(l.rs[..base], l.rs[base..n]);
  }

  lemma SplitAt(l: Leader, base: nat, n: nat) returns (j: nat, i: nat)
    requires l.Sound() && base <= n <= |l.rs|
    ensures j <= i <= |l.events|
    ensures A.After(l.start, l.events[..j]).log == EventsOf(l.rs[..base])
    ensures A.After(l.start, l.events[..i]).log == EventsOf(l.rs[..n])
  {
    hide A.BlocksSound, A.FreshBlocks, ChainSound, A.After, EventsOf, Lawful;
    EventsPrefix(l.rs, n);
    EventsPrefix(l.rs[..n], base);
    assert l.rs[..n][..base] == l.rs[..base];
    i := ReachedAt(l.start, l.events, |EventsOf(l.rs[..n])|);
    j := ReachedAt(l.start, l.events[..i], |EventsOf(l.rs[..base])|);
    assert l.events[..i][..j] == l.events[..j];
  }

  lemma EventsPrefix(rs: seq<Record>, n: nat)
    requires n <= |rs|
    ensures EventsOf(rs[..n]) <= EventsOf(rs)
  {
    hide EventsOf;
    EventsJoin(rs[..n], rs[n..]);
    assert rs[..n] + rs[n..] == rs;
  }

  // ---------------------------------------------------------------- Enough history

  /** The restored hashes cover the leader's block window, or its whole chain. */
  predicate Covered(l: Leader, base: nat, hashes: nat)
    requires base <= |l.rs|
  {
    hashes == |l.Chain(base)| || A.Width(l.start.blocks.ttl) <= hashes
  }

  /** A follower with enough history admits everything the leader goes on to write,
      as long as no prefix comes back while the follower still holds it. */
  lemma FollowsLeader(l: Leader, base: nat, id: nat, hashes: nat, n: nat)
    requires l.Sound() && l.Bootable(base, id, hashes) && Covered(l, base, hashes) && base <= n <= |l.rs|
    requires R.CollisionFree(l.Restored(base, hashes), EventsOf(l.rs[base..]))
    ensures R.Follows(l.Restored(base, hashes), EventsOf(l.rs[base..n]))
  {
    hide l.Sound, EventsOf, A.Blocks, A.FreshBlocks, R.Follows, A.BlocksSound, R.NewLog, R.CollisionFree, Tip,
         R.RestoredWith, R.Ready, l.Restored;
    var m, events := LeaderPart(l, base, n);
    RestoredIs(l, base, hashes, m);
    R.RestoredReady(m, hashes);
    R.FollowerAdmitsIff(m, l.Restored(base, hashes), |m.chain| - hashes, events);
    assert l.rs[base..][..n - base] == l.rs[base..n];
    EventsPrefix(l.rs[base..], n - base);
    CollisionFreePrefix(l.Restored(base, hashes), EventsOf(l.rs[base..n]), EventsOf(l.rs[base..]));
  }

  /** The follower's restored state, seen from the leader's own. */
  lemma RestoredIs(l: Leader, base: nat, hashes: nat, m: A.State)
    requires base <= |l.rs| && 0 < hashes <= |l.Chain(base)|
    requires m.first == l.start.first && m.chain == l.Chain(base)
    requires m.blocks.ttl == l.start.blocks.ttl && m.signatures.ttl == l.start.signatures.ttl
    ensures R.RestoredWith(m, hashes) == l.Restored(base, hashes)
  {
    hide R.Restored, A.Blocks, EventsOf;
  }

  lemma CollisionFreePrefix(f0: A.State, a: seq<A.Event>, b: seq<A.Event>)
    requires a <= b && R.CollisionFree(f0, b)
    ensures R.CollisionFree(f0, a)
  {
    hide R.Holds;
    forall k | 0 <= k < |a| ensures !R.Collides(f0, a, k) {
      assert a[..k] == b[..k] && !R.Collides(f0, b, k);
    }
  }

  /** The follower was given enough history, and from its base on the leader's log
      repeats no prefix that the follower still holds. */
  ghost predicate Clean(l: Leader, s: State) {
    && l.Bootable(s.base, s.id, s.hashes) && Covered(l, s.base, s.hashes)
    && R.CollisionFree(l.Restored(s.base, s.hashes), EventsOf(l.rs[s.base..]))
  }

  lemma CleanNeverDropped(l: Leader, s: State)
    requires l.Sound() && Inv(l, s) && Clean(l, s) && !s.strayed
    ensures !Dropped(s.engine)
  {
    hide l.Sound, EventsOf, R.Follows, Tracks, R.CollisionFree, Tip, A.Blocks, l.Restored, Covered, InStep;
    FollowsLeader(l, s.base, s.id, s.hashes, s.base + |s.engine.consumed|);
    DroppedIffBehind(l.Restored(s.base, s.hashes), s.engine);
  }

  lemma StepStaysClean(l: Leader, s: State, step: Step)
    requires l.Sound() && Inv(l, s) && (Clean(l, s) ==> !s.strayed) && Enabled(l, s, step)
    ensures Lawful(l.c) && (Clean(l, Next(l, s, step)) ==> !Next(l, s, step).strayed)
  {
    hide l.Sound, Inv, Clean, Lawful, Dropped, Handshake;
    LeaderDecodes(l);
    if step.Connect? && Clean(l, Next(l, s, step)) {
      CleanKept(l, s, step);
      CleanNeverDropped(l, s);
    } else if !step.Bootstrap? && Clean(l, Next(l, s, step)) {
      CleanKept(l, s, step);
    }
  }

  lemma CleanKept(l: Leader, s: State, step: Step)
    requires Lawful(l.c) && Enabled(l, s, step) && !step.Bootstrap?
    ensures Clean(l, Next(l, s, step)) == Clean(l, s)
  {
    hide l.Bootable, Covered, R.CollisionFree, EventsOf, Handshake;
  }

  lemma {:induction false} RunStaysClean(l: Leader, s: State, steps: seq<Step>, e: State)
    requires l.Sound() && Inv(l, s) && !s.strayed && Run(l, s, steps, e)
    ensures Clean(l, e) ==> !e.strayed
    decreases |steps|
  {
    hide Inv, Enabled, Next, Clean;
    if steps != [] {
      var m :| RunStep(l, s, steps, m, e);
      RunKeeps(l, s, steps[..|steps| - 1], m);
      RunStaysClean(l, s, steps[..|steps| - 1], m);
      StepStaysClean(l, m, steps[|steps| - 1]);
    }
  }

  /** Over every run, through every disconnect: a follower that was given enough
      history has a prefix of the leader's log, dropped nothing and has not stopped. */
  lemma CoveredNeverDiverges(l: Leader, base: nat, id: nat, hashes: nat, steps: seq<Step>, e: State)
    requires l.Sound() && l.Bootable(base, id, hashes) && Run(l, Booted(l, base, id, hashes), steps, e)
    requires Clean(l, e)
    ensures !Dropped(e.engine) && !e.engine.halted && IsPrefix(l, e)
  {
    hide l.Sound, l.Bootable, Run, Inv, Clean, IsPrefix, Dropped;
    BootedInv(l, base, id, hashes);
    RunStaysClean(l, Booted(l, base, id, hashes), steps, e);
    ReachableInv(l, base, id, hashes, steps, e);
    CleanNeverDropped(l, e);
    InvIsPrefix(l, e);
  }

  // ---------------------------------------------------------------- Too little history

  /** The leader's history goes on differently after `base` records. */
  ghost predicate Extends(other: Leader, l: Leader, base: nat) {
    && other.c == l.c && other.digest == l.digest && other.first == l.first && other.start == l.start
    && base <= |other.rs| && base <= |l.rs| && other.rs[..base] == l.rs[..base]
  }

  /** A transaction with an empty payload. */
  function Bare(tx: A.Event): Record
    requires tx.Tx?
  {
    Tx([], 0, tx.prefix, tx.recent)
  }

  /** The leader cut off at `base`, with two more transactions admitted. */
  lemma TwoMore(l: Leader, base: nat, m: A.State, j: nat, a: A.Event, b: A.Event) returns (other: Leader)
    requires l.Sound() && base <= |l.rs| && j <= |l.events|
    requires m == A.After(l.start, l.events[..j]) && m.log == EventsOf(l.rs[..base])
    requires a.Tx? && b.Tx? && A.Admits(m, a) && A.Admits(A.Next(m, a), b)
    ensures other.Sound() && Extends(other, l, base) && other.rs == l.rs[..base] + [Bare(a), Bare(b)]
  {
    hide A.BlocksSound, A.FreshBlocks, A.After, EventsOf, C.Pushed, Lawful, ChainSound;
    var before, cut := l.events[..j], l.rs[..base];
    other := l.(events := before + [a] + [b], rs := cut + [Bare(a)] + [Bare(b)]);
    assert other.rs == cut + [Bare(a), Bare(b)];
    A.AfterOne(l.start, before, a);
    A.AfterOne(l.start, before + [a], b);
    EventsOne(cut, Bare(a));
    EventsOne(cut + [Bare(a)], Bare(b));
    assert before + l.events[j..] == l.events;
    FreshSplits(l.start, before, l.events[j..]);
    A.FreshOne(l.start, before, a);
    A.FreshOne(l.start, before + [a], b);
    ChainKept(l, base, other);
  }

  lemma ChainKept(l: Leader, base: nat, other: Leader)
    requires ChainSound(l.digest, l.Genesis(), l.rs) && base <= |l.rs|
    requires forall i :: 0 <= i < |l.rs| && l.rs[i].Seal? ==> Absorbed(l.rs[..i]) == []
    requires other.digest == l.digest && other.start == l.start && |other.rs| >= base &&
             other.rs[..base] == l.rs[..base]
    requires forall i :: base <= i < |other.rs| ==> other.rs[i].Tx?
    ensures ChainSound(other.digest, other.Genesis(), other.rs)
    ensures forall i :: 0 <= i < |other.rs| && other.rs[i].Seal? ==> Absorbed(other.rs[..i]) == []
  {
    hide LastHash, Absorbed;
    forall i | 0 <= i < base ensures other.rs[i] == l.rs[i] && other.rs[..i] == l.rs[..i] {
      assert other.rs[..base][i] == l.rs[..base][i];
      assert other.rs[..base][..i] == other.rs[..i] && l.rs[..base][..i] == l.rs[..i];
    }
    forall i | 0 <= i < |other.rs| && other.rs[i].Block?
      ensures BlockSound(other.digest, other.Genesis(), other.rs, i)
    {
      assert BlockSound(l.digest, l.Genesis(), l.rs, i);
    }
  }

  /** Two transactions the leader admits, of which the follower drops the first. */
  ghost predicate Splits(m: A.State, f0: A.State, a: A.Event, b: A.Event) {
    && a.Tx? && b.Tx? && a.prefix != b.prefix
    && A.Admits(m, a) && A.Admits(A.Next(m, a), b)
    && !A.Admits(f0, a) && A.Admits(A.Next(f0, a), b)
  }

  lemma SplittingPair(m: A.State, d: nat) returns (a: A.Event, b: A.Event)
    requires A.BlocksSound(m) && 0 < d < |m.chain| && d < A.Width(m.blocks.ttl)
    ensures Splits(m, R.RestoredWith(m, d), a, b)
  {
    hide A.BlocksSound, R.RestoredWith, R.NewLog, R.Follows, A.Admits, A.Next;
    var f0 := R.RestoredWith(m, d);
    R.RestoredShadows(m, d);
    var events := R.MissedHash(m, d);
    a := events[0];
    assert events == [a];
    MissedIsSplit(m, f0, a);
    var used := m.signatures.index.Keys + f0.signatures.index.Keys + {a.prefix};
    var q := R.UnusedPrefix(used);
    b := A.Tx(q, m.chain[|m.chain| - 1]);
    NewestAdmitted(m, a, b);
    NewestAdmitted(f0, a, b);
  }

  lemma MissedIsSplit(m: A.State, f0: A.State, a: A.Event)
    requires R.NewLog(m, [a]) == [a] && !R.Follows(f0, [a]) && f0.log == []
    ensures A.Admits(m, a) && !A.Admits(f0, a)
  {
    hide C.Pushed;
    A.AfterOne(m, [], a);
    A.AfterOne(f0, [], a);
    assert [] + [a] == [a];
  }

  lemma NewestAdmitted(s: A.State, a: A.Event, b: A.Event)
    requires A.BlocksSound(s) && a.Tx? && b.Tx? && b.prefix != a.prefix
    requires b.prefix !in s.signatures.index && b.recent == s.chain[|s.chain| - 1]
    ensures A.Admits(A.Next(s, a), b)
  {
    hide A.Window, C.Consistent;
    A.HistoryIsWindow(s, |s.chain| - 1);
  }

  /** Running one more step. */
  lemma Then(l: Leader, s: State, steps: seq<Step>, m: State, step: Step)
    requires Lawful(l.c) && Run(l, s, steps, m) && Enabled(l, m, step)
    ensures Run(l, s, steps + [step], Next(l, m, step))
  {
    hide Enabled, Next;
    var more := steps + [step];
    assert more[..|more| - 1] == steps;
    assert RunStep(l, s, more, m, Next(l, m, step));
  }

  /** A booted follower on its first connection. */
  function Linked(l: Leader, s: State, received: seq<Byte>, buffer: seq<Byte>, batch: seq<Record>,
                  handoff: seq<Record>, open: bool): State
    requires s.base <= |l.rs|
  {
    s.(link := Up(s.base, l.At(s.base), received, buffer, batch, handoff, open))
  }

  /** The leader wrote exactly two transactions past the follower's base. */
  ghost predicate TwoAhead(l: Leader, s: State, a: Record, b: Record) {
    && Lawful(l.c) && a.Tx? && b.Tx? && a.payload == [] && b.payload == []
    && |l.rs| == s.base + 2 && l.rs[s.base..] == [a, b]
    && l.Bootable(s.base, s.id, s.hashes) && s == Booted(l, s.base, s.id, s.hashes)
  }

  lemma Connects(l: Leader, s: State, a: Record, b: Record)
    requires TwoAhead(l, s, a, b)
    ensures Enabled(l, s, Connect(|l.rs|, {s.id}))
    ensures Next(l, s, Connect(|l.rs|, {s.id})) == Linked(l, s, [], [], [], [], true)
  {
    hide l.Restored, Handshake, Written, Tip, LastHash;
    TipOfNothing(l.c, s.id);
    BoundaryIsServed(l, s.base, |l.rs|, {s.id});
  }

  lemma TipOfNothing(c: Codec, id: nat)
    ensures Tip(c, id, []) == Position(id, 0)
  {
  }

  lemma Receives(l: Leader, s: State, a: Record, b: Record)
    requires TwoAhead(l, s, a, b)
    ensures var bytes, from := l.c.encode(a) + l.c.encode(b), Linked(l, s, [], [], [], [], true);
      && Enabled(l, from, Receive(bytes, l.At(|l.rs|)))
      && Next(l, from, Receive(bytes, l.At(|l.rs|))) == Linked(l, s, bytes, bytes, [], [], true)
  {
    hide l.Bootable, Booted, Between, Connected, Written, Tip, Lawful;
    assert l.rs[..|l.rs|] == l.rs;
    RecordsBetween(l.c, l.first, l.rs, s.base);
    EncodeJoins(l.c, [a], [b]);
    EncodeOne(l.c, a);
    EncodeOne(l.c, b);
    assert [a] + [b] == [a, b];
    var bytes := l.c.encode(a) + l.c.encode(b);
    assert [] + bytes == bytes;
  }

  lemma DecodesOne(l: Leader, s: State, received: seq<Byte>, r: Record, rest: seq<Byte>, batch: seq<Record>)
    requires Lawful(l.c) && s.base <= |l.rs| && r.Tx? && !IsFull(batch + [r])
    ensures var from := Linked(l, s, received, l.c.encode(r) + rest, batch, [], true);
      Enabled(l, from, Decode) && Next(l, from, Decode) == Linked(l, s, received, rest, batch + [r], [], true)
  {
    hide Written, IsFull;
    var buffer := l.c.encode(r) + rest;
    assert l.c.encode(r) <= buffer;
    assert buffer[|l.c.encode(r)|..] == rest;
  }

  lemma SmallBatch(a: Record, b: Record)
    requires a.Tx? && b.Tx? && a.payload == [] && b.payload == []
    ensures !IsFull([] + [a]) && !IsFull([a] + [b])
  {
    assert Size([a]) == 0 by { assert [a][..0] == []; }
    assert Size([a] + [b]) == 0 by { assert ([a] + [b])[..1] == [a]; }
    assert [] + [a] == [a];
  }

  /** Both transactions reach the follower's queue. */
  lemma Delivers(l: Leader, s: State, a: Record, b: Record) returns (steps: seq<Step>, e: State)
    requires TwoAhead(l, s, a, b)
    ensures Run(l, s, steps, e) && e.queued == [a, b] && e.engine == s.engine && !e.strayed
    ensures e.base == s.base && e.id == s.id && e.hashes == s.hashes
  {
    hide Run, Enabled, Next, Linked, l.Bootable, Lawful, IsFull, l.Restored, LastHash;
    var bytes, tail := l.c.encode(a) + l.c.encode(b), l.c.encode(b);
    assert tail + [] == tail;
    RunNothing(l, s);
    Connects(l, s, a, b);
    Then(l, s, [], s, Connect(|l.rs|, {s.id}));
    Receives(l, s, a, b);
    steps := [] + [Connect(|l.rs|, {s.id})];
    Then(l, s, steps, Linked(l, s, [], [], [], [], true), Receive(bytes, l.At(|l.rs|)));
    steps := steps + [Receive(bytes, l.At(|l.rs|))];
    SmallBatch(a, b);
    DecodesOne(l, s, bytes, a, tail, []);
    Then(l, s, steps, Linked(l, s, bytes, bytes, [], [], true), Decode);
    steps := steps + [Decode];
    DecodesOne(l, s, bytes, b, [], [a]);
    assert [] + [a] == [a];
    Then(l, s, steps, Linked(l, s, bytes, tail, [a], [], true), Decode);
    steps := steps + [Decode];
    steps, e := HandsOver(l, s, bytes, a, b, steps);
  }

  lemma RunNothing(l: Leader, s: State)
    requires Lawful(l.c)
    ensures Run(l, s, [], s)
  {
  }

  lemma HandsOver(l: Leader, s: State, received: seq<Byte>, a: Record, b: Record, before: seq<Step>)
    returns (steps: seq<Step>, e: State)
    requires Lawful(l.c) && s.base <= |l.rs| && s.queued == []
    requires Run(l, s, before, Linked(l, s, received, [], [a] + [b], [], true))
    ensures Run(l, s, steps, e) && e.queued == [a, b] && e.engine == s.engine && e.strayed == s.strayed
    ensures e.base == s.base && e.id == s.id && e.hashes == s.hashes
  {
    hide Run, Written, Lawful;
    var m := Linked(l, s, received, [], [a] + [b], [], true);
    Then(l, s, before, m, Lose);
    m := Next(l, m, Lose);
    assert m.link.handoff == [a, b];
    Then(l, s, before + [Lose], m, Consume);
    m := Next(l, m, Consume);
    assert m.link.handoff == [b];
    Then(l, s, before + [Lose] + [Consume], m, Consume);
    steps, e := before + [Lose] + [Consume] + [Consume], Next(l, m, Consume);
  }

  /** Taking two transactions of which admission lets only the second through. */
  lemma TakesSecondOnly(digest: Digest, m: A.State, e: Engine, a: A.Event, b: A.Event)
    requires Splits(m, e.admission, a, b) && e.log == [] && e.consumed == []
    ensures var first := Take(digest, e, Bare(a));
      var both := Take(digest, first, Bare(b));
      first.halted == both.halted == e.halted && both.log == [Bare(b)] && both.consumed == [Bare(a), Bare(b)]
  {
    hide A.Admits, A.Next;
  }

  lemma AppendsBoth(l: Leader, s: State, before: seq<Step>, m: State, a: Record, b: Record)
    returns (steps: seq<Step>, e: State)
    requires Lawful(l.c) && Run(l, s, before, m) && m.queued == [a, b] && !m.engine.halted
    requires var first := Take(l.digest, m.engine, a);
      !first.halted && !Take(l.digest, first, b).halted
    ensures Run(l, s, steps, e) && e == m.(engine := Take(l.digest, Take(l.digest, m.engine, a), b), queued := [])
  {
    hide Run, Lawful, Take;
    Then(l, s, before, m, Append);
    var next := Next(l, m, Append);
    assert next.queued == [b];
    Then(l, s, before + [Append], next, Append);
    steps, e := before + [Append] + [Append], Next(l, next, Append);
    assert e.queued == [];
  }

  /** A follower restored with too few hashes: the leader goes on to write two
      transactions, the follower drops the first and appends the second. Its log is then
      no prefix of the leader's, and it would not resume at the leader's next record. */
  lemma TooFewHashesDrop(l: Leader, base: nat, id: nat, hashes: nat)
    returns (other: Leader, steps: seq<Step>, e: State)
    requires l.Sound() && l.Bootable(base, id, hashes) && !Covered(l, base, hashes)
    ensures other.Sound() && Extends(other, l, base) && other.Bootable(base, id, hashes)
    ensures A.PrefixOnce(EventsOf(other.rs[base..]))
    ensures Run(other, Booted(other, base, id, hashes), steps, e)
    ensures e.base == base && e.id == id && e.hashes == hashes && Diverged(other, e)
  {
    hide l.Sound, l.Restored, Run, A.PrefixOnce, Booted, Diverged, EventsOf, A.BlocksSound, Splits, Written, A.After;
    var j, i := SplitAt(l, base, base);
    var m := LeaderBefore(l, base, j);
    var a, b := SplittingPair(m, hashes);
    SplitTxs(m, R.RestoredWith(m, hashes), a, b);
    other := TwoMore(l, base, m, j, a, b);
    SameStart(l, other, base, id, hashes);
    DistinctPair(base, other.rs, a, b);
    assert R.RestoredWith(m, hashes) == l.Restored(base, hashes) == other.Restored(base, hashes) by {
      RestoredSame(l, other, base, hashes, m);
    }
    steps, e := DivergingRun(other, m, base, id, hashes, a, b);
  }

  lemma SplitTxs(m: A.State, f0: A.State, a: A.Event, b: A.Event)
    requires Splits(m, f0, a, b)
    ensures a.Tx? && b.Tx? && a.prefix != b.prefix && A.Admits(m, a) && A.Admits(A.Next(m, a), b)
  {
  }

  lemma SameStart(l: Leader, other: Leader, base: nat, id: nat, hashes: nat)
    requires Extends(other, l, base) && l.Bootable(base, id, hashes)
    ensures other.Bootable(base, id, hashes)
  {
  }

  lemma RestoredSame(l: Leader, other: Leader, base: nat, hashes: nat, m: A.State)
    requires Extends(other, l, base) && 0 < hashes <= |l.Chain(base)|
    requires m.first == l.start.first && m.chain == l.Chain(base)
    requires m.blocks.ttl == l.start.blocks.ttl && m.signatures.ttl == l.start.signatures.ttl
    ensures R.RestoredWith(m, hashes) == l.Restored(base, hashes) == other.Restored(base, hashes)
  {
    hide R.Restored, A.Blocks, EventsOf;
    RestoredIs(l, base, hashes, m);
    RestoredIs(other, base, hashes, m);
  }

  lemma DistinctPair(base: nat, rs: seq<Record>, a: A.Event, b: A.Event)
    requires a.Tx? && b.Tx? && a.prefix != b.prefix
    requires base + 2 == |rs| && rs[base..] == [Bare(a), Bare(b)]
    ensures A.PrefixOnce(EventsOf(rs[base..]))
  {
    EventsOne([], Bare(a));
    EventsOne([Bare(a)], Bare(b));
    assert [] + [Bare(a)] == [Bare(a)] && [Bare(a)] + [Bare(b)] == [Bare(a), Bare(b)];
    assert EventsOf(rs[base..]) == [a, b];
  }

  /** The log is not what the leader wrote, and neither is the position. */
  ghost predicate Diverged(l: Leader, e: State) {
    && Dropped(e.engine) && !IsPrefix(l, e) && !e.strayed
    && e.base + |e.engine.consumed| == |l.rs| && Cursor(l, e) != l.At(|l.rs|)
  }

  lemma DivergingRun(l: Leader, m: A.State, base: nat, id: nat, hashes: nat, a: A.Event, b: A.Event)
    returns (steps: seq<Step>, e: State)
    requires l.Sound() && l.Bootable(base, id, hashes) && Splits(m, l.Restored(base, hashes), a, b)
    requires a.Tx? && b.Tx? && a.prefix != b.prefix
    requires |l.rs| == base + 2 && l.rs[base..] == [Bare(a), Bare(b)]
    ensures Run(l, Booted(l, base, id, hashes), steps, e)
    ensures e.base == base && e.id == id && e.hashes == hashes && Diverged(l, e)
  {
    hide l.Sound, l.Restored, Run, Diverged, Splits, Written, Lawful, Take, l.Bootable, LastHash;
    var s := Booted(l, base, id, hashes);
    LeaderDecodes(l);
    var before, queued := Delivers(l, s, Bare(a), Bare(b));
    TakesSecondOnly(l.digest, m, s.engine, a, b);
    steps, e := AppendsBoth(l, s, before, queued, Bare(a), Bare(b));
    PairDiverges(l, e, Bare(a), Bare(b));
  }

  lemma PairDiverges(l: Leader, e: State, a: Record, b: Record)
    requires Lawful(l.c) && l.Bootable(e.base, e.id, e.hashes) && !e.strayed && a.Tx? && b.Tx? && a != b
    requires e.engine.log == [b] && e.engine.consumed == [a, b]
    requires |l.rs| == e.base + 2 && l.rs[e.base..] == [a, b]
    ensures Diverged(l, e)
  {
    hide l.Restored, A.Blocks, EventsOf, Sees, Tip, Written;
    assert l.rs[e.base..e.base + 1] == [a];
    assert l.rs[e.base..e.base + 2] == [a] + [b];
    LogShifts(l, e.base, e.id, e.base + 2);
    TipOfPair(l.c, e.id, a, b);
    assert l.c.encode(a) != [];
  }

  lemma TipOfPair(c: Codec, id: nat, a: Record, b: Record)
    requires a.Tx? && b.Tx?
    ensures Tip(c, id, [b]) == Position(id, |c.encode(b)|)
    ensures Tip(c, id, [a] + [b]) == Position(id, |c.encode(a)| + |c.encode(b)|)
  {
    hide Tip;
    TipOfNothing(c, id);
    TipOneMore(c, id, [], a);
    TipOneMore(c, id, [], b);
    TipOneMore(c, id, [a], b);
    assert [] + [a] == [a] && [] + [b] == [b];
  }

  lemma TipOneMore(c: Codec, id: nat, rs: seq<Record>, r: Record)
    requires r.Tx?
    ensures var tip := Tip(c, id, rs); Tip(c, id, rs + [r]) == tip.(offset := tip.offset + |c.encode(r)|)
  {
    assert (rs + [r])[..|rs|] == rs;
  }

  /** However the leader's log goes on with distinct prefixes, a follower bootstrapped
      here drops nothing. */
  ghost predicate NeverDrops(l: Leader, base: nat, id: nat, hashes: nat) {
    forall other: Leader, steps, e ::
      Goes(other, l, base, id, hashes, steps, e) && e.base == base && e.id == id && e.hashes == hashes ==>
        !Dropped(e.engine)
  }

  ghost predicate Goes(other: Leader, l: Leader, base: nat, id: nat, hashes: nat, steps: seq<Step>, e: State) {
    && other.Sound() && Extends(other, l, base) && other.Bootable(base, id, hashes)
    && A.PrefixOnce(EventsOf(other.rs[base..]))
    && Run(other, Booted(other, base, id, hashes), steps, e)
  }

  /** Exactly when a bootstrapped follower never drops a transaction, over every
      continuation of the leader's log and every run: its restored hashes cover the
      block window or the whole chain. */
  lemma NeverDropsIffCovered(l: Leader, base: nat, id: nat, hashes: nat)
    requires l.Sound() && l.Bootable(base, id, hashes)
    ensures NeverDrops(l, base, id, hashes) <==> Covered(l, base, hashes)
  {
    hide l.Sound, Tip, A.Blocks, EventsOf, Covered, Goes, Dropped;
    if Covered(l, base, hashes) {
      forall other: Leader, steps, e | Goes(other, l, base, id, hashes, steps, e) &&
                                       e.base == base && e.id == id && e.hashes == hashes
        ensures !Dropped(e.engine)
      {
        CoveredGoesOn(other, l, base, id, hashes, steps, e);
      }
    } else {
      var other, steps, e := TooFewHashesDrop(l, base, id, hashes);
      DivergedGoes(other, l, base, id, hashes, steps, e);
    }
  }

  lemma DivergedGoes(other: Leader, l: Leader, base: nat, id: nat, hashes: nat, steps: seq<Step>, e: State)
    requires other.Sound() && Extends(other, l, base) && other.Bootable(base, id, hashes)
    requires A.PrefixOnce(EventsOf(other.rs[base..]))
    requires Run(other, Booted(other, base, id, hashes), steps, e) && Diverged(other, e)
    ensures Goes(other, l, base, id, hashes, steps, e) && Dropped(e.engine)
  {
    hide other.Sound, other.Bootable, A.PrefixOnce, Run, IsPrefix;
  }

  lemma CoveredGoesOn(other: Leader, l: Leader, base: nat, id: nat, hashes: nat, steps: seq<Step>, e: State)
    requires Goes(other, l, base, id, hashes, steps, e) && e.base == base && e.id == id && e.hashes == hashes
    requires base <= |l.rs| && Covered(l, base, hashes)
    ensures !Dropped(e.engine)
  {
    hide other.Sound, A.PrefixOnce, Run, IsPrefix, Tip, R.CollisionFree, EventsOf;
    R.DistinctIsCollisionFree(other.Restored(base, hashes), EventsOf(other.rs[base..]));
    CoveredNeverDiverges(other, base, id, hashes, steps, e);
  }
}
