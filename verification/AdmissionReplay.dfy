/** Feeding an admitted log to a second admission state: a replica restored with
    part of the leader's block history and no signatures. */
module AdmissionReplay {
  import opened Basics
  import opened ExpiringCaches
  import opened Admission

  // ---------------------------------------------------------------- Restoring the caches

  function Published(hashes: seq<Hash>): seq<Event> {
    seq(|hashes|, i requires 0 <= i < |hashes| => Block(hashes[i]))
  }

  /** The caches restored from consecutive block hashes, the oldest first. */
  function Restored(first: Slot, hashes: seq<Hash>, blockTtl: Slot, signatureTtl: Slot): State
    requires hashes != []
  {
    After(Start(first, hashes[0], blockTtl, signatureTtl), Published(hashes[1..])).(log := [])
  }

  lemma {:induction false} PublishedBlocks(hashes: seq<Hash>)
    ensures Blocks(Published(hashes)) == hashes
  {
    if hashes != [] {
      PublishedBlocks(hashes[..|hashes| - 1]);
      assert Published(hashes) == Published(hashes[..|hashes| - 1]) + [Block(hashes[|hashes| - 1])];
      BlocksOne(Published(hashes[..|hashes| - 1]), Block(hashes[|hashes| - 1]));
    }
  }

  lemma {:induction false} BlocksKeepSignatures(s: State, events: seq<Event>)
    requires forall e :: e in events ==> e.Block?
    ensures After(s, events).signatures == s.signatures
  {
    hide Pushed;
    if events != [] {
      BlocksKeepSignatures(s, events[..|events| - 1]);
      assert events[|events| - 1] in events;
    }
  }

  /** A restored state knows the given chain and no signature. */
  lemma RestoredSound(first: Slot, hashes: seq<Hash>, blockTtl: Slot, signatureTtl: Slot)
    requires hashes != [] && Distinct(hashes)
    ensures var r := Restored(first, hashes, blockTtl, signatureTtl);
      && BlocksSound(r) && r.first == first && r.chain == hashes && r.log == [] && r.blocks.ttl == blockTtl
      && r.signatures == Cache(map[], [], signatureTtl)
  {
    hide After, Next, Window, Consistent, Blocks;
    var s, events := Start(first, hashes[0], blockTtl, signatureTtl), Published(hashes[1..]);
    PublishedBlocks(hashes[1..]);
    assert s.chain + hashes[1..] == hashes;
    StartBlocks(first, hashes[0], blockTtl, signatureTtl);
    AfterChain(s, events);
    AfterKeepsBlocks(s, events);
    BlocksKeepSignatures(s, events);
  }

  // ---------------------------------------------------------------- Following the leader

  /** The follower knows the leader's chain from index `k` on. */
  ghost predicate Shadows(m: State, f: State, k: nat) {
    && BlocksSound(m) && BlocksSound(f) && k < |m.chain|
    && f.chain == m.chain[k..] && f.first == m.first + k && f.blocks.ttl == m.blocks.ttl
  }

  /** Everything in the leader's window is known to the follower. */
  predicate Enough(n: nat, k: nat, ttl: Slot) {
    k <= WindowStart(n, ttl)
  }

  lemma WindowShifts(n: nat, k: nat, ttl: Slot)
    requires Enough(n, k, ttl) && k < n
    ensures WindowStart(n - k, ttl) == WindowStart(n, ttl) - k && Enough(n + 1, k, ttl)
  {
  }

  /** Leader and follower then accept the same recent hashes. */
  lemma SameWindow(m: State, f: State, k: nat, hash: Hash)
    requires Shadows(m, f, k) && Enough(|m.chain|, k, m.blocks.ttl)
    ensures hash in m.blocks.index <==> hash in f.blocks.index
  {
    hide Window, Consistent, WindowStart;
    WindowShifts(|m.chain|, k, m.blocks.ttl);
    if hash in m.blocks.index {
      var i := ValidIsPublished(m, hash);
      HistoryIsWindow(f, i - k);
    }
    if hash in f.blocks.index {
      var i := ValidIsPublished(f, hash);
      HistoryIsWindow(m, i + k);
    }
  }

  lemma BlockShadows(m: State, f: State, k: nat, hash: Hash)
    requires Shadows(m, f, k) && hash !in m.chain
    ensures Shadows(Next(m, Block(hash)), Next(f, Block(hash)), k)
  {
    hide Window, Consistent;
    BlockKeepsBlocks(m, hash);
    BlockKeepsBlocks(f, hash);
    assert (m.chain + [hash])[k..] == m.chain[k..] + [hash];
  }

  /** What a follower that started without signatures at slot `slot` still holds
      after it was fed `log`, computed from the log alone. */
  function Held(ttl: Slot, slot: Slot, log: seq<Event>): seq<Record<Prefix>> {
    if log == [] then []
    else
      var front, last := log[..|log| - 1], log[|log| - 1];
      var held, at := Held(ttl, slot, front), slot + |Blocks(front)|;
      if last.Block? then held else Unswept(held, at) + [Record(last.prefix, at + ttl)]
  }

  /** What a push at slot `at` leaves of the queue before it inserts. */
  function Unswept(queue: seq<Record<Prefix>>, at: Slot): seq<Record<Prefix>> {
    queue[SweepCount(queue, at)..]
  }

  /** A follower started at `f0` and fed `log` still holds the prefix at its next push. */
  predicate Holds(f0: State, log: seq<Event>, p: Prefix) {
    p in Keys(Unswept(Held(f0.signatures.ttl, Current(f0), log), Current(f0) + |Blocks(log)|))
  }

  /** Entry `k` arrives while its prefix is still held. */
  predicate Collides(f0: State, log: seq<Event>, k: nat)
    requires k < |log|
  {
    log[k].Tx? && Holds(f0, log[..k], log[k].prefix)
  }

  ghost predicate CollisionFree(f0: State, log: seq<Event>) {
    forall k :: 0 <= k < |log| ==> !Collides(f0, log, k)
  }

  /** The last entry is the only new chance to collide. */
  lemma CollisionFreeOne(f0: State, log: seq<Event>, e: Event)
    ensures CollisionFree(f0, log + [e]) <==> CollisionFree(f0, log) && !(e.Tx? && Holds(f0, log, e.prefix))
  {
    hide Holds;
    var more := log + [e];
    forall k | 0 <= k < |log| ensures Collides(f0, more, k) == Collides(f0, log, k) {
      assert more[..k] == log[..k];
    }
    assert more[..|log|] == log;
    assert Collides(f0, more, |log|) == (e.Tx? && Holds(f0, log, e.prefix));
  }

  lemma HeldOne(ttl: Slot, slot: Slot, log: seq<Event>, e: Event)
    ensures Held(ttl, slot, log + [e]) ==
            if e.Block? then Held(ttl, slot, log)
            else Unswept(Held(ttl, slot, log), slot + |Blocks(log)|) + [Record(e.prefix, slot + |Blocks(log)| + ttl)]
  {
    hide Unswept;
    assert (log + [e])[..|log|] == log;
  }

  /** What the leader appended during a run. */
  function NewLog(m: State, events: seq<Event>): seq<Event> {
    AfterChain(m, events);
    After(m, events).log[|m.log|..]
  }

  /** The follower admits the whole of `log`. */
  ghost predicate Follows(f0: State, log: seq<Event>) {
    After(f0, log).log == f0.log + log
  }

  /** A follower with no signatures knows enough of the leader's chain. */
  ghost predicate Ready(m: State, f0: State, k: nat) {
    && Shadows(m, f0, k) && Enough(|m.chain|, k, m.blocks.ttl)
    && f0.signatures.index == map[] && f0.signatures.queue == []
  }

  /** Leader `m` and follower `f` after the follower admitted the whole of `log`. */
  ghost predicate KeptUp(m: State, f: State, f0: State, k: nat, log: seq<Event>) {
    && Shadows(m, f, k) && Enough(|m.chain|, k, m.blocks.ttl)
    && f.log == f0.log + log
    && f.signatures.ttl == f0.signatures.ttl && Consistent(f.signatures)
    && f.signatures.queue == Held(f0.signatures.ttl, Current(f0), log)
    && Current(f) == Current(f0) + |Blocks(log)|
  }

  lemma KeptUpBlock(m: State, f: State, f0: State, k: nat, log: seq<Event>, hash: Hash)
    requires KeptUp(m, f, f0, k, log) && hash !in m.chain
    ensures KeptUp(Next(m, Block(hash)), Next(f, Block(hash)), f0, k, log + [Block(hash)])
  {
    hide BlocksSound, Consistent, Held, Blocks, WindowStart, Pushed;
    BlockShadows(m, f, k, hash);
    WindowShifts(|m.chain|, k, m.blocks.ttl);
    PushKeepsTtl(m.blocks, hash, Current(m), Current(m));
    HeldOne(f0.signatures.ttl, Current(f0), log, Block(hash));
    BlocksOne(log, Block(hash));
    assert f0.log + log + [Block(hash)] == f0.log + (log + [Block(hash)]);
  }

  /** The follower admits what the leader admits unless it still holds the prefix. */
  lemma KeptUpAdmits(m: State, f: State, f0: State, k: nat, log: seq<Event>, tx: Event)
    requires KeptUp(m, f, f0, k, log) && tx.Tx? && Admits(m, tx)
    ensures Admits(f, tx) <==> !Holds(f0, log, tx.prefix)
  {
    hide Shadows, Held, Blocks, WindowStart, Pushed, Swept, Unswept, Consistent, Keys;
    SameWindow(m, f, k, tx.recent);
    UnsweptKeys(f.signatures, Current(f));
    PushIsNew(f.signatures, tx.prefix, false, Current(f));
  }

  lemma UnsweptKeys(c: Cache<Prefix, bool>, at: Slot)
    requires Consistent(c)
    ensures Swept(c, at).index.Keys == Keys(Unswept(c.queue, at))
  {
    hide SweepCount;
    SweepKeepsConsistent(c, at);
  }

  lemma PushedQueue(c: Cache<Prefix, bool>, p: Prefix, at: Slot)
    requires Pushed(c, p, false, at).1
    ensures Pushed(c, p, false, at).0.queue == Unswept(c.queue, at) + [Record(p, at + c.ttl)]
  {
    hide SweepCount;
  }

  lemma KeptUpTx(m: State, f: State, f0: State, k: nat, log: seq<Event>, tx: Event)
    requires KeptUp(m, f, f0, k, log) && tx.Tx? && Admits(f, tx)
    ensures KeptUp(Next(m, tx), Next(f, tx), f0, k, log + [tx])
  {
    hide BlocksSound, Consistent, Held, Blocks, WindowStart, Pushed, Unswept;
    NextKeepsBlocks(m, tx);
    NextKeepsBlocks(f, tx);
    PushKeepsConsistent(f.signatures, tx.prefix, false, Current(f));
    PushKeepsTtl(f.signatures, tx.prefix, false, Current(f));
    PushedQueue(f.signatures, tx.prefix, Current(f));
    HeldOne(f0.signatures.ttl, Current(f0), log, tx);
    BlocksOne(log, tx);
    assert f0.log + log + [tx] == f0.log + (log + [tx]);
  }

  lemma KeptUpSkips(m: State, f: State, f0: State, k: nat, log: seq<Event>, tx: Event)
    requires KeptUp(m, f, f0, k, log) && tx.Tx?
    ensures KeptUp(Next(m, tx), f, f0, k, log)
  {
    hide BlocksSound, Consistent, Held, Blocks, WindowStart;
    NextKeepsBlocks(m, tx);
  }

  /** Feeding never appends more than it is given. */
  lemma {:induction false} FedAtMost(s: State, events: seq<Event>)
    ensures |s.log| <= |After(s, events).log| <= |s.log| + |events|
  {
    hide Pushed;
    if events != [] {
      FedAtMost(s, events[..|events| - 1]);
    }
  }

  /** Whoever admits all has admitted all but the last. */
  lemma FollowsFront(f0: State, log: seq<Event>, e: Event)
    requires Follows(f0, log + [e])
    ensures Follows(f0, log)
  {
    hide Pushed;
    AfterOne(f0, log, e);
    FedAtMost(f0, log);
    assert f0.log + (log + [e]) == f0.log + log + [e];
    assert (f0.log + log + [e])[..|f0.log + log|] == f0.log + log;
  }

  /** A follower whose known chain covers the leader's window, fed exactly what the
      leader appended, admits all of it if and only if the log never repeats a prefix
      that the follower still holds. */
  lemma {:induction false} FollowerAdmitsIff(m: State, f0: State, k: nat, events: seq<Event>)
    requires Ready(m, f0, k) && FreshBlocks(m, events)
    ensures Follows(f0, NewLog(m, events)) <==> CollisionFree(f0, NewLog(m, events))
    ensures Follows(f0, NewLog(m, events)) ==>
              KeptUp(After(m, events), After(f0, NewLog(m, events)), f0, k, NewLog(m, events))
  {
    hide Shadows, Next, FreshBlocks, CollisionFree, KeptUp, Follows;
    if events == [] {
      NothingNew(m, f0, k);
    } else {
      var front, last := events[..|events| - 1], events[|events| - 1];
      FreshFront(m, events);
      FollowerAdmitsIff(m, f0, k, front);
      AfterChain(m, front);
      assert front + [last] == events;
      FollowerStep(m, f0, k, front, last);
    }
  }

  lemma NothingNew(m: State, f0: State, k: nat)
    requires Ready(m, f0, k)
    ensures NewLog(m, []) == [] && KeptUp(After(m, []), After(f0, []), f0, k, [])
    ensures CollisionFree(f0, []) && Follows(f0, [])
  {
    hide BlocksSound;
    assert f0.log + [] == f0.log;
  }

  lemma NewLogOne(m: State, events: seq<Event>, e: Event)
    ensures NewLog(m, events + [e]) == NewLog(m, events) + if Admits(After(m, events), e) then [e] else []
  {
    hide Pushed;
    AfterOne(m, events, e);
    AfterChain(m, events);
  }

  lemma FollowerStep(m: State, f0: State, k: nat, events: seq<Event>, e: Event)
    requires e.Block? ==> e.hash !in After(m, events).chain
    requires Follows(f0, NewLog(m, events)) <==> CollisionFree(f0, NewLog(m, events))
    requires Follows(f0, NewLog(m, events)) ==>
               KeptUp(After(m, events), After(f0, NewLog(m, events)), f0, k, NewLog(m, events))
    ensures var log := NewLog(m, events + [e]);
      && (Follows(f0, log) <==> CollisionFree(f0, log))
      && (Follows(f0, log) ==> KeptUp(After(m, events + [e]), After(f0, log), f0, k, log))
  {
    hide KeptUp, CollisionFree, Admits, NewLog, After, Next, Follows, Holds;
    var log, last := NewLog(m, events), After(m, events);
    NewLogOne(m, events, e);
    AfterOne(m, events, e);
    if !Admits(last, e) {
      assert e.Tx? by { BlocksAdmitted(last, e); }
      assert NewLog(m, events + [e]) == log;
      if Follows(f0, log) {
        KeptUpSkips(last, After(f0, log), f0, k, log, e);
      }
    } else {
      CollisionFreeOne(f0, log, e);
      if Follows(f0, log) {
        FollowerAdmitsOne(last, f0, k, log, e);
      } else if Follows(f0, log + [e]) {
        FollowsFront(f0, log, e);
      }
    }
  }

  lemma BlocksAdmitted(s: State, e: Event)
    ensures e.Block? ==> Admits(s, e)
  {
  }

  lemma FollowerAdmitsOne(m: State, f0: State, k: nat, log: seq<Event>, e: Event)
    requires KeptUp(m, After(f0, log), f0, k, log) && Admits(m, e) && (e.Block? ==> e.hash !in m.chain)
    ensures Follows(f0, log + [e]) <==> !(e.Tx? && Holds(f0, log, e.prefix))
    ensures Follows(f0, log + [e]) ==> KeptUp(Next(m, e), After(f0, log + [e]), f0, k, log + [e])
  {
    hide Pushed, Holds, Held, Blocks, BlocksSound, Consistent, WindowStart, After;
    var f := After(f0, log);
    AfterOne(f0, log, e);
    assert f0.log + (log + [e]) == f.log + [e];
    if e.Block? {
      KeptUpBlock(m, f, f0, k, log, e.hash);
    } else {
      KeptUpAdmits(m, f, f0, k, log, e);
      if Admits(f, e) {
        KeptUpTx(m, f, f0, k, log, e);
      }
    }
  }

  lemma UnsweptIsHeld(queue: seq<Record<Prefix>>, at: Slot, p: Prefix)
    requires p in Keys(Unswept(queue, at))
    ensures p in Keys(queue)
  {
    var n := SweepCount(queue, at);
    var i :| 0 <= i < |queue[n..]| && queue[n..][i].key == p;
    assert queue[n + i].key == p;
  }

  /** The follower only holds prefixes it was fed. */
  lemma {:induction false} HeldWasFed(ttl: Slot, slot: Slot, log: seq<Event>, p: Prefix)
    requires p in Keys(Held(ttl, slot, log))
    ensures exists i :: 0 <= i < |log| && log[i].Tx? && log[i].prefix == p
  {
    hide Unswept;
    if log != [] {
      var front, last := log[..|log| - 1], log[|log| - 1];
      var held, at := Held(ttl, slot, front), slot + |Blocks(front)|;
      if last.Tx? {
        AppendKey(Unswept(held, at), Record(last.prefix, at + ttl));
        if p in Keys(Unswept(held, at)) {
          UnsweptIsHeld(held, at, p);
        }
      }
      if p in Keys(held) {
        HeldWasFed(ttl, slot, front, p);
      }
    }
  }

  /** A log whose prefixes are distinct is collision free. */
  lemma DistinctIsCollisionFree(f0: State, log: seq<Event>)
    requires PrefixOnce(log)
    ensures CollisionFree(f0, log)
  {
    hide Held, Blocks, Unswept;
    forall k | 0 <= k < |log| && log[k].Tx? ensures !Holds(f0, log[..k], log[k].prefix) {
      if Holds(f0, log[..k], log[k].prefix) {
        UnsweptIsHeld(Held(f0.signatures.ttl, Current(f0), log[..k]), Current(f0) + |Blocks(log[..k])|, log[k].prefix);
        HeldWasFed(f0.signatures.ttl, Current(f0), log[..k], log[k].prefix);
      }
    }
  }

  // ---------------------------------------------------------------- How much history is needed

  /** The follower restored with the leader's last `d` block hashes. */
  function RestoredWith(m: State, d: nat): State
    requires 0 < d <= |m.chain|
  {
    var k := |m.chain| - d;
    Restored(m.first + k, m.chain[k..], m.blocks.ttl, m.signatures.ttl)
  }

  lemma RestoredShadows(m: State, d: nat)
    requires BlocksSound(m) && 0 < d <= |m.chain|
    ensures Shadows(m, RestoredWith(m, d), |m.chain| - d)
    ensures RestoredWith(m, d).signatures == Cache(map[], [], m.signatures.ttl) && RestoredWith(m, d).log == []
  {
    hide Restored, Window, Consistent;
    var k := |m.chain| - d;
    assert forall i :: 0 <= i < d ==> m.chain[k..][i] == m.chain[k + i];
    RestoredSound(m.first + k, m.chain[k..], m.blocks.ttl, m.signatures.ttl);
  }

  /** With enough history the restored follower is ready to follow. */
  lemma RestoredReady(m: State, d: nat)
    requires BlocksSound(m) && 0 < d <= |m.chain| && (d == |m.chain| || Width(m.blocks.ttl) <= d)
    ensures Ready(m, RestoredWith(m, d), |m.chain| - d)
  {
    hide RestoredWith, Shadows;
    RestoredShadows(m, d);
  }

  /** The follower admits whatever the leader appends next under distinct prefixes. */
  ghost predicate AdmitsEveryContinuation(m: State, f0: State) {
    forall events :: FreshBlocks(m, events) && PrefixOnce(NewLog(m, events)) ==> Follows(f0, NewLog(m, events))
  }

  /** A follower restored with the last `d` hashes admits every continuation of the
      leader's log if and only if `d` covers the block window or the whole chain. */
  lemma RestoredAdmitsIff(m: State, d: nat)
    requires BlocksSound(m) && 0 < d <= |m.chain|
    ensures AdmitsEveryContinuation(m, RestoredWith(m, d)) <==> d == |m.chain| || Width(m.blocks.ttl) <= d
  {
    hide BlocksSound, FreshBlocks, NewLog, Follows, RestoredWith, PrefixOnce, CollisionFree;
    var f0 := RestoredWith(m, d);
    if d == |m.chain| || Width(m.blocks.ttl) <= d {
      RestoredReady(m, d);
      forall events | FreshBlocks(m, events) && PrefixOnce(NewLog(m, events)) ensures Follows(f0, NewLog(m, events)) {
        DistinctIsCollisionFree(f0, NewLog(m, events));
        FollowerAdmitsIff(m, f0, |m.chain| - d, events);
      }
    } else {
      var events := MissedHash(m, d);
    }
  }

  lemma UnusedPrefix(used: set<Prefix>) returns (p: Prefix)
    ensures p !in used
  {
    var bound := PrefixBound(used);
    p := bound;
  }

  lemma {:induction false} PrefixBound(used: set<Prefix>) returns (bound: Prefix)
    ensures forall p :: p in used ==> p < bound
    decreases |used|
  {
    if used == {} {
      bound := 0;
    } else {
      var p :| p in used;
      var rest := PrefixBound(used - {p});
      bound := if p < rest then rest else p + 1;
      assert forall q :: q in used ==> q == p || q in used - {p};
    }
  }

  /** A transaction naming the newest hash the follower was not given is admitted
      by the leader alone. */
  lemma MissedHash(m: State, d: nat) returns (events: seq<Event>)
    requires BlocksSound(m) && 0 < d < |m.chain| && d < Width(m.blocks.ttl)
    ensures FreshBlocks(m, events) && PrefixOnce(NewLog(m, events)) && !Follows(RestoredWith(m, d), NewLog(m, events))
    ensures |events| == 1 && events[0].Tx? && NewLog(m, events) == events
    ensures events[0].recent == m.chain[|m.chain| - d - 1]
  {
    hide Window, Consistent, RestoredWith;
    var f0, i := RestoredWith(m, d), |m.chain| - d - 1;
    RestoredShadows(m, d);
    var p := UnusedPrefix(m.signatures.index.Keys);
    var tx := Tx(p, m.chain[i]);
    events := [tx];
    HistoryIsWindow(m, i);
    assert [] + events == events;
    assert m.chain + Blocks([]) == m.chain;
    FreshOne(m, [], tx);
    NewLogOne(m, [], tx);
    AfterOne(f0, [], tx);
    if tx.recent in f0.blocks.index {
      var j := ValidIsPublished(f0, tx.recent);
    }
    assert After(f0, events).log == [];
  }

  /** How many recent block hashes a snapshot carries. */
  const SLOTHASH_ENTRIES: nat := 512

  /** A follower restored from a snapshot admits every continuation exactly when the
      snapshot's hashes cover the block window or the whole chain. */
  lemma SnapshotAdmitsIff(m: State)
    requires BlocksSound(m)
    ensures var d := if |m.chain| < SLOTHASH_ENTRIES then |m.chain| else SLOTHASH_ENTRIES;
      AdmitsEveryContinuation(m, RestoredWith(m, d)) <==>
        |m.chain| <= SLOTHASH_ENTRIES || m.blocks.ttl <= SLOTHASH_ENTRIES
  {
    hide AdmitsEveryContinuation, RestoredWith;
    RestoredAdmitsIff(m, if |m.chain| < SLOTHASH_ENTRIES then |m.chain| else SLOTHASH_ENTRIES);
  }

  // ---------------------------------------------------------------- A prefix held too long

  /** Distinct transactions `0..n`, all naming block hash 0. */
  function Burst(n: nat): seq<Event> {
    if n == 0 then [] else Burst(n - 1) + [Tx(n - 1, 0)]
  }

  function BurstRecords(n: nat): seq<Record<Prefix>> {
    seq(n, i => Record(i, 2))
  }

  ghost predicate AfterBurst(e: State, n: nat) {
    && BlocksSound(e) && e.first == 0 && e.chain == [0] && e.blocks.ttl == 1 && e.log == Burst(n)
    && Consistent(e.signatures) && e.signatures.ttl == 1 && e.signatures.queue == BurstRecords(n)
  }

  lemma {:induction false} BurstRun(n: nat)
    ensures AfterBurst(After(Start(0, 0, 1, 1), Burst(n)), n)
  {
    hide After, Next, AfterBurst;
    if n == 0 {
      BurstStart();
    } else {
      BurstRun(n - 1);
      AfterOne(Start(0, 0, 1, 1), Burst(n - 1), Tx(n - 1, 0));
      BurstStep(After(Start(0, 0, 1, 1), Burst(n - 1)), n - 1);
    }
  }

  lemma BurstStart()
    ensures AfterBurst(After(Start(0, 0, 1, 1), Burst(0)), 0)
  {
    hide BlocksSound;
    StartBlocks(0, 0, 1, 1);
  }

  lemma BurstStep(e: State, n: nat)
    requires AfterBurst(e, n)
    ensures AfterBurst(Next(e, Tx(n, 0)), n + 1)
  {
    hide BlocksSound, Pushed, Consistent, Keys, Swept, Unswept, Burst, BurstRecords;
    NextKeepsBlocks(e, Tx(n, 0));
    NewestIsValid(e);
    PushKeepsConsistent(e.signatures, n, false, 1);
    PushKeepsTtl(e.signatures, n, false, 1);
    BurstUnswept(e.signatures, n);
    PushIsNew(e.signatures, n, false, 1);
    PushedQueue(e.signatures, n, 1);
    BurstGrows(n);
  }

  lemma BurstGrows(n: nat)
    ensures Burst(n + 1) == Burst(n) + [Tx(n, 0)] && BurstRecords(n + 1) == BurstRecords(n) + [Record(n, 2)]
  {
  }

  /** The newest block is always valid. */
  lemma NewestIsValid(s: State)
    requires BlocksSound(s)
    ensures s.chain[|s.chain| - 1] in s.blocks.index
  {
    hide BlocksSound;
    HasChain(s);
    NewestInWindow(|s.chain|, s.blocks.ttl);
    HistoryIsWindow(s, |s.chain| - 1);
  }

  lemma HasChain(s: State)
    requires BlocksSound(s)
    ensures s.chain != []
  {
  }

  lemma BurstUnswept(c: Cache<Prefix, bool>, n: nat)
    requires Consistent(c) && c.queue == BurstRecords(n)
    ensures Unswept(c.queue, 1) == c.queue && n !in Swept(c, 1).index
  {
    NothingSwept(c.queue, 1);
    assert n !in Keys(BurstRecords(n));
  }

  lemma NothingSwept(queue: seq<Record<Prefix>>, slot: Slot)
    requires forall i :: 0 <= i < |queue| ==> !Expired(queue[i], slot)
    ensures SweepCount(queue, slot) == 0
  {
  }

  /** Once expired, all but the last of the burst is swept by the next push. */
  lemma BurstSwept(c: Cache<Prefix, bool>)
    requires Consistent(c) && c.queue == BurstRecords(17)
    ensures Swept(c, 2).queue == [Record(16, 2)] && Swept(c, 2).index.Keys == {16}
  {
    assert ExpiredFront(c.queue, 2) == 17;
    assert c.queue[16..] == [] + [Record(16, 2)];
    SweepKeepsConsistent(c, 2);
    AppendKey([], Record(16, 2));
  }

  /** A rejected attempt sweeps on the leader, so the prefix is free again there. */
  lemma RejectedSweeps(b: State)
    requires BlocksSound(b) && b.first == 0 && b.chain == [0, 1] && b.blocks.ttl == 1
    requires Consistent(b.signatures) && b.signatures.ttl == 1 && b.signatures.queue == BurstRecords(17)
    ensures var c := Next(b, Tx(17, 99));
      && c.log == b.log && c.blocks == b.blocks && c.chain == b.chain && c.first == b.first
      && Consistent(c.signatures) && c.signatures.queue == [Record(16, 2), Record(17, 3)]
  {
    hide Window, Consistent, Swept, BurstRecords;
    BurstSwept(b.signatures);
    PushKeepsConsistent(b.signatures, 17, false, 2);
    if 99 in b.blocks.index {
      var i := ValidIsPublished(b, 99);
    }
  }

  lemma FreeAgain(c: State)
    requires BlocksSound(c) && c.first == 0 && c.chain == [0, 1] && c.blocks.ttl == 1
    requires Consistent(c.signatures) && c.signatures.queue == [Record(16, 2), Record(17, 3)]
    ensures Next(c, Tx(16, 1)).log == c.log + [Tx(16, 1)]
  {
    hide Window;
    HistoryIsWindow(c, 1);
    SweepKeepsConsistent(c.signatures, 2);
    assert c.signatures.queue[1..] == [Record(17, 3)];
    assert ExpiredFront(c.signatures.queue[1..], 2) == 0;
  }

  /** Even from the same start and with covering windows, a replica fed the leader's
      log can reject part of it: it pushes less often, so it sweeps later. */
  lemma ReplicaMaySweepLater() returns (events: seq<Event>)
    ensures Covers(1, 1) && FreshBlocks(Start(0, 0, 1, 1), events)
    ensures !Follows(Start(0, 0, 1, 1), After(Start(0, 0, 1, 1), events).log)
  {
    hide After, Next, BlocksSound, Consistent, Burst, BurstRecords;
    var s, burst := Start(0, 0, 1, 1), Burst(17);
    BurstRun(17);
    BurstBlocks(17);
    var before := burst + [Block(1)];
    var rejected := before + [Tx(17, 99)];
    events := rejected + [Tx(16, 1)];
    FreshOne(s, burst, Block(1));
    FreshOne(s, before, Tx(17, 99));
    FreshOne(s, rejected, Tx(16, 1));
    AfterOne(s, burst, Block(1));
    AfterOne(s, before, Tx(17, 99));
    AfterOne(s, rejected, Tx(16, 1));
    var b := After(s, before);
    BurstThenBlock(After(s, burst));
    RejectedSweeps(b);
    NextKeepsBlocks(b, Tx(17, 99));
    FreeAgain(Next(b, Tx(17, 99)));
    assert After(s, events).log == before + [Tx(16, 1)];
    AfterOne(s, before, Tx(16, 1));
    StillHeld(b);
  }

  lemma {:induction false} BurstBlocks(n: nat)
    ensures Blocks(Burst(n)) == [] && FreshBlocks(Start(0, 0, 1, 1), Burst(n))
  {
    if n > 0 {
      BurstBlocks(n - 1);
      BlocksOne(Burst(n - 1), Tx(n - 1, 0));
    }
  }

  lemma BurstThenBlock(a: State)
    requires AfterBurst(a, 17)
    ensures var b := Next(a, Block(1));
      && BlocksSound(b) && b.first == 0 && b.chain == [0, 1] && b.blocks.ttl == 1 && b.log == Burst(17) + [Block(1)]
      && Consistent(b.signatures) && b.signatures.ttl == 1 && b.signatures.queue == BurstRecords(17)
  {
    hide BlocksSound, Consistent, Burst, BurstRecords;
    BlockKeepsBlocks(a, 1);
  }

  lemma StillHeld(b: State)
    requires b.first == 0 && b.chain == [0, 1] && Consistent(b.signatures) && b.signatures.queue == BurstRecords(17)
    ensures Next(b, Tx(16, 1)).log == b.log
  {
    hide Swept, BurstRecords, Consistent;
    BurstSwept(b.signatures);
  }
}
