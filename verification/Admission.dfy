/** Admission of transactions to the ledger through two slot-expiring caches: one
    of recent signatures, one of recent block hashes. */
module Admission {
  import opened Basics
  import opened ExpiringCaches

  /** The leading bytes of a signature. Distinct transactions may share them. */
  type Prefix = nat

  /** An attempted transaction with the recent block hash it names, or a published
      block. The ledger records the same events. */
  datatype Event = Tx(prefix: Prefix, recent: Hash) | Block(hash: Hash)

  /** `chain` lists the published blocks from slot `first` on, one per slot;
      `log` is what was appended to the ledger. */
  datatype State = State(
    first: Slot,
    chain: seq<Hash>,
    blocks: Cache<Hash, Slot>,
    signatures: Cache<Prefix, bool>,
    log: seq<Event>)

  /** The slot being built: one past the latest block. */
  function Current(s: State): Slot {
    s.first + |s.chain|
  }

  /** The state restored at start-up: one known block, no signatures. */
  function Start(first: Slot, hash: Hash, blockTtl: Slot, signatureTtl: Slot): State {
    State(first, [hash], Pushed(Cache(map[], [], blockTtl), hash, first, first).0,
          Cache(map[], [], signatureTtl), [])
  }

  /** A transaction is appended when its prefix is new and its hash is recent. */
  predicate Admits(s: State, e: Event) {
    e.Tx? ==> Pushed(s.signatures, e.prefix, false, Current(s)).1 && e.recent in s.blocks.index
  }

  function Next(s: State, e: Event): State {
    match e
    case Tx(p, recent) =>
      s.(signatures := Pushed(s.signatures, p, false, Current(s)).0, log := if Admits(s, e) then s.log + [e] else s.log)
    case Block(hash) =>
      s.(chain := s.chain + [hash], blocks := Pushed(s.blocks, hash, Current(s), Current(s)).0, log := s.log + [e])
  }

  /** The state after a run of events. */
  function After(s: State, events: seq<Event>): State {
    if events == [] then s else Next(After(s, events[..|events| - 1]), events[|events| - 1])
  }

  lemma AfterOne(s: State, events: seq<Event>, e: Event)
    ensures After(s, events + [e]) == Next(After(s, events), e)
  {
    hide Next;
    assert (events + [e])[..|events|] == events;
  }

  lemma {:induction false} AfterJoins(s: State, a: seq<Event>, b: seq<Event>)
    ensures After(s, a + b) == After(After(s, a), b)
  {
    hide Next;
    if b == [] {
      assert a + b == a;
    } else {
      AfterJoins(s, a, b[..|b| - 1]);
      assert a + b == a + b[..|b| - 1] + [b[|b| - 1]];
      AfterOne(s, a + b[..|b| - 1], b[|b| - 1]);
    }
  }

  /** The hashes of the blocks among some events. */
  function Blocks(events: seq<Event>): seq<Hash> {
    if events == [] then []
    else
      var last := events[|events| - 1];
      Blocks(events[..|events| - 1]) + if last.Block? then [last.hash] else []
  }

  ghost predicate Distinct(hashes: seq<Hash>) {
    forall i, j :: 0 <= i < j < |hashes| ==> hashes[i] != hashes[j]
  }

  /** Block hashes are distinct over the whole run. */
  ghost predicate FreshBlocks(s: State, events: seq<Event>) {
    Distinct(s.chain + Blocks(events))
  }

  lemma FreshFront(s: State, events: seq<Event>)
    requires FreshBlocks(s, events) && events != []
    ensures FreshBlocks(s, events[..|events| - 1])
    ensures events[|events| - 1].Block? ==> events[|events| - 1].hash !in s.chain + Blocks(events[..|events| - 1])
  {
    var front, last := events[..|events| - 1], events[|events| - 1];
    var fewer, more := s.chain + Blocks(front), s.chain + Blocks(events);
    assert more == fewer + if last.Block? then [last.hash] else [];
    forall i | 0 <= i < |fewer| ensures fewer[i] == more[i] {
    }
    if last.Block? {
      assert more[|fewer|] == last.hash;
    }
  }

  lemma BlocksOne(events: seq<Event>, e: Event)
    ensures Blocks(events + [e]) == Blocks(events) + if e.Block? then [e.hash] else []
  {
    assert (events + [e])[..|events|] == events;
  }

  lemma FreshOne(s: State, events: seq<Event>, e: Event)
    requires FreshBlocks(s, events) && (e.Block? ==> e.hash !in s.chain + Blocks(events))
    ensures FreshBlocks(s, events + [e])
  {
    BlocksOne(events, e);
    var fewer := s.chain + Blocks(events);
    assert s.chain + Blocks(events + [e]) == fewer + if e.Block? then [e.hash] else [];
    assert forall i :: 0 <= i < |fewer| ==> fewer[i] in fewer;
  }

  lemma {:induction false} AfterChain(s: State, events: seq<Event>)
    ensures After(s, events).chain == s.chain + Blocks(events) && After(s, events).first == s.first
    ensures s.log <= After(s, events).log
    ensures After(s, events).blocks.ttl == s.blocks.ttl && After(s, events).signatures.ttl == s.signatures.ttl
  {
    if events != [] {
      AfterChain(s, events[..|events| - 1]);
    }
  }

  // ---------------------------------------------------------------- The block window

  /** How many blocks stay valid: the newest always does. */
  function Width(ttl: Slot): nat {
    if ttl == 0 then 1 else ttl
  }

  /** First chain index still in the history. */
  function WindowStart(n: nat, ttl: Slot): nat {
    if n <= Width(ttl) then 0 else n - Width(ttl)
  }

  function Window(first: Slot, chain: seq<Hash>, ttl: Slot): (w: seq<Record<Hash>>)
    ensures |w| == |chain| - WindowStart(|chain|, ttl)
    ensures forall i :: 0 <= i < |w| ==>
              w[i] == Record(chain[WindowStart(|chain|, ttl) + i], first + WindowStart(|chain|, ttl) + i + ttl)
  {
    var lo := WindowStart(|chain|, ttl);
    seq(|chain| - lo, i requires 0 <= i < |chain| - lo => Record(chain[lo + i], first + lo + i + ttl))
  }

  /** With one block per slot, each push sweeps everything that has expired: the
      history is exactly the unexpired suffix of the chain. */
  ghost predicate BlocksSound(s: State) {
    && s.chain != [] && Distinct(s.chain)
    && Consistent(s.blocks)
    && s.blocks.queue == Window(s.first, s.chain, s.blocks.ttl)
  }

  lemma StartBlocks(first: Slot, hash: Hash, blockTtl: Slot, signatureTtl: Slot)
    ensures BlocksSound(Start(first, hash, blockTtl, signatureTtl))
  {
    var empty: Cache<Hash, Slot> := Cache(map[], [], blockTtl);
    assert Consistent(empty);
    PushKeepsConsistent(empty, hash, first, first);
    assert Start(first, hash, blockTtl, signatureTtl).blocks.queue == Window(first, [hash], blockTtl);
  }

  /** At the next slot, exactly the oldest entry past the window has expired. */
  lemma WindowSweep(s: State)
    requires s.chain != [] && s.blocks.queue == Window(s.first, s.chain, s.blocks.ttl)
    ensures SweepCount(s.blocks.queue, Current(s)) ==
            WindowStart(|s.chain| + 1, s.blocks.ttl) - WindowStart(|s.chain|, s.blocks.ttl)
  {
    var lo, n, queue := WindowStart(|s.chain|, s.blocks.ttl), |s.chain|, s.blocks.queue;
    assert queue[0].expires == s.first + lo + s.blocks.ttl;
    assert lo + 1 < n ==> queue[1].expires == s.first + lo + 1 + s.blocks.ttl;
    var front := ExpiredFront(queue, Current(s));
    assert front <= 1;
  }

  lemma WindowStartStep(n: nat, ttl: Slot)
    requires n > 0
    ensures WindowStart(n, ttl) <= WindowStart(n + 1, ttl) <= n
  {
  }

  lemma WindowStep(first: Slot, chain: seq<Hash>, hash: Hash, ttl: Slot)
    requires chain != []
    ensures var drop := WindowStart(|chain| + 1, ttl) - WindowStart(|chain|, ttl);
      && 0 <= drop <= |Window(first, chain, ttl)|
      && Window(first, chain + [hash], ttl) ==
         Window(first, chain, ttl)[drop..] + [Record(hash, first + |chain| + ttl)]
  {
    hide Window, WindowStart;
    WindowStartStep(|chain|, ttl);
  }

  lemma BlockKeepsBlocks(s: State, hash: Hash)
    requires BlocksSound(s) && hash !in s.chain
    ensures BlocksSound(Next(s, Block(hash)))
  {
    hide Window, Consistent;
    WindowSweep(s);
    WindowStep(s.first, s.chain, hash, s.blocks.ttl);
    if hash in s.blocks.index {
      var i := ValidIsPublished(s, hash);
    }
    PushKeepsConsistent(s.blocks, hash, Current(s), Current(s));
  }

  lemma NextKeepsBlocks(s: State, e: Event)
    requires BlocksSound(s) && (e.Block? ==> e.hash !in s.chain)
    ensures BlocksSound(Next(s, e))
  {
    if e.Block? {
      BlockKeepsBlocks(s, e.hash);
    }
  }

  lemma {:induction false} AfterKeepsBlocks(s: State, events: seq<Event>)
    requires BlocksSound(s) && FreshBlocks(s, events)
    ensures BlocksSound(After(s, events))
  {
    if events != [] {
      FreshFront(s, events);
      AfterKeepsBlocks(s, events[..|events| - 1]);
      AfterChain(s, events[..|events| - 1]);
      NextKeepsBlocks(After(s, events[..|events| - 1]), events[|events| - 1]);
    }
  }

  /** A recent hash is valid exactly while its block is within the window. */
  lemma HistoryIsWindow(s: State, i: nat)
    requires BlocksSound(s) && i < |s.chain|
    ensures s.chain[i] in s.blocks.index <==> WindowStart(|s.chain|, s.blocks.ttl) <= i
  {
    var lo := WindowStart(|s.chain|, s.blocks.ttl);
    if lo <= i {
      assert s.blocks.queue[i - lo].key == s.chain[i];
    }
    if k :| 0 <= k < |s.blocks.queue| && s.blocks.queue[k].key == s.chain[i] {
      assert s.chain[lo + k] == s.chain[i];
    }
  }

  /** Only published hashes are valid. */
  lemma ValidIsPublished(s: State, hash: Hash) returns (i: nat)
    requires BlocksSound(s) && hash in s.blocks.index
    ensures WindowStart(|s.chain|, s.blocks.ttl) <= i < |s.chain| && s.chain[i] == hash
  {
    assert hash in Keys(s.blocks.queue);
    var k :| 0 <= k < |s.blocks.queue| && s.blocks.queue[k].key == hash;
    i := WindowStart(|s.chain|, s.blocks.ttl) + k;
  }

  // ---------------------------------------------------------------- Admission happens once

  /** No transaction is in the log twice. */
  ghost predicate AdmittedOnce(log: seq<Event>) {
    forall i, j :: 0 <= i < j < |log| && log[i].Tx? && log[j].Tx? ==> log[i] != log[j]
  }

  /** The signature window is positive and covers the block window. */
  predicate Covers(blockTtl: Slot, signatureTtl: Slot) {
    blockTtl <= signatureTtl && 0 < signatureTtl
  }

  /** The prefix of an admitted transaction whose block sits at chain index `i`
      stays reserved until that block is past the signature window. */
  ghost predicate Reserved(s: State, tx: Event, i: nat)
    requires tx.Tx?
  {
    && i < |s.chain| && s.chain[i] == tx.recent
    && (tx.prefix in s.signatures.index || s.first + i + 1 + s.signatures.ttl <= Current(s))
    && LivesUntil(s.signatures, tx.prefix, s.first + i + 1 + s.signatures.ttl)
  }

  ghost predicate Inv(s: State) {
    && BlocksSound(s) && Consistent(s.signatures) && Covers(s.blocks.ttl, s.signatures.ttl)
    && (forall tx :: tx in s.log && tx.Tx? ==> exists i :: Reserved(s, tx, i))
    && AdmittedOnce(s.log)
  }

  lemma BlockKeeps(s: State, hash: Hash)
    requires Inv(s) && hash !in s.chain
    ensures Inv(Next(s, Block(hash)))
  {
    hide Window, Consistent, LivesUntil;
    var e := Next(s, Block(hash));
    BlockKeepsBlocks(s, hash);
    forall tx | tx in e.log && tx.Tx? ensures exists i :: Reserved(e, tx, i) {
      var i :| Reserved(s, tx, i);
      assert Reserved(e, tx, i);
    }
  }

  /** Attempting any transaction keeps every reservation: only expired records go. */
  lemma AttemptKeepsReserved(s: State, other: Event, tx: Event, i: nat)
    requires tx.Tx? && other.Tx? && Consistent(s.signatures) && Reserved(s, tx, i)
    ensures Reserved(Next(s, other), tx, i)
  {
    hide LivesUntil, Consistent;
    PushKeepsLifetime(s.signatures, other.prefix, false, Current(s), tx.prefix, s.first + i + 1 + s.signatures.ttl);
    if tx.prefix in s.signatures.index && tx.prefix !in Swept(s.signatures, Current(s)).index {
      SweptKeyExpired(s.signatures, Current(s), tx.prefix, s.first + i + 1 + s.signatures.ttl);
    }
  }

  /** An admitted transaction is not admitted again: either its prefix is still
      reserved, or the block it names has expired. */
  lemma NotReadmitted(s: State, tx: Event, i: nat)
    requires BlocksSound(s) && Consistent(s.signatures) && tx.Tx? && Reserved(s, tx, i)
    requires Covers(s.blocks.ttl, s.signatures.ttl)
    ensures !Admits(s, tx)
  {
    hide LivesUntil, Consistent, Window;
    HistoryIsWindow(s, i);
    if tx.prefix in s.signatures.index && tx.prefix !in Swept(s.signatures, Current(s)).index {
      SweptKeyExpired(s.signatures, Current(s), tx.prefix, s.first + i + 1 + s.signatures.ttl);
    }
  }

  /** A newly admitted transaction is reserved past its block's window. */
  lemma AdmittedIsReserved(s: State, tx: Event)
    requires BlocksSound(s) && Consistent(s.signatures) && tx.Tx? && Admits(s, tx)
    ensures exists i :: Reserved(Next(s, tx), tx, i)
  {
    hide Window, Consistent, LivesUntil, Pushed;
    var i := ValidIsPublished(s, tx.recent);
    PushKeepsTtl(s.signatures, tx.prefix, false, Current(s));
    PushKeepsConsistent(s.signatures, tx.prefix, false, Current(s));
    PushedLifetime(s.signatures, tx.prefix, false, Current(s), s.first + i + 1 + s.signatures.ttl);
    assert Reserved(Next(s, tx), tx, i);
  }

  lemma AttemptKeeps(s: State, tx: Event)
    requires Inv(s) && tx.Tx?
    ensures Inv(Next(s, tx))
  {
    hide BlocksSound, Consistent, LivesUntil, Pushed;
    var e := Next(s, tx);
    PushKeepsTtl(s.signatures, tx.prefix, false, Current(s));
    PushKeepsConsistent(s.signatures, tx.prefix, false, Current(s));
    NextKeepsBlocks(s, tx);
    forall old' | old' in s.log && old'.Tx? ensures exists i :: Reserved(e, old', i) {
      var i :| Reserved(s, old', i);
      AttemptKeepsReserved(s, tx, old', i);
    }
    if Admits(s, tx) {
      if tx in s.log {
        var i :| Reserved(s, tx, i);
        NotReadmitted(s, tx, i);
      }
      AdmittedIsReserved(s, tx);
    }
  }

  lemma {:induction false} AfterKeeps(s: State, events: seq<Event>)
    requires Inv(s) && FreshBlocks(s, events)
    ensures Inv(After(s, events))
  {
    hide Inv;
    if events != [] {
      var front, last := events[..|events| - 1], events[|events| - 1];
      FreshFront(s, events);
      AfterKeeps(s, front);
      AfterChain(s, front);
      if last.Block? {
        BlockKeeps(After(s, front), last.hash);
      } else {
        AttemptKeeps(After(s, front), last);
      }
    }
  }

  lemma StartInv(first: Slot, hash: Hash, blockTtl: Slot, signatureTtl: Slot)
    requires Covers(blockTtl, signatureTtl)
    ensures Inv(Start(first, hash, blockTtl, signatureTtl))
  {
    StartBlocks(first, hash, blockTtl, signatureTtl);
  }

  /** Over every run, no transaction is appended to the ledger twice, whatever
      prefixes and hashes are attempted. */
  lemma NeverAdmittedTwice(first: Slot, hash: Hash, blockTtl: Slot, signatureTtl: Slot, events: seq<Event>)
    requires Covers(blockTtl, signatureTtl)
    requires FreshBlocks(Start(first, hash, blockTtl, signatureTtl), events)
    ensures AdmittedOnce(After(Start(first, hash, blockTtl, signatureTtl), events).log)
  {
    StartInv(first, hash, blockTtl, signatureTtl);
    AfterKeeps(Start(first, hash, blockTtl, signatureTtl), events);
  }

  // ---------------------------------------------------------------- The windows are needed

  /** Admits one transaction, then publishes `t` blocks with nothing else. */
  function Quiet(tx: Event, base: Hash, t: nat): seq<Event> {
    if t == 0 then [tx] else Quiet(tx, base, t - 1) + [Block(base + t)]
  }

  lemma {:induction false} QuietBlocks(tx: Event, base: Hash, t: nat)
    requires tx.Tx?
    ensures Blocks(Quiet(tx, base, t)) == seq(t, i => base + i + 1)
  {
    if t > 0 {
      QuietBlocks(tx, base, t - 1);
      var more := Quiet(tx, base, t);
      assert more[..|more| - 1] == Quiet(tx, base, t - 1);
    }
  }

  /** Only `tx` was admitted, to the chain's first block, and it holds the only reservation. */
  ghost predicate HoldsOnly(e: State, tx: Event, chain: seq<Hash>, blockTtl: Slot, signatureTtl: Slot)
    requires tx.Tx?
  {
    && BlocksSound(e) && e.first == 0 && e.chain == chain && e.blocks.ttl == blockTtl
    && e.signatures == Cache(map[tx.prefix := false], [Record(tx.prefix, 1 + signatureTtl)], signatureTtl)
    && e.log != [] && e.log[0] == tx
  }

  function QuietChain(hash: Hash, base: Hash, t: nat): seq<Hash> {
    [hash] + seq(t, i => base + i + 1)
  }

  lemma {:induction false} QuietRun(tx: Event, base: Hash, blockTtl: Slot, signatureTtl: Slot, t: nat)
    requires tx.Tx? && tx.recent <= base
    ensures HoldsOnly(After(Start(0, tx.recent, blockTtl, signatureTtl), Quiet(tx, base, t)), tx,
                      QuietChain(tx.recent, base, t), blockTtl, signatureTtl)
  {
    hide Next, Start, After, HoldsOnly;
    var s := Start(0, tx.recent, blockTtl, signatureTtl);
    if t == 0 {
      FirstAdmission(tx, base, blockTtl, signatureTtl);
    } else {
      QuietRun(tx, base, blockTtl, signatureTtl, t - 1);
      AfterOne(s, Quiet(tx, base, t - 1), Block(base + t));
      QuietStep(After(s, Quiet(tx, base, t - 1)), tx, base, t - 1, blockTtl, signatureTtl);
    }
  }

  lemma QuietStep(m: State, tx: Event, base: Hash, t: nat, blockTtl: Slot, signatureTtl: Slot)
    requires tx.Tx? && tx.recent <= base && HoldsOnly(m, tx, QuietChain(tx.recent, base, t), blockTtl, signatureTtl)
    ensures HoldsOnly(Next(m, Block(base + t + 1)), tx, QuietChain(tx.recent, base, t + 1), blockTtl, signatureTtl)
  {
    hide BlocksSound;
    forall i | 0 <= i < |m.chain| ensures m.chain[i] <= base + t {
    }
    BlockKeepsBlocks(m, base + t + 1);
    assert QuietChain(tx.recent, base, t) + [base + t + 1] == QuietChain(tx.recent, base, t + 1);
  }

  lemma FirstAdmission(tx: Event, base: Hash, blockTtl: Slot, signatureTtl: Slot)
    requires tx.Tx?
    ensures HoldsOnly(After(Start(0, tx.recent, blockTtl, signatureTtl), Quiet(tx, base, 0)), tx,
                      QuietChain(tx.recent, base, 0), blockTtl, signatureTtl)
  {
    hide BlocksSound;
    var s := Start(0, tx.recent, blockTtl, signatureTtl);
    StartBlocks(0, tx.recent, blockTtl, signatureTtl);
    HistoryIsWindow(s, 0);
    assert Swept(s.signatures, 1) == s.signatures;
    assert [] + [tx] == [tx];
    AfterOne(s, [], tx);
    NextKeepsBlocks(s, tx);
  }

  /** The lone reservation is swept once its window has passed. */
  lemma SweepsOut(p: Prefix, ttl: Slot, slot: Slot)
    requires ttl < slot
    ensures p !in Swept(Cache(map[p := false], [Record(p, 1 + ttl)], ttl), slot).index
  {
  }

  /** Past the signature window the prefix is admitted again, under any valid hash. */
  lemma Readmits(m: State, tx: Event, chain: seq<Hash>, blockTtl: Slot, signatureTtl: Slot, again: Event, i: nat)
    requires tx.Tx? && HoldsOnly(m, tx, chain, blockTtl, signatureTtl) && signatureTtl < |chain|
    requires again.Tx? && again.prefix == tx.prefix
    requires WindowStart(|chain|, blockTtl) <= i < |chain| && chain[i] == again.recent
    ensures Next(m, again).log == m.log + [again]
  {
    hide BlocksSound, WindowStart;
    HistoryIsWindow(m, i);
    SweepsOut(tx.prefix, signatureTtl, Current(m));
  }

  /** With a shorter signature window, every transaction can be admitted twice. */
  lemma ShortWindowReadmits(tx: Event, blockTtl: Slot, signatureTtl: Slot) returns (events: seq<Event>)
    requires tx.Tx? && !Covers(blockTtl, signatureTtl)
    ensures FreshBlocks(Start(0, tx.recent, blockTtl, signatureTtl), events)
    ensures forall e :: e in events && e.Tx? ==> e == tx
    ensures !AdmittedOnce(After(Start(0, tx.recent, blockTtl, signatureTtl), events).log)
  {
    hide After, Next, BlocksSound;
    var s := Start(0, tx.recent, blockTtl, signatureTtl);
    var before := Quiet(tx, tx.recent, signatureTtl);
    events := before + [tx];
    QuietRun(tx, tx.recent, blockTtl, signatureTtl, signatureTtl);
    var m := After(s, before);
    Readmits(m, tx, m.chain, blockTtl, signatureTtl, tx, 0);
    AfterOne(s, before, tx);
    RepeatsFirst(m.log, tx);
    QuietOffers(tx, tx.recent, signatureTtl);
    QuietFresh(s, tx, tx.recent, signatureTtl);
    FreshOne(s, before, tx);
  }

  lemma RepeatsFirst(log: seq<Event>, tx: Event)
    requires log != [] && log[0] == tx && tx.Tx?
    ensures !AdmittedOnce(log + [tx])
  {
    var more := log + [tx];
    assert more[0] == tx && more[|log|] == tx;
  }

  lemma QuietFresh(s: State, tx: Event, base: Hash, t: nat)
    requires tx.Tx? && tx.recent <= base && s.chain == [tx.recent]
    ensures s.chain + Blocks(Quiet(tx, base, t)) == QuietChain(tx.recent, base, t)
    ensures FreshBlocks(s, Quiet(tx, base, t))
  {
    QuietBlocks(tx, base, t);
  }

  lemma {:induction false} QuietOffers(tx: Event, base: Hash, t: nat)
    requires tx.Tx?
    ensures forall e :: e in Quiet(tx, base, t) && e.Tx? ==> e == tx
  {
    if t > 0 {
      QuietOffers(tx, base, t - 1);
    }
  }

  ghost predicate OnceInEveryRun(blockTtl: Slot, signatureTtl: Slot) {
    forall first, hash, events :: FreshBlocks(Start(first, hash, blockTtl, signatureTtl), events) ==>
      AdmittedOnce(After(Start(first, hash, blockTtl, signatureTtl), events).log)
  }

  /** Exactly when admission happens at most once over every run: the signature
      window is positive and covers the block window. */
  lemma AdmittedOnceIffWindowCovers(blockTtl: Slot, signatureTtl: Slot)
    ensures OnceInEveryRun(blockTtl, signatureTtl) <==> Covers(blockTtl, signatureTtl)
  {
    if Covers(blockTtl, signatureTtl) {
      forall first, hash, events | FreshBlocks(Start(first, hash, blockTtl, signatureTtl), events)
        ensures AdmittedOnce(After(Start(first, hash, blockTtl, signatureTtl), events).log)
      {
        NeverAdmittedTwice(first, hash, blockTtl, signatureTtl, events);
      }
    } else {
      var events := ShortWindowReadmits(Tx(0, 0), blockTtl, signatureTtl);
    }
  }

  // ---------------------------------------------------------------- Prefixes alone may repeat

  /** No prefix is in the log twice. */
  ghost predicate PrefixOnce(log: seq<Event>) {
    forall i, j :: 0 <= i < j < |log| && log[i].Tx? && log[j].Tx? ==> log[i].prefix != log[j].prefix
  }

  /** Two transactions that share a prefix but name different blocks are both
      admitted in some run, however long the signature window. */
  lemma PrefixUnderTwoHashes(p: Prefix, h: Hash, other: Hash, blockTtl: Slot, signatureTtl: Slot)
    returns (events: seq<Event>)
    requires h != other
    ensures FreshBlocks(Start(0, h, blockTtl, signatureTtl), events)
    ensures forall e :: e in events && e.Tx? ==> e == Tx(p, h) || e == Tx(p, other)
    ensures var log := After(Start(0, h, blockTtl, signatureTtl), events).log;
      && Tx(p, h) in log && Tx(p, other) in log && !PrefixOnce(log)
  {
    hide After, Next, BlocksSound, WindowStart;
    var s, base := Start(0, h, blockTtl, signatureTtl), h + other;
    var tx, again := Tx(p, h), Tx(p, other);
    var quiet := Quiet(tx, base, signatureTtl);
    var before := quiet + [Block(other)];
    events := before + [again];
    QuietRun(tx, base, blockTtl, signatureTtl, signatureTtl);
    QuietFresh(s, tx, base, signatureTtl);
    QuietOffers(tx, base, signatureTtl);
    FreshOne(s, quiet, Block(other));
    FreshOne(s, before, again);
    AfterOne(s, quiet, Block(other));
    AfterOne(s, before, again);
    ThenPublish(After(s, quiet), tx, QuietChain(h, base, signatureTtl), blockTtl, signatureTtl, other);
    var m := After(s, before);
    NewestInWindow(|m.chain|, blockTtl);
    Readmits(m, tx, m.chain, blockTtl, signatureTtl, again, |m.chain| - 1);
    var log := After(s, events).log;
    assert log[0] == tx && log[|log| - 1] == again;
  }

  lemma NewestInWindow(n: nat, ttl: Slot)
    requires n > 0
    ensures WindowStart(n, ttl) <= n - 1
  {
  }

  lemma ThenPublish(m: State, tx: Event, chain: seq<Hash>, blockTtl: Slot, signatureTtl: Slot, hash: Hash)
    requires tx.Tx? && HoldsOnly(m, tx, chain, blockTtl, signatureTtl) && hash !in chain
    ensures HoldsOnly(Next(m, Block(hash)), tx, chain + [hash], blockTtl, signatureTtl)
  {
    hide BlocksSound;
    BlockKeepsBlocks(m, hash);
  }

  /** Every admitted transaction was attempted. */
  lemma {:induction false} AdmittedWasAttempted(s: State, events: seq<Event>, tx: Event)
    requires tx in After(s, events).log && tx !in s.log
    ensures tx in events
  {
    hide Pushed;
    if events != [] {
      var front := events[..|events| - 1];
      if tx in After(s, front).log {
        AdmittedWasAttempted(s, front, tx);
      }
    }
  }

  /** Attempts are drawn from the pairs `offered`. */
  ghost predicate Offers(offered: (Prefix, Hash) -> bool, events: seq<Event>) {
    forall e :: e in events && e.Tx? ==> offered(e.prefix, e.recent)
  }

  ghost predicate PrefixOnceInEveryRun(offered: (Prefix, Hash) -> bool, blockTtl: Slot, signatureTtl: Slot) {
    forall first, hash, events ::
      Offers(offered, events) && FreshBlocks(Start(first, hash, blockTtl, signatureTtl), events) ==>
        PrefixOnce(After(Start(first, hash, blockTtl, signatureTtl), events).log)
  }

  /** The offered transaction's prefix fixes its hash, and the windows cover. */
  ghost predicate Unambiguous(offered: (Prefix, Hash) -> bool, p: Prefix, h: Hash, blockTtl: Slot, signatureTtl: Slot) {
    Covers(blockTtl, signatureTtl) && forall other :: offered(p, other) ==> other == h
  }

  /** Exactly when a prefix is admitted at most once over every run of attempts drawn
      from `offered`: no offered prefix comes with two hashes, and the windows cover. */
  lemma PrefixOnceIffUnambiguous(offered: (Prefix, Hash) -> bool, blockTtl: Slot, signatureTtl: Slot)
    ensures PrefixOnceInEveryRun(offered, blockTtl, signatureTtl) <==>
            forall p, h :: offered(p, h) ==> Unambiguous(offered, p, h, blockTtl, signatureTtl)
  {
    if forall p, h :: offered(p, h) ==> Unambiguous(offered, p, h, blockTtl, signatureTtl) {
      forall first, hash, events |
        Offers(offered, events) && FreshBlocks(Start(first, hash, blockTtl, signatureTtl), events)
        ensures PrefixOnce(After(Start(first, hash, blockTtl, signatureTtl), events).log)
      {
        UnambiguousOnce(offered, first, hash, blockTtl, signatureTtl, events);
      }
    } else {
      var p, h :| offered(p, h) && !Unambiguous(offered, p, h, blockTtl, signatureTtl);
      AmbiguousTwice(offered, p, h, blockTtl, signatureTtl);
    }
  }

  lemma UnambiguousOnce(offered: (Prefix, Hash) -> bool, first: Slot, hash: Hash, blockTtl: Slot, signatureTtl: Slot,
                        events: seq<Event>)
    requires forall p, h :: offered(p, h) ==> Unambiguous(offered, p, h, blockTtl, signatureTtl)
    requires Offers(offered, events) && FreshBlocks(Start(first, hash, blockTtl, signatureTtl), events)
    ensures PrefixOnce(After(Start(first, hash, blockTtl, signatureTtl), events).log)
  {
    hide After, FreshBlocks;
    var s := Start(first, hash, blockTtl, signatureTtl);
    var log := After(s, events).log;
    forall i, j | 0 <= i < j < |log| && log[i].Tx? && log[j].Tx? ensures log[i].prefix != log[j].prefix {
      AdmittedWasAttempted(s, events, log[i]);
      AdmittedWasAttempted(s, events, log[j]);
      NeverAdmittedTwice(first, hash, blockTtl, signatureTtl, events);
    }
  }

  lemma AmbiguousTwice(offered: (Prefix, Hash) -> bool, p: Prefix, h: Hash, blockTtl: Slot, signatureTtl: Slot)
    requires offered(p, h) && !Unambiguous(offered, p, h, blockTtl, signatureTtl)
    ensures !PrefixOnceInEveryRun(offered, blockTtl, signatureTtl)
  {
    hide After, FreshBlocks;
    var s := Start(0, h, blockTtl, signatureTtl);
    var events: seq<Event>;
    if !Covers(blockTtl, signatureTtl) {
      events := ShortWindowReadmits(Tx(p, h), blockTtl, signatureTtl);
    } else {
      var other :| offered(p, other) && other != h;
      events := PrefixUnderTwoHashes(p, h, other, blockTtl, signatureTtl);
    }
    assert Offers(offered, events) && FreshBlocks(s, events) && !PrefixOnce(After(s, events).log);
  }
}
