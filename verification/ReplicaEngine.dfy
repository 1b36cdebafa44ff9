/** The follower's engine: it admits or silently drops each replicated transaction
    and checks its own block hash against every replicated block. */
module ReplicaEngine {
  import opened Basics
  import opened Records
  import A = Admission
  import C = ExpiringCaches
  import R = AdmissionReplay

  /** The block hash over the parent hash and the block's first signatures. */
  type Digest = (Hash, seq<Signature>) -> Hash

  /** What admission sees of the records: transactions and blocks. */
  function EventsOf(rs: seq<Record>): seq<A.Event> {
    if rs == [] then [] else EventsOf(rs[..|rs| - 1]) + EventOf(rs[|rs| - 1])
  }

  function EventOf(r: Record): seq<A.Event> {
    match r
    case Tx(_, _, prefix, recent) => [A.Tx(prefix, recent)]
    case Block(_, hash) => [A.Block(hash)]
    case _ => []
  }

  lemma EventsOne(rs: seq<Record>, r: Record)
    ensures EventsOf(rs + [r]) == EventsOf(rs) + EventOf(r)
  {
    hide EventOf;
    assert (rs + [r])[..|rs|] == rs;
  }

  lemma {:induction false} EventsJoin(a: seq<Record>, b: seq<Record>)
    ensures EventsOf(a + b) == EventsOf(a) + EventsOf(b)
  {
    hide EventOf;
    if b == [] {
      assert a + b == a && EventsOf(a) + [] == EventsOf(a);
    } else {
      var front, last := b[..|b| - 1], b[|b| - 1];
      EventsJoin(a, front);
      EventsOne(a + front, last);
      EventsOne(front, last);
      assert a + b == a + front + [last] && b == front + [last];
    }
  }

  /** Signatures hashed into the block being built. */
  function Absorbed(rs: seq<Record>): seq<Signature> {
    if rs == [] then []
    else
      match rs[|rs| - 1]
      case Tx(_, signature, _, _) => Absorbed(rs[..|rs| - 1]) + [signature]
      case Block(_, _) => []
      case _ => Absorbed(rs[..|rs| - 1])
  }

  /** The latest block hash. */
  function LastHash(genesis: Hash, rs: seq<Record>): Hash {
    if rs == [] then genesis
    else if rs[|rs| - 1].Block? then rs[|rs| - 1].hash
    else LastHash(genesis, rs[..|rs| - 1])
  }

  /** `consumed` lists every record taken since bootstrap, `log` those appended;
      `checked` is the length of the log at the last accepted block. */
  datatype Engine = Engine(
    admission: A.State,
    parent: Hash,
    absorbed: seq<Signature>,
    log: seq<Record>,
    consumed: seq<Record>,
    checked: nat,
    halted: bool)

  /** An engine that has taken nothing yet. */
  function Fresh(admission: A.State, parent: Hash): Engine {
    Engine(admission, parent, [], [], [], 0, false)
  }

  predicate Dropped(e: Engine) {
    |e.log| < |e.consumed|
  }

  /** A replicated block must continue the local hash chain. */
  predicate Continues(digest: Digest, e: Engine, r: Record)
    requires r.Block?
  {
    r.parent == e.parent && r.hash == digest(e.parent, e.absorbed)
  }

  /** Takes one record: a rejected transaction is dropped without a trace in the log,
      and a block that does not continue the local chain stops the engine. */
  function Take(digest: Digest, e: Engine, r: Record): Engine {
    match r
    case Tx(_, signature, prefix, recent) =>
      var tx := A.Tx(prefix, recent);
      var next := e.(admission := A.Next(e.admission, tx), consumed := e.consumed + [r]);
      if A.Admits(e.admission, tx) then next.(log := e.log + [r], absorbed := e.absorbed + [signature]) else next
    case Block(_, hash) =>
      if Continues(digest, e, r) then
        Engine(A.Next(e.admission, A.Block(hash)), hash, [], e.log + [r], e.consumed + [r], |e.log| + 1, false)
      else e.(halted := true)
    case _ => e.(log := e.log + [r], consumed := e.consumed + [r])
  }

  // ---------------------------------------------------------------- What the engine has admitted

  /** The engine's admission state has been fed everything consumed and has admitted
      exactly what is in the log. */
  ghost predicate Tracks(f0: A.State, e: Engine) {
    && e.admission == A.After(f0, EventsOf(e.consumed))
    && e.admission.log == f0.log + EventsOf(e.log)
    && |e.consumed| - |e.log| == |EventsOf(e.consumed)| - |EventsOf(e.log)| >= 0
    && (!Dropped(e) ==> e.log == e.consumed)
  }

  lemma FreshTracks(f0: A.State, parent: Hash)
    ensures Tracks(f0, Fresh(f0, parent))
  {
    assert f0.log + [] == f0.log;
  }

  lemma TakeTracks(digest: Digest, f0: A.State, e: Engine, r: Record)
    requires Tracks(f0, e)
    ensures Tracks(f0, Take(digest, e, r))
  {
    hide A.After, EventsOf, C.Pushed;
    EventsOne(e.consumed, r);
    EventsOne(e.log, r);
    var before := EventsOf(e.consumed);
    if r.Tx? {
      A.AfterOne(f0, before, A.Tx(r.prefix, r.recent));
    } else if r.Block? {
      A.AfterOne(f0, before, A.Block(r.hash));
    } else {
      assert EventsOf(e.consumed) + [] == EventsOf(e.consumed) && EventsOf(e.log) + [] == EventsOf(e.log);
    }
    assert f0.log + EventsOf(e.log) + EventOf(r) == f0.log + (EventsOf(e.log) + EventOf(r));
  }

  /** Nothing was dropped exactly when admission followed everything consumed. */
  lemma DroppedIffBehind(f0: A.State, e: Engine)
    requires Tracks(f0, e)
    ensures !Dropped(e) <==> R.Follows(f0, EventsOf(e.consumed))
  {
    hide A.After, EventsOf;
    if R.Follows(f0, EventsOf(e.consumed)) {
      assert |f0.log + EventsOf(e.log)| == |f0.log + EventsOf(e.consumed)|;
    }
  }

  // ---------------------------------------------------------------- Agreement with the leader

  /** The leader's blocks continue its own hash chain. */
  ghost predicate ChainSound(digest: Digest, genesis: Hash, rs: seq<Record>) {
    forall i :: 0 <= i < |rs| && rs[i].Block? ==> BlockSound(digest, genesis, rs, i)
  }

  ghost predicate BlockSound(digest: Digest, genesis: Hash, rs: seq<Record>, i: nat)
    requires i < |rs| && rs[i].Block?
  {
    && rs[i].parent == LastHash(genesis, rs[..i])
    && rs[i].hash == digest(LastHash(genesis, rs[..i]), Absorbed(rs[..i]))
  }

  /** The engine consumed the leader's records from `base` to `n`. It knows the
      leader's latest block, and without a drop it has absorbed the same signatures. */
  ghost predicate Agrees(genesis: Hash, rs: seq<Record>, base: nat, n: nat, e: Engine) {
    && base <= n <= |rs| && e.consumed == rs[base..n]
    && e.parent == LastHash(genesis, rs[..n])
    && (!Dropped(e) ==> e.absorbed == Absorbed(rs[..n]) && !e.halted)
  }

  lemma PrefixOne(genesis: Hash, rs: seq<Record>, base: nat, n: nat)
    requires base <= n < |rs|
    ensures rs[base..n] + [rs[n]] == rs[base..n + 1]
    ensures LastHash(genesis, rs[..n + 1]) == if rs[n].Block? then rs[n].hash else LastHash(genesis, rs[..n])
    ensures Absorbed(rs[..n + 1]) ==
            if rs[n].Tx? then Absorbed(rs[..n]) + [rs[n].signature]
            else if rs[n].Block? then [] else Absorbed(rs[..n])
  {
    assert rs[..n + 1][..n] == rs[..n];
  }

  /** Taking the leader's next record keeps the agreement, unless it stops the engine. */
  lemma TakeAgrees(digest: Digest, genesis: Hash, rs: seq<Record>, base: nat, n: nat, f0: A.State, e: Engine)
    requires ChainSound(digest, genesis, rs) && Tracks(f0, e) && Agrees(genesis, rs, base, n, e) && n < |rs|
    requires !e.halted
    ensures var next := Take(digest, e, rs[n]);
      if next.halted then Dropped(e) && next == e.(halted := true) else Agrees(genesis, rs, base, n + 1, next)
  {
    hide LastHash, Absorbed, Tracks, A.Next, A.Admits;
    TrackedLength(f0, e);
    PrefixOne(genesis, rs, base, n);
    if rs[n].Block? {
      assert BlockSound(digest, genesis, rs, n);
    }
  }

  lemma TrackedLength(f0: A.State, e: Engine)
    requires Tracks(f0, e)
    ensures |e.log| <= |e.consumed| && (!Dropped(e) ==> e.log == e.consumed)
  {
  }

  // ---------------------------------------------------------------- A drop is terminal

  /** The block hash tells different blocks apart. */
  ghost predicate Injective(digest: Digest) {
    forall parent, a, b :: digest(parent, a) == digest(parent, b) ==> a == b
  }

  /** Up to the last accepted block the log is what was consumed. A drop came after
      that block, no block was accepted since, and a signature is missing. */
  ghost predicate DropPending(rs: seq<Record>, n: nat, e: Engine)
    requires n <= |rs|
  {
    && e.checked <= |e.log| <= |e.consumed| && e.log[..e.checked] == e.consumed[..e.checked]
    && (Dropped(e) ==>
          && |e.absorbed| < |Absorbed(rs[..n])|
          && (forall i :: e.checked <= i < |e.log| ==> !e.log[i].Block?)
          && (forall i :: e.checked <= i < |e.consumed| ==> !e.consumed[i].Block?))
    && (!Dropped(e) ==> forall i :: e.checked <= i < |e.log| ==> !e.log[i].Block?)
  }

  lemma TakeStaysPending(digest: Digest, genesis: Hash, rs: seq<Record>, base: nat, n: nat, f0: A.State, e: Engine)
    requires Injective(digest) && ChainSound(digest, genesis, rs) && Tracks(f0, e) && !e.halted
    requires Agrees(genesis, rs, base, n, e) && n < |rs| && DropPending(rs, n, e)
    ensures var next := Take(digest, e, rs[n]);
      if rs[n].Block? && Dropped(e) then next == e.(halted := true)
      else !next.halted && DropPending(rs, n + 1, next)
  {
    hide LastHash, Absorbed, Tracks, A.Next, A.Admits, DropPending, Injective;
    TrackedLength(f0, e);
    PrefixOne(genesis, rs, base, n);
    if rs[n].Block? {
      assert BlockSound(digest, genesis, rs, n);
      if Dropped(e) {
        DropIsNoticed(digest, rs, n, e);
      } else {
        BlockSettles(digest, rs, n, e);
      }
    } else {
      OtherStaysPending(digest, rs, n, e);
    }
  }

  /** The block hash over fewer signatures is another one. */
  lemma DropIsNoticed(digest: Digest, rs: seq<Record>, n: nat, e: Engine)
    requires Injective(digest) && n <= |rs| && DropPending(rs, n, e) && Dropped(e)
    ensures digest(e.parent, e.absorbed) != digest(e.parent, Absorbed(rs[..n]))
  {
    hide Absorbed;
  }

  lemma BlockSettles(digest: Digest, rs: seq<Record>, n: nat, e: Engine)
    requires n < |rs| && rs[n].Block? && Continues(digest, e, rs[n]) && e.log == e.consumed
    ensures DropPending(rs, n + 1, Take(digest, e, rs[n]))
  {
    hide Absorbed, A.Next;
  }

  lemma OtherStaysPending(digest: Digest, rs: seq<Record>, n: nat, e: Engine)
    requires n < |rs| && !rs[n].Block? && DropPending(rs, n, e)
    requires !Dropped(e) ==> e.absorbed == Absorbed(rs[..n]) && e.log == e.consumed
    requires Absorbed(rs[..n + 1]) == if rs[n].Tx? then Absorbed(rs[..n]) + [rs[n].signature] else Absorbed(rs[..n])
    ensures DropPending(rs, n + 1, Take(digest, e, rs[n]))
  {
    hide Absorbed, A.Next, A.Admits;
    var next := Take(digest, e, rs[n]);
    assert next.checked == e.checked && next.consumed == e.consumed + [rs[n]];
    assert next.consumed[..e.checked] == e.consumed[..e.checked];
    assert next.log[..e.checked] == e.log[..e.checked];
  }
}
