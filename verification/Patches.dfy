/** Accounts as sequences of bounded patches: decomposing an account and applying
    the patches rebuilds it, with lamports balanced against the authority. */
module Patches {
  import opened Basics

  const U64_MAX: nat := 0xffff_ffff_ffff_ffff
  const MAX_DATA_CHUNK_SIZE: nat := 0xffff - 256
  const MAX_ACCOUNT_DATA_LEN: nat := 10 * 1024 * 1024

  // ---------------------------------------------------------------- Modes

  datatype Mode = Missing | Mirrored | Delegated | Undelegating | Magic | Runtime | Closed

  datatype Kind = NoAccount | Regular | Tombstone
  datatype Access = ReadOnly | Writable
  datatype Flow = NoSync | BaseToEr | ErToBase

  function KindOf(m: Mode): Kind {
    match m
    case Missing => NoAccount
    case Closed => Tombstone
    case _ => Regular
  }

  function AccessOf(m: Mode): Access {
    if m.Delegated? || m.Magic? then Writable else ReadOnly
  }

  function FlowOf(m: Mode): Flow {
    match m
    case Missing => BaseToEr
    case Mirrored => BaseToEr
    case Delegated => ErToBase
    case Undelegating => ErToBase
    case _ => NoSync
  }

  /** Little-endian mode bytes: the kind, then access and flow bits. */
  function EncodeMode(m: Mode): (Byte, Byte) {
    var kind := match KindOf(m) case NoAccount => 0 case Regular => 1 case Tombstone => 3;
    var access := if AccessOf(m).Writable? then 1 else 0;
    var flow := match FlowOf(m) case NoSync => 0 case BaseToEr => 1 case ErToBase => 2;
    (kind, access + 4 * flow)
  }

  function DecodeMode(b: (Byte, Byte)): Option<Mode> {
    if b == (0, 4) then Some(Missing)
    else if b == (1, 4) then Some(Mirrored)
    else if b == (1, 0) then Some(Runtime)
    else if b == (1, 9) then Some(Delegated)
    else if b == (1, 1) then Some(Magic)
    else if b == (1, 8) then Some(Undelegating)
    else if b == (3, 0) then Some(Closed)
    else None
  }

  /** Mode bytes decode to exactly the mode whose kind, access and flow they name. */
  lemma ModeRoundTrip(m: Mode, b: (Byte, Byte))
    ensures DecodeMode(EncodeMode(m)) == Some(m)
    ensures DecodeMode(b) == Some(m) <==> b == EncodeMode(m)
  {
  }

  /** Local state requires persistence: the engine maintains the image. */
  predicate RequiresPersistence(m: Mode) {
    KindOf(m).Regular? && !FlowOf(m).BaseToEr?
  }

  /** The engine maintains exactly these modes; the others are supplied by the base
      chain, absent or deleted. */
  lemma PersistentModes(m: Mode)
    ensures RequiresPersistence(m) <==> m.Delegated? || m.Undelegating? || m.Magic? || m.Runtime?
    ensures !RequiresPersistence(m) <==> EncodeMode(m).0 != 1 || EncodeMode(m).1 / 4 == 1
  {
  }

  /** The mode pairs of the lifecycle, with equal slots allowed or not. */
  predicate MayKeepSlot(from: Mode, to: Mode) {
    match from
    case Missing => to.Mirrored? || to.Runtime? || to.Delegated? || to.Magic? || to.Closed?
    case Mirrored => to.Delegated? || to.Magic? || to.Closed?
    case Delegated => to.Undelegating?
    case Magic => to.Delegated? || to.Closed?
    case Undelegating => to.Missing? || to.Mirrored? || to.Closed?
    case _ => false
  }

  predicate MustAdvance(from: Mode, to: Mode) {
    || (from.Missing? && to.Missing?)
    || (from.Mirrored? && (to.Missing? || to.Mirrored?))
    || (from.Runtime? && to.Runtime?)
    || (from.Undelegating? && to.Delegated?)
  }

  predicate ValidTransition(from: Mode, to: Mode, fromSlot: Slot, toSlot: Slot) {
    (MustAdvance(from, to) && toSlot > fromSlot) || (MayKeepSlot(from, to) && toSlot >= fromSlot)
  }

  /** What each mode may be entered from, and whether at an equal slot. */
  lemma EnteredFrom(from: Mode, to: Mode, fromSlot: Slot, toSlot: Slot)
    ensures ValidTransition(from, to, fromSlot, toSlot) <==>
            match to
            case Missing =>
              ((from.Missing? || from.Mirrored?) && fromSlot < toSlot) || (from.Undelegating? && fromSlot <= toSlot)
            case Mirrored =>
              (from.Mirrored? && fromSlot < toSlot) || ((from.Missing? || from.Undelegating?) && fromSlot <= toSlot)
            case Delegated =>
              || (from.Undelegating? && fromSlot < toSlot)
              || ((from.Missing? || from.Mirrored? || from.Magic?) && fromSlot <= toSlot)
            case Undelegating => from.Delegated? && fromSlot <= toSlot
            case Magic => (from.Missing? || from.Mirrored?) && fromSlot <= toSlot
            case Runtime => (from.Runtime? && fromSlot < toSlot) || (from.Missing? && fromSlot <= toSlot)
            case Closed =>
              (from.Missing? || from.Mirrored? || from.Magic? || from.Undelegating?) && fromSlot <= toSlot
    ensures ValidTransition(from, from, fromSlot, toSlot) <==>
            (FlowOf(from).BaseToEr? || from.Runtime?) && fromSlot < toSlot
  {
  }

  // ---------------------------------------------------------------- Accounts and patches

  datatype Account = Account(lamports: nat, owner: Pubkey, mode: Mode, slot: Slot, commitSeq: nat, data: seq<Byte>,
                             flags: nat)

  datatype Patch =
    | Lamports(lamports: nat)
    | Owner(owner: Pubkey)
    | DataAt(offset: nat, data: seq<Byte>)
    | Lifecycle(mode: Mode, slot: Slot)
    | DataLen(len: nat)
    | CommitSeq(commitSeq: nat)

  /** Data resized to an exact length, zero-filled when growing. */
  function Resized(data: seq<Byte>, len: nat): (r: seq<Byte>)
    ensures |r| == len
    ensures forall i :: 0 <= i < len ==> r[i] == if i < |data| then data[i] else 0
  {
    if len <= |data| then data[..len] else data + seq(len - |data|, _ => 0)
  }

  /** Data with `bytes` written at `offset`, extended and zero-filled as needed. */
  function Overwritten(data: seq<Byte>, offset: nat, bytes: seq<Byte>): (r: seq<Byte>)
    ensures |r| == if offset + |bytes| > |data| then offset + |bytes| else |data|
    ensures r[offset..offset + |bytes|] == bytes
    ensures forall i :: 0 <= i < |r| && !(offset <= i < offset + |bytes|) ==> r[i] == if i < |data| then data[i] else 0
  {
    var grown := if offset > |data| then Resized(data, offset) else data;
    if offset + |bytes| <= |grown| then grown[..offset] + bytes + grown[offset + |bytes|..]
    else grown[..offset] + bytes
  }

  /** The patched account; `None` for an invalid lifecycle transition. */
  function Patched(p: Patch, a: Account): Option<Account> {
    match p
    case Lamports(v) => Some(a.(lamports := v))
    case Owner(v) => Some(a.(owner := v))
    case DataAt(offset, data) => Some(a.(data := Overwritten(a.data, offset, data)))
    case Lifecycle(mode, slot) =>
      if ValidTransition(a.mode, mode, a.slot, slot) then Some(a.(mode := mode, slot := slot)) else None
    case DataLen(len) => Some(a.(data := Resized(a.data, len)))
    case CommitSeq(v) => Some(a.(commitSeq := v))
  }

  function PatchedAll(ps: seq<Patch>, a: Account): Option<Account> {
    if ps == [] then Some(a)
    else
      var first := Patched(ps[0], a);
      if first.None? then None else PatchedAll(ps[1..], first.value)
  }

  /** Data cut into chunks of the maximum size, each with its offset. */
  function Chunks(data: seq<Byte>, offset: nat): seq<Patch>
    decreases |data|
  {
    if data == [] then []
    else if |data| <= MAX_DATA_CHUNK_SIZE then [DataAt(offset, data)]
    else
      var rest := Chunks(data[MAX_DATA_CHUNK_SIZE..], offset + MAX_DATA_CHUNK_SIZE);
      [DataAt(offset, data[..MAX_DATA_CHUNK_SIZE])] + rest
  }

  /** The ordered patches that rebuild an account's non-flag fields. */
  function Sequence(a: Account): seq<Patch> {
    [Lamports(a.lamports), Lifecycle(a.mode, a.slot), CommitSeq(a.commitSeq), Owner(a.owner), DataLen(|a.data|)] +
    Chunks(a.data, 0)
  }

  // ---------------------------------------------------------------- Rebuilding

  lemma {:induction false} PatchedJoins(a: seq<Patch>, b: seq<Patch>, x: Account)
    ensures PatchedAll(a + b, x) ==
            if PatchedAll(a, x).None? then None else PatchedAll(b, PatchedAll(a, x).value)
  {
    if a == [] {
      assert a + b == b;
    } else {
      assert (a + b)[1..] == a[1..] + b;
      if Patched(a[0], x).Some? {
        PatchedJoins(a[1..], b, Patched(a[0], x).value);
      }
    }
  }

  /** Every chunk is bounded, and chunks written one after another replace the
      rest of the data from their first offset on. */
  lemma {:induction false} ChunksRebuild(data: seq<Byte>, offset: nat, x: Account)
    requires |x.data| == offset + |data|
    ensures PatchedAll(Chunks(data, offset), x) == Some(x.(data := x.data[..offset] + data))
    ensures forall p :: p in Chunks(data, offset) ==> p.DataAt? && 0 < |p.data| <= MAX_DATA_CHUNK_SIZE
    decreases |data|
  {
    if data == [] {
      assert x.data == x.data[..offset] + data;
    } else if |data| <= MAX_DATA_CHUNK_SIZE {
      OneChunk(data, offset, x);
    } else {
      var n := MAX_DATA_CHUNK_SIZE;
      var mid := x.(data := Overwritten(x.data, offset, data[..n]));
      ChunksRebuild(data[n..], offset + n, mid);
      WrittenFront(x.data, offset, data[..n]);
      assert mid.data[..offset + n] + data[n..] == x.data[..offset] + data;
      var rest := Chunks(data[n..], offset + n);
      assert Chunks(data, offset)[0] == DataAt(offset, data[..n]) && Chunks(data, offset)[1..] == rest;
    }
  }

  lemma OneChunk(data: seq<Byte>, offset: nat, x: Account)
    requires |x.data| == offset + |data|
    ensures PatchedAll([DataAt(offset, data)], x) == Some(x.(data := x.data[..offset] + data))
  {
    WrittenFront(x.data, offset, data);
    var y := x.(data := Overwritten(x.data, offset, data));
    assert y.data == y.data[..offset + |data|];
    assert [DataAt(offset, data)][1..] == [];
    assert PatchedAll([], y) == Some(y);
  }

  lemma WrittenFront(data: seq<Byte>, offset: nat, bytes: seq<Byte>)
    requires offset + |bytes| <= |data|
    ensures Overwritten(data, offset, bytes)[..offset + |bytes|] == data[..offset] + bytes
    ensures |Overwritten(data, offset, bytes)| == |data|
  {
  }

  /** Decomposing any account and applying the patches to any target rebuilds every
      non-flag field exactly when the lifecycle transition is legal. */
  lemma SequenceRebuilds(a: Account, target: Account)
    ensures PatchedAll(Sequence(a), target) ==
            if ValidTransition(target.mode, a.mode, target.slot, a.slot) then Some(a.(flags := target.flags)) else None
  {
    var head := [Lamports(a.lamports), Lifecycle(a.mode, a.slot), CommitSeq(a.commitSeq), Owner(a.owner),
                 DataLen(|a.data|)];
    PatchedJoins(head, Chunks(a.data, 0), target);
    HeadRebuilds(a, target);
    if ValidTransition(target.mode, a.mode, target.slot, a.slot) {
      var x := a.(flags := target.flags, data := Resized(target.data, |a.data|));
      ChunksRebuild(a.data, 0, x);
      assert x.data[..0] + a.data == a.data;
    }
  }

  lemma HeadRebuilds(a: Account, target: Account)
    ensures PatchedAll([Lamports(a.lamports), Lifecycle(a.mode, a.slot), CommitSeq(a.commitSeq), Owner(a.owner),
                        DataLen(|a.data|)], target) ==
            if ValidTransition(target.mode, a.mode, target.slot, a.slot)
            then Some(a.(flags := target.flags, data := Resized(target.data, |a.data|))) else None
  {
    var one := target.(lamports := a.lamports);
    assert PatchedAll([Lifecycle(a.mode, a.slot), CommitSeq(a.commitSeq), Owner(a.owner), DataLen(|a.data|)], one) ==
           if ValidTransition(target.mode, a.mode, target.slot, a.slot)
           then Some(a.(flags := target.flags, data := Resized(target.data, |a.data|))) else None by {
      if ValidTransition(target.mode, a.mode, target.slot, a.slot) {
        var two := one.(mode := a.mode, slot := a.slot);
        var three := two.(commitSeq := a.commitSeq);
        var four := three.(owner := a.owner);
        assert PatchedAll([DataLen(|a.data|)], four) == Some(four.(data := Resized(four.data, |a.data|)));
        assert PatchedAll([Owner(a.owner), DataLen(|a.data|)], three) == PatchedAll([DataLen(|a.data|)], four);
        assert PatchedAll([CommitSeq(a.commitSeq), Owner(a.owner), DataLen(|a.data|)], two) ==
               PatchedAll([Owner(a.owner), DataLen(|a.data|)], three);
      }
    }
  }

  // ---------------------------------------------------------------- Lifecycles

  /** Over any successful run of patches: a deleted account stays deleted, a runtime
      account stays one, a delegation ends only by undelegating, and slots never fall. */
  lemma {:induction false} LifecycleLaws(ps: seq<Patch>, x: Account)
    requires PatchedAll(ps, x).Some?
    ensures var e := PatchedAll(ps, x).value;
      && (x.mode.Closed? ==> e.mode.Closed? && e.slot == x.slot && forall p :: p in ps ==> !p.Lifecycle?)
      && (x.mode.Runtime? ==> e.mode.Runtime?)
      && (x.mode.Delegated? && !e.mode.Delegated? ==> exists slot :: Lifecycle(Undelegating, slot) in ps)
      && x.slot <= e.slot && (e.mode != x.mode ==> exists slot :: Lifecycle(e.mode, slot) in ps)
  {
    if ps != [] {
      var first := Patched(ps[0], x).value;
      LifecycleLaws(ps[1..], first);
      assert forall p :: p in ps ==> p == ps[0] || p in ps[1..];
      if ps[0].Lifecycle? {
        EnteredFrom(x.mode, first.mode, x.slot, first.slot);
        assert Lifecycle(first.mode, first.slot) in ps;
      }
    }
  }

  // ---------------------------------------------------------------- Balancing lamports

  datatype Pair = Pair(target: Account, authority: Account)

  datatype Outcome = Done(pair: Pair) | InvalidRealloc | InvalidArgument | LamportsError

  function LengthAfter(p: Patch, a: Account): nat {
    match p
    case DataAt(offset, data) => if offset + |data| > |a.data| then offset + |data| else |a.data|
    case DataLen(len) => len
    case _ => 0
  }

  /** One privileged patch: lengths are bounded, and the target's change of balance
      is taken from or given to the authority. */
  function Privileged(p: Patch, s: Pair): Outcome {
    if LengthAfter(p, s.target) > MAX_ACCOUNT_DATA_LEN then InvalidRealloc
    else
      var patched := Patched(p, s.target);
      if patched.None? then InvalidArgument
      else
        var before, after := s.target.lamports, patched.value.lamports;
        if after > before then
          if s.authority.lamports < after - before then LamportsError
          else Done(Pair(patched.value, s.authority.(lamports := s.authority.lamports - (after - before))))
        else if after < before then
          if s.authority.lamports + (before - after) > U64_MAX then LamportsError
          else Done(Pair(patched.value, s.authority.(lamports := s.authority.lamports + (before - after))))
        else Done(Pair(patched.value, s.authority))
  }

  function PrivilegedAll(ps: seq<Patch>, s: Pair): Outcome {
    if ps == [] then Done(s)
    else
      var first := Privileged(ps[0], s);
      if first.Done? then PrivilegedAll(ps[1..], first.pair) else first
  }

  function Total(s: Pair): nat {
    s.target.lamports + s.authority.lamports
  }

  /** Every successful step keeps the combined balance, changes nothing else of the
      authority, applies the patch to the target, and never lowers its slot. */
  lemma StepConserves(p: Patch, s: Pair)
    requires Privileged(p, s).Done?
    ensures var e := Privileged(p, s).pair;
      && Total(e) == Total(s) && e.authority == s.authority.(lamports := e.authority.lamports)
      && Patched(p, s.target) == Some(e.target) && s.target.slot <= e.target.slot
  {
  }

  /** So does every successful run of patches, at each of its steps. */
  lemma {:induction false} RunConserves(ps: seq<Patch>, s: Pair, k: nat)
    requires PrivilegedAll(ps, s).Done? && k <= |ps|
    ensures PrivilegedAll(ps[..k], s).Done?
    ensures var e := PrivilegedAll(ps[..k], s).pair;
      && Total(e) == Total(s) && e.authority == s.authority.(lamports := e.authority.lamports)
      && PatchedAll(ps[..k], s.target) == Some(e.target) && s.target.slot <= e.target.slot
    decreases |ps|
  {
    if k > 0 {
      var e := Privileged(ps[0], s).pair;
      StepConserves(ps[0], s);
      RunConserves(ps[1..], e, k - 1);
      assert ps[..k][0] == ps[0] && ps[..k][1..] == ps[1..][..k - 1];
    }
  }

  /** Rebuilding an account from its patches under the authority: what the target
      gains in balance is what the authority loses. */
  lemma RebuildConserves(a: Account, s: Pair)
    requires PrivilegedAll(Sequence(a), s).Done?
    ensures var e := PrivilegedAll(Sequence(a), s).pair;
      e.target == a.(flags := s.target.flags) && Total(e) == Total(s) && s.target.slot <= a.slot
  {
    var ps := Sequence(a);
    RunConserves(ps, s, |ps|);
    assert ps[..|ps|] == ps;
    SequenceRebuilds(a, s.target);
  }

  /** The authority can pay for the target's new balance, or take back the excess. */
  predicate CanBalance(before: nat, after: nat, authority: nat) {
    if after > before then after - before <= authority else authority + (before - after) <= U64_MAX
  }

  /** Bounded chunks that stay within the account's length always succeed. */
  lemma {:induction false} ChunksSucceed(data: seq<Byte>, offset: nat, s: Pair)
    requires |s.target.data| == offset + |data| <= MAX_ACCOUNT_DATA_LEN && s.authority.lamports <= U64_MAX
    ensures PrivilegedAll(Chunks(data, offset), s).Done?
    decreases |data|
  {
    if data != [] {
      var chunks := Chunks(data, offset);
      var e := Privileged(chunks[0], s);
      if |data| > MAX_DATA_CHUNK_SIZE {
        ChunksSucceed(data[MAX_DATA_CHUNK_SIZE..], offset + MAX_DATA_CHUNK_SIZE, e.pair);
        assert chunks[1..] == Chunks(data[MAX_DATA_CHUNK_SIZE..], offset + MAX_DATA_CHUNK_SIZE);
      } else {
        assert chunks[1..] == [];
      }
    }
  }

  /** Rebuilding succeeds exactly when the balance can be settled, the transition is
      legal and the data is not too long. */
  lemma RebuildSucceedsIff(a: Account, s: Pair)
    requires s.authority.lamports <= U64_MAX
    ensures PrivilegedAll(Sequence(a), s).Done? <==>
            && CanBalance(s.target.lamports, a.lamports, s.authority.lamports)
            && ValidTransition(s.target.mode, a.mode, s.target.slot, a.slot)
            && |a.data| <= MAX_ACCOUNT_DATA_LEN
  {
    var ps := Sequence(a);
    var one := Privileged(Lamports(a.lamports), s);
    if one.Done? {
      StepConserves(Lamports(a.lamports), s);
      var two := Privileged(Lifecycle(a.mode, a.slot), one.pair);
      if two.Done? {
        var three := Pair(two.pair.target.(commitSeq := a.commitSeq), two.pair.authority);
        var four := Pair(three.target.(owner := a.owner), three.authority);
        assert Privileged(CommitSeq(a.commitSeq), two.pair) == Done(three);
        assert Privileged(Owner(a.owner), three) == Done(four);
        var five := Privileged(DataLen(|a.data|), four);
        if five.Done? {
          ChunksSucceed(a.data, 0, five.pair);
        }
        TailRuns(a, two.pair, three, four);
      }
      assert ps[1..][0] == Lifecycle(a.mode, a.slot);
    }
  }

  /** After the lifecycle patch: two field patches, the length, then the chunks. */
  lemma TailRuns(a: Account, two: Pair, three: Pair, four: Pair)
    requires Privileged(CommitSeq(a.commitSeq), two) == Done(three) && Privileged(Owner(a.owner), three) == Done(four)
    ensures var five := Privileged(DataLen(|a.data|), four);
      PrivilegedAll(Sequence(a)[1..][1..], two) ==
      if five.Done? then PrivilegedAll(Chunks(a.data, 0), five.pair) else five
  {
    var rest := Sequence(a)[1..][1..];
    assert rest[0] == CommitSeq(a.commitSeq) && rest[1..][0] == Owner(a.owner) &&
           rest[1..][1..][0] == DataLen(|a.data|);
    assert rest[1..][1..][1..] == Chunks(a.data, 0);
    assert PrivilegedAll(rest, two) == PrivilegedAll(rest[1..], three);
    assert PrivilegedAll(rest[1..], three) == PrivilegedAll(rest[1..][1..], four);
  }

  // ---------------------------------------------------------------- Patching in place

  /** A writable account image. */
  class SharedAccount {
    var lamports: nat
    var owner: Pubkey
    var mode: Mode
    var slot: Slot
    var commitSeq: nat
    var data: seq<Byte>
    var flags: nat

    ghost function Value(): Account
      reads this
    {
      Account(lamports, owner, mode, slot, commitSeq, data, flags)
    }

    constructor (a: Account)
      ensures Value() == a
    {
      lamports, owner, mode, slot := a.lamports, a.owner, a.mode, a.slot;
      commitSeq, data, flags := a.commitSeq, a.data, a.flags;
    }

    /** Grows to `offset` if needed, writes the overlap in place, appends the rest. */
    method SetDataAt(offset: nat, bytes: seq<Byte>)
      modifies this`data
      ensures data == Overwritten(old(data), offset, bytes)
    {
      if offset > |data| {
        data := Resized(data, offset);
      }
      var room := |data| - offset;
      var n := if room < |bytes| then room else |bytes|;
      data := data[..offset] + bytes[..n] + data[offset + n..];
      data := data + bytes[n..];
      assert data == Overwritten(old(data), offset, bytes);
    }

    /** Applies one patch; an invalid transition leaves the account unchanged. */
    method Apply(p: Patch) returns (ok: bool)
      modifies this
      ensures ok <==> Patched(p, old(Value())).Some?
      ensures Value() == if ok then Patched(p, old(Value())).value else old(Value())
    {
      match p {
        case Lamports(v) => lamports := v;
        case Owner(v) => owner := v;
        case DataAt(offset, bytes) => SetDataAt(offset, bytes);
        case Lifecycle(to, at) =>
          if !ValidTransition(mode, to, slot, at) {
            return false;
          }
          mode, slot := to, at;
        case DataLen(len) => data := Resized(data, len);
        case CommitSeq(v) => commitSeq := v;
      }
      return true;
    }
  }

  datatype Status = Success | Realloc | Argument | Lamport

  /** The privileged patch instruction on two distinct accounts. A failed
      instruction is rolled back with its transaction. */
  method PatchInstruction(target: SharedAccount, authority: SharedAccount, p: Patch) returns (status: Status)
    requires target != authority
    modifies target, authority
    ensures status == Success <==> Privileged(p, Pair(old(target.Value()), old(authority.Value()))).Done?
    ensures status == Success ==>
              Privileged(p, Pair(old(target.Value()), old(authority.Value()))) ==
              Done(Pair(target.Value(), authority.Value()))
    ensures status == Success ==> target.lamports + authority.lamports == old(target.lamports + authority.lamports)
    ensures var outcome := Privileged(p, Pair(old(target.Value()), old(authority.Value())));
      && (status == Realloc <==> outcome == InvalidRealloc)
      && (status == Argument <==> outcome == InvalidArgument)
      && (status == Lamport <==> outcome == LamportsError)
  {
    var len := match p
      case DataAt(offset, bytes) => if |target.data| > offset + |bytes| then |target.data| else offset + |bytes|
      case DataLen(n) => n
      case _ => 0;
    if len > MAX_ACCOUNT_DATA_LEN {
      return Realloc;
    }
    var before := target.lamports;
    var ok := target.Apply(p);
    if !ok {
      return Argument;
    }
    var after := target.lamports;
    if after > before {
      if authority.lamports < after - before {
        return Lamport;
      }
      authority.lamports := authority.lamports - (after - before);
    } else if after < before {
      if authority.lamports + (before - after) > U64_MAX {
        return Lamport;
      }
      authority.lamports := authority.lamports + (before - after);
    }
    return Success;
  }
}
