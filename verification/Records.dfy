/** Blockstore records, their encoding, and the segmented log they make up. */
module Records {
  import opened Basics
  import opened LogServer

  /** A transaction's bytes with its signature, the prefix admission keys on and the
      recent block hash it names; a block with its parent's hash and its own. */
  datatype Record =
    | Tx(payload: seq<Byte>, signature: Signature, prefix: nat, recent: Hash)
    | Block(parent: Hash, hash: Hash)
    | Seal(seal: nat)
    | Reset(reset: nat)
    | Checkpoint(checkpoint: nat)

  datatype Codec = Codec(encode: Record -> seq<Byte>, decode: seq<Byte> -> Option<Record>)

  /** Encodings are nonempty and self-delimiting: decoding succeeds exactly when
      the bytes start with a whole record, and yields that record. */
  ghost predicate Lawful(c: Codec) {
    && (forall r :: c.encode(r) != [])
    && (forall r, b :: c.encode(r) <= b ==> c.decode(b) == Some(r))
    && (forall b :: c.decode(b).Some? ==> c.encode(c.decode(b).value) <= b)
  }

  function EncodeAll(c: Codec, rs: seq<Record>): seq<Byte> {
    if rs == [] then [] else c.encode(rs[0]) + EncodeAll(c, rs[1..])
  }

  lemma {:induction false} EncodeJoins(c: Codec, a: seq<Record>, b: seq<Record>)
    ensures EncodeAll(c, a + b) == EncodeAll(c, a) + EncodeAll(c, b)
  {
    if a == [] {
      assert a + b == b;
    } else {
      assert (a + b)[1..] == a[1..] + b;
      EncodeJoins(c, a[1..], b);
    }
  }

  lemma EncodeOne(c: Codec, r: Record)
    ensures EncodeAll(c, [r]) == c.encode(r)
  {
  }

  /** The segmented log after writing records in order: a seal closes its segment. */
  function Written(c: Codec, first: nat, rs: seq<Record>): (log: Log)
    ensures log.head in log.segments
  {
    if rs == [] then Log(map[first := []], first)
    else
      var log, r := Written(c, first, rs[..|rs| - 1]), rs[|rs| - 1];
      var segments := log.segments[log.head := log.segments[log.head] + c.encode(r)];
      if r.Seal? then Log(segments[log.head + 1 := []], log.head + 1) else Log(segments, log.head)
  }

  /** The position after the last record. */
  function Tip(c: Codec, first: nat, rs: seq<Record>): Position {
    var log := Written(c, first, rs);
    Position(log.head, |log.segments[log.head]|)
  }

  function Seals(rs: seq<Record>): nat {
    if rs == [] then 0 else Seals(rs[..|rs| - 1]) + if rs[|rs| - 1].Seal? then 1 else 0
  }

  /** The records after the last seal. */
  function SinceSeal(rs: seq<Record>): seq<Record> {
    if rs == [] || rs[|rs| - 1].Seal? then [] else SinceSeal(rs[..|rs| - 1]) + [rs[|rs| - 1]]
  }

  /** Every seal opens one new segment, and the active one holds exactly the records
      since the last seal. */
  lemma {:induction false} SealsRotate(c: Codec, first: nat, rs: seq<Record>)
    ensures var log := Written(c, first, rs);
      log.head == first + Seals(rs) && log.segments[log.head] == EncodeAll(c, SinceSeal(rs))
  {
    if rs != [] {
      var front, r := rs[..|rs| - 1], rs[|rs| - 1];
      SealsRotate(c, first, front);
      EncodeJoins(c, SinceSeal(front), [r]);
      EncodeOne(c, r);
    }
  }

  /** Segments are numbered from `first` to the head without gaps. */
  lemma {:induction false} SegmentsAreConsecutive(c: Codec, first: nat, rs: seq<Record>)
    ensures var log := Written(c, first, rs);
      first <= log.head && forall id :: id in log.segments <==> first <= id <= log.head
  {
    if rs != [] {
      SegmentsAreConsecutive(c, first, rs[..|rs| - 1]);
    }
  }

  /** Writing one record only extends the log. */
  lemma OneMoreSees(c: Codec, first: nat, rs: seq<Record>)
    requires rs != []
    ensures var before := Written(c, first, rs[..|rs| - 1]);
      Sees(Written(c, first, rs), before) && before.head <= Written(c, first, rs).head
  {
    SegmentsAreConsecutive(c, first, rs[..|rs| - 1]);
  }

  lemma SeesThrough(full: Log, mid: Log, log: Log)
    requires Sees(full, mid) && Sees(mid, log) && log.head <= mid.head
    ensures Sees(full, log)
  {
  }

  /** A shorter log is an earlier view of a longer one. */
  lemma {:induction false} PrefixIsSeen(c: Codec, first: nat, rs: seq<Record>, k: nat)
    requires k <= |rs|
    ensures Sees(Written(c, first, rs), Written(c, first, rs[..k]))
    ensures Written(c, first, rs[..k]).head <= Written(c, first, rs).head
    decreases |rs|
  {
    hide Written, Sees;
    if k == |rs| {
      assert rs[..k] == rs;
      SeesItself(c, first, rs);
    } else {
      var shorter := rs[..|rs| - 1];
      PrefixIsSeen(c, first, shorter, k);
      assert shorter[..k] == rs[..k];
      OneMoreSees(c, first, rs);
      SeesThrough(Written(c, first, rs), Written(c, first, shorter), Written(c, first, rs[..k]));
    }
  }

  lemma SeesItself(c: Codec, first: nat, rs: seq<Record>)
    ensures Sees(Written(c, first, rs), Written(c, first, rs))
  {
    hide Written;
    SegmentsAreConsecutive(c, first, rs);
  }

  /** One more record extends the log by exactly its encoding. */
  lemma OneMoreRecord(c: Codec, first: nat, rs: seq<Record>, r: Record)
    ensures var log := Written(c, first, rs + [r]);
      && Connected(log, Tip(c, first, rs), Tip(c, first, rs + [r]))
      && Between(log, Tip(c, first, rs), Tip(c, first, rs + [r])) == c.encode(r)
  {
    assert (rs + [r])[..|rs|] == rs;
    SegmentsAreConsecutive(c, first, rs);
    var log, a := Written(c, first, rs + [r]), Tip(c, first, rs);
    var segment := log.segments[a.superblock];
    assert segment[a.offset..] == c.encode(r);
    if r.Seal? {
      assert Between(log, Position(a.superblock + 1, 0), Tip(c, first, rs + [r])) == [];
    } else {
      assert segment[a.offset..|segment|] == segment[a.offset..];
    }
  }

  /** A range of an earlier view is the same range of the longer log. */
  lemma {:induction false} BetweenIsStable(full: Log, log: Log, a: Position, b: Position)
    requires Sees(full, log) && Connected(log, a, b) && b.superblock <= log.head
    ensures Connected(full, a, b) && Between(full, a, b) == Between(log, a, b)
    decreases b.superblock - a.superblock
  {
    if a.superblock < b.superblock {
      BetweenIsStable(full, log, Position(a.superblock + 1, 0), b);
    } else {
      var id := a.superblock;
      assert log.segments[id] <= full.segments[id];
      assert full.segments[id][a.offset..b.offset] == log.segments[id][a.offset..b.offset];
    }
  }

  /** The bytes between two record boundaries are the records in between: this is
      what a server sends to a follower that stands at a boundary. */
  lemma {:induction false} RecordsBetween(c: Codec, first: nat, rs: seq<Record>, k: nat)
    requires k <= |rs|
    ensures Connected(Written(c, first, rs), Tip(c, first, rs[..k]), Tip(c, first, rs))
    ensures Between(Written(c, first, rs), Tip(c, first, rs[..k]), Tip(c, first, rs)) == EncodeAll(c, rs[k..])
    decreases |rs|
  {
    var log := Written(c, first, rs);
    SegmentsAreConsecutive(c, first, rs);
    if k == |rs| {
      assert rs[..k] == rs && rs[k..] == [];
    } else {
      var n := |rs| - 1;
      var shorter, r := rs[..n], rs[n];
      assert shorter + [r] == rs && shorter[..k] == rs[..k] && rs[k..] == shorter[k..] + [r];
      RecordsBetween(c, first, shorter, k);
      PrefixIsSeen(c, first, rs, n);
      BetweenIsStable(log, Written(c, first, shorter), Tip(c, first, rs[..k]), Tip(c, first, shorter));
      OneMoreRecord(c, first, shorter, r);
      BetweenJoins(log, Tip(c, first, rs[..k]), Tip(c, first, shorter), Tip(c, first, rs));
      EncodeJoins(c, shorter[k..], [r]);
      EncodeOne(c, r);
    }
  }
}
