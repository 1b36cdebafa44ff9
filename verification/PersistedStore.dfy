/** The persisted account store: images in one mapped array, an accounts table,
    an owner index and a freelist, changed in place. */
module PersistedStore {
  import opened Basics
  import opened Layout
  import opened Allocation
  import opened Packing
  import opened Relocation
  import opened PackingPass
  import opened PackingTheorems
  import opened PackingSteps

  const STORAGE_UNIT: nat := 8
  const META_RESERVATION: nat := 256
  const STORAGE_BLOCK: nat := 256 * MB
  const INIT_STORAGE_SIZE: nat := STORAGE_BLOCK + META_RESERVATION
  const MMAP_SIZE: nat := 1024 * 1024 * MB
  const STORAGE_CAPACITY: nat := (MMAP_SIZE - META_RESERVATION) / STORAGE_UNIT

  /** Storage units as bytes within the mapped region. */
  function Bytes(units: nat): nat {
    units * STORAGE_UNIT + META_RESERVATION
  }

  /** A file length rounded up to whole storage blocks. */
  function Rounded(len: nat): (r: nat)
    ensures len <= r < len + STORAGE_BLOCK && r % STORAGE_BLOCK == 0
  {
    (len + STORAGE_BLOCK - 1) / STORAGE_BLOCK * STORAGE_BLOCK
  }

  /** Growing for anything within capacity stays within the mapping. */
  lemma GrowFits(end: nat)
    requires end <= STORAGE_CAPACITY
    ensures Rounded(Bytes(end)) <= MMAP_SIZE
  {
  }

  /** One state transition of an upsert batch. `Remove` is an account whose mode
      no longer requires persistence; `Update` commits a borrowed image in place
      with its dirty markers; `Insert` serializes an owned image. */
  datatype Op =
    | Remove(pubkey: Pubkey)
    | Update(pubkey: Pubkey, image: seq<Unit>, ownerDirty: bool, dirty: bool)
    | Insert(pubkey: Pubkey, image: seq<Unit>)

  type Images = map<Pubkey, seq<Unit>>

  /** The images after one operation. Committing a borrowed image whose account is
      no longer indexed changes none of them. */
  function Applied(images: Images, op: Op): Images {
    match op
    case Remove(k) => images - {k}
    case Update(k, image, _, _) => if k in images then images[k := image] else images
    case Insert(k, image) => images[k := image]
  }

  /** How many fresh units a batch can need. */
  function Demand(ops: seq<Op>): nat {
    if ops == [] then 0 else Needed(ops[0]) + Demand(ops[1..])
  }

  function Needed(op: Op): nat {
    if op.Insert? then |op.image| else 0
  }

  function AppliedAll(images: Images, ops: seq<Op>): Images
    decreases |ops|
  {
    if ops == [] then images else AppliedAll(Applied(images, ops[0]), ops[1..])
  }

  /** Operations carry images of their account. A borrowed image is the stored one,
      if its account is indexed, of unchanged length and with faithful markers. */
  ghost predicate Faithful(images: Images, op: Op) {
    match op
    case Remove(_) => true
    case Insert(k, image) => ImageOf(k, image)
    case Update(k, image, ownerDirty, dirty) =>
      && ImageOf(k, image)
      && (k in images ==>
            && |images[k]| == |image| && images[k][0].Head?
            && (TagOf(image[0].owner) != TagOf(images[k][0].owner) ==> ownerDirty)
            && (ownerDirty ==> dirty) && (!dirty ==> image == images[k]))
  }

  ghost predicate AllFaithful(images: Images, ops: seq<Op>)
    decreases |ops|
  {
    ops == [] || (Faithful(images, ops[0]) && AllFaithful(Applied(images, ops[0]), ops[1..]))
  }

  /** A committed batch of upserts, or a packing pass. */
  datatype Command = Batch(ops: seq<Op>) | Pass

  /** The images after a run of commands: packing changes none of them. */
  function Performed(images: Images, commands: seq<Command>): Images
    decreases |commands|
  {
    if commands == [] then images
    else Performed(if commands[0].Batch? then AppliedAll(images, commands[0].ops) else images, commands[1..])
  }

  /** How many fresh units a run of commands can need. */
  function TotalDemand(commands: seq<Command>): nat {
    if commands == [] then 0
    else (if commands[0].Batch? then Demand(commands[0].ops) else 0) + TotalDemand(commands[1..])
  }

  ghost predicate CommandsFaithful(images: Images, commands: seq<Command>)
    decreases |commands|
  {
    commands == [] ||
    if commands[0].Pass? then CommandsFaithful(images, commands[1..])
    else AllFaithful(images, commands[0].ops) && CommandsFaithful(AppliedAll(images, commands[0].ops), commands[1..])
  }

  /** No image fits a run of adjacent holes wholly below it. */
  ghost predicate Settled(units: seq<Unit>, accounts: map<Pubkey, Entry>, free: set<Span>, holes: seq<Span>,
                          runs: seq<Run>) {
    && Ascending(holes) && (forall h :: h in free <==> h in holes) && RunsSound(holes, runs)
    && forall k, r :: k in accounts && 0 <= r < |runs| ==>
         accounts[k].offset < runs[r].End() || !Fits(runs[r].units, SpanAt(units, accounts[k].offset).units)
  }

  /** The accounts whose images name an owner with the same tail. */
  function ProgramOf(images: Images, owner: Pubkey): set<Pubkey> {
    set k | k in images && images[k] != [] && images[k][0].Head? && images[k][0].owner.tail == owner.tail
  }

  /** An account's offset is where its image starts, and nobody else's. */
  lemma StoredUnder(units: seq<Unit>, n: nat, accounts: map<Pubkey, Entry>, free: set<Span>, k: Pubkey)
    requires Tiled(units, n, accounts, free) && n <= |units| && k in accounts
    ensures accounts[k].offset < |units| && units[accounts[k].offset].Head?
    ensures units[accounts[k].offset].pubkey == k && DistinctOffsets(accounts)
  {
    hide LiveDisjoint, FreeApart, AllCovered, FreeSound;
    OffsetsAreDistinct(units, n, accounts);
    assert ImageAt(units, n, k, accounts[k]);
  }

  lemma FoundIsProgram(units: seq<Unit>, n: nat, accounts: map<Pubkey, Entry>, free: set<Span>, owner: Pubkey,
                       found: set<Pubkey>)
    requires Tiled(units, n, accounts, free) && n <= |units|
    requires forall k :: k in found <==> k in accounts && accounts[k].owner == TagOf(owner)
    ensures found == ProgramOf(Contents(units, accounts), owner)
  {
    hide Tiled, Contents;
    var images := Contents(units, accounts);
    forall k ensures k in found <==> k in ProgramOf(images, owner) {
      ContentsKeys(units, accounts);
      if k in accounts {
        StoredHead(units, n, accounts, free, k);
      }
    }
  }

  class PersistedStore {
    const storage: array<Unit>
    var cursor: nat
    var len: nat
    var accounts: map<Pubkey, Entry>
    var programs: set<(Tag, Offset)>
    var freelist: set<Span>

    /** Live images and free spans tile the allocated region, the owner index is
        the one recomputed from the accounts, and the file covers the cursor. */
    ghost predicate Valid()
      reads this, storage
    {
      && storage.Length == STORAGE_CAPACITY && cursor <= storage.Length && Bytes(cursor) <= len
      && Tiled(storage[..], cursor, accounts, freelist)
      && programs == OwnerIndex(accounts)
    }

    ghost function Images(): Images
      reads this, storage
    {
      Contents(storage[..], accounts)
    }

    constructor ()
      ensures Valid() && fresh(storage) && Images() == map[] && cursor == 0
    {
      storage := new Unit[STORAGE_CAPACITY];
      cursor, len := 0, INIT_STORAGE_SIZE;
      accounts, programs, freelist := map[], {}, {};
    }

    // ---------------------------------------------------------------- Allocation

    /** Grows the file to at least `needed` bytes, in whole blocks. */
    method Grow(needed: nat) returns (ok: bool)
      modifies this`len
      ensures ok <==> Rounded(needed) <= MMAP_SIZE
      ensures ok ==> needed <= len && len == if old(len) < Rounded(needed) then Rounded(needed) else old(len)
      ensures !ok ==> len == old(len)
    {
      var rounded := Rounded(needed);
      if rounded > MMAP_SIZE {
        return false;
      }
      if len < rounded {
        len := rounded;
      }
      return true;
    }

    /** Allocates a fresh span at the cursor, failing only past the capacity. */
    method Allocate(units: nat) returns (offset: Option<Offset>)
      requires cursor <= STORAGE_CAPACITY && Bytes(cursor) <= len
      modifies this`cursor, this`len
      ensures offset.None? <==> old(cursor) + units > STORAGE_CAPACITY
      ensures offset.None? ==> cursor == old(cursor) && len == old(len)
      ensures offset.Some? ==> offset.value == old(cursor) && cursor == old(cursor) + units && Bytes(cursor) <= len
      ensures offset.Some? ==> 256 + 8 * cursor <= len
      ensures offset.Some? ==> len == if 256 + 8 * cursor <= old(len) then old(len) else Rounded(Bytes(cursor))
    {
      var end := cursor + units;
      if end > STORAGE_CAPACITY {
        return None;
      }
      if Bytes(end) > len {
        GrowFits(end);
        var grown := Grow(Bytes(end));
        assert grown;
      }
      offset := Some(cursor);
      cursor := end;
    }

    /** Takes some free span of exactly `units`, when there is one. */
    method TakeFree(units: nat) returns (offset: Option<Offset>)
      modifies this`freelist
      ensures offset.None? <==> forall h :: h in old(freelist) ==> h.units != units
      ensures offset.None? ==> freelist == old(freelist)
      ensures offset.Some? ==>
                Span(offset.value, units) in old(freelist) && freelist == old(freelist) - {Span(offset.value, units)}
    {
      var same := set h | h in freelist && h.units == units;
      if same == {} {
        assert forall h :: h in freelist && h.units == units ==> h in same;
        return None;
      }
      var taken :| taken in same;
      assert taken == Span(taken.offset, units);
      freelist := freelist - {taken};
      offset := Some(taken.offset);
    }

    /** Reserves a span for an image: a freed one if one fits exactly, else a
        fresh one. */
    method Reserve(units: nat) returns (offset: Option<Offset>)
      requires Valid() && units > 0
      modifies this`freelist, this`cursor, this`len
      ensures offset.None? <==>
              (forall h :: h in old(freelist) ==> h.units != units) && old(cursor) + units > STORAGE_CAPACITY
      ensures offset.None? ==> Valid() && freelist == old(freelist) && cursor == old(cursor) && len == old(len)
      ensures cursor <= storage.Length && Bytes(cursor) <= len && cursor <= old(cursor) + units
      ensures offset.Some? ==> TiledBut(storage[..], cursor, accounts, freelist, Span(offset.value, units))
    {
      offset := TakeFree(units);
      if offset.Some? {
        ReserveFree(storage[..], cursor, accounts, old(freelist), Span(offset.value, units));
        return;
      }
      offset := Allocate(units);
      if offset.Some? {
        ReserveFresh(storage[..], old(cursor), accounts, freelist, units);
      }
    }

    // ---------------------------------------------------------------- Program lookup

    /** The keys the owner index yields for an owner, read from the heads of their
        images. The index keeps the tail of an owner, and nothing compares the rest. */
    method Program(owner: Pubkey) returns (found: set<Pubkey>)
      requires Valid()
      ensures found == ProgramOf(Images(), owner)
    {
      hide Tiled, ProgramOf, Contents;
      found := {};
      var offsets := set p | p in programs && p.0 == TagOf(owner) :: p.1;
      var rest := offsets;
      forall k | k in accounts && accounts[k].owner == TagOf(owner) ensures accounts[k].offset in offsets {
        assert (accounts[k].owner, accounts[k].offset) in OwnerIndex(accounts);
      }
      while rest != {}
        invariant rest <= offsets
        invariant forall k :: k in found <==>
                    k in accounts && accounts[k].owner == TagOf(owner) && accounts[k].offset !in rest
        decreases |rest|
      {
        var o :| o in rest;
        assert (TagOf(owner), o) in OwnerIndex(accounts);
        ghost var k :| k in accounts && accounts[k].offset == o;
        StoredUnder(storage[..], cursor, accounts, freelist, k);
        found := found + {storage[o].pubkey};
        rest := rest - {o};
      }
      FoundIsProgram(storage[..], cursor, accounts, freelist, owner, found);
    }

    // ---------------------------------------------------------------- Upserts

    /** Drops an account, if present, and returns its span to the freelist. */
    method Release(k: Pubkey, ghost gap: Span)
      requires TiledBut(storage[..], cursor, accounts, freelist, gap) && programs == OwnerIndex(accounts)
      modifies this`accounts, this`programs, this`freelist
      ensures TiledBut(storage[..], cursor, accounts, freelist, gap) && programs == OwnerIndex(accounts)
      ensures accounts == old(accounts) - {k}
      ensures freelist ==
              old(freelist) + if k in old(accounts) then {SpanAt(storage[..], old(accounts)[k].offset)} else {}
    {
      if k in accounts {
        var e := accounts[k];
        OffsetsAreDistinct(storage[..], cursor, accounts);
        IndexAfterDelete(accounts, k);
        ReleaseKeeps(storage[..], cursor, accounts, freelist, gap, k);
        assert ImageAt(storage[..], cursor, k, e);
        accounts := accounts - {k};
        programs := programs - {(e.owner, e.offset)};
        freelist := freelist + {SpanAt(storage[..], e.offset)};
      } else {
        assert accounts == accounts - {k};
      }
    }

    /** Removes a persisted image and frees its span. */
    method Delete(k: Pubkey)
      requires Valid()
      modifies this`accounts, this`programs, this`freelist
      ensures Valid() && Images() == old(Images()) - {k}
    {
      TiledHasNoGap(storage[..], cursor, accounts, freelist);
      DropContents(storage[..], accounts, k);
      Release(k, NO_GAP);
      NoGapIsTiled(storage[..], cursor, accounts, freelist);
    }

    /** Writes an image in place. */
    method Write(offset: Offset, image: seq<Unit>)
      requires offset + |image| <= storage.Length
      modifies storage
      ensures Written(old(storage[..]), storage[..], offset, image)
    {
      forall i | 0 <= i < |image| {
        storage[offset + i] := image[i];
      }
      assert storage[..][offset..offset + |image|] == image;
    }

    /** Serializes an owned image into a reserved span and indexes it. */
    method Insert(k: Pubkey, image: seq<Unit>) returns (ok: bool)
      requires Valid() && ImageOf(k, image)
      modifies this, storage
      ensures ok <==>
              (exists h :: h in old(freelist) && h.units == |image|) || old(cursor) + |image| <= STORAGE_CAPACITY
      ensures Valid() && Images() == if ok then old(Images())[k := image] else old(Images())
      ensures cursor <= old(cursor) + |image|
    {
      var offset := Reserve(|image|);
      if offset.None? {
        return false;
      }
      ghost var gap := Span(offset.value, |image|);
      Release(k, gap);
      ghost var units, rest := storage[..], accounts;
      var e := Entry(TagOf(image[0].owner), offset.value);
      IndexAfterInsert(accounts, k, e);
      accounts := accounts[k := e];
      programs := programs + {(e.owner, e.offset)};
      Write(offset.value, image);
      FillKeeps(units, cursor, rest, freelist, gap, k, image, storage[..]);
      DropContents(units, old(accounts), k);
      PutAfterDrop(Contents(units, old(accounts)), k, image);
      return true;
    }

    /** Commits a borrowed image in place, moving its owner mapping if marked. */
    method Update(k: Pubkey, image: seq<Unit>, ownerDirty: bool, dirty: bool)
      requires Valid() && Faithful(Images(), Op.Update(k, image, ownerDirty, dirty))
      modifies this`accounts, this`programs, storage
      ensures Valid() && Images() == Applied(old(Images()), Op.Update(k, image, ownerDirty, dirty))
    {
      hide Tiled, Contents, OwnerIndex, DistinctOffsets, Written, ImageOf;
      ContentsKeys(storage[..], accounts);
      if k !in accounts {
        return;
      }
      ghost var units, before := storage[..], accounts;
      StoredHead(units, cursor, accounts, freelist, k);
      ImageHasHead(k, image);
      if ownerDirty {
        Reindex(k, TagOf(image[0].owner));
      }
      if !dirty {
        assert old(Images())[k := image] == old(Images());
        return;
      }
      assert accounts == before[k := Entry(TagOf(image[0].owner), before[k].offset)];
      Write(accounts[k].offset, image);
      OverwriteKeeps(units, cursor, before, freelist, k, image, storage[..]);
    }

    /** Moves an account entry to a new owner, keeping its offset. */
    method Reindex(k: Pubkey, owner: Tag)
      requires k in accounts && DistinctOffsets(accounts) && programs == OwnerIndex(accounts)
      modifies this`accounts, this`programs
      ensures accounts == old(accounts)[k := Entry(owner, old(accounts)[k].offset)]
      ensures programs == OwnerIndex(accounts)
    {
      hide OwnerIndex;
      var e := Entry(owner, accounts[k].offset);
      IndexAfterChange(accounts, k, e);
      programs := programs - {(accounts[k].owner, accounts[k].offset)};
      accounts := accounts[k := e];
      programs := programs + {(e.owner, e.offset)};
    }

    /** Applies one account state transition. */
    method Apply(op: Op) returns (ok: bool)
      requires Valid() && Faithful(Images(), op)
      modifies this, storage
      ensures Valid() && Images() == if ok then Applied(old(Images()), op) else old(Images())
      ensures cursor <= old(cursor) + Needed(op) && (!ok ==> old(cursor) + Needed(op) > STORAGE_CAPACITY)
    {
      match op
      case Remove(k) =>
        Delete(k);
        ok := true;
      case Update(k, image, ownerDirty, dirty) =>
        Update(k, image, ownerDirty, dirty);
        ok := true;
      case Insert(k, image) =>
        ok := Insert(k, image);
    }

    /** Applies a batch in order, stopping at the first failure. */
    method Upsert(ops: seq<Op>) returns (ok: bool)
      requires Valid() && AllFaithful(Images(), ops)
      modifies this, storage
      ensures ok ==> Valid() && Images() == AppliedAll(old(Images()), ops)
      ensures ok ==> cursor <= old(cursor) + Demand(ops)
      ensures old(cursor) + Demand(ops) <= STORAGE_CAPACITY ==> ok
    {
      var i := 0;
      while i < |ops|
        invariant 0 <= i <= |ops| && Valid() && cursor + Demand(ops[i..]) <= old(cursor) + Demand(ops)
        invariant AllFaithful(Images(), ops[i..])
        invariant AppliedAll(Images(), ops[i..]) == AppliedAll(old(Images()), ops)
      {
        assert ops[i..][0] == ops[i] && ops[i..][1..] == ops[i + 1..];
        ok := Apply(ops[i]);
        if !ok {
          return;
        }
        i := i + 1;
      }
      return true;
    }

    // ---------------------------------------------------------------- Packing

    /** Captures the layout and plans moves from the tail into earlier holes. */
    method PlanPass() returns (holes: seq<Span>, runs: seq<Run>, moves: seq<Move>, ghost plan: Plan)
      requires Valid()
      ensures plan.holes == holes && plan.runs == runs && plan.moves == moves
      ensures Planned(storage[..], cursor, accounts, freelist, plan)
      ensures moves == [] ==> runs == plan.before && Settled(storage[..], accounts, freelist, holes, runs)
    {
      hide LiveDisjoint, FreeSound, FreeApart, AllCovered, PlanSound, RunsSound, Ascending, OwnerIndex;
      holes := SortHoles(cursor, freelist);
      var offsets := if holes == [] then {} else set k | k in accounts :: accounts[k].offset;
      var sorted := SortOffsets(offsets);
      var before := GroupRuns(holes);
      RunsOrdered(holes, before);
      forall i | 0 <= i < |sorted| ensures SpanAt(storage[..], sorted[i]).units > 0 {
        assert sorted[i] in sorted && sorted[i] in offsets;
        var k := KeyAt(accounts, sorted[i]);
        assert ImageAt(storage[..], cursor, k, accounts[k]);
      }
      ghost var into;
      runs, moves, into := Pack(storage[..], sorted, before);
      assert forall m :: 0 <= m < |moves| ==> moves[m].src in offsets;
      ghost var keys := KeysOf(accounts, moves);
      plan := Plan(holes, before, runs, moves, into, keys);
      if holes == [] {
        NoHolesNoRuns(before);
      }
      if moves == [] && holes != [] {
        forall k, r | k in accounts && 0 <= r < |runs|
          ensures accounts[k].offset < runs[r].End() ||
                  !Fits(runs[r].units, SpanAt(storage[..], accounts[k].offset).units)
        {
          assert accounts[k].offset in offsets;
          var a :| 0 <= a < |sorted| && sorted[a] == accounts[k].offset;
        }
      }
    }

    /** Copies the images of a plan, in plan order. */
    method CopyMoves(moves: seq<Move>, ghost plan: Plan)
      requires storage.Length >= cursor && Planned(storage[..], cursor, accounts, freelist, plan) && plan.moves == moves
      modifies storage
      ensures Copied(old(storage[..]), storage[..], moves, |moves|)
    {
      hide Planned, Copied, Written, Untargeted, TargetsApart;
      ghost var units := storage[..];
      PlanTargetsApart(units, cursor, accounts, freelist, plan);
      NothingCopied(units, moves);
      var i := 0;
      while i < |moves|
        invariant 0 <= i <= |moves| && Copied(units, storage[..], moves, i)
      {
        ghost var mid := storage[..];
        MoveBounds(units, cursor, accounts, freelist, plan, i);
        var move := moves[i];
        Write(move.dst, storage[move.src..move.src + move.units]);
        CopyStep(units, mid, storage[..], moves, i);
        i := i + 1;
      }
    }

    /** Rewrites the index entry of every moved account, in plan order. */
    method RelocateMoves(moves: seq<Move>, ghost units: seq<Unit>, ghost plan: Plan)
      requires cursor <= |units| == storage.Length && Planned(units, cursor, accounts, freelist, plan) &&
               plan.moves == moves
      requires Copied(units, storage[..], moves, |moves|) && programs == OwnerIndex(accounts)
      modifies this`accounts, this`programs
      ensures Moved(old(accounts), accounts, moves, |moves|) && programs == OwnerIndex(accounts)
    {
      ghost var before := accounts;
      hide Planned, Copied, Moved, DistinctOffsets, OwnerIndex;
      NothingRelocated(units, cursor, accounts, freelist, plan);
      var i := 0;
      while i < |moves|
        invariant 0 <= i <= |moves| && Relocated(before, accounts, moves, i) && programs == OwnerIndex(accounts)
      {
        RelocateNext(moves, i, before, units, plan);
        i := i + 1;
      }
    }

    /** Relocates the account of one move, read from its intact source. */
    method RelocateNext(moves: seq<Move>, i: nat, ghost before: map<Pubkey, Entry>, ghost units: seq<Unit>,
                        ghost plan: Plan)
      requires cursor <= |units| == storage.Length && Planned(units, cursor, before, freelist, plan) &&
               plan.moves == moves
      requires Copied(units, storage[..], moves, |moves|) && programs == OwnerIndex(accounts)
      requires i < |moves| && Relocated(before, accounts, moves, i)
      modifies this`accounts, this`programs
      ensures Relocated(before, accounts, moves, i + 1) && programs == OwnerIndex(accounts)
    {
      SourceNames(units, cursor, before, freelist, plan, storage[..], i);
      RelocateStep(units, cursor, before, freelist, plan, accounts, i);
      var src := moves[i].src;
      Relocate(storage[src].pubkey, src, Entry(TagOf(storage[src].owner), moves[i].dst));
    }

    /** Moves an account entry to a new offset, keeping its owner. */
    method Relocate(k: Pubkey, src: Offset, e: Entry)
      requires DistinctOffsets(accounts) && programs == OwnerIndex(accounts)
      requires k in accounts && accounts[k] == Entry(e.owner, src)
      modifies this`accounts, this`programs
      ensures accounts == old(accounts)[k := e] && programs == OwnerIndex(accounts)
    {
      IndexAfterChange(accounts, k, e);
      accounts := accounts[k := e];
      programs := programs - {(e.owner, src)};
      programs := programs + {(e.owner, e.offset)};
    }

    /** Publishes what is left of the holes and the vacated sources. */
    method Publish(holes: seq<Span>, runs: seq<Run>, moves: seq<Move>, tail: Offset, ghost plan: Plan)
      requires Shaped(plan) && plan.holes == holes && plan.runs == runs && plan.moves == moves
      requires forall h :: h in freelist <==> h in holes
      requires forall m :: 0 <= m < |moves| ==> moves[m].Source().End() <= tail || tail <= moves[m].src
      modifies this`freelist
      ensures Published(plan, tail, freelist)
    {
      hide Shaped, Rewritten, IsPiece, IsVacated;
      NothingRewritten(holes, runs, tail, freelist);
      RunsMeet(plan);
      var r := 0;
      ghost var done := 0;
      while r < |runs|
        invariant 0 <= r <= |runs| && done == (if r < |runs| then runs[r].first else |holes|)
        invariant Rewritten(holes, runs, tail, done, freelist)
      {
        RewriteRun(holes, runs, r, tail, plan);
        done := runs[r].last;
        r := r + 1;
      }
      AllRewritten(plan, tail, freelist);
      NothingVacated(tail);
      var m := 0;
      while m < |moves|
        invariant 0 <= m <= |moves|
        invariant forall s :: s in freelist <==> IsPiece(holes, runs, tail, s) || IsVacated(moves[..m], tail, s)
      {
        VacatedSplit(moves, m, tail);
        if moves[m].src < tail {
          var end := if moves[m].Source().End() < tail then moves[m].Source().End() else tail;
          freelist := freelist + {Span(moves[m].src, end - moves[m].src)};
        }
        m := m + 1;
      }
      assert moves[..m] == moves;
    }

    /** Rewrites the holes of one run. */
    method RewriteRun(holes: seq<Span>, runs: seq<Run>, r: nat, tail: Offset, ghost plan: Plan)
      requires Shaped(plan) && plan.holes == holes && plan.runs == runs && r < |runs|
      requires Rewritten(holes, runs, tail, runs[r].first, freelist)
      modifies this`freelist
      ensures Rewritten(holes, runs, tail, runs[r].last, freelist)
    {
      hide Shaped;
      RunsMeet(plan);
      var h := runs[r].first;
      while h < runs[r].last
        invariant runs[r].first <= h <= runs[r].last <= |holes|
        invariant Rewritten(holes, runs, tail, h, freelist)
      {
        ghost var before := freelist;
        var piece := Piece(holes[h], runs[r], tail);
        if piece != holes[h] {
          freelist := freelist - {holes[h]};
          if piece.units > 0 {
            freelist := freelist + {piece};
          }
        }
        RewriteStep(plan, tail, r, h, before, freelist);
        h := h + 1;
      }
    }

    /** One committed packing pass. It keeps every image, and reaches a tight
        cursor; it changes nothing only when no image fits any lower run. */
    method Defragment() returns (moved: nat, reclaimed: nat)
      requires Valid()
      modifies this, storage
      ensures Valid() && Images() == old(Images()) && accounts.Keys == old(accounts).Keys
      ensures forall k :: k in accounts ==> accounts[k].owner == old(accounts)[k].owner
      ensures moved == |Relocations(old(accounts), accounts)|
      ensures cursor + reclaimed == old(cursor) && (cursor > 0 ==> LiveUnit(storage[..], accounts, cursor - 1))
      ensures moved == 0 && reclaimed == 0 ==> accounts == old(accounts) && freelist == old(freelist) && NothingToPack()
      ensures moved > 0 || reclaimed > 0 ==>
                OffsetSum(accounts.Keys, accounts) + cursor < old(OffsetSum(accounts.Keys, accounts) + cursor)
    {
      hide Planned, Settled, Tiled, Contents, OwnerIndex;
      var holes, runs, moves, plan := PlanPass();
      var tail := NewTail(runs, moves, plan);
      moved, reclaimed := |moves|, cursor - tail;
      if moved == 0 && reclaimed == 0 {
        if cursor > 0 {
          NothingMoves(storage[..], cursor, accounts, freelist, plan, cursor - 1);
        }
        return;
      }
      Execute(holes, runs, moves, tail, plan);
      if reclaimed > 0 {
        Shrink(tail);
      }
    }

    /** The tail the plan will publish. */
    method NewTail(runs: seq<Run>, moves: seq<Move>, ghost plan: Plan) returns (tail: Offset)
      requires Planned(storage[..], cursor, accounts, freelist, plan) && plan.runs == runs && plan.moves == moves
      ensures TightTail(plan, cursor, tail)
    {
      hide Planned;
      VacantSpans(storage[..], cursor, accounts, freelist, plan);
      tail := CompactedTail(runs, moves, cursor);
    }

    /** Copies the plan and publishes all index and freelist changes. */
    method Execute(holes: seq<Span>, runs: seq<Run>, moves: seq<Move>, tail: Offset, ghost plan: Plan)
      requires plan.holes == holes && plan.runs == runs && plan.moves == moves && cursor <= storage.Length
      requires Planned(storage[..], cursor, accounts, freelist, plan) && TightTail(plan, cursor, tail)
      requires programs == OwnerIndex(accounts)
      modifies this`accounts, this`programs, this`freelist, storage
      ensures Tiled(storage[..], tail, accounts, freelist) && programs == OwnerIndex(accounts)
      ensures Images() == old(Images()) && accounts.Keys == old(accounts).Keys
      ensures |Relocations(old(accounts), accounts)| == |moves|
      ensures forall k :: k in accounts ==> accounts[k].owner == old(accounts)[k].owner
      ensures tail > 0 ==> LiveUnit(storage[..], accounts, tail - 1)
      ensures OffsetSum(accounts.Keys, accounts) <= old(OffsetSum(accounts.Keys, accounts))
      ensures moves != [] ==> OffsetSum(accounts.Keys, accounts) < old(OffsetSum(accounts.Keys, accounts))
    {
      hide Planned, Tiled, Copied, Moved, Published;
      ghost var units, n, accounts0, free0 := storage[..], cursor, accounts, freelist;
      PlanIsShaped(units, n, accounts, freelist, plan);
      CopyMoves(moves, plan);
      RelocateMoves(moves, units, plan);
      Publish(holes, runs, moves, tail, plan);
      PassOutcome(units, n, accounts0, free0, plan, storage[..], tail, accounts, freelist);
    }

    /** Shrinks the file to the new cursor. */
    method Shrink(tail: Offset)
      requires tail <= cursor && Bytes(cursor) <= len
      modifies this`cursor, this`len
      ensures cursor == tail && len == Bytes(tail) == 256 + 8 * tail
    {
      if len > Bytes(tail) {
        len := Bytes(tail);
      }
      cursor := tail;
    }

    /** No live image can move into a run of adjacent holes wholly below it. */
    ghost predicate NothingToPack()
      reads this, storage
    {
      exists holes: seq<Span>, runs: seq<Run> :: Settled(storage[..], accounts, freelist, holes, runs)
    }

    /** Over every run of committed batches and packing passes, images and free
        spans tile the allocated region, the owner index is the recomputed one, and
        the images are those of the batches alone. */
    method Perform(commands: seq<Command>) returns (ok: bool)
      requires Valid() && CommandsFaithful(Images(), commands)
      modifies this, storage
      ensures ok ==> Valid() && Images() == Performed(old(Images()), commands)
      ensures old(cursor) + TotalDemand(commands) <= STORAGE_CAPACITY ==> ok
    {
      hide AppliedAll, AllFaithful, Demand, Tiled, Contents, OwnerIndex, OffsetSum, LiveUnit, Settled;
      var i := 0;
      while i < |commands|
        invariant 0 <= i <= |commands| && Valid() && CommandsFaithful(Images(), commands[i..])
        invariant cursor + TotalDemand(commands[i..]) <= old(cursor) + TotalDemand(commands)
        invariant Performed(Images(), commands[i..]) == Performed(old(Images()), commands)
      {
        assert commands[i..][0] == commands[i] && commands[i..][1..] == commands[i + 1..];
        if commands[i].Pass? {
          var moved, reclaimed := Defragment();
        } else {
          ok := Upsert(commands[i].ops);
          if !ok {
            return;
          }
        }
        i := i + 1;
      }
      return true;
    }

    /** Packs until a pass changes nothing; returns the units reclaimed. */
    method Compact() returns (reclaimed: nat)
      requires Valid()
      modifies this, storage
      ensures Valid() && Images() == old(Images()) && reclaimed == old(cursor) - cursor
      ensures NothingToPack() && (cursor > 0 ==> LiveUnit(storage[..], accounts, cursor - 1))
    {
      reclaimed := 0;
      while true
        invariant Valid() && Images() == old(Images()) && reclaimed == old(cursor) - cursor
        decreases OffsetSum(accounts.Keys, accounts) + cursor
      {
        var moved, units := Defragment();
        reclaimed := reclaimed + units;
        if moved == 0 && units == 0 {
          break;
        }
      }
    }
  }

  lemma ImageHasHead(k: Pubkey, image: seq<Unit>)
    requires ImageOf(k, image)
    ensures image != [] && image[0].Head?
  {
  }

  lemma NoHolesNoRuns(runs: seq<Run>)
    requires RunsSound([], runs)
    ensures runs == []
  {
  }

  ghost predicate Indexed(accounts: map<Pubkey, Entry>, o: Offset) {
    exists k :: k in accounts && accounts[k].offset == o
  }

  /** The account stored at an indexed offset. */
  ghost function KeyAt(accounts: map<Pubkey, Entry>, o: Offset): (k: Pubkey)
    requires Indexed(accounts, o)
    ensures k in accounts && accounts[k].offset == o
  {
    var k :| k in accounts && accounts[k].offset == o;
    k
  }

  /** The accounts named by the moves' sources. */
  ghost function KeysOf(accounts: map<Pubkey, Entry>, moves: seq<Move>): (keys: seq<Pubkey>)
    requires forall m :: 0 <= m < |moves| ==> Indexed(accounts, moves[m].src)
    ensures KeysName(accounts, moves, keys)
  {
    seq(|moves|, m requires 0 <= m < |moves| => KeyAt(accounts, moves[m].src))
  }

  lemma PlanTargetsApart(units: seq<Unit>, n: nat, accounts: map<Pubkey, Entry>, free: set<Span>, p: Plan)
    requires Planned(units, n, accounts, free, p)
    ensures TargetsApart(p.moves)
  {
    hide Tiled, RunsSound, Ascending, MoveSound, Filled;
  }

  lemma NothingCopied(units: seq<Unit>, moves: seq<Move>)
    ensures Copied(units, units, moves, 0)
  {
  }

  lemma MoveBounds(units: seq<Unit>, n: nat, accounts: map<Pubkey, Entry>, free: set<Span>, p: Plan, i: nat)
    requires Planned(units, n, accounts, free, p) && i < |p.moves| && n <= |units|
    ensures p.moves[i].Source().End() <= n && p.moves[i].Target().End() <= n && p.moves[i].units > 0
    ensures Untargeted(p.moves[i].Source(), p.moves) && Disjoint(p.moves[i].Source(), p.moves[i].Target())
    ensures p.moves[i].Source() == SpanAt(units, accounts[p.keys[i]].offset)
  {
    assert MoveSound(units, p.before, p.runs, p.moves[i], p.into[i]);
    assert ImageAt(units, n, p.keys[i], accounts[p.keys[i]]);
    LiveIsNotTarget(units, n, accounts, free, p, p.keys[i]);
  }

  /** A copied source still names its account and owner. */
  lemma SourceNames(units: seq<Unit>, n: nat, accounts: map<Pubkey, Entry>, free: set<Span>, p: Plan,
                    units': seq<Unit>, i: nat)
    requires Planned(units, n, accounts, free, p) && i < |p.moves| && n <= |units|
    requires Copied(units, units', p.moves, |p.moves|)
    ensures p.moves[i].src < |units'| && units'[p.moves[i].src].Head?
    ensures units'[p.moves[i].src].pubkey == p.keys[i]
    ensures TagOf(units'[p.moves[i].src].owner) == accounts[p.keys[i]].owner
  {
    MoveBounds(units, n, accounts, free, p, i);
    var src, end := p.moves[i].src, p.moves[i].Source().End();
    SourceIntact(units, units', p.moves, |p.moves|, i);
    assert units'[src..end][0] == units[src..end][0];
    assert ImageAt(units, n, p.keys[i], accounts[p.keys[i]]);
  }

  lemma VacatedSplit(moves: seq<Move>, m: nat, tail: Offset)
    requires m < |moves|
    ensures forall s :: IsVacated(moves[..m + 1], tail, s) <==>
              IsVacated(moves[..m], tail, s) || (moves[m].src < tail && s == moves[m].Source())
  {
    forall s ensures IsVacated(moves[..m + 1], tail, s) <==>
              IsVacated(moves[..m], tail, s) || (moves[m].src < tail && s == moves[m].Source())
    {
      VacatedOneMore(moves[..m], moves[m], tail, s);
      assert moves[..m] + [moves[m]] == moves[..m + 1];
    }
  }

  lemma NothingVacated(tail: Offset)
    ensures forall s :: !IsVacated([], tail, s)
  {
  }

  lemma VacatedOneMore(moves: seq<Move>, move: Move, tail: Offset, s: Span)
    ensures IsVacated(moves + [move], tail, s) <==>
            IsVacated(moves, tail, s) || (move.src < tail && s == move.Source())
  {
    var more := moves + [move];
    assert more[|moves|] == move;
    if IsVacated(more, tail, s) {
      var m :| 0 <= m < |more| && more[m].src < tail && s == more[m].Source();
      assert m < |moves| ==> moves[m] == more[m];
    }
    if IsVacated(moves, tail, s) {
      var m :| 0 <= m < |moves| && moves[m].src < tail && s == moves[m].Source();
      assert more[m] == moves[m];
    }
  }

  /** With nothing to move, a unit that is not free afterwards is live. */
  lemma NothingMoves(units: seq<Unit>, n: nat, accounts: map<Pubkey, Entry>, free: set<Span>, p: Plan, x: nat)
    requires Planned(units, n, accounts, free, p) && p.runs == p.before && x < n && !FreeAfter(p.runs, p.moves, x)
    ensures LiveUnit(units, accounts, x)
  {
    if FreeUnit(free, x) {
      PlanIsShaped(units, n, accounts, free, p);
      FreeStaysFree(free, p, x);
    }
  }

  lemma FreeStaysFree(free: set<Span>, p: Plan, x: nat)
    requires Shaped(p) && (forall h :: h in free <==> h in p.holes) && p.runs == p.before && FreeUnit(free, x)
    ensures FreeAfter(p.runs, p.moves, x)
  {
    hide Shaped, FreeAfter;
    var h :| h in free && Within(x, h);
    var i :| 0 <= i < |p.holes| && p.holes[i] == h;
    var r := RunHolding(p, i);
    HoleEndsInRun(p, r, i);
    WithinRun(p.runs, p.moves, r, h);
  }

  lemma RunHolding(p: Plan, i: nat) returns (r: nat)
    requires Shaped(p) && i < |p.holes|
    ensures r < |p.before| && p.before[r].first <= i < p.before[r].last
  {
    hide Groups, Ascending, Consumed;
    r := RunOf(p.holes, p.before, |p.before|, i);
  }

  /** The index midway through relocation. */
  ghost predicate Relocated(before: map<Pubkey, Entry>, after: map<Pubkey, Entry>, moves: seq<Move>, i: nat)
    requires i <= |moves|
  {
    Moved(before, after, moves, i) && DistinctOffsets(before) && DistinctOffsets(after)
  }

  lemma NothingRelocated(units: seq<Unit>, n: nat, accounts: map<Pubkey, Entry>, free: set<Span>, p: Plan)
    requires Planned(units, n, accounts, free, p)
    ensures Relocated(accounts, accounts, p.moves, 0)
  {
  }

  lemma RelocateStep(units: seq<Unit>, n: nat, before: map<Pubkey, Entry>, free: set<Span>, p: Plan,
                     mid: map<Pubkey, Entry>, i: nat)
    requires Planned(units, n, before, free, p) && i < |p.moves| && Relocated(before, mid, p.moves, i)
    ensures p.keys[i] in mid && mid[p.keys[i]] == Entry(before[p.keys[i]].owner, p.moves[i].src)
    ensures Relocated(before, mid[p.keys[i] := Entry(before[p.keys[i]].owner, p.moves[i].dst)], p.moves, i + 1)
  {
    var k := p.keys[i];
    MoveStep(before, mid, p.moves, i, k);
    forall a | a in mid ensures mid[a].offset != p.moves[i].dst {
      DestinationUnused(units, n, before, free, p, mid, i, a);
    }
    StillDistinct(mid, k, Entry(before[k].owner, p.moves[i].dst));
  }

  /** The accounts whose images changed place. */
  ghost function Relocations(before: map<Pubkey, Entry>, after: map<Pubkey, Entry>): set<Pubkey> {
    set k | k in before && k in after && after[k].offset != before[k].offset
  }

  /** Every move relocates one account of its own. */
  lemma MovesAreRelocations(units: seq<Unit>, n: nat, accounts: map<Pubkey, Entry>, free: set<Span>, p: Plan,
                            accounts': map<Pubkey, Entry>)
    requires Planned(units, n, accounts, free, p) && Moved(accounts, accounts', p.moves, |p.moves|)
    ensures |Relocations(accounts, accounts')| == |p.moves|
  {
    var moved := set i | 0 <= i < |p.keys| :: p.keys[i];
    forall k | k in accounts ensures k in Relocations(accounts, accounts') <==> k in moved {
      RelocatedIff(units, n, accounts, free, p, accounts', k);
    }
    assert Relocations(accounts, accounts') == moved;
    DistinctCount(p.keys);
  }

  lemma RelocatedIff(units: seq<Unit>, n: nat, accounts: map<Pubkey, Entry>, free: set<Span>, p: Plan,
                     accounts': map<Pubkey, Entry>, k: Pubkey)
    requires Planned(units, n, accounts, free, p) && Moved(accounts, accounts', p.moves, |p.moves|) && k in accounts
    ensures accounts'[k].offset != accounts[k].offset <==> k in p.keys
  {
    hide PlanSound, RunsSound, Ascending, FreeSound, FreeApart, AllCovered, ImagesSound, LiveDisjoint;
    var m := MoveOf(accounts, p.moves, k);
    if m.Some? {
      MoveGoesDown(units, p, m.value);
      SameOffsetSameKey(units, n, accounts, k, p.keys[m.value]);
      assert p.keys[m.value] == k;
    }
  }

  lemma MoveGoesDown(units: seq<Unit>, p: Plan, m: nat)
    requires PlanSound(units, p.before, p.runs, p.moves, p.into) && m < |p.moves|
    ensures p.moves[m].dst < p.moves[m].src
  {
    assert MoveSound(units, p.before, p.runs, p.moves[m], p.into[m]);
  }

  lemma SameOffsetSameKey(units: seq<Unit>, n: nat, accounts: map<Pubkey, Entry>, a: Pubkey, b: Pubkey)
    requires ImagesSound(units, n, accounts) && LiveDisjoint(units, accounts)
    requires a in accounts && b in accounts && accounts[a].offset == accounts[b].offset
    ensures a == b
  {
    OffsetsAreDistinct(units, n, accounts);
  }

  lemma {:induction false} DistinctCount(keys: seq<Pubkey>)
    requires forall i, j :: 0 <= i < j < |keys| ==> keys[i] != keys[j]
    ensures |set i | 0 <= i < |keys| :: keys[i]| == |keys|
  {
    if keys != [] {
      var front, last := keys[..|keys| - 1], keys[|keys| - 1];
      DistinctCount(front);
      var rest := set i | 0 <= i < |front| :: front[i];
      assert last !in rest;
      assert (set i | 0 <= i < |keys| :: keys[i]) == rest + {last} by {
        forall i | 0 <= i < |keys| ensures keys[i] in rest + {last} {
          assert i < |front| ==> keys[i] == front[i];
        }
        forall k | k in rest + {last} ensures k in (set i | 0 <= i < |keys| :: keys[i]) {
          if k in rest {
            var i :| 0 <= i < |front| && front[i] == k;
            assert keys[i] == k;
          } else {
            assert keys[|keys| - 1] == k;
          }
        }
      }
    }
  }

  /** Everything a pass achieves. */
  lemma PassOutcome(units: seq<Unit>, n: nat, accounts: map<Pubkey, Entry>, free: set<Span>, p: Plan,
                    units': seq<Unit>, tail: Offset, accounts': map<Pubkey, Entry>, free': set<Span>)
    requires Passed(units, n, accounts, free, p, units', tail, accounts', free')
    ensures Tiled(units', tail, accounts', free') && Contents(units', accounts') == Contents(units, accounts)
    ensures accounts'.Keys == accounts.Keys && forall k :: k in accounts ==> accounts'[k].owner == accounts[k].owner
    ensures |Relocations(accounts, accounts')| == |p.moves|
    ensures tail > 0 ==> LiveUnit(units', accounts', tail - 1)
    ensures OffsetSum(accounts'.Keys, accounts') <= OffsetSum(accounts.Keys, accounts)
    ensures p.moves != [] ==> OffsetSum(accounts'.Keys, accounts') < OffsetSum(accounts.Keys, accounts)
  {
    PassKeepsTiling(units, n, accounts, free, p, units', tail, accounts', free');
    PassKeepsContents(units, n, accounts, free, p, units', tail, accounts', free');
    PassLowersOffsets(units, n, accounts, free, p, accounts');
    MovesAreRelocations(units, n, accounts, free, p, accounts');
    if tail > 0 {
      TailIsLeast(units, n, accounts, free, p, units', tail, accounts', free');
    }
  }
}
