/** One packing pass as a whole: copying, relocating and publishing keep every
    account's image, tile the shorter region, and reach a tight tail. */
module PackingPass {
  import opened Basics
  import opened Layout
  import opened Packing
  import opened Relocation

  /** The first `k` moves have been copied; every other unit is as at entry. */
  ghost predicate Copied(before: seq<Unit>, after: seq<Unit>, moves: seq<Move>, k: nat)
    requires k <= |moves|
  {
    && |after| == |before|
    && (forall j :: 0 <= j < k ==> CopiedOne(before, after, moves[j]))
    && (forall x :: 0 <= x < |before| && (forall j :: 0 <= j < k ==> !Within(x, moves[j].Target())) ==>
          after[x] == before[x])
  }

  ghost predicate CopiedOne(before: seq<Unit>, after: seq<Unit>, m: Move)
    requires |after| == |before|
  {
    && m.src + m.units <= |before| && m.dst + m.units <= |before|
    && after[m.dst..m.dst + m.units] == before[m.src..m.src + m.units]
  }

  /** The index after relocating the first `k` moves: owners stay, moved images
      have their destination, all others keep their offset. */
  ghost predicate Moved(before: map<Pubkey, Entry>, after: map<Pubkey, Entry>, moves: seq<Move>, k: nat)
    requires k <= |moves|
  {
    && after.Keys == before.Keys
    && forall a :: a in before ==>
         && after[a].owner == before[a].owner
         && (forall m :: 0 <= m < k && moves[m].src == before[a].offset ==> after[a].offset == moves[m].dst)
         && ((forall m :: 0 <= m < k ==> moves[m].src != before[a].offset) ==> after[a].offset == before[a].offset)
  }

  /** What publishing leaves of a hole that belongs to `run`. */
  function Piece(hole: Span, run: Run, tail: Offset): (s: Span)
    ensures s.units > 0 ==>
              hole.offset <= s.offset && run.offset <= s.offset && s.End() <= hole.End() && s.End() <= tail
    ensures forall x: nat :: Within(x, s) <==> Within(x, hole) && run.offset <= x < tail
  {
    var offset := if hole.offset < run.offset then run.offset else hole.offset;
    var end := if hole.End() < tail then hole.End() else tail;
    Span(offset, if offset < end then end - offset else 0)
  }

  ghost predicate IsPiece(holes: seq<Span>, runs: seq<Run>, tail: Offset, s: Span) {
    exists r, h :: 0 <= r < |runs| && runs[r].first <= h < runs[r].last && h < |holes| &&
                   s == Piece(holes[h], runs[r], tail) && s.units > 0
  }

  ghost predicate IsVacated(moves: seq<Move>, tail: Offset, s: Span) {
    exists m :: 0 <= m < |moves| && moves[m].src < tail && s == moves[m].Source()
  }

  /** The published free spans: what is left of the holes, and the sources below
      the new tail. */
  ghost predicate Published(p: Plan, tail: Offset, free: set<Span>) {
    forall s :: s in free <==> IsPiece(p.holes, p.runs, tail, s) || IsVacated(p.moves, tail, s)
  }

  /** What the computed tail guarantees. */
  ghost predicate TightTail(p: Plan, n: nat, tail: Offset) {
    && tail <= n && (forall x :: tail <= x < n ==> FreeAfter(p.runs, p.moves, x))
    && (tail > 0 ==> !FreeAfter(p.runs, p.moves, tail - 1))
    && (forall i :: 0 <= i < |p.runs| && p.runs[i].units > 0 ==> p.runs[i].End() <= tail || tail <= p.runs[i].offset)
    && (forall m :: 0 <= m < |p.moves| ==> p.moves[m].Source().End() <= tail || tail <= p.moves[m].src)
  }

  // ---------------------------------------------------------------- Images

  /** The move of account `a`, or `None`. */
  ghost function MoveOf(accounts: map<Pubkey, Entry>, moves: seq<Move>, a: Pubkey): (r: Option<nat>)
    requires a in accounts
    ensures r.Some? ==> r.value < |moves| && moves[r.value].src == accounts[a].offset
    ensures r.None? ==> forall m :: 0 <= m < |moves| ==> moves[m].src != accounts[a].offset
  {
    if exists m :: 0 <= m < |moves| && moves[m].src == accounts[a].offset then
      var m :| 0 <= m < |moves| && moves[m].src == accounts[a].offset;
      Some(m)
    else
      None
  }

  /** `units'` holds at `dst` the image that `units` holds at `src`. */
  ghost predicate SameImage(units: seq<Unit>, src: Offset, units': seq<Unit>, dst: Offset) {
    var span := SpanAt(units, src).units;
    && 0 < span && src + span <= |units| && dst + span <= |units'|
    && units'[dst..dst + span] == units[src..src + span] && units'[dst] == units[src]
    && SpanAt(units', dst) == Span(dst, span)
  }

  lemma SameSlice(units: seq<Unit>, src: Offset, units': seq<Unit>, dst: Offset, span: nat)
    requires span == SpanAt(units, src).units && 0 < span && src + span <= |units| && dst + span <= |units'|
    requires units'[dst..dst + span] == units[src..src + span]
    ensures SameImage(units, src, units', dst)
  {
  }

  lemma CopiedSlice(units: seq<Unit>, units': seq<Unit>, before: seq<Run>, runs: seq<Run>, m: Move, r: nat)
    requires |units'| == |units| && |runs| == |before|
    requires MoveSound(units, before, runs, m, r) && CopiedOne(units, units', m)
    ensures SameImage(units, m.src, units', m.dst)
  {
  }

  /** No move writes into the span. */
  ghost predicate Untargeted(s: Span, moves: seq<Move>) {
    forall x, j :: Within(x, s) && 0 <= j < |moves| ==> !Within(x, moves[j].Target())
  }

  lemma UntouchedSlice(units: seq<Unit>, units': seq<Unit>, moves: seq<Move>, src: Offset)
    requires Copied(units, units', moves, |moves|)
    requires 0 < SpanAt(units, src).units && SpanAt(units, src).End() <= |units|
    requires Untargeted(SpanAt(units, src), moves)
    ensures SameImage(units, src, units', src)
  {
    var span := SpanAt(units, src).units;
    forall x | src <= x < src + span ensures units'[x] == units[x] {
      assert Within(x, SpanAt(units, src));
    }
    assert units'[src..src + span] == units[src..src + span];
    SameSlice(units, src, units', src, span);
  }

  /** The image of every account survives the copy, at its new offset. */
  lemma ImageKept(units: seq<Unit>, n: nat, accounts: map<Pubkey, Entry>, free: set<Span>, p: Plan,
                  units': seq<Unit>, accounts': map<Pubkey, Entry>, a: Pubkey)
    requires Planned(units, n, accounts, free, p)
    requires Copied(units, units', p.moves, |p.moves|) && Moved(accounts, accounts', p.moves, |p.moves|)
    requires a in accounts
    ensures SameImage(units, accounts[a].offset, units', accounts'[a].offset)
  {
    var m := MoveOf(accounts, p.moves, a);
    if m.Some? {
      assert MoveSound(units, p.before, p.runs, p.moves[m.value], p.into[m.value]);
      assert CopiedOne(units, units', p.moves[m.value]);
      CopiedSlice(units, units', p.before, p.runs, p.moves[m.value], p.into[m.value]);
    } else {
      LiveIsNotTarget(units, n, accounts, free, p, a);
      UntouchedSlice(units, units', p.moves, accounts[a].offset);
    }
  }

  lemma LiveIsNotTarget(units: seq<Unit>, n: nat, accounts: map<Pubkey, Entry>, free: set<Span>, p: Plan, a: Pubkey)
    requires Planned(units, n, accounts, free, p) && a in accounts
    ensures Untargeted(SpanAt(units, accounts[a].offset), p.moves)
    ensures 0 < SpanAt(units, accounts[a].offset).units && SpanAt(units, accounts[a].offset).End() <= |units|
  {
    assert ImageAt(units, n, a, accounts[a]);
    forall x, j | Within(x, SpanAt(units, accounts[a].offset)) && 0 <= j < |p.moves|
      ensures !Within(x, p.moves[j].Target())
    {
      if Within(x, p.moves[j].Target()) {
        TargetIsFree(units, n, accounts, free, p, j, x);
        assert LiveUnit(units, accounts, x);
      }
    }
  }

  /** A unit of a relocated layout's image is not free after the pass. */
  lemma StaysTaken(units: seq<Unit>, n: nat, accounts: map<Pubkey, Entry>, free: set<Span>, p: Plan,
                   accounts': map<Pubkey, Entry>, a: Pubkey, x: nat)
    requires Planned(units, n, accounts, free, p) && Moved(accounts, accounts', p.moves, |p.moves|)
    requires a in accounts && Within(x, Span(accounts'[a].offset, SpanAt(units, accounts[a].offset).units))
    ensures x < n && !FreeAfter(p.runs, p.moves, x)
  {
    var m := MoveOf(accounts, p.moves, a);
    if m.Some? {
      assert MoveSound(units, p.before, p.runs, p.moves[m.value], p.into[m.value]);
      TargetStaysTaken(units, n, accounts, free, p, m.value, x);
    } else {
      UnmovedStaysTaken(units, n, accounts, free, p, a, x);
    }
  }

  lemma TargetStaysTaken(units: seq<Unit>, n: nat, accounts: map<Pubkey, Entry>, free: set<Span>, p: Plan, m: nat,
                         x: nat)
    requires Planned(units, n, accounts, free, p) && m < |p.moves| && Within(x, p.moves[m].Target())
    ensures x < n && !FreeAfter(p.runs, p.moves, x)
  {
    hide AllCovered, Ascending, KeysName;
    TargetIsFree(units, n, accounts, free, p, m, x);
    assert MoveSound(units, p.before, p.runs, p.moves[m], p.into[m]);
    RunsOrdered(p.holes, p.before);
    forall i | 0 <= i < |p.runs| ensures !Within(x, p.runs[i].Free()) {
      var r := p.into[m];
      if i < r {
        assert p.before[i].End() <= p.before[r].offset;
      } else if r < i {
        assert p.before[r].End() <= p.before[i].offset;
      }
    }
    forall j | 0 <= j < |p.moves| ensures !Within(x, p.moves[j].Source()) {
      if Within(x, p.moves[j].Source()) {
        SourceIsLive(units, n, accounts, free, p, j, x);
      }
    }
  }

  lemma UnmovedStaysTaken(units: seq<Unit>, n: nat, accounts: map<Pubkey, Entry>, free: set<Span>, p: Plan,
                          a: Pubkey, x: nat)
    requires Planned(units, n, accounts, free, p) && a in accounts && Within(x, SpanAt(units, accounts[a].offset))
    requires forall m :: 0 <= m < |p.moves| ==> p.moves[m].src != accounts[a].offset
    ensures x < n && !FreeAfter(p.runs, p.moves, x)
  {
    hide AllCovered, Ascending, FreeSound, RunsSound;
    assert ImageAt(units, n, a, accounts[a]) && LiveUnit(units, accounts, x);
    forall i | 0 <= i < |p.runs| ensures !Within(x, p.runs[i].Free()) {
      if Within(x, p.runs[i].Free()) {
        RunIsFree(free, p, i, x);
        FreeIsNotLive(units, accounts, free, x);
      }
    }
    forall j | 0 <= j < |p.moves| ensures !Within(x, p.moves[j].Source()) {
      assert MoveSound(units, p.before, p.runs, p.moves[j], p.into[j]);
      assert p.keys[j] != a;
      assert Disjoint(SpanAt(units, accounts[p.keys[j]].offset), SpanAt(units, accounts[a].offset));
    }
  }

  /** New images do not overlap each other. */
  lemma NewImagesApart(units: seq<Unit>, n: nat, accounts: map<Pubkey, Entry>, free: set<Span>, p: Plan,
                       accounts': map<Pubkey, Entry>, a: Pubkey, b: Pubkey, x: nat)
    requires Planned(units, n, accounts, free, p) && Moved(accounts, accounts', p.moves, |p.moves|)
    requires a in accounts && b in accounts && a != b
    requires Within(x, Span(accounts'[a].offset, SpanAt(units, accounts[a].offset).units))
    ensures !Within(x, Span(accounts'[b].offset, SpanAt(units, accounts[b].offset).units))
  {
    hide Planned, Moved;
    var m, j := MoveOf(accounts, p.moves, a), MoveOf(accounts, p.moves, b);
    NewPlace(units, n, accounts, free, p, accounts', a, m);
    NewPlace(units, n, accounts, free, p, accounts', b, j);
    if m.Some? && j.Some? {
      TargetsDisjoint(units, n, accounts, free, p, a, b, m.value, j.value);
    } else if m.Some? || j.Some? {
      if m.Some? {
        TargetIsFree(units, n, accounts, free, p, m.value, x);
        assert Within(x, SpanAt(units, accounts[b].offset)) ==> LiveUnit(units, accounts, x);
      } else {
        assert LiveUnit(units, accounts, x);
        if Within(x, p.moves[j.value].Target()) {
          TargetIsFree(units, n, accounts, free, p, j.value, x);
        }
      }
    } else {
      OldImagesApart(units, n, accounts, free, p, a, b);
    }
  }

  lemma OldImagesApart(units: seq<Unit>, n: nat, accounts: map<Pubkey, Entry>, free: set<Span>, p: Plan,
                       a: Pubkey, b: Pubkey)
    requires Planned(units, n, accounts, free, p) && a in accounts && b in accounts && a != b
    ensures Disjoint(SpanAt(units, accounts[a].offset), SpanAt(units, accounts[b].offset))
    ensures SpanAt(units, accounts[a].offset).units > 0 && SpanAt(units, accounts[b].offset).units > 0
  {
    hide PlanSound, RunsSound, Ascending;
    assert ImageAt(units, n, a, accounts[a]) && ImageAt(units, n, b, accounts[b]);
  }

  /** Where an image is after the moves: at its target, or where it was. */
  lemma NewPlace(units: seq<Unit>, n: nat, accounts: map<Pubkey, Entry>, free: set<Span>, p: Plan,
                 accounts': map<Pubkey, Entry>, a: Pubkey, m: Option<nat>)
    requires Planned(units, n, accounts, free, p) && Moved(accounts, accounts', p.moves, |p.moves|)
    requires a in accounts && m == MoveOf(accounts, p.moves, a)
    ensures var s := Span(accounts'[a].offset, SpanAt(units, accounts[a].offset).units);
      if m.Some? then
        m.value < |p.moves| && p.moves[m.value].src == accounts[a].offset && s == p.moves[m.value].Target()
      else s == SpanAt(units, accounts[a].offset)
  {
    hide Tiled, RunsSound, Ascending;
    if m.Some? {
      assert MoveSound(units, p.before, p.runs, p.moves[m.value], p.into[m.value]);
    }
  }

  lemma TargetsDisjoint(units: seq<Unit>, n: nat, accounts: map<Pubkey, Entry>, free: set<Span>, p: Plan,
                        a: Pubkey, b: Pubkey, i: nat, j: nat)
    requires Planned(units, n, accounts, free, p) && a in accounts && b in accounts && a != b
    requires i < |p.moves| && j < |p.moves|
    requires p.moves[i].src == accounts[a].offset && p.moves[j].src == accounts[b].offset
    ensures Disjoint(p.moves[i].Target(), p.moves[j].Target())
  {
    OldImagesApart(units, n, accounts, free, p, a, b);
    hide Tiled, RunsSound, Ascending;
    assert i != j;
    assert if i < j then Disjoint(p.moves[i].Target(), p.moves[j].Target())
           else Disjoint(p.moves[j].Target(), p.moves[i].Target());
  }

  /** New images end by the new tail. */
  lemma NewImageBelowTail(units: seq<Unit>, n: nat, accounts: map<Pubkey, Entry>, free: set<Span>, p: Plan,
                          accounts': map<Pubkey, Entry>, tail: Offset, a: Pubkey)
    requires Planned(units, n, accounts, free, p) && Moved(accounts, accounts', p.moves, |p.moves|)
    requires TightTail(p, n, tail) && a in accounts && SpanAt(units, accounts[a].offset).units > 0
    ensures accounts'[a].offset + SpanAt(units, accounts[a].offset).units <= tail
  {
    var last := accounts'[a].offset + SpanAt(units, accounts[a].offset).units - 1;
    StaysTaken(units, n, accounts, free, p, accounts', a, last);
  }

  // ---------------------------------------------------------------- Free spans

  /** Runs group the holes, and packing consumed only their fronts. */
  ghost predicate Shaped(p: Plan) {
    Ascending(p.holes) && RunsSound(p.holes, p.before) && Consumed(p.before, p.runs)
  }

  lemma PlanIsShaped(units: seq<Unit>, n: nat, accounts: map<Pubkey, Entry>, free: set<Span>, p: Plan)
    requires Planned(units, n, accounts, free, p)
    ensures Shaped(p) && forall h :: h in free <==> h in p.holes
  {
  }

  /** Runs cover the holes one after another. */
  lemma RunsMeet(p: Plan)
    requires Shaped(p)
    ensures forall r :: 0 <= r < |p.runs| ==> p.runs[r].first < p.runs[r].last <= |p.holes|
    ensures forall r, q :: 0 <= r < q < |p.runs| && q == r + 1 ==> p.runs[r].last == p.runs[q].first
    ensures if p.runs == [] then p.holes == [] else p.runs[0].first == 0 && p.runs[|p.runs| - 1].last == |p.holes|
  {
    forall r | 0 <= r < |p.runs| ensures p.runs[r].first < p.runs[r].last <= |p.holes| {
      assert Groups(p.holes, p.before[r]);
    }
  }

  /** A published piece is part of one hole, below the tail and free after the pass. */
  lemma PieceIsVacant(p: Plan, tail: Offset, s: Span) returns (r: nat, h: nat)
    requires Shaped(p) && IsPiece(p.holes, p.runs, tail, s)
    ensures r < |p.runs| && p.runs[r].first <= h < p.runs[r].last && h < |p.holes|
    ensures s == Piece(p.holes[h], p.runs[r], tail) && s.units > 0 && s.End() <= tail
    ensures p.holes[h].offset <= s.offset && s.End() <= p.holes[h].End()
    ensures forall x :: Within(x, s) ==> FreeAfter(p.runs, p.moves, x)
  {
    hide Shaped;
    r, h :| 0 <= r < |p.runs| && p.runs[r].first <= h < p.runs[r].last && h < |p.holes| &&
            s == Piece(p.holes[h], p.runs[r], tail) && s.units > 0;
    HoleEndsInRun(p, r, h);
    WithinRun(p.runs, p.moves, r, s);
  }

  lemma HoleEndsInRun(p: Plan, r: nat, h: nat)
    requires Shaped(p) && r < |p.runs| && p.runs[r].first <= h < p.runs[r].last && h < |p.holes|
    ensures p.before[r].offset <= p.holes[h].offset && p.holes[h].End() <= p.runs[r].End()
  {
  }

  lemma WithinRun(runs: seq<Run>, moves: seq<Move>, r: nat, s: Span)
    requires r < |runs| && runs[r].offset <= s.offset && s.End() <= runs[r].End()
    ensures forall x :: Within(x, s) ==> FreeAfter(runs, moves, x)
  {
    forall x | Within(x, s) ensures FreeAfter(runs, moves, x) {
      assert Within(x, runs[r].Free());
    }
  }

  /** A hole belongs to one run only. */
  lemma RunIsUnique(p: Plan, r: nat, q: nat, h: nat)
    requires Shaped(p) && r < |p.runs| && q < |p.runs|
    requires p.runs[r].first <= h < p.runs[r].last && p.runs[q].first <= h < p.runs[q].last
    ensures q == r
  {
    hide Groups;
    if q < r {
      RunsInOrder(p.holes, p.before, q, r);
    } else if r < q {
      RunsInOrder(p.holes, p.before, r, q);
    }
  }

  lemma HolesInOrder(p: Plan, g: nat, h: nat)
    requires Shaped(p) && g < h < |p.holes|
    ensures p.holes[g].End() <= p.holes[h].offset
  {
    hide RunsSound, Consumed;
  }

  lemma PiecesApart(p: Plan, tail: Offset, s: Span, t: Span)
    requires Shaped(p) && s != t
    requires IsPiece(p.holes, p.runs, tail, s) && IsPiece(p.holes, p.runs, tail, t)
    ensures Disjoint(s, t)
  {
    hide Shaped, IsPiece, Piece, FreeAfter;
    var r, h := PieceIsVacant(p, tail, s);
    var q, g := PieceIsVacant(p, tail, t);
    if h < g {
      HolesInOrder(p, h, g);
    } else if g < h {
      HolesInOrder(p, g, h);
    } else {
      RunIsUnique(p, r, q, h);
    }
  }

  lemma PieceApartFromVacated(units: seq<Unit>, n: nat, accounts: map<Pubkey, Entry>, free: set<Span>, p: Plan,
                              tail: Offset, s: Span, t: Span)
    requires Planned(units, n, accounts, free, p) && IsPiece(p.holes, p.runs, tail, s) && IsVacated(p.moves, tail, t)
    ensures Disjoint(s, t)
  {
    hide Planned, Shaped, IsPiece, Piece, FreeAfter, LiveUnit;
    var m :| 0 <= m < |p.moves| && t == p.moves[m].Source();
    PlanIsShaped(units, n, accounts, free, p);
    var r, h := PieceIsVacant(p, tail, s);
    SourceNonempty(units, n, accounts, free, p, m);
    forall x | Within(x, p.moves[m].Source()) ensures !Within(x, s) {
      SourceIsLive(units, n, accounts, free, p, m, x);
      assert p.holes[h] in free;
    }
    DisjointFromUnits(p.moves[m].Source(), s);
  }

  lemma SourceNonempty(units: seq<Unit>, n: nat, accounts: map<Pubkey, Entry>, free: set<Span>, p: Plan, m: nat)
    requires Planned(units, n, accounts, free, p) && m < |p.moves|
    ensures p.moves[m].units > 0
  {
    hide Tiled, RunsSound, Ascending;
    assert MoveSound(units, p.before, p.runs, p.moves[m], p.into[m]);
  }

  /** Published spans are nonempty, end by the tail and do not overlap. */
  lemma NewFreeSound(units: seq<Unit>, n: nat, accounts: map<Pubkey, Entry>, free: set<Span>, p: Plan, tail: Offset,
                     free': set<Span>)
    requires Planned(units, n, accounts, free, p) && TightTail(p, n, tail) && Published(p, tail, free')
    ensures FreeSound(tail, free')
    ensures forall s, x :: s in free' && Within(x, s) ==> FreeAfter(p.runs, p.moves, x)
  {
    VacantSpans(units, n, accounts, free, p);
    forall s | s in free'
      ensures 0 < s.units && s.End() <= tail && forall x :: Within(x, s) ==> FreeAfter(p.runs, p.moves, x)
    {
      if IsPiece(p.holes, p.runs, tail, s) {
        var r, h := PieceIsVacant(p, tail, s);
      }
    }
    forall s, t | s in free' && t in free' && s != t ensures Disjoint(s, t) {
      NewFreeApart(units, n, accounts, free, p, tail, s, t);
    }
  }

  lemma NewFreeApart(units: seq<Unit>, n: nat, accounts: map<Pubkey, Entry>, free: set<Span>, p: Plan, tail: Offset,
                     s: Span, t: Span)
    requires Planned(units, n, accounts, free, p) && s != t
    requires IsPiece(p.holes, p.runs, tail, s) || IsVacated(p.moves, tail, s)
    requires IsPiece(p.holes, p.runs, tail, t) || IsVacated(p.moves, tail, t)
    ensures Disjoint(s, t)
  {
    if IsPiece(p.holes, p.runs, tail, s) && IsPiece(p.holes, p.runs, tail, t) {
      PiecesApart(p, tail, s, t);
    } else if IsPiece(p.holes, p.runs, tail, s) {
      PieceApartFromVacated(units, n, accounts, free, p, tail, s, t);
    } else if IsPiece(p.holes, p.runs, tail, t) {
      PieceApartFromVacated(units, n, accounts, free, p, tail, t, s);
    } else {
      VacatedApart(units, n, accounts, free, p, tail, s, t);
    }
  }

  lemma VacatedApart(units: seq<Unit>, n: nat, accounts: map<Pubkey, Entry>, free: set<Span>, p: Plan, tail: Offset,
                     s: Span, t: Span)
    requires Planned(units, n, accounts, free, p) && s != t && IsVacated(p.moves, tail, s) &&
             IsVacated(p.moves, tail, t)
    ensures Disjoint(s, t)
  {
    VacantSpans(units, n, accounts, free, p);
    SourcesApart(p.runs, p.moves, tail, s, t);
  }

  lemma SourcesApart(runs: seq<Run>, moves: seq<Move>, tail: Offset, s: Span, t: Span)
    requires VacantApart(runs, moves) && s != t && IsVacated(moves, tail, s) && IsVacated(moves, tail, t)
    ensures Disjoint(s, t)
  {
  }

  // ---------------------------------------------------------------- Coverage

  /** A unit of an entry-time hole is filled by a move or stays free. */
  lemma HoleCovered(units: seq<Unit>, n: nat, accounts: map<Pubkey, Entry>, free: set<Span>, p: Plan, tail: Offset,
                    x: nat)
    requires Planned(units, n, accounts, free, p) && TightTail(p, n, tail) && x < tail && FreeUnit(free, x)
    ensures || (exists m :: 0 <= m < |p.moves| && Within(x, p.moves[m].Target()))
            || (exists s :: IsPiece(p.holes, p.runs, tail, s) && Within(x, s))
  {
    hide Tiled, KeysName;
    var hole :| hole in free && Within(x, hole);
    var h :| 0 <= h < |p.holes| && p.holes[h] == hole;
    var r := RunOf(p.holes, p.before, |p.before|, h);
    if x < p.runs[r].offset {
      HoleEndsInRun(p, r, h);
      assert Filled(p.moves, p.into, r, x);
    } else {
      var s := RestOfHole(p, n, tail, r, h, x);
    }
  }

  lemma RestOfHole(p: Plan, n: nat, tail: Offset, r: nat, h: nat, x: nat) returns (s: Span)
    requires Shaped(p) && TightTail(p, n, tail) && x < tail
    requires r < |p.runs| && p.runs[r].first <= h < p.runs[r].last && h < |p.holes|
    requires Within(x, p.holes[h]) && p.runs[r].offset <= x
    ensures IsPiece(p.holes, p.runs, tail, s) && Within(x, s)
  {
    HoleEndsInRun(p, r, h);
    s := Piece(p.holes[h], p.runs[r], tail);
  }
}
