/** The steps of carrying out a plan: ordering the inputs, copying one image,
    relocating one index entry. */
module PackingSteps {
  import opened Basics
  import opened Layout
  import opened Packing
  import opened Relocation
  import opened PackingPass
  import opened Allocation

  // ---------------------------------------------------------------- Sorted inputs

  method LowestHole(free: set<Span>) returns (low: Span)
    requires free != {}
    ensures low in free && forall h :: h in free ==> low.offset <= h.offset
  {
    low :| low in free;
    var rest := free - {low};
    while rest != {}
      invariant rest <= free && low in free
      invariant forall h :: h in free - rest ==> low.offset <= h.offset
      decreases |rest|
    {
      var h :| h in rest;
      rest := rest - {h};
      if h.offset < low.offset {
        low := h;
      }
    }
  }

  /** The free spans in ascending order. */
  method SortHoles(n: nat, free: set<Span>) returns (holes: seq<Span>)
    requires FreeSound(n, free)
    ensures Ascending(holes) && forall h :: h in free <==> h in holes
  {
    hide FreeSound, Ascending;
    holes := [];
    NoneAscends();
    var rest := free;
    while rest != {}
      invariant rest <= free && Ascending(holes)
      invariant forall h :: h in free - rest <==> h in holes
      invariant forall i, h :: 0 <= i < |holes| && h in rest ==> holes[i].End() <= h.offset
      decreases |rest|
    {
      var low := LowestHole(rest);
      LowestEndsFirst(n, free, rest, low);
      AscendingAppend(holes, low);
      holes := holes + [low];
      rest := rest - {low};
    }
  }

  lemma NoneAscends()
    ensures Ascending([])
  {
  }

  lemma AscendingAppend(holes: seq<Span>, h: Span)
    requires Ascending(holes) && h.units > 0 && forall i :: 0 <= i < |holes| ==> holes[i].End() <= h.offset
    ensures Ascending(holes + [h])
  {
  }

  lemma LowestEndsFirst(n: nat, free: set<Span>, rest: set<Span>, low: Span)
    requires FreeSound(n, free) && rest <= free && low in rest && forall h :: h in rest ==> low.offset <= h.offset
    ensures low.units > 0 && forall h :: h in rest && h != low ==> low.End() <= h.offset
  {
    forall h | h in rest && h != low ensures low.End() <= h.offset {
      assert Disjoint(low, h) && 0 < h.units;
    }
  }

  method HighestOffset(offsets: set<Offset>) returns (high: Offset)
    requires offsets != {}
    ensures high in offsets && forall o: Offset :: o in offsets ==> o <= high
  {
    high :| high in offsets;
    var rest := offsets - {high};
    while rest != {}
      invariant rest <= offsets && high in offsets
      invariant forall o: Offset :: o in offsets && o !in rest ==> o <= high
      decreases |rest|
    {
      var o :| o in rest;
      rest := rest - {o};
      if high < o {
        high := o;
      }
    }
  }

  /** The live offsets from the tail down. */
  method SortOffsets(offsets: set<Offset>) returns (sorted: seq<Offset>)
    ensures Descending(sorted) && forall o :: o in offsets <==> o in sorted
  {
    sorted := [];
    var rest := offsets;
    while rest != {}
      invariant rest <= offsets && Descending(sorted)
      invariant forall o :: o in offsets - rest <==> o in sorted
      invariant forall i, o :: 0 <= i < |sorted| && o in rest ==> o < sorted[i]
      decreases |rest|
    {
      var high := HighestOffset(rest);
      sorted := sorted + [high];
      rest := rest - {high};
    }
  }

  // ---------------------------------------------------------------- Copying

  /** Copying move `i` after the first `i` moves: the source is still intact. */
  lemma CopyStep(units: seq<Unit>, mid: seq<Unit>, after: seq<Unit>, moves: seq<Move>, i: nat)
    requires i < |moves| && Copied(units, mid, moves, i)
    requires moves[i].Source().End() <= |units| && moves[i].Target().End() <= |units|
    requires Untargeted(moves[i].Source(), moves) && TargetsApart(moves)
    requires Written(mid, after, moves[i].dst, mid[moves[i].src..moves[i].Source().End()])
    ensures Copied(units, after, moves, i + 1)
  {
    hide CopiedOne, Untargeted, TargetsApart;
    forall j | 0 <= j < i + 1 ensures CopiedOne(units, after, moves[j]) {
      if j < i {
        EarlierStaysCopied(units, mid, after, moves, i, j);
      } else {
        JustCopied(units, mid, after, moves, i);
      }
    }
  }

  ghost predicate TargetsApart(moves: seq<Move>) {
    forall a, b :: 0 <= a < b < |moves| ==> Disjoint(moves[a].Target(), moves[b].Target())
  }

  lemma JustCopied(units: seq<Unit>, mid: seq<Unit>, after: seq<Unit>, moves: seq<Move>, i: nat)
    requires i < |moves| && Copied(units, mid, moves, i) && Untargeted(moves[i].Source(), moves)
    requires moves[i].Source().End() <= |units| && moves[i].Target().End() <= |units|
    requires Written(mid, after, moves[i].dst, mid[moves[i].src..moves[i].Source().End()])
    ensures CopiedOne(units, after, moves[i])
  {
    hide Copied, Untargeted;
    CopiedLength(units, mid, moves, i);
    SourceIntact(units, mid, moves, i, i);
  }

  lemma CopiedLength(units: seq<Unit>, mid: seq<Unit>, moves: seq<Move>, i: nat)
    requires i <= |moves| && Copied(units, mid, moves, i)
    ensures |mid| == |units|
  {
  }

  lemma EarlierStaysCopied(units: seq<Unit>, mid: seq<Unit>, after: seq<Unit>, moves: seq<Move>, i: nat, j: nat)
    requires j < i < |moves| && |mid| == |units| && CopiedOne(units, mid, moves[j]) && TargetsApart(moves)
    requires moves[i].Source().End() <= |units| && moves[i].Target().End() <= |units|
    requires Written(mid, after, moves[i].dst, mid[moves[i].src..moves[i].Source().End()])
    ensures CopiedOne(units, after, moves[j])
  {
    assert Disjoint(moves[j].Target(), moves[i].Target());
    SliceOutside(mid, after, moves[i].dst, moves[i].units, moves[j].dst, moves[j].units);
  }

  lemma SourceIntact(units: seq<Unit>, mid: seq<Unit>, moves: seq<Move>, k: nat, i: nat)
    requires i < |moves| && k <= |moves| && Copied(units, mid, moves, k) && moves[i].Source().End() <= |units|
    requires Untargeted(moves[i].Source(), moves)
    ensures mid[moves[i].src..moves[i].Source().End()] == units[moves[i].src..moves[i].Source().End()]
  {
    forall x | moves[i].src <= x < moves[i].Source().End() ensures mid[x] == units[x] {
      assert Within(x, moves[i].Source());
    }
  }

  lemma SliceOutside(mid: seq<Unit>, after: seq<Unit>, dst: Offset, n: nat, offset: Offset, m: nat)
    requires |after| == |mid| && dst + n <= |mid| && offset + m <= |mid|
    requires forall x :: 0 <= x < |mid| && !(dst <= x < dst + n) ==> after[x] == mid[x]
    requires Disjoint(Span(offset, m), Span(dst, n))
    ensures after[offset..offset + m] == mid[offset..offset + m]
  {
  }

  // ---------------------------------------------------------------- Relocating

  /** Relocating the account of move `i` extends the relocated prefix. */
  lemma MoveStep(accounts: map<Pubkey, Entry>, mid: map<Pubkey, Entry>, moves: seq<Move>, i: nat, k: Pubkey)
    requires i < |moves| && Moved(accounts, mid, moves, i) && DistinctOffsets(accounts)
    requires k in accounts && accounts[k].offset == moves[i].src
    requires forall a, b :: 0 <= a < b < |moves| ==> moves[b].src < moves[a].src
    ensures mid[k] == accounts[k]
    ensures Moved(accounts, mid[k := Entry(accounts[k].owner, moves[i].dst)], moves, i + 1)
  {
  }

  /** A destination is not yet the offset of any account. */
  lemma DestinationUnused(units: seq<Unit>, n: nat, accounts: map<Pubkey, Entry>, free: set<Span>, p: Plan,
                          mid: map<Pubkey, Entry>, i: nat, a: Pubkey)
    requires Planned(units, n, accounts, free, p) && i < |p.moves| && Moved(accounts, mid, p.moves, i) && a in mid
    ensures mid[a].offset != p.moves[i].dst
  {
    hide Planned;
    if m :| 0 <= m < i && p.moves[m].src == accounts[a].offset {
      DestinationsDiffer(units, n, accounts, free, p, m, i);
    } else {
      NoImageAtTarget(units, n, accounts, free, p, a, i);
    }
  }

  lemma DestinationsDiffer(units: seq<Unit>, n: nat, accounts: map<Pubkey, Entry>, free: set<Span>, p: Plan,
                           a: nat, b: nat)
    requires Planned(units, n, accounts, free, p) && a < b < |p.moves|
    ensures p.moves[a].dst != p.moves[b].dst
  {
    hide Tiled, RunsSound, Ascending;
    assert MoveSound(units, p.before, p.runs, p.moves[a], p.into[a]);
    assert MoveSound(units, p.before, p.runs, p.moves[b], p.into[b]);
    assert Disjoint(p.moves[a].Target(), p.moves[b].Target());
  }

  lemma NoImageAtTarget(units: seq<Unit>, n: nat, accounts: map<Pubkey, Entry>, free: set<Span>, p: Plan,
                        k: Pubkey, i: nat)
    requires Planned(units, n, accounts, free, p) && k in accounts && i < |p.moves|
    ensures accounts[k].offset != p.moves[i].dst
  {
    LiveIsNotTarget(units, n, accounts, free, p, k);
    hide Tiled, RunsSound, Ascending, SpanAt;
    assert MoveSound(units, p.before, p.runs, p.moves[i], p.into[i]);
    SpanStarts(units, accounts[k].offset);
    assert Within(p.moves[i].dst, p.moves[i].Target());
  }

  lemma SpanStarts(units: seq<Unit>, o: Offset)
    requires SpanAt(units, o).units > 0
    ensures Within(o, SpanAt(units, o))
  {
  }

  lemma StillDistinct(accounts: map<Pubkey, Entry>, k: Pubkey, e: Entry)
    requires DistinctOffsets(accounts) && k in accounts && forall a :: a in accounts ==> accounts[a].offset != e.offset
    ensures DistinctOffsets(accounts[k := e])
  {
  }

  // ---------------------------------------------------------------- Publishing

  /** `s` is what is left of one of the first `n` holes. */
  ghost predicate IsPieceBefore(holes: seq<Span>, runs: seq<Run>, tail: Offset, n: nat, s: Span) {
    exists r, h :: 0 <= r < |runs| && runs[r].first <= h < runs[r].last && h < n && h < |holes| &&
                   s == Piece(holes[h], runs[r], tail) && s.units > 0
  }

  ghost predicate IsHoleFrom(holes: seq<Span>, n: nat, s: Span) {
    exists h :: n <= h < |holes| && s == holes[h]
  }

  /** The freelist once the first `n` holes have been rewritten. */
  ghost predicate Rewritten(holes: seq<Span>, runs: seq<Run>, tail: Offset, n: nat, free: set<Span>) {
    forall s :: s in free <==> IsPieceBefore(holes, runs, tail, n, s) || IsHoleFrom(holes, n, s)
  }

  lemma NothingRewritten(holes: seq<Span>, runs: seq<Run>, tail: Offset, free: set<Span>)
    requires forall h :: h in free <==> h in holes
    ensures Rewritten(holes, runs, tail, 0, free)
  {
  }

  /** Hole `h` is neither a piece of an earlier hole nor a later hole. */
  lemma HoleIsNew(p: Plan, tail: Offset, h: nat)
    requires Shaped(p) && h < |p.holes|
    ensures !IsPieceBefore(p.holes, p.runs, tail, h, p.holes[h]) && !IsHoleFrom(p.holes, h + 1, p.holes[h])
  {
  }

  lemma HoleIsNonempty(p: Plan, h: nat)
    requires Shaped(p) && h < |p.holes|
    ensures p.holes[h].units > 0
  {
    hide RunsSound, Consumed;
  }

  /** The pieces of the first `h + 1` holes: those before, and the one of hole `h`. */
  lemma PieceSplit(p: Plan, tail: Offset, r: nat, h: nat, s: Span)
    requires Shaped(p) && r < |p.runs| && p.runs[r].first <= h < p.runs[r].last && h < |p.holes|
    ensures IsPieceBefore(p.holes, p.runs, tail, h + 1, s) <==>
            IsPieceBefore(p.holes, p.runs, tail, h, s) || (s == Piece(p.holes[h], p.runs[r], tail) && s.units > 0)
  {
    hide Shaped;
    if IsPieceBefore(p.holes, p.runs, tail, h + 1, s) && !IsPieceBefore(p.holes, p.runs, tail, h, s) {
      var q, g :| 0 <= q < |p.runs| && p.runs[q].first <= g < p.runs[q].last && g < h + 1 && g < |p.holes| &&
                  s == Piece(p.holes[g], p.runs[q], tail) && s.units > 0;
      assert g == h by {
        assert !(g < h);
      }
      RunIsUnique(p, r, q, h);
    }
  }

  lemma HoleSplit(holes: seq<Span>, h: nat, s: Span)
    requires h < |holes|
    ensures IsHoleFrom(holes, h, s) <==> IsHoleFrom(holes, h + 1, s) || s == holes[h]
  {
  }

  /** Rewriting hole `h`: an untouched hole stays, a changed one is replaced by
      what is left of it. */
  lemma RewriteStep(p: Plan, tail: Offset, r: nat, h: nat, free: set<Span>, free': set<Span>)
    requires Shaped(p) && r < |p.runs| && p.runs[r].first <= h < p.runs[r].last && h < |p.holes|
    requires Rewritten(p.holes, p.runs, tail, h, free)
    requires var piece := Piece(p.holes[h], p.runs[r], tail);
      free' == if piece == p.holes[h] then free
               else free - {p.holes[h]} + if piece.units > 0 then {piece} else {}
    ensures Rewritten(p.holes, p.runs, tail, h + 1, free')
  {
    hide Shaped, IsPieceBefore, IsHoleFrom, Piece;
    HoleIsNew(p, tail, h);
    HoleIsNonempty(p, h);
    forall s ensures s in free' <==> IsPieceBefore(p.holes, p.runs, tail, h + 1, s) || IsHoleFrom(p.holes, h + 1, s) {
      PieceSplit(p, tail, r, h, s);
      HoleSplit(p.holes, h, s);
    }
  }

  lemma AllRewritten(p: Plan, tail: Offset, free: set<Span>)
    requires Rewritten(p.holes, p.runs, tail, |p.holes|, free)
    ensures forall s :: s in free <==> IsPiece(p.holes, p.runs, tail, s)
  {
  }
}
