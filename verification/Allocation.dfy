/** How upserts change a tiled layout, on values: reserve a span, release the
    old image, and fill the reserved span. */
module Allocation {
  import opened Basics
  import opened Layout

  /** Tiling with one span set aside for an image still to be written. */
  ghost predicate TiledBut(units: seq<Unit>, n: nat, accounts: map<Pubkey, Entry>, free: set<Span>, gap: Span) {
    && ImagesSound(units, n, accounts)
    && LiveDisjoint(units, accounts)
    && FreeSound(n, free)
    && FreeApart(units, accounts, free)
    && gap.End() <= n <= |units|
    && GapApart(units, accounts, free, gap)
    && CoveredBut(units, n, accounts, free, gap)
  }

  ghost predicate GapApart(units: seq<Unit>, accounts: map<Pubkey, Entry>, free: set<Span>, gap: Span) {
    && (forall k :: k in accounts ==> Disjoint(SpanAt(units, accounts[k].offset), gap))
    && (forall h :: h in free ==> Disjoint(h, gap))
  }

  ghost predicate CoveredBut(units: seq<Unit>, n: nat, accounts: map<Pubkey, Entry>, free: set<Span>, gap: Span) {
    forall x :: 0 <= x < n ==> LiveUnit(units, accounts, x) || FreeUnit(free, x) || Within(x, gap)
  }

  const NO_GAP := Span(0, 0)

  lemma TiledHasNoGap(units: seq<Unit>, n: nat, accounts: map<Pubkey, Entry>, free: set<Span>)
    requires Tiled(units, n, accounts, free) && n <= |units|
    ensures TiledBut(units, n, accounts, free, NO_GAP)
  {
    hide ImagesSound, LiveDisjoint, FreeSound, FreeApart, GapApart, CoveredBut, AllCovered;
    NothingInNoGap(units, accounts, free);
    NoGapCovers(units, n, accounts, free);
  }

  lemma NothingInNoGap(units: seq<Unit>, accounts: map<Pubkey, Entry>, free: set<Span>)
    ensures GapApart(units, accounts, free, NO_GAP)
  {
    hide SpanAt;
  }

  lemma NoGapCovers(units: seq<Unit>, n: nat, accounts: map<Pubkey, Entry>, free: set<Span>)
    ensures CoveredBut(units, n, accounts, free, NO_GAP) <==> AllCovered(units, n, accounts, free)
  {
    hide LiveUnit, FreeUnit;
  }

  lemma NoGapIsTiled(units: seq<Unit>, n: nat, accounts: map<Pubkey, Entry>, free: set<Span>)
    requires TiledBut(units, n, accounts, free, NO_GAP)
    ensures Tiled(units, n, accounts, free)
  {
    hide ImagesSound, LiveDisjoint, FreeSound, FreeApart, GapApart, CoveredBut, AllCovered;
    NoGapCovers(units, n, accounts, free);
  }

  /** Taking a span off the freelist. */
  lemma ReserveFree(units: seq<Unit>, n: nat, accounts: map<Pubkey, Entry>, free: set<Span>, s: Span)
    requires Tiled(units, n, accounts, free) && s in free && n <= |units|
    ensures TiledBut(units, n, accounts, free - {s}, s)
  {
  }

  /** Advancing the cursor. */
  lemma ReserveFresh(units: seq<Unit>, n: nat, accounts: map<Pubkey, Entry>, free: set<Span>, need: nat)
    requires Tiled(units, n, accounts, free) && n + need <= |units|
    ensures TiledBut(units, n + need, accounts, free, Span(n, need))
  {
  }

  /** Dropping an account returns its span to the freelist. */
  lemma ReleaseKeeps(units: seq<Unit>, n: nat, accounts: map<Pubkey, Entry>, free: set<Span>, gap: Span, k: Pubkey)
    requires TiledBut(units, n, accounts, free, gap) && k in accounts
    ensures TiledBut(units, n, accounts - {k}, free + {SpanAt(units, accounts[k].offset)}, gap)
  {
    hide CoveredBut;
    var accounts' := accounts - {k};
    assert ImageAt(units, n, k, accounts[k]);
    forall a | a in accounts' ensures a in accounts && a != k && accounts'[a] == accounts[a] {
    }
    ReleaseCovers(units, n, accounts, free, gap, k);
  }

  /** The released image's units are free now, the others stay as they are. */
  lemma ReleaseCovers(units: seq<Unit>, n: nat, accounts: map<Pubkey, Entry>, free: set<Span>, gap: Span, k: Pubkey)
    requires CoveredBut(units, n, accounts, free, gap) && k in accounts
    ensures CoveredBut(units, n, accounts - {k}, free + {SpanAt(units, accounts[k].offset)}, gap)
  {
    var s := SpanAt(units, accounts[k].offset);
    var accounts', free' := accounts - {k}, free + {s};
    forall x | 0 <= x < n ensures LiveUnit(units, accounts', x) || FreeUnit(free', x) || Within(x, gap) {
      if LiveUnit(units, accounts, x) {
        var a :| a in accounts && Within(x, SpanAt(units, accounts[a].offset));
        if a == k {
          assert s in free';
        } else {
          assert a in accounts';
        }
      } else if FreeUnit(free, x) {
        var h :| h in free && Within(x, h);
        assert h in free';
      }
    }
  }

  /** An image of `k`: its head unit names the account and the image's length. */
  predicate ImageOf(k: Pubkey, image: seq<Unit>) {
    |image| > 0 && image[0].Head? && image[0].pubkey == k && image[0].span == |image|
  }

  /** `after` is `before` with `image` written at `offset`. */
  ghost predicate Written(before: seq<Unit>, after: seq<Unit>, offset: Offset, image: seq<Unit>) {
    && |after| == |before| && offset + |image| <= |before|
    && after[offset..offset + |image|] == image
    && (forall x :: 0 <= x < |before| && !(offset <= x < offset + |image|) ==> after[x] == before[x])
  }

  /** Writing outside an image leaves it in place. */
  lemma ImageUntouched(before: seq<Unit>, after: seq<Unit>, offset: Offset, image: seq<Unit>, n: nat, k: Pubkey,
                       e: Entry)
    requires Written(before, after, offset, image) && ImageAt(before, n, k, e)
    requires Disjoint(SpanAt(before, e.offset), Span(offset, |image|))
    ensures ImageAt(after, n, k, e) && SpanAt(after, e.offset) == SpanAt(before, e.offset)
    ensures Image(after, e.offset) == Image(before, e.offset)
  {
  }

  lemma WrittenHead(before: seq<Unit>, after: seq<Unit>, offset: Offset, image: seq<Unit>)
    requires Written(before, after, offset, image) && |image| > 0
    ensures after[offset] == image[0]
  {
  }

  /** Every other image survives writing into the gap. */
  lemma OthersUntouched(units: seq<Unit>, n: nat, accounts: map<Pubkey, Entry>, free: set<Span>, gap: Span,
                        image: seq<Unit>, units': seq<Unit>)
    requires ImagesSound(units, n, accounts) && GapApart(units, accounts, free, gap)
    requires |image| == gap.units && Written(units, units', gap.offset, image)
    ensures ImagesSound(units', n, accounts)
    ensures forall a :: a in accounts ==> SpanAt(units', accounts[a].offset) == SpanAt(units, accounts[a].offset)
    ensures Contents(units', accounts) == Contents(units, accounts)
  {
    forall a | a in accounts ensures Kept(units, units', n, a, accounts[a]) {
      assert ImageAt(units, n, a, accounts[a]);
      ImageUntouched(units, units', gap.offset, image, n, a, accounts[a]);
    }
    KeptContents(units, units', n, accounts);
  }

  /** The image at `e` is the same in both. */
  ghost predicate Kept(units: seq<Unit>, units': seq<Unit>, n: nat, k: Pubkey, e: Entry) {
    && ImageAt(units, n, k, e) && ImageAt(units', n, k, e) && SpanAt(units', e.offset) == SpanAt(units, e.offset)
    && Image(units', e.offset) == Image(units, e.offset)
  }

  lemma KeptContents(units: seq<Unit>, units': seq<Unit>, n: nat, accounts: map<Pubkey, Entry>)
    requires forall a :: a in accounts ==> Kept(units, units', n, a, accounts[a])
    ensures ImagesSound(units', n, accounts) && ImagesSound(units, n, accounts)
    ensures forall a :: a in accounts ==> SpanAt(units', accounts[a].offset) == SpanAt(units, accounts[a].offset)
    ensures Contents(units', accounts) == Contents(units, accounts)
  {
  }

  /** Writing the image into the reserved span completes the tiling. */
  lemma FillKeeps(units: seq<Unit>, n: nat, accounts: map<Pubkey, Entry>, free: set<Span>, gap: Span,
                  k: Pubkey, image: seq<Unit>, units': seq<Unit>)
    requires TiledBut(units, n, accounts, free, gap) && k !in accounts && ImageOf(k, image) && |image| == gap.units
    requires Written(units, units', gap.offset, image)
    ensures Tiled(units', n, accounts[k := Entry(TagOf(image[0].owner), gap.offset)], free)
    ensures Contents(units', accounts[k := Entry(TagOf(image[0].owner), gap.offset)]) ==
            Contents(units, accounts)[k := image]
  {
    var e := Entry(TagOf(image[0].owner), gap.offset);
    WrittenHead(units, units', gap.offset, image);
    OthersUntouched(units, n, accounts, free, gap, image, units');
    assert ImageAt(units', n, k, e) && SpanAt(units', gap.offset) == gap;
    FillCovers(units, n, accounts, free, gap, k, units', accounts[k := e]);
    JoinApart(units', n, accounts, free, k, e);
    JoinContents(units', accounts, k, e);
  }

  lemma JoinApart(units: seq<Unit>, n: nat, accounts: map<Pubkey, Entry>, free: set<Span>, k: Pubkey, e: Entry)
    requires ImagesSound(units, n, accounts) && LiveDisjoint(units, accounts) && FreeApart(units, accounts, free)
    requires k !in accounts && ImageAt(units, n, k, e) && GapApart(units, accounts, free, SpanAt(units, e.offset))
    ensures ImagesSound(units, n, accounts[k := e]) && LiveDisjoint(units, accounts[k := e])
    ensures FreeApart(units, accounts[k := e], free)
  {
  }

  lemma JoinContents(units: seq<Unit>, accounts: map<Pubkey, Entry>, k: Pubkey, e: Entry)
    ensures Contents(units, accounts[k := e]) == Contents(units, accounts)[k := Image(units, e.offset)]
  {
  }

  lemma FillCovers(units: seq<Unit>, n: nat, accounts: map<Pubkey, Entry>, free: set<Span>, gap: Span,
                   k: Pubkey, units': seq<Unit>, accounts': map<Pubkey, Entry>)
    requires CoveredBut(units, n, accounts, free, gap)
    requires k in accounts' && SpanAt(units', accounts'[k].offset) == gap
    requires forall a :: a in accounts ==>
               a in accounts' && SpanAt(units', accounts'[a].offset) == SpanAt(units, accounts[a].offset)
    ensures AllCovered(units', n, accounts', free)
  {
  }

  /** Overwriting an image in place with one of the same length keeps the tiling. */
  lemma OverwriteKeeps(units: seq<Unit>, n: nat, accounts: map<Pubkey, Entry>, free: set<Span>,
                       k: Pubkey, image: seq<Unit>, units': seq<Unit>)
    requires Tiled(units, n, accounts, free) && n <= |units| && k in accounts && ImageOf(k, image)
    requires |image| == SpanAt(units, accounts[k].offset).units && Written(units, units', accounts[k].offset, image)
    ensures Tiled(units', n, accounts[k := Entry(TagOf(image[0].owner), accounts[k].offset)], free)
    ensures Contents(units', accounts[k := Entry(TagOf(image[0].owner), accounts[k].offset)]) ==
            Contents(units, accounts)[k := image]
  {
    LiftOut(units, n, accounts, free, k);
    FillKeeps(units, n, accounts - {k}, free, SpanAt(units, accounts[k].offset), k, image, units');
    DropContents(units, accounts, k);
    PutAfterDrop(accounts, k, Entry(TagOf(image[0].owner), accounts[k].offset));
    PutAfterDrop(Contents(units, accounts), k, image);
  }

  lemma PutAfterDrop<V>(m: map<Pubkey, V>, k: Pubkey, v: V)
    ensures (m - {k})[k := v] == m[k := v]
  {
  }

  lemma DropContents(units: seq<Unit>, accounts: map<Pubkey, Entry>, k: Pubkey)
    ensures Contents(units, accounts - {k}) == Contents(units, accounts) - {k}
  {
  }

  /** An account's own span, seen as the gap left by taking the account out. */
  lemma LiftOut(units: seq<Unit>, n: nat, accounts: map<Pubkey, Entry>, free: set<Span>, k: Pubkey)
    requires Tiled(units, n, accounts, free) && n <= |units| && k in accounts
    ensures TiledBut(units, n, accounts - {k}, free, SpanAt(units, accounts[k].offset))
  {
    var gap, others := SpanAt(units, accounts[k].offset), accounts - {k};
    assert ImageAt(units, n, k, accounts[k]);
    forall a | a in others ensures a in accounts && a != k && others[a] == accounts[a] {
    }
    forall x | 0 <= x < n ensures LiveUnit(units, others, x) || FreeUnit(free, x) || Within(x, gap) {
      if LiveUnit(units, accounts, x) {
        var a :| a in accounts && Within(x, SpanAt(units, accounts[a].offset));
        assert a != k ==> a in others;
      }
    }
  }

  // ---------------------------------------------------------------- Owner index

  ghost predicate DistinctOffsets(accounts: map<Pubkey, Entry>) {
    forall a, b :: a in accounts && b in accounts && a != b ==> accounts[a].offset != accounts[b].offset
  }

  lemma OffsetsAreDistinct(units: seq<Unit>, n: nat, accounts: map<Pubkey, Entry>)
    requires ImagesSound(units, n, accounts) && LiveDisjoint(units, accounts)
    ensures DistinctOffsets(accounts)
  {
  }

  lemma ContentsKeys(units: seq<Unit>, accounts: map<Pubkey, Entry>)
    ensures Contents(units, accounts).Keys == accounts.Keys
  {
  }

  /** What the stored image of an account says of it. */
  lemma StoredHead(units: seq<Unit>, n: nat, accounts: map<Pubkey, Entry>, free: set<Span>, k: Pubkey)
    requires Tiled(units, n, accounts, free) && n <= |units| && k in accounts
    ensures k in Contents(units, accounts) && DistinctOffsets(accounts)
    ensures var image := Contents(units, accounts)[k];
      && image != [] && |image| == SpanAt(units, accounts[k].offset).units
      && accounts[k].offset + |image| <= n
      && image[0].Head? && TagOf(image[0].owner) == accounts[k].owner
  {
    hide FreeSound, FreeApart, AllCovered;
    assert ImageAt(units, n, k, accounts[k]);
    OffsetsAreDistinct(units, n, accounts);
  }

  /** Removing one pair for a dropped account leaves the recomputed index. */
  lemma IndexAfterDelete(accounts: map<Pubkey, Entry>, k: Pubkey)
    requires DistinctOffsets(accounts) && k in accounts
    ensures OwnerIndex(accounts - {k}) == OwnerIndex(accounts) - {(accounts[k].owner, accounts[k].offset)}
  {
    var rest := accounts - {k};
    forall pair | pair in OwnerIndex(accounts) && pair != (accounts[k].owner, accounts[k].offset)
      ensures pair in OwnerIndex(rest)
    {
      var a :| a in accounts && pair == (accounts[a].owner, accounts[a].offset);
      assert a in rest && rest[a] == accounts[a];
    }
    forall pair | pair in OwnerIndex(rest)
      ensures pair in OwnerIndex(accounts) && pair != (accounts[k].owner, accounts[k].offset)
    {
      var a :| a in rest && pair == (rest[a].owner, rest[a].offset);
      assert a in accounts && a != k;
    }
  }

  /** Adding one pair for a new account gives the recomputed index. */
  lemma IndexAfterInsert(accounts: map<Pubkey, Entry>, k: Pubkey, e: Entry)
    requires k !in accounts
    ensures OwnerIndex(accounts[k := e]) == OwnerIndex(accounts) + {(e.owner, e.offset)}
  {
    var more := accounts[k := e];
    forall pair | pair in OwnerIndex(accounts) + {(e.owner, e.offset)} ensures pair in OwnerIndex(more) {
      if pair in OwnerIndex(accounts) {
        var a :| a in accounts && pair == (accounts[a].owner, accounts[a].offset);
        assert a in more && more[a] == accounts[a];
      } else {
        assert k in more && more[k] == e;
      }
    }
  }

  /** Replacing the pair of an existing account gives the recomputed index. */
  lemma IndexAfterChange(accounts: map<Pubkey, Entry>, k: Pubkey, e: Entry)
    requires DistinctOffsets(accounts) && k in accounts
    ensures OwnerIndex(accounts[k := e]) ==
            OwnerIndex(accounts) - {(accounts[k].owner, accounts[k].offset)} + {(e.owner, e.offset)}
  {
    IndexAfterDelete(accounts, k);
    IndexAfterInsert(accounts - {k}, k, e);
    assert (accounts - {k})[k := e] == accounts[k := e];
  }
}
