/** The theorems of one packing pass: tiling, contents and a tight, lower tail. */
module PackingTheorems {
  import opened Basics
  import opened Layout
  import opened Packing
  import opened Relocation
  import opened PackingPass

  /** The layout after a pass: copied units, relocated index, published free spans. */
  ghost predicate Passed(units: seq<Unit>, n: nat, accounts: map<Pubkey, Entry>, free: set<Span>, p: Plan,
                         units': seq<Unit>, tail: Offset, accounts': map<Pubkey, Entry>, free': set<Span>)
  {
    && Planned(units, n, accounts, free, p) && TightTail(p, n, tail)
    && Copied(units, units', p.moves, |p.moves|)
    && Moved(accounts, accounts', p.moves, |p.moves|)
    && Published(p, tail, free')
  }

  lemma PassImages(units: seq<Unit>, n: nat, accounts: map<Pubkey, Entry>, free: set<Span>, p: Plan,
                   units': seq<Unit>, tail: Offset, accounts': map<Pubkey, Entry>, free': set<Span>)
    requires Passed(units, n, accounts, free, p, units', tail, accounts', free')
    ensures ImagesSound(units', tail, accounts')
  {
    forall a | a in accounts' ensures ImageAt(units', tail, a, accounts'[a]) {
      assert ImageAt(units, n, a, accounts[a]);
      ImageKept(units, n, accounts, free, p, units', accounts', a);
      NewImageBelowTail(units, n, accounts, free, p, accounts', tail, a);
    }
  }

  /** The span of an account after the pass: its old size at its new offset. */
  lemma NewSpan(units: seq<Unit>, n: nat, accounts: map<Pubkey, Entry>, free: set<Span>, p: Plan,
                units': seq<Unit>, tail: Offset, accounts': map<Pubkey, Entry>, free': set<Span>, a: Pubkey)
    requires Passed(units, n, accounts, free, p, units', tail, accounts', free') && a in accounts'
    ensures a in accounts && 0 < SpanAt(units, accounts[a].offset).units
    ensures SpanAt(units', accounts'[a].offset) == Span(accounts'[a].offset, SpanAt(units, accounts[a].offset).units)
  {
    ImageKept(units, n, accounts, free, p, units', accounts', a);
  }

  lemma PassLiveDisjoint(units: seq<Unit>, n: nat, accounts: map<Pubkey, Entry>, free: set<Span>, p: Plan,
                         units': seq<Unit>, tail: Offset, accounts': map<Pubkey, Entry>, free': set<Span>)
    requires Passed(units, n, accounts, free, p, units', tail, accounts', free')
    ensures LiveDisjoint(units', accounts')
  {
    forall a, b | a in accounts' && b in accounts' && a != b
      ensures Disjoint(SpanAt(units', accounts'[a].offset), SpanAt(units', accounts'[b].offset))
    {
      NewSpan(units, n, accounts, free, p, units', tail, accounts', free', a);
      NewSpan(units, n, accounts, free, p, units', tail, accounts', free', b);
      var s, t := SpanAt(units', accounts'[a].offset), SpanAt(units', accounts'[b].offset);
      forall x | Within(x, s) ensures !Within(x, t) {
        NewImagesApart(units, n, accounts, free, p, accounts', a, b, x);
      }
      DisjointFromUnits(s, t);
    }
  }

  lemma PassFreeApart(units: seq<Unit>, n: nat, accounts: map<Pubkey, Entry>, free: set<Span>, p: Plan,
                      units': seq<Unit>, tail: Offset, accounts': map<Pubkey, Entry>, free': set<Span>)
    requires Passed(units, n, accounts, free, p, units', tail, accounts', free')
    ensures FreeSound(tail, free') && FreeApart(units', accounts', free')
  {
    NewFreeSound(units, n, accounts, free, p, tail, free');
    forall a, h | a in accounts' && h in free' ensures Disjoint(SpanAt(units', accounts'[a].offset), h) {
      NewSpan(units, n, accounts, free, p, units', tail, accounts', free', a);
      var s := SpanAt(units', accounts'[a].offset);
      forall x | Within(x, s) ensures !Within(x, h) {
        StaysTaken(units, n, accounts, free, p, accounts', a, x);
      }
      DisjointFromUnits(s, h);
    }
  }

  /** A unit inside a live image at entry stays live, or is vacated. */
  lemma LiveCovered(units: seq<Unit>, n: nat, accounts: map<Pubkey, Entry>, free: set<Span>, p: Plan,
                    units': seq<Unit>, tail: Offset, accounts': map<Pubkey, Entry>, free': set<Span>, x: nat)
    requires Passed(units, n, accounts, free, p, units', tail, accounts', free')
    requires x < tail && LiveUnit(units, accounts, x)
    ensures LiveUnit(units', accounts', x) || FreeUnit(free', x)
  {
    var a :| a in accounts && Within(x, SpanAt(units, accounts[a].offset));
    NewSpan(units, n, accounts, free, p, units', tail, accounts', free', a);
    var m := MoveOf(accounts, p.moves, a);
    if m.Some? {
      assert MoveSound(units, p.before, p.runs, p.moves[m.value], p.into[m.value]);
      assert IsVacated(p.moves, tail, p.moves[m.value].Source());
      assert p.moves[m.value].Source() in free';
    } else {
      assert Within(x, SpanAt(units', accounts'[a].offset));
    }
  }

  /** A unit inside a hole at entry is filled by a moved image, or stays free. */
  lemma FreeCovered(units: seq<Unit>, n: nat, accounts: map<Pubkey, Entry>, free: set<Span>, p: Plan,
                    units': seq<Unit>, tail: Offset, accounts': map<Pubkey, Entry>, free': set<Span>, x: nat)
    requires Passed(units, n, accounts, free, p, units', tail, accounts', free')
    requires x < tail && FreeUnit(free, x)
    ensures LiveUnit(units', accounts', x) || FreeUnit(free', x)
  {
    HoleCovered(units, n, accounts, free, p, tail, x);
    if m :| 0 <= m < |p.moves| && Within(x, p.moves[m].Target()) {
      assert MoveSound(units, p.before, p.runs, p.moves[m], p.into[m]);
      NewSpan(units, n, accounts, free, p, units', tail, accounts', free', p.keys[m]);
      assert Within(x, SpanAt(units', accounts'[p.keys[m]].offset));
    } else {
      var s :| IsPiece(p.holes, p.runs, tail, s) && Within(x, s);
      assert s in free';
    }
  }

  /** A pass keeps the tiling: live images and free spans cover `[0, tail)`
      exactly once. */
  lemma PassKeepsTiling(units: seq<Unit>, n: nat, accounts: map<Pubkey, Entry>, free: set<Span>, p: Plan,
                        units': seq<Unit>, tail: Offset, accounts': map<Pubkey, Entry>, free': set<Span>)
    requires Passed(units, n, accounts, free, p, units', tail, accounts', free')
    ensures Tiled(units', tail, accounts', free')
  {
    PassImages(units, n, accounts, free, p, units', tail, accounts', free');
    PassLiveDisjoint(units, n, accounts, free, p, units', tail, accounts', free');
    PassFreeApart(units, n, accounts, free, p, units', tail, accounts', free');
    forall x | 0 <= x < tail ensures LiveUnit(units', accounts', x) || FreeUnit(free', x) {
      if LiveUnit(units, accounts, x) {
        LiveCovered(units, n, accounts, free, p, units', tail, accounts', free', x);
      } else {
        FreeCovered(units, n, accounts, free, p, units', tail, accounts', free', x);
      }
    }
  }

  lemma SameContents(units: seq<Unit>, accounts: map<Pubkey, Entry>, units': seq<Unit>, accounts': map<Pubkey, Entry>)
    requires accounts'.Keys == accounts.Keys
    requires forall a :: a in accounts ==> SameImage(units, accounts[a].offset, units', accounts'[a].offset)
    ensures Contents(units', accounts') == Contents(units, accounts)
  {
    hide SameImage, Image;
    forall a | a in accounts
      ensures Image(units', accounts'[a].offset) == Image(units, accounts[a].offset)
    {
      SameImageIsEqual(units, accounts[a].offset, units', accounts'[a].offset);
    }
  }

  lemma SameImageIsEqual(units: seq<Unit>, src: Offset, units': seq<Unit>, dst: Offset)
    requires SameImage(units, src, units', dst)
    ensures Image(units', dst) == Image(units, src)
  {
  }

  /** A pass keeps every account's stored image. */
  lemma PassKeepsContents(units: seq<Unit>, n: nat, accounts: map<Pubkey, Entry>, free: set<Span>, p: Plan,
                          units': seq<Unit>, tail: Offset, accounts': map<Pubkey, Entry>, free': set<Span>)
    requires Passed(units, n, accounts, free, p, units', tail, accounts', free')
    ensures Contents(units', accounts') == Contents(units, accounts)
  {
    forall a | a in accounts ensures SameImage(units, accounts[a].offset, units', accounts'[a].offset) {
      ImageKept(units, n, accounts, free, p, units', accounts', a);
    }
    SameContents(units, accounts, units', accounts');
  }

  /** The published tail is the least boundary: the unit below it is live. */
  lemma TailIsLeast(units: seq<Unit>, n: nat, accounts: map<Pubkey, Entry>, free: set<Span>, p: Plan,
                    units': seq<Unit>, tail: Offset, accounts': map<Pubkey, Entry>, free': set<Span>)
    requires Passed(units, n, accounts, free, p, units', tail, accounts', free') && tail > 0
    ensures LiveUnit(units', accounts', tail - 1)
  {
    PassKeepsTiling(units, n, accounts, free, p, units', tail, accounts', free');
    if FreeUnit(free', tail - 1) {
      NewFreeSound(units, n, accounts, free, p, tail, free');
    }
  }

  // ---------------------------------------------------------------- Progress

  /** The sum of the live offsets. */
  ghost function OffsetSum(keys: set<Pubkey>, accounts: map<Pubkey, Entry>): nat
    requires keys <= accounts.Keys
  {
    if keys == {} then 0 else
      var a :| a in keys;
      accounts[a].offset + OffsetSum(keys - {a}, accounts)
  }

  lemma {:induction false} OffsetsDrop(keys: set<Pubkey>, before: map<Pubkey, Entry>, after: map<Pubkey, Entry>)
    requires keys <= before.Keys && keys <= after.Keys
    requires forall a :: a in keys ==> after[a].offset <= before[a].offset
    ensures OffsetSum(keys, after) <= OffsetSum(keys, before)
    ensures (exists a :: a in keys && after[a].offset < before[a].offset) ==>
              OffsetSum(keys, after) < OffsetSum(keys, before)
  {
    if keys != {} {
      var k :| k in keys && OffsetSum(keys, before) == before[k].offset + OffsetSum(keys - {k}, before) &&
               OffsetSum(keys, after) == after[k].offset + OffsetSum(keys - {k}, after);
      OffsetsDrop(keys - {k}, before, after);
    }
  }

  /** A pass that moves something lowers the sum of the live offsets; no pass raises it. */
  lemma PassLowersOffsets(units: seq<Unit>, n: nat, accounts: map<Pubkey, Entry>, free: set<Span>, p: Plan,
                          accounts': map<Pubkey, Entry>)
    requires Planned(units, n, accounts, free, p) && Moved(accounts, accounts', p.moves, |p.moves|)
    ensures OffsetSum(accounts'.Keys, accounts') <= OffsetSum(accounts.Keys, accounts)
    ensures p.moves != [] ==> OffsetSum(accounts'.Keys, accounts') < OffsetSum(accounts.Keys, accounts)
  {
    forall m | 0 <= m < |p.moves| ensures p.moves[m].dst < p.moves[m].src {
      assert MoveSound(units, p.before, p.runs, p.moves[m], p.into[m]);
    }
    forall a | a in accounts ensures accounts'[a].offset <= accounts[a].offset {
      var m := MoveOf(accounts, p.moves, a);
    }
    if p.moves != [] {
      assert accounts'[p.keys[0]].offset < accounts[p.keys[0]].offset;
    }
    OffsetsDrop(accounts.Keys, accounts, accounts');
  }
}
