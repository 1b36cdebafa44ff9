/** What one packing pass does to a tiled layout, on values: the images survive
    the copy, the new free spans complete the tiling, and the new tail is tight. */
module Relocation {
  import opened Basics
  import opened Layout
  import opened Packing

  /** A plan and the witnesses of its soundness: which run each move fills and
      which account it moves. */
  datatype Plan = Plan(holes: seq<Span>, before: seq<Run>, runs: seq<Run>, moves: seq<Move>,
                       into: seq<nat>, keys: seq<Pubkey>)

  ghost predicate Planned(units: seq<Unit>, n: nat, accounts: map<Pubkey, Entry>, free: set<Span>, p: Plan) {
    && Tiled(units, n, accounts, free)
    && Ascending(p.holes) && (forall h :: h in free <==> h in p.holes)
    && RunsSound(p.holes, p.before)
    && PlanSound(units, p.before, p.runs, p.moves, p.into)
    && KeysName(accounts, p.moves, p.keys)
  }

  /** `keys[m]` is the account whose image move `m` relocates. */
  ghost predicate KeysName(accounts: map<Pubkey, Entry>, moves: seq<Move>, keys: seq<Pubkey>) {
    && |keys| == |moves|
    && forall m :: 0 <= m < |moves| ==> keys[m] in accounts && accounts[keys[m]].offset == moves[m].src
  }

  // ---------------------------------------------------------------- Spans as sets of units

  lemma DisjointFromUnits(a: Span, b: Span)
    requires a.units > 0 && b.units > 0
    requires forall x :: Within(x, a) ==> !Within(x, b)
    ensures Disjoint(a, b)
  {
    assert Within(a.offset, a) && Within(b.offset, b);
    if a.offset < b.offset {
      assert !Within(b.offset, a);
    }
  }

  /** Free units are not live: entry-time holes never overlap an image. */
  lemma FreeIsNotLive(units: seq<Unit>, accounts: map<Pubkey, Entry>, free: set<Span>, x: nat)
    requires FreeApart(units, accounts, free) && FreeUnit(free, x)
    ensures !LiveUnit(units, accounts, x)
  {
  }

  // ---------------------------------------------------------------- Runs and holes

  /** The hole that holds unit `x` of a run. */
  lemma {:induction false} HoleOf(holes: seq<Span>, first: nat, last: nat, x: nat) returns (h: nat)
    requires first < last <= |holes| && holes[first].offset <= x < holes[last - 1].End()
    requires forall i, j :: first <= i < j < last && j == i + 1 ==> holes[i].End() == holes[j].offset
    ensures first <= h < last && Within(x, holes[h])
    decreases last - first
  {
    if x < holes[first].End() {
      h := first;
    } else {
      assert first + 1 < last ==> holes[first].End() == holes[first + 1].offset;
      h := HoleOf(holes, first + 1, last, x);
    }
  }

  /** The run that holds hole `h`. */
  lemma {:induction false} RunOf(holes: seq<Span>, runs: seq<Run>, n: nat, h: nat) returns (r: nat)
    requires RunsSound(holes, runs) && n <= |runs| && n > 0 && h < runs[n - 1].last
    ensures r < n && runs[r].first <= h < runs[r].last
  {
    if runs[n - 1].first <= h {
      r := n - 1;
    } else {
      r := RunOf(holes, runs, n - 1, h);
    }
  }

  lemma {:induction false} RunsInOrder(holes: seq<Span>, runs: seq<Run>, i: nat, j: nat)
    requires Ascending(holes) && RunsSound(holes, runs) && i < j < |runs|
    ensures runs[i].last <= runs[j].first && runs[i].End() <= runs[j].offset
    decreases j
  {
    assert Groups(holes, runs[i]) && Groups(holes, runs[j]) && Groups(holes, runs[j - 1]);
    assert runs[j - 1].last == runs[j].first;
    if i < j - 1 {
      RunsInOrder(holes, runs, i, j - 1);
    }
    assert holes[runs[i].last - 1].End() <= holes[runs[j].first].offset;
  }

  lemma RunsOrdered(holes: seq<Span>, runs: seq<Run>)
    requires Ascending(holes) && RunsSound(holes, runs)
    ensures RunsAscend(runs) && forall i :: 0 <= i < |runs| ==> runs[i].units > 0
  {
    forall i, j | 0 <= i < j < |runs| ensures runs[i].End() <= runs[j].offset {
      RunsInOrder(holes, runs, i, j);
    }
    forall i | 0 <= i < |runs| ensures runs[i].units > 0 {
      assert Groups(holes, runs[i]);
      var a, b := runs[i].first, runs[i].last - 1;
      assert a < b ==> holes[a].End() <= holes[b].offset;
    }
  }

  /** Every unit of an entry-time run is free at entry. */
  lemma RunIsFree(free: set<Span>, p: Plan, r: nat, x: nat)
    requires (forall h :: h in free <==> h in p.holes) && RunsSound(p.holes, p.before)
    requires r < |p.before| && Within(x, p.before[r].Free())
    ensures FreeUnit(free, x)
  {
    assert Groups(p.holes, p.before[r]);
    var h := HoleOf(p.holes, p.before[r].first, p.before[r].last, x);
    assert p.holes[h] in free;
  }

  // ---------------------------------------------------------------- Sources and destinations

  /** Every destination unit is free at entry. */
  lemma TargetIsFree(units: seq<Unit>, n: nat, accounts: map<Pubkey, Entry>, free: set<Span>, p: Plan, m: nat, x: nat)
    requires Planned(units, n, accounts, free, p) && m < |p.moves| && Within(x, p.moves[m].Target())
    ensures FreeUnit(free, x) && !LiveUnit(units, accounts, x)
  {
    assert MoveSound(units, p.before, p.runs, p.moves[m], p.into[m]);
    assert Within(x, p.before[p.into[m]].Free());
    RunIsFree(free, p, p.into[m], x);
    FreeIsNotLive(units, accounts, free, x);
  }

  /** Every source unit is live at entry, in the image of the moved account. */
  lemma SourceIsLive(units: seq<Unit>, n: nat, accounts: map<Pubkey, Entry>, free: set<Span>, p: Plan, m: nat, x: nat)
    requires Planned(units, n, accounts, free, p) && m < |p.moves| && Within(x, p.moves[m].Source())
    ensures LiveUnit(units, accounts, x) && !FreeUnit(free, x)
  {
  }

  lemma SourcesDescend(units: seq<Unit>, n: nat, accounts: map<Pubkey, Entry>, free: set<Span>, p: Plan, a: nat, b: nat)
    requires Planned(units, n, accounts, free, p) && a < b < |p.moves|
    ensures p.moves[b].Source().End() <= p.moves[a].src
  {
  }

  lemma RemainderApart(units: seq<Unit>, n: nat, accounts: map<Pubkey, Entry>, free: set<Span>, p: Plan, i: nat, m: nat)
    requires Planned(units, n, accounts, free, p) && i < |p.runs| && m < |p.moves| && p.runs[i].units > 0
    ensures Disjoint(p.runs[i].Free(), p.moves[m].Source())
  {
    hide Tiled, Ascending, KeysName;
    assert MoveSound(units, p.before, p.runs, p.moves[m], p.into[m]);
    forall x | Within(x, p.moves[m].Source()) ensures !Within(x, p.runs[i].Free()) {
      SourceIsLive(units, n, accounts, free, p, m, x);
      if Within(x, p.runs[i].Free()) {
        RunIsFree(free, p, i, x);
      }
    }
    DisjointFromUnits(p.moves[m].Source(), p.runs[i].Free());
  }

  /** What is free after the pass is a set of separate spans below `n`. */
  lemma VacantSpans(units: seq<Unit>, n: nat, accounts: map<Pubkey, Entry>, free: set<Span>, p: Plan)
    requires Planned(units, n, accounts, free, p)
    ensures VacantApart(p.runs, p.moves) && EndBy(p.runs, |p.runs|, p.moves, 0, n)
  {
    RunsOrdered(p.holes, p.before);
    forall a, b | 0 <= a < b < |p.moves| ensures p.moves[b].Source().End() <= p.moves[a].src {
      SourcesDescend(units, n, accounts, free, p, a, b);
    }
    forall i, m | 0 <= i < |p.runs| && 0 <= m < |p.moves| && p.runs[i].units > 0
      ensures Disjoint(p.runs[i].Free(), p.moves[m].Source())
    {
      RemainderApart(units, n, accounts, free, p, i, m);
    }
    forall i | 0 <= i < |p.runs| ensures p.runs[i].End() <= n {
      assert Groups(p.holes, p.before[i]);
      assert p.holes[p.before[i].last - 1] in free;
    }
    forall m | 0 <= m < |p.moves| ensures p.moves[m].units > 0 && p.moves[m].Source().End() <= n {
      assert MoveSound(units, p.before, p.runs, p.moves[m], p.into[m]);
      assert ImageAt(units, n, p.keys[m], accounts[p.keys[m]]);
    }
  }
}
