/** One packing pass on values: grouping holes into runs, best fit with a useful
    remainder, descending packing, and the new tail. */
module Packing {
  import opened Basics
  import opened Layout

  /** Smallest useful destination remainder, in storage units. */
  const MIN_REMAINDER: nat := 43

  /** Adjacent holes `holes[first..last]`, combined as one destination. */
  datatype Run = Run(first: nat, last: nat, offset: Offset, units: nat) {
    function End(): nat {
      offset + units
    }
    function Free(): Span {
      Span(offset, units)
    }
  }

  datatype Move = Move(src: Offset, dst: Offset, units: nat) {
    function Source(): Span {
      Span(src, units)
    }
    function Target(): Span {
      Span(dst, units)
    }
  }

  /** Free spans in ascending, non-overlapping order. */
  ghost predicate Ascending(holes: seq<Span>) {
    && (forall i :: 0 <= i < |holes| ==> holes[i].units > 0)
    && (forall i, j :: 0 <= i < j < |holes| ==> holes[i].End() <= holes[j].offset)
  }

  /** `run` is the maximal adjacent group `holes[first..last]`. */
  ghost predicate Groups(holes: seq<Span>, run: Run) {
    && run.first < run.last <= |holes|
    && run.offset == holes[run.first].offset
    && run.End() == holes[run.last - 1].End()
    && (forall i, j :: run.first <= i < j < run.last && j == i + 1 ==> holes[i].End() == holes[j].offset)
    && (run.last < |holes| ==> run.End() < holes[run.last].offset)
  }

  /** The runs partition the holes in order. */
  ghost predicate RunsSound(holes: seq<Span>, runs: seq<Run>) {
    && (forall i :: 0 <= i < |runs| ==> Groups(holes, runs[i]))
    && (forall i, j :: 0 <= i < j < |runs| && j == i + 1 ==> runs[i].last == runs[j].first)
    && (if runs == [] then holes == [] else runs[0].first == 0 && runs[|runs| - 1].last == |holes|)
  }

  /** The maximal run starting at hole `first`. */
  method NextRun(holes: seq<Span>, first: nat) returns (run: Run)
    requires Ascending(holes) && first < |holes|
    ensures Groups(holes, run) && run.first == first
  {
    var end := holes[first].End();
    var i := first + 1;
    while i < |holes| && holes[i].offset == end
      invariant first < i <= |holes|
      invariant end == holes[i - 1].End() && holes[first].offset <= end
      invariant forall a, b :: first <= a < b < i && b == a + 1 ==> holes[a].End() == holes[b].offset
    {
      end := holes[i].End();
      i := i + 1;
    }
    assert i < |holes| ==> holes[i - 1].End() <= holes[i].offset;
    run := Run(first, i, holes[first].offset, end - holes[first].offset);
  }

  /** Groups physically adjacent holes without changing their shape. */
  method GroupRuns(holes: seq<Span>) returns (runs: seq<Run>)
    requires Ascending(holes)
    ensures RunsSound(holes, runs)
  {
    hide Groups;
    runs := [];
    var i := 0;
    while i < |holes|
      invariant 0 <= i <= |holes|
      invariant forall r :: 0 <= r < |runs| ==> Groups(holes, runs[r])
      invariant forall a, b :: 0 <= a < b < |runs| && b == a + 1 ==> runs[a].last == runs[b].first
      invariant if runs == [] then i == 0 else runs[0].first == 0 && runs[|runs| - 1].last == i
    {
      var run := NextRun(holes, i);
      runs := runs + [run];
      i := run.last;
    }
  }

  // ---------------------------------------------------------------- Best fit

  datatype Fit = Fit(units: nat, offset: Offset, run: nat)

  /** Order of the fit set: remaining units, then lowest offset, then run. */
  predicate Before(a: Fit, b: Fit) {
    || a.units < b.units
    || (a.units == b.units && (a.offset < b.offset || (a.offset == b.offset && a.run <= b.run)))
  }

  /** A run of `size` units takes `need`: exactly, or leaving a useful remainder. */
  predicate Fits(size: nat, need: nat) {
    size == need || size >= need + MIN_REMAINDER
  }

  /** The first entry with at least `low` and at most `high` units. */
  method FirstInRange(fit: set<Fit>, low: nat, high: Option<nat>) returns (first: Option<Fit>)
    ensures first.None? ==> forall f :: f in fit ==> !(low <= f.units && (high.Some? ==> f.units <= high.value))
    ensures first.Some? ==>
              && first.value in fit && low <= first.value.units && (high.Some? ==> first.value.units <= high.value)
              && forall f :: f in fit && low <= f.units && (high.Some? ==> f.units <= high.value) ==>
                   Before(first.value, f)
    ensures first.Some? ==> forall f :: f in fit && low <= f.units && (high.Some? ==> f.units <= high.value) ==>
              first.value.units < f.units || (first.value.units == f.units && first.value.offset <= f.offset)
  {
    first := None;
    var rest := fit;
    while rest != {}
      invariant rest <= fit
      invariant first.None? ==> forall f :: f in fit - rest ==>
                  !(low <= f.units && (high.Some? ==> f.units <= high.value))
      invariant first.Some? ==>
                  && first.value in fit && low <= first.value.units && (high.Some? ==> first.value.units <= high.value)
                  && forall f :: f in fit - rest && low <= f.units && (high.Some? ==> f.units <= high.value) ==>
                                 Before(first.value, f)
      decreases |rest|
    {
      var f :| f in rest;
      rest := rest - {f};
      if low <= f.units && (high.Some? ==> f.units <= high.value) && (first.None? || Before(f, first.value)) {
        first := Some(f);
      }
    }
  }

  /** The most remaining units of any run. */
  method Largest(fit: set<Fit>) returns (largest: nat)
    requires fit != {}
    ensures (exists f :: f in fit && f.units == largest) && forall f :: f in fit ==> f.units <= largest
  {
    var f :| f in fit;
    largest := f.units;
    var rest := fit - {f};
    while rest != {}
      invariant rest <= fit
      invariant exists g :: g in fit && g.units == largest
      invariant forall g :: g in fit - rest ==> g.units <= largest
      decreases |rest|
    {
      var g :| g in rest;
      rest := rest - {g};
      if g.units > largest {
        largest := g.units;
      }
    }
  }

  /** Selects the best exact fit, or the best fit with a useful remainder. */
  method BestFit(fit: set<Fit>, units: nat) returns (best: Option<Fit>)
    ensures best.None? <==> forall f :: f in fit ==> !Fits(f.units, units)
    ensures best.Some? ==> best.value in fit && Fits(best.value.units, units)
    ensures best.Some? ==> forall f :: f in fit && f.units == units ==>
              best.value.units == units && Before(best.value, f)
    ensures best.Some? ==> forall f :: f in fit && Fits(f.units, units) && best.value.units != units ==>
              Before(best.value, f)
    ensures best.Some? && best.value.units == units ==> forall f :: f in fit && f.units == units ==>
              best.value.offset <= f.offset
    ensures best.Some? && best.value.units != units ==> forall f :: f in fit ==>
              if f.units < units + 43 then f.units != units
              else best.value.units < f.units || (best.value.units == f.units && best.value.offset <= f.offset)
  {
    if fit == {} {
      return None;
    }
    var largest := Largest(fit);
    if units > largest {
      return None;
    }
    best := FirstInRange(fit, units, Some(units));
    if best.Some? || units + MIN_REMAINDER > largest {
      return;
    }
    best := FirstInRange(fit, units + MIN_REMAINDER, None);
  }

  // ---------------------------------------------------------------- Packing

  /** How far packing has consumed each run: runs keep their end and their
      parts, and only their front moves up. */
  ghost predicate Consumed(before: seq<Run>, after: seq<Run>) {
    && |after| == |before|
    && forall i :: 0 <= i < |before| ==>
         && after[i].first == before[i].first && after[i].last == before[i].last
         && after[i].End() == before[i].End()
         && before[i].offset <= after[i].offset
  }

  /** Move `m` copies the live image at its source into run `r`, which lies
      wholly below the source. */
  ghost predicate MoveSound(units: seq<Unit>, before: seq<Run>, after: seq<Run>, m: Move, r: nat)
    requires |after| == |before|
  {
    && r < |before|
    && m.Source() == SpanAt(units, m.src) && m.units > 0
    && before[r].offset <= m.dst && m.dst + m.units <= after[r].offset
    && before[r].End() <= m.src
  }

  /** The plan: every move is sound, sources descend, destinations are disjoint,
      and they fill exactly the consumed front of each run. */
  ghost predicate PlanSound(units: seq<Unit>, before: seq<Run>, after: seq<Run>, moves: seq<Move>, into: seq<nat>)
  {
    && Consumed(before, after)
    && |into| == |moves|
    && (forall m :: 0 <= m < |moves| ==> MoveSound(units, before, after, moves[m], into[m]))
    && (forall a, b :: 0 <= a < b < |moves| ==> moves[b].src < moves[a].src)
    && (forall a, b :: 0 <= a < b < |moves| ==> Disjoint(moves[a].Target(), moves[b].Target()))
    && (forall r, x :: 0 <= r < |before| && before[r].offset <= x < after[r].offset ==> Filled(moves, into, r, x))
  }

  /** Unit `x` of run `r` is the destination of some move. */
  ghost predicate Filled(moves: seq<Move>, into: seq<nat>, r: nat, x: nat) {
    exists m :: 0 <= m < |moves| && m < |into| && into[m] == r && Within(x, moves[m].Target())
  }

  /** Runs lie one after another. */
  ghost predicate RunsAscend(runs: seq<Run>) {
    forall i, j :: 0 <= i < j < |runs| ==> runs[i].End() <= runs[j].offset
  }

  /** The fit set holds exactly the eligible runs that still have room. */
  ghost predicate FitTracks(fit: set<Fit>, runs: seq<Run>, eligible: nat)
    requires eligible <= |runs|
  {
    && (forall f :: f in fit ==> f.run < eligible && runs[f.run].units > 0 &&
                                 f == Fit(runs[f.run].units, runs[f.run].offset, f.run))
    && (forall i :: 0 <= i < eligible && runs[i].units > 0 ==> Fit(runs[i].units, runs[i].offset, i) in fit)
  }

  /** Taking `units` from run `r` extends a sound plan by one move. */
  lemma TakeKeepsPlan(units: seq<Unit>, before: seq<Run>, after: seq<Run>, moves: seq<Move>, into: seq<nat>,
                      r: nat, move: Move)
    requires PlanSound(units, before, after, moves, into) && RunsAscend(before)
    requires r < |after| && move.dst == after[r].offset && 0 < move.units <= after[r].units
    requires move.Source() == SpanAt(units, move.src) && after[r].End() <= move.src
    requires forall m :: 0 <= m < |moves| ==> move.src < moves[m].src
    ensures PlanSound(units, before, after[r := Taken(after[r], move.units)], moves + [move], into + [r])
  {
    hide MoveSound, Filled, RunsAscend;
    var after', moves', into' := after[r := Taken(after[r], move.units)], moves + [move], into + [r];
    forall m | 0 <= m < |moves| ensures Disjoint(moves[m].Target(), move.Target()) {
      TakenApart(units, before, after, moves[m], into[m], r, move);
    }
    forall i, x | 0 <= i < |before| && before[i].offset <= x < after'[i].offset ensures Filled(moves', into', i, x) {
      TakenFills(before, after, moves, into, r, move, i, x);
    }
    forall m | 0 <= m < |moves'| ensures MoveSound(units, before, after', moves'[m], into'[m]) {
      if m < |moves| {
        MoveStaysSound(units, before, after, moves[m], into[m], r, move.units);
      } else {
        TakenIsSound(units, before, after, r, move);
      }
    }
  }

  lemma TakenApart(units: seq<Unit>, before: seq<Run>, after: seq<Run>, m: Move, q: nat, r: nat, move: Move)
    requires Consumed(before, after) && RunsAscend(before) && MoveSound(units, before, after, m, q)
    requires r < |after| && move.dst == after[r].offset && 0 < move.units <= after[r].units
    ensures Disjoint(m.Target(), move.Target())
  {
    if q < r {
      assert before[q].End() <= before[r].offset;
    } else if r < q {
      assert before[r].End() <= before[q].offset;
    }
  }

  lemma TakenFills(before: seq<Run>, after: seq<Run>, moves: seq<Move>, into: seq<nat>, r: nat, move: Move,
                   i: nat, x: nat)
    requires |after| == |before| && |into| == |moves| && i < |before|
    requires r < |after| && move.dst == after[r].offset && 0 < move.units <= after[r].units
    requires before[i].offset <= x < after[i].offset ==> Filled(moves, into, i, x)
    requires before[i].offset <= x < after[r := Taken(after[r], move.units)][i].offset
    ensures Filled(moves + [move], into + [r], i, x)
  {
    var moves', into' := moves + [move], into + [r];
    if i == r && after[r].offset <= x {
      assert into'[|moves|] == r && moves'[|moves|] == move;
    } else {
      var m :| 0 <= m < |moves| && into[m] == i && Within(x, moves[m].Target());
      assert into'[m] == i && moves'[m] == moves[m];
    }
  }

  lemma MoveStaysSound(units: seq<Unit>, before: seq<Run>, after: seq<Run>, m: Move, q: nat, r: nat, need: nat)
    requires |after| == |before| && MoveSound(units, before, after, m, q) && r < |after| && need <= after[r].units
    ensures MoveSound(units, before, after[r := Taken(after[r], need)], m, q)
  {
  }

  lemma TakenIsSound(units: seq<Unit>, before: seq<Run>, after: seq<Run>, r: nat, move: Move)
    requires Consumed(before, after) && r < |after| && move.dst == after[r].offset && 0 < move.units <= after[r].units
    requires move.Source() == SpanAt(units, move.src) && after[r].End() <= move.src
    ensures MoveSound(units, before, after[r := Taken(after[r], move.units)], move, r)
  {
  }

  /** No run wholly below one of the first `n` images can take it. */
  ghost predicate NothingFits(units: seq<Unit>, accounts: seq<Offset>, n: nat, runs: seq<Run>)
    requires n <= |accounts|
  {
    forall a, i :: 0 <= a < n && 0 <= i < |runs| ==>
      accounts[a] < runs[i].End() || !Fits(runs[i].units, SpanAt(units, accounts[a]).units)
  }

  ghost predicate Descending(accounts: seq<Offset>) {
    forall i, j :: 0 <= i < j < |accounts| ==> accounts[j] < accounts[i]
  }

  /** Run `i` may take an image of `need` units stored at `src`. */
  ghost predicate CanTake(runs: seq<Run>, i: nat, src: Offset, need: nat) {
    i < |runs| && runs[i].End() <= src && runs[i].units > 0 && Fits(runs[i].units, need)
  }

  /** Run `i` starts below run `j`, or is the earlier of two at one offset. */
  predicate Lower(runs: seq<Run>, i: nat, j: nat)
    requires i < |runs| && j < |runs|
  {
    runs[i].offset < runs[j].offset || (runs[i].offset == runs[j].offset && i <= j)
  }

  /** Run `i` is the best of all runs: an exact fit if there is one, else the
      smallest with a useful remainder; ties go to the lowest offset. */
  ghost predicate IsBest(runs: seq<Run>, i: nat, src: Offset, need: nat) {
    CanTake(runs, i, src, need) && forall j: nat :: CanTake(runs, j, src, need) ==> Preferred(runs, i, j, need)
  }

  predicate Preferred(runs: seq<Run>, i: nat, j: nat, need: nat)
    requires i < |runs| && j < |runs|
  {
    if runs[i].units == need then runs[j].units == need ==> Lower(runs, i, j)
    else
      && runs[j].units != need
      && (runs[i].units < runs[j].units || (runs[i].units == runs[j].units && Lower(runs, i, j)))
  }

  /** Greedy packing, said simply: every image from the tail down goes to the best
      of all runs below it, if any can take it. */
  ghost function PackedBy(units: seq<Unit>, accounts: seq<Offset>, a: nat, before: seq<Run>): (seq<Run>, seq<Move>)
    requires a <= |accounts|
  {
    if a == 0 then (before, [])
    else
      var (runs, moves) := PackedBy(units, accounts, a - 1, before);
      var src, need := accounts[a - 1], SpanAt(units, accounts[a - 1]).units;
      if exists i: nat :: IsBest(runs, i, src, need) then
        var i: nat :| IsBest(runs, i, src, need);
        (runs[i := Taken(runs[i], need)], moves + [Move(src, runs[i].offset, need)])
      else (runs, moves)
  }

  lemma PackedByBest(units: seq<Unit>, accounts: seq<Offset>, a: nat, before: seq<Run>, runs: seq<Run>,
                     moves: seq<Move>, i: nat)
    requires a < |accounts| && PackedBy(units, accounts, a, before) == (runs, moves)
    requires IsBest(runs, i, accounts[a], SpanAt(units, accounts[a]).units)
    ensures var need := SpanAt(units, accounts[a]).units;
      PackedBy(units, accounts, a + 1, before) ==
      (runs[i := Taken(runs[i], need)], moves + [Move(accounts[a], runs[i].offset, need)])
  {
  }

  /** Move `m` took image `a` to run `i`, the best of the runs as they were then. */
  ghost predicate BestMoveAt(units: seq<Unit>, accounts: seq<Offset>, before: seq<Run>, moves: seq<Move>, m: nat,
                             a: nat, i: nat)
    requires m < |moves| && a < |accounts|
  {
    var (runs, earlier) := PackedBy(units, accounts, a, before);
    var need := SpanAt(units, accounts[a]).units;
    && earlier == moves[..m] && IsBest(runs, i, accounts[a], need)
    && moves[m] == Move(accounts[a], runs[i].offset, need)
  }

  ghost predicate BestMove(units: seq<Unit>, accounts: seq<Offset>, before: seq<Run>, moves: seq<Move>, m: nat)
    requires m < |moves|
  {
    exists a: nat, i: nat :: a < |accounts| && BestMoveAt(units, accounts, before, moves, m, a, i)
  }

  /** Every move of the greedy packing goes to the best run of its moment. */
  lemma {:induction false} MovesAreBest(units: seq<Unit>, accounts: seq<Offset>, n: nat, before: seq<Run>, m: nat)
    requires n <= |accounts| && m < |PackedBy(units, accounts, n, before).1|
    ensures BestMove(units, accounts, before, PackedBy(units, accounts, n, before).1, m)
    decreases n
  {
    hide Preferred;
    if n > 0 {
      var (runs, earlier) := PackedBy(units, accounts, n - 1, before);
      var moves := PackedBy(units, accounts, n, before).1;
      if m < |earlier| {
        MovesAreBest(units, accounts, n - 1, before, m);
        var a: nat, i: nat :| a < |accounts| && BestMoveAt(units, accounts, before, earlier, m, a, i);
        assert earlier[..m] == moves[..m];
        assert BestMoveAt(units, accounts, before, moves, m, a, i);
      } else {
        var src, need := accounts[n - 1], SpanAt(units, accounts[n - 1]).units;
        var i: nat :| IsBest(runs, i, src, need);
        PackedByBest(units, accounts, n - 1, before, runs, earlier, i);
        assert BestMoveAt(units, accounts, before, moves, m, n - 1, i);
      }
    }
  }

  /** Among the first `n` runs some run is preferred, if any can take the image. */
  lemma {:induction false} SomeRunIsPreferred(runs: seq<Run>, n: nat, src: Offset, need: nat, j: nat)
    returns (i: nat)
    requires j < n <= |runs| && CanTake(runs, j, src, need)
    ensures i < n && CanTake(runs, i, src, need)
    ensures forall k: nat :: k < n && CanTake(runs, k, src, need) ==> Preferred(runs, i, k, need)
  {
    i := n - 1;
    if l: nat :| l < n - 1 && CanTake(runs, l, src, need) {
      var best := SomeRunIsPreferred(runs, n - 1, src, need, l);
      if !CanTake(runs, n - 1, src, need) || Preferred(runs, best, n - 1, need) {
        i := best;
      }
    }
  }

  /** An image stays exactly when no run below it can take it at its turn. */
  lemma StaysIffNoneCanTake(units: seq<Unit>, accounts: seq<Offset>, a: nat, before: seq<Run>)
    requires a < |accounts|
    ensures var (runs, moves) := PackedBy(units, accounts, a, before);
      PackedBy(units, accounts, a + 1, before).1 == moves <==>
      forall i: nat :: !CanTake(runs, i, accounts[a], SpanAt(units, accounts[a]).units)
  {
    var (runs, moves) := PackedBy(units, accounts, a, before);
    var src, need := accounts[a], SpanAt(units, accounts[a]).units;
    if j: nat :| j < |runs| && CanTake(runs, j, src, need) {
      var i := SomeRunIsPreferred(runs, |runs|, src, need, j);
      PackedByBest(units, accounts, a, before, runs, moves, i);
    }
  }

  /** When no run that still has room ends by `accounts[a]`, packing is over. */
  lemma {:induction false} PackedByRest(units: seq<Unit>, accounts: seq<Offset>, a: nat, n: nat, before: seq<Run>,
                                        runs: seq<Run>, moves: seq<Move>)
    requires a <= n <= |accounts| && Descending(accounts) && PackedBy(units, accounts, a, before) == (runs, moves)
    requires a < |accounts| ==> forall i :: 0 <= i < |runs| ==> runs[i].units == 0 || accounts[a] < runs[i].End()
    ensures PackedBy(units, accounts, n, before) == (runs, moves)
    decreases n
  {
    if a < n {
      PackedByRest(units, accounts, a, n - 1, before, runs, moves);
      assert accounts[n - 1] <= accounts[a];
    }
  }

  /** What packing maintains after visiting the first `a` images. */
  ghost predicate Packed(units: seq<Unit>, accounts: seq<Offset>, a: nat, before: seq<Run>, runs: seq<Run>,
                         moves: seq<Move>, into: seq<nat>)
    requires a <= |accounts|
  {
    && PlanSound(units, before, runs, moves, into) && PackedBy(units, accounts, a, before) == (runs, moves)
    && (forall m :: 0 <= m < |moves| ==> moves[m].src in accounts)
    && (a < |accounts| ==> forall m :: 0 <= m < |moves| ==> accounts[a] < moves[m].src)
    && (moves == [] ==> runs == before && NothingFits(units, accounts, a, before))
  }

  /** Runs beyond `eligible` reach above everything still to be visited. */
  ghost predicate Retired(accounts: seq<Offset>, a: nat, runs: seq<Run>, eligible: nat)
    requires a <= |accounts|
  {
    a < |accounts| ==> forall i :: eligible <= i < |runs| ==> accounts[a] < runs[i].End()
  }

  /** Drops runs that do not end at or below `src` from the fit set. */
  method Retire(fit0: set<Fit>, runs: seq<Run>, eligible0: nat, src: Offset) returns (fit: set<Fit>, eligible: nat)
    requires eligible0 <= |runs| && FitTracks(fit0, runs, eligible0)
    ensures eligible <= eligible0 && FitTracks(fit, runs, eligible)
    ensures forall i :: eligible <= i < eligible0 ==> src < runs[i].End()
    ensures eligible > 0 ==> runs[eligible - 1].End() <= src
  {
    fit, eligible := fit0, eligible0;
    while eligible > 0 && runs[eligible - 1].End() > src
      invariant eligible <= eligible0 && FitTracks(fit, runs, eligible)
      invariant forall i :: eligible <= i < eligible0 ==> src < runs[i].End()
    {
      var i := eligible - 1;
      fit := fit - {Fit(runs[i].units, runs[i].offset, i)};
      eligible := i;
    }
  }

  /** A run after `units` were taken from its front. */
  function Taken(run: Run, units: nat): Run
    requires units <= run.units
  {
    run.(offset := run.offset + units, units := run.units - units)
  }

  lemma TakeKeepsFit(fit: set<Fit>, runs: seq<Run>, eligible: nat, best: Fit, need: nat)
    requires eligible <= |runs| && FitTracks(fit, runs, eligible) && best in fit && need <= best.units
    ensures var runs' := runs[best.run := Taken(runs[best.run], need)];
      var rest := fit - {best};
      var run := runs'[best.run];
      FitTracks(if run.units > 0 then rest + {Fit(run.units, run.offset, best.run)} else rest, runs', eligible)
  {
  }

  lemma NothingPacked(units: seq<Unit>, accounts: seq<Offset>, before: seq<Run>)
    ensures Packed(units, accounts, 0, before, before, [], [])
  {
  }

  /** Packs accounts in descending source order into eligible runs. */
  method Pack(units: seq<Unit>, accounts: seq<Offset>, before: seq<Run>)
    returns (runs: seq<Run>, moves: seq<Move>, ghost into: seq<nat>)
    requires RunsAscend(before) && forall i :: 0 <= i < |before| ==> before[i].units > 0
    requires Descending(accounts)
    requires forall i :: 0 <= i < |accounts| ==> SpanAt(units, accounts[i]).units > 0
    ensures (runs, moves) == PackedBy(units, accounts, |accounts|, before)
    ensures PlanSound(units, before, runs, moves, into)
    ensures forall m :: 0 <= m < |moves| ==> moves[m].src in accounts
    ensures moves == [] ==> runs == before && NothingFits(units, accounts, |accounts|, before)
    ensures forall m :: 0 <= m < |moves| ==> BestMove(units, accounts, before, moves, m)
  {
    hide BestMove, Packed, FitTracks, Retired, NothingFits, PlanSound, PackedBy, RunsAscend, Descending;
    runs, moves, into := before, [], [];
    NothingPacked(units, accounts, before);
    StartFits(accounts, before);
    var fit := set i | 0 <= i < |runs| :: Fit(runs[i].units, runs[i].offset, i);
    var eligible: nat := |runs|;
    var a := 0;
    while a < |accounts|
      invariant 0 <= a <= |accounts| && eligible <= |runs|
      invariant Packed(units, accounts, a, before, runs, moves, into)
      invariant FitTracks(fit, runs, eligible) && Retired(accounts, a, runs, eligible)
    {
      ghost var was := eligible;
      fit, eligible := Retire(fit, runs, eligible, accounts[a]);
      RetiredMore(accounts, a, runs, was, eligible);
      if fit == {} {
        EmptyFitIsPacked(units, accounts, a, before, runs, eligible, moves, into);
        break;
      }
      runs, moves, into, fit := PackOne(units, accounts, a, before, runs, moves, into, fit, eligible);
      a := a + 1;
    }
    PackedMeans(units, accounts, before, runs, moves, into);
    forall m | 0 <= m < |moves| ensures BestMove(units, accounts, before, moves, m) {
      MovesAreBest(units, accounts, |accounts|, before, m);
    }
  }

  /** At the start every run can be taken from. */
  lemma StartFits(accounts: seq<Offset>, runs: seq<Run>)
    requires forall i :: 0 <= i < |runs| ==> runs[i].units > 0
    ensures FitTracks(set i | 0 <= i < |runs| :: Fit(runs[i].units, runs[i].offset, i), runs, |runs|)
    ensures Retired(accounts, 0, runs, |runs|)
  {
  }

  lemma RetiredMore(accounts: seq<Offset>, a: nat, runs: seq<Run>, was: nat, eligible: nat)
    requires a < |accounts| && eligible <= was <= |runs| && Retired(accounts, a, runs, was)
    requires forall i :: eligible <= i < was ==> accounts[a] < runs[i].End()
    ensures Retired(accounts, a, runs, eligible)
  {
  }

  /** Once no run is left to take from, the rest of the images stay. */
  lemma EmptyFitIsPacked(units: seq<Unit>, accounts: seq<Offset>, a: nat, before: seq<Run>, runs: seq<Run>,
                         eligible: nat, moves: seq<Move>, into: seq<nat>)
    requires a < |accounts| && eligible <= |runs| && FitTracks({}, runs, eligible) && Descending(accounts)
    requires Retired(accounts, a, runs, eligible) && Packed(units, accounts, a, before, runs, moves, into)
    requires forall i :: 0 <= i < |before| ==> before[i].units > 0
    ensures Packed(units, accounts, |accounts|, before, runs, moves, into)
  {
    hide FitTracks, Retired, NothingFits, PlanSound, PackedBy, Descending;
    EmptyFitFitsNothing(units, accounts, a, before, runs, eligible, moves);
    EmptyFitEnds(units, accounts, a, before, runs, eligible, moves);
  }

  lemma PackedMeans(units: seq<Unit>, accounts: seq<Offset>, before: seq<Run>, runs: seq<Run>, moves: seq<Move>,
                    into: seq<nat>)
    requires Packed(units, accounts, |accounts|, before, runs, moves, into)
    ensures (runs, moves) == PackedBy(units, accounts, |accounts|, before)
    ensures PlanSound(units, before, runs, moves, into)
    ensures forall m :: 0 <= m < |moves| ==> moves[m].src in accounts
    ensures moves == [] ==> runs == before && NothingFits(units, accounts, |accounts|, before)
  {
    hide NothingFits, PlanSound, PackedBy;
  }

  /** Visits one image: places it in the best run, if any takes it. */
  method PackOne(units: seq<Unit>, accounts: seq<Offset>, a: nat, ghost before: seq<Run>, runs0: seq<Run>,
                 moves0: seq<Move>, ghost into0: seq<nat>, fit0: set<Fit>, ghost eligible: nat)
    returns (runs: seq<Run>, moves: seq<Move>, ghost into: seq<nat>, fit: set<Fit>)
    requires RunsAscend(before) && forall i :: 0 <= i < |before| ==> before[i].units > 0
    requires Descending(accounts) && a < |accounts| && SpanAt(units, accounts[a]).units > 0
    requires Packed(units, accounts, a, before, runs0, moves0, into0)
    requires eligible <= |runs0| && FitTracks(fit0, runs0, eligible) && Retired(accounts, a, runs0, eligible)
    requires eligible > 0 ==> runs0[eligible - 1].End() <= accounts[a]
    ensures |runs| == |runs0| && Packed(units, accounts, a + 1, before, runs, moves, into)
    ensures FitTracks(fit, runs, eligible) && Retired(accounts, a + 1, runs, eligible)
  {
    runs, moves, into, fit := runs0, moves0, into0, fit0;
    var src := accounts[a];
    var best := BestFit(fit, SpanAt(units, src).units);
    if best.Some? {
      EligibleBelow(before, runs, eligible, best.value.run, src);
      BestIsBest(runs, eligible, fit, accounts, a, best.value, SpanAt(units, src).units);
      PackedByBest(units, accounts, a, before, runs, moves, best.value.run);
      runs, moves, into, fit := Place(units, before, runs, moves, into, fit, eligible, best.value, src,
                                      SpanAt(units, src).units);
      PlacedIsPacked(units, accounts, a, before, runs0, runs, moves0, moves, into);
    } else {
      NoneCanTake(runs, eligible, fit, accounts, a, SpanAt(units, src).units);
      NothingFitsStep(units, accounts, a, before, runs, eligible, fit, moves);
    }
  }

  /** Takes the chosen run's front for the image at `src` and records the move. */
  method Place(ghost units: seq<Unit>, ghost before: seq<Run>, runs0: seq<Run>, moves0: seq<Move>,
               ghost into0: seq<nat>, fit0: set<Fit>, ghost eligible: nat, best: Fit, src: Offset, need: nat)
    returns (runs: seq<Run>, moves: seq<Move>, ghost into: seq<nat>, fit: set<Fit>)
    requires PlanSound(units, before, runs0, moves0, into0) && RunsAscend(before)
    requires eligible <= |runs0| && FitTracks(fit0, runs0, eligible) && best in fit0
    requires 0 < need == SpanAt(units, src).units <= best.units && runs0[best.run].End() <= src
    requires forall m :: 0 <= m < |moves0| ==> src < moves0[m].src
    ensures PlanSound(units, before, runs, moves, into) && |runs| == |runs0| && FitTracks(fit, runs, eligible)
    ensures moves == moves0 + [Move(src, runs0[best.run].offset, need)]
    ensures runs == runs0[best.run := Taken(runs0[best.run], need)]
    ensures forall i :: 0 <= i < |runs| ==> runs[i].End() == runs0[i].End()
  {
    var r := best.run;
    var move := Move(src, runs0[r].offset, need);
    TakeKeepsPlan(units, before, runs0, moves0, into0, r, move);
    TakeKeepsFit(fit0, runs0, eligible, best, need);
    fit := fit0 - {best};
    runs := runs0[r := Taken(runs0[r], need)];
    moves, into := moves0 + [move], into0 + [r];
    if runs[r].units > 0 {
      fit := fit + {Fit(runs[r].units, runs[r].offset, r)};
    }
  }

  lemma PlacedIsPacked(units: seq<Unit>, accounts: seq<Offset>, a: nat, before: seq<Run>, runs0: seq<Run>,
                       runs: seq<Run>, moves0: seq<Move>, moves: seq<Move>, into: seq<nat>)
    requires Descending(accounts) && a < |accounts| && PlanSound(units, before, runs, moves, into)
    requires forall m :: 0 <= m < |moves0| ==> moves0[m].src in accounts && accounts[a] < moves0[m].src
    requires |moves| == |moves0| + 1 && moves[..|moves0|] == moves0 && moves[|moves0|].src == accounts[a]
    requires PackedBy(units, accounts, a + 1, before) == (runs, moves)
    ensures Packed(units, accounts, a + 1, before, runs, moves, into)
  {
    forall m | 0 <= m < |moves|
      ensures moves[m].src in accounts && (a + 1 < |accounts| ==> accounts[a + 1] < moves[m].src)
    {
      assert m < |moves0| ==> moves[m] == moves0[m];
    }
  }

  /** Eligible runs lie wholly below the current source. */
  lemma EligibleBelow(before: seq<Run>, runs: seq<Run>, eligible: nat, r: nat, src: Offset)
    requires Consumed(before, runs) && RunsAscend(before) && r < eligible <= |runs|
    requires runs[eligible - 1].End() <= src
    ensures runs[r].End() <= src
  {
  }

  lemma NothingFitsStep(units: seq<Unit>, accounts: seq<Offset>, a: nat, before: seq<Run>, runs: seq<Run>,
                        eligible: nat, fit: set<Fit>, moves: seq<Move>)
    requires a < |accounts| && eligible <= |runs| && FitTracks(fit, runs, eligible)
    requires forall i :: 0 <= i < |before| ==> before[i].units > 0
    requires Retired(accounts, a, runs, eligible)
    requires moves == [] ==> runs == before && NothingFits(units, accounts, a, before)
    requires forall f :: f in fit ==> !Fits(f.units, SpanAt(units, accounts[a]).units)
    ensures moves == [] ==> NothingFits(units, accounts, a + 1, before)
  {
  }

  /** The fit set's choice is the best of all runs below the source. */
  lemma BestIsBest(runs: seq<Run>, eligible: nat, fit: set<Fit>, accounts: seq<Offset>, a: nat, best: Fit, need: nat)
    requires a < |accounts| && eligible <= |runs| && FitTracks(fit, runs, eligible) &&
             Retired(accounts, a, runs, eligible)
    requires best in fit && Fits(best.units, need) && runs[best.run].End() <= accounts[a]
    requires forall f :: f in fit && f.units == need ==> best.units == need && Before(best, f)
    requires forall f :: f in fit && Fits(f.units, need) && best.units != need ==> Before(best, f)
    ensures IsBest(runs, best.run, accounts[a], need)
  {
  }

  lemma NoneCanTake(runs: seq<Run>, eligible: nat, fit: set<Fit>, accounts: seq<Offset>, a: nat, need: nat)
    requires a < |accounts| && eligible <= |runs| && FitTracks(fit, runs, eligible) &&
             Retired(accounts, a, runs, eligible)
    requires forall f :: f in fit ==> !Fits(f.units, need)
    ensures forall j: nat :: !CanTake(runs, j, accounts[a], need)
  {
  }

  lemma EmptyFitEnds(units: seq<Unit>, accounts: seq<Offset>, a: nat, before: seq<Run>, runs: seq<Run>,
                     eligible: nat, moves: seq<Move>)
    requires a < |accounts| && eligible <= |runs| && FitTracks({}, runs, eligible) && Descending(accounts)
    requires Retired(accounts, a, runs, eligible) && PackedBy(units, accounts, a, before) == (runs, moves)
    ensures PackedBy(units, accounts, |accounts|, before) == (runs, moves)
  {
    PackedByRest(units, accounts, a, |accounts|, before, runs, moves);
  }

  lemma EmptyFitFitsNothing(units: seq<Unit>, accounts: seq<Offset>, a: nat, before: seq<Run>, runs: seq<Run>,
                            eligible: nat, moves: seq<Move>)
    requires a < |accounts| && eligible <= |runs| && FitTracks({}, runs, eligible)
    requires Descending(accounts) && Retired(accounts, a, runs, eligible)
    requires forall i :: 0 <= i < |before| ==> before[i].units > 0
    requires moves == [] ==> runs == before && NothingFits(units, accounts, a, before)
    ensures moves == [] ==> NothingFits(units, accounts, |accounts|, before)
  {
  }

  // ---------------------------------------------------------------- New tail

  /** Unit `x` is free once the plan has been carried out: it lies in what is
      left of a run, or in a vacated source. */
  ghost predicate FreeAfter(runs: seq<Run>, moves: seq<Move>, x: nat) {
    || (exists i :: 0 <= i < |runs| && Within(x, runs[i].Free()))
    || (exists m :: 0 <= m < |moves| && Within(x, moves[m].Source()))
  }

  /** Remaining runs and vacated sources do not overlap. */
  ghost predicate VacantApart(runs: seq<Run>, moves: seq<Move>) {
    && RunsAscend(runs)
    && (forall m :: 0 <= m < |moves| ==> moves[m].units > 0)
    && (forall a, b :: 0 <= a < b < |moves| ==> moves[b].Source().End() <= moves[a].src)
    && (forall i, m :: 0 <= i < |runs| && 0 <= m < |moves| && runs[i].units > 0 ==>
          Disjoint(runs[i].Free(), moves[m].Source()))
  }

  /** The first `run` runs and the moves from `movement` on end by `tail`. */
  ghost predicate EndBy(runs: seq<Run>, run: nat, moves: seq<Move>, movement: nat, tail: Offset)
    requires run <= |runs|
  {
    && (forall i :: 0 <= i < run && runs[i].units > 0 ==> runs[i].End() <= tail)
    && (forall m :: movement <= m < |moves| ==> moves[m].Source().End() <= tail)
  }

  /** The other runs and moves start at or above `tail`. */
  ghost predicate StartFrom(runs: seq<Run>, run: nat, moves: seq<Move>, movement: nat, tail: Offset)
    requires movement <= |moves|
  {
    && (forall i :: run <= i < |runs| && runs[i].units > 0 ==> tail <= runs[i].offset)
    && (forall m :: 0 <= m < movement ==> tail <= moves[m].src)
  }

  /** The first unit of the final free suffix: everything from it up to the old
      tail is free, the unit before it is not, and no free span crosses it. */
  method CompactedTail(runs: seq<Run>, moves: seq<Move>, tail0: Offset) returns (tail: Offset)
    requires VacantApart(runs, moves) && EndBy(runs, |runs|, moves, 0, tail0)
    ensures tail <= tail0 && forall x :: tail <= x < tail0 ==> FreeAfter(runs, moves, x)
    ensures tail > 0 ==> !FreeAfter(runs, moves, tail - 1)
    ensures forall i :: 0 <= i < |runs| && runs[i].units > 0 ==> runs[i].End() <= tail || tail <= runs[i].offset
    ensures forall m :: 0 <= m < |moves| ==> moves[m].Source().End() <= tail || tail <= moves[m].src
  {
    hide EndBy, StartFrom, VacantApart, FreeAfter;
    var run, movement := |runs|, 0;
    tail := tail0;
    NothingStarts(runs, moves, tail);
    while true
      invariant 0 <= run <= |runs| && 0 <= movement <= |moves| && tail <= tail0
      invariant EndBy(runs, run, moves, movement, tail) && StartFrom(runs, run, moves, movement, tail)
      invariant forall x :: tail <= x < tail0 ==> FreeAfter(runs, moves, x)
      decreases run + |moves| - movement
    {
      var next := SkipEmpty(runs, run);
      SkipKeeps(runs, run, next, moves, movement, tail);
      run := next;
      if run == 0 && movement == |moves| {
        if tail > 0 {
          NothingLeft(runs, moves, tail - 1);
          TailIsTaken(runs, run, moves, movement, tail);
        }
        break;
      }
      var fromRun := run > 0 && (movement == |moves| || runs[run - 1].offset >= moves[movement].src);
      var top := if fromRun then runs[run - 1].Free() else moves[movement].Source();
      TopEndsLast(runs, run, moves, movement, tail, fromRun, top);
      if top.End() != tail {
        EndByTop(runs, run, moves, movement, fromRun, top, tail - 1);
        TailIsTaken(runs, run, moves, movement, tail);
        break;
      }
      assert forall x :: top.offset <= x < tail ==> Within(x, top);
      StartFromTop(runs, run, moves, movement, tail, fromRun, top);
      tail := top.offset;
      if fromRun {
        run := run - 1;
      } else {
        movement := movement + 1;
      }
    }
    NoneCrosses(runs, run, moves, movement, tail);
  }

  lemma NothingStarts(runs: seq<Run>, moves: seq<Move>, tail: Offset)
    ensures StartFrom(runs, |runs|, moves, 0, tail)
  {
  }

  lemma NothingLeft(runs: seq<Run>, moves: seq<Move>, tail: Offset)
    ensures EndBy(runs, 0, moves, |moves|, tail)
  {
  }

  /** Exhausted runs neither end nor start anywhere. */
  lemma SkipKeeps(runs: seq<Run>, run: nat, next: nat, moves: seq<Move>, movement: nat, tail: Offset)
    requires next <= run <= |runs| && movement <= |moves| && forall i :: next <= i < run ==> runs[i].units == 0
    requires EndBy(runs, run, moves, movement, tail) && StartFrom(runs, run, moves, movement, tail)
    ensures EndBy(runs, next, moves, movement, tail) && StartFrom(runs, next, moves, movement, tail)
  {
  }

  /** With the top span below it, everything remaining ends by `tail`. */
  lemma EndByTop(runs: seq<Run>, run: nat, moves: seq<Move>, movement: nat, fromRun: bool, top: Span, tail: nat)
    requires run <= |runs| && movement <= |moves| && top.End() <= tail
    requires fromRun ==> run > 0 && top == runs[run - 1].Free() && EndBy(runs, run - 1, moves, movement, top.offset)
    requires !fromRun ==> movement < |moves| && top == moves[movement].Source()
    requires !fromRun ==> EndBy(runs, run, moves, movement + 1, top.offset)
    ensures EndBy(runs, run, moves, movement, tail)
  {
  }

  lemma StartFromTop(runs: seq<Run>, run: nat, moves: seq<Move>, movement: nat, tail: Offset, fromRun: bool, top: Span)
    requires run <= |runs| && movement <= |moves| && StartFrom(runs, run, moves, movement, tail) && top.offset <= tail
    requires fromRun ==> run > 0 && top == runs[run - 1].Free()
    requires !fromRun ==> movement < |moves| && top == moves[movement].Source()
    ensures fromRun ==> StartFrom(runs, run - 1, moves, movement, top.offset)
    ensures !fromRun ==> StartFrom(runs, run, moves, movement + 1, top.offset)
  {
  }

  lemma NoneCrosses(runs: seq<Run>, run: nat, moves: seq<Move>, movement: nat, tail: Offset)
    requires run <= |runs| && movement <= |moves|
    requires EndBy(runs, run, moves, movement, tail) && StartFrom(runs, run, moves, movement, tail)
    ensures forall i :: 0 <= i < |runs| && runs[i].units > 0 ==> runs[i].End() <= tail || tail <= runs[i].offset
    ensures forall m :: 0 <= m < |moves| ==> moves[m].Source().End() <= tail || tail <= moves[m].src
  {
  }

  /** The highest remaining free span: everything else remaining ends below it. */
  lemma TopEndsLast(runs: seq<Run>, run: nat, moves: seq<Move>, movement: nat, tail: Offset, fromRun: bool, top: Span)
    requires VacantApart(runs, moves) && run <= |runs| && movement <= |moves|
    requires EndBy(runs, run, moves, movement, tail)
    requires fromRun ==> run > 0 && runs[run - 1].units > 0 && top == runs[run - 1].Free() &&
                         (movement < |moves| ==> moves[movement].src <= runs[run - 1].offset)
    requires !fromRun ==> movement < |moves| && top == moves[movement].Source() &&
                          (run > 0 ==> runs[run - 1].units > 0 && runs[run - 1].offset < moves[movement].src)
    ensures 0 < top.units && top.End() <= tail
    ensures fromRun ==> EndBy(runs, run - 1, moves, movement, top.offset)
    ensures !fromRun ==> EndBy(runs, run, moves, movement + 1, top.offset)
    ensures forall x :: Within(x, top) ==> FreeAfter(runs, moves, x)
  {
  }

  /** Once every remaining free span ends below `tail`, the unit before it is taken. */
  lemma TailIsTaken(runs: seq<Run>, run: nat, moves: seq<Move>, movement: nat, tail: Offset)
    requires run <= |runs| && movement <= |moves| && tail > 0
    requires EndBy(runs, run, moves, movement, tail - 1) && StartFrom(runs, run, moves, movement, tail)
    ensures !FreeAfter(runs, moves, tail - 1)
  {
  }

  /** Skips exhausted runs. */
  method SkipEmpty(runs: seq<Run>, run0: nat) returns (run: nat)
    requires run0 <= |runs|
    ensures run <= run0 && forall i :: run <= i < run0 ==> runs[i].units == 0
    ensures run > 0 ==> runs[run - 1].units > 0
  {
    run := run0;
    while run > 0 && runs[run - 1].units == 0
      invariant run <= run0 && forall i :: run <= i < run0 ==> runs[i].units == 0
    {
      run := run - 1;
    }
  }
}
