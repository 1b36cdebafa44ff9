/** Once the gate is shut, and while no new call is started, every schedule of the
    threads' next steps brings the compactor to its relocation. */
module ReadersLiveness {
  import opened Basics
  import opened Readers
  import opened ReadersProofs

  /** Pause phases from shutting the gate to the last step before relocation. */
  predicate Draining(pc: Pc) {
    pc.Fencing? || pc.IdleLock? || pc.Scanning? || pc.Sleeping? || pc.Waiting? || pc.Woken? || pc.Drained?
  }

  // ---------------------------------------------------------------- The measure

  /** Steps the compactor can take by itself, out of `n` threads. */
  function Rounds(pc: Pc, n: nat): nat {
    match pc
    case Fencing => n + 4
    case IdleLock => n + 3
    case Woken => n + 3
    case Scanning(todo) => |todo| + 2
    case Sleeping => 1
    case Drained => 1
    case _ => 0
  }

  /** Steps another thread has left: dropping its guards, withdrawing, notifying. A
      notification also pays for the rescan it causes. */
  function Left(th: Thread, n: nat): nat {
    var depth := if th.slot.Some? then th.slot.value else 0;
    match th.pc
    case Outside => if depth == 0 then 0 else depth + n + 7
    case Announcing => depth + n + 10
    case Checking => n + 9
    case Withdrawing => n + 8
    case ExitCheck(_) => n + 7
    case NotifyLock(_) => n + 6
    case Notifying(_) => n + 5
    case NotifyUnlock(_) => 1
    case _ => 0
  }

  ghost function Total(threads: map<Tid, Thread>, us: set<Tid>, n: nat): nat
    requires us <= threads.Keys
    decreases |us|
  {
    if us == {} then 0
    else
      var u :| u in us;
      Left(threads[u], n) + Total(threads, us - {u}, n)
  }

  lemma {:induction false} TotalWithout(threads: map<Tid, Thread>, us: set<Tid>, n: nat, t: Tid)
    requires us <= threads.Keys && t in us
    ensures Total(threads, us, n) == Left(threads[t], n) + Total(threads, us - {t}, n)
    decreases |us|
  {
    hide Left;
    var u :| u in us && Total(threads, us, n) == Left(threads[u], n) + Total(threads, us - {u}, n);
    if u != t {
      TotalWithout(threads, us - {u}, n, t);
      TotalWithout(threads, us - {t}, n, u);
      assert us - {u} - {t} == us - {t} - {u};
    }
  }

  lemma {:induction false} TotalSame(threads: map<Tid, Thread>, later: map<Tid, Thread>, us: set<Tid>, n: nat)
    requires us <= threads.Keys && us <= later.Keys && forall u :: u in us ==> later[u] == threads[u]
    ensures Total(later, us, n) == Total(threads, us, n)
    decreases |us|
  {
    hide Left;
    if u :| u in us {
      TotalWithout(threads, us, n, u);
      TotalWithout(later, us, n, u);
      TotalSame(threads, later, us - {u}, n);
    }
  }

  ghost function Measure(s: State, c: Tid): nat
    requires c in s.threads
  {
    Rounds(s.threads[c].pc, |s.threads|) + Total(s.threads, s.threads.Keys - {c}, |s.threads|)
  }

  // ---------------------------------------------------------------- Every step counts

  predicate IsProgress(a: Action) {
    a == Continue || a == Exit || a.Scan?
  }

  /** A step of another thread leaves it less to do, by more than a rescan if it
      notifies. */
  lemma OtherStep(now: Effect, t: Tid, a: Action, slots: set<Tid>, active: bool, f: Effect, n: nat)
    requires Local(now, t, a, slots, active) == Some(f) && IsProgress(a) && SlotFits(now.thread)
    requires now.closed && !now.notify && now.maintenance.Some? && !HoldsMaintenance(now.thread.pc)
    ensures Left(f.thread, n) + (if f.notify then n + 3 else 0) < Left(now.thread, n)
  {
  }

  /** The compactor's own step counts down to its next sleep, or to relocation. */
  lemma CompactorStep(now: Effect, t: Tid, a: Action, slots: set<Tid>, active: bool, f: Effect, n: nat)
    requires Local(now, t, a, slots, active) == Some(f) && IsProgress(a) && Draining(now.thread.pc)
    requires !now.notify && |slots| <= n
    ensures !f.notify && (f.thread.pc == Relocating || Draining(f.thread.pc))
    ensures f.thread.pc != Relocating ==> Rounds(f.thread.pc, n) < Rounds(now.thread.pc, n)
  {
    if a.Scan? {
      assert now.thread.pc.todo == now.thread.pc.todo - {a.other} + {a.other};
    }
  }

  lemma SlotsFew(s: State)
    ensures |Slots(s)| <= |s.threads|
  {
    SubsetSize(Slots(s), s.threads.Keys);
  }

  lemma SubsetSize(a: set<Tid>, b: set<Tid>)
    requires a <= b
    ensures |a| <= |b|
  {
    assert b == a + (b - a);
  }

  /** Only the compactor can be asleep. */
  lemma OnlyOneSleeper(s: State, c: Tid, u: Tid)
    requires Inv(s) && c in s.threads && Draining(s.threads[c].pc) && u in s.threads && u != c
    ensures !HoldsMaintenance(s.threads[u].pc) && s.threads[u].pc != Waiting
    ensures s.closed && s.maintenance == Some(c)
  {
  }

  ghost predicate Nearer(s: State, c: Tid, e: State) {
    && c in s.threads && e.threads.Keys == s.threads.Keys
    && (e.threads[c].pc == Relocating || (Draining(e.threads[c].pc) && Measure(e, c) < Measure(s, c)))
  }

  lemma CompactorNearer(s: State, c: Tid, a: Action, e: State)
    requires Inv(s) && c in s.threads && Draining(s.threads[c].pc) && IsProgress(a) && Step(s, c, a) == Some(e)
    ensures Nearer(s, c, e)
  {
    hide Inv, Draining, Rounds, Left, Local;
    var slots, active := Slots(s), a.Scan? && Active(s, a.other);
    var f := Local(Now(s, c), c, a, slots, active).value;
    SlotsFew(s);
    CompactorStep(Now(s, c), c, a, slots, active, f, |s.threads|);
    KeepsOthers(s, c, f, s.threads.Keys - {c});
    assert e.threads.Keys == s.threads.Keys;
  }

  /** A step that wakes nobody changes no other thread. */
  lemma KeepsOthers(s: State, t: Tid, f: Effect, us: set<Tid>)
    requires us <= s.threads.Keys - {t} && (f.notify ==> forall u :: u in us ==> s.threads[u].pc != Waiting)
    ensures Total(Apply(s, t, f).threads, us, |s.threads|) == Total(s.threads, us, |s.threads|)
  {
    hide Left;
    TotalSame(s.threads, Apply(s, t, f).threads, us, |s.threads|);
  }

  lemma OtherNearer(s: State, c: Tid, t: Tid, a: Action, e: State)
    requires Inv(s) && c in s.threads && Draining(s.threads[c].pc) && IsProgress(a)
    requires t != c && Step(s, t, a) == Some(e)
    ensures Nearer(s, c, e)
  {
    hide Inv, Left, Local;
    var slots, active, n := Slots(s), a.Scan? && Active(s, a.other), |s.threads|;
    var f := Local(Now(s, t), t, a, slots, active).value;
    OnlyOneSleeper(s, c, t);
    OthersFit(s, t);
    OtherStep(Now(s, t), t, a, slots, active, f, n);
    forall u | u in s.threads && u != c ensures s.threads[u].pc != Waiting {
      OnlyOneSleeper(s, c, u);
    }
    var others := s.threads.Keys - {c};
    assert e.threads.Keys == s.threads.Keys;
    KeepsOthers(s, t, f, others - {t});
    TotalWithout(s.threads, others, n, t);
    TotalWithout(e.threads, others, n, t);
    WokenRounds(s.threads[c], f.notify, n);
    assert e.threads[c] == Wake(s.threads[c], f.notify);
  }

  lemma OthersFit(s: State, t: Tid)
    requires Inv(s) && t in s.threads
    ensures SlotFits(s.threads[t])
  {
  }

  lemma WokenRounds(th: Thread, notify: bool, n: nat)
    requires Draining(th.pc)
    ensures Draining(Wake(th, notify).pc)
    ensures Rounds(Wake(th, notify).pc, n) <= Rounds(th.pc, n) + (if notify then n + 3 else 0)
  {
  }

  /** Every progress step of any thread brings the relocation nearer. */
  lemma StepNearer(s: State, c: Tid, t: Tid, a: Action, e: State)
    requires Inv(s) && c in s.threads && Draining(s.threads[c].pc) && IsProgress(a) && Step(s, t, a) == Some(e)
    ensures Nearer(s, c, e)
  {
    hide Inv, Nearer, Local;
    if t == c {
      CompactorNearer(s, c, a, e);
    } else {
      OtherNearer(s, c, t, a, e);
    }
  }

  // ---------------------------------------------------------------- Whole schedules

  /** A schedule of progress steps, during which the compactor is still draining. */
  ghost predicate Drives(s: State, c: Tid, schedule: seq<(Tid, Action)>, e: State)
    decreases |schedule|
  {
    if schedule == [] then s == e
    else exists m :: DrivesStep(s, c, schedule, m, e)
  }

  ghost predicate DrivesStep(s: State, c: Tid, schedule: seq<(Tid, Action)>, m: State, e: State)
    requires schedule != []
    decreases |schedule|, 0
  {
    var last := schedule[|schedule| - 1];
    && Drives(s, c, schedule[..|schedule| - 1], m) && c in m.threads && Draining(m.threads[c].pc)
    && IsProgress(last.1) && Step(m, last.0, last.1) == Some(e)
  }

  lemma {:induction false} DriveCounts(s: State, c: Tid, schedule: seq<(Tid, Action)>, e: State)
    requires Inv(s) && c in s.threads && Draining(s.threads[c].pc) && Drives(s, c, schedule, e)
    ensures Inv(e) && c in e.threads
    ensures e.threads[c].pc == Relocating || (Draining(e.threads[c].pc) && |schedule| + Measure(e, c) <= Measure(s, c))
    ensures |schedule| <= Measure(s, c) + 1
    decreases |schedule|
  {
    hide Inv, Measure, Draining;
    if schedule != [] {
      var m :| DrivesStep(s, c, schedule, m, e);
      var last := schedule[|schedule| - 1];
      DriveCounts(s, c, schedule[..|schedule| - 1], m);
      StepNearer(m, c, last.0, last.1, e);
      StepKeepsInv(m, last.0, last.1, e);
      DrainingIsNotRelocating(m.threads[c].pc);
    }
  }

  lemma DrainingIsNotRelocating(pc: Pc)
    requires Draining(pc)
    ensures pc != Relocating
  {
  }

  /** Once the gate is shut, and while no new call starts, the compactor reaches its
      relocation: any schedule either has brought it there, or is no longer than a
      bound fixed at the start and can be continued. */
  lemma RelocationIsReached(s: State, n: nat, c: Tid, schedule: seq<(Tid, Action)>, e: State)
    requires Reachable(s, n) && c in s.threads && Draining(s.threads[c].pc) && Drives(s, c, schedule, e)
    ensures |schedule| <= Measure(s, c) + 1
    ensures c in e.threads && (e.threads[c].pc == Relocating || (Draining(e.threads[c].pc) && CanProgress(e)))
  {
    hide Inv, Measure, Drives;
    ReachableInv(s, n);
    DriveCounts(s, c, schedule, e);
    if e.threads[c].pc != Relocating {
      DrainingProgresses(e, c);
    }
  }

  lemma DrainingProgresses(s: State, c: Tid)
    requires Inv(s) && c in s.threads && Draining(s.threads[c].pc)
    ensures CanProgress(s)
  {
    hide Inv, CanProgress;
    var pc := s.threads[c].pc;
    if pc == IdleLock || pc == Woken {
      IdleWaiterProgresses(s, c);
    } else if pc == Waiting {
      SleeperProgresses(s, c);
    } else {
      UnblockedProgresses(s, c);
    }
  }
}
