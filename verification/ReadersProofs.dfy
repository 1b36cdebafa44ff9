/** Safety and progress of reader admission in every reachable state. */
module ReadersProofs {
  import opened Basics
  import opened Readers

  predicate IsActive(th: Thread) {
    th.slot.Some? && th.slot.value > 0
  }

  predicate IsAdmitted(th: Thread) {
    IsActive(th) && th.pc != Checking && th.pc != Withdrawing
  }

  predicate IsOwing(th: Thread) {
    th.pc.ExitCheck? || th.pc.NotifyLock? || th.pc.Notifying?
  }

  // ---------------------------------------------------------------- One thread
  // What a thread's own step may do, without looking at the other threads.

  /** The maintenance mutex follows the positions that hold it. */
  predicate MovesMaintenance(now: Effect, t: Tid, f: Effect) {
    && f.maintenance == (if HoldsMaintenance(f.thread.pc) then Some(t)
                         else if HoldsMaintenance(now.thread.pc) then None else now.maintenance)
    && (HoldsMaintenance(f.thread.pc) ==> now.maintenance == None || now.maintenance == Some(t))
  }

  /** So does the idle mutex. */
  predicate MovesIdle(now: Effect, t: Tid, f: Effect) {
    && f.idle == (if HoldsIdle(f.thread.pc) then Some(t)
                  else if HoldsIdle(now.thread.pc) then None else now.idle)
    && (HoldsIdle(f.thread.pc) ==> now.idle == None || now.idle == Some(t))
  }

  /** The gate follows the pause phases; only a notifier notifies. */
  predicate MovesGate(now: Effect, f: Effect) {
    && f.closed == (if GateShut(f.thread.pc) then (now.closed || !GateShut(now.thread.pc))
                    else (now.closed && !GateShut(now.thread.pc)))
    && (f.notify ==> now.thread.pc.Notifying?)
  }

  /** Under a shut gate a step never admits its thread, and a thread the
      compactor must hear from stays one until it notifies. */
  predicate MovesSlot(now: Effect, f: Effect) {
    && SlotFits(f.thread)
    && (now.thread.slot.Some? ==> f.thread.slot.Some?)
    && (now.closed && !IsAdmitted(now.thread) ==> !IsAdmitted(f.thread))
    && (now.closed && (IsActive(now.thread) || IsOwing(now.thread)) && !f.notify ==>
          IsActive(f.thread) || IsOwing(f.thread))
  }

  /** How a compactor's scan advances and when it may sleep. */
  predicate MovesScan(now: Effect, f: Effect, a: Action, slots: set<Tid>, active: bool) {
    match f.thread.pc
    case Scanning(todo) =>
      && GateShut(now.thread.pc)
      && (todo == slots ||
          (a.Scan? && !active && now.thread.pc.Scanning? && todo == now.thread.pc.todo - {a.other}))
    case Drained => now.thread.pc == Scanning({})
    case Relocating => now.thread.pc == Drained
    case Sleeping => a.Scan? && active && f.thread.slot == now.thread.slot
    case Waiting => now.thread.pc == Sleeping && !f.notify
    case _ => true
  }

  lemma LocalMovesMaintenance(now: Effect, t: Tid, a: Action, slots: set<Tid>, active: bool, f: Effect)
    requires Local(now, t, a, slots, active) == Some(f)
    requires HoldsMaintenance(now.thread.pc) ==> now.maintenance == Some(t)
    ensures MovesMaintenance(now, t, f)
  {
    match a
    case Continue => ProceedMovesMaintenance(now, t, slots, f);
    case _ =>
  }

  lemma ProceedMovesMaintenance(now: Effect, t: Tid, slots: set<Tid>, f: Effect)
    requires Proceed(now, t, slots) == Some(f)
    requires HoldsMaintenance(now.thread.pc) ==> now.maintenance == Some(t)
    ensures MovesMaintenance(now, t, f)
  {
    hide Proceed, MovesMaintenance;
    if HoldsMaintenance(now.thread.pc) {
      HolderMovesMaintenance(now, t, slots, f);
    } else {
      OtherMovesMaintenance(now, t, slots, f);
    }
  }

  lemma HolderMovesMaintenance(now: Effect, t: Tid, slots: set<Tid>, f: Effect)
    requires Proceed(now, t, slots) == Some(f) && HoldsMaintenance(now.thread.pc) && now.maintenance == Some(t)
    ensures MovesMaintenance(now, t, f)
  {
  }

  lemma OtherMovesMaintenance(now: Effect, t: Tid, slots: set<Tid>, f: Effect)
    requires Proceed(now, t, slots) == Some(f) && !HoldsMaintenance(now.thread.pc)
    ensures MovesMaintenance(now, t, f)
  {
  }

  lemma LocalMovesIdle(now: Effect, t: Tid, a: Action, slots: set<Tid>, active: bool, f: Effect)
    requires Local(now, t, a, slots, active) == Some(f)
    requires HoldsIdle(now.thread.pc) ==> now.idle == Some(t)
    ensures MovesIdle(now, t, f)
  {
    match a
    case Continue => ProceedMovesIdle(now, t, slots, f);
    case _ =>
  }

  lemma ProceedMovesIdle(now: Effect, t: Tid, slots: set<Tid>, f: Effect)
    requires Proceed(now, t, slots) == Some(f)
    requires HoldsIdle(now.thread.pc) ==> now.idle == Some(t)
    ensures MovesIdle(now, t, f)
  {
    hide Proceed, MovesIdle;
    if HoldsIdle(now.thread.pc) {
      HolderMovesIdle(now, t, slots, f);
    } else {
      OtherMovesIdle(now, t, slots, f);
    }
  }

  lemma HolderMovesIdle(now: Effect, t: Tid, slots: set<Tid>, f: Effect)
    requires Proceed(now, t, slots) == Some(f) && HoldsIdle(now.thread.pc) && now.idle == Some(t)
    ensures MovesIdle(now, t, f)
  {
  }

  lemma OtherMovesIdle(now: Effect, t: Tid, slots: set<Tid>, f: Effect)
    requires Proceed(now, t, slots) == Some(f) && !HoldsIdle(now.thread.pc)
    ensures MovesIdle(now, t, f)
  {
  }

  lemma LocalMovesGate(now: Effect, t: Tid, a: Action, slots: set<Tid>, active: bool, f: Effect)
    requires Local(now, t, a, slots, active) == Some(f) && !now.notify
    ensures MovesGate(now, f)
  {
  }

  lemma LocalMovesSlot(now: Effect, t: Tid, a: Action, slots: set<Tid>, active: bool, f: Effect)
    requires Local(now, t, a, slots, active) == Some(f) && !now.notify && SlotFits(now.thread)
    ensures MovesSlot(now, f)
  {
    match a
    case Continue => ProceedMovesSlot(now, t, slots, f);
    case _ =>
  }

  lemma ProceedMovesSlot(now: Effect, t: Tid, slots: set<Tid>, f: Effect)
    requires Proceed(now, t, slots) == Some(f) && !now.notify && SlotFits(now.thread)
    ensures MovesSlot(now, f)
  {
  }

  lemma LocalMovesScan(now: Effect, t: Tid, a: Action, slots: set<Tid>, active: bool, f: Effect)
    requires Local(now, t, a, slots, active) == Some(f) && !now.notify
    ensures MovesScan(now, f, a, slots, active)
  {
  }

  // ---------------------------------------------------------------- All threads

  lemma ApplyKeepsMaintenance(s: State, t: Tid, f: Effect)
    requires MaintenanceSound(s) && t in s.threads && MovesMaintenance(Now(s, t), t, f)
    ensures MaintenanceSound(Apply(s, t, f))
  {
  }

  lemma ApplyKeepsIdle(s: State, t: Tid, f: Effect)
    requires IdleSound(s) && t in s.threads && MovesIdle(Now(s, t), t, f)
    ensures IdleSound(Apply(s, t, f))
  {
  }

  lemma ApplyKeepsSlots(s: State, t: Tid, f: Effect)
    requires SlotsSound(s) && t in s.threads && SlotFits(f.thread)
    ensures SlotsSound(Apply(s, t, f))
  {
  }

  lemma ApplyKeepsGate(s: State, t: Tid, f: Effect)
    requires MaintenanceSound(s) && GateSound(s) && t in s.threads
    requires MovesMaintenance(Now(s, t), t, f) && MovesGate(Now(s, t), f)
    ensures GateSound(Apply(s, t, f))
  {
  }

  /** Nobody becomes admitted while the gate is shut. */
  lemma ApplyAdmitsNobody(s: State, t: Tid, f: Effect)
    requires t in s.threads && s.closed && MovesSlot(Now(s, t), f)
    ensures forall u :: u in s.threads && !Admitted(s, u) ==> !Admitted(Apply(s, t, f), u)
    ensures Slots(s) <= Slots(Apply(s, t, f))
  {
  }

  /** A sleeping compactor that is not woken keeps somebody to wait for. */
  lemma ApplyKeepsWitness(s: State, t: Tid, f: Effect, u: Tid)
    requires t in s.threads && s.closed && MovesSlot(Now(s, t), f) && !f.notify
    requires Active(s, u) || Owes(s, u)
    ensures Active(Apply(s, t, f), u) || Owes(Apply(s, t, f), u)
  {
  }

  lemma SleeperHoldsGateShut(s: State, c: Tid)
    requires MaintenanceSound(s) && GateSound(s) && c in s.threads && GateShut(s.threads[c].pc)
    ensures s.closed
  {
  }

  lemma ApplyKeepsSleep(s: State, t: Tid, f: Effect, c: Tid)
    requires IdleSound(s) && t in s.threads && c in s.threads && s.closed && ScanSound(s, c)
    requires MovesSlot(Now(s, t), f) && MovesGate(Now(s, t), f)
    requires s.threads[c].pc == Sleeping || s.threads[c].pc == Waiting
    requires f.notify ==> c != t
    ensures var e := Apply(s, t, f);
      e.threads[c].pc == Sleeping || e.threads[c].pc == Waiting ==> ScanSound(e, c)
  {
    if f.notify {
      assert HoldsIdle(s.threads[t].pc);
    } else {
      var u :| Active(s, u) || Owes(s, u);
      ApplyKeepsWitness(s, t, f, u);
    }
  }

  lemma ApplyKeepsScanned(s: State, t: Tid, a: Action, f: Effect, c: Tid)
    requires t in s.threads && c in s.threads && s.closed && ScanSound(s, c)
    requires MovesSlot(Now(s, t), f)
    requires MovesScan(Now(s, t), f, a, Slots(s), a.Scan? && Active(s, a.other))
    ensures var e := Apply(s, t, f);
      e.threads[c].pc.Scanning? || e.threads[c].pc == Drained || e.threads[c].pc == Relocating ==> ScanSound(e, c)
  {
    ApplyAdmitsNobody(s, t, f);
  }

  lemma ApplyKeepsScan(s: State, t: Tid, a: Action, f: Effect, c: Tid)
    requires Inv(s) && t in s.threads && c in s.threads
    requires MovesSlot(Now(s, t), f) && MovesGate(Now(s, t), f)
    requires MovesScan(Now(s, t), f, a, Slots(s), a.Scan? && Active(s, a.other))
    ensures ScanSound(Apply(s, t, f), c)
  {
    var e := Apply(s, t, f);
    assert ScanSound(s, c);
    if e.threads[c].pc == Sleeping && c == t {
      assert Active(e, a.other);
    } else if e.threads[c].pc == Sleeping || e.threads[c].pc == Waiting {
      SleeperHoldsGateShut(s, c);
      ApplyKeepsSleep(s, t, f, c);
    } else if e.threads[c].pc.Scanning? || e.threads[c].pc == Drained || e.threads[c].pc == Relocating {
      SleeperHoldsGateShut(s, c);
      ApplyKeepsScanned(s, t, a, f, c);
    }
  }

  lemma StepKeepsInv(s: State, t: Tid, a: Action, e: State)
    requires Inv(s) && Step(s, t, a) == Some(e)
    ensures Inv(e)
  {
    var now, slots, active := Now(s, t), Slots(s), a.Scan? && Active(s, a.other);
    var f := Local(now, t, a, slots, active).value;
    LocalMovesMaintenance(now, t, a, slots, active, f);
    LocalMovesIdle(now, t, a, slots, active, f);
    LocalMovesGate(now, t, a, slots, active, f);
    LocalMovesSlot(now, t, a, slots, active, f);
    LocalMovesScan(now, t, a, slots, active, f);
    ApplyKeepsInv(s, t, a, f);
  }

  lemma ApplyKeepsInv(s: State, t: Tid, a: Action, f: Effect)
    requires Inv(s) && t in s.threads
    requires MovesMaintenance(Now(s, t), t, f) && MovesIdle(Now(s, t), t, f)
    requires MovesGate(Now(s, t), f) && MovesSlot(Now(s, t), f)
    requires MovesScan(Now(s, t), f, a, Slots(s), a.Scan? && Active(s, a.other))
    ensures Inv(Apply(s, t, f))
  {
    ApplyKeepsMaintenance(s, t, f);
    ApplyKeepsIdle(s, t, f);
    ApplyKeepsSlots(s, t, f);
    ApplyKeepsGate(s, t, f);
    forall c | c in s.threads ensures ScanSound(Apply(s, t, f), c) {
      ApplyKeepsScan(s, t, a, f, c);
    }
  }

  lemma InitialInv(s: State)
    requires Initial(s)
    ensures Inv(s)
  {
  }

  lemma {:induction false} ReachableInv(s: State, n: nat)
    requires Reachable(s, n)
    ensures Inv(s)
    decreases n
  {
    hide Inv, Step;
    if n == 0 {
      InitialInv(s);
    } else {
      var p, t, a :| Reachable(p, n - 1) && Step(p, t, a) == Some(s);
      ReachableInv(p, n - 1);
      StepKeepsInv(p, t, a, s);
    }
  }

  /** No reader is admitted, and no second compactor runs, while relocation runs. */
  lemma RelocationIsExclusive(s: State, n: nat, c: Tid)
    requires Reachable(s, n) && c in s.threads && s.threads[c].pc == Relocating
    ensures forall u :: u in s.threads ==> !Admitted(s, u)
    ensures forall u :: u in s.threads && u != c ==> s.threads[u].pc != Relocating
  {
    hide Reachable;
    ReachableInv(s, n);
    assert ScanSound(s, c);
  }

  /** No lost wakeup: whoever the sleeping compactor waits for is still active
      or still has its notification ahead, and it will find the gate shut. */
  lemma NoLostWakeup(s: State, n: nat, c: Tid)
    requires Reachable(s, n) && c in s.threads && s.threads[c].pc == Waiting
    ensures s.closed
    ensures exists u :: u != c && (Active(s, u) || Owes(s, u))
  {
    hide Reachable;
    ReachableInv(s, n);
    assert ScanSound(s, c);
    var u :| Active(s, u) || Owes(s, u);
    assert SlotFits(s.threads[c]) && SlotFits(s.threads[u]);
    assert u != c;
  }

  /** Threads that block on the maintenance mutex never do so with an active slot. */
  lemma NeverBlocksWhileActive(s: State, n: nat, t: Tid)
    requires Reachable(s, n) && t in s.threads
    requires s.threads[t].pc == Registering || s.threads[t].pc == Yielding || s.threads[t].pc == PauseLock
    ensures !Active(s, t)
  {
    hide Reachable;
    ReachableInv(s, n);
    assert SlotFits(s.threads[t]);
  }

  // ---------------------------------------------------------------- Deadlock freedom

  /** Some thread can continue its call or drop a guard it holds. */
  ghost predicate CanProgress(s: State) {
    exists t, a :: ProgressStep(s, t, a)
  }

  predicate ProgressStep(s: State, t: Tid, a: Action) {
    (a == Continue || a == Exit || a.Scan?) && Step(s, t, a).Some?
  }

  /** Positions from which a thread can always take its next step by itself. */
  predicate NeverBlocks(pc: Pc) {
    && !pc.Outside? && !pc.Registering? && !pc.Yielding? && !pc.NotifyLock? && !pc.PauseLock?
    && !pc.IdleLock? && !pc.Waiting? && !pc.Woken?
  }

  lemma UnblockedProgresses(s: State, t: Tid)
    requires Inv(s) && t in s.threads && NeverBlocks(s.threads[t].pc)
    ensures CanProgress(s)
  {
    if s.threads[t].pc.Scanning? && s.threads[t].pc.todo != {} {
      assert ScanSound(s, t);
      var u :| u in s.threads[t].pc.todo;
      assert u in Slots(s);
      assert ProgressStep(s, t, Scan(u));
    } else {
      assert ProgressStep(s, t, Continue);
    }
  }

  lemma IdleWaiterProgresses(s: State, t: Tid)
    requires Inv(s) && t in s.threads
    requires s.threads[t].pc.NotifyLock? || s.threads[t].pc == IdleLock || s.threads[t].pc == Woken
    ensures CanProgress(s)
  {
    if s.idle == None {
      assert ProgressStep(s, t, Continue);
    } else {
      UnblockedProgresses(s, s.idle.value);
    }
  }

  lemma SleeperProgresses(s: State, t: Tid)
    requires Inv(s) && t in s.threads && s.threads[t].pc == Waiting
    ensures CanProgress(s)
  {
    assert ScanSound(s, t);
    var u :| Active(s, u) || Owes(s, u);
    assert SlotFits(s.threads[u]);
    if s.threads[u].pc.NotifyLock? {
      IdleWaiterProgresses(s, u);
    } else if s.threads[u].pc == Outside {
      assert ProgressStep(s, u, Exit);
    } else {
      UnblockedProgresses(s, u);
    }
  }

  lemma MaintenanceWaiterProgresses(s: State, t: Tid)
    requires Inv(s) && t in s.threads
    requires s.threads[t].pc == Registering || s.threads[t].pc == Yielding || s.threads[t].pc == PauseLock
    ensures CanProgress(s)
  {
    if s.maintenance == None {
      assert ProgressStep(s, t, Continue);
    } else {
      var h := s.maintenance.value;
      if s.threads[h].pc == Waiting {
        SleeperProgresses(s, h);
      } else if s.threads[h].pc == IdleLock || s.threads[h].pc == Woken {
        IdleWaiterProgresses(s, h);
      } else {
        UnblockedProgresses(s, h);
      }
    }
  }

  lemma HolderProgresses(s: State, t: Tid)
    requires t in s.threads && s.threads[t].pc == Outside && Active(s, t)
    ensures CanProgress(s)
  {
    assert ProgressStep(s, t, Exit);
  }

  /** No deadlock: as long as some call is unfinished or some guard is held, a
      step that continues a call or drops a guard is enabled. */
  lemma DeadlockFree(s: State, n: nat, t: Tid)
    requires Reachable(s, n) && t in s.threads && (s.threads[t].pc != Outside || Active(s, t))
    ensures CanProgress(s)
  {
    hide Reachable, Inv, CanProgress;
    ReachableInv(s, n);
    var pc := s.threads[t].pc;
    if pc == Outside {
      HolderProgresses(s, t);
    } else if pc == Registering || pc == Yielding || pc == PauseLock {
      MaintenanceWaiterProgresses(s, t);
    } else if pc.NotifyLock? || pc == IdleLock || pc == Woken {
      IdleWaiterProgresses(s, t);
    } else if pc == Waiting {
      SleeperProgresses(s, t);
    } else {
      UnblockedProgresses(s, t);
    }
  }
}
