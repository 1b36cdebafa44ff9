/** Readers get in: under an open gate every entering reader is admitted within a
    few of its own steps, a nested reader always is, and a pause shuts the gate,
    relocates and opens it again. */
module ReadersAdmission {
  import opened Basics
  import opened Readers
  import opened ReadersProofs

  /** Positions between calling `enter` and holding the guard. */
  predicate Entering(pc: Pc) {
    || pc.Registering? || pc.Registered? || pc.Announcing? || pc.Checking? || pc.Withdrawing? || pc.Yielding?
    || pc.Yielded? || pc == ExitCheck(true) || pc == NotifyLock(true) || pc == Notifying(true)
    || pc == NotifyUnlock(true)
  }

  /** The nesting depth an entering thread is about to have. */
  function Target(th: Thread): nat {
    if th.pc.Announcing? && th.slot.Some? then th.slot.value + 1 else 1
  }

  /** Steps an entering thread has left under an open gate. */
  function ToEnter(th: Thread): nat {
    match th.pc
    case NotifyLock(_) => 7
    case Notifying(_) => 6
    case Withdrawing => 6
    case NotifyUnlock(_) => 5
    case ExitCheck(_) => 5
    case Yielding => 4
    case Registering => 4
    case Yielded => 3
    case Registered => 3
    case Announcing => 2
    case Checking => 1
    case _ => 0
  }

  /** Thread `t` got its guard at nesting depth `depth`. */
  predicate Entered(s: State, t: Tid, depth: nat) {
    t in s.threads && s.threads[t] == Thread(Some(depth), Outside) && Admitted(s, t)
  }

  /** A thread's own step, seen from its own record and the shared fields. */
  lemma OwnStep(s: State, t: Tid, a: Action)
    requires t in s.threads && !a.Scan?
    ensures var f := Local(Now(s, t), t, a, Slots(s), false);
      if f.None? then Step(s, t, a).None?
      else
        && Step(s, t, a).Some? && var e := Step(s, t, a).value;
        && t in e.threads && e.threads[t] == f.value.thread && e.closed == f.value.closed
        && e.maintenance == f.value.maintenance && e.idle == f.value.idle
  {
    hide Local;
  }

  // ---------------------------------------------------------------- One call at a time

  /** Under an open gate a registered thread is in after announcing and checking. */
  lemma EntersOpenGate(s: State, t: Tid)
    requires t in s.threads && s.threads[t] == Thread(Some(0), Outside) && !s.closed
    ensures var a := Step(s, t, Enter);
      && a.Some? && var b := Step(a.value, t, Continue);
      && b.Some? && var c := Step(b.value, t, Continue);
      && c.Some? && Entered(c.value, t, 1)
  {
    hide Step, Apply;
    OwnStep(s, t, Enter);
    var a := Step(s, t, Enter).value;
    OwnStep(a, t, Continue);
    OwnStep(Step(a, t, Continue).value, t, Continue);
  }

  /** Other threads' steps, in any number, leave an entering thread where it is. */
  ghost predicate OthersRun(s: State, t: Tid, others: seq<(Tid, Action)>, e: State)
    decreases |others|
  {
    if others == [] then s == e
    else exists m :: OthersStep(s, t, others, m, e)
  }

  ghost predicate OthersStep(s: State, t: Tid, others: seq<(Tid, Action)>, m: State, e: State)
    requires others != []
    decreases |others|, 0
  {
    var last := others[|others| - 1];
    OthersRun(s, t, others[..|others| - 1], m) && last.0 != t && Step(m, last.0, last.1) == Some(e)
  }

  lemma {:induction false} OthersKeep(s: State, t: Tid, others: seq<(Tid, Action)>, e: State)
    requires t in s.threads && s.threads[t].pc != Waiting && OthersRun(s, t, others, e)
    ensures t in e.threads && e.threads[t] == s.threads[t]
    decreases |others|
  {
    if others != [] {
      var m :| OthersStep(s, t, others, m, e);
      OthersKeep(s, t, others[..|others| - 1], m);
    }
  }

  /** A nested reader is admitted one level deeper whatever the gate does, and
      whatever the others do in between. */
  lemma NestedEnters(s: State, t: Tid, depth: nat, m: State, others: seq<(Tid, Action)>, o: State)
    requires t in s.threads && s.threads[t] == Thread(Some(depth), Outside) && depth > 0
    requires Step(s, t, Enter) == Some(m) && OthersRun(m, t, others, o)
    ensures Step(o, t, Continue).Some? && Entered(Step(o, t, Continue).value, t, depth + 1)
  {
    hide Step, Apply, OthersRun;
    OwnStep(s, t, Enter);
    OthersKeep(m, t, others, o);
    OwnStep(o, t, Continue);
  }

  // ---------------------------------------------------------------- Any schedule

  /** A schedule of any threads' steps during which the gate is open and thread `t`
      is still entering. */
  ghost predicate OpenRun(s: State, t: Tid, schedule: seq<(Tid, Action)>, e: State)
    decreases |schedule|
  {
    if schedule == [] then s == e
    else exists m :: OpenStep(s, t, schedule, m, e)
  }

  ghost predicate OpenStep(s: State, t: Tid, schedule: seq<(Tid, Action)>, m: State, e: State)
    requires schedule != []
    decreases |schedule|, 0
  {
    var last := schedule[|schedule| - 1];
    && OpenRun(s, t, schedule[..|schedule| - 1], m) && !m.closed
    && t in m.threads && Entering(m.threads[t].pc) && Step(m, last.0, last.1) == Some(e)
  }

  /** How many steps of a schedule are thread `t`'s own. */
  function Own(t: Tid, schedule: seq<(Tid, Action)>): nat {
    if schedule == [] then 0
    else Own(t, schedule[..|schedule| - 1]) + (if schedule[|schedule| - 1].0 == t then 1 else 0)
  }

  /** Entered, or still on the way to the same depth. */
  ghost predicate OnTheWay(s: State, t: Tid, depth: nat) {
    t in s.threads && (Entered(s, t, depth) || (Entering(s.threads[t].pc) && Target(s.threads[t]) == depth))
  }

  lemma EntryStep(s: State, t: Tid, u: Tid, a: Action, e: State)
    requires SlotsSound(s) && !s.closed && t in s.threads && Entering(s.threads[t].pc) && Step(s, u, a) == Some(e)
    ensures OnTheWay(e, t, Target(s.threads[t]))
    ensures ToEnter(e.threads[t]) + (if u == t then 1 else 0) <= ToEnter(s.threads[t])
  {
    assert SlotFits(s.threads[t]);
    if u == t {
      assert a == Continue;
    }
  }

  lemma {:induction false} EntryCounts(s: State, t: Tid, schedule: seq<(Tid, Action)>, e: State)
    requires Inv(s) && t in s.threads && Entering(s.threads[t].pc) && OpenRun(s, t, schedule, e)
    ensures Inv(e) && OnTheWay(e, t, Target(s.threads[t]))
    ensures Own(t, schedule) + ToEnter(e.threads[t]) <= ToEnter(s.threads[t])
    decreases |schedule|
  {
    hide Inv, Step, Entering, ToEnter;
    if schedule != [] {
      var m :| OpenStep(s, t, schedule, m, e);
      var last := schedule[|schedule| - 1];
      EntryCounts(s, t, schedule[..|schedule| - 1], m);
      EnteringIsNotIn(m.threads[t].pc);
      InvSlots(m);
      EntryStep(m, t, last.0, last.1, e);
      StepKeepsInv(m, last.0, last.1, e);
    } else {
      assert Own(t, schedule) == 0;
    }
  }

  lemma EnteringIsNotIn(pc: Pc)
    requires Entering(pc)
    ensures pc != Outside
  {
  }

  lemma InvSlots(s: State)
    requires Inv(s)
    ensures SlotsSound(s)
  {
  }

  /** Thread `u` holds the mutex `t` waits for, and can take its next step. */
  ghost predicate WaitsFor(s: State, t: Tid, u: Tid) {
    && t in s.threads && u in s.threads && u != t && Step(s, u, Continue).Some?
    && if s.threads[t].pc.NotifyLock? then s.idle == Some(u) else s.maintenance == Some(u)
  }

  /** Under an open gate only the two mutexes hold a reader up, and only briefly:
      their owner never blocks. */
  lemma EntryIsEnabled(s: State, t: Tid)
    requires Inv(s) && !s.closed && t in s.threads && Entering(s.threads[t].pc)
    ensures Step(s, t, Continue).Some? || exists u :: WaitsFor(s, t, u)
  {
    hide Step, Apply, SlotsSound, ScanSound;
    OwnStep(s, t, Continue);
    if s.threads[t].pc.NotifyLock? && s.idle.Some? {
      var u := s.idle.value;
      OwnStep(s, u, Continue);
      assert HoldsIdle(s.threads[u].pc) && !GateShut(s.threads[u].pc);
      assert WaitsFor(s, t, u);
    } else if (s.threads[t].pc.Registering? || s.threads[t].pc.Yielding?) && s.maintenance.Some? {
      var u := s.maintenance.value;
      OwnStep(s, u, Continue);
      assert HoldsMaintenance(s.threads[u].pc) && !GateShut(s.threads[u].pc);
      assert WaitsFor(s, t, u);
    }
  }

  /** Under an open gate an entering reader is admitted at the depth it asked for
      within seven of its own steps. Until then it can step, or waits for a mutex
      whose owner can. */
  lemma ReaderIsAdmitted(s: State, n: nat, t: Tid, schedule: seq<(Tid, Action)>, e: State)
    requires Reachable(s, n) && t in s.threads && Entering(s.threads[t].pc) && OpenRun(s, t, schedule, e)
    ensures Own(t, schedule) <= 7
    ensures Own(t, schedule) >= ToEnter(s.threads[t]) ==> Entered(e, t, Target(s.threads[t]))
    ensures || Entered(e, t, Target(s.threads[t]))
            || e.closed || Step(e, t, Continue).Some? || exists u :: WaitsFor(e, t, u)
  {
    hide Inv, Step, OpenRun;
    ReachableInv(s, n);
    EntryCounts(s, t, schedule, e);
    if !Entered(e, t, Target(s.threads[t])) && !e.closed {
      EntryIsEnabled(e, t);
    }
  }

  /** Calling `enter` always starts, and asks for one level more than was held. */
  lemma EnterStarts(s: State, t: Tid)
    requires t in s.threads && s.threads[t].pc == Outside
    ensures var depth := if s.threads[t].slot.Some? then s.threads[t].slot.value else 0;
      && Step(s, t, Enter).Some? && var e := Step(s, t, Enter).value;
      && Entering(e.threads[t].pc) && Target(e.threads[t]) == depth + 1
  {
  }

  // ---------------------------------------------------------------- The compactor

  /** Pausing is refused to a reader, and otherwise takes the mutex and shuts the gate. */
  lemma PauseShutsGate(s: State, t: Tid)
    requires t in s.threads && s.threads[t].pc == Outside
    ensures Active(s, t) ==> Step(s, t, Pause) == Some(s)
    ensures !Active(s, t) && s.maintenance == None ==>
              var a := Step(s, t, Pause);
              && a.Some? && var b := Step(a.value, t, Continue);
              && b.Some? && var c := Step(b.value, t, Continue);
              && c.Some? && c.value.closed && c.value.maintenance == Some(t) && c.value.threads[t].pc == Fencing
  {
    if Active(s, t) {
      assert Step(s, t, Pause).value.threads == s.threads;
    } else if s.maintenance == None {
      hide Step, Apply;
      OwnStep(s, t, Pause);
      var a := Step(s, t, Pause).value;
      OwnStep(a, t, Continue);
      OwnStep(Step(a, t, Continue).value, t, Continue);
    }
  }

  /** After relocation, or a failed fence, the gate opens before the mutex is given up. */
  lemma PauseReopensGate(s: State, t: Tid)
    requires t in s.threads && (s.threads[t].pc == Relocating || s.threads[t].pc == Fencing)
    ensures var a := Step(s, t, if s.threads[t].pc == Relocating then Continue else FenceFails);
      && a.Some? && var b := Step(a.value, t, Continue);
      && b.Some? && !b.value.closed && b.value.maintenance == s.maintenance && var c := Step(b.value, t, Continue);
      && c.Some? && !c.value.closed && c.value.maintenance == None && c.value.threads[t].pc == Outside
  {
    hide Step, Apply;
    var first := if s.threads[t].pc == Relocating then Continue else FenceFails;
    OwnStep(s, t, first);
    ReopeningEnds(Step(s, t, first).value, t);
  }

  lemma ReopeningEnds(s: State, t: Tid)
    requires t in s.threads && s.threads[t].pc == Reopening
    ensures var b := Step(s, t, Continue);
      && b.Some? && !b.value.closed && b.value.maintenance == s.maintenance && var c := Step(b.value, t, Continue);
      && c.Some? && !c.value.closed && c.value.maintenance == None && t in c.value.threads
      && c.value.threads[t].pc == Outside
  {
    hide Step, Apply;
    OwnStep(s, t, Continue);
    OwnStep(Step(s, t, Continue).value, t, Continue);
  }
}
