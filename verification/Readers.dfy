/** Reader admission for relocation of the live mapped store: the gate/slot
    handshake between nested readers and a compactor, one atomic step at a time. */
module Readers {
  import opened Basics

  type Tid = nat

  /** Where a thread is. `retry` marks the exit path of a withdrawing reader. */
  datatype Pc =
    | Outside
    // Entering a read scope.
    | Registering
    | Registered
    | Announcing
    | Checking
    | Withdrawing
    | Yielding
    | Yielded
    // Leaving the outermost scope, or withdrawing from it.
    | ExitCheck(retry: bool)
    | NotifyLock(retry: bool)
    | Notifying(retry: bool)
    | NotifyUnlock(retry: bool)
    // Pausing admission to relocate.
    | PauseLock
    | Closing
    | Fencing
    | IdleLock
    | Scanning(todo: set<Tid>)
    | Sleeping
    | Waiting
    | Woken
    | Drained
    | Relocating
    | Reopening
    | Unlocking

  /** A thread's registered nesting depth, if any, and its position. */
  datatype Thread = Thread(slot: Option<nat>, pc: Pc)

  datatype State = State(
    threads: map<Tid, Thread>,
    closed: bool,
    maintenance: Option<Tid>,
    idle: Option<Tid>)

  /** What a thread does next: start a call, drop a guard, or take the next
      atomic step of the call it is in. */
  datatype Action = Enter | Exit | Pause | Continue | Scan(other: Tid) | FenceFails

  /** Everything one atomic step of a thread may write: its own record, the
      gate, the two mutexes, and the condition variable. */
  datatype Effect = Effect(
    thread: Thread,
    closed: bool,
    maintenance: Option<Tid>,
    idle: Option<Tid>,
    notify: bool)

  function Slots(s: State): set<Tid> {
    set u | u in s.threads && s.threads[u].slot.Some?
  }

  /** After the exit notification: return, or wait out the maintenance and retry. */
  function After(retry: bool): Pc {
    if retry then Yielding else Outside
  }

  /** Starting a call, or dropping a guard, from outside any call. */
  function Begin(now: Effect, a: Action): Option<Effect> {
    var slot := now.thread.slot;
    match a
    case Enter => Some(now.(thread := Thread(slot, if slot.None? then Registering else Announcing)))
    case Exit =>
      if slot.Some? && slot.value > 0
      then Some(now.(thread := Thread(Some(slot.value - 1), if slot.value == 1 then ExitCheck(false) else Outside)))
      else None
    case Pause => if slot.Some? && slot.value > 0 then Some(now) else Some(now.(thread := Thread(slot, PauseLock)))
    case _ => None
  }

  /** The next atomic step of the call thread `t` is in; `None` while it blocks. */
  function Proceed(now: Effect, t: Tid, slots: set<Tid>): Option<Effect> {
    var slot := now.thread.slot;
    var depth := if slot.Some? then slot.value else 0;
    match now.thread.pc
    case Outside => None
    case Registering =>
      if now.maintenance.Some? then None
      else Some(now.(thread := Thread(Some(0), Registered), maintenance := Some(t)))
    case Registered => Some(now.(thread := Thread(slot, Announcing), maintenance := None))
    case Announcing => Some(now.(thread := Thread(Some(depth + 1), if depth != 0 then Outside else Checking)))
    case Checking => Some(now.(thread := Thread(slot, if now.closed then Withdrawing else Outside)))
    case Withdrawing => Some(now.(thread := Thread(Some(if depth > 0 then depth - 1 else 0), ExitCheck(true))))
    case Yielding =>
      if now.maintenance.Some? then None
      else Some(now.(thread := Thread(slot, Yielded), maintenance := Some(t)))
    case Yielded => Some(now.(thread := Thread(slot, Announcing), maintenance := None))
    case ExitCheck(retry) => Some(now.(thread := Thread(slot, if now.closed then NotifyLock(retry) else After(retry))))
    case NotifyLock(retry) =>
      if now.idle.Some? then None else Some(now.(thread := Thread(slot, Notifying(retry)), idle := Some(t)))
    case Notifying(retry) => Some(now.(thread := Thread(slot, NotifyUnlock(retry)), notify := true))
    case NotifyUnlock(retry) => Some(now.(thread := Thread(slot, After(retry)), idle := None))
    case PauseLock =>
      if now.maintenance.Some? then None
      else Some(now.(thread := Thread(slot, Closing), maintenance := Some(t)))
    case Closing => Some(now.(thread := Thread(slot, Fencing), closed := true))
    case Fencing => Some(now.(thread := Thread(slot, IdleLock)))
    case IdleLock =>
      if now.idle.Some? then None else Some(now.(thread := Thread(slot, Scanning(slots)), idle := Some(t)))
    case Scanning(todo) => if todo == {} then Some(now.(thread := Thread(slot, Drained))) else None
    case Sleeping => Some(now.(thread := Thread(slot, Waiting), idle := None))
    case Waiting => None
    case Woken =>
      if now.idle.Some? then None else Some(now.(thread := Thread(slot, Scanning(slots)), idle := Some(t)))
    case Drained => Some(now.(thread := Thread(slot, Relocating), idle := None))
    case Relocating => Some(now.(thread := Thread(slot, Reopening)))
    case Reopening => Some(now.(thread := Thread(slot, Unlocking), closed := false))
    case Unlocking => Some(now.(thread := Thread(slot, Outside), maintenance := None))
  }

  /** Looks at one slot: an active one ends the scan and sends the compactor to sleep. */
  function Look(now: Effect, other: Tid, active: bool): Option<Effect> {
    if now.thread.pc.Scanning? && other in now.thread.pc.todo
    then Some(now.(thread := now.thread.(pc := if active then Sleeping else Scanning(now.thread.pc.todo - {other}))))
    else None
  }

  function Local(now: Effect, t: Tid, a: Action, slots: set<Tid>, active: bool): Option<Effect> {
    match a
    case Continue => Proceed(now, t, slots)
    case Scan(u) => Look(now, u, active)
    case FenceFails => if now.thread.pc == Fencing then Some(now.(thread := now.thread.(pc := Reopening))) else None
    case _ => if now.thread.pc == Outside then Begin(now, a) else None
  }

  /** `notify_one` moves the sleeping compactor, if there is one, to the wake path. */
  function Wake(th: Thread, notify: bool): Thread {
    if notify && th.pc == Waiting then th.(pc := Woken) else th
  }

  function Now(s: State, t: Tid): Effect
    requires t in s.threads
  {
    Effect(s.threads[t], s.closed, s.maintenance, s.idle, false)
  }

  function Apply(s: State, t: Tid, f: Effect): State {
    State(map u | u in s.threads :: if u == t then f.thread else Wake(s.threads[u], f.notify),
          f.closed, f.maintenance, f.idle)
  }

  function Step(s: State, t: Tid, a: Action): Option<State> {
    if t !in s.threads then None
    else
      var f := Local(Now(s, t), t, a, Slots(s), a.Scan? && Active(s, a.other));
      if f.None? then None else Some(Apply(s, t, f.value))
  }

  predicate Active(s: State, u: Tid) {
    u in s.threads && s.threads[u].slot.Some? && s.threads[u].slot.value > 0
  }

  /** Holds at least one admitted read guard. */
  predicate Admitted(s: State, u: Tid) {
    Active(s, u) && s.threads[u].pc != Checking && s.threads[u].pc != Withdrawing
  }

  predicate Initial(s: State) {
    && s.closed == false && s.maintenance == None && s.idle == None
    && forall t :: t in s.threads ==> s.threads[t] == Thread(None, Outside)
  }

  /** States reached by any number of threads in any interleaving. */
  ghost predicate Reachable(s: State, n: nat)
    decreases n
  {
    if n == 0 then Initial(s)
    else exists p, t, a :: Reachable(p, n - 1) && Step(p, t, a) == Some(s)
  }

  // ---------------------------------------------------------------- Invariant

  predicate HoldsMaintenance(pc: Pc) {
    pc.Registered? || pc.Yielded? || pc.Closing? || GateShut(pc) || pc.Unlocking?
  }

  /** Pause phases between closing and reopening the gate. */
  predicate GateShut(pc: Pc) {
    || pc.Fencing? || pc.IdleLock? || pc.Scanning? || pc.Sleeping? || pc.Waiting?
    || pc.Woken? || pc.Drained? || pc.Relocating? || pc.Reopening?
  }

  predicate HoldsIdle(pc: Pc) {
    pc.Notifying? || pc.NotifyUnlock? || pc.Scanning? || pc.Sleeping? || pc.Drained?
  }

  /** Has dropped its slot to zero and still has the notification ahead of it. */
  predicate Owes(s: State, u: Tid) {
    u in s.threads && (s.threads[u].pc.ExitCheck? || s.threads[u].pc.NotifyLock? || s.threads[u].pc.Notifying?)
  }

  predicate SlotFits(th: Thread) {
    match th.pc
    case Outside => true
    case Registering => th.slot == None
    case Announcing => th.slot.Some?
    case Checking => th.slot == Some(1)
    case Withdrawing => th.slot == Some(1)
    case PauseLock => th.slot == None || th.slot == Some(0)
    case _ => th.slot == Some(0) || (th.slot == None && (th.pc.Closing? || th.pc.Unlocking? || GateShut(th.pc)))
  }

  /** Exactly the positions that hold a mutex belong to its owner. */
  ghost predicate MaintenanceSound(s: State) {
    && (forall t :: t in s.threads && HoldsMaintenance(s.threads[t].pc) ==> s.maintenance == Some(t))
    && (s.maintenance.Some? ==> s.maintenance.value in s.threads && HoldsMaintenance(s.threads[s.maintenance.value].pc))
  }

  ghost predicate IdleSound(s: State) {
    && (forall t :: t in s.threads && HoldsIdle(s.threads[t].pc) ==> s.idle == Some(t))
    && (s.idle.Some? ==> s.idle.value in s.threads && HoldsIdle(s.threads[s.idle.value].pc))
  }

  /** The gate is shut exactly during the pause phases of the maintenance holder. */
  predicate GateSound(s: State) {
    s.closed <==> s.maintenance.Some? && s.maintenance.value in s.threads && GateShut(s.threads[s.maintenance.value].pc)
  }

  ghost predicate SlotsSound(s: State) {
    forall t :: t in s.threads ==> SlotFits(s.threads[t])
  }

  /** What the compactor has established about the slots it already visited. */
  ghost predicate ScanSound(s: State, c: Tid)
    requires c in s.threads
  {
    match s.threads[c].pc
    case Scanning(todo) => todo <= Slots(s) && forall u :: u in s.threads && u !in todo ==> !Admitted(s, u)
    case Drained => forall u :: u in s.threads ==> !Admitted(s, u)
    case Relocating => forall u :: u in s.threads ==> !Admitted(s, u)
    case Sleeping => exists u :: Active(s, u) || Owes(s, u)
    case Waiting => exists u :: Active(s, u) || Owes(s, u)
    case _ => true
  }

  ghost predicate Inv(s: State) {
    && MaintenanceSound(s)
    && IdleSound(s)
    && GateSound(s)
    && SlotsSound(s)
    && forall c :: c in s.threads ==> ScanSound(s, c)
  }
}
