/** The replication server: it sends the leader's log from a start position to
    whatever durable position it last heard of. */
module LogServer {
  import opened Basics

  /** A byte position in a segmented log. */
  datatype Position = Position(superblock: nat, offset: nat)

  predicate Precedes(a: Position, b: Position) {
    a.superblock < b.superblock || (a.superblock == b.superblock && a.offset < b.offset)
  }

  function Later(a: Position, b: Position): Position {
    if Precedes(a, b) then b else a
  }

  /** Retained segments by superblock id, each up to its durable cursor; `head`
      is the segment still being written. */
  datatype Log = Log(segments: map<nat, seq<Byte>>, head: nat)

  predicate Holds(log: Log, p: Position) {
    p.superblock in log.segments && p.offset <= |log.segments[p.superblock]|
  }

  /** `log` is what a server can see at some moment of a log whose whole history
      is `full`: sealed segments are final, the head may still grow, and old
      segments may have been truncated away. */
  ghost predicate Sees(full: Log, log: Log) {
    forall id :: id in log.segments ==>
      && id <= log.head && id in full.segments
      && (if id < log.head then log.segments[id] == full.segments[id] else log.segments[id] <= full.segments[id])
  }

  /** Every segment id between two positions was written. */
  ghost predicate Connected(log: Log, a: Position, b: Position) {
    && a.superblock <= b.superblock
    && (forall id :: a.superblock <= id <= b.superblock ==> id in log.segments)
    && a.offset <= |log.segments[a.superblock]| && b.offset <= |log.segments[b.superblock]|
    && (a.superblock == b.superblock ==> a.offset <= b.offset)
  }

  /** The log bytes between two positions. */
  ghost function Between(log: Log, a: Position, b: Position): seq<Byte>
    requires Connected(log, a, b)
    decreases b.superblock - a.superblock
  {
    if a.superblock == b.superblock then log.segments[a.superblock][a.offset..b.offset]
    else log.segments[a.superblock][a.offset..] + Between(log, Position(a.superblock + 1, 0), b)
  }

  /** Ranges join: what lies between `a` and `c` is what lies up to `b` and then on. */
  lemma {:induction false} BetweenJoins(log: Log, a: Position, b: Position, c: Position)
    requires Connected(log, a, b) && Connected(log, b, c)
    ensures Connected(log, a, c) && Between(log, a, c) == Between(log, a, b) + Between(log, b, c)
    decreases b.superblock - a.superblock
  {
    if a.superblock < b.superblock {
      var next := Position(a.superblock + 1, 0);
      BetweenJoins(log, next, b, c);
      assert Between(log, a, c) == log.segments[a.superblock][a.offset..] + Between(log, next, c);
    } else if b.superblock < c.superblock {
      var segment := log.segments[a.superblock];
      assert segment[a.offset..] == segment[a.offset..b.offset] + segment[b.offset..];
    }
  }

  /** Crossing a sealed segment: to its end, then to the start of the next. */
  lemma BetweenCrosses(log: Log, a: Position)
    requires Holds(log, a) && a.superblock + 1 in log.segments
    ensures var end, next := Position(a.superblock, |log.segments[a.superblock]|), Position(a.superblock + 1, 0);
      Connected(log, a, end) && Connected(log, end, next) && Connected(log, a, next) && Between(log, end, next) == []
  {
  }

  lemma NothingBetween(log: Log, a: Position)
    requires Holds(log, a)
    ensures Connected(log, a, a) && Between(log, a, a) == []
  {
  }

  class ReplicationServer {
    var current: Position
    var sent: seq<Byte>

    constructor (start: Position)
      ensures current == start && sent == []
    {
      current, sent := start, [];
    }

    /** Sends bytes of the current segment up to `end`. */
    method Send(log: Log, end: nat, ghost full: Log)
      requires Sees(full, log) && current.superblock in log.segments
      requires current.offset <= end <= |log.segments[current.superblock]|
      modifies this
      ensures current == old(current).(offset := end)
      ensures Connected(full, old(current), current) && sent == old(sent) + Between(full, old(current), current)
    {
      var start := current.offset;
      sent := sent + log.segments[current.superblock][start..end];
      current := current.(offset := end);
      assert log.segments[current.superblock][start..end] == full.segments[current.superblock][start..end];
    }

    /** Moves from the end of a sealed segment to the start of the next. */
    method Step(log: Log, ghost full: Log) returns (ok: bool)
      requires Sees(full, log) && Holds(full, current) && current.superblock < log.head
      requires current.superblock in log.segments
      modifies this
      ensures Holds(full, current) && Connected(full, old(current), current)
      ensures sent == old(sent) + Between(full, old(current), current)
      ensures ok <==> old(current).superblock + 1 in log.segments
      ensures ok ==> current == Position(old(current).superblock + 1, 0)
      ensures !ok ==> current.superblock == old(current).superblock
    {
      Send(log, |log.segments[current.superblock]|, full);
      var next := current.superblock + 1;
      if next !in log.segments {
        return false;
      }
      BetweenCrosses(full, current);
      ghost var end := current;
      current := Position(next, 0);
      BetweenJoins(full, old(current), end, current);
      assert Between(full, end, current) == [];
      return true;
    }

    /** Sends every durable byte up to `target`. What was sent is always the log
        between the old and the new position; it fails only on a missing segment. */
    method Advance(log: Log, target: Position, ghost full: Log) returns (ok: bool)
      requires Sees(full, log) && Holds(full, current) && Holds(log, target)
      modifies this
      ensures Holds(full, current) && Connected(full, old(current), current)
      ensures sent == old(sent) + Between(full, old(current), current)
      ensures ok ==> current == Later(old(current), target)
      ensures ok ==> current == old(current) || current == target
      ensures ok ==> || target.superblock < current.superblock
                     || (target.superblock == current.superblock && target.offset <= current.offset)
      ensures ok <==> Reachable(old(current), (log, target))
    {
      hide Between;
      NothingBetween(full, current);
      if !Precedes(current, target) {
        return true;
      }
      while current.superblock < target.superblock
        invariant old(current).superblock <= current.superblock <= target.superblock
        invariant forall id :: old(current).superblock <= id < current.superblock ==> id in log.segments
        invariant Precedes(current, target) || current == target
        invariant Holds(full, current) && Connected(full, old(current), current)
        invariant sent == old(sent) + Between(full, old(current), current)
      {
        if current.superblock !in log.segments {
          return false;
        }
        ghost var before := current;
        ok := Step(log, full);
        BetweenJoins(full, old(current), before, current);
        if !ok {
          return;
        }
      }
      ghost var before := current;
      Send(log, target.offset, full);
      BetweenJoins(full, old(current), before, current);
      return true;
    }

    /** Follows cursor updates. However many updates were merged, skipped or
        repeated, what was sent is the log from the start to the latest one; it
        fails exactly when an update needs a segment that is gone. */
    method Follow(updates: seq<(Log, Position)>, ghost full: Log) returns (ok: bool)
      requires Holds(full, current)
      requires forall u :: u in updates ==> Sees(full, u.0) && Holds(u.0, u.1)
      modifies this
      ensures Holds(full, current) && Connected(full, old(current), current)
      ensures sent == old(sent) + Between(full, old(current), current)
      ensures ok ==> current == Latest(old(current), updates)
      ensures ok ==> current == old(current) || exists u :: u in updates && current == u.1
      ensures ok ==> forall u :: u in updates ==>
                || u.1.superblock < current.superblock
                || (u.1.superblock == current.superblock && u.1.offset <= current.offset)
      ensures ok <==> forall i :: 0 <= i < |updates| ==> ReachableAt(old(current), updates, i)
    {
      hide Between, Reachable, Latest, Connected;
      NothingBetween(full, current);
      LatestStart(current, updates);
      var i := 0;
      while i < |updates|
        invariant 0 <= i <= |updates| && Holds(full, current) && Connected(full, old(current), current)
        invariant sent == old(sent) + Between(full, old(current), current)
        invariant current == Latest(old(current), updates[..i])
        invariant forall j :: 0 <= j < i ==> !Precedes(current, updates[j].1)
        invariant current == old(current) || exists u :: u in updates && current == u.1
        invariant forall j :: 0 <= j < i ==> ReachableAt(old(current), updates, j)
      {
        ghost var before := current;
        ok := Advance(updates[i].0, updates[i].1, full);
        assert ok == ReachableAt(old(current), updates, i);
        BetweenJoins(full, old(current), before, current);
        if !ok {
          return;
        }
        LatestStep(old(current), updates, i);
        assert current == updates[i].1 ==> updates[i] in updates;
        i := i + 1;
      }
      assert updates[..i] == updates;
      return true;
    }

    /** Serves one follower. `current` starts at the durable position sampled when it
        connected; the first update is the catch-up, the rest are cursor updates. A
        follower is streamed to exactly from a position the log still holds past the
        first segment, and gets the log from there on; others are sent nothing. */
    method Serve(log: Log, requested: Position, updates: seq<(Log, Position)>, ghost full: Log)
      returns (action: Action, ok: bool)
      requires Sees(full, log)
      requires forall u :: u in updates ==> Sees(full, u.0) && Holds(u.0, u.1)
      modifies this
      ensures action.Stream? <==>
              Holds(log, requested) && !Precedes(old(current), requested) && requested.superblock != 1
      ensures action.NotFound? <==>
              Precedes(old(current), requested) ||
              (requested.superblock != 1 && requested.superblock in log.segments && !Holds(log, requested))
      ensures action.Stream? ==>
                Connected(full, requested, current) && sent == old(sent) + Between(full, requested, current)
      ensures action.Stream? && ok ==> current == Latest(requested, updates)
      ensures action.Stream? && ok ==> current == requested || exists u :: u in updates && current == u.1
      ensures action.Stream? && ok ==> forall u :: u in updates ==>
                || u.1.superblock < current.superblock
                || (u.1.superblock == current.superblock && u.1.offset <= current.offset)
      ensures old(current).superblock < requested.superblock ==> action == NotFound
      ensures old(current).superblock == requested.superblock && old(current).offset < requested.offset ==>
                action == NotFound
      ensures action.Stream? ==>
                (ok <==> forall i :: 0 <= i < |updates| ==> ReachableAt(requested, updates, i))
      ensures !action.Stream? ==> ok && sent == old(sent)
    {
      action, ok := Handshake(log, current, requested), true;
      if action.Stream? {
        current := action.from;
        ok := Follow(updates, full);
      }
    }
  }

  /** The update can be reached: every segment on the way is still there. */
  ghost predicate Reachable(from: Position, update: (Log, Position)) {
    Precedes(from, update.1) ==>
      forall id :: from.superblock <= id <= update.1.superblock ==> id in update.0.segments
  }

  ghost predicate ReachableAt(start: Position, updates: seq<(Log, Position)>, i: nat)
    requires i < |updates|
  {
    Reachable(Latest(start, updates[..i]), updates[i])
  }

  /** The latest of a start position and all updates. */
  ghost function Latest(start: Position, updates: seq<(Log, Position)>): Position {
    if updates == [] then start else Later(Latest(start, updates[..|updates| - 1]), updates[|updates| - 1].1)
  }

  lemma LatestStart(start: Position, updates: seq<(Log, Position)>)
    ensures Latest(start, updates[..0]) == start
  {
  }

  lemma LatestStep(start: Position, updates: seq<(Log, Position)>, i: nat)
    requires i < |updates|
    ensures Latest(start, updates[..i + 1]) == Later(Latest(start, updates[..i]), updates[i].1)
  {
    assert updates[..i + 1][..i] == updates[..i];
  }

  // ---------------------------------------------------------------- Handshake

  datatype Action = Stream(from: Position) | Snapshot | NotFound

  /** Fresh followers start from a snapshot, retained positions are streamed. */
  function Handshake(log: Log, tip: Position, requested: Position): Action {
    if Precedes(tip, requested) then NotFound
    else if requested.superblock == 1 then Snapshot
    else if requested.superblock !in log.segments then Snapshot
    else if requested.offset <= |log.segments[requested.superblock]| then Stream(requested)
    else NotFound
  }

  /** The log with only some of its segments left. */
  function Retained(log: Log, kept: set<nat>): Log {
    log.(segments := map id | id in log.segments && id in kept :: log.segments[id])
  }
}
