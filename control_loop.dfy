/** One pass of the main loop and the loop itself: the inverted, dead-zoned stick moves the
    left and right motors by the same truncated offset from their present positions, the
    bumpers move the larger motor by one increment (left bumper first), and a failed
    present-position read ends the tick before that motor is written. */
module ControlLoop {
  import opened Wrappers
  import opened ControlTable
  import opened Positions
  import opened Transport
  import opened Dynamixel

  /** The joystick state sampled for one tick: axis 0 as the device reports it, and
      buttons 4 (left bumper) and 5 (right bumper). */
  datatype Snapshot = Snapshot(axis: real, leftBumper: bool, rightBumper: bool)

  /** The three motors the loop drives. */
  datatype Role = Left | Right | Larger

  /** The device's reply to each motor's present-position read in one tick. */
  datatype Readings = Readings(left: ReadReply, right: ReadReply, larger: ReadReply) {
    function For(role: Role): ReadReply {
      match role
      case Left => left
      case Right => right
      case Larger => larger
    }
  }

  /** The motor identifiers the loop drives. */
  datatype Rig = Rig(left: int, right: int, larger: int) {
    predicate Distinct() {
      left != right && left != larger && right != larger
    }

    function Id(role: Role): int {
      match role
      case Left => left
      case Right => right
      case Larger => larger
    }
  }

  const MOTORS: Rig := Rig(DXL_ID_LEFT, DXL_ID_RIGHT, DXL_ID_LARGER)

  /** How a tick ends: normally, or with the exception raised when the present-position
      read of motor `id` returned `None` and the loop added an offset to it. */
  datatype Status = Completed | Aborted(id: int)

  /** The transactions a tick issues, in order, and how it ends. */
  datatype Outcome = Outcome(txns: seq<Txn>, status: Status)

  const DEAD_ZONE: real := 0.1

  function RealAbs(x: real): real {
    if x < 0.0 then -x else x
  }

  /** The stick's horizontal position with the sign flipped, as the loop uses it: the
      inversion swaps the sides and leaves the distance from centre unchanged. */
  function StickX(snap: Snapshot): (x: real)
    ensures RealAbs(x) == RealAbs(snap.axis)
    ensures x > 0.0 <==> snap.axis < 0.0
  {
    -snap.axis
  }

  /** Python's int() on a float: truncation toward zero. */
  function Truncate(v: real): (n: int)
    ensures 0.0 <= v ==> n as real <= v < n as real + 1.0
    ensures v < 0.0 ==> n as real - 1.0 < v <= n as real
  {
    if v >= 0.0 then v.Floor else -((-v).Floor)
  }

  /** The offset the stick adds to both coupled motors: int(x * POSITION_INCREMENT). */
  function PositionOffset(x: real): (offset: int)
    ensures -1.0 <= x <= 1.0 ==> -POSITION_INCREMENT <= offset <= POSITION_INCREMENT
    ensures offset > 0 ==> x > 0.0
    ensures offset < 0 ==> x < 0.0
  {
    Truncate(x * POSITION_INCREMENT as real)
  }

  /** Outside the dead zone the offset is non-zero, has the sign of the stick, and moves
      by at least a tenth of an increment and at most one increment. */
  lemma OffsetOutsideDeadZone(x: real)
    requires DEAD_ZONE < RealAbs(x) <= 1.0
    ensures x > 0.0 ==> 10 <= PositionOffset(x) <= POSITION_INCREMENT
    ensures x < 0.0 ==> -POSITION_INCREMENT <= PositionOffset(x) <= -10
  {
    var v := x * POSITION_INCREMENT as real;
    if x > 0.0 {
      assert v > 10.0;
    } else {
      assert v < -10.0;
    }
  }

  /** Read one motor's present position and, if it is known, write it back moved by `delta`
      (clamped). A `None` read ends the tick with no write. */
  function Nudge(id: int, reply: ReadReply, delta: int): (o: Outcome)
    ensures 0 < |o.txns| <= 2 && o.txns[0] == PositionRead(id)
    ensures o.status.Completed? <==> PresentPosition(reply).Some?
    ensures o.status.Aborted? ==> o.status.id == id && |o.txns| == 1
  {
    match PresentPosition(reply)
    case None => Outcome([PositionRead(id)], Aborted(id))
    case Some(p) => Outcome([PositionRead(id), GoalWrite(id, p + delta)], Completed)
  }

  /** Sequential composition: `b` runs only when `a` completed. */
  function Then(a: Outcome, b: Outcome): Outcome {
    if a.status.Completed? then Outcome(a.txns + b.txns, b.status) else a
  }

  const Idle: Outcome := Outcome([], Completed)

  /** The offset the stick commands this tick, or None inside the dead zone. */
  function StickOffset(snap: Snapshot): (offset: Option<int>)
    ensures offset.None? <==> RealAbs(StickX(snap)) <= DEAD_ZONE
  {
    var x := StickX(snap);
    if RealAbs(x) > DEAD_ZONE then Some(PositionOffset(x)) else None
  }

  /** The step the bumpers command for the larger motor: the left bumper wins. */
  function BumperDelta(snap: Snapshot): (delta: Option<int>)
    ensures delta.None? <==> !snap.leftBumper && !snap.rightBumper
    ensures delta.Some? ==> (delta.value == -POSITION_INCREMENT <==> snap.leftBumper)
    ensures delta.Some? ==> (delta.value == POSITION_INCREMENT <==> !snap.leftBumper)
  {
    if snap.leftBumper then Some(-POSITION_INCREMENT)
    else if snap.rightBumper then Some(POSITION_INCREMENT)
    else None
  }

  /** A commanded relative move of one motor. */
  datatype Move = Move(role: Role, delta: int)

  /** What one snapshot commands, in the order the loop issues it: the left and right
      motors by the stick offset, then the larger motor by the bumper step. */
  function CoupledMoves(snap: Snapshot): seq<Move> {
    match StickOffset(snap)
    case None => []
    case Some(offset) => [Move(Left, offset), Move(Right, offset)]
  }

  function BumperMoves(snap: Snapshot): seq<Move> {
    match BumperDelta(snap)
    case None => []
    case Some(delta) => [Move(Larger, delta)]
  }

  function TickMoves(snap: Snapshot): (moves: seq<Move>)
    ensures |moves| <= 3
  {
    CoupledMoves(snap) + BumperMoves(snap)
  }

  /** Carrying out moves in order, each a read and a write, until a read fails. */
  function Execute(rig: Rig, readings: Readings, moves: seq<Move>): (o: Outcome)
    ensures |o.txns| <= 2 * |moves|
  {
    if moves == [] then Idle
    else
      var m := moves[0];
      Then(Nudge(rig.Id(m.role), readings.For(m.role), m.delta), Execute(rig, readings, moves[1..]))
  }

  /** Everything one tick of the main loop issues on the bus, and how it ends: at most a read
      and a write for each of the three motors. */
  function TickSpec(rig: Rig, snap: Snapshot, readings: Readings): (o: Outcome)
    ensures |o.txns| <= 6
  {
    Execute(rig, readings, TickMoves(snap))
  }

  lemma ThenAssociative(a: Outcome, b: Outcome, c: Outcome)
    ensures Then(Then(a, b), c) == Then(a, Then(b, c))
  {
  }

  /** Carrying out two move lists one after the other is carrying out their concatenation. */
  lemma {:induction false} ExecuteAppend(rig: Rig, readings: Readings, a: seq<Move>, b: seq<Move>)
    ensures Execute(rig, readings, a + b) == Then(Execute(rig, readings, a), Execute(rig, readings, b))
  {
    if a == [] {
      assert a + b == b;
      var e := Execute(rig, readings, b);
      assert Then(Idle, e) == Outcome([] + e.txns, e.status);
      assert [] + e.txns == e.txns;
    } else {
      assert (a + b)[0] == a[0];
      assert (a + b)[1..] == a[1..] + b;
      ExecuteAppend(rig, readings, a[1..], b);
      var m := a[0];
      ThenAssociative(Nudge(rig.Id(m.role), readings.For(m.role), m.delta),
                      Execute(rig, readings, a[1..]), Execute(rig, readings, b));
    }
  }

  lemma ThenIdle(a: Outcome)
    ensures Then(a, Idle) == a
  {
    assert a.txns + [] == a.txns;
  }

  /** The stick part of a tick as a direct case analysis: both coupled motors by the same
      offset, the right one only if the left one's read succeeded, or nothing. */
  function CoupledPart(rig: Rig, snap: Snapshot, readings: Readings): (o: Outcome)
    ensures |o.txns| <= 4
    ensures o.status.Aborted? ==> o.status.id == rig.left || o.status.id == rig.right
  {
    match StickOffset(snap)
    case None => Idle
    case Some(offset) =>
      Then(Nudge(rig.left, readings.left, offset), Nudge(rig.right, readings.right, offset))
  }

  /** The bumper part of a tick as a direct case analysis: at most a read and a write of the
      larger motor. */
  function BumperPart(rig: Rig, snap: Snapshot, readings: Readings): (o: Outcome)
    ensures |o.txns| <= 2
    ensures o.status.Aborted? ==> o.status.id == rig.larger
  {
    match BumperDelta(snap)
    case None => Idle
    case Some(delta) => Nudge(rig.larger, readings.larger, delta)
  }

  /** Carrying out the stick moves is the stick part. */
  lemma ExecuteCoupledMoves(rig: Rig, snap: Snapshot, readings: Readings)
    ensures Execute(rig, readings, CoupledMoves(snap)) == CoupledPart(rig, snap, readings)
  {
    var c := CoupledMoves(snap);
    if c != [] {
      var right := Nudge(rig.right, readings.right, c[1].delta);
      assert c[1..][1..] == [];
      ThenIdle(right);
      assert Execute(rig, readings, c[1..]) == right;
    }
  }

  /** Carrying out the bumper move is the bumper part. */
  lemma ExecuteBumperMoves(rig: Rig, snap: Snapshot, readings: Readings)
    ensures Execute(rig, readings, BumperMoves(snap)) == BumperPart(rig, snap, readings)
  {
    var b := BumperMoves(snap);
    if b != [] {
      assert b[1..] == [];
      ThenIdle(Nudge(rig.larger, readings.larger, b[0].delta));
    }
  }

  /** A tick is the stick part followed, if it completed, by the bumper part. */
  lemma TickSpecParts(rig: Rig, snap: Snapshot, readings: Readings)
    ensures TickSpec(rig, snap, readings) == Then(CoupledPart(rig, snap, readings), BumperPart(rig, snap, readings))
  {
    ExecuteAppend(rig, readings, CoupledMoves(snap), BumperMoves(snap));
    ExecuteCoupledMoves(rig, snap, readings);
    ExecuteBumperMoves(rig, snap, readings);
  }

  /** The goal positions written to motor `id` in `t`, in order, as signed values. */
  function GoalsFor(t: seq<Txn>, id: int): seq<int> {
    if t == [] then []
    else
      (if t[0].Write? && t[0].id == id && t[0].addr == ADDR_GOAL_POSITION
       then [Decode32(t[0].value)] else [])
      + GoalsFor(t[1..], id)
  }

  lemma {:induction false} GoalsForAppend(a: seq<Txn>, b: seq<Txn>, id: int)
    ensures GoalsFor(a + b, id) == GoalsFor(a, id) + GoalsFor(b, id)
  {
    if a == [] {
      assert a + b == b;
    } else {
      assert (a + b)[1..] == a[1..] + b;
      GoalsForAppend(a[1..], b, id);
    }
  }

  /** Every goal write in `t` carries an in-range position. */
  predicate GoalWritesInRange(t: seq<Txn>) {
    forall k :: 0 <= k < |t| && t[k].Write? && t[k].addr == ADDR_GOAL_POSITION ==>
      InRange(Decode32(t[k].value))
  }

  /** Every transaction in `t` is addressed to motor `id`. */
  predicate AllFor(t: seq<Txn>, id: int) {
    forall k :: 0 <= k < |t| ==> t[k].id == id
  }

  /** A nudge touches only its own motor, writes the clamped moved position when the read
      succeeds, and stops after the read with no write when it fails. */
  lemma NudgeGoals(id: int, reply: ReadReply, delta: int, other: int)
    requires other != id
    ensures AllFor(Nudge(id, reply, delta).txns, id)
    ensures GoalsFor(Nudge(id, reply, delta).txns, other) == []
    ensures PresentPosition(reply).Some? ==>
      && Nudge(id, reply, delta).status == Completed
      && GoalsFor(Nudge(id, reply, delta).txns, id) == [Clamp(PresentPosition(reply).value + delta)]
    ensures PresentPosition(reply).None? ==>
      && Nudge(id, reply, delta).status == Aborted(id)
      && Nudge(id, reply, delta).txns == [PositionRead(id)]
      && GoalsFor(Nudge(id, reply, delta).txns, id) == []
  {
    match PresentPosition(reply)
    case None =>
    case Some(p) =>
      var t := Nudge(id, reply, delta).txns;
      assert t[1..][1..] == [];
      assert GoalsFor(t[1..], id) == [Clamp(p + delta)];
      assert GoalsFor(t[1..], other) == [];
  }

  /** The goals of a composition: those of the first part, then, if it completed, those of
      the second. */
  lemma ThenGoals(a: Outcome, b: Outcome, id: int)
    ensures !a.status.Completed? ==> GoalsFor(Then(a, b).txns, id) == GoalsFor(a.txns, id)
    ensures a.status.Completed? && GoalsFor(a.txns, id) == [] ==>
      GoalsFor(Then(a, b).txns, id) == GoalsFor(b.txns, id)
    ensures a.status.Completed? && GoalsFor(b.txns, id) == [] ==>
      GoalsFor(Then(a, b).txns, id) == GoalsFor(a.txns, id)
  {
    if a.status.Completed? {
      GoalsForAppend(a.txns, b.txns, id);
      assert [] + GoalsFor(b.txns, id) == GoalsFor(b.txns, id);
      assert GoalsFor(a.txns, id) + [] == GoalsFor(a.txns, id);
    }
  }

  /** The stick part does nothing inside the dead zone; outside it, it stops at the first
      failed read, the left motor's before the right one's. */
  lemma CoupledStatus(rig: Rig, snap: Snapshot, readings: Readings)
    ensures var c := CoupledPart(rig, snap, readings);
      var pl, pr := PresentPosition(readings.left), PresentPosition(readings.right);
      && (StickOffset(snap).None? ==> c == Idle)
      && (StickOffset(snap).Some? ==>
            c.status == (if pl.None? then Aborted(rig.left)
                         else if pr.None? then Aborted(rig.right) else Completed))
  {
  }

  /** The stick part moves the left motor, then, if its read succeeded, the right motor,
      both by the same offset; it never touches the larger motor. */
  lemma CoupledGoals(rig: Rig, snap: Snapshot, readings: Readings)
    requires rig.Distinct()
    ensures var c := CoupledPart(rig, snap, readings);
      var pl, pr := PresentPosition(readings.left), PresentPosition(readings.right);
      && GoalsFor(c.txns, rig.larger) == []
      && (StickOffset(snap).None? ==> GoalsFor(c.txns, rig.left) == [] && GoalsFor(c.txns, rig.right) == [])
      && (StickOffset(snap).Some? ==>
            var offset := StickOffset(snap).value;
            && GoalsFor(c.txns, rig.left) == (if pl.Some? then [Clamp(pl.value + offset)] else [])
            && GoalsFor(c.txns, rig.right)
               == (if pl.Some? && pr.Some? then [Clamp(pr.value + offset)] else []))
  {
    match StickOffset(snap)
    case None =>
    case Some(offset) =>
      var l := Nudge(rig.left, readings.left, offset);
      var r := Nudge(rig.right, readings.right, offset);
      NudgeGoals(rig.left, readings.left, offset, rig.right);
      NudgeGoals(rig.left, readings.left, offset, rig.larger);
      NudgeGoals(rig.right, readings.right, offset, rig.left);
      NudgeGoals(rig.right, readings.right, offset, rig.larger);
      ThenGoals(l, r, rig.left);
      ThenGoals(l, r, rig.right);
      ThenGoals(l, r, rig.larger);
  }

  /** The bumper part touches only the larger motor: one move by the bumper step, written
      only when its read succeeds, or nothing when no bumper is pressed. */
  lemma BumperGoals(rig: Rig, snap: Snapshot, readings: Readings)
    requires rig.Distinct()
    ensures var b := BumperPart(rig, snap, readings);
      var p := PresentPosition(readings.larger);
      && AllFor(b.txns, rig.larger)
      && GoalsFor(b.txns, rig.left) == [] && GoalsFor(b.txns, rig.right) == []
      && (BumperDelta(snap).None? ==> b == Idle && GoalsFor(b.txns, rig.larger) == [])
      && (BumperDelta(snap).Some? ==>
            && GoalsFor(b.txns, rig.larger)
               == (if p.Some? then [Clamp(p.value + BumperDelta(snap).value)] else [])
            && b.status == (if p.Some? then Completed else Aborted(rig.larger)))
  {
    match BumperDelta(snap)
    case None =>
    case Some(delta) =>
      NudgeGoals(rig.larger, readings.larger, delta, rig.left);
      NudgeGoals(rig.larger, readings.larger, delta, rig.right);
  }

  /** Inside the dead zone the left and right motors are not even read. */
  lemma TickDeadZone(rig: Rig, snap: Snapshot, readings: Readings)
    requires rig.Distinct()
    requires RealAbs(StickX(snap)) <= DEAD_ZONE
    ensures AllFor(TickSpec(rig, snap, readings).txns, rig.larger)
    ensures GoalsFor(TickSpec(rig, snap, readings).txns, rig.left) == []
    ensures GoalsFor(TickSpec(rig, snap, readings).txns, rig.right) == []
  {
    TickSpecParts(rig, snap, readings);
    CoupledStatus(rig, snap, readings);
    BumperGoals(rig, snap, readings);
    var b := BumperPart(rig, snap, readings);
    assert Then(Idle, b).txns == [] + b.txns == b.txns;
    assert TickSpec(rig, snap, readings).txns == b.txns;
  }

  /** Outside the dead zone, when both coupled reads succeed, each coupled motor gets its
      own present position plus the same offset, clamped, as its one goal of the tick. */
  lemma TickCoupled(rig: Rig, snap: Snapshot, readings: Readings)
    requires rig.Distinct()
    requires RealAbs(StickX(snap)) > DEAD_ZONE
    requires PresentPosition(readings.left).Some? && PresentPosition(readings.right).Some?
    ensures var t := TickSpec(rig, snap, readings);
      var offset := PositionOffset(StickX(snap));
      && GoalsFor(t.txns, rig.left) == [Clamp(PresentPosition(readings.left).value + offset)]
      && GoalsFor(t.txns, rig.right) == [Clamp(PresentPosition(readings.right).value + offset)]
  {
    var t := TickSpec(rig, snap, readings);
    var c := CoupledPart(rig, snap, readings);
    var b := BumperPart(rig, snap, readings);
    assert StickOffset(snap) == Some(PositionOffset(StickX(snap)));
    TickSpecParts(rig, snap, readings);
    CoupledStatus(rig, snap, readings);
    CoupledGoals(rig, snap, readings);
    BumperGoals(rig, snap, readings);
    ThenGoals(c, b, rig.left);
    ThenGoals(c, b, rig.right);
  }

  /** Outside the dead zone a failed read of the left motor ends the tick right after that
      read: nothing is written and no other motor is read. */
  lemma TickLeftReadFails(rig: Rig, snap: Snapshot, readings: Readings)
    requires RealAbs(StickX(snap)) > DEAD_ZONE
    requires PresentPosition(readings.left).None?
    ensures TickSpec(rig, snap, readings) == Outcome([PositionRead(rig.left)], Aborted(rig.left))
  {
    TickSpecParts(rig, snap, readings);
    assert StickOffset(snap) == Some(PositionOffset(StickX(snap)));
  }

  /** Outside the dead zone a failed read of the right motor ends the tick right after that
      read, with the left motor already moved: the coupling is broken for this tick. */
  lemma TickRightReadFails(rig: Rig, snap: Snapshot, readings: Readings)
    requires RealAbs(StickX(snap)) > DEAD_ZONE
    requires PresentPosition(readings.left).Some? && PresentPosition(readings.right).None?
    ensures var offset := PositionOffset(StickX(snap));
      TickSpec(rig, snap, readings)
      == Outcome([PositionRead(rig.left),
                  GoalWrite(rig.left, PresentPosition(readings.left).value + offset),
                  PositionRead(rig.right)],
                 Aborted(rig.right))
  {
    var offset := PositionOffset(StickX(snap));
    var l := Nudge(rig.left, readings.left, offset);
    var r := Nudge(rig.right, readings.right, offset);
    TickSpecParts(rig, snap, readings);
    assert StickOffset(snap) == Some(offset);
    assert CoupledPart(rig, snap, readings) == Then(l, r);
    assert l.txns + r.txns
        == [PositionRead(rig.left), GoalWrite(rig.left, PresentPosition(readings.left).value + offset),
            PositionRead(rig.right)];
  }

  /** With the stick part completed, a pressed bumper moves the larger motor from its present
      position by one increment, down for the left bumper, which wins, and up for the right
      one; that is its one goal of the tick. */
  lemma TickBumpers(rig: Rig, snap: Snapshot, readings: Readings)
    requires rig.Distinct()
    requires CoupledPart(rig, snap, readings).status.Completed?
    requires snap.leftBumper || snap.rightBumper
    requires PresentPosition(readings.larger).Some?
    ensures var t := TickSpec(rig, snap, readings);
      var step := if snap.leftBumper then -POSITION_INCREMENT else POSITION_INCREMENT;
      && t.status == Completed
      && GoalsFor(t.txns, rig.larger) == [Clamp(PresentPosition(readings.larger).value + step)]
  {
    var c := CoupledPart(rig, snap, readings);
    var b := BumperPart(rig, snap, readings);
    TickSpecParts(rig, snap, readings);
    CoupledGoals(rig, snap, readings);
    BumperGoals(rig, snap, readings);
    ThenGoals(c, b, rig.larger);
  }

  /** With the stick part completed and a bumper pressed, a failed read of the larger motor
      ends the tick right after that read, with no write to it. */
  lemma TickLargerReadFails(rig: Rig, snap: Snapshot, readings: Readings)
    requires CoupledPart(rig, snap, readings).status.Completed?
    requires snap.leftBumper || snap.rightBumper
    requires PresentPosition(readings.larger).None?
    ensures TickSpec(rig, snap, readings)
         == Outcome(CoupledPart(rig, snap, readings).txns + [PositionRead(rig.larger)], Aborted(rig.larger))
  {
    TickSpecParts(rig, snap, readings);
  }

  /** With no bumper pressed the tick is its stick part alone. */
  lemma TickNoBumper(rig: Rig, snap: Snapshot, readings: Readings)
    requires !snap.leftBumper && !snap.rightBumper
    ensures TickSpec(rig, snap, readings) == CoupledPart(rig, snap, readings)
  {
    TickSpecParts(rig, snap, readings);
    ThenIdle(CoupledPart(rig, snap, readings));
  }

  /** Both facts about goal writes survive concatenation. */
  lemma SafeGoalsAppend(a: seq<Txn>, b: seq<Txn>)
    requires WritesOnlyAt(a, ADDR_GOAL_POSITION) && GoalWritesInRange(a)
    requires WritesOnlyAt(b, ADDR_GOAL_POSITION) && GoalWritesInRange(b)
    ensures WritesOnlyAt(a + b, ADDR_GOAL_POSITION) && GoalWritesInRange(a + b)
  {
    assert forall k | |a| <= k < |a + b| :: (a + b)[k] == b[k - |a|];
  }

  /** Carrying out any moves writes only goal positions, each of them in range. */
  lemma {:induction false} ExecuteWritesSafeGoals(rig: Rig, readings: Readings, moves: seq<Move>)
    ensures WritesOnlyAt(Execute(rig, readings, moves).txns, ADDR_GOAL_POSITION)
    ensures GoalWritesInRange(Execute(rig, readings, moves).txns)
  {
    if moves != [] {
      var m := moves[0];
      var n := Nudge(rig.Id(m.role), readings.For(m.role), m.delta);
      ExecuteWritesSafeGoals(rig, readings, moves[1..]);
      if n.status.Completed? {
        SafeGoalsAppend(n.txns, Execute(rig, readings, moves[1..]).txns);
      }
    }
  }

  /** A tick writes only goal positions, and each carries an in-range value. */
  lemma TickWritesSafeGoals(rig: Rig, snap: Snapshot, readings: Readings)
    ensures WritesOnlyAt(TickSpec(rig, snap, readings).txns, ADDR_GOAL_POSITION)
    ensures GoalWritesInRange(TickSpec(rig, snap, readings).txns)
  {
    ExecuteWritesSafeGoals(rig, readings, TickMoves(snap));
  }

  /** The scenario of a half-deflected stick: present position 200,000 becomes 200,050. */
  lemma HalfStickScenario(readings: Readings)
    requires readings.left == ReadReply(200_000, COMM_SUCCESS, 0)
    requires readings.right == ReadReply(200_000, COMM_SUCCESS, 0)
    ensures GoalsFor(TickSpec(MOTORS, Snapshot(-0.5, false, false), readings).txns, DXL_ID_LEFT) == [200_050]
    ensures GoalsFor(TickSpec(MOTORS, Snapshot(-0.5, false, false), readings).txns, DXL_ID_RIGHT) == [200_050]
  {
    var snap := Snapshot(-0.5, false, false);
    assert PositionOffset(StickX(snap)) == 50;
    TickCoupled(MOTORS, snap, readings);
  }

  /** The scenario of an increment past the limit: 999,970 plus one increment saturates. */
  lemma SaturatingBumperScenario(snap: Snapshot, readings: Readings)
    requires RealAbs(StickX(snap)) <= DEAD_ZONE
    requires !snap.leftBumper && snap.rightBumper
    requires readings.larger == ReadReply(999_970, COMM_SUCCESS, 0)
    ensures GoalsFor(TickSpec(MOTORS, snap, readings).txns, DXL_ID_LARGER) == [MAX_POSITION]
  {
    TickBumpers(MOTORS, snap, readings);
  }

  /** One joystick sample and the replies the reads of that tick receive. */
  datatype Step = Step(snap: Snapshot, readings: Readings)

  /** The main loop over a finite prefix of samples: ticks run in order until one aborts. */
  function RunSpec(rig: Rig, steps: seq<Step>): (o: Outcome)
    ensures |o.txns| <= 6 * |steps|
  {
    if steps == [] then Idle
    else
      var last := steps[|steps| - 1];
      Then(RunSpec(rig, steps[..|steps| - 1]), TickSpec(rig, last.snap, last.readings))
  }

  lemma RunSpecStep(rig: Rig, steps: seq<Step>, i: nat)
    requires i < |steps|
    ensures RunSpec(rig, steps[..i + 1])
         == Then(RunSpec(rig, steps[..i]), TickSpec(rig, steps[i].snap, steps[i].readings))
  {
    assert steps[..i + 1][..i] == steps[..i];
  }

  /** Once a tick has aborted, later samples change nothing: the loop is over. */
  lemma {:induction false} RunAbortIsFinal(rig: Rig, steps: seq<Step>, i: nat)
    requires i <= |steps|
    requires RunSpec(rig, steps[..i]).status.Aborted?
    ensures RunSpec(rig, steps) == RunSpec(rig, steps[..i])
    decreases |steps|
  {
    if i < |steps| {
      var init := steps[..|steps| - 1];
      assert init[..i] == steps[..i];
      RunAbortIsFinal(rig, init, i);
    } else {
      assert steps[..i] == steps;
    }
  }

  /** A whole run writes only goal positions, each of them in range. */
  lemma {:induction false} RunWritesSafeGoals(rig: Rig, steps: seq<Step>)
    ensures WritesOnlyAt(RunSpec(rig, steps).txns, ADDR_GOAL_POSITION)
    ensures GoalWritesInRange(RunSpec(rig, steps).txns)
  {
    if steps != [] {
      var last := steps[|steps| - 1];
      var before := RunSpec(rig, steps[..|steps| - 1]);
      var tick := TickSpec(rig, last.snap, last.readings);
      RunWritesSafeGoals(rig, steps[..|steps| - 1]);
      TickWritesSafeGoals(rig, last.snap, last.readings);
      if before.status.Completed? {
        var t := before.txns + tick.txns;
        assert forall k | |before.txns| <= k < |t| :: t[k] == tick.txns[k - |before.txns|];
      }
    }
  }

  /** A run leaves torque, operating mode and profile registers exactly as startup set
      them, and keeps every mode write made while torque was off. */
  lemma RunKeepsConfiguration(init: map<Reg, Word32>, t: seq<Txn>, rig: Rig, steps: seq<Step>)
    ensures AgreeExceptAt(Replay(init, t), Replay(init, t + RunSpec(rig, steps).txns), ADDR_GOAL_POSITION)
    ensures ModeSetWithTorqueOff(init, t) ==> ModeSetWithTorqueOff(init, t + RunSpec(rig, steps).txns)
  {
    RunWritesSafeGoals(rig, steps);
    ReplayKeepsOtherRegisters(init, t, RunSpec(rig, steps).txns, ADDR_GOAL_POSITION);
    if ModeSetWithTorqueOff(init, t) {
      NoModeWritesKeepDiscipline(init, t, RunSpec(rig, steps).txns, ADDR_GOAL_POSITION);
    }
  }

  /** The torque-disable writes of the shutdown after an interrupt, in order: one for each
      of the left, right and larger motors. */
  function ShutdownWrites(rig: Rig): (w: seq<Txn>)
    ensures |w| == 3
    ensures forall k | 0 <= k < |w| :: w[k] == TorqueWrite(w[k].id, false)
    ensures w[0].id == rig.left && w[1].id == rig.right && w[2].id == rig.larger
  {
    [TorqueWrite(rig.left, false), TorqueWrite(rig.right, false), TorqueWrite(rig.larger, false)]
  }

  /** After the shutdown writes every one of the three motors has torque disabled. */
  lemma ShutdownReleasesTorque(init: map<Reg, Word32>, t: seq<Txn>, rig: Rig)
    ensures var m := Replay(init, t + ShutdownWrites(rig));
      TorqueOff(m, rig.left) && TorqueOff(m, rig.right) && TorqueOff(m, rig.larger)
  {
    var s := ShutdownWrites(rig);
    TorqueWriteReleases(init, t, rig.left);
    assert t + s[..2] == (t + [s[0]]) + [s[1]];
    TorqueWriteReleases(init, t + [s[0]], rig.right);
    assert t + s == (t + s[..2]) + [s[2]];
    TorqueWriteReleases(init, t + s[..2], rig.larger);
    ReplaySnoc(init, t + s[..2], s[2]);
    ReplaySnoc(init, t + [s[0]], s[1]);
  }

  predicate SameBus(left: DynamixelController, right: DynamixelController, larger: DynamixelController) {
    left.bus == right.bus && right.bus == larger.bus
  }

  /** Concatenation regroups: the trace after two calls is the start plus both parts. */
  lemma AppendAssoc<T>(a: seq<T>, b: seq<T>, c: seq<T>)
    ensures a + b + c == a + (b + c)
  {
  }

  /** `motor.set_goal_position(motor.get_present_position() + delta)`: the read, then the
      write, or the abort when the read gave `None`. */
  method NudgeMotor(motor: DynamixelController, reply: ReadReply, delta: int) returns (status: Status)
    requires motor.portOpen
    modifies motor.bus
    ensures motor.bus.trace == old(motor.bus.trace) + Nudge(motor.id, reply, delta).txns
    ensures status == Nudge(motor.id, reply, delta).status
  {
    var p := motor.GetPresentPosition(reply);
    if p.None? {
      return Aborted(motor.id);
    }
    motor.SetGoalPosition(p.value + delta);
    status := Completed;
  }

  /** The stick half of a tick (lines that move the left and right motors). */
  method CoupledStep(left: DynamixelController, right: DynamixelController, rig: Rig,
                     snap: Snapshot, readings: Readings)
    returns (status: Status)
    requires left.bus == right.bus
    requires left.portOpen && right.portOpen
    requires rig.left == left.id && rig.right == right.id
    modifies left.bus
    ensures left.bus.trace == old(left.bus.trace) + CoupledPart(rig, snap, readings).txns
    ensures status == CoupledPart(rig, snap, readings).status
  {
    var stickX := -snap.axis;
    if RealAbs(stickX) > DEAD_ZONE {
      var offset := Truncate(stickX * POSITION_INCREMENT as real);
      ghost var before := left.bus.trace;
      status := NudgeMotor(left, readings.left, offset);
      if status.Aborted? {
        return;
      }
      ghost var l := Nudge(left.id, readings.left, offset);
      status := NudgeMotor(right, readings.right, offset);
      AppendAssoc(before, l.txns, Nudge(right.id, readings.right, offset).txns);
    } else {
      status := Completed;
    }
  }

  /** The bumper half of a tick (the larger motor). */
  method BumperStep(larger: DynamixelController, rig: Rig, snap: Snapshot, readings: Readings)
    returns (status: Status)
    requires larger.portOpen
    requires rig.larger == larger.id
    modifies larger.bus
    ensures larger.bus.trace == old(larger.bus.trace) + BumperPart(rig, snap, readings).txns
    ensures status == BumperPart(rig, snap, readings).status
  {
    if snap.leftBumper {
      status := NudgeMotor(larger, readings.larger, -POSITION_INCREMENT);
    } else if snap.rightBumper {
      status := NudgeMotor(larger, readings.larger, POSITION_INCREMENT);
    } else {
      status := Completed;
    }
  }

  /** One tick of the main loop over the three controllers. */
  method Tick(left: DynamixelController, right: DynamixelController, larger: DynamixelController,
              snap: Snapshot, readings: Readings)
    returns (status: Status)
    requires SameBus(left, right, larger)
    requires left.portOpen && right.portOpen && larger.portOpen
    modifies left.bus
    ensures var spec := TickSpec(Rig(left.id, right.id, larger.id), snap, readings);
      left.bus.trace == old(left.bus.trace) + spec.txns && status == spec.status
  {
    var rig := Rig(left.id, right.id, larger.id);
    TickSpecParts(rig, snap, readings);
    ghost var before := left.bus.trace;
    status := CoupledStep(left, right, rig, snap, readings);
    if status.Aborted? {
      return;
    }
    status := BumperStep(larger, rig, snap, readings);
    AppendAssoc(before, CoupledPart(rig, snap, readings).txns, BumperPart(rig, snap, readings).txns);
  }

  /** The interrupt handler: tear down the left, right and larger controllers in turn. */
  method Shutdown(left: DynamixelController, right: DynamixelController, larger: DynamixelController)
    requires SameBus(left, right, larger)
    requires left != right && left != larger && right != larger
    requires left.portOpen && right.portOpen && larger.portOpen
    modifies left, right, larger, left.bus
    ensures !left.portOpen && !right.portOpen && !larger.portOpen
    ensures left.bus.trace == old(left.bus.trace) + ShutdownWrites(Rig(left.id, right.id, larger.id))
  {
    left.Teardown();
    right.Teardown();
    larger.Teardown();
  }

  /** The `while True` loop over the samples in `steps`: ticks run in order until one
      aborts or the samples run out. */
  method RunTicks(left: DynamixelController, right: DynamixelController, larger: DynamixelController,
                  steps: seq<Step>)
    returns (status: Status)
    requires SameBus(left, right, larger)
    requires left.portOpen && right.portOpen && larger.portOpen
    modifies left.bus
    ensures var spec := RunSpec(Rig(left.id, right.id, larger.id), steps);
      left.bus.trace == old(left.bus.trace) + spec.txns && status == spec.status
  {
    var bus := left.bus;
    var rig := Rig(left.id, right.id, larger.id);
    var i := 0;
    ghost var done := Idle;
    status := Completed;
    while i < |steps| && status.Completed?
      invariant 0 <= i <= |steps|
      invariant done == RunSpec(rig, steps[..i])
      invariant bus.trace == old(bus.trace) + done.txns
      invariant status == done.status
    {
      ghost var tick := TickSpec(rig, steps[i].snap, steps[i].readings);
      RunSpecStep(rig, steps, i);
      status := Tick(left, right, larger, steps[i].snap, steps[i].readings);
      AppendAssoc(old(bus.trace), done.txns, tick.txns);
      done := Then(done, tick);
      i := i + 1;
    }
    if status.Completed? {
      assert steps[..i] == steps;
    } else {
      RunAbortIsFinal(rig, steps, i);
    }
  }

  /** The program after startup: the loop, then, when the samples run out (the keyboard
      interrupt), the teardown of every motor.  A tick that aborts leaves the loop with an
      exception the interrupt handler does not catch, so its teardown does not run. */
  method Run(left: DynamixelController, right: DynamixelController, larger: DynamixelController,
             steps: seq<Step>)
    returns (status: Status)
    requires SameBus(left, right, larger)
    requires left != right && left != larger && right != larger
    requires left.portOpen && right.portOpen && larger.portOpen
    modifies left, right, larger, left.bus
    ensures var rig := Rig(left.id, right.id, larger.id);
      var spec := RunSpec(rig, steps);
      && status == spec.status
      && (status.Completed? ==>
            && left.bus.trace == old(left.bus.trace) + spec.txns + ShutdownWrites(rig)
            && !left.portOpen && !right.portOpen && !larger.portOpen
            && TorqueOff(left.bus.Registers(), rig.left)
            && TorqueOff(left.bus.Registers(), rig.right)
            && TorqueOff(left.bus.Registers(), rig.larger))
      && (status.Aborted? ==>
            && left.bus.trace == old(left.bus.trace) + spec.txns
            && left.portOpen && right.portOpen && larger.portOpen)
  {
    status := RunTicks(left, right, larger, steps);
    if status.Completed? {
      ghost var before := left.bus.trace;
      Shutdown(left, right, larger);
      ShutdownReleasesTorque(left.bus.init, before, Rig(left.id, right.id, larger.id));
    }
  }
}
