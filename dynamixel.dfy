/** The per-motor register client `DynamixelController`: startup configuration, the torque,
    mode and profile setters, the clamped goal write, the sign-normalised present-position
    read and the teardown.  Each method is one atomic transaction on the shared bus (the
    per-instance lock of the original only serialises concurrent callers). */
module Dynamixel {
  import opened Wrappers
  import opened ControlTable
  import opened Positions
  import opened Transport

  /** The transactions each controller operation issues. */
  function TorqueWrite(id: int, on: bool): Txn {
    Write(id, ADDR_TORQUE_ENABLE, 1, if on then TORQUE_ENABLE else TORQUE_DISABLE)
  }

  function ModeWrite(id: int, mode: int): Txn
    requires 0 <= mode < 0x100
  {
    Write(id, ADDR_OPERATING_MODE, 1, mode)
  }

  function VelocityWrite(id: int, velocity: int): Txn {
    Write(id, ADDR_PROFILE_VELOCITY, 4, Encode32(velocity))
  }

  function AccelerationWrite(id: int, acceleration: int): Txn {
    Write(id, ADDR_PROFILE_ACCELERATION, 4, Encode32(acceleration))
  }

  /** set_goal_position's write: the request clamped, as a 4-byte value, to the motor's goal
      register; read back as a signed position it is the clamped request, so it lies in range. */
  function GoalWrite(id: int, goal: int): (w: Txn)
    ensures w.Write? && w.id == id && w.addr == ADDR_GOAL_POSITION
    ensures Decode32(w.value) == Clamp(goal)
  {
    GoalRoundTrip(goal);
    Write(id, ADDR_GOAL_POSITION, 4, Encode32(Clamp(goal)))
  }

  function PositionRead(id: int): Txn {
    Read(id, ADDR_PRESENT_POSITION, 4)
  }

  /** The configuration sequence run by the constructor, in order: five writes to the motor's
      own registers, torque disabled first and enabled last, with no torque write between. */
  function StartupWrites(id: int): (w: seq<Txn>)
    ensures |w| == 5
    ensures forall k | 0 <= k < |w| :: w[k].Write? && w[k].id == id
    ensures w[0].addr == ADDR_TORQUE_ENABLE && w[0].value == TORQUE_DISABLE
    ensures w[4].addr == ADDR_TORQUE_ENABLE && w[4].value == TORQUE_ENABLE
    ensures forall k | 0 < k < 4 :: w[k].addr != ADDR_TORQUE_ENABLE
  {
    [ TorqueWrite(id, false),
      ModeWrite(id, EXTENDED_POSITION_CONTROL_MODE),
      VelocityWrite(id, V_TARGET),
      AccelerationWrite(id, A_TARGET),
      TorqueWrite(id, true) ]
  }

  /** After a goal write the motor's goal register reads back as the clamped request, and
      no other register has changed. */
  lemma GoalRegisterHoldsClamp(init: map<Reg, Word32>, t: seq<Txn>, id: int, goal: int)
    ensures var m := Replay(init, t + [GoalWrite(id, goal)]);
      && (id, ADDR_GOAL_POSITION) in m
      && Decode32(m[(id, ADDR_GOAL_POSITION)]) == Clamp(goal)
      && AgreeExceptAt(Replay(init, t), m, ADDR_GOAL_POSITION)
  {
    ReplaySnoc(init, t, GoalWrite(id, goal));
    GoalRoundTrip(goal);
  }

  /** get_present_position on a reply: `None` unless the transaction succeeded with no
      device error; otherwise the signed position whose 32-bit encoding is the raw word. */
  function PresentPosition(reply: ReadReply): (r: Option<int>)
    ensures r.Some? <==> reply.comm == COMM_SUCCESS && reply.error == 0
    ensures r.Some? ==> IsSigned32(r.value) && Encode32(r.value) == reply.raw
  {
    if reply.comm == COMM_SUCCESS && reply.error == 0 then
      EncodeDecode(reply.raw);
      Some(Decode32(reply.raw))
    else
      None
  }

  /** A successful read is the raw word itself when it is at most 0x7FFFFFFF and the raw
      word minus 2^32 above that. */
  lemma PresentPositionSign(reply: ReadReply)
    requires reply.comm == COMM_SUCCESS && reply.error == 0
    ensures reply.raw <= 0x7FFF_FFFF ==> PresentPosition(reply) == Some(reply.raw)
    ensures reply.raw > 0x7FFF_FFFF ==> PresentPosition(reply) == Some(reply.raw - TWO_32)
  {
  }

  predicate TorqueOff(regs: map<Reg, Word32>, id: int) {
    (id, ADDR_TORQUE_ENABLE) in regs && regs[(id, ADDR_TORQUE_ENABLE)] == TORQUE_DISABLE
  }

  /** Every operating-mode write in `t` reaches a motor whose torque register holds 0. */
  ghost predicate ModeSetWithTorqueOff(init: map<Reg, Word32>, t: seq<Txn>) {
    forall k :: 0 <= k < |t| && t[k].Write? && t[k].addr == ADDR_OPERATING_MODE ==>
      TorqueOff(Replay(init, t[..k]), t[k].id)
  }

  /** The startup sequence writes the operating mode only while torque is disabled. */
  lemma StartupSetsModeWithTorqueOff(init: map<Reg, Word32>, t: seq<Txn>, id: int)
    requires ModeSetWithTorqueOff(init, t)
    ensures ModeSetWithTorqueOff(init, t + StartupWrites(id))
  {
    var s := StartupWrites(id);
    var u := t + s;
    forall k | 0 <= k < |u| && u[k].Write? && u[k].addr == ADDR_OPERATING_MODE
      ensures TorqueOff(Replay(init, u[..k]), u[k].id)
    {
      if k < |t| {
        assert u[..k] == t[..k];
        assert u[k] == t[k];
      } else {
        assert k == |t| + 1 by {
          assert u[k] == s[k - |t|];
        }
        assert u[..k][..k - 1] == t;
        assert u[..k][k - 1] == TorqueWrite(id, false);
      }
    }
  }

  /** Transactions that write nothing at the operating-mode address keep the discipline. */
  lemma NoModeWritesKeepDiscipline(init: map<Reg, Word32>, t: seq<Txn>, u: seq<Txn>, addr: int)
    requires addr != ADDR_OPERATING_MODE
    requires WritesOnlyAt(u, addr)
    requires ModeSetWithTorqueOff(init, t)
    ensures ModeSetWithTorqueOff(init, t + u)
  {
    var v := t + u;
    assert forall k | |t| <= k < |v| :: v[k] == u[k - |t|];
    forall k | 0 <= k < |t| && v[k].Write? && v[k].addr == ADDR_OPERATING_MODE
      ensures TorqueOff(Replay(init, v[..k]), v[k].id)
    {
      assert v[..k] == t[..k];
      assert v[k] == t[k];
    }
  }

  /** After startup the motor's torque is on, its mode is extended position control, its
      profile holds the targets, and no other motor's registers have changed. */
  lemma StartupConfiguresRegisters(init: map<Reg, Word32>, t: seq<Txn>, id: int)
    ensures var m := Replay(init, t + StartupWrites(id));
      && (id, ADDR_TORQUE_ENABLE) in m && m[(id, ADDR_TORQUE_ENABLE)] == TORQUE_ENABLE
      && (id, ADDR_OPERATING_MODE) in m && m[(id, ADDR_OPERATING_MODE)] == EXTENDED_POSITION_CONTROL_MODE
      && (id, ADDR_PROFILE_VELOCITY) in m && m[(id, ADDR_PROFILE_VELOCITY)] == V_TARGET
      && (id, ADDR_PROFILE_ACCELERATION) in m && m[(id, ADDR_PROFILE_ACCELERATION)] == A_TARGET
    ensures var before := Replay(init, t);
      var m := Replay(init, t + StartupWrites(id));
      forall r :: r in before && r.0 != id ==> r in m && m[r] == before[r]
  {
    var s := StartupWrites(id);
    var m0 := Replay(init, t);
    ReplaySnoc(init, t, s[0]);
    var m1 := Replay(init, t + s[..1]);
    assert t + s[..2] == (t + s[..1]) + [s[1]];
    ReplaySnoc(init, t + s[..1], s[1]);
    var m2 := Replay(init, t + s[..2]);
    assert t + s[..3] == (t + s[..2]) + [s[2]];
    ReplaySnoc(init, t + s[..2], s[2]);
    var m3 := Replay(init, t + s[..3]);
    assert t + s[..4] == (t + s[..3]) + [s[3]];
    ReplaySnoc(init, t + s[..3], s[3]);
    var m4 := Replay(init, t + s[..4]);
    assert t + s == (t + s[..4]) + [s[4]];
    ReplaySnoc(init, t + s[..4], s[4]);
    assert s[..1] == [s[0]];
  }

  /** A torque-disable write leaves that motor's torque register at 0. */
  lemma TorqueWriteReleases(init: map<Reg, Word32>, t: seq<Txn>, id: int)
    ensures TorqueOff(Replay(init, t + [TorqueWrite(id, false)]), id)
  {
    ReplaySnoc(init, t, TorqueWrite(id, false));
  }

  datatype SetupError = PortOpenFailed | BaudRateFailed

  class DynamixelController {
    const id: int
    const bus: Bus
    var portOpen: bool

    /** The motor settings of the constructor, once the port is open: disable torque, set
        extended position control, set the profile velocity and acceleration, enable torque. */
    constructor (bus: Bus, id: int)
      modifies bus
      ensures this.bus == bus && this.id == id && portOpen
      ensures bus.trace == old(bus.trace) + StartupWrites(id)
    {
      this.id := id;
      this.bus := bus;
      portOpen := true;
      new;
      DisableTorque();
      SetOperatingMode(EXTENDED_POSITION_CONTROL_MODE);
      SetProfileVelocity(V_TARGET);
      SetProfileAcceleration(A_TARGET);
      EnableTorque();
    }

    method EnableTorque()
      requires portOpen
      modifies bus
      ensures bus.trace == old(bus.trace) + [TorqueWrite(id, true)]
    {
      bus.Write1Byte(id, ADDR_TORQUE_ENABLE, TORQUE_ENABLE);
    }

    method DisableTorque()
      requires portOpen
      modifies bus
      ensures bus.trace == old(bus.trace) + [TorqueWrite(id, false)]
    {
      bus.Write1Byte(id, ADDR_TORQUE_ENABLE, TORQUE_DISABLE);
    }

    method SetOperatingMode(mode: int)
      requires portOpen
      requires 0 <= mode < 0x100
      modifies bus
      ensures bus.trace == old(bus.trace) + [ModeWrite(id, mode)]
    {
      bus.Write1Byte(id, ADDR_OPERATING_MODE, mode);
    }

    method SetProfileVelocity(velocity: int)
      requires portOpen
      modifies bus
      ensures bus.trace == old(bus.trace) + [VelocityWrite(id, velocity)]
    {
      bus.Write4Byte(id, ADDR_PROFILE_VELOCITY, velocity);
    }

    method SetProfileAcceleration(acceleration: int)
      requires portOpen
      modifies bus
      ensures bus.trace == old(bus.trace) + [AccelerationWrite(id, acceleration)]
    {
      bus.Write4Byte(id, ADDR_PROFILE_ACCELERATION, acceleration);
    }

    /** Clamps the request and writes it to the goal-position register. */
    method SetGoalPosition(goal: int)
      requires portOpen
      modifies bus
      ensures bus.trace == old(bus.trace) + [GoalWrite(id, goal)]
    {
      var clamped := Clamp(goal);
      bus.Write4Byte(id, ADDR_GOAL_POSITION, clamped);
    }

    method GetPresentPosition(reply: ReadReply) returns (position: Option<int>)
      requires portOpen
      modifies bus
      ensures bus.trace == old(bus.trace) + [PositionRead(id)]
      ensures position == PresentPosition(reply)
    {
      var answer := bus.Read4Byte(id, ADDR_PRESENT_POSITION, reply);
      if answer.comm == COMM_SUCCESS && answer.error == 0 {
        var p: int := answer.raw;
        if p > 0x7FFF_FFFF {
          p := p - TWO_32;
        }
        position := Some(p);
      } else {
        position := None;
      }
    }

    /** __del__: disable torque, then close the port if it is open. */
    method Teardown()
      requires portOpen
      modifies this, bus
      ensures !portOpen
      ensures bus.trace == old(bus.trace) + [TorqueWrite(id, false)]
      ensures TorqueOff(bus.Registers(), id)
    {
      DisableTorque();
      TorqueWriteReleases(bus.init, old(bus.trace), id);
      // The closed-port case of this guard is excluded by the precondition.
      if portOpen {
        portOpen := false;
      }
    }
  }

  /** The whole constructor: a port that fails to open or to take the baud rate raises
      before any register is written; otherwise the controller runs its startup sequence. */
  method Connect(bus: Bus, id: int, portOpens: bool, baudAccepted: bool)
    returns (r: Result<DynamixelController, SetupError>)
    modifies bus
    ensures r.Success? <==> portOpens && baudAccepted
    ensures !portOpens ==> r == Failure(PortOpenFailed)
    ensures portOpens && !baudAccepted ==> r == Failure(BaudRateFailed)
    ensures r.Failure? ==> bus.trace == old(bus.trace)
    ensures r.Success? ==>
      && fresh(r.value) && r.value.bus == bus && r.value.id == id && r.value.portOpen
      && bus.trace == old(bus.trace) + StartupWrites(id)
  {
    if !portOpens {
      return Failure(PortOpenFailed);
    }
    if !baudAccepted {
      return Failure(BaudRateFailed);
    }
    var c := new DynamixelController(bus, id);
    r := Success(c);
  }
}
