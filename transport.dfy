/** The register transport the controller drives through the DYNAMIXEL SDK, seen from
    above: a table of register words keyed by (motor id, address) on the shared bus, and
    the ordered trace of every transaction issued on it.  Packet framing, checksums and the
    serial port itself belong to the SDK and are not modelled. */
module Transport {
  import opened Positions

  /** A register on the bus: (motor id, control-table address). */
  type Reg = (int, int)

  /** One issued transaction: a write of `size` bytes carrying the raw word `value`, or a
      read of `size` bytes. */
  datatype Txn =
    | Write(id: int, addr: int, size: nat, value: Word32)
    | Read(id: int, addr: int, size: nat)

  /** What the SDK hands back for a read: the raw word, the communication result and the
      device's error byte.  It is decided by the device and the wire, so it is an input. */
  datatype ReadReply = ReadReply(raw: Word32, comm: int, error: int)

  /** The register table after `trace` has been applied, write by write, to `init`. */
  function Replay(init: map<Reg, Word32>, trace: seq<Txn>): map<Reg, Word32>
  {
    if trace == [] then init
    else
      Apply(Replay(init, trace[..|trace| - 1]), trace[|trace| - 1])
  }

  /** The effect of one transaction on a register table. */
  function Apply(regs: map<Reg, Word32>, txn: Txn): map<Reg, Word32> {
    if txn.Write? then regs[(txn.id, txn.addr) := txn.value] else regs
  }

  lemma ReplaySnoc(init: map<Reg, Word32>, t: seq<Txn>, txn: Txn)
    ensures Replay(init, t + [txn]) == Apply(Replay(init, t), txn)
  {
    assert (t + [txn])[..|t|] == t;
  }

  /** Two register tables that agree on every register except those at address `addr`. */
  ghost predicate AgreeExceptAt(a: map<Reg, Word32>, b: map<Reg, Word32>, addr: int) {
    && (forall r: Reg :: r.1 != addr ==> (r in a <==> r in b))
    && (forall r: Reg :: r.1 != addr && r in a ==> a[r] == b[r])
  }

  /** Every write in `u` goes to address `addr`. */
  predicate WritesOnlyAt(u: seq<Txn>, addr: int) {
    forall k :: 0 <= k < |u| && u[k].Write? ==> u[k].addr == addr
  }

  /** Appending transactions that write only at `addr` leaves every other register as it was. */
  lemma {:induction false} ReplayKeepsOtherRegisters(init: map<Reg, Word32>, t: seq<Txn>, u: seq<Txn>, addr: int)
    requires WritesOnlyAt(u, addr)
    ensures AgreeExceptAt(Replay(init, t), Replay(init, t + u), addr)
  {
    if u != [] {
      var u' := u[..|u| - 1];
      assert (t + u)[..|t + u| - 1] == t + u';
      assert WritesOnlyAt(u', addr) by {
        forall k | 0 <= k < |u'| && u'[k].Write? ensures u'[k].addr == addr {
          assert u'[k] == u[k];
        }
      }
      ReplayKeepsOtherRegisters(init, t, u', addr);
      var last := u[|u| - 1];
      assert (t + u)[|t + u| - 1] == last;
      assert last.Write? ==> last.addr == addr;
    } else {
      assert t + u == t;
    }
  }

  /** The shared bus: the ordered trace of the transactions issued on it, from which the
      register table follows. */
  class Bus {
    const init: map<Reg, Word32>
    var trace: seq<Txn>

    constructor (init: map<Reg, Word32>)
      ensures this.init == init && trace == []
      ensures Registers() == init
    {
      this.init := init;
      trace := [];
    }

    /** The register table: the initial contents with every issued write applied in order. */
    function Registers(): map<Reg, Word32>
      reads this
    {
      Replay(init, trace)
    }

    /** write1ByteTxRx: one byte into register (id, addr). */
    method Write1Byte(id: int, addr: int, data: int)
      requires 0 <= data < 0x100
      modifies this
      ensures trace == old(trace) + [Write(id, addr, 1, data)]
    {
      trace := trace + [Write(id, addr, 1, data)];
    }

    /** write4ByteTxRx: the low 32 bits of `data` into register (id, addr). */
    method Write4Byte(id: int, addr: int, data: int)
      modifies this
      ensures trace == old(trace) + [Write(id, addr, 4, Encode32(data))]
    {
      trace := trace + [Write(id, addr, 4, Encode32(data))];
    }

    /** read4ByteTxRx: issues the read and hands back the device's reply. */
    method Read4Byte(id: int, addr: int, reply: ReadReply) returns (r: ReadReply)
      modifies this
      ensures r == reply
      ensures trace == old(trace) + [Read(id, addr, 4)]
    {
      trace := trace + [Read(id, addr, 4)];
      r := reply;
    }
  }
}
