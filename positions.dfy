/** Pure arithmetic on positions: the safety clamp applied before every goal write and the
    32-bit two's-complement conversion between signed positions and raw register words. */
module Positions {
  import opened ControlTable

  const TWO_32: int := 0x1_0000_0000
  const TWO_31: int := 0x8000_0000

  /** An unsigned 32-bit register word as the SDK transfers it. */
  type Word32 = x: int | 0 <= x < 0x1_0000_0000

  predicate InRange(x: int) {
    MIN_POSITION <= x <= MAX_POSITION
  }

  predicate IsSigned32(x: int) {
    -TWO_31 <= x < TWO_31
  }

  function Min(a: int, b: int): int { if a <= b then a else b }
  function Max(a: int, b: int): int { if a <= b then b else a }

  /** The goal clamp: requests are saturated into [MIN_POSITION, MAX_POSITION], never rejected. */
  function Clamp(goal: int): (r: int)
    ensures InRange(r)
    ensures InRange(goal) ==> r == goal
    ensures goal > MAX_POSITION ==> r == MAX_POSITION
    ensures goal < MIN_POSITION ==> r == MIN_POSITION
  {
    Max(Min(goal, MAX_POSITION), MIN_POSITION)
  }

  function Abs(x: int): int { if x < 0 then -x else x }

  /** The clamped value is the in-range position nearest to the request. */
  lemma ClampIsNearest(goal: int, y: int)
    requires InRange(y)
    ensures Abs(Clamp(goal) - goal) <= Abs(y - goal)
  {
  }

  /** Clamping is monotone and idempotent. */
  lemma ClampMonotone(a: int, b: int)
    requires a <= b
    ensures Clamp(a) <= Clamp(b)
    ensures Clamp(Clamp(a)) == Clamp(a)
  {
  }

  /** How the SDK lays a (possibly negative) value into four register bytes: the low 32 bits. */
  function Encode32(x: int): (w: Word32)
    ensures 0 <= x < TWO_32 ==> w == x
  {
    x % TWO_32
  }

  /** How the present-position word is read back: a raw value above 0x7FFFFFFF has 2^32
      subtracted from it. */
  function Decode32(raw: Word32): (x: int)
    ensures IsSigned32(x)
    ensures x % TWO_32 == raw
    ensures raw < TWO_31 <==> x >= 0
  {
    if raw > 0x7FFF_FFFF then raw - TWO_32 else raw
  }

  /** Decoding inverts the encoding of every signed 32-bit value. */
  lemma DecodeEncode(x: int)
    requires IsSigned32(x)
    ensures Decode32(Encode32(x)) == x
  {
    if x < 0 {
      assert Encode32(x) == x + TWO_32;
    }
  }

  /** Encoding inverts decoding for every raw word, so the two are a bijection. */
  lemma EncodeDecode(raw: Word32)
    ensures Encode32(Decode32(raw)) == raw
  {
  }

  /** Every legal goal position survives the round trip through the register. */
  lemma GoalRoundTrip(goal: int)
    ensures Decode32(Encode32(Clamp(goal))) == Clamp(goal)
  {
    DecodeEncode(Clamp(goal));
  }
}
