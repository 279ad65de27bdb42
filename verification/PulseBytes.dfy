/** The pulse-byte format and the step arithmetic shared by the stream engine
    and the kernel: one tick byte per machine tick, a power byte costs no tick,
    and every step counter runs modulo 2^32. */
module PulseBytes {

  const M32: int := 0x1_0000_0000

  /** An unsigned 32-bit counter. */
  type u32 = x: int | 0 <= x < 0x1_0000_0000

  /** An X, Y and Z triple: exact step totals, or three 32-bit counters. */
  datatype Vec = Vec(x: int, y: int, z: int)

  const ZERO: Vec := Vec(0, 0, 0)

  function Plus(a: Vec, b: Vec): Vec { Vec(a.x + b.x, a.y + b.y, a.z + b.z) }

  function Minus(a: Vec, b: Vec): Vec { Vec(a.x - b.x, a.y - b.y, a.z - b.z) }

  lemma PlusZero(v: Vec)
    ensures Plus(v, ZERO) == v == Plus(ZERO, v)
  {
  }

  function U32(x: int): u32 { x % M32 }

  /** Reduces every axis modulo 2^32, as the C counters do. */
  function Wrap(a: Vec): (r: Vec)
    ensures 0 <= r.x < M32 && 0 <= r.y < M32 && 0 <= r.z < M32
  {
    Vec(U32(a.x), U32(a.y), U32(a.z))
  }

  /** Two step totals that no 32-bit counter can tell apart. */
  predicate Cong(a: Vec, b: Vec) { Wrap(a) == Wrap(b) }

  /** The (int32_t) reading of a 32-bit counter. */
  function Signed(x: u32): (r: int)
    ensures -0x8000_0000 <= r < 0x8000_0000
  {
    if x < 0x8000_0000 then x else x - M32
  }

  predicate FitsInt32(x: int) { -0x8000_0000 <= x < 0x8000_0000 }

  lemma SignedExact(x: int)
    requires FitsInt32(x)
    ensures Signed(U32(x)) == x
  {
    if x < 0 { assert (x + M32) % M32 == x % M32; }
  }

  lemma U32Shift(x: int, k: int)
    ensures U32(x + k * M32) == U32(x)
  {
    assert (x + k * M32) % M32 == x % M32;
  }

  /** Congruence is what difference modulo 2^32 says. */
  lemma U32Equal(a: int, b: int)
    ensures U32(a) == U32(b) <==> (a - b) % M32 == 0
  {
    var qa, qb := a / M32, b / M32;
    assert a == qa * M32 + U32(a) && b == qb * M32 + U32(b);
    var d := U32(a) - U32(b);
    assert a - b == d + (qa - qb) * M32;
    assert (a - b) % M32 == d % M32;
  }

  lemma U32CongAdd(a: int, b: int, c: int, d: int)
    requires U32(a) == U32(b) && U32(c) == U32(d)
    ensures U32(a + c) == U32(b + d) && U32(a - c) == U32(b - d)
  {
    U32Equal(a, b);
    U32Equal(c, d);
    var p, q := (a - b) / M32, (c - d) / M32;
    assert a - b == p * M32 && c - d == q * M32;
    U32Shift(b + d, p + q);
    U32Shift(b - d, p - q);
    assert b + d + (p + q) * M32 == a + c;
    assert b - d + (p - q) * M32 == a - c;
  }

  /** A sum may be reduced before or after the addition. */
  lemma U32Add(a: int, b: int)
    ensures U32(U32(a) + b) == U32(a + b) == U32(a + U32(b))
  {
    U32CongAdd(U32(a), a, b, b);
    U32CongAdd(a, a, U32(b), b);
  }

  lemma CongAdd(a: Vec, b: Vec, c: Vec, d: Vec)
    requires Cong(a, b) && Cong(c, d)
    ensures Cong(Plus(a, c), Plus(b, d)) && Cong(Minus(a, c), Minus(b, d))
  {
    U32CongAdd(a.x, b.x, c.x, d.x);
    U32CongAdd(a.y, b.y, c.y, d.y);
    U32CongAdd(a.z, b.z, c.z, d.z);
  }

  lemma WrapIdem(a: Vec)
    ensures Cong(Wrap(a), a)
  {
  }

  // ---- the byte itself ----

  type Duty = x: nat | x < 128

  const FULL_DUTY: Duty := 127

  /** A stream byte as the kernel's script reads it: a duty that costs no tick,
      or one machine tick with at most one step an axis and the FIRE bit. */
  datatype Byte = Power(duty: Duty) | Tick(steps: Vec, fire: bool)

  const PAD: Byte := Tick(ZERO, false)

  predicate Lit(b: Byte) { b.Tick? && b.fire }

  predicate UnitSteps(v: Vec) {
    -1 <= v.x <= 1 && -1 <= v.y <= 1 && -1 <= v.z <= 1
  }

  /** A step event in the core's bit order (bit 0 X, bit 1 Y, bit 2 Z, a set
      direction bit is negative) as the wire's pulse byte: X_DIR set is -X,
      Y_DIR set is +Y, Z_DIR set is +Z. */
  function PulseByte(steps: bv8, dirs: bv8): bv8 {
    (if steps & 1 != 0 then 0x01 | (if dirs & 1 != 0 then 0x02 else 0) else 0 as bv8)
    | (if steps & 2 != 0 then 0x04 | (if dirs & 2 != 0 then 0 else 0x08) else 0 as bv8)
    | (if steps & 4 != 0 then 0x20 | (if dirs & 4 != 0 then 0 else 0x40) else 0 as bv8)
  }

  /** The steps the core counts for a step event. */
  function CoreSteps(steps: bv8, dirs: bv8): (v: Vec)
    ensures UnitSteps(v)
  {
    Vec(if steps & 1 != 0 then (if dirs & 1 != 0 then -1 else 1) else 0,
        if steps & 2 != 0 then (if dirs & 2 != 0 then -1 else 1) else 0,
        if steps & 4 != 0 then (if dirs & 4 != 0 then -1 else 1) else 0)
  }

  /** The steps one wire byte counts, in this process and in the kernel. */
  function WireSteps(w: bv8): (v: Vec)
    ensures UnitSteps(v)
  {
    Vec(if w & 0x01 != 0 then (if w & 0x02 != 0 then -1 else 1) else 0,
        if w & 0x04 != 0 then (if w & 0x08 != 0 then 1 else -1) else 0,
        if w & 0x20 != 0 then (if w & 0x40 != 0 then 1 else -1) else 0)
  }

  /** A wire byte as the kernel reads it: bit 7 marks a duty, bit 4 is FIRE. */
  function Read(w: bv8): Byte {
    if w & 0x80 != 0 then Power((w & 0x7f) as int) else Tick(WireSteps(w), w & 0x10 != 0)
  }

  /** The pulse byte reads back as exactly the steps the core counted, dark, and
      it is zero exactly when the event steps no axis. */
  lemma PulseByteMeaning(steps: bv8, dirs: bv8)
    ensures Read(PulseByte(steps, dirs)) == Tick(CoreSteps(steps, dirs), false)
    ensures PulseByte(steps, dirs) == 0 <==> CoreSteps(steps, dirs) == ZERO
  {
  }

  /** The wire's bits, axis by axis: the step bits, with X_DIR for -X, Y_DIR for +Y and
      Z_DIR for +Z. */
  lemma PulseByteBits(steps: bv8, dirs: bv8)
    ensures PulseByte(steps, dirs) == PulseByte(steps & 1, dirs) | PulseByte(steps & 2, dirs) | PulseByte(steps & 4, dirs)
    ensures PulseByte(1, 0) == 0x01 && PulseByte(1, 1) == 0x03
    ensures PulseByte(2, 0) == 0x0c && PulseByte(2, 2) == 0x04
    ensures PulseByte(4, 0) == 0x60 && PulseByte(4, 4) == 0x20 && PulseByte(0, dirs) == 0
    ensures CoreSteps(1, 0) == Vec(1, 0, 0) && CoreSteps(1, 1) == Vec(-1, 0, 0)
    ensures CoreSteps(2, 0) == Vec(0, 1, 0) && CoreSteps(2, 2) == Vec(0, -1, 0)
    ensures CoreSteps(4, 0) == Vec(0, 0, 1) && CoreSteps(4, 4) == Vec(0, 0, -1)
  {
  }

  /** Setting FIRE in a tick byte changes nothing but the light. */
  lemma FireBitMeaning(w: bv8)
    requires Read(w).Tick?
    ensures Read(w | 0x10) == Tick(Read(w).steps, true)
  {
  }

  /** A 7-bit duty behind the power mark reads back as that duty. */
  lemma PowerByteMeaning(d: bv8)
    requires d & 0x80 == 0
    ensures d & 0x7f == d && Read(0x80 | d) == Power((d & 0x7f) as int)
  {
    assert (0x80 | d) & 0x7f == d & 0x7f;
  }

  /** The steps the kernel counts for a stream byte: none for a power byte. */
  function ByteSteps(b: Byte): Vec {
    if b.Power? then ZERO else b.steps
  }

  function StepsOf(bytes: seq<Byte>): Vec {
    if bytes == [] then ZERO else Plus(ByteSteps(bytes[0]), StepsOf(bytes[1..]))
  }

  lemma {:induction false} StepsOfConcat(a: seq<Byte>, b: seq<Byte>)
    ensures StepsOf(a + b) == Plus(StepsOf(a), StepsOf(b))
  {
    if a == [] {
      assert a + b == b;
    } else {
      assert (a + b)[1..] == a[1..] + b;
      StepsOfConcat(a[1..], b);
    }
  }

  lemma StepsOfOne(b: Byte)
    ensures StepsOf([b]) == ByteSteps(b)
  {
    assert [b][1..] == [];
  }
}
