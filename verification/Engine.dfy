/** The stream engine as the program runs it (src/stepper_stream.c): one record
    changed in place, the ring and the chunk buffers of bytes, and the loops. Each
    method is proved against the function that models its region. */
module Engine {
  import opened PulseBytes
  import opened DitherModel
  import opened StreamRing
  import opened LaserQueue

  /** A tick byte without FIRE, as the ring holds them. */
  predicate Dark(b: bv8) { b & 0x90 == 0 }

  /** What the bytes of the ring count. */
  function Slots(bytes: seq<bv8>): (r: seq<Vec>)
    ensures |r| == |bytes|
  {
    seq(|bytes|, i requires 0 <= i < |bytes| => WireSteps(bytes[i]))
  }

  /** A buffer of wire bytes as the kernel reads it. */
  function Reads(bytes: seq<bv8>): (r: seq<Byte>)
    ensures |r| == |bytes|
  {
    seq(|bytes|, i requires 0 <= i < |bytes| => Read(bytes[i]))
  }

  lemma SlotsUpdate(bytes: seq<bv8>, i: nat, b: bv8)
    requires i < |bytes|
    ensures Slots(bytes[i := b]) == Slots(bytes)[i := WireSteps(b)]
  {
    hide WireSteps;
  }

  lemma ReadsAppend(bytes: seq<bv8>, b: bv8)
    ensures Reads(bytes + [b]) == Reads(bytes) + [Read(b)]
  {
    hide Read;
  }

  lemma DarkRead(b: bv8)
    requires Dark(b)
    ensures Read(b) == Tick(WireSteps(b), false)
    ensures Read(b | 0x10) == Tick(WireSteps(b), true)
  {
    assert b & 0x80 == 0 && b & 0x10 == 0;
    FireBitMeaning(b);
  }

  lemma PulseIsDark(steps: bv8, dirs: bv8)
    ensures Dark(PulseByte(steps, dirs))
    ensures WireSteps(PulseByte(steps, dirs)) == CoreSteps(steps, dirs)
    ensures PulseByte(steps, dirs) == 0 <==> CoreSteps(steps, dirs) == ZERO
  {
    PulseByteMeaning(steps, dirs);
  }

  /** A duty as its power byte: the seven bits behind the mark. */
  function PowerByte(duty: Duty): (b: bv8)
    ensures Read(b) == Power(duty)
  {
    var d := Narrow(duty);
    SevenBits(d);
    PowerByteMeaning(d);
    0x80 | d
  }

  /** The byte of that value. */
  function Narrow(n: Duty): (d: bv8)
    ensures d as int == n
  {
    if n == 0 then 0 else
      var d := Narrow(n - 1);
      NextByte(d);
      d + 1
  }

  lemma NextByte(d: bv8)
    requires d as int < 127
    ensures (d + 1) as int == d as int + 1
  {
  }

  lemma SevenBits(d: bv8)
    requires d as int < 128
    ensures d & 0x80 == 0
  {
  }

  /** Counters may be reduced at every addition or at the end. */
  lemma WrapPlus(a: Vec, b: Vec)
    ensures Wrap(Plus(Wrap(a), b)) == Wrap(Plus(a, b))
  {
    U32Add(a.x, b.x);
    U32Add(a.y, b.y);
    U32Add(a.z, b.z);
  }

  /** The ring, the laser queue and the chunk buffer, changed in place. */
  class Stream {
    const ring: array<bv8>
    const chunk: array<bv8>
    var produced: nat
    var shipped: nat
    var base: nat
    var vticks: nat
    var lev: seq<Ev>
    var curPower: Duty
    var curFire: bool
    var gateSeen: bool
    var lastLit: bool
    var powerSent: bool
    var dith: Dither
    var wantPower: Duty
    var wantFire: bool
    var jogging: bool
    var streaming: bool
    var failed: bool

    ghost function RingState(): Ring
      reads this, ring
    {
      Ring(Slots(ring[..]), produced, shipped, base, vticks)
    }

    ghost function LaserState(): Laser
      reads this
    {
      Laser(lev, curPower, curFire, gateSeen, lastLit, powerSent, dith, wantPower, wantFire, jogging)
    }

    /** Every slot holds a dark tick byte, and both buffers have their size. */
    ghost predicate Valid()
      reads this, ring
    {
      && ring.Length == RING_SIZE && chunk.Length == SHIP_CHUNK && ring != chunk
      && |lev| <= LEV_N
      && forall i :: 0 <= i < ring.Length ==> Dark(ring[i])
    }

    /** An empty ring behind no queue. */
    constructor ()
      ensures Valid() && fresh(ring) && fresh(chunk)
      ensures RingState() == Ring(seq(RING_SIZE, _ => ZERO), 0, 0, 0, 0) && lev == [] && !curFire && !lastLit && !powerSent
    {
      ring := new bv8[RING_SIZE](_ => 0);
      chunk := new bv8[SHIP_CHUNK](_ => 0);
      produced, shipped, base, vticks := 0, 0, 0, 0;
      lev, curPower, curFire, gateSeen, lastLit, powerSent := [], 0, false, false, false, false;
      dith := Dither(0, 0, 0, 0, 0);
      wantPower, wantFire, jogging := 0, false, false;
      streaming, failed := false, false;
      new;
      ZeroIsDark();
      assert Slots(ring[..]) == seq(RING_SIZE, _ => ZERO);
    }

    // ---- the ring ----

    /** One slot written. */
    method SetSlot(i: nat, b: bv8)
      requires Valid() && Dark(b)
      modifies ring
      ensures Valid() && Slots(ring[..]) == Slots(old(ring[..]))[i % RING_SIZE := WireSteps(b)]
    {
      ring[i % RING_SIZE] := b;
      SlotsUpdate(old(ring[..]), i % RING_SIZE, b);
      assert ring[..] == old(ring[..])[i % RING_SIZE := b];
    }

    /** A step event on the grid: its byte in the slot of its virtual time, or a fault of
        the stream. A failed stream, an event without a step and an ended stream take
        none. */
    method Pulse(armed: bool, stepBits: bv8, dirBits: bv8)
      requires Valid()
      modifies ring, this`produced, this`failed
      ensures Valid()
      ensures var r, v := old(RingState()), CoreSteps(stepBits, dirBits);
              var taken := !old(failed) && v != ZERO && streaming;
              var faults := taken && ((TickNow(r) < r.shipped && armed) || Overflows(r));
              && failed == (old(failed) || faults)
              && RingState() == (if taken && !faults then Store(r, v) else r)
      ensures var r := old(RingState());
              RingState() == r || produced == Largest(TickNow(r), r.shipped, r.produced) + 1
    {
      hide Slots, Dark, WireSteps, PulseByte, CoreSteps;
      if failed { return; }
      var b := PulseByte(stepBits, dirBits);
      PulseIsDark(stepBits, dirBits);
      if b == 0 { return; }
      if streaming {
        var idx := base + vticks / VTICKS_PER_BYTE;
        if idx < shipped {
          if armed {
            failed := true;
            return;
          }
          idx := shipped;
        }
        if idx < produced { idx := produced; }
        if idx - shipped >= RING_SIZE - 1 {
          failed := true;
        } else {
          SetSlot(idx, b);
          produced := idx + 1;
        }
      }
    }

    /** The unshipped backlog dropped, its slots zeroed and its steps added to the
        counters given. */
    method DropBacklog(counters: Vec) returns (dropped: Vec)
      requires Valid() && Wrap(counters) == counters
      modifies ring, this`produced
      ensures Valid()
      ensures RingState() == Drop(old(RingState())).0
      ensures dropped == Wrap(Plus(counters, Drop(old(RingState())).1))
    {
      hide Dark, WireSteps, Slots;
      dropped := counters;
      ghost var was := Slots(ring[..]);
      ghost var all := DropSlots(was, shipped, produced);
      var i := shipped;
      while i < produced
        invariant shipped <= i && (i <= produced || i == shipped) && Valid()
        invariant DropSlots(Slots(ring[..]), i, produced).0 == all.0
        invariant Wrap(Plus(dropped, DropSlots(Slots(ring[..]), i, produced).1)) == Wrap(Plus(counters, all.1))
        invariant Wrap(dropped) == dropped
      {
        ghost var slots := Slots(ring[..]);
        ghost var rest := DropSlots(slots[i % RING_SIZE := ZERO], i + 1, produced).1;
        var b := ring[i % RING_SIZE];
        assert slots[i % RING_SIZE] == WireSteps(b) by { SlotIs(ring[..], i % RING_SIZE); }
        DropJoin(dropped, WireSteps(b), rest);
        dropped := Wrap(Plus(dropped, WireSteps(b)));
        ZeroIsDark();
        SetSlot(i, 0);
        i := i + 1;
      }
      PlusZero(dropped);
      produced := shipped;
    }

    // ---- the laser queue ----

    /** A transition queued at a stream index. */
    method QueueEvent(idx: nat, power: Duty, fire: bool)
      requires Valid()
      modifies this`lev
      ensures Valid() && lev == Enqueue(old(lev), idx, power, fire)
    {
      hide Dark;
      var n := |lev|;
      if n > 0 && lev[n - 1].idx == idx {
        lev := lev[n - 1 := lev[n - 1].(power := power, fire := fire)];
      } else if n >= LEV_N {
        lev := lev[n - 1 := lev[n - 1].(power := power, fire := fire)];
      } else {
        lev := lev + [Ev(idx, power, fire)];
      }
    }

    /** The laser-off of a cycle that ends. */
    method QueueOff()
      requires Valid()
      modifies this`lev
      ensures Valid()
      ensures lev == EnqueueOff(old(LaserState()), if produced > shipped then produced else shipped)
    {
      hide Dark;
      if curFire || |lev| > 0 {
        var idx := if produced > shipped then produced else shipped;
        var n := |lev|;
        if n > 0 && (lev[n - 1].idx >= idx || n >= LEV_N) {
          lev := lev[n - 1 := lev[n - 1].(fire := false)];
        } else {
          lev := lev + [Ev(idx, if n > 0 then lev[n - 1].power else curPower, false)];
        }
      }
    }

    /** The pass's gate sample. */
    method SampleGate(gate: bool)
      requires Valid()
      modifies this`gateSeen, this`curFire, this`lev, this`dith
      ensures Valid() && LaserState() == GateEdge(old(LaserState()), gate)
    {
      hide Dark;
      if gate != gateSeen {
        gateSeen := gate;
        if !gate {
          curFire := false;
          var i := 0;
          while i < |lev|
            invariant 0 <= i <= |lev| == |old(lev)| && gateSeen == gate && !curFire && dith == old(dith)
            invariant forall j :: 0 <= j < i ==> lev[j] == old(lev)[j].(fire := false)
            invariant forall j :: i <= j < |lev| ==> lev[j] == old(lev)[j]
          {
            lev := lev[i := lev[i].(fire := false)];
            i := i + 1;
          }
          assert lev == Darkened(old(lev));
          dith := dith.(left := 0, on := 0, acc := 0);
        }
      }
    }

    // ---- the shipper ----

    /** One tick of the density model. */
    method DitherStep() returns (fires: bool)
      requires dith.period != 0
      modifies this`dith
      ensures (dith, fires) == DitherTick(old(dith), curPower)
    {
      if dith.left == 0 {
        var want := U32(curPower * dith.period + dith.acc);
        var on := want / PWM_PERIOD;
        if on < dith.min {
          dith := dith.(on := 0);
        } else {
          if on > dith.period { on := dith.period; }
          dith := dith.(on := on);
          want := U32(want - on * PWM_PERIOD);
        }
        dith := dith.(acc := want, left := dith.period);
      }
      dith := dith.(left := dith.left - 1);
      fires := dith.on != 0;
      if fires { dith := dith.(on := dith.on - 1); }
    }

    /** The transitions the cursor has reached, applied. */
    method ApplyDue() returns (power: Duty)
      requires Valid()
      modifies this`lev, this`curFire, this`dith
      ensures Valid()
      ensures LaserState() == Reached(old(LaserState()), shipped) && power == ReachedPower(old(LaserState()), shipped)
    {
      hide Dark;
      var due := false;
      power := curPower;
      ghost var all := Drain(lev, shipped, curFire, curPower, false);
      while |lev| > 0 && lev[0].idx <= shipped
        invariant |lev| <= LEV_N && dith == old(dith)
        invariant Drain(lev, shipped, curFire, power, due) == all
        decreases |lev|
      {
        power := lev[0].power;
        curFire := lev[0].fire;
        lev := lev[1..];
        due := true;
      }
      if due && !curFire { dith := dith.(left := 0, on := 0, acc := 0); }
    }

    /** A byte appended to the chunk. */
    method Put(n: nat, b: bv8)
      requires chunk.Length == SHIP_CHUNK && n < SHIP_CHUNK
      modifies chunk
      ensures chunk[..n + 1] == old(chunk[..n]) + [b]
      ensures Reads(chunk[..n + 1]) == Reads(old(chunk[..n])) + [Read(b)]
    {
      chunk[n] := b;
      assert chunk[..n + 1] == old(chunk[..n]) + [b];
      ReadsAppend(old(chunk[..n]), b);
    }

    ghost function Building(n: nat): Build
      reads this, ring, chunk
      requires n <= chunk.Length
    {
      Build(LaserState(), RingState(), Reads(chunk[..n]))
    }

    /** The power byte a tick needs ahead of it. */
    method LeadPower(power: Duty, n: nat) returns (m: nat)
      requires Valid() && n < SHIP_CHUNK - 1
      modifies chunk, this`curPower, this`powerSent
      ensures Valid() && n <= m < SHIP_CHUNK && curPower == power && powerSent
      ensures Reads(chunk[..m]) == Reads(old(chunk[..n])) + Lead(old(LaserState()), power)
    {
      hide Dark, Reads, Read;
      m := n;
      if dith.period != 0 {
        curPower := power;
        if !powerSent {
          powerSent := true;
          Put(m, PowerByte(FULL_DUTY));
          m := m + 1;
        }
      } else if power != curPower || !powerSent {
        curPower := power;
        powerSent := true;
        Put(m, PowerByte(curPower));
        m := m + 1;
      }
    }

    /** The slot at the cursor taken, and zeroed for the next lap. */
    method TakeSlot() returns (b: bv8)
      requires Valid()
      modifies ring, this`shipped
      ensures Valid() && Dark(b) && shipped == old(shipped) + 1
      ensures (RingState(), WireSteps(b)) == Ship(old(RingState()))
    {
      hide Dark, WireSteps, Slots;
      b := ring[shipped % RING_SIZE];
      SlotIs(ring[..], shipped % RING_SIZE);
      ZeroIsDark();
      SetSlot(shipped, 0);
      shipped := shipped + 1;
    }

    /** The core's fire request, masked by the gate and by the dose model. */
    method MaskFire(gate: bool) returns (lit: bool)
      requires Valid()
      modifies this`dith, this`lastLit
      ensures Valid() && lastLit == lit
      ensures var (l, on) := FireTick(old(LaserState()), gate); LaserState() == l.(lastLit := lit) && lit == on
    {
      hide Dark, DitherTick;
      lit := curFire && gate;
      if lit && dith.period != 0 { lit := DitherStep(); }
      lastLit := lit;
    }

    /** The tick byte of a slot in the chunk. */
    method PutTick(n: nat, slot: bv8, lit: bool)
      requires chunk.Length == SHIP_CHUNK && n < SHIP_CHUNK && Dark(slot)
      modifies chunk
      ensures Reads(chunk[..n + 1]) == Reads(old(chunk[..n])) + [Tick(WireSteps(slot), lit)]
    {
      hide Dark, WireSteps, Reads, Read;
      DarkRead(slot);
      Put(n, if lit then slot | 0x10 else slot);
    }

    /** The transitions a tick reaches, and its power byte. */
    method LeadTick(n: nat) returns (m: nat)
      requires Valid() && n < SHIP_CHUNK - 1
      modifies chunk, this`lev, this`curPower, this`curFire, this`powerSent, this`dith
      ensures Valid() && n <= m < SHIP_CHUNK
      ensures var a, power := Reached(old(LaserState()), shipped), ReachedPower(old(LaserState()), shipped);
              && LaserState() == a.(curPower := power, powerSent := true)
              && Reads(chunk[..m]) == Reads(old(chunk[..n])) + Lead(a, power)
    {
      hide Dark, Reads, Lead, Reached, ReachedPower;
      var power := ApplyDue();
      m := LeadPower(power, n);
    }

    /** The tick byte at the cursor, lit or dark. */
    method EmitTick(gate: bool, n: nat)
      requires Valid() && n < SHIP_CHUNK
      modifies ring, chunk, this`lastLit, this`dith, this`shipped
      ensures Valid() && shipped == old(shipped) + 1
      ensures RingState() == Ship(old(RingState())).0
      ensures var (l, lit) := FireTick(old(LaserState()), gate);
              && LaserState() == l.(lastLit := lit)
              && Reads(chunk[..n + 1]) == Reads(old(chunk[..n])) + [Tick(Ship(old(RingState())).1, lit)]
    {
      hide Dark, WireSteps, Slots, Reads, FireTick, Ship;
      var slot := TakeSlot();
      var lit := MaskFire(gate);
      PutTick(n, slot, lit);
    }

    /** One tick of the chunk. */
    method ShipTick(gate: bool, n: nat) returns (m: nat)
      requires Valid() && n < SHIP_CHUNK - 1
      modifies ring, chunk, this`lev, this`curPower, this`curFire, this`lastLit, this`powerSent, this`dith, this`shipped
      ensures Valid() && n < m <= SHIP_CHUNK && shipped == old(shipped) + 1
      ensures Building(m) == BuildTick(old(Building(n)), gate)
    {
      hide Dark, Slots, Reads, Lead, FireTick, Ship, Reached, ReachedPower, LaserTick, BuildTick;
      ghost var b := Building(n);
      m := LeadTick(n);
      EmitTick(gate, m);
      m := m + 1;
      TickParts(b, gate, Building(m), lastLit);
    }

    /** Ticks until the chunk is full, the due index reached or the stream out. */
    method BuildChunk(gate: bool, due: nat, streaming: bool) returns (n: nat)
      requires Valid()
      modifies ring, chunk, this`lev, this`curPower, this`curFire, this`lastLit, this`powerSent, this`dith, this`shipped
      ensures Valid() && n <= SHIP_CHUNK
      ensures Building(n) == LaserQueue.BuildChunk(Build(old(LaserState()), old(RingState()), []), gate, due, streaming)
    {
      hide Dark, Slots, Reads, BuildTick;
      n := 0;
      ghost var all := LaserQueue.BuildChunk(Building(0), gate, due, streaming);
      while n < SHIP_CHUNK - 1 && shipped < due && (streaming || shipped < produced)
        invariant Valid() && n <= SHIP_CHUNK
        invariant LaserQueue.BuildChunk(Building(n), gate, due, streaming) == all
        decreases due - shipped
      {
        n := ShipTick(gate, n);
      }
    }
  }

  /** One tick put together from its parts. */
  lemma TickParts(b: Build, gate: bool, c: Build, lit: bool)
    requires Sized(b.r) && c.r == Ship(b.r).0
    requires var power := ReachedPower(b.l, b.r.shipped);
             var a := Reached(b.l, b.r.shipped);
             var (l, on) := FireTick(a.(curPower := power, powerSent := true), gate);
             && c.l == l.(lastLit := lit) && lit == on
             && c.bytes == (b.bytes + Lead(a, power)) + [Tick(Ship(b.r).1, lit)]
    ensures c == BuildTick(b, gate)
  {
    hide Ship, FireTick, Lead, Reached, ReachedPower;
    var lead := Lead(Reached(b.l, b.r.shipped), ReachedPower(b.l, b.r.shipped));
    var tick := Tick(Ship(b.r).1, lit);
    assert (b.bytes + lead) + [tick] == b.bytes + (lead + [tick]);
  }

  lemma SlotIs(bytes: seq<bv8>, i: nat)
    requires i < |bytes|
    ensures Slots(bytes)[i] == WireSteps(bytes[i])
  {
    hide WireSteps;
  }

  lemma ZeroIsDark()
    ensures Dark(0) && WireSteps(0) == ZERO
  {
  }

  lemma DropJoin(dropped: Vec, v: Vec, rest: Vec)
    ensures Wrap(Plus(Wrap(Plus(dropped, v)), rest)) == Wrap(Plus(dropped, Plus(v, rest)))
    ensures Wrap(Wrap(Plus(dropped, v))) == Wrap(Plus(dropped, v))
  {
    WrapPlus(Plus(dropped, v), rest);
    WrapIdem(Plus(dropped, v));
  }
}
