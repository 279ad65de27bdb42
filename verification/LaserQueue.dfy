/** The laser half of the stream (src/stepper_stream.c): transitions queued on the
    tick grid, applied by the shipper as it emits, masked by the fire gate and by
    the dose model. */
module LaserQueue {
  import opened PulseBytes
  import opened DitherModel
  import opened StreamRing

  const LEV_N := 4096
  const SHIP_CHUNK := 256

  /** A queued transition: power and fire in force from stream index idx on. */
  datatype Ev = Ev(idx: nat, power: Duty, fire: bool)

  datatype Laser = Laser(
    lev: seq<Ev>, curPower: Duty, curFire: bool, gateSeen: bool, lastLit: bool,
    powerSent: bool, dith: Dither, wantPower: Duty, wantFire: bool, jogging: bool)

  // ---- queueing ----

  /** One transition per tick, the last one wins; a full queue merges into its
      newest slot so the final state stays exact. */
  function Enqueue(lev: seq<Ev>, idx: nat, power: Duty, fire: bool): (r: seq<Ev>)
    requires |lev| <= LEV_N
    ensures |r| <= LEV_N
  {
    var n := |lev|;
    if n > 0 && (lev[n - 1].idx == idx || n >= LEV_N)
    then lev[n - 1 := Ev(lev[n - 1].idx, power, fire)]
    else lev + [Ev(idx, power, fire)]
  }

  /** The laser-off a cycle's end records: a new transition, or the newest one
      turned dark. */
  function EnqueueOff(l: Laser, idx: nat): (r: seq<Ev>)
    requires |l.lev| <= LEV_N
    ensures |r| <= LEV_N
  {
    var n := |l.lev|;
    if !l.curFire && n == 0 then l.lev
    else if n > 0 && (l.lev[n - 1].idx >= idx || n >= LEV_N)
    then l.lev[n - 1 := l.lev[n - 1].(fire := false)]
    else l.lev + [Ev(idx, if n > 0 then l.lev[n - 1].power else l.curPower, false)]
  }

  function Darkened(lev: seq<Ev>): (r: seq<Ev>)
    ensures |r| == |lev|
    ensures forall i :: 0 <= i < |r| ==> r[i] == lev[i].(fire := false)
  {
    if lev == [] then [] else [lev[0].(fire := false)] + Darkened(lev[1..])
  }

  /** The pass's gate sample: a falling edge clears fire in flight and queued. */
  function GateEdge(l: Laser, gate: bool): (r: Laser)
    ensures |r.lev| == |l.lev|
  {
    if gate == l.gateSeen then l
    else if gate then l.(gateSeen := true)
    else l.(gateSeen := false, curFire := false, lev := Darkened(l.lev), dith := Restart(l.dith))
  }

  // ---- emitting ----

  /** What applying the due transitions leaves: the queue and fire state, the power
      of the last one, and whether there was one. */
  datatype Drained = Drained(lev: seq<Ev>, fire: bool, power: Duty, due: bool)

  function Drain(lev: seq<Ev>, shipped: nat, fire: bool, power: Duty, due: bool): (r: Drained)
    ensures |r.lev| <= |lev|
    decreases |lev|
  {
    if lev != [] && lev[0].idx <= shipped
    then Drain(lev[1..], shipped, lev[0].fire, lev[0].power, true)
    else Drained(lev, fire, power, due)
  }

  /** The transitions this tick reaches, applied. */
  function Reached(l: Laser, shipped: nat): Laser {
    var d := Drain(l.lev, shipped, l.curFire, l.curPower, false);
    l.(lev := d.lev, curFire := d.fire, dith := if d.due && !d.fire then Restart(l.dith) else l.dith)
  }

  function ReachedPower(l: Laser, shipped: nat): Duty {
    Drain(l.lev, shipped, l.curFire, l.curPower, false).power
  }

  /** The power byte this tick needs ahead of it, if any: at every run start; then
      at every duty change in the analog model, and never again in the density
      model, whose duty is pinned at full. */
  function Lead(l: Laser, power: Duty): seq<Byte> {
    if l.dith.period != 0 then (if l.powerSent then [] else [Power(FULL_DUTY)])
    else if power != l.curPower || !l.powerSent then [Power(power)] else []
  }

  /** The core's fire request, masked twice, never sourced: by the gate, and tick
      by tick by the dose model. */
  function FireTick(l: Laser, gate: bool): (Laser, bool) {
    if !(l.curFire && gate) then (l, false)
    else if l.dith.period == 0 then (l, true)
    else var (d, on) := DitherTick(l.dith, l.curPower); (l.(dith := d), on)
  }

  /** The laser state and the bytes of one shipped tick with steps v. */
  function LaserTick(l: Laser, shipped: nat, gate: bool, v: Vec): (Laser, seq<Byte>) {
    var power := ReachedPower(l, shipped);
    var a := Reached(l, shipped);
    var lead := Lead(a, power);
    var (b, lit) := FireTick(a.(curPower := power, powerSent := true), gate);
    (b.(lastLit := lit), lead + [Tick(v, lit)])
  }

  /** The chunk under construction: laser state, ring, and the bytes so far. */
  datatype Build = Build(l: Laser, r: Ring, bytes: seq<Byte>)

  function BuildTick(b: Build, gate: bool): (c: Build)
    requires Sized(b.r)
    ensures Sized(c.r) && |c.l.lev| <= |b.l.lev|
  {
    var (r, v) := Ship(b.r);
    var (l, bytes) := LaserTick(b.l, b.r.shipped, gate, v);
    Build(l, r, b.bytes + bytes)
  }

  predicate More(b: Build, due: nat, streaming: bool) {
    |b.bytes| < SHIP_CHUNK - 1 && b.r.shipped < due && (streaming || b.r.shipped < b.r.produced)
  }

  /** Ticks built until the chunk is full, the due index reached or the stream out. */
  function BuildChunk(b: Build, gate: bool, due: nat, streaming: bool): (c: Build)
    requires Sized(b.r)
    ensures Sized(c.r) && |c.l.lev| <= |b.l.lev|
    decreases due - b.r.shipped
  {
    if More(b, due, streaming) then BuildChunk(BuildTick(b, gate), gate, due, streaming) else b
  }

  // ---- what a chunk is ----

  /** Every power byte is directly followed by a tick byte. */
  predicate Paired(bytes: seq<Byte>) {
    if bytes == [] then true
    else if bytes[0].Tick? then Paired(bytes[1..])
    else |bytes| >= 2 && bytes[1].Tick? && Paired(bytes[2..])
  }

  function Ticks(bytes: seq<Byte>): nat {
    if bytes == [] then 0 else (if bytes[0].Tick? then 1 else 0) + Ticks(bytes[1..])
  }

  function Powers(bytes: seq<Byte>): seq<Byte> {
    if bytes == [] then [] else (if bytes[0].Power? then [bytes[0]] else []) + Powers(bytes[1..])
  }

  lemma {:induction false} PairedConcat(a: seq<Byte>, b: seq<Byte>)
    requires Paired(a) && Paired(b)
    ensures Paired(a + b)
  {
    if a == [] {
      assert a + b == b;
    } else if a[0].Tick? {
      assert (a + b)[1..] == a[1..] + b;
      PairedConcat(a[1..], b);
    } else {
      assert (a + b)[2..] == a[2..] + b;
      PairedConcat(a[2..], b);
    }
  }

  lemma {:induction false} TicksConcat(a: seq<Byte>, b: seq<Byte>)
    ensures Ticks(a + b) == Ticks(a) + Ticks(b)
    ensures Powers(a + b) == Powers(a) + Powers(b)
  {
    if a == [] {
      assert a + b == b;
    } else {
      assert (a + b)[1..] == a[1..] + b;
      TicksConcat(a[1..], b);
    }
  }

  /** One tick is one tick byte behind at most one power byte. */
  lemma LaserTickShape(l: Laser, shipped: nat, gate: bool, v: Vec)
    ensures var (m, bytes) := LaserTick(l, shipped, gate, v);
            && 1 <= |bytes| <= 2 && Paired(bytes) && Ticks(bytes) == 1
            && bytes[|bytes| - 1] == Tick(v, m.lastLit)
            && StepsOf(bytes) == v
            && m.powerSent && (!l.powerSent ==> |bytes| == 2)
            && (m.lastLit ==> gate && m.curFire)
            && Powers(bytes) == Lead(Reached(l, shipped), ReachedPower(l, shipped))
            && m.dith.period == l.dith.period
  {
    var m := LaserTick(l, shipped, gate, v).0;
    LeadThenTick(Lead(Reached(l, shipped), ReachedPower(l, shipped)), Tick(v, m.lastLit));
  }

  lemma {:induction false} LeadThenTick(lead: seq<Byte>, t: Byte)
    requires |lead| <= 1 && (lead == [] || lead[0].Power?) && t.Tick?
    ensures Paired(lead + [t]) && Ticks(lead + [t]) == 1 && Powers(lead + [t]) == lead
    ensures StepsOf(lead + [t]) == t.steps
  {
    var one := [t];
    assert one[0] == t && one[1..] == [];
    assert Ticks(one) == 1 + Ticks(one[1..]) && Powers(one) == [] + Powers(one[1..]);
    StepsOfOne(t);
    if lead == [] {
      assert lead + [t] == [t];
    } else {
      var bytes := lead + [t];
      assert bytes[1..] == [t] && bytes[2..] == [] && lead == [bytes[0]];
      PlusZero(t.steps);
    }
  }

  lemma {:induction false} ChunkUnfolds(b: Build, gate: bool, due: nat, streaming: bool)
    requires Sized(b.r)
    ensures BuildChunk(b, gate, due, streaming) ==
            (if More(b, due, streaming) then BuildChunk(BuildTick(b, gate), gate, due, streaming) else b)
  {
  }

  // ---- what the queue plays out to ----

  ghost predicate AllReached(lev: seq<Ev>, shipped: nat) {
    forall i :: 0 <= i < |lev| ==> lev[i].idx <= shipped
  }

  /** Drained to its end, a queue leaves the state of its last transition. */
  lemma {:induction false} DrainedOut(lev: seq<Ev>, shipped: nat, fire: bool, power: Duty, due: bool)
    requires AllReached(lev, shipped)
    ensures Drain(lev, shipped, fire, power, due) ==
            (if lev == [] then Drained([], fire, power, due)
             else Drained([], lev[|lev| - 1].fire, lev[|lev| - 1].power, true))
    decreases |lev|
  {
    if lev != [] {
      assert lev[0].idx <= shipped;
      DrainedOut(lev[1..], shipped, lev[0].fire, lev[0].power, true);
    }
  }

  /** The newest transition of r is one more at idx, or it took the place of the newest,
      at its index, where that was idx too or the queue was full. */
  predicate Newest(lev: seq<Ev>, r: seq<Ev>, idx: nat) {
    && r != [] && (|r| == |lev| || |r| == |lev| + 1)
    && (|r| == |lev| ==> r[|r| - 1].idx == lev[|lev| - 1].idx && (lev[|lev| - 1].idx >= idx || |lev| >= LEV_N))
    && (|r| == |lev| + 1 ==> r[|r| - 1].idx == idx)
  }

  /** The last request wins: whatever was merged on the way, once the queue has
      played out, the power and fire in force are those of the newest request; every
      transition before the newest is kept as it was. */
  lemma LastRequestWins(lev: seq<Ev>, idx: nat, power: Duty, fire: bool,
                        shipped: nat, fire0: bool, power0: Duty)
    requires |lev| <= LEV_N && AllReached(lev, shipped) && idx <= shipped
    ensures Drain(Enqueue(lev, idx, power, fire), shipped, fire0, power0, false) == Drained([], fire, power, true)
    ensures var r := Enqueue(lev, idx, power, fire); r[..|r| - 1] == lev[..|r| - 1]
    ensures Newest(lev, Enqueue(lev, idx, power, fire), idx)
  {
    DrainedOut(Enqueue(lev, idx, power, fire), shipped, fire0, power0, false);
  }

  /** The laser-off is queued where anything is lit or queued, and only the newest
      transition makes place for it. */
  lemma LaserOffQueued(l: Laser, idx: nat)
    requires |l.lev| <= LEV_N
    ensures var r := EnqueueOff(l, idx);
            if l.lev == [] && !l.curFire then r == []
            else Newest(l.lev, r, idx) && r[..|r| - 1] == l.lev[..|r| - 1]
  {
  }

  /** A cycle's end plays out dark, at the power the cycle ended with. */
  lemma CycleEndsDark(l: Laser, idx: nat, shipped: nat)
    requires |l.lev| <= LEV_N && AllReached(l.lev, shipped) && idx <= shipped
    ensures var d := Drain(EnqueueOff(l, idx), shipped, l.curFire, l.curPower, false);
            !d.fire && d.power == (if l.lev == [] then l.curPower else l.lev[|l.lev| - 1].power)
  {
    DrainedOut(EnqueueOff(l, idx), shipped, l.curFire, l.curPower, false);
  }

  // ---- the duty on the wire ----

  /** The duty in force behind these bytes. */
  function DutyAfter(duty: Duty, bytes: seq<Byte>): Duty
    decreases |bytes|
  {
    if bytes == [] then duty
    else DutyAfter(if bytes[0].Power? then bytes[0].duty else duty, bytes[1..])
  }

  lemma {:induction false} DutyConcat(duty: Duty, a: seq<Byte>, b: seq<Byte>)
    ensures DutyAfter(duty, a + b) == DutyAfter(DutyAfter(duty, a), b)
    decreases |a|
  {
    if a == [] {
      assert a + b == b;
    } else {
      assert (a + b)[1..] == a[1..] + b;
      DutyConcat(if a[0].Power? then a[0].duty else duty, a[1..], b);
    }
  }

  lemma {:induction false} LeadDuty(duty: Duty, lead: seq<Byte>, t: Byte)
    requires |lead| <= 1 && (lead == [] || lead[0].Power?) && t.Tick?
    ensures DutyAfter(duty, lead + [t]) == if lead == [] then duty else lead[0].duty
  {
    var one := [t];
    assert one[0] == t && one[1..] == [];
    assert forall d :: DutyAfter(d, one) == DutyAfter(d, one[1..]);
    if lead == [] {
      assert lead + [t] == one;
    } else {
      assert (lead + [t])[1..] == one;
    }
  }

  /** The duty the kernel plays a tick with is the power of the last transition that
      tick reached: the analog model says every change, and the density model pins
      the duty at full. duty is the one in force before, which a run's first power
      byte sets. */
  lemma TickDuty(l: Laser, shipped: nat, gate: bool, v: Vec, duty: Duty)
    requires l.powerSent ==> duty == if l.dith.period == 0 then l.curPower else FULL_DUTY
    ensures var (m, bytes) := LaserTick(l, shipped, gate, v);
            && m.curPower == ReachedPower(l, shipped) && m.powerSent && m.dith.period == l.dith.period
            && DutyAfter(duty, bytes) == if l.dith.period == 0 then m.curPower else FULL_DUTY
  {
    var a, power := Reached(l, shipped), ReachedPower(l, shipped);
    LeadDuty(duty, Lead(a, power), Tick(v, LaserTick(l, shipped, gate, v).0.lastLit));
    hide DutyAfter, Drain, DitherTick;
  }

  /** The same behind every chunk. */
  lemma {:induction false} ChunkDuty(b: Build, gate: bool, due: nat, streaming: bool, duty: Duty)
    requires Sized(b.r)
    requires b.l.powerSent ==> DutyAfter(duty, b.bytes) == if b.l.dith.period == 0 then b.l.curPower else FULL_DUTY
    ensures var c := BuildChunk(b, gate, due, streaming);
            && c.l.dith.period == b.l.dith.period
            && (c.l.powerSent ==> DutyAfter(duty, c.bytes) == if c.l.dith.period == 0 then c.l.curPower else FULL_DUTY)
    decreases due - b.r.shipped
  {
    hide LaserTick, Ship, DutyAfter;
    ChunkUnfolds(b, gate, due, streaming);
    if More(b, due, streaming) {
      hide BuildChunk;
      var v := Ship(b.r).1;
      var bytes := LaserTick(b.l, b.r.shipped, gate, v).1;
      TickDuty(b.l, b.r.shipped, gate, v, DutyAfter(duty, b.bytes));
      DutyConcat(duty, b.bytes, bytes);
      CursorMoves(b.r);
      ChunkDuty(BuildTick(b, gate), gate, due, streaming, duty);
    }
  }

  lemma CursorMoves(r: Ring)
    requires Sized(r)
    ensures var (q, v) := Ship(r);
            Sized(q) && q.shipped == r.shipped + 1 && q.produced == r.produced
  {
  }
}
