/** The dose on the wire: between two restarts of the dither, the lit bytes built are
    the ones the density model fires over the ticks with fire in force under an open
    gate, and their account balances at every tick. */
module StreamDose {
  import opened PulseBytes
  import opened DitherModel
  import opened StreamRing
  import opened LaserQueue
  import opened StreamEngine
  import opened StreamSystem
  import F = StreamFire

  /** The history: the dither at its last restart, the power in force at every tick
      since with fire in force and the gate open, every byte built, and how many of
      them were built before that restart. */
  datatype Meter = Meter(from: Dither, powers: seq<Duty>, built: seq<Byte>, mark: nat)

  // ---- the observer ----

  function Again(m: Meter, d: Dither): Meter { Meter(Restart(d), [], m.built, |m.built|) }

  /** One tick and its bytes. A transition reached that leaves fire off restarts the
      dither. */
  function MeterTick(m: Meter, l: Laser, shipped: nat, gate: bool, bytes: seq<Byte>): Meter {
    var d := Drain(l.lev, shipped, l.curFire, l.curPower, false);
    var n := if d.due && !d.fire then Again(m, l.dith) else m;
    n.(powers := if d.fire && gate then n.powers + [d.power] else n.powers, built := n.built + bytes)
  }

  function MeterBuild(m: Meter, b: Build, gate: bool, due: nat, streaming: bool): Meter
    requires Sized(b.r)
    decreases due - b.r.shipped
  {
    if !More(b, due, streaming) then m
    else
      var bytes := LaserTick(b.l, b.r.shipped, gate, Ship(b.r).1).1;
      MeterBuild(MeterTick(m, b.l, b.r.shipped, gate, bytes), BuildTick(b, gate), gate, due, streaming)
  }

  function MeterTurn(m: Meter, s: Sys, gate: bool, due: nat): Meter
    requires SysSane(s)
  {
    if ShipMore(s.g, due) then MeterBuild(m, Build(s.g.laser, s.g.ring, []), gate, due, s.g.streaming) else m
  }

  /** A pass: the falling gate and the end of a stream restart the dither. */
  function MeterPass(m: Meter, s: Sys, due: nat): Meter
    requires SysSane(s)
  {
    var n := if s.g.laser.gateSeen && !s.gate then Again(m, s.g.laser.dith) else m;
    if s.g.failed then m
    else if !s.g.streaming && Backlog(s.g.ring) == 0 then
      (if s.g.kernelRunning then Again(n, s.g.laser.dith) else n)
    else if PreloadWait(s.g) then n
    else MeterTurn(n, Sampled(s), s.gate, due)
  }

  function MeterWrite(m: Meter, s: Sys): Meter
    requires SysSane(s) && s.pc.Writing?
  {
    var u := s.(g := ChunkTaken(s.g, s.pc.chunk), k := Take(s.k, s.pc.chunk));
    if u.g.failed || u.g.clearPending then m else MeterTurn(m, u, s.pc.gate, s.pc.due)
  }

  function Observe(m: Meter, s: Sys, a: Step): Meter
    requires SysSane(s) && Enabled(s, a)
  {
    match a
    case ByCore(SetModel(d)) => Again(m, d)
    case ByCore(DoReset) => if s.g.streaming || s.g.killed || s.g.failed then Again(m, s.g.laser.dith) else m
    case ByShipper(Finish) => Again(m, s.g.laser.dith)
    case ByShipper(Begin(due, _)) => MeterPass(m, s, due)
    case ByShipper(WriteOk) => MeterWrite(m, s)
    case _ => m
  }

  // ---- the invariant ----

  /** The dither behind those ticks, and how many of them it fired: every one in the
      analog model. */
  function Behind(m: Meter): Dither {
    if m.from.period == 0 then m.from else After(m.from, m.powers)
  }

  function Fires(m: Meter): nat {
    if m.from.period == 0 then |m.powers| else DitherModel.Count(Fired(m.from, m.powers))
  }

  /** The lit bytes since the restart. */
  function LitSince(m: Meter): nat
    requires m.mark <= |m.built|
  {
    F.LitCount(m.built[m.mark..])
  }

  predicate Metered(m: Meter, l: Laser) {
    Restarted(m.from) && m.mark <= |m.built| && l.dith == Behind(m) && LitSince(m) == Fires(m)
  }

  lemma MeteredValid(m: Meter, l: Laser)
    requires Metered(m, l)
    ensures Valid(l.dith) && l.dith.period == m.from.period
    ensures m.from.period != 0 ==>
              PWM_PERIOD * (LitSince(m) + l.dith.on) + l.dith.acc == Asked(m.powers, m.from.period)
  {
    if m.from.period != 0 { DoseAnytime(m.from, m.powers); }
  }

  /** A restart: nothing fired since. */
  lemma AgainMetered(m: Meter, l: Laser, k: Laser)
    requires Metered(m, l) && k.dith == Restart(l.dith)
    ensures Metered(Again(m, l.dith), k)
  {
    MeteredValid(m, l);
    RestartValid(l.dith);
    FreshMetered(m, k);
    assert Restart(l.dith) == Restart(k.dith);
  }

  lemma FreshMetered(m: Meter, k: Laser)
    requires Restarted(k.dith)
    ensures Metered(Again(m, k.dith), k)
  {
    var n := Again(m, k.dith);
    assert n.built[n.mark..] == [] && n.from == k.dith;
  }

  // ---- one tick ----

  lemma {:induction false} LitAppends(m: Meter, bytes: seq<Byte>)
    requires m.mark <= |m.built|
    ensures LitSince(m.(built := m.built + bytes)) == LitSince(m) + F.LitCount(bytes)
  {
    assert (m.built + bytes)[m.mark..] == m.built[m.mark..] + bytes;
    F.LitCountConcat(m.built[m.mark..], bytes);
  }

  /** A tick of the dither on a power, or of the analog model. */
  lemma OneMore(m: Meter, power: Duty)
    requires Restarted(m.from)
    ensures var n := m.(powers := m.powers + [power]);
            if m.from.period == 0 then Behind(n) == Behind(m) && Fires(n) == Fires(m) + 1
            else
              && Behind(n) == DitherTick(Behind(m), power).0
              && Fires(n) == Fires(m) + (if DitherTick(Behind(m), power).1 then 1 else 0)
  {
    if m.from.period != 0 {
      RunConcat(m.from, m.powers, [power]);
      CountConcat(Fired(m.from, m.powers), Fired(After(m.from, m.powers), [power]));
      OneTick(After(m.from, m.powers), power, [power]);
    }
  }

  lemma OneTick(d: Dither, power: Duty, one: seq<Duty>)
    requires d.period != 0 && one == [power]
    ensures After(d, one) == DitherTick(d, power).0
    ensures DitherModel.Count(Fired(d, one)) == (if DitherTick(d, power).1 then 1 else 0)
  {
    assert one[1..] == [];
    var fired := Fired(d, one);
    assert fired[1..] == [];
  }

  /** The transitions a tick reaches. */
  lemma ReachedMetered(m: Meter, l: Laser, shipped: nat)
    requires Metered(m, l)
    ensures var d := Drain(l.lev, shipped, l.curFire, l.curPower, false);
            var a := Reached(l, shipped);
            && Metered(if d.due && !d.fire then Again(m, l.dith) else m, a)
            && a.curFire == d.fire
  {
    AgainMetered(m, l, l.(dith := Restart(l.dith)));
    hide Drain, Again, Restart;
  }

  /** The tick itself, with its fire and its bytes. */
  lemma FireMetered(m: Meter, l: Laser, gate: bool, bytes: seq<Byte>)
    requires Metered(m, l)
    requires var lit := FireTick(l, gate).1; F.LitCount(bytes) == if lit then 1 else 0
    ensures var n := m.(powers := if l.curFire && gate then m.powers + [l.curPower] else m.powers,
                        built := m.built + bytes);
            Metered(n, FireTick(l, gate).0)
  {
    LitAppends(m, bytes);
    OneMore(m, l.curPower);
    MeteredValid(m, l);
    hide DitherTick, Valid, DitherModel.Count, Fired, After;
  }

  lemma TickMetered(m: Meter, l: Laser, shipped: nat, gate: bool, v: Vec)
    requires Metered(m, l)
    ensures var (k, bytes) := LaserTick(l, shipped, gate, v); Metered(MeterTick(m, l, shipped, gate, bytes), k)
  {
    var d, a := Drain(l.lev, shipped, l.curFire, l.curPower, false), Reached(l, shipped);
    var n := if d.due && !d.fire then Again(m, l.dith) else m;
    ReachedMetered(m, l, shipped);
    F.TickTakes(l, shipped, gate, v);
    var b := a.(curPower := d.power, powerSent := true);
    hide F.LitCount, Behind, Fires, LitSince, FireTick, Reached, Drain, Again, Lead, Restarted;
    FireMetered(n, b, gate, LaserTick(l, shipped, gate, v).1);
  }

  // ---- a chunk ----

  lemma {:induction false} BuildMetered(m: Meter, b: Build, gate: bool, due: nat, streaming: bool)
    requires Sized(b.r) && Metered(m, b.l)
    ensures var c, n := BuildChunk(b, gate, due, streaming), MeterBuild(m, b, gate, due, streaming);
            && Metered(n, c.l) && |b.bytes| <= |c.bytes| && c.bytes[..|b.bytes|] == b.bytes
            && n.built == m.built + c.bytes[|b.bytes|..]
    decreases due - b.r.shipped
  {
    hide LaserTick, Ship, Metered, MeterTick;
    ChunkUnfolds(b, gate, due, streaming);
    if More(b, due, streaming) {
      var v := Ship(b.r).1;
      var bytes, c := LaserTick(b.l, b.r.shipped, gate, v).1, BuildTick(b, gate);
      TickMetered(m, b.l, b.r.shipped, gate, v);
      CursorMoves(b.r);
      TickBuilt(m, b.l, b.r.shipped, gate, bytes);
      var n := MeterTick(m, b.l, b.r.shipped, gate, bytes);
      BuildMetered(n, c, gate, due, streaming);
      hide BuildChunk, MeterBuild;
      var all := BuildChunk(c, gate, due, streaming).bytes;
      BuiltSplit(m.built, b.bytes, bytes, all);
    } else {
      assert m.built + b.bytes[|b.bytes|..] == m.built;
    }
  }

  lemma TickBuilt(m: Meter, l: Laser, shipped: nat, gate: bool, bytes: seq<Byte>)
    ensures MeterTick(m, l, shipped, gate, bytes).built == m.built + bytes
  {
  }

  lemma BuiltSplit(built: seq<Byte>, before: seq<Byte>, bytes: seq<Byte>, all: seq<Byte>)
    requires |before + bytes| <= |all| && all[..|before + bytes|] == before + bytes
    ensures (built + bytes) + all[|before + bytes|..] == built + all[|before|..] && all[..|before|] == before
  {
    assert all[|before|..] == bytes + all[|before + bytes|..];
    assert all[..|before|] == (before + bytes)[..|before|];
  }

  // ---- every step ----

  /** What a step of the shipper built: its chunk, or nothing. */
  function ChunkOf(pc: Pc): seq<Byte> { if pc.Writing? then pc.chunk else [] }

  lemma TurnMetered(m: Meter, s: Sys, gate: bool, due: nat, startRun: bool)
    requires SysSane(s) && Metered(m, s.g.laser)
    ensures var t, n := ShipTurn(s, gate, due, startRun), MeterTurn(m, s, gate, due);
            Metered(n, t.g.laser) && n.built == m.built + ChunkOf(t.pc)
  {
    hide Metered, BuildChunk, MeterBuild;
    if ShipMore(s.g, due) {
      var b := Build(s.g.laser, s.g.ring, []);
      BuildMetered(m, b, gate, due, s.g.streaming);
      var c := BuildChunk(b, gate, due, s.g.streaming);
      assert c.bytes[|b.bytes|..] == c.bytes;
    } else {
      assert m.built + [] == m.built;
    }
  }

  lemma SampleMetered(m: Meter, s: Sys)
    requires SysSane(s) && Metered(m, s.g.laser)
    ensures var u := Sampled(s);
            && Metered(if s.g.laser.gateSeen && !s.gate then Again(m, s.g.laser.dith) else m, u.g.laser)
            && u == s.(g := s.g.(laser := u.g.laser))
            && Restart(u.g.laser.dith) == Restart(s.g.laser.dith)
  {
    var l := s.g.laser;
    AgainMetered(m, l, GateEdge(l, s.gate).(dith := Restart(l.dith)));
    SameDither(m, l, GateEdge(l, s.gate).(dith := l.dith));
    hide Metered, Again, Darkened;
  }

  lemma SameDither(m: Meter, l: Laser, k: Laser)
    requires Metered(m, l) && k.dith == l.dith
    ensures Metered(m, k)
  {
  }

  lemma EndDither(g: Gf, landed: bool)
    ensures var d, e := g.laser.dith, EndStream(g, landed).laser.dith;
            e == if g.kernelRunning then Restart(d) else d
  {
    hide U32;
  }

  lemma EndQuiet(s: Sys, landed: bool)
    requires SysSane(s)
    ensures !FinishStream(s, landed).pc.Writing?
  {
    hide EndStream, PadWritten;
  }

  lemma EndMetered(m: Meter, s: Sys, landed: bool)
    requires SysSane(s) && Metered(m, s.g.laser)
    ensures Metered(if s.g.kernelRunning then Again(m, s.g.laser.dith) else m, FinishStream(s, landed).g.laser)
  {
    var l, k := s.g.laser, FinishStream(s, landed).g.laser;
    EndDither(s.g, landed);
    hide EndStream, Metered, Restart;
    if s.g.kernelRunning { AgainMetered(m, l, k); } else { SameDither(m, l, k); }
  }

  lemma FaultDither(s: Sys, landed: bool)
    requires SysSane(s)
    ensures PadFault(s, landed).g.laser.dith == s.g.laser.dith && !PadFault(s, landed).pc.Writing?
  {
    hide U32, PadWritten;
  }

  lemma Rebased(m: Meter, d: Dither, e: Dither)
    requires Restart(d) == Restart(e)
    ensures Again(m, d) == Again(m, e) && Again(m, d).built == m.built
  {
  }

  lemma PassMetered(m: Meter, s: Sys, due: nat, landed: bool)
    requires SysSane(s) && s.pc == Ready && Metered(m, s.g.laser)
    ensures var t, n := DoBegin(s, due, landed), MeterPass(m, s, due);
            Metered(n, t.g.laser) && n.built == m.built + ChunkOf(t.pc)
  {
    if s.g.failed {
      hide Metered, PadFault;
      FaultDither(s, landed);
      SameDither(m, s.g.laser, DoBegin(s, due, landed).g.laser);
      assert m.built + [] == m.built;
    } else {
      LiveMetered(m, s, due, landed);
    }
  }

  lemma LiveMetered(m: Meter, s: Sys, due: nat, landed: bool)
    requires SysSane(s) && s.pc == Ready && Metered(m, s.g.laser) && !s.g.failed
    ensures var t, n := DoBegin(s, due, landed), MeterPass(m, s, due);
            Metered(n, t.g.laser) && n.built == m.built + ChunkOf(t.pc)
  {
    hide Metered, Sampled, ShipTurn, MeterTurn, FinishStream, PadFault, Again, Restart, PadOnly, Backlog, PreloadWait;
    var u, t := Sampled(s), DoBegin(s, due, landed);
    var n := if s.g.laser.gateSeen && !s.gate then Again(m, s.g.laser.dith) else m;
    SampleMetered(m, s);
    Rebased(m, s.g.laser.dith, s.g.laser.dith);
    Rebased(n, u.g.laser.dith, s.g.laser.dith);
    assert m.built + [] == m.built && n.built == m.built;
    if !s.g.streaming && Backlog(s.g.ring) == 0 {
      EndMetered(n, u, landed);
    } else if PreloadWait(s.g) {
      SameDither(n, u.g.laser, t.g.laser);
    } else {
      TurnMetered(n, u, s.gate, due, false);
    }
  }

  lemma WriteMetered(m: Meter, s: Sys)
    requires SysSane(s) && s.pc.Writing? && Metered(m, s.g.laser)
    ensures var t, n := DoWriteOk(s), MeterWrite(m, s);
            Metered(n, t.g.laser) && n.built == m.built + ChunkOf(t.pc)
  {
    var u := s.(g := ChunkTaken(s.g, s.pc.chunk), k := Take(s.k, s.pc.chunk));
    assert m.built + [] == m.built && u.g.laser == s.g.laser;
    hide Metered, ShipTurn, MeterTurn, ChunkTaken, Take;
    if !(u.g.failed || u.g.clearPending) {
      TurnMetered(m, u, s.pc.gate, s.pc.due, s.pc.startRun || s.pc.first);
    }
  }

  /** The shipper's other steps. */
  lemma FinishDither(s: Sys)
    requires SysSane(s) && s.pc.Cleared?
    ensures DoFinish(s).g.laser.dith == Restart(s.g.laser.dith) && DoFinish(s).pc == Ready
  {
    hide OwedResidue, Restart;
  }

  lemma SnapDither(s: Sys, landed: bool)
    requires SysSane(s)
    ensures DoSnap(s, landed).g.laser.dith == s.g.laser.dith && !DoSnap(s, landed).pc.Writing?
  {
    hide PadOnly, U32, PadWritten;
  }

  lemma ShipMetered(m: Meter, s: Sys, h: ShipStep)
    requires SysSane(s) && ShipEnabled(s, h) && Metered(m, s.g.laser)
    ensures var t, n := ShipNext(s, h), Observe(m, s, ByShipper(h));
            Metered(n, t.g.laser) && n.built == m.built + ChunkOf(t.pc)
  {
    hide Metered, MeterPass, MeterWrite, DoBegin, DoWriteOk, DoFinish, DoSnap, Restart;
    assert m.built + [] == m.built;
    var t := ShipNext(s, h);
    match h {
      case Begin(due, landed) => PassMetered(m, s, due, landed);
      case WriteOk => WriteMetered(m, s);
      case Finish => FinishDither(s); AgainMetered(m, s.g.laser, t.g.laser);
      case Snap(landed) => SnapDither(s, landed); SameDither(m, s.g.laser, t.g.laser);
      case _ => F.PlainShip(s, h);
    }
  }

  lemma EventDither(g: Gf, armed: bool, power: Duty, fire: bool, jog: bool)
    requires Sane(g)
    ensures LaserRequest(g, armed, power, fire).laser.dith == g.laser.dith
    ensures Jog(g, armed, jog).laser.dith == g.laser.dith
  {
    hide Enqueue, TickNow;
  }

  lemma ResetDither(g: Gf)
    requires Sane(g)
    ensures Reset(g).laser.dith == if g.streaming || g.killed || g.failed then Restart(g.laser.dith) else g.laser.dith
  {
    hide Drop, Wrap;
  }

  lemma WakeDither(g: Gf, armed: bool, dueNow: nat)
    requires Sane(g)
    ensures Wakeup(g, armed, dueNow).laser.dith == g.laser.dith
  {
    hide Continue, Fresh, Reassert;
    ReassertDither(g.laser.(curFire := false), Continue(g.ring, dueNow).base, armed);
    ReassertDither(g.laser, Continue(g.ring, dueNow).base, armed);
    ReassertDither(g.laser.(lev := [], curFire := false), g.depth, armed);
  }

  lemma ReassertDither(l: Laser, base: nat, armed: bool)
    requires |l.lev| <= LEV_N
    ensures Reassert(l, base, armed).dith == l.dith
  {
  }

  lemma SleepDither(g: Gf, reset: bool, v: Vec)
    requires Sane(g)
    ensures GoIdle(g, reset, v).laser.dith == g.laser.dith
  {
    hide EnqueueOff;
  }

  lemma CoreDither(s: Sys, c: CoreStep)
    requires SysSane(s) && CoreEnabled(s, c)
    ensures var l, k := s.g.laser.dith, CoreNext(s, c).g.laser.dith;
            match c
            case SetModel(d) => k == d && Restarted(d)
            case DoReset => k == if s.g.streaming || s.g.killed || s.g.failed then Restart(l) else l
            case _ => k == l
  {
    hide Pulse, LaserRequest, Jog, Wakeup, GoIdle, Reset, NoStepsLeft, Signed, U32, Restarted, Restart;
    match c {
      case Count(_) =>
      case Output =>
      case Advance(_) =>
      case Request(power, fire) => EventDither(s.g, s.armed, power, fire, false);
      case SetJog(jog) => EventDither(s.g, s.armed, 0, false, jog);
      case SetModel(_) =>
      case SetArmed(_) =>
      case SetGate(_) =>
      case Wake(dueNow) => WakeDither(s.g, s.armed, dueNow);
      case Sleep(reset) => SleepDither(s.g, reset, s.pend);
      case DoReset => ResetDither(s.g);
      case DoReadback =>
      case ZeroPosition(_) =>
      case Fault =>
    }
  }

  lemma CoreMetered(m: Meter, s: Sys, c: CoreStep)
    requires SysSane(s) && CoreEnabled(s, c) && Metered(m, s.g.laser)
    ensures Metered(Observe(m, s, ByCore(c)), CoreNext(s, c).g.laser) && Observe(m, s, ByCore(c)).built == m.built
  {
    CoreDither(s, c);
    hide CoreNext, CoreEnabled, Metered, Restart, Restarted;
    var k := CoreNext(s, c).g.laser;
    if c.SetModel? {
      FreshMetered(m, k);
    } else if c.DoReset? && (s.g.streaming || s.g.killed || s.g.failed) {
      AgainMetered(m, s.g.laser, k);
    } else {
      SameDither(m, s.g.laser, k);
    }
  }

  /** The bytes a step built: only the shipper's passes and writes build any. */
  function Made(s: Sys, a: Step): seq<Byte>
    requires SysSane(s) && Enabled(s, a)
  {
    if a.ByShipper? then ChunkOf(ShipNext(s, a.h).pc) else []
  }

  lemma StepMetered(m: Meter, s: Sys, a: Step)
    requires SysSane(s) && Enabled(s, a) && Metered(m, s.g.laser)
    ensures Metered(Observe(m, s, a), Next(s, a).g.laser) && Observe(m, s, a).built == m.built + Made(s, a)
  {
    hide Metered, CoreNext, ShipNext, KernelNext, CoreEnabled, ShipEnabled, KernelEnabled, Restart;
    assert m.built + [] == m.built;
    match a {
      case ByCore(c) => CoreMetered(m, s, c);
      case ByShipper(h) => ShipMetered(m, s, h);
      case ByKernel(_) =>
    }
  }

  // ---- whole runs ----

  ghost function Watched(m: Meter, s: Sys, steps: seq<Step>): Meter
    requires SysSane(s) && IsRun(s, steps)
    decreases |steps|
  {
    if steps == [] then m else Watched(Observe(m, s, steps[0]), Next(s, steps[0]), steps[1..])
  }

  /** Every chunk of the run, one behind the other. */
  ghost function Built(s: Sys, steps: seq<Step>): seq<Byte>
    requires SysSane(s) && IsRun(s, steps)
    decreases |steps|
  {
    if steps == [] then [] else Made(s, steps[0]) + Built(Next(s, steps[0]), steps[1..])
  }

  lemma {:induction false} RunMetered(m: Meter, s: Sys, steps: seq<Step>)
    requires SysSane(s) && IsRun(s, steps) && Metered(m, s.g.laser)
    ensures Metered(Watched(m, s, steps), Final(s, steps).g.laser)
    ensures Watched(m, s, steps).built == m.built + Built(s, steps)
    decreases |steps|
  {
    hide Metered, Observe, Next, Enabled, Made;
    if steps != [] {
      StepMetered(m, s, steps[0]);
      RunMetered(Observe(m, s, steps[0]), Next(s, steps[0]), steps[1..]);
    } else {
      assert m.built + [] == m.built;
    }
  }

  /** The meter of a start: nothing built. */
  function Zeroed(s: Sys): Meter { Meter(s.g.laser.dith, [], [], 0) }

  /** The dose on the wire, over every run of the machine. The dither is valid wherever
      a run leads. The lit bytes built since it last restarted are, tick for tick over
      the ticks with fire in force under an open gate, the ones the density model fires,
      every one of them in the analog model; and at every tick what they deliver, with
      the burst under way and the debt carried, is exactly the dose asked for. */
  lemma DoseOnTheWire(s: Sys, steps: seq<Step>)
    requires Initial(s) && IsRun(s, steps)
    ensures var m, d := Watched(Zeroed(s), s, steps), Final(s, steps).g.laser.dith;
            && Valid(d) && m.from.period == d.period
            && m.mark <= |m.built| && m.built == Built(s, steps)
            && var lit := F.LitCount(m.built[m.mark..]);
            if d.period == 0 then lit == |m.powers|
            else
              && lit == DitherModel.Count(Fired(m.from, m.powers))
              && PWM_PERIOD * (lit + d.on) + d.acc == Asked(m.powers, d.period)
              && d.acc < PWM_PERIOD * Burst(d)
  {
    var m := Zeroed(s);
    FreshMetered(Meter(s.g.laser.dith, [], [], 0), s.g.laser);
    assert Again(m, s.g.laser.dith) == m;
    RunMetered(m, s, steps);
    hide IsRun, Final, Watched, Built, Initial, Made;
    MeteredValid(Watched(m, s, steps), Final(s, steps).g.laser);
    assert [] + Built(s, steps) == Built(s, steps);
  }
}
