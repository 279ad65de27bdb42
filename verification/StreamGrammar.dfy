/** The byte-stream grammar: what every kernel run's bytes look like, pads included. */
module StreamGrammar {
  import opened PulseBytes
  import opened StreamRing
  import opened LaserQueue
  import opened StreamEngine
  import opened StreamSystem

  // ---- one chunk ----

  /** What the bytes of one or more ticks add to a run. */
  lemma LaserTickAdds(l: Laser, shipped: nat, gate: bool, v: Vec, sofar: seq<Byte>)
    requires Paired(sofar)
    ensures var (m, bytes) := LaserTick(l, shipped, gate, v);
            var all := sofar + bytes;
            && Paired(all) && Ticks(all) == Ticks(sofar) + 1
            && all != [] && Lit(all[|all| - 1]) == m.lastLit && all[|all| - 1].Tick?
            && m.powerSent && m.dith.period == l.dith.period
            && (sofar == [] && !l.powerSent ==> all[0].Power?)
            && (l.dith.period != 0 ==>
                  Powers(all) == Powers(sofar) + (if l.powerSent then [] else [Power(FULL_DUTY)]))
  {
    LaserTickShape(l, shipped, gate, v);
    LeadIsPower(l, shipped, gate, v);
    var (m, bytes) := LaserTick(l, shipped, gate, v);
    PairedConcat(sofar, bytes);
    TicksConcat(sofar, bytes);
    hide LaserTick, Paired, Ticks, Powers, Drain, Lead, Reached, ReachedPower, StepsOf, Lit;
    var all := sofar + bytes;
    assert all[|all| - 1] == bytes[|bytes| - 1];
    assert Lit(Tick(v, m.lastLit)) == m.lastLit by { LitTick(v, m.lastLit); }
  }

  lemma LitTick(v: Vec, fire: bool)
    ensures Lit(Tick(v, fire)) == fire
  {
  }

  lemma LeadIsPower(l: Laser, shipped: nat, gate: bool, v: Vec)
    ensures !l.powerSent ==> LaserTick(l, shipped, gate, v).1[0].Power?
    ensures l.dith.period != 0 ==>
              Lead(Reached(l, shipped), ReachedPower(l, shipped)) == (if l.powerSent then [] else [Power(FULL_DUTY)])
  {
  }

  /** The same over a whole chunk. */
  lemma {:induction false} ChunkAdds(b: Build, gate: bool, due: nat, streaming: bool)
    requires Sized(b.r) && Paired(b.bytes) && b.r.shipped >= Ticks(b.bytes)
    requires b.bytes != [] ==> b.l.powerSent
    ensures var c := BuildChunk(b, gate, due, streaming);
            && Paired(c.bytes) && c.l.dith.period == b.l.dith.period
            && Ticks(c.bytes) - Ticks(b.bytes) == c.r.shipped - b.r.shipped
            && (More(b, due, streaming) ==>
                  && c.bytes != [] && c.bytes[|c.bytes| - 1].Tick? && c.l.powerSent
                  && Lit(c.bytes[|c.bytes| - 1]) == c.l.lastLit)
            && (b.bytes != [] ==> c.bytes != [] && c.bytes[0] == b.bytes[0])
            && (More(b, due, streaming) && b.bytes == [] && !b.l.powerSent ==> c.bytes[0].Power?)
            && (b.l.dith.period != 0 ==>
                  Powers(c.bytes) == Powers(b.bytes) +
                                     (if b.l.powerSent || !More(b, due, streaming) then [] else [Power(FULL_DUTY)]))
    decreases due - b.r.shipped
  {
    hide LaserTick, Paired, Ticks, Powers, Ship;
    ChunkUnfolds(b, gate, due, streaming);
    if More(b, due, streaming) {
      hide BuildChunk;
      var (r, v) := Ship(b.r);
      var d := BuildTick(b, gate);
      LaserTickAdds(b.l, b.r.shipped, gate, v, b.bytes);
      CursorMoves(b.r);
      assert d.bytes[..|b.bytes|] == b.bytes;
      hide BuildTick, Lit;
      ChunkAdds(d, gate, due, streaming);
      ChunkUnfolds(d, gate, due, streaming);
    }
  }

  /** The chunk buffer is never outgrown: a tick writes at most two bytes, and the
      last one starts two short of the end. */
  lemma {:induction false} ChunkFits(b: Build, gate: bool, due: nat, streaming: bool)
    requires Sized(b.r) && |b.bytes| <= SHIP_CHUNK
    ensures |BuildChunk(b, gate, due, streaming).bytes| <= SHIP_CHUNK
    decreases due - b.r.shipped
  {
    hide LaserTick, Paired, Ticks, Powers, Ship;
    ChunkUnfolds(b, gate, due, streaming);
    if More(b, due, streaming) {
      hide BuildChunk;
      LaserTickShape(b.l, b.r.shipped, gate, Ship(b.r).1);
      CursorMoves(b.r);
      ChunkFits(BuildTick(b, gate), gate, due, streaming);
    }
  }

  // ---- whole runs ----

  /** One kernel run: the bytes handed to the kernel for it, the stream index of its
      first tick and the one behind its last, the ticks that have no stream index (the
      pads behind a fault or a reset), the indices that have no tick (a closing pad that
      did not land), and whether only the density model built it. */
  datatype Tape = Tape(bytes: seq<Byte>, from: nat, next: nat, loose: nat, missed: nat, dense: bool)

  /** A run's bytes start with a power byte; every power byte leads a tick; there
      is one tick byte per stream index, but for the counted exceptions; and the density
      model sends one power byte, at full duty. */
  ghost predicate Spoken(t: Tape) {
    && t.bytes != [] && t.bytes[0].Power? && Paired(t.bytes)
    && t.from <= t.next && Ticks(t.bytes) + t.missed == (t.next - t.from) + t.loose
    && (t.dense ==> Powers(t.bytes) == [Power(FULL_DUTY)])
  }

  /** A chunk of the run: a first one opens a tape, any other continues the last. */
  function AddChunk(tapes: seq<Tape>, first: bool, chunk: seq<Byte>, from: nat, next: nat, dense: bool): seq<Tape> {
    if first || tapes == [] then tapes + [Tape(chunk, from, next, 0, 0, dense)]
    else
      var n := |tapes| - 1;
      tapes[n := tapes[n].(bytes := tapes[n].bytes + chunk, next := next, dense := tapes[n].dense && dense)]
  }

  /** The last tape with a pad behind it that has no stream index. */
  function AddPad(tapes: seq<Tape>): seq<Tape> {
    if tapes == [] then tapes
    else
      var n := |tapes| - 1;
      tapes[n := tapes[n].(bytes := tapes[n].bytes + [PAD], loose := tapes[n].loose + 1)]
  }

  /** The last tape with an index behind it that got no tick. */
  function AddMiss(tapes: seq<Tape>, next: nat): seq<Tape> {
    if tapes == [] then tapes
    else
      var n := |tapes| - 1;
      tapes[n := tapes[n].(next := next, missed := tapes[n].missed + 1)]
  }

  /** A pass that closes a stream: the pad landed, or it did not. */
  function Close(tapes: seq<Tape>, shipped: nat, landed: bool): seq<Tape> {
    if landed then AddChunk(tapes, false, [PAD], shipped, shipped + 1, true) else AddMiss(tapes, shipped + 1)
  }

  /** The shipper's step to t: a chunk built, the pad that closes a stream, or a pad
      behind a fault or a reset. */
  function Spool(tapes: seq<Tape>, s: Sys, h: ShipStep, t: Sys): seq<Tape> {
    if (h.Begin? || h.WriteOk?) && t.pc.Writing? then
      AddChunk(tapes, t.pc.first, t.pc.chunk, s.g.ring.shipped, t.g.ring.shipped, s.g.laser.dith.period != 0)
    else if h.Begin? && t.g.ring.shipped != s.g.ring.shipped then Close(tapes, s.g.ring.shipped, h.landed)
    else if (h.Begin? || h.Snap?) && t.k.taken != s.k.taken then AddPad(tapes)
    else tapes
  }

  function Observe(tapes: seq<Tape>, s: Sys, a: Step): seq<Tape>
    requires SysSane(s) && Enabled(s, a)
  {
    match a
    case ByShipper(h) => Spool(tapes, s, h, ShipNext(s, h))
    case ByCore(_) => tapes
    case ByKernel(_) => tapes
  }

  ghost predicate AllSpoken(tapes: seq<Tape>) { forall i :: 0 <= i < |tapes| ==> Spoken(tapes[i]) }

  /** Every run so far is well formed; a run the kernel owns is the last tape, up
      to the ship cursor, with its power byte sent; and no power byte counts as sent
      for a run that has not begun. */
  ghost predicate Fluent(tapes: seq<Tape>, g: Gf) {
    && AllSpoken(tapes)
    && (g.kernelRunning ==> tapes != [] && tapes[|tapes| - 1].next == g.ring.shipped)
    && g.laser.powerSent == g.kernelRunning
  }

  /** One pad is one dark tick. */
  lemma {:induction false} OnePad(pad: seq<Byte>)
    requires |pad| == 1 && pad[0] == PAD
    ensures Paired(pad) && Ticks(pad) == 1 && Powers(pad) == []
  {
    var none := pad[1..];
    Nothing(none);
    assert pad[0].Tick?;
    assert Paired(pad) == Paired(none);
    assert Ticks(pad) == 1 + Ticks(none);
    assert Powers(pad) == [] + Powers(none);
  }

  /** More bytes on a well-formed run: chunk's ticks take the indices up to next, but for
      extra ticks that take none. */
  lemma ChunkJoins(t: Tape, chunk: seq<Byte>, next: nat, extra: nat, dense: bool)
    requires Spoken(t) && Paired(chunk) && t.next + Ticks(chunk) == next + extra && t.next <= next
    requires dense ==> Powers(chunk) == []
    ensures Spoken(t.(bytes := t.bytes + chunk, next := next, loose := t.loose + extra, dense := t.dense && dense))
  {
    hide Paired, Ticks, Powers;
    PairedConcat(t.bytes, chunk);
    TicksConcat(t.bytes, chunk);
  }

  lemma PadSpoken(t: Tape)
    requires Spoken(t)
    ensures Spoken(t.(bytes := t.bytes + [PAD], next := t.next + 1))
    ensures Spoken(t.(bytes := t.bytes + [PAD], loose := t.loose + 1))
    ensures Spoken(t.(next := t.next + 1, missed := t.missed + 1))
  {
    OnePad([PAD]);
    ChunkJoins(t, [PAD], t.next + 1, 0, true);
    ChunkJoins(t, [PAD], t.next, 1, true);
    hide Paired, Ticks, Powers;
  }

  /** A pad anywhere keeps every run well formed. */
  lemma PadFluent(tapes: seq<Tape>, g: Gf)
    requires Fluent(tapes, g)
    ensures Fluent(AddPad(tapes), g)
  {
    if tapes != [] { PadSpoken(tapes[|tapes| - 1]); }
    hide Spoken;
  }

  /** A chunk as the grammar sees it. */
  lemma {:induction false} ChunkIs(g: Gf, gate: bool, due: nat)
    requires Sane(g) && ShipMore(g, due)
    ensures var (h, chunk) := TakeChunk(g, gate, due);
            && Paired(chunk) && chunk != [] && (!g.laser.powerSent ==> chunk[0].Power?)
            && h.kernelRunning && h.laser.powerSent && h.ring.shipped >= g.ring.shipped
            && g.ring.shipped + Ticks(chunk) == h.ring.shipped
            && (g.laser.dith.period != 0 ==> Powers(chunk) == (if g.laser.powerSent then [] else [Power(FULL_DUTY)]))
  {
    var b := Build(g.laser, g.ring, []);
    Nothing(b.bytes);
    hide Paired, Ticks, Powers;
    ChunkAdds(b, gate, due, g.streaming);
    hide BuildChunk;
  }

  lemma {:induction false} ChunkSpoken(tapes: seq<Tape>, g: Gf, gate: bool, due: nat)
    requires Sane(g) && Fluent(tapes, g) && ShipMore(g, due)
    ensures var (h, chunk) := TakeChunk(g, gate, due);
            Fluent(AddChunk(tapes, !g.kernelRunning, chunk, g.ring.shipped, h.ring.shipped, g.laser.dith.period != 0), h)
  {
    hide TakeChunk, Paired, Ticks, Powers;
    ChunkIs(g, gate, due);
    var (h, chunk) := TakeChunk(g, gate, due);
    var dense := g.laser.dith.period != 0;
    if g.kernelRunning {
      ChunkJoins(tapes[|tapes| - 1], chunk, h.ring.shipped, 0, dense);
    } else {
      assert Spoken(Tape(chunk, g.ring.shipped, h.ring.shipped, 0, 0, dense));
    }
  }

  lemma Nothing(none: seq<Byte>)
    requires |none| == 0
    ensures Paired(none) && Ticks(none) == 0 && Powers(none) == []
  {
  }

  /** The shipper's turn keeps the grammar. */
  lemma TurnKeeps(tapes: seq<Tape>, s: Sys, gate: bool, due: nat, startRun: bool)
    requires SysSane(s) && Fluent(tapes, s.g)
    ensures var t := ShipTurn(s, gate, due, startRun);
            Fluent(if t.pc.Writing? then
                     AddChunk(tapes, t.pc.first, t.pc.chunk, s.g.ring.shipped, t.g.ring.shipped, s.g.laser.dith.period != 0)
                   else tapes, t.g)
    ensures !ShipTurn(s, gate, due, startRun).pc.Writing? ==> ShipTurn(s, gate, due, startRun).g == s.g
    ensures ShipTurn(s, gate, due, startRun).k == s.k
  {
    hide Fluent, AddChunk, TakeChunk;
    if ShipMore(s.g, due) { ChunkSpoken(tapes, s.g, gate, due); }
  }

  lemma FinishSpoken(tapes: seq<Tape>, s: Sys, landed: bool)
    requires SysSane(s) && Fluent(tapes, s.g)
    ensures var t := FinishStream(s, landed);
            && (if t.g.ring.shipped == s.g.ring.shipped then Fluent(tapes, t.g) && t.k.taken == s.k.taken
                else Fluent(Close(tapes, s.g.ring.shipped, landed), t.g))
  {
    hide Spoken, PadOnly, U32;
    if s.g.kernelRunning && s.g.laser.lastLit { PadSpoken(tapes[|tapes| - 1]); }
  }

  lemma SampledSame(s: Sys)
    requires SysSane(s)
    ensures var u := Sampled(s);
            && u.g.ring == s.g.ring && u.g.laser.dith.period == s.g.laser.dith.period
            && u.g.laser.powerSent == s.g.laser.powerSent && u.g == s.g.(laser := u.g.laser)
  {
  }

  lemma BeginKeeps(tapes: seq<Tape>, s: Sys, due: nat, landed: bool)
    requires SysSane(s) && s.pc == Ready && Fluent(tapes, s.g)
    ensures Fluent(Spool(tapes, s, Begin(due, landed), DoBegin(s, due, landed)), DoBegin(s, due, landed).g)
  {
    SampledSame(s);
    var u, t := Sampled(s), DoBegin(s, due, landed);
    hide AllSpoken, ShipTurn, FinishStream, AddChunk, AddPad, Close, Sampled, PadFault;
    if s.g.failed {
      FaultRun(s, landed);
      PadFluent(tapes, t.g);
    } else if !s.g.streaming && Backlog(s.g.ring) == 0 {
      FinishSpoken(tapes, u, landed);
    } else if !PreloadWait(s.g) {
      TurnKeeps(tapes, u, s.gate, due, false);
    }
  }

  lemma PaddedRun(g: Gf, landed: bool)
    ensures Padded(g, landed).laser.powerSent == g.laser.powerSent
  {
  }

  lemma FaultRun(s: Sys, landed: bool)
    requires SysSane(s)
    ensures var t := PadFault(s, landed);
            t.g.laser.powerSent == s.g.laser.powerSent && t.g.kernelRunning == s.g.kernelRunning
  {
    hide PadOnly, PadWritten, Padded;
    PaddedRun(s.g, landed);
    if s.g.laser.lastLit {
      var g := Padded(s.g, landed);
      assert PadFault(s, landed).g == g.(laser := g.laser.(curFire := false));
    } else {
      assert PadFault(s, landed).g == s.g;
    }
  }

  lemma WriteKeeps(tapes: seq<Tape>, s: Sys)
    requires SysSane(s) && s.pc.Writing? && Fluent(tapes, s.g)
    ensures Fluent(Spool(tapes, s, WriteOk, DoWriteOk(s)), DoWriteOk(s).g)
  {
    var u := s.(g := ChunkTaken(s.g, s.pc.chunk), k := Take(s.k, s.pc.chunk));
    assert Fluent(tapes, u.g);
    hide Spoken, ShipTurn, AddChunk;
    if !(u.g.failed || u.g.clearPending) {
      TurnKeeps(tapes, u, s.pc.gate, s.pc.due, s.pc.startRun || s.pc.first);
    }
  }

  /** The parts of the engine's record the grammar reads. */
  predicate SameRun(g: Gf, h: Gf) {
    && (h.kernelRunning ==> g.kernelRunning && h.ring.shipped == g.ring.shipped)
    && (g.laser.powerSent == g.kernelRunning ==> h.laser.powerSent == h.kernelRunning)
  }

  lemma ResetRun(g: Gf)
    requires Sane(g)
    ensures SameRun(g, Reset(g))
  {
    hide Drop, DarkStop;
    assert !DarkStop(g.laser).powerSent by { DarkUnsent(g.laser); }
    DarkUnsent(ResetStream(g).laser);
    var h := ResetStream(g);
    DarkUnsent(h.laser.(lastLit := (g.streaming || g.killed) && h.laser.lastLit));
  }

  lemma DarkUnsent(l: Laser)
    ensures !DarkStop(l).powerSent
  {
  }

  lemma WakeRun(g: Gf, armed: bool, dueNow: nat)
    requires Sane(g)
    ensures SameRun(g, Wakeup(g, armed, dueNow))
  {
    hide Reassert;
    ReassertSent(g.laser.(curFire := false), Continue(g.ring, dueNow).base, armed);
    ReassertSent(g.laser, Continue(g.ring, dueNow).base, armed);
    ReassertSent(g.laser.(lev := [], curFire := false), g.depth, armed);
  }

  lemma ReassertSent(l: Laser, base: nat, armed: bool)
    requires |l.lev| <= LEV_N
    ensures Reassert(l, base, armed).powerSent == l.powerSent
  {
  }

  lemma PulseRun(g: Gf, armed: bool, v: Vec)
    requires Sane(g)
    ensures SameRun(g, Pulse(g, armed, v))
  {
    hide Overflows, Place;
  }

  lemma RequestRun(g: Gf, armed: bool, power: Duty, fire: bool, jog: bool)
    requires Sane(g)
    ensures SameRun(g, LaserRequest(g, armed, power, fire)) && SameRun(g, Jog(g, armed, jog))
  {
    hide Enqueue, EnqueueOff;
  }

  lemma CoreRun(s: Sys, c: CoreStep)
    requires SysSane(s) && CoreEnabled(s, c)
    ensures SameRun(s.g, CoreNext(s, c).g)
  {
    hide Reset, Wakeup, GoIdle, Pulse, LaserRequest, Jog, NoStepsLeft, KernelSane, Signed, U32, Wrap;
    match c {
      case Count(_) =>
      case Output => PulseRun(s.g, s.armed, s.pend);
      case Advance(_) =>
      case Request(power, fire) => RequestRun(s.g, s.armed, power, fire, s.g.laser.jogging);
      case SetJog(jog) => RequestRun(s.g, s.armed, 0, false, jog);
      case SetModel(_) =>
      case SetArmed(_) =>
      case SetGate(_) =>
      case Wake(dueNow) => WakeRun(s.g, s.armed, dueNow);
      case Sleep(reset) => SleepRun(s.g, reset, s.pend);
      case DoReset => ResetRun(s.g);
      case DoReadback =>
      case ZeroPosition(_) =>
      case Fault =>
    }
  }

  lemma SleepRun(g: Gf, reset: bool, v: Vec)
    requires Sane(g)
    ensures SameRun(g, GoIdle(g, reset, v))
  {
  }

  lemma CoreKeeps(tapes: seq<Tape>, s: Sys, c: CoreStep)
    requires SysSane(s) && CoreEnabled(s, c) && Fluent(tapes, s.g)
    ensures Fluent(tapes, CoreNext(s, c).g)
  {
    CoreRun(s, c);
    hide CoreNext, CoreEnabled, AllSpoken;
  }

  lemma SnapKeeps(tapes: seq<Tape>, s: Sys, landed: bool)
    requires SysSane(s) && s.pc == Top && Fluent(tapes, s.g)
    ensures Fluent(Spool(tapes, s, Snap(landed), DoSnap(s, landed)), DoSnap(s, landed).g)
  {
    var t := DoSnap(s, landed);
    PaddedRun(s.g, landed);
    hide PadOnly, Padded, AddPad, AllSpoken;
    assert Fluent(tapes, t.g);
    PadFluent(tapes, t.g);
  }

  lemma ShipKeeps(tapes: seq<Tape>, s: Sys, h: ShipStep)
    requires SysSane(s) && ShipEnabled(s, h) && Fluent(tapes, s.g)
    ensures Fluent(Spool(tapes, s, h, ShipNext(s, h)), ShipNext(s, h).g)
  {
    hide AllSpoken, DoBegin, DoWriteOk, DoSnap;
    match h {
      case Snap(landed) => SnapKeeps(tapes, s, landed);
      case NotYet =>
      case Empty(_, _) =>
      case Finish =>
      case Begin(due, landed) => BeginKeeps(tapes, s, due, landed);
      case WriteOk => WriteKeeps(tapes, s);
      case WriteFail(_) =>
      case GateSkip =>
      case GateRead(_, _) =>
      case IssueRun =>
      case IssueAck(_) =>
      case IssueRefused =>
    }
  }

  ghost function Tapes(tapes: seq<Tape>, s: Sys, steps: seq<Step>): seq<Tape>
    requires SysSane(s) && IsRun(s, steps)
    decreases |steps|
  {
    if steps == [] then tapes else Tapes(Observe(tapes, s, steps[0]), Next(s, steps[0]), steps[1..])
  }

  lemma {:induction false} RunKeeps(tapes: seq<Tape>, s: Sys, steps: seq<Step>)
    requires SysSane(s) && IsRun(s, steps) && Fluent(tapes, s.g)
    ensures Fluent(Tapes(tapes, s, steps), Final(s, steps).g)
    decreases |steps|
  {
    hide Fluent, CoreNext, ShipNext, CoreEnabled, ShipEnabled, KernelEnabled, Spool;
    if steps != [] {
      match steps[0] {
        case ByCore(c) => CoreKeeps(tapes, s, c);
        case ByShipper(h) => ShipKeeps(tapes, s, h);
        case ByKernel(e) =>
      }
      RunKeeps(Observe(tapes, s, steps[0]), Next(s, steps[0]), steps[1..]);
    }
  }

  /** The byte-stream grammar over every run of the machine, resets and faults that
      land under a write included: every kernel run's bytes are well formed, and the
      power byte counts as sent exactly while a run is the kernel's. */
  lemma StreamGrammarHolds(s: Sys, steps: seq<Step>)
    requires Initial(s) && IsRun(s, steps)
    ensures var tapes := Tapes([], s, steps);
            && (forall i :: 0 <= i < |tapes| ==> Spoken(tapes[i]))
            && Final(s, steps).g.laser.powerSent == Final(s, steps).g.kernelRunning
  {
    RunKeeps([], s, steps);
  }
}
