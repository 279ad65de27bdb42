/** Dark termination: the last tick byte of a stream carries no FIRE, at a normal
    end, behind a fault, and after a reset in motion, one that lands between the
    building of a lit chunk and its write included. */
module StreamDark {
  import opened PulseBytes
  import opened StreamRing
  import opened LaserQueue
  import opened StreamEngine
  import opened StreamSystem
  import G = StreamGrammar

  predicate LitEnd(bytes: seq<Byte>) { bytes != [] && Lit(bytes[|bytes| - 1]) }

  /** A reset that drops the record of a lit last byte without owing its pad: the
      stream has ended and no idle under the reset marked it, or its run is not the
      kernel's and nothing marked it. */
  predicate Forgets(g: Gf) {
    g.laser.lastLit && !((g.streaming || g.killed) && (g.killed || g.kernelRunning))
  }

  /** The pad this step owes lands. */
  predicate PadLands(s: Sys, h: ShipStep) {
    match h
    case Snap(landed) => PadDue(s.g) ==> landed
    case Begin(_, landed) => s.g.laser.lastLit ==> landed
    case WriteFail(_) => false
    case _ => true
  }

  /** A step of a run whose writes succeed: no other writer adds bytes, and no reset
      forgets a pad. */
  predicate Smooth(s: Sys, a: Step) {
    match a
    case ByShipper(h) => PadLands(s, h)
    case ByCore(c) => c.DoReset? ==> !Forgets(s.g)
    case ByKernel(e) => e.Foreign? ==> e.bytes == []
  }

  /** A lit end is on record, and the record belongs to a stream whose pad is still
      to come: at its end, with its fault, or ahead of the clear. */
  predicate Shaded(s: Sys) {
    && (if s.pc.Writing? then LitEnd(s.pc.chunk) ==> s.g.laser.lastLit
        else LitEnd(s.k.taken) ==> s.g.laser.lastLit)
    && (s.pc.Writing? ==> s.pc.chunk != [])
    && (s.g.laser.lastLit ==> s.g.kernelRunning || s.g.clearPending)
    && (s.pc.Snapped? || s.pc.Cleared? ==> !s.g.laser.lastLit)
  }

  // ---- every step ----

  /** What a core step leaves of the record. */
  predicate SameEnd(g: Gf, h: Gf) {
    && h.laser.lastLit == g.laser.lastLit
    && (g.kernelRunning || g.clearPending ==> h.kernelRunning || h.clearPending)
  }

  /** Reset keeps the record exactly when it does not forget it, and then the clear
      is pending. */
  lemma ResetRecord(g: Gf)
    requires Sane(g)
    ensures Reset(g).laser.lastLit ==> Reset(g).clearPending
    ensures Reset(g).laser.lastLit <==> g.laser.lastLit && !Forgets(g)
    ensures g.clearPending ==> Reset(g).clearPending
  {
    hide Drop;
    StopRecord(g.laser);
    var h := ResetStream(g);
    StopRecord(h.laser.(lastLit := (g.streaming || g.killed) && h.laser.lastLit));
    hide DarkStop;
  }

  lemma StopRecord(l: Laser)
    ensures DarkStop(l).lastLit == l.lastLit
  {
  }

  lemma ReassertRecord(l: Laser, base: nat, armed: bool)
    requires |l.lev| <= LEV_N
    ensures Reassert(l, base, armed).lastLit == l.lastLit
  {
  }

  lemma WakeRecord(g: Gf, armed: bool, dueNow: nat)
    requires Sane(g)
    ensures SameEnd(g, Wakeup(g, armed, dueNow))
  {
    ReassertRecord(g.laser.(curFire := false), Continue(g.ring, dueNow).base, armed);
    ReassertRecord(g.laser, Continue(g.ring, dueNow).base, armed);
    ReassertRecord(g.laser.(lev := [], curFire := false), g.depth, armed);
    hide Reassert;
  }

  lemma SleepRecord(g: Gf, reset: bool, v: Vec)
    requires Sane(g)
    ensures SameEnd(g, GoIdle(g, reset, v))
  {
    hide EnqueueOff;
  }

  lemma EventRecord(g: Gf, armed: bool, power: Duty, fire: bool)
    requires Sane(g)
    ensures SameEnd(g, LaserEvent(g, armed, power, fire))
  {
    hide Enqueue;
  }

  /** The core's own requests. */
  predicate IsRequest(c: CoreStep) { c.Request? || c.SetJog? || c.Wake? || c.Sleep? || c.Output? }

  lemma AskRecord(g: Gf, armed: bool, power: Duty, fire: bool)
    requires Sane(g)
    ensures SameEnd(g, LaserRequest(g, armed, power, fire))
  {
    hide LaserEvent;
    EventRecord(g.(laser := g.laser.(wantPower := power, wantFire := fire)), armed, power,
                fire && armed && !g.laser.jogging);
  }

  lemma JogRecord(g: Gf, armed: bool, jog: bool)
    requires Sane(g)
    ensures SameEnd(g, Jog(g, armed, jog))
  {
    hide LaserEvent;
    EventRecord(g.(laser := g.laser.(jogging := jog)), armed, g.laser.wantPower, g.laser.wantFire && armed && !jog);
  }

  lemma PulseRecord(g: Gf, armed: bool, v: Vec)
    requires Sane(g)
    ensures SameEnd(g, Pulse(g, armed, v))
  {
    hide Pulse;
  }

  lemma RequestRecord(s: Sys, c: CoreStep)
    requires SysSane(s) && CoreEnabled(s, c) && IsRequest(c)
    ensures SameEnd(s.g, CoreNext(s, c).g) && CoreNext(s, c).k.taken == s.k.taken
  {
    hide Wakeup, GoIdle, LaserRequest, Jog, Pulse, SameEnd, NoStepsLeft, Sized, KernelSane;
    match c {
      case Output => PulseRecord(s.g, s.armed, s.pend);
      case Request(power, fire) => AskRecord(s.g, s.armed, power, fire);
      case SetJog(jog) => JogRecord(s.g, s.armed, jog);
      case Wake(dueNow) => WakeRecord(s.g, s.armed, dueNow);
      case Sleep(reset) => SleepRecord(s.g, reset, s.pend);
    }
  }

  lemma CoreRecord(s: Sys, c: CoreStep)
    requires SysSane(s) && CoreEnabled(s, c) && !c.DoReset?
    ensures SameEnd(s.g, CoreNext(s, c).g) && CoreNext(s, c).k.taken == s.k.taken
  {
    if IsRequest(c) {
      hide CoreNext, CoreEnabled, SameEnd;
      RequestRecord(s, c);
    } else {
      match c {
        case Count(_) =>
        case Advance(_) =>
        case SetModel(_) =>
        case SetArmed(_) =>
        case SetGate(_) =>
        case DoReadback =>
        case ZeroPosition(_) =>
        case Fault =>
      }
    }
  }

  lemma CoreKeeps(s: Sys, c: CoreStep)
    requires SysSane(s) && CoreEnabled(s, c) && Shaded(s) && Smooth(s, ByCore(c))
    ensures Shaded(CoreNext(s, c))
  {
    if c.DoReset? {
      ResetRecord(s.g);
      hide Reset;
    } else {
      CoreRecord(s, c);
      hide CoreNext, CoreEnabled;
    }
  }

  /** The chunk's last byte is what the record says. */
  lemma {:induction false} ChunkEnd(g: Gf, gate: bool, due: nat)
    requires Sane(g) && ShipMore(g, due)
    ensures var (h, chunk) := TakeChunk(g, gate, due);
            chunk != [] && Lit(chunk[|chunk| - 1]) == h.laser.lastLit && h.kernelRunning
  {
    var b := Build(g.laser, g.ring, []);
    G.Nothing(b.bytes);
    hide Paired, Ticks, Powers;
    G.ChunkAdds(b, gate, due, g.streaming);
    hide BuildChunk;
  }

  lemma TurnKeeps(s: Sys, gate: bool, due: nat, startRun: bool)
    requires SysSane(s) && !s.pc.Snapped? && !s.pc.Cleared?
    requires LitEnd(s.k.taken) ==> s.g.laser.lastLit
    requires s.g.laser.lastLit ==> s.g.kernelRunning || s.g.clearPending
    ensures Shaded(ShipTurn(s, gate, due, startRun))
  {
    hide TakeChunk;
    if ShipMore(s.g, due) { ChunkEnd(s.g, gate, due); }
  }

  lemma BeginKeeps(s: Sys, due: nat, landed: bool)
    requires SysSane(s) && s.pc == Ready && Shaded(s) && (s.g.laser.lastLit ==> landed)
    ensures Shaded(DoBegin(s, due, landed))
  {
    var u := Sampled(s);
    G.SampledSame(s);
    SampledEnd(s);
    hide ShipTurn, FinishStream, Sampled, PadFault;
    if s.g.failed {
      FaultEnds(s, landed);
    } else if !s.g.streaming && Backlog(s.g.ring) == 0 {
      FinishEnds(u, landed);
    } else if !PreloadWait(s.g) {
      TurnKeeps(u, s.gate, due, false);
    }
  }

  lemma SampledEnd(s: Sys)
    requires SysSane(s)
    ensures var u := Sampled(s); u.g.laser.lastLit == s.g.laser.lastLit && u.k == s.k && u.pc == s.pc
  {
  }

  lemma PadEnds(taken: seq<Byte>)
    ensures !LitEnd(taken + [PAD])
  {
  }

  /** A faulted stream's pass ends it dark. */
  lemma FaultEnds(s: Sys, landed: bool)
    requires SysSane(s) && !s.pc.Writing? && Shaded(s) && (s.g.laser.lastLit ==> landed)
    ensures var t := PadFault(s, landed);
            Shaded(t) && !t.g.laser.lastLit && !LitEnd(t.k.taken)
  {
    hide PadOnly, U32;
    PadEnds(s.k.taken);
    var t := PadFault(s, landed);
    if s.g.laser.lastLit {
      assert t.g.laser.lastLit == false && t.k.taken == s.k.taken + [PAD];
    } else {
      assert t == s.(pc := Top);
    }
  }

  /** A stream that shipped out ends dark. */
  lemma FinishEnds(s: Sys, landed: bool)
    requires SysSane(s) && !s.pc.Writing? && Shaded(s) && (s.g.laser.lastLit ==> landed)
    ensures var t := FinishStream(s, landed);
            && Shaded(t) && !t.g.kernelRunning
            && (s.g.kernelRunning ==> !t.g.laser.lastLit && !LitEnd(t.k.taken))
  {
    hide PadOnly, U32;
    PadEnds(s.k.taken);
    var t := FinishStream(s, landed);
    if s.g.kernelRunning && s.g.laser.lastLit {
      assert t.g.laser.lastLit == false && t.k.taken == s.k.taken + [PAD];
    } else {
      assert t.k == s.k;
      assert t.g.laser.lastLit == s.g.laser.lastLit;
    }
  }

  /** A reset's pad goes in ahead of the clear. */
  lemma SnapEnds(s: Sys, landed: bool)
    requires SysSane(s) && s.pc == Top && Shaded(s) && (PadDue(s.g) ==> landed)
    ensures var t := DoSnap(s, landed);
            Shaded(t) && (t.pc.Snapped? ==> !t.g.laser.lastLit && !LitEnd(t.k.taken))
  {
    hide PadOnly, U32;
    PadEnds(s.k.taken);
    var t := DoSnap(s, landed);
    if PadDue(s.g) {
      assert t.g.laser.lastLit == false && t.k.taken == s.k.taken + [PAD];
    } else {
      assert t.k == s.k && t.g == s.g;
    }
  }

  lemma WriteKeeps(s: Sys)
    requires SysSane(s) && s.pc.Writing? && Shaded(s)
    ensures Shaded(DoWriteOk(s))
  {
    var chunk, taken := s.pc.chunk, s.k.taken + s.pc.chunk;
    assert taken[|taken| - 1] == chunk[|chunk| - 1];
    var u := s.(g := ChunkTaken(s.g, chunk), k := Take(s.k, chunk));
    assert u.g.laser == s.g.laser && u.g.kernelRunning == s.g.kernelRunning && u.g.clearPending == s.g.clearPending;
    hide ShipTurn, ChunkTaken;
    if !(u.g.failed || u.g.clearPending) {
      TurnKeeps(u, s.pc.gate, s.pc.due, s.pc.startRun || s.pc.first);
    }
  }

  lemma ShipKeeps(s: Sys, h: ShipStep)
    requires SysSane(s) && ShipEnabled(s, h) && Shaded(s) && Smooth(s, ByShipper(h))
    ensures Shaded(ShipNext(s, h))
  {
    hide DoBegin, DoWriteOk, DoSnap, DoWriteFail, OwedResidue, Counters, CountsMatch, CanStart;
    match h {
      case Snap(landed) => SnapEnds(s, landed);
      case NotYet =>
      case Empty(_, _) =>
      case Finish =>
      case Begin(due, landed) => BeginKeeps(s, due, landed);
      case WriteOk => WriteKeeps(s);
      case GateSkip =>
      case GateRead(_, _) =>
      case IssueRun =>
      case IssueAck(_) =>
      case IssueRefused =>
    }
  }

  // ---- whole runs ----

  ghost predicate SmoothRun(s: Sys, steps: seq<Step>)
    requires SysSane(s) && IsRun(s, steps)
    decreases |steps|
  {
    steps == [] || (Smooth(s, steps[0]) && SmoothRun(Next(s, steps[0]), steps[1..]))
  }

  lemma {:induction false} RunKeeps(s: Sys, steps: seq<Step>)
    requires SysSane(s) && IsRun(s, steps) && SmoothRun(s, steps) && Shaded(s)
    ensures Shaded(Final(s, steps))
    decreases |steps|
  {
    if steps != [] {
      StepKeeps(s, steps[0]);
      hide Shaded, Next, Smooth;
      RunKeeps(Next(s, steps[0]), steps[1..]);
    }
  }

  lemma StepKeeps(s: Sys, a: Step)
    requires SysSane(s) && Enabled(s, a) && Smooth(s, a) && Shaded(s)
    ensures Shaded(Next(s, a))
  {
    match a {
      case ByCore(c) =>
        hide Shaded, CoreNext, CoreEnabled;
        CoreKeeps(s, c);
      case ByShipper(h) =>
        hide Shaded, ShipNext, ShipEnabled;
        ShipKeeps(s, h);
      case ByKernel(e) => KernelKeeps(s, e);
    }
  }

  lemma KernelKeeps(s: Sys, e: KernelStep)
    requires SysSane(s) && KernelEnabled(s, e) && Shaded(s) && Smooth(s, ByKernel(e))
    ensures Shaded(KernelNext(s, e))
  {
    if e.Foreign? { assert s.k.taken + e.bytes == s.k.taken; }
  }

  /** Over every run whose writes succeed: once no stream's bytes are the engine's
      any more, and whenever a clear is about to drop what the ramp leaves, the last
      byte written carries no FIRE; while it still does, its pad is owed. */
  lemma DarkTermination(s: Sys, steps: seq<Step>)
    requires Initial(s) && IsRun(s, steps) && SmoothRun(s, steps)
    ensures var t := Final(s, steps);
            && (!t.pc.Writing? && !t.g.kernelRunning && !t.g.clearPending ==> !LitEnd(t.k.taken))
            && (t.pc.Snapped? || t.pc.Cleared? ==> !LitEnd(t.k.taken))
            && (!t.pc.Writing? && LitEnd(t.k.taken) ==> t.g.laser.lastLit)
  {
    RunKeeps(s, steps);
  }

  /** The passes a reset leaves to the shipper: the pad's, and the stream end's if
      no clear is due. */
  function AfterReset(s: Sys, due: nat): (t: Sys)
    requires SysSane(s) && s.pc == Top
    ensures SysSane(t)
  {
    var t := DoSnap(s.(g := Reset(s.g)), true);
    if t.pc == Ready then DoBegin(t, due, true) else t
  }

  /** With nothing left to ship behind a lit byte, a reset leaves a dark end exactly
      when it does not forget the pad. The stream that ended on its own, whose pad
      pass has not come yet, is the one it forgets. */
  lemma ResetEndsDarkExactly(s: Sys, due: nat)
    requires SysSane(s) && s.pc == Top && Shaded(s) && LitEnd(s.k.taken)
    requires s.g.streaming || s.g.killed || s.g.failed || Backlog(s.g.ring) == 0
    ensures !LitEnd(AfterReset(s, due).k.taken) <==> !Forgets(s.g)
  {
    if Forgets(s.g) {
      ForgetsThePad(s, due);
    } else {
      KeepsThePad(s, due);
    }
  }

  lemma ForgetsThePad(s: Sys, due: nat)
    requires SysSane(s) && s.pc == Top && Forgets(s.g)
    requires s.g.streaming || s.g.killed || s.g.failed || Backlog(s.g.ring) == 0
    ensures AfterReset(s, due).k == s.k
  {
    var u := s.(g := Reset(s.g));
    ForgetfulReset(s.g);
    hide Reset, PadOnly, FinishClear;
    var v := DoSnap(u, true);
    assert v.k == u.k && v.g == u.g;
    if v.pc == Ready {
      SampledEnd(v);
      G.SampledSame(v);
      hide Sampled;
      assert DoBegin(v, due, true) == FinishStream(Sampled(v), true);
    }
  }

  lemma KeepsThePad(s: Sys, due: nat)
    requires SysSane(s) && s.pc == Top && s.g.laser.lastLit && !Forgets(s.g)
    ensures !LitEnd(AfterReset(s, due).k.taken)
  {
    ResetRecord(s.g);
    PadEnds(s.k.taken);
    hide Reset, PadOnly, DoBegin, LitEnd;
    assert DoSnap(s.(g := Reset(s.g)), true).k.taken == s.k.taken + [PAD];
  }

  lemma ForgetfulReset(g: Gf)
    requires Sane(g) && Forgets(g)
    requires g.streaming || g.killed || g.failed || Backlog(g.ring) == 0
    ensures var h := Reset(g);
            && !h.laser.lastLit
            && (!h.clearPending ==> !h.failed && !h.streaming && Backlog(h.ring) == 0)
  {
    ResetRecord(g);
    hide DropSlots, DarkStop;
  }
}
