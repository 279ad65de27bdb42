/** A stream's life: what a reset leaves, when a pass builds a chunk and how far it ships,
    when the engine lets a run go, and that every read-back owed has its clear to come. */
module StreamLife {
  import opened PulseBytes
  import opened StreamRing
  import opened LaserQueue
  import opened StreamEngine
  import opened StreamSystem

  // ---- the reset ----

  /** A reset ends a live, marked or faulted stream: nothing is left to ship, the fault is
      acknowledged, and the kernel is cleared where it may hold bytes of it; it owes the
      read-back exactly for a mark without a fault. Anything else it leaves running. */
  lemma ResetLeaves(g: Gf)
    requires Sane(g)
    ensures var h := Reset(g); var ends := g.streaming || g.killed || g.failed;
            && !h.failed && !h.killed && (h.streaming <==> g.streaming && !ends)
            && (ends ==> Backlog(h.ring) == 0) && h.ring.shipped == g.ring.shipped
            && (h.clearPending <==> g.clearPending || g.failed || g.killed || (g.streaming && g.kernelRunning))
            && (h.kernelRunning <==> g.kernelRunning && !ends)
            && h.readback == if !g.killed || g.failed then RbNone else if g.baseValid then RbWait else RbLost
  {
    hide DropSlots, DarkStop, Wrap;
  }

  // ---- the pass ----

  /** A stream may start to ship: it has shipped before, or one depth is produced. */
  predicate Preloaded(g: Gf) {
    (g.ring.shipped > 0 && g.kernelRunning) || Backlog(g.ring) >= (if g.streaming then g.depth else 1)
  }

  /** Something may ship now, up to the index due. */
  predicate Ships(g: Gf, due: nat) { g.ring.shipped < due && (g.streaming || g.ring.shipped < g.ring.produced) }

  /** A pass builds a chunk exactly when the stream has not failed, is preloaded, and has
      something to ship; and it lets the run go exactly when the stream has ended with
      nothing left. */
  lemma PassBuildsExactly(s: Sys, due: nat, landed: bool)
    requires SysSane(s) && s.pc == Ready
    ensures var t := DoBegin(s, due, landed); var ended := !s.g.streaming && Backlog(s.g.ring) == 0;
            && (t.pc.Writing? <==> !s.g.failed && !ended && Preloaded(s.g) && Ships(s.g, due))
            && (t.pc.Writing? ==> t.pc.due == due && t.pc.gate == s.gate && (t.pc.first <==> !s.g.kernelRunning))
            && (!t.pc.Writing? ==> t.pc == Top)
            && (t.g.kernelRunning <==> t.pc.Writing? || (s.g.kernelRunning && (s.g.failed || !ended)))
  {
    SampledGf(s);
    hide Sampled, PadOnly, EndStream, BuildChunk;
    if s.g.failed {
      FaultKeeps(s, landed);
      hide PadFault;
    } else if !s.g.streaming && Backlog(s.g.ring) == 0 {
      EndLetsGo(Sampled(s).g, landed);
    }
  }

  lemma SampledGf(s: Sys)
    requires SysSane(s)
    ensures var u := Sampled(s); u == s.(g := s.g.(laser := u.g.laser))
  {
    hide GateEdge;
  }

  lemma FaultKeeps(s: Sys, landed: bool)
    requires SysSane(s)
    ensures PadFault(s, landed).g.kernelRunning == s.g.kernelRunning
  {
    hide U32, PadWritten;
  }

  lemma EndLetsGo(g: Gf, landed: bool)
    ensures !EndStream(g, landed).kernelRunning
  {
    hide U32;
  }

  /** A chunk goes to the index due and no further, unless it is full or the stream ends
      first. */
  lemma {:induction false} ChunkReaches(b: Build, gate: bool, due: nat, streaming: bool)
    requires Sized(b.r) && b.r.shipped <= due
    ensures var c := BuildChunk(b, gate, due, streaming);
            && b.r.shipped <= c.r.shipped <= due && c.r.produced == b.r.produced
            && (c.r.shipped == due || |c.bytes| >= SHIP_CHUNK - 1 || (!streaming && c.r.shipped >= c.r.produced))
    decreases due - b.r.shipped
  {
    hide LaserTick;
    ChunkUnfolds(b, gate, due, streaming);
    if More(b, due, streaming) {
      hide BuildChunk;
      CursorMoves(b.r);
      ChunkReaches(BuildTick(b, gate), gate, due, streaming);
    }
  }

  /** A write completed goes on to the next chunk exactly while there is something to ship
      and neither a fault nor a reset landed under it; else the pass ends, and asks for
      the run it has started. */
  lemma WriteGoesOn(s: Sys)
    requires SysSane(s) && s.pc.Writing?
    ensures var t := DoWriteOk(s); var cut := s.g.failed || s.g.clearPending;
            && (t.pc.Writing? <==> !cut && Ships(s.g, s.pc.due))
            && (t.pc.Writing? ==> t.pc.due == s.pc.due && t.pc.gate == s.pc.gate && (t.pc.startRun <==> s.pc.startRun || s.pc.first))
            && (t.pc.Gating? <==> !t.pc.Writing? && (s.pc.startRun || (s.pc.first && !cut)))
            && (!t.pc.Writing? && !t.pc.Gating? ==> t.pc == Top)
  {
    TakenKeeps(s.g, s.pc.chunk);
    hide ChunkTaken, BuildChunk, Take;
  }

  lemma TakenKeeps(g: Gf, chunk: seq<Byte>)
    ensures var h := ChunkTaken(g, chunk); h == g.(written := h.written, steps := h.steps)
  {
    hide U32, Wrap, StepsOf;
  }

  /** A write that fails fails the stream, and no base or read-back survives it. */
  lemma WriteFails(s: Sys, n: nat)
    requires SysSane(s) && s.pc.Writing? && n <= |s.pc.chunk|
    ensures var t := DoWriteFail(s, n);
            && t.g.failed && !t.g.baseValid && !t.g.readback.RbWait?
            && t.pc == (if s.pc.startRun then Gating(s.g.runBase, s.g.written) else Top)
  {
    hide TakeForeign;
  }

  // ---- the run request ----

  /** The request starts the kernel; it acknowledges an underrun once, and only disarmed;
      and one refused fails the stream. */
  lemma RequestGoes(s: Sys, acked: bool)
    requires SysSane(s) && s.pc.Issuing?
    ensures ShipEnabled(s, IssueRun) ==> ShipNext(s, IssueRun) == s.(k := s.k.(st := Running), pc := Top)
    ensures ShipEnabled(s, IssueAck(acked)) <==> !s.pc.retried && s.k.st == Underrun && !s.armed
    ensures ShipEnabled(s, IssueAck(acked)) ==>
              ShipNext(s, IssueAck(acked)) ==
              s.(k := if acked then s.k.(st := Idle) else s.k, pc := Issuing(true, s.pc.counted))
    ensures var t := ShipNext(s, IssueRefused); t.g.failed && t.pc == Top && t.k == s.k
  {
    hide DoSnap, DoFinish, DoBegin, DoWriteOk, DoWriteFail, DoEmpty, DoGateRead, CanStart;
  }

  // ---- the clear to come ----

  /** A read-back that waits has its clear pending. */
  predicate Awaited(g: Gf) { g.readback.RbWait? ==> g.clearPending }

  lemma FinishAnswers(s: Sys)
    requires SysSane(s) && s.pc.Cleared?
    ensures !DoFinish(s).g.readback.RbWait? && !DoFinish(s).g.clearPending && !DoFinish(s).g.kernelRunning
  {
    hide Wrap, DitherModel.Restart;
  }

  lemma CoreAwaited(s: Sys, c: CoreStep)
    requires SysSane(s) && CoreEnabled(s, c) && Awaited(s.g)
    ensures Awaited(CoreNext(s, c).g)
  {
    hide Pulse, LaserRequest, Jog, Wakeup, GoIdle, Reset, NoStepsLeft, Signed, U32;
    match c {
      case Count(_) =>
      case Output =>
      case Advance(_) =>
      case Request(_, _) =>
      case SetJog(_) =>
      case SetModel(_) =>
      case SetArmed(_) =>
      case SetGate(_) =>
      case Wake(_) =>
      case Sleep(_) =>
      case DoReset => ResetLeaves(s.g);
      case DoReadback =>
      case ZeroPosition(_) =>
      case Fault =>
    }
  }

  lemma ShipAwaited(s: Sys, h: ShipStep)
    requires SysSane(s) && ShipEnabled(s, h) && Awaited(s.g)
    ensures Awaited(ShipNext(s, h).g)
  {
    if h.Finish? {
      FinishAnswers(s);
      hide DoFinish;
    } else {
      ShipKeepsClear(s, h);
    }
  }

  lemma ShipKeepsClear(s: Sys, h: ShipStep)
    requires SysSane(s) && ShipEnabled(s, h) && !h.Finish?
    ensures var t := ShipNext(s, h).g;
            t.clearPending == s.g.clearPending && (t.readback.RbWait? ==> s.g.readback.RbWait?)
  {
    hide DoFinish, Counters, CountsMatch, CanStart;
    match h {
      case Snap(_) => hide PadWritten, U32;
      case NotYet =>
      case Empty(_, _) =>
      case Begin(due, landed) => BeginKeepsClear(s, due, landed);
      case WriteOk => WriteKeepsClear(s);
      case WriteFail(_) => hide TakeForeign;
      case GateSkip =>
      case GateRead(_, _) =>
      case IssueRun =>
      case IssueAck(_) =>
      case IssueRefused =>
    }
  }

  lemma BeginKeepsClear(s: Sys, due: nat, landed: bool)
    requires SysSane(s) && s.pc == Ready
    ensures var t := DoBegin(s, due, landed).g; t.clearPending == s.g.clearPending && t.readback == s.g.readback
  {
    hide Sampled, ShipTurn, PadFault, FinishStream, PadWritten, U32, Backlog, PreloadWait, PadOnly;
    var u := Sampled(s);
    SampledGf(s);
    if s.g.failed {
      PadKeeps(s, PadFault(s, landed));
    } else if !s.g.streaming && Backlog(s.g.ring) == 0 {
      PadKeeps(u, FinishStream(u, landed));
    } else if !PreloadWait(s.g) {
      TurnKeepsClear(u, s.gate, due, false);
    }
  }

  lemma PadKeeps(s: Sys, t: Sys)
    requires PadOnly(s, t)
    ensures t.g.clearPending == s.g.clearPending && t.g.readback == s.g.readback
  {
    hide U32;
  }

  lemma TurnKeepsClear(s: Sys, gate: bool, due: nat, startRun: bool)
    requires SysSane(s)
    ensures var t := ShipTurn(s, gate, due, startRun).g; t.clearPending == s.g.clearPending && t.readback == s.g.readback
  {
    hide BuildChunk;
  }

  lemma WriteKeepsClear(s: Sys)
    requires SysSane(s) && s.pc.Writing?
    ensures var t := DoWriteOk(s).g; t.clearPending == s.g.clearPending && t.readback == s.g.readback
  {
    TakenKeeps(s.g, s.pc.chunk);
    hide ChunkTaken, BuildChunk, Take;
  }

  lemma StepAwaited(s: Sys, a: Step)
    requires SysSane(s) && Enabled(s, a) && Awaited(s.g)
    ensures Awaited(Next(s, a).g)
  {
    hide Awaited, CoreNext, ShipNext, CoreEnabled, ShipEnabled;
    match a {
      case ByCore(c) => CoreAwaited(s, c);
      case ByShipper(h) => ShipAwaited(s, h);
      case ByKernel(_) =>
    }
  }

  /** Over every run: a read-back that waits has its clear to come, and the clear's end
      answers it. */
  lemma {:induction false} ReadbackIsAwaited(s: Sys, steps: seq<Step>)
    requires SysSane(s) && IsRun(s, steps) && Awaited(s.g)
    ensures Awaited(Final(s, steps).g)
    ensures var t := Final(s, steps); t.pc.Cleared? ==> !DoFinish(t).g.readback.RbWait?
    decreases |steps|
  {
    hide Awaited, Next, Enabled, DoFinish;
    if steps != [] {
      StepAwaited(s, steps[0]);
      ReadbackIsAwaited(Next(s, steps[0]), steps[1..]);
    } else if s.pc.Cleared? {
      FinishAnswers(s);
    }
  }
}
