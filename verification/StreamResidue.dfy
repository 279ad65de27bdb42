/** No residue replay: a run starts only over the bytes its own stream wrote,
    whatever other writers stopped or added before it and however the byte
    counters have wrapped. */
module StreamResidue {
  import opened PulseBytes
  import opened StreamRing
  import opened LaserQueue
  import opened StreamEngine
  import opened StreamSystem

  /** The bytes of the kernel ring that this process's count holds. */
  function Own(k: Kernel): int { |k.taken| - k.foreign }

  /** The history of the run being started: this process's count at its first
      chunk, the bytes it has written since, whether no other byte landed since, nor
      since the gate last read; the kernel state that reading found; and where the ring
      stood when the kernel last ran dry. */
  datatype Log = Log(start: int, run: seq<Byte>, clean: bool, quiet: bool, seen: KState, drained: nat)

  function ObserveShip(g: Log, s: Sys, h: ShipStep): Log
    requires SysSane(s) && ShipEnabled(s, h)
  {
    var t := ShipNext(s, h);
    if (h.Begin? || h.WriteOk?) && t.pc.Writing? && t.pc.first then g.(start := Own(t.k), run := [], clean := true)
    else if h.WriteOk? then g.(run := g.run + s.pc.chunk)
    else if h.WriteFail? then g.(clean := g.clean && h.n == 0)
    else if h.GateRead? then g.(quiet := true, seen := s.k.st)
    else if h.Empty? && h.seekOk then g.(drained := 0)
    else g
  }

  function Observe(g: Log, s: Sys, a: Step): Log
    requires SysSane(s) && Enabled(s, a)
  {
    match a
    case ByShipper(h) => ObserveShip(g, s, h)
    case ByKernel(Foreign(bytes)) => g.(clean := g.clean && bytes == [], quiet := g.quiet && bytes == [])
    case ByKernel(KernelTo(Underrun)) => g.(drained := |s.k.taken|)
    case _ => g
  }

  /** The shipper is starting a run, or deciding whether to. */
  predicate Starting(pc: Pc) { (pc.Writing? && (pc.first || pc.startRun)) || pc.Gating? || pc.Issuing? }

  /** The run's own bytes are the last the ring took. */
  predicate RunBehind(g: Log, k: Kernel) {
    |g.run| <= |k.taken| && k.taken[|k.taken| - |g.run|..] == g.run
  }

  predicate Counted(s: Sys) {
    if s.pc.Cleared? && s.pc.cleared then Own(s.k) == 0 else s.g.written == U32(Own(s.k))
  }

  predicate RunCounted(g: Log, s: Sys) {
    Starting(s.pc) ==>
      && s.g.runBase == U32(g.start) && |g.run| == Own(s.k) - g.start
      && (if g.clean then RunBehind(g, s.k) else s.k.foreign > 0)
  }

  predicate GatePassed(g: Log, s: Sys) {
    && (s.pc.Gating? ==> s.pc.base == s.g.runBase && s.pc.written == s.g.written)
    && (s.pc.Issuing? && s.pc.counted ==>
          s.k.st != Running && (g.quiet ==> CountsMatch(s.k, s.g.runBase, s.g.written)))
  }

  /** What the gate read before this request. */
  predicate Read(g: Log, s: Sys) {
    s.pc.Issuing? ==> if s.pc.counted then g.seen == Idle || g.seen == Disabled else g.seen == Underrun || g.seen == Faulted
  }

  /** The kernel stands where it last ran dry: it reads underrun, or the gate read so,
      or the request has acknowledged one. */
  predicate Dry(g: Log, s: Sys) {
    s.k.st == Underrun || (s.pc.Issuing? && (s.pc.retried || g.seen == Underrun))
  }

  predicate Drained(g: Log, s: Sys) {
    Dry(g, s) ==> s.k.st != Running && s.k.processed == g.drained
  }

  predicate Watertight(g: Log, s: Sys) {
    KernelSane(s.k) && Counted(s) && RunCounted(g, s) && GatePassed(g, s) && Drained(g, s) && Read(g, s)
  }

  // ---- every step ----

  /** The core touches neither the kernel's ring nor the byte counts. */
  lemma CoreKeeps(g: Log, s: Sys, c: CoreStep)
    requires SysSane(s) && CoreEnabled(s, c) && Watertight(g, s)
    ensures Watertight(g, CoreNext(s, c))
  {
    CoreCounts(s, c);
    hide CoreNext, CoreEnabled;
    SameCounts(g, s, CoreNext(s, c));
  }

  lemma SameCounts(g: Log, s: Sys, t: Sys)
    requires Watertight(g, s)
    requires t.pc == s.pc && t.k == s.k.(zeroed := t.k.zeroed)
    requires t.g.written == s.g.written && t.g.runBase == s.g.runBase
    ensures Watertight(g, t)
  {
    hide U32, Starting;
  }

  lemma CoreCounts(s: Sys, c: CoreStep)
    requires SysSane(s) && CoreEnabled(s, c)
    ensures var t := CoreNext(s, c);
            && t.pc == s.pc && t.k == s.k.(zeroed := t.k.zeroed)
            && t.g.written == s.g.written && t.g.runBase == s.g.runBase
  {
    hide Pulse, LaserRequest, Jog, Wakeup, GoIdle, Reset;
    match c {
      case Count(_) =>
      case Output =>
      case Advance(_) =>
      case Request(_, _) =>
      case SetJog(_) =>
      case SetModel(_) =>
      case SetArmed(_) =>
      case SetGate(_) =>
      case Wake(_) =>
      case Sleep(_) =>
      case DoReset =>
      case DoReadback =>
      case ZeroPosition(_) =>
      case Fault =>
    }
  }

  lemma KernelKeeps(g: Log, s: Sys, e: KernelStep)
    requires SysSane(s) && KernelEnabled(s, e) && Watertight(g, s)
    ensures Watertight(Observe(g, s, ByKernel(e)), KernelNext(s, e))
  {
    hide U32, Starting, Wrap;
    match e {
      case Play => PlayKeeps(g, s);
      case KernelTo(_) =>
      case Foreign(bytes) => ForeignKeeps(g, s, bytes);
    }
  }

  lemma PlayKeeps(g: Log, s: Sys)
    requires SysSane(s) && KernelEnabled(s, Play) && Watertight(g, s)
    ensures Watertight(g, s.(k := PlayOne(s.k)))
  {
    hide U32, Starting, Plus, ByteSteps, CountsMatch;
  }

  lemma ForeignKeeps(g: Log, s: Sys, bytes: seq<Byte>)
    requires SysSane(s) && Watertight(g, s)
    ensures Watertight(g.(clean := g.clean && bytes == [], quiet := g.quiet && bytes == []),
                       s.(k := TakeForeign(s.k, bytes)))
  {
    hide U32, Starting;
    if bytes == [] { assert s.k.taken + bytes == s.k.taken; }
  }

  // ---- the shipper ----

  lemma U32Next(x: int, n: nat)
    ensures U32(U32(x) + n) == U32(x + n)
  {
    U32Add(x, n);
  }

  /** A landed pad is one more byte of this process's. */
  lemma PadKeeps(g: Log, s: Sys, t: Sys)
    requires Watertight(g, s) && PadOnly(s, t) && !Starting(t.pc)
    requires !(s.pc.Cleared? && s.pc.cleared) && !t.pc.Cleared?
    ensures Watertight(g, t)
  {
    U32Next(Own(s.k), 1);
  }

  /** A shipping turn after own completed bytes: a new chunk starts a run or
      carries it on. */
  lemma TurnKeeps(g: Log, s: Sys, gate: bool, due: nat, startRun: bool)
    requires SysSane(s) && Drained(g, s.(pc := Top)) && s.g.written == U32(Own(s.k))
    requires startRun ==> RunCounted(g, s.(pc := Gating(0, 0)))
    ensures var t := ShipTurn(s, gate, due, startRun);
            var f := if t.pc.Writing? && t.pc.first then g.(start := Own(t.k), run := [], clean := true) else g;
            Watertight(f, t)
  {
    hide BuildChunk;
  }

  lemma BeginKeeps(g: Log, s: Sys, due: nat, landed: bool)
    requires SysSane(s) && s.pc == Ready && Watertight(g, s)
    ensures Watertight(ObserveShip(g, s, Begin(due, landed)), DoBegin(s, due, landed))
  {
    hide Watertight, ShipTurn, FinishStream, PadFault, GateEdge, Own;
    var t, u := DoBegin(s, due, landed), Sampled(s);
    SampleKeeps(g, s);
    if s.g.failed {
      PadKeeps(g, s, t);
    } else if !s.g.streaming && Backlog(s.g.ring) == 0 {
      PadKeeps(g, u, t);
    } else if PreloadWait(s.g) {
      PadKeeps(g, u, t);
    } else {
      TurnKeeps(g, u, s.gate, due, false);
    }
  }

  lemma SampleKeeps(g: Log, s: Sys)
    requires SysSane(s) && s.pc == Ready && Watertight(g, s)
    ensures var u := Sampled(s);
            Watertight(g, u) && Drained(g, u.(pc := Top)) && u.g.written == U32(Own(u.k))
  {
    hide GateEdge;
  }

  /** The chunk is now the ring's, and the run's. */
  lemma ChunkCounted(g: Log, s: Sys, u: Sys)
    requires SysSane(s) && s.pc.Writing? && Watertight(g, s)
    requires u == s.(g := ChunkTaken(s.g, s.pc.chunk), k := Take(s.k, s.pc.chunk))
    ensures u.g.written == U32(Own(u.k)) && Drained(g, u.(pc := Top))
    ensures Starting(s.pc) ==> RunCounted(g.(run := g.run + s.pc.chunk), u.(pc := Gating(0, 0)))
  {
    U32Next(Own(s.k), |s.pc.chunk|);
    if Starting(s.pc) && g.clean {
      var n := |s.k.taken| - |g.run|;
      assert u.k.taken[n..] == s.k.taken[n..] + s.pc.chunk;
    }
  }

  /** The pass over: a run is due, or not. */
  lemma EndKeeps(g: Log, s: Sys, startRun: bool)
    requires SysSane(s) && Drained(g, s.(pc := Top)) && s.g.written == U32(Own(s.k))
    requires startRun ==> RunCounted(g, s.(pc := Gating(0, 0)))
    ensures Watertight(g, PassEnd(s, startRun))
  {
    hide U32, Own;
  }

  lemma WriteKeeps(g: Log, s: Sys)
    requires SysSane(s) && s.pc.Writing? && Watertight(g, s)
    ensures Watertight(ObserveShip(g, s, WriteOk), DoWriteOk(s))
  {
    var u := s.(g := ChunkTaken(s.g, s.pc.chunk), k := Take(s.k, s.pc.chunk));
    ChunkCounted(g, s, u);
    hide ShipTurn, ChunkTaken, Take, Own, U32, Drained;
    var f := g.(run := g.run + s.pc.chunk);
    if u.g.failed || u.g.clearPending {
      EndKeeps(f, u, s.pc.startRun);
    } else {
      TurnKeeps(f, u, s.pc.gate, s.pc.due, s.pc.startRun || s.pc.first);
    }
    hide Watertight, RunCounted;
  }

  lemma ClearKeeps(g: Log, s: Sys, h: ShipStep)
    requires SysSane(s) && ShipEnabled(s, h) && Watertight(g, s)
    requires h.NotYet? || h.Empty? || h.Finish? || h.Snap?
    ensures Watertight(ObserveShip(g, s, h), ShipNext(s, h))
  {
    hide DoSnap, DoFinish;
    match h {
      case Snap(landed) => PadKeeps(g, s, DoSnap(s, landed));
      case NotYet =>
      case Empty(_, _) =>
      case Finish => FinishKeeps(g, s);
      case _ =>
    }
  }

  lemma FinishKeeps(g: Log, s: Sys)
    requires SysSane(s) && s.pc.Cleared? && Watertight(g, s)
    ensures Watertight(g, DoFinish(s))
  {
    FinishWritten(s.g, s.pc.cleared, s.pc.counted, s.pc.counts, s.pc.zeros);
    hide FinishClear;
  }

  lemma FinishWritten(g: Gf, cleared: bool, counted: bool, counts: Vec, zeros: nat)
    ensures FinishClear(g, cleared, counted, counts, zeros).written == (if cleared then 0 else g.written)
  {
  }

  lemma DecideKeeps(g: Log, s: Sys, h: ShipStep)
    requires SysSane(s) && ShipEnabled(s, h) && Watertight(g, s)
    requires h.GateSkip? || h.GateRead? || h.IssueRun? || h.IssueAck? || h.IssueRefused? || h.WriteFail?
    ensures Watertight(ObserveShip(g, s, h), ShipNext(s, h))
  {
    hide DoSnap, DoFinish, DoBegin, DoWriteOk, DoEmpty, DoGateRead, DoWriteFail, Counters;
    match h {
      case GateSkip =>
      case GateRead(stateOk, countsOk) => GateKeeps(g, s, stateOk, countsOk);
      case IssueRun =>
      case IssueAck(_) =>
      case IssueRefused =>
      case WriteFail(n) => FailKeeps(g, s, n);
      case _ =>
    }
  }

  lemma GateKeeps(g: Log, s: Sys, stateOk: bool, countsOk: bool)
    requires SysSane(s) && s.pc.Gating? && Watertight(g, s)
    ensures Watertight(g.(quiet := true, seen := s.k.st), DoGateRead(s, stateOk, countsOk))
  {
    GateOutcome(s, stateOk, countsOk);
    hide DoGateRead, U32, Own, Processed, Tally, CountsMatch;
  }

  lemma GateOutcome(s: Sys, stateOk: bool, countsOk: bool)
    requires SysSane(s) && s.pc.Gating?
    ensures var t := DoGateRead(s, stateOk, countsOk);
            && t.k == s.k && t.g == s.g.(failed := t.g.failed)
            && (t.pc == Top
                || (t.pc == Issuing(false, false) && (s.k.st == Underrun || s.k.st == Faulted))
                || (t.pc == Issuing(false, true) && (s.k.st == Idle || s.k.st == Disabled)
                    && CountsMatch(s.k, s.pc.base, s.pc.written)))
  {
    hide CountsMatch;
  }

  lemma FailKeeps(g: Log, s: Sys, n: nat)
    requires SysSane(s) && s.pc.Writing? && n <= |s.pc.chunk| && Watertight(g, s)
    ensures Watertight(ObserveShip(g, s, WriteFail(n)), DoWriteFail(s, n))
  {
    assert n == 0 ==> s.k.taken + s.pc.chunk[..n] == s.k.taken;
  }

  lemma StepKeeps(g: Log, s: Sys, a: Step)
    requires SysSane(s) && Enabled(s, a) && Watertight(g, s)
    ensures Watertight(Observe(g, s, a), Next(s, a))
  {
    hide Watertight, CoreNext, KernelNext, DoSnap, DoBegin, DoWriteOk, DoFinish, DoGateRead, DoEmpty, DoWriteFail;
    match a
    case ByCore(c) => CoreKeeps(g, s, c);
    case ByKernel(e) => KernelKeeps(g, s, e);
    case ByShipper(h) =>
      if h.Begin? {
        BeginKeeps(g, s, h.due, h.landed);
      } else if h.WriteOk? {
        WriteKeeps(g, s);
      } else if h.NotYet? || h.Empty? || h.Finish? || h.Snap? {
        ClearKeeps(g, s, h);
      } else {
        DecideKeeps(g, s, h);
      }
  }

  // ---- whole runs ----

  const START: Log := Log(0, [], true, true, Idle, 0)

  ghost function Watched(g: Log, s: Sys, steps: seq<Step>): Log
    requires SysSane(s) && IsRun(s, steps)
    decreases |steps|
  {
    if steps == [] then g else Watched(Observe(g, s, steps[0]), Next(s, steps[0]), steps[1..])
  }

  lemma StartsTight(s: Sys)
    requires Initial(s)
    ensures Watertight(START, s)
  {
  }

  lemma {:induction false} RunKeeps(g: Log, s: Sys, steps: seq<Step>)
    requires SysSane(s) && IsRun(s, steps) && Watertight(g, s)
    ensures Watertight(Watched(g, s, steps), Final(s, steps))
    decreases |steps|
  {
    hide Watertight, Next, Observe;
    if steps != [] {
      StepKeeps(g, s, steps[0]);
      RunKeeps(Observe(g, s, steps[0]), Next(s, steps[0]), steps[1..]);
    }
  }

  /** The arithmetic of the gate: counts that match modulo 2^32 match exactly when
      the two windows are shorter than a lap of the counter. */
  lemma GateArithmetic(total: int, foreign: nat, processed: int, start: int, run: int, queue: int)
    requires run == total - foreign - start && queue == total - processed
    requires 0 <= run < M32 && 0 <= queue < M32 && U32(processed) == U32(start)
    ensures queue == run <==> U32(foreign) == 0
  {
    U32Equal(processed, start);
    U32Equal(foreign, 0);
    assert queue - run == foreign - (processed - start);
    var p := (processed - start) / M32;
    assert processed - start == p * M32;
    if U32(foreign) == 0 {
      var q := foreign / M32;
      assert foreign == q * M32;
      assert queue - run == (q - p) * M32;
    }
  }

  /** What the gate's counts prove of the state they passed. */
  lemma GateProves(g: Log, s: Sys)
    requires SysSane(s) && Watertight(g, s) && s.pc.Issuing? && s.pc.counted && g.quiet
    requires |Queue(s.k)| < M32 && |g.run| < M32
    ensures |s.k.taken| < M32 - 1 ==> s.k.foreign == 0 && g.clean
    ensures g.clean ==> (Queue(s.k) == g.run <==> U32(s.k.foreign) == 0)
  {
    var k := s.k;
    GateArithmetic(|k.taken|, k.foreign, k.processed, g.start, |g.run|, |Queue(k)|);
    if |k.taken| < M32 - 1 {
      assert U32(Own(k)) == Own(k);
    }
    if |Queue(k)| == |g.run| {
      assert k.processed == |k.taken| - |g.run|;
    }
  }

  /** Two ends of one ring are the same bytes exactly when they are as long. */
  lemma EndsMatch(g: Log, k: Kernel)
    requires KernelSane(k) && RunBehind(g, k)
    ensures Queue(k) == g.run <==> k.processed + |g.run| == |k.taken|
  {
  }

  /** What a request that starts the kernel plays, whichever way it came about. */
  lemma StartPlays(g: Log, t: Sys)
    requires SysSane(t) && Watertight(g, t) && ShipEnabled(t, IssueRun)
    ensures g.clean ==> (Queue(t.k) == g.run <==> t.k.processed + |g.run| == |t.k.taken|)
    ensures t.pc.retried || g.seen == Underrun ==>
              && g.drained <= |t.k.taken| && Queue(t.k) == t.k.taken[g.drained..]
              && (g.clean ==> (Queue(t.k) == g.run <==> g.drained + |g.run| == |t.k.taken|))
    ensures !t.pc.counted ==> (g.seen == Underrun || g.seen == Faulted) && t.k.st != g.seen
  {
    if g.clean { EndsMatch(g, t.k); }
  }

  /** No residue replay, over every request that starts the kernel in every run.
      With no other writer since the run began, what plays is exactly this run's bytes
      if and only if the kernel has played everything the ring took before them.
      - Counts read: whatever other writers stopped or added before the gate read, what
        plays is exactly this run's bytes, and none in the ring is another's, until the
        tally saturates; past that, if and only if the bytes that are not this
        process's number a multiple of 2^32 since the last clear.
      - An underrun read, or acknowledged: what plays is what the ring took since the
        kernel ran dry, so exactly this run if and only if nothing else came between.
      - No counts read: the gate found an underrun or a fault, and the kernel has left
        that state since. */
  lemma NoResidueReplay(s: Sys, steps: seq<Step>)
    requires Initial(s) && IsRun(s, steps) && ShipEnabled(Final(s, steps), IssueRun)
    ensures var t := Final(s, steps); var g := Watched(START, s, steps);
            && (g.clean ==> (Queue(t.k) == g.run <==> t.k.processed + |g.run| == |t.k.taken|))
            && (t.pc.counted && g.quiet && |Queue(t.k)| < M32 && |g.run| < M32 ==>
                  && (|t.k.taken| < M32 - 1 ==> Queue(t.k) == g.run && t.k.foreign == 0)
                  && (g.clean ==> (Queue(t.k) == g.run <==> U32(t.k.foreign) == 0)))
            && (t.pc.retried || g.seen == Underrun ==>
                  && g.drained <= |t.k.taken| && Queue(t.k) == t.k.taken[g.drained..]
                  && (g.clean ==> (Queue(t.k) == g.run <==> g.drained + |g.run| == |t.k.taken|)))
            && (!t.pc.counted ==> (g.seen == Underrun || g.seen == Faulted) && t.k.st != g.seen)
  {
    var t, g := Final(s, steps), Watched(START, s, steps);
    StartsTight(s);
    RunKeeps(START, s, steps);
    hide IsRun, Final, Watched, Initial, Watertight, RunBehind;
    StartPlays(g, t);
    if t.pc.counted && g.quiet && |Queue(t.k)| < M32 && |g.run| < M32 { GateProves(g, t); }
  }

  /** The gate lets a run through whose ring holds no other's byte and has played all it
      took before the run: what it refuses, something else is in the way of. */
  lemma OwnRunPasses(s: Sys, steps: seq<Step>)
    requires Initial(s) && IsRun(s, steps) && Final(s, steps).pc.Gating?
    ensures var t, g := Final(s, steps), Watched(START, s, steps);
            t.k.foreign == 0 && t.k.processed + |g.run| == |t.k.taken| ==>
              CountsMatch(t.k, t.pc.base, t.pc.written)
  {
    StartsTight(s);
    RunKeeps(START, s, steps);
    hide IsRun, Final, Watched, Initial;
    OwnPasses(Watched(START, s, steps), Final(s, steps));
  }

  lemma OwnPasses(g: Log, t: Sys)
    requires Watertight(g, t) && t.pc.Gating?
    ensures t.k.foreign == 0 && t.k.processed + |g.run| == |t.k.taken| ==> CountsMatch(t.k, t.pc.base, t.pc.written)
  {
    hide Drained, Read, RunBehind;
  }

  /** What the gate makes of its reading: a running kernel takes the bytes behind what it
      plays; an underrun or a fault is the request's to settle; an idle or disabled one
      is started on matching counts; and anything else fails the stream. */
  lemma GateDecides(s: Sys, stateOk: bool, countsOk: bool)
    requires SysSane(s) && s.pc.Gating?
    ensures var t, st := DoGateRead(s, stateOk, countsOk), s.k.st;
            var passes := countsOk && CountsMatch(s.k, s.pc.base, s.pc.written);
            && (t.pc.Issuing? <==> stateOk && st != Running && (st == Underrun || st == Faulted || passes))
            && (t.pc.Issuing? ==> !t.pc.retried && (t.pc.counted <==> st == Idle || st == Disabled))
            && (t.g.failed <==> s.g.failed || !stateOk || ((st == Idle || st == Disabled) && !passes))
            && (!t.pc.Issuing? ==> t.pc == Top) && t.k == s.k
  {
    hide CountsMatch;
  }
}
