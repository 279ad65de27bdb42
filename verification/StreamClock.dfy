/** When a step plays: over every run, each accepted step takes the first stream index
    it may, and a step is refused only where it is late under an armed window or a ring
    ahead of the cursor. */
module StreamClock {
  import opened PulseBytes
  import opened StreamRing
  import opened LaserQueue
  import opened StreamEngine
  import opened StreamSystem
  import O = StreamOrder

  /** The history: the index a stream's virtual time starts at, the time since, one past
      the last step it accepted, one past the last index spoken for by steps, pads or
      preload, and the index every accepted step was due at. */
  datatype Clock = Clock(base: nat, vticks: nat, last: nat, next: nat, due: seq<nat>)

  // ---- the observer ----

  function Now(c: Clock): nat { c.base + c.vticks / VTICKS_PER_BYTE }

  /** The first index a step may take now: its own tick, the ship cursor, or one past
      the step before it in this stream. */
  function First(c: Clock, cursor: nat): nat { Largest(Now(c), cursor, c.last) }

  predicate Offered(s: Sys) { !s.g.failed && s.g.streaming && s.pend != ZERO }

  /** A step offered is taken unless it is late under an armed window or finds no room. */
  predicate Taken(c: Clock, s: Sys) {
    && Offered(s) && !(Now(c) < s.g.ring.shipped && s.armed)
    && First(c, s.g.ring.shipped) < s.g.ring.shipped + RING_SIZE - 1
  }

  /** A stream's time starts behind one depth of preload, or, while the kernel still
      plays, at the wall's index if production has not been there. */
  function Starts(c: Clock, s: Sys, dueNow: nat): Clock {
    var at := if !s.g.kernelRunning then s.g.depth else if dueNow > c.next then dueNow else c.next;
    c.(base := at, vticks := 0, last := 0, next := at)
  }

  /** A pass that ends a stream behind a lit byte spends an index on its pad. */
  predicate Pads(s: Sys) {
    !s.g.failed && !s.g.streaming && Backlog(s.g.ring) == 0 && s.g.kernelRunning && s.g.laser.lastLit
  }

  function Observe(c: Clock, s: Sys, a: Step): Clock
    requires SysSane(s) && Enabled(s, a)
  {
    match a
    case ByCore(Advance(dt)) => c.(vticks := c.vticks + dt)
    case ByCore(Wake(dueNow)) => if s.g.failed || s.g.streaming then c else Starts(c, s, dueNow)
    case ByCore(Output) =>
      var i := First(c, s.g.ring.shipped);
      if Taken(c, s) then c.(last := i + 1, next := i + 1, due := c.due + [i]) else c
    case ByCore(DoReset) =>
      if s.g.streaming || s.g.killed || s.g.failed then c.(next := s.g.ring.shipped) else c
    case ByShipper(Begin(_, _)) => if Pads(s) then c.(next := s.g.ring.shipped + 1) else c
    case _ => c
  }

  // ---- the invariant ----

  function Indices(evs: seq<Event>): (r: seq<nat>)
    ensures |r| == |evs|
  {
    seq(|evs|, i requires 0 <= i < |evs| => evs[i].idx)
  }

  /** The ring's clock is this one. */
  predicate Timed(c: Clock, r: Ring, streaming: bool) {
    && c.base == r.base && c.vticks == r.vticks && c.next == r.produced
    && (streaming ==> r.produced == if c.base < c.last then c.last else c.base)
  }

  lemma FirstIs(c: Clock, r: Ring)
    requires Timed(c, r, true)
    ensures Now(c) == TickNow(r) && First(c, r.shipped) == Place(r)
  {
  }

  /** What is taken is what the engine accepts, at its place. */
  lemma TakenIs(c: Clock, s: Sys)
    requires Timed(c, s.g.ring, s.g.streaming)
    ensures Taken(c, s) <==> O.Accepts(s)
    ensures Taken(c, s) ==> First(c, s.g.ring.shipped) == Place(s.g.ring) && Now(c) == TickNow(s.g.ring)
  {
    if s.g.streaming { FirstIs(c, s.g.ring); }
    hide First, Place, Now, TickNow, Timed;
  }

  /** What an offered step leaves, said without the engine's own placing: the slot of its
      first index, or a fault. */
  predicate PulsesTo(c: Clock, s: Sys, u: Gf)
    requires Sane(s.g)
  {
    var i := First(c, s.g.ring.shipped);
    u == if !Offered(s) then s.g
         else if !Taken(c, s) then s.g.(failed := true)
         else s.g.(ring := s.g.ring.(slots := s.g.ring.slots[i % RING_SIZE := s.pend], produced := i + 1))
  }

  lemma PulseIs(c: Clock, s: Sys)
    requires SysSane(s) && Timed(c, s.g.ring, s.g.streaming)
    ensures PulsesTo(c, s, Pulse(s.g, s.armed, s.pend))
  {
    TakenIs(c, s);
    hide First, Place, Now, Timed;
  }

  // ---- every step ----

  lemma OutputTimed(c: Clock, s: Sys)
    requires SysSane(s) && Timed(c, s.g.ring, s.g.streaming)
    ensures var t := CoreNext(s, Output); Timed(Observe(c, s, ByCore(Output)), t.g.ring, t.g.streaming)
  {
    PulseIs(c, s);
    hide Pulse;
    if Taken(c, s) { FirstIs(c, s.g.ring); }
  }

  lemma WakeTimed(c: Clock, s: Sys, dueNow: nat)
    requires SysSane(s) && Timed(c, s.g.ring, s.g.streaming)
    ensures var h := Wakeup(s.g, s.armed, dueNow);
            Timed(if s.g.failed || s.g.streaming then c else Starts(c, s, dueNow), h.ring, h.streaming)
  {
    hide Reassert;
  }

  lemma ResetTimed(c: Clock, g: Gf)
    requires Sane(g) && Timed(c, g.ring, g.streaming)
    ensures var h := Reset(g);
            Timed(if g.streaming || g.killed || g.failed then c.(next := g.ring.shipped) else c, h.ring, h.streaming)
  {
    hide DropSlots, Wrap, DarkStop;
  }

  lemma QuietTimed(s: Sys, c: CoreStep)
    requires SysSane(s) && CoreEnabled(s, c) && !c.Output? && !c.Wake? && !c.DoReset?
    ensures var r, t := s.g.ring, CoreNext(s, c).g;
            && t.ring == (if c.Advance? then r.(vticks := r.vticks + c.vticks) else r)
            && (t.streaming ==> s.g.streaming)
  {
    hide Pulse, Wakeup, Reset, NoStepsLeft, Signed, U32, EnqueueOff;
    match c {
      case Count(_) =>
      case Advance(_) =>
      case Request(_, _) =>
      case SetJog(_) =>
      case SetModel(_) =>
      case SetArmed(_) =>
      case SetGate(_) =>
      case Sleep(_) =>
      case DoReadback =>
      case ZeroPosition(_) =>
      case Fault =>
    }
  }

  lemma CoreTimed(c: Clock, s: Sys, a: CoreStep)
    requires SysSane(s) && CoreEnabled(s, a) && Timed(c, s.g.ring, s.g.streaming)
    ensures var t := CoreNext(s, a).g; Timed(Observe(c, s, ByCore(a)), t.ring, t.streaming)
  {
    if a.Output? {
      OutputTimed(c, s);
    } else if a.Wake? {
      WakeTimed(c, s, a.dueNow);
      hide Wakeup, Timed, Starts;
    } else if a.DoReset? {
      ResetTimed(c, s.g);
      hide Reset, Timed;
    } else {
      QuietTimed(s, a);
      hide CoreNext, CoreEnabled;
    }
  }

  lemma TurnTimed(s: Sys, gate: bool, due: nat, startRun: bool)
    requires SysSane(s)
    ensures var r, t := s.g.ring, ShipTurn(s, gate, due, startRun).g;
            && t.ring.base == r.base && t.ring.vticks == r.vticks && t.ring.produced == r.produced
            && t.streaming == s.g.streaming
  {
    hide BuildChunk, Sized, PassEnd;
    var b := Build(s.g.laser, s.g.ring, []);
    if ShipMore(s.g, due) {
      ChunkTimed(b, gate, due, s.g.streaming);
      assert ShipTurn(s, gate, due, startRun).g.ring == BuildChunk(b, gate, due, s.g.streaming).r;
    } else {
      assert PassEnd(s, startRun).g == s.g by { PassEndSame(s, startRun); }
    }
  }

  lemma PassEndSame(s: Sys, startRun: bool)
    ensures PassEnd(s, startRun).g == s.g
  {
  }

  lemma {:induction false} ChunkTimed(b: Build, gate: bool, due: nat, streaming: bool)
    requires Sized(b.r)
    ensures var r := BuildChunk(b, gate, due, streaming).r;
            r.base == b.r.base && r.vticks == b.r.vticks && r.produced == b.r.produced
    decreases due - b.r.shipped
  {
    hide LaserTick;
    ChunkUnfolds(b, gate, due, streaming);
    if More(b, due, streaming) {
      hide BuildChunk;
      ChunkTimed(BuildTick(b, gate), gate, due, streaming);
    }
  }

  lemma EndTimed(g: Gf, landed: bool)
    ensures var r, h := g.ring, EndStream(g, landed);
            && h.ring.base == r.base && h.ring.vticks == r.vticks && h.streaming == g.streaming
            && h.ring.produced == if g.kernelRunning && g.laser.lastLit then r.shipped + 1 else r.produced
  {
    hide U32;
  }

  lemma BeginTimed(c: Clock, s: Sys, due: nat, landed: bool)
    requires SysSane(s) && s.pc == Ready && Timed(c, s.g.ring, s.g.streaming)
    ensures var t := DoBegin(s, due, landed).g; Timed(Observe(c, s, ByShipper(Begin(due, landed))), t.ring, t.streaming)
  {
    var u := Sampled(s);
    SampledRing(s);
    hide Sampled, ShipTurn, PadFault, EndStream, PadOnly, U32;
    if s.g.failed {
      FaultTimed(s, landed);
    } else if !s.g.streaming && Backlog(s.g.ring) == 0 {
      EndTimed(u.g, landed);
    } else if !PreloadWait(s.g) {
      TurnTimed(u, s.gate, due, false);
    }
  }

  lemma SampledRing(s: Sys)
    requires SysSane(s)
    ensures var u := Sampled(s);
            u.g == s.g.(laser := u.g.laser) && u.g.laser.lastLit == s.g.laser.lastLit && u == s.(g := u.g)
  {
    hide Darkened, DitherModel.Restart;
  }

  lemma FaultTimed(s: Sys, landed: bool)
    requires SysSane(s)
    ensures PadFault(s, landed).g.ring == s.g.ring && PadFault(s, landed).g.streaming == s.g.streaming
  {
    hide U32, PadWritten;
  }

  lemma WriteTimed(s: Sys)
    requires SysSane(s) && s.pc.Writing?
    ensures var r, t := s.g.ring, DoWriteOk(s).g;
            && t.ring.base == r.base && t.ring.vticks == r.vticks && t.ring.produced == r.produced
            && t.streaming == s.g.streaming
  {
    var u := s.(g := ChunkTaken(s.g, s.pc.chunk), k := Take(s.k, s.pc.chunk));
    TurnTimed(u, s.pc.gate, s.pc.due, s.pc.startRun || s.pc.first);
    hide ShipTurn, U32, Wrap, StepsOf;
  }

  lemma PlainTimed(s: Sys, h: ShipStep)
    requires SysSane(s) && ShipEnabled(s, h) && !h.Begin? && !h.WriteOk?
    ensures ShipNext(s, h).g.ring == s.g.ring && ShipNext(s, h).g.streaming == s.g.streaming
  {
    hide DoBegin, DoWriteOk, Counters, CountsMatch, CanStart, U32, Wrap, OwedResidue;
    match h {
      case Snap(_) =>
      case NotYet =>
      case Empty(_, _) =>
      case Finish => FinishTimed(s);
      case WriteFail(_) =>
      case GateSkip =>
      case GateRead(_, _) =>
      case IssueRun =>
      case IssueAck(_) =>
      case IssueRefused =>
    }
  }

  lemma FinishTimed(s: Sys)
    requires SysSane(s) && s.pc.Cleared?
    ensures DoFinish(s).g.ring == s.g.ring && DoFinish(s).g.streaming == s.g.streaming
  {
    hide OwedResidue;
  }

  lemma StepTimed(c: Clock, s: Sys, a: Step)
    requires SysSane(s) && Enabled(s, a) && Timed(c, s.g.ring, s.g.streaming)
    ensures var t := Next(s, a).g; Timed(Observe(c, s, a), t.ring, t.streaming)
  {
    match a {
      case ByCore(b) => CoreTimed(c, s, b);
      case ByShipper(h) => ShipTimed(c, s, h);
      case ByKernel(_) => hide Timed;
    }
  }

  lemma ShipTimed(c: Clock, s: Sys, h: ShipStep)
    requires SysSane(s) && ShipEnabled(s, h) && Timed(c, s.g.ring, s.g.streaming)
    ensures var t := ShipNext(s, h).g; Timed(Observe(c, s, ByShipper(h)), t.ring, t.streaming)
  {
    if h.Begin? {
      BeginTimed(c, s, h.due, h.landed);
      hide DoBegin, Timed;
    } else if h.WriteOk? {
      WriteTimed(s);
      hide DoWriteOk;
    } else {
      PlainTimed(s, h);
      hide ShipNext, ShipEnabled;
    }
  }

  /** What a step accepts. */
  lemma StepPlaced(c: Clock, o: O.Track, s: Sys, a: Step)
    requires SysSane(s) && Enabled(s, a) && Timed(c, s.g.ring, s.g.streaming) && c.due == Indices(o.accepted)
    ensures Observe(c, s, a).due == Indices(O.Observe(o, s, a).accepted)
  {
    hide ShipNext, ShipEnabled, O.Accepts, Taken, Place, First, Timed;
    TakenIs(c, s);
  }

  // ---- whole runs ----

  ghost function Watched(c: Clock, s: Sys, steps: seq<Step>): Clock
    requires SysSane(s) && IsRun(s, steps)
    decreases |steps|
  {
    if steps == [] then c else Watched(Observe(c, s, steps[0]), Next(s, steps[0]), steps[1..])
  }

  lemma {:induction false} RunTimed(c: Clock, o: O.Track, s: Sys, steps: seq<Step>)
    requires SysSane(s) && IsRun(s, steps) && Timed(c, s.g.ring, s.g.streaming) && c.due == Indices(o.accepted)
    ensures var d, t := Watched(c, s, steps), Final(s, steps).g;
            Timed(d, t.ring, t.streaming) && d.due == Indices(O.Watched(o, s, steps).accepted)
    decreases |steps|
  {
    hide Timed, Next, Enabled, Observe, O.Observe, Indices;
    if steps != [] {
      StepTimed(c, s, steps[0]);
      StepPlaced(c, o, s, steps[0]);
      RunTimed(Observe(c, s, steps[0]), O.Observe(o, s, steps[0]), Next(s, steps[0]), steps[1..]);
    }
  }

  /** The clock of a start. */
  function Started(s: Sys): Clock {
    Clock(s.g.ring.base, s.g.ring.vticks, s.g.ring.produced, s.g.ring.produced, [])
  }

  /** Every step at its first index, over every run. Each accepted step has taken the
      largest of its virtual tick, the ship cursor when it was accepted, and one past the
      step accepted before it in the same stream. Whatever a run reaches, the next step
      offered is accepted so, or else it is late under an armed window or finds that index
      a ring ahead of the cursor, and the stream fails. */
  lemma StepsAtTheirFirstIndex(s: Sys, steps: seq<Step>)
    requires Initial(s) && IsRun(s, steps)
    ensures var c, t := Watched(Started(s), s, steps), Final(s, steps);
            && Indices(O.Watched(O.START, s, steps).accepted) == c.due
            && PulsesTo(c, t, Pulse(t.g, t.armed, t.pend))
            && (O.Accepts(t) <==> Taken(c, t))
  {
    hide IsRun, Final, Watched, O.Watched, Pulse, Taken, O.Accepts, PulsesTo;
    RunTimed(Started(s), O.START, s, steps);
    PulseIs(Watched(Started(s), s, steps), Final(s, steps));
    TakenIs(Watched(Started(s), s, steps), Final(s, steps));
  }
}
