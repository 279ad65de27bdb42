/** When the read-back is right: the residue the engine computes is the steps of the
    bytes in the kernel's ring. Exactly when a step keeps that so, and exactly when it
    loses nothing, is a guard to check before it; a run that keeps to the guards loses
    nothing. */
module StreamReadback {
  import opened PulseBytes
  import opened DitherModel
  import opened StreamRing
  import opened LaserQueue
  import opened StreamEngine
  import opened StreamSystem
  import opened StreamOrder
  import opened StreamPosition

  // ---- the guards ----

  /** A clear is under way whose snapshot a counter zero has made stale. */
  predicate StaleClear(s: Sys) { Clearing(s.pc) && s.pc.zeros != s.g.zeros }

  predicate Clearing(pc: Pc) { pc.Snapped? || pc.Cleared? }

  /** A clear has removed the ring's bytes and not taken its base yet. */
  predicate Removed(pc: Pc) { pc.Cleared? && pc.cleared }

  /** Steps that no 32-bit counter can tell from none. */
  predicate Nothing(v: Vec) { Cong(v, ZERO) }

  /** A reset that will owe the read-back. */
  predicate Marked(g: Gf) { g.killed && !g.failed }

  /** What a reset that owes nothing drops: the slots' steps, and a mark. */
  function Dropping(g: Gf): Vec
    requires Sane(g)
  {
    if g.streaming || g.killed || g.failed then Plus(Drop(g.ring).1, KillOwed(g)) else ZERO
  }

  /** A core step that loses nothing. */
  predicate CoreSpares(s: Sys, c: CoreStep)
    requires SysSane(s)
  {
    match c
    // the step is accepted
    case Output => Accepts(s) || Nothing(s.pend)
    // an idle under a reset finds a live stream with no mark, or nothing to mark
    case Sleep(reset) => reset ==> Nothing(if s.g.streaming then KillOwed(s.g) else s.pend)
    // a new stream finds no mark standing
    case Wake(_) => s.g.failed || Nothing(KillOwed(s.g))
    // a reset finds no read-back owed, and a marked stream without a fault or nothing to drop
    case DoReset => Nothing(Plus(ReadbackOwed(s.g), if Marked(s.g) then ZERO else Dropping(s.g)))
    // the read-back is not taken before its clear
    case DoReadback => s.g.readback.RbWait? ==> Nothing(s.g.unplayed)
    // the counters are zeroed over a ring whose steps are all played
    case ZeroPosition(ok) => ok ==> Nothing(if Removed(s.pc) then Residue(s) else StepsOf(Queue(s.k)))
    case _ => true
  }

  /** Any step that does. */
  predicate Spares(s: Sys, a: Step)
    requires SysSane(s)
  {
    a.ByCore? ==> CoreSpares(s, a.c)
  }

  /** A step behind which the residue is still the ring's. */
  predicate Tells(s: Sys, a: Step)
    requires SysSane(s)
  {
    match a
    // no read-back starts to wait for a stale clear, and none ends under a removal it waits for
    case ByCore(DoReset) =>
      (StaleClear(s) ==> !Marked(s.g)) && (Removed(s.pc) ==> Marked(s.g) || Nothing(Residue(s)))
    case ByCore(DoReadback) => Removed(s.pc) && s.g.readback.RbWait? ==> Nothing(Residue(s))
    // the counters are zeroed over a played ring, and not under a clear a read-back waits for
    case ByCore(ZeroPosition(ok)) =>
      ok ==> Nothing(StepsOf(Queue(s.k))) && !(s.g.readback.RbWait? && Clearing(s.pc))
    // a clear that no read-back waits for finds a played ring
    case ByShipper(Empty(seekOk, _)) => seekOk ==> s.g.readback.RbWait? || Nothing(StepsOf(Queue(s.k)))
    // another writer adds no steps, and no byte under a removal
    case ByKernel(Foreign(bytes)) => if Removed(s.pc) then bytes == [] else Nothing(StepsOf(bytes))
    case _ => true
  }

  /** What a caller may check before a step. */
  predicate Guard(s: Sys, a: Step)
    requires SysSane(s)
  {
    Spares(s, a) && Tells(s, a)
  }

  // ---- the residue is the ring ----

  /** The steps counted since the base that the kernel's counters do not show. */
  function Residue(s: Sys): Vec {
    Minus(Minus(s.g.steps, s.g.baseSteps), Minus(Counters(s.k), s.g.baseCounts))
  }

  /** They are the steps of the bytes in the kernel's ring; between a clear's removal and
      its end, the ring is empty, the counts read still stand, and what is missing is
      waited for. */
  predicate RingTells(s: Sys) {
    && KernelSane(s.k) && (StaleClear(s) ==> !s.g.readback.RbWait?) && (Clearing(s.pc) ==> s.pc.zeros <= s.g.zeros)
    && (s.pc.Cleared? && s.pc.counted ==> s.pc.cleared)
    && (if s.pc.Cleared? && s.pc.cleared then
          && Queue(s.k) == []
          && (s.pc.zeros == s.g.zeros ==> Counters(s.k) == s.pc.counts)
          && (s.g.baseValid ==> s.g.readback.RbWait? || Cong(Residue(s), ZERO))
        else s.g.baseValid ==> Cong(Residue(s), StepsOf(Queue(s.k))))
  }

  /** The totals and flags a step leaves alone. */
  predicate SameTotals(s: Sys, t: Sys) {
    && t.g.steps == s.g.steps && t.g.baseSteps == s.g.baseSteps && t.g.baseCounts == s.g.baseCounts
    && t.g.baseValid == s.g.baseValid && t.g.zeros == s.g.zeros
    && t.k.played == s.k.played && t.k.zeroed == s.k.zeroed
  }

  lemma SameResidue(s: Sys, t: Sys)
    requires SameTotals(s, t)
    ensures Residue(t) == Residue(s) && Counters(t.k) == Counters(s.k)
  {
  }

  // ---- the core's steps ----

  lemma CoreTotals(s: Sys, c: CoreStep)
    requires SysSane(s) && CoreEnabled(s, c) && !c.ZeroPosition?
    ensures var t := CoreNext(s, c);
            && SameTotals(s, t) && t.k == s.k && t.pc == s.pc
            && (!c.DoReset? && !c.DoReadback? ==> t.g.readback == s.g.readback)
  {
    hide Pulse, LaserRequest, Jog, Wakeup, GoIdle, Reset, NoStepsLeft, Signed, U32;
    match c {
      case Count(_) =>
      case Output =>
      case Advance(_) =>
      case Request(_, _) =>
      case SetJog(_) =>
      case SetModel(_) =>
      case SetArmed(_) =>
      case SetGate(_) =>
      case Wake(_) =>
      case Sleep(_) =>
      case DoReset => ResetTotals(s.g);
      case DoReadback =>
      case Fault =>
    }
  }

  lemma ResetTotals(g: Gf)
    requires Sane(g)
    ensures var h := Reset(g);
            && h.steps == g.steps && h.baseSteps == g.baseSteps && h.baseCounts == g.baseCounts
            && h.baseValid == g.baseValid && h.zeros == g.zeros
  {
    hide Drop, DarkStop, Wrap;
  }

  lemma CoreTells(s: Sys, c: CoreStep)
    requires SysSane(s) && CoreEnabled(s, c) && RingTells(s) && s.g.baseValid && CoreNext(s, c).g.baseValid
    ensures RingTells(CoreNext(s, c)) <==> Tells(s, ByCore(c))
  {
    if c.ZeroPosition? {
      assert c.ok;
      ZeroTells(s);
    } else {
      CoreTotals(s, c);
      SameResidue(s, CoreNext(s, c));
      if c.DoReset? { ResetReadback(s.g); ResetIs(s); }
      hide Residue, Counters, Cong, StepsOf, SameTotals, Reset;
      hide CoreNext, CoreEnabled;
      assert StaleClear(CoreNext(s, c)) == StaleClear(s);
    }
  }

  lemma ResetIs(s: Sys)
    requires SysSane(s)
    ensures CoreNext(s, DoReset).g == Reset(s.g)
  {
    hide Reset;
  }

  lemma ResetReadback(g: Gf)
    requires Sane(g) && g.baseValid
    ensures Reset(g).readback.RbWait? <==> Marked(g)
  {
    hide Drop, DarkStop, Wrap;
  }

  lemma ZeroTells(s: Sys)
    requires SysSane(s) && RingTells(s)
    ensures RingTells(CoreNext(s, ZeroPosition(true))) <==> Tells(s, ByCore(ZeroPosition(true)))
  {
    ZeroState(s);
    NoBytes(Queue(s.k));
    NothingFlips(StepsOf(Queue(s.k)));
    CongSame(ZERO);
    hide StepsOf, Queue, Counters, Residue, CoreNext, Cong, Nothing, U32, Wrap;
  }

  /** The counters zeroed: a new base, which any clear under way has missed. */
  lemma ZeroState(s: Sys)
    requires SysSane(s)
    ensures var t := CoreNext(s, ZeroPosition(true));
            && t.pc == s.pc && t.g.zeros == s.g.zeros + 1 && t.g.readback == s.g.readback && t.g.baseValid
            && KernelSane(t.k) && Queue(t.k) == Queue(s.k) && Residue(t) == ZERO
  {
    hide StepsOf, NoStepsLeft;
    var t := CoreNext(s, ZeroPosition(true));
    assert t.k == s.k.(zeroed := s.k.played);
    assert Counters(t.k) == ZERO;
  }

  lemma NothingFlips(v: Vec)
    ensures (Nothing(v) <==> Cong(ZERO, v)) && (v == ZERO ==> Nothing(v))
  {
  }

  lemma NoBytes(none: seq<Byte>)
    ensures |none| == 0 ==> StepsOf(none) == ZERO
  {
  }

  // ---- the kernel's steps ----

  lemma KernelTells(s: Sys, e: KernelStep)
    requires SysSane(s) && KernelEnabled(s, e) && RingTells(s) && s.g.baseValid
    ensures RingTells(KernelNext(s, e)) <==> Tells(s, ByKernel(e))
  {
    match e {
      case Play => PlayTells(s);
      case KernelTo(_) => SameResidue(s, KernelNext(s, e));
      case Foreign(bytes) => ForeignTells(s, bytes);
    }
  }

  lemma ForeignTells(s: Sys, bytes: seq<Byte>)
    requires SysSane(s) && RingTells(s) && s.g.baseValid
    ensures RingTells(KernelNext(s, Foreign(bytes))) <==> Tells(s, ByKernel(Foreign(bytes)))
  {
    hide StepsOf, Residue, Counters, Cong, Nothing;
    var t := s.(k := TakeForeign(s.k, bytes));
    assert Queue(t.k) == Queue(s.k) + bytes;
    StepsOfConcat(Queue(s.k), bytes);
    SameResidue(s, t);
    if Removed(s.pc) {
      assert Queue(s.k) + bytes == bytes;
      hide Queue;
    } else {
      hide Queue;
      SumSame(Residue(s), StepsOf(Queue(s.k)), StepsOf(bytes));
    }
  }

  /** A term adds nothing exactly when it is nothing. */
  lemma SumSame(r: Vec, q: Vec, v: Vec)
    requires Cong(r, q)
    ensures Cong(r, Plus(q, v)) <==> Nothing(v)
  {
    var w := Plus(q, v);
    assert Minus(w, v) == q;
    CongDifference(r, w, v);
    hide Cong;
  }

  lemma PlayTells(s: Sys)
    requires SysSane(s) && KernelEnabled(s, Play) && RingTells(s)
    ensures RingTells(KernelNext(s, Play))
  {
    var k, t := s.k, KernelNext(s, Play);
    var v := ByteSteps(k.taken[k.processed]);
    assert Queue(k)[0] == k.taken[k.processed] && Queue(k)[1..] == Queue(t.k);
    assert StepsOf(Queue(k)) == Plus(v, StepsOf(Queue(t.k)));
    CountersPlay(k, v);
    hide StepsOf, Counters, Cong, Queue;
    if s.g.baseValid {
      PlayAlgebra(Residue(s), Residue(t), v, Counters(k), Counters(t.k), StepsOf(Queue(s.k)), StepsOf(Queue(t.k)));
    }
  }

  lemma PlayAlgebra(r: Vec, u: Vec, v: Vec, c: Vec, d: Vec, q: Vec, p: Vec)
    requires Cong(d, Plus(c, v)) && Plus(r, c) == Plus(u, d) && q == Plus(v, p) && Cong(r, q)
    ensures Cong(u, p)
  {
    hide Cong;
    CongTermLess(u, Minus(r, v), d, Plus(c, v));
    CongTerm(Minus(r, v), p, r, q);
    CongTrans(u, Minus(r, v), p);
  }

  // ---- the shipper's steps ----

  /** What a step that writes no chunk and ends no clear leaves alone: at most a pad goes
      in. */
  predicate AtMostAPad(s: Sys, t: Sys) {
    && SameTotals(s, t) && t.g.readback == s.g.readback && t.k.processed == s.k.processed
    && (t.k.taken == s.k.taken || t.k.taken == s.k.taken + [PAD])
  }

  lemma PadTells(s: Sys, t: Sys)
    requires RingTells(s) && KernelSane(t.k) && AtMostAPad(s, t) && !(s.pc.Cleared? && s.pc.cleared) && !t.pc.Cleared?
    requires Clearing(t.pc) ==> t.pc.zeros == t.g.zeros
    ensures RingTells(t)
  {
    SameResidue(s, t);
    if t.k.taken != s.k.taken {
      assert Queue(t.k) == Queue(s.k) + [PAD];
      StepsOfConcat(Queue(s.k), [PAD]);
      StepsOfOne(PAD);
      PlusZero(StepsOf(Queue(s.k)));
    } else {
      assert Queue(t.k) == Queue(s.k);
    }
    hide StepsOf, Queue, Residue, Cong;
  }

  lemma BeginPads(s: Sys, due: nat, landed: bool)
    requires SysSane(s) && s.pc == Ready
    ensures var t := DoBegin(s, due, landed); AtMostAPad(s, t) && !Clearing(t.pc)
  {
    var u := Sampled(s);
    assert u == s.(g := s.g.(laser := u.g.laser));
    hide ShipTurn, FinishStream, PadFault, Sampled;
    if s.g.failed {
      PadOnlyPads(s, PadFault(s, landed));
    } else if !s.g.streaming && Backlog(s.g.ring) == 0 {
      PadOnlyPads(u, FinishStream(u, landed));
    } else if !PreloadWait(s.g) {
      TurnPads(u, s.gate, due, false);
    }
  }

  lemma PadOnlyPads(s: Sys, t: Sys)
    requires PadOnly(s, t)
    ensures AtMostAPad(s, t)
  {
  }

  lemma TurnPads(s: Sys, gate: bool, due: nat, startRun: bool)
    requires SysSane(s) && !Clearing(s.pc)
    ensures var t := ShipTurn(s, gate, due, startRun);
            SameTotals(s, t) && t.k == s.k && t.g.readback == s.g.readback && !Clearing(t.pc)
  {
    hide BuildChunk;
  }

  lemma WriteTells(s: Sys)
    requires SysSane(s) && s.pc.Writing? && RingTells(s)
    ensures RingTells(DoWriteOk(s))
  {
    var u := s.(g := ChunkTaken(s.g, s.pc.chunk), k := Take(s.k, s.pc.chunk));
    var t := DoWriteOk(s);
    WrittenTells(s, u);
    if !(u.g.failed || u.g.clearPending) {
      TurnPads(u, s.pc.gate, s.pc.due, s.pc.startRun || s.pc.first);
    }
    hide ShipTurn;
    assert SameTotals(u, t) && t.k == u.k && t.g.readback == u.g.readback && !Clearing(t.pc);
    PadTells(u, t);
  }

  lemma WrittenTells(s: Sys, u: Sys)
    requires SysSane(s) && s.pc.Writing? && RingTells(s)
    requires u == s.(g := ChunkTaken(s.g, s.pc.chunk), k := Take(s.k, s.pc.chunk))
    ensures RingTells(u)
  {
    var chunk := s.pc.chunk;
    assert Queue(u.k) == Queue(s.k) + chunk;
    StepsOfConcat(Queue(s.k), chunk);
    SameCounters(s.k, u.k);
    hide StepsOf, Queue, Counters, Cong, Wrap;
    if s.g.baseValid {
      WriteAlgebra(Residue(s), Residue(u), s.g.steps, u.g.steps, StepsOf(chunk), StepsOf(Queue(s.k)));
    }
  }

  lemma WriteAlgebra(r: Vec, u: Vec, a: Vec, b: Vec, v: Vec, q: Vec)
    requires b == Wrap(Plus(a, v)) && Minus(u, b) == Minus(r, a) && Cong(r, q)
    ensures Cong(u, Plus(q, v))
  {
    WrapIdem(Plus(a, v));
    hide Cong, Wrap;
    CongTerm(u, Plus(r, v), b, Plus(a, v));
    CongTerm(Plus(r, v), Plus(q, v), r, q);
    CongTrans(u, Plus(r, v), Plus(q, v));
  }

  lemma EmptyTells(s: Sys, seekOk: bool, readOk: bool)
    requires SysSane(s) && s.pc.Snapped? && RingTells(s) && s.g.baseValid
    ensures RingTells(DoEmpty(s, seekOk, readOk)) <==> Tells(s, ByShipper(Empty(seekOk, readOk)))
  {
    var t := DoEmpty(s, seekOk, readOk);
    SameResidue(s, t);
    SameNothing(Residue(s), StepsOf(Queue(s.k)));
    hide StepsOf, Residue, Cong, Counters;
  }

  lemma SameNothing(a: Vec, b: Vec)
    ensures Cong(a, b) ==> (Nothing(a) <==> Nothing(b))
  {
  }

  lemma FinishTells(s: Sys)
    requires SysSane(s) && s.pc.Cleared? && RingTells(s) && DoFinish(s).g.baseValid
    ensures RingTells(DoFinish(s))
  {
    var q, t := s.pc, DoFinish(s);
    var h := FinishClear(s.g, q.cleared, q.counted, q.counts, q.zeros);
    assert t == s.(g := h, pc := Ready);
    hide DoFinish, FinishClear;
    FinishAccounts(s.g, q.cleared, q.counted, q.counts, q.zeros);
    FinishZeros(s.g, q.cleared, q.counted, q.counts, q.zeros);
    if q.zeros == s.g.zeros {
      SoundFinish(s, t);
    } else {
      StaleFinish(s, t);
    }
  }

  lemma SoundFinish(s: Sys, t: Sys)
    requires SysSane(s) && s.pc.Cleared? && s.pc.counted && s.pc.zeros == s.g.zeros && RingTells(s)
    requires t == s.(g := t.g, pc := Ready) && t.g.baseSteps == t.g.steps && t.g.baseCounts == s.pc.counts
    ensures RingTells(t)
  {
    NoBytes(Queue(s.k));
    hide StepsOf, Counters;
    assert Residue(t) == ZERO;
    CongSame(ZERO);
    hide Residue, Cong;
  }

  lemma StaleFinish(s: Sys, t: Sys)
    requires SysSane(s) && s.pc.Cleared? && s.pc.zeros != s.g.zeros && RingTells(s)
    requires t == s.(g := t.g, pc := Ready) && t.g.steps == s.g.steps && t.g.baseSteps == s.g.baseSteps
    requires t.g.baseCounts == s.g.baseCounts && t.g.baseValid == s.g.baseValid
    ensures RingTells(t)
  {
    NoBytes(Queue(s.k));
    hide StepsOf, Counters;
    assert Residue(t) == Residue(s);
    hide Residue, Cong;
  }

  lemma FinishZeros(g: Gf, cleared: bool, counted: bool, counts: Vec, zeros: nat)
    ensures FinishClear(g, cleared, counted, counts, zeros).zeros == g.zeros
  {
    hide Wrap, Restart;
  }

  lemma ShipTells(s: Sys, h: ShipStep)
    requires SysSane(s) && ShipEnabled(s, h) && RingTells(s)
    requires s.g.baseValid && ShipNext(s, h).g.baseValid
    ensures RingTells(ShipNext(s, h)) <==> Tells(s, ByShipper(h))
  {
    hide RingTells, DoBegin, DoWriteOk, DoFinish, DoEmpty, SameTotals;
    var t := ShipNext(s, h);
    if h.Begin? {
      BeginPads(s, h.due, h.landed);
      PadTells(s, t);
    } else if h.WriteOk? {
      WriteTells(s);
    } else if h.Finish? {
      FinishTells(s);
    } else if h.Empty? {
      EmptyTells(s, h.seekOk, h.readOk);
    } else {
      OtherPads(s, h);
      PadTells(s, t);
    }
  }

  lemma OtherPads(s: Sys, h: ShipStep)
    requires SysSane(s) && ShipEnabled(s, h) && !h.Begin? && !h.WriteOk? && !h.Finish? && !h.Empty?
    requires s.g.baseValid && ShipNext(s, h).g.baseValid
    ensures var t := ShipNext(s, h);
            && AtMostAPad(s, t) && !s.pc.Cleared? && !t.pc.Cleared? && (Clearing(t.pc) ==> t.pc.zeros == t.g.zeros)
  {
    if h.Snap? {
      hide DoSnap;
      SnapPads(s, h.landed);
    } else {
      PlainPads(s, h);
    }
  }

  lemma SnapPads(s: Sys, landed: bool)
    requires SysSane(s) && s.pc == Top
    ensures var t := DoSnap(s, landed);
            AtMostAPad(s, t) && !t.pc.Cleared? && (Clearing(t.pc) ==> t.pc.zeros == t.g.zeros)
  {
    hide DoSnap;
  }

  lemma PlainPads(s: Sys, h: ShipStep)
    requires SysSane(s) && ShipEnabled(s, h) && !h.Begin? && !h.WriteOk? && !h.Finish? && !h.Empty? && !h.Snap?
    requires s.g.baseValid && ShipNext(s, h).g.baseValid
    ensures var t := ShipNext(s, h);
            && AtMostAPad(s, t) && !s.pc.Cleared? && !t.pc.Cleared? && (Clearing(t.pc) ==> t.pc.zeros == t.g.zeros)
  {
    hide DoSnap, DoFinish, DoBegin, DoWriteOk, DoEmpty, DoWriteFail, DoGateRead, CountsMatch, CanStart;
    match h {
      case NotYet =>
      case WriteFail(n) => FailedLosesBase(s, n);
      case GateSkip =>
      case GateRead(stateOk, countsOk) => GateReadPads(s, stateOk, countsOk);
      case IssueRun =>
      case IssueAck(_) =>
      case IssueRefused =>
    }
  }

  lemma FailedLosesBase(s: Sys, n: nat)
    requires SysSane(s) && s.pc.Writing? && n <= |s.pc.chunk|
    ensures !DoWriteFail(s, n).g.baseValid
  {
    hide TakeForeign;
  }

  lemma GateReadPads(s: Sys, stateOk: bool, countsOk: bool)
    requires SysSane(s) && s.pc.Gating?
    ensures var t := DoGateRead(s, stateOk, countsOk);
            AtMostAPad(s, t) && !t.pc.Cleared? && !Clearing(t.pc)
  {
    hide CountsMatch;
  }

  /** The residue stays the ring's behind a step exactly when the step's guard says. */
  lemma StepTells(s: Sys, a: Step)
    requires SysSane(s) && Enabled(s, a) && RingTells(s) && s.g.baseValid && Next(s, a).g.baseValid
    ensures RingTells(Next(s, a)) <==> Tells(s, a)
  {
    hide RingTells, CoreNext, ShipNext, KernelNext, CoreEnabled, ShipEnabled, KernelEnabled, Tells;
    match a {
      case ByCore(c) => CoreTells(s, c);
      case ByShipper(h) => ShipTells(s, h);
      case ByKernel(e) => KernelTells(s, e);
    }
  }

  // ---- guarded steps lose nothing, and no others ----

  lemma CoreSparesExactly(o: Track, s: Sys, c: CoreStep)
    requires SysSane(s) && InOrder(o, s) && CoreEnabled(s, c) && RingTells(s)
    requires s.g.baseValid && CoreNext(s, c).g.baseValid
    ensures Nothing(CoreLoss(o, s, c)) <==> CoreSpares(s, c)
  {
    CongSame(ZERO);
    if c.DoReset? {
      DropsLive(o, s);
      hide CoreEnabled, RingTells, InOrder, Cong, EventSteps, Drop;
    } else if c.ZeroPosition? {
      assert c.ok;
      assert CoreLoss(o, s, c) == Residue(s);
      SameNothing(Residue(s), StepsOf(Queue(s.k)));
      hide StepsOf, Cong, Residue, CoreLoss, InOrder, CoreEnabled;
    } else {
      hide Accepts, Wrap, InOrder, CoreEnabled, DropLoss, Unseen, RingTells, CoreNext;
      match c {
        case Output =>
        case Sleep(_) =>
        case Wake(_) =>
        case DoReadback =>
        case _ =>
      }
    }
  }

  /** What the slots hold is the live events'. */
  lemma DropsLive(o: Track, s: Sys)
    requires SysSane(s) && InOrder(o, s)
    ensures DropLoss(o, s.g) == Dropping(s.g)
  {
    DropRefines(s.g.ring, o.live);
    hide Holds, Drop, EventSteps;
  }

  lemma ShipLosesNothing(s: Sys, h: ShipStep)
    requires SysSane(s) && ShipEnabled(s, h) && RingTells(s) && s.g.baseValid && ShipNext(s, h).g.baseValid
    ensures Nothing(ShipLoss(s, h))
  {
    CongSame(ZERO);
    if h.Finish? {
      var q := s.pc;
      FinishAccounts(s.g, q.cleared, q.counted, q.counts, q.zeros);
      hide FinishClear, Cong, Counters, StepsOf;
    }
  }

  /** A step loses nothing exactly when its guard says, wherever the residue is the
      ring's. */
  lemma SparesExactly(o: Track, s: Sys, a: Step)
    requires SysSane(s) && InOrder(o, s) && Enabled(s, a) && RingTells(s)
    requires s.g.baseValid && Next(s, a).g.baseValid
    ensures Cong(Loss(o, s, a), ZERO) <==> Spares(s, a)
  {
    hide RingTells, InOrder, CoreNext, ShipNext, KernelNext, CoreEnabled;
    hide ShipEnabled, KernelEnabled, CoreSpares, Cong, CoreLoss, ShipLoss;
    CongSame(ZERO);
    match a {
      case ByCore(c) => CoreSparesExactly(o, s, c);
      case ByShipper(h) => ShipLosesNothing(s, h);
      case ByKernel(_) =>
    }
  }

  ghost predicate GuardedRun(s: Sys, steps: seq<Step>)
    requires SysSane(s) && IsRun(s, steps)
    decreases |steps|
  {
    steps == [] || (Guard(s, steps[0]) && GuardedRun(Next(s, steps[0]), steps[1..]))
  }

  /** Over every guarded run with a base: the residue stays the ring's, and nothing is
      lost. */
  lemma {:induction false} GuardedRunLosesNothing(o: Track, s: Sys, steps: seq<Step>)
    requires SysSane(s) && IsRun(s, steps) && InOrder(o, s) && RingTells(s) && Based(s, steps) && GuardedRun(s, steps)
    ensures Cong(TotalLoss(o, s, steps), ZERO) && RingTells(Final(s, steps))
    decreases |steps|
  {
    CongSame(ZERO);
    if steps != [] {
      FirstGuarded(o, s, steps);
      BasedNext(s, steps);
      hide *;
      var p, t, rest := Observe(o, s, steps[0]), Next(s, steps[0]), steps[1..];
      StepOrder(o, s, steps[0]);
      StepTells(s, steps[0]);
      SparesExactly(o, s, steps[0]);
      GuardedRunLosesNothing(p, t, rest);
      SumOfNothing(Loss(o, s, steps[0]), TotalLoss(p, t, rest));
    }
  }

  /** A guarded run, its first step taken. */
  lemma FirstGuarded(o: Track, s: Sys, steps: seq<Step>)
    requires SysSane(s) && IsRun(s, steps) && GuardedRun(s, steps) && steps != []
    ensures Enabled(s, steps[0]) && Guard(s, steps[0])
    ensures var p, t, rest := Observe(o, s, steps[0]), Next(s, steps[0]), steps[1..];
            && SysSane(t) && IsRun(t, rest) && GuardedRun(t, rest) && Final(s, steps) == Final(t, rest)
            && TotalLoss(o, s, steps) == Plus(Loss(o, s, steps[0]), TotalLoss(p, t, rest))
  {
    hide Next, Enabled, Guard, Observe, Loss;
  }

  lemma SumOfNothing(a: Vec, b: Vec)
    requires Cong(a, ZERO) && Cong(b, ZERO)
    ensures Cong(Plus(a, b), ZERO)
  {
    CongAdd(a, ZERO, b, ZERO);
    PlusZero(ZERO);
  }

  /** A base over an empty ring, with no clear under way. */
  predicate EmptyBase(o: Track, s: Sys)
    requires SysSane(s)
  {
    AtBase(o, s) && Queue(s.k) == [] && !Clearing(s.pc)
  }

  lemma EmptyBaseTells(o: Track, s: Sys)
    requires SysSane(s) && EmptyBase(o, s)
    ensures RingTells(s)
  {
    NoBytes(Queue(s.k));
    hide StepsOf, Counters;
    assert Residue(s) == ZERO;
    CongSame(ZERO);
    hide Cong, Residue;
  }

  /** The read-back under guards a caller can check: from any empty base any run reaches,
      through any guarded run, what the engine counts and the kernel does not show is, at
      every point outside a clear, the steps of the bytes in the kernel's ring; and a
      read-back that is ready is the core's count less what the kernel really played,
      per axis modulo 2^32, and exactly where it fits an int32. */
  lemma GuardedReadbackIsRight(s: Sys, before: seq<Step>, steps: seq<Step>)
    requires Initial(s) && IsRun(s, before)
    requires var b := Final(s, before); var o := Watched(START, s, before);
             && EmptyBase(o, b) && IsRun(b, steps) && Based(b, steps) && GuardedRun(b, steps)
    ensures var b := Final(s, before); var o := Watched(START, s, before);
            var t := Final(b, steps);
            && (!Clearing(t.pc) ==> Cong(Residue(t), StepsOf(Queue(t.k))))
            && (t.g.readback.RbDone? && Settled(Watched(o, b, steps), t) ==>
                  var unplayed := Minus(Minus(t.pos, t.k.played), Frame(b));
                  var v := TakeReadback(t.g).2;
                  && Cong(v, unplayed)
                  && (FitsInt32(unplayed.x) ==> v.x == unplayed.x)
                  && (FitsInt32(unplayed.y) ==> v.y == unplayed.y)
                  && (FitsInt32(unplayed.z) ==> v.z == unplayed.z))
  {
    var b, o := Final(s, before), Watched(START, s, before);
    StreamRefinesQueue(s, before);
    EmptyBaseTells(o, b);
    hide IsRun, Final, Watched, InOrder, Based, TotalLoss, GuardedRun, Settled, Initial, Cong;
    GuardedRunLosesNothing(o, b, steps);
    var t := Final(b, steps);
    FinalBase(b, steps);
    Telling(t);
    if t.g.readback.RbDone? && Settled(Watched(o, b, steps), t) {
      ConservedFrom(o, b, steps);
    }
  }

  lemma Telling(t: Sys)
    requires SysSane(t) && RingTells(t) && t.g.baseValid
    ensures !Clearing(t.pc) ==> Cong(Residue(t), StepsOf(Queue(t.k)))
  {
    hide Cong, Residue, StepsOf;
  }

  lemma {:induction false} FinalBase(s: Sys, steps: seq<Step>)
    requires SysSane(s) && IsRun(s, steps) && Based(s, steps)
    ensures Final(s, steps).g.baseValid
    decreases |steps|
  {
    hide Next, Enabled;
    if steps != [] { FinalBase(Next(s, steps[0]), steps[1..]); }
  }
}
