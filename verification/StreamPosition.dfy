/** Position conservation: what the core counted is played, or outstanding, or
    read back, per axis modulo 2^32, through any interleaving of streams, resets,
    clears and kernel stops. */
module StreamPosition {
  import opened PulseBytes
  import opened DitherModel
  import opened StreamRing
  import opened LaserQueue
  import opened StreamEngine
  import opened StreamSystem
  import opened StreamOrder

  // ---- congruence of sums ----

  lemma CongSame(a: Vec)
    ensures Cong(a, a)
  {
  }

  lemma CongTrans(a: Vec, b: Vec, c: Vec)
    requires Cong(a, b) && Cong(b, c)
    ensures Cong(a, c) && Cong(c, a)
  {
  }

  /** Two totals that differ in one congruent term are congruent. */
  lemma CongTerm(x: Vec, y: Vec, d: Vec, e: Vec)
    requires Cong(d, e) && Minus(x, d) == Minus(y, e)
    ensures Cong(x, y)
  {
    var r := Minus(x, d);
    CongAdd(r, r, d, e);
    assert x == Plus(r, d) && y == Plus(r, e);
  }

  /** The same when the term is subtracted. */
  lemma CongTermLess(x: Vec, y: Vec, d: Vec, e: Vec)
    requires Cong(d, e) && Plus(x, d) == Plus(y, e)
    ensures Cong(x, y)
  {
    var r := Plus(x, d);
    CongAdd(r, r, d, e);
    assert x == Minus(r, d) && y == Minus(r, e);
  }

  lemma CountersMean(k: Kernel)
    ensures Cong(Counters(k), Minus(k.played, k.zeroed))
  {
    WrapIdem(Minus(k.played, k.zeroed));
  }

  // ---- what is outstanding ----

  function InFlight(s: Sys): Vec { if s.pc.Writing? then StepsOf(s.pc.chunk) else ZERO }

  function KillOwed(g: Gf): Vec { if g.killed then g.killStep else ZERO }

  function ReadbackOwed(g: Gf): Vec { if g.readback.RbWait? || g.readback.RbDone? then g.unplayed else ZERO }

  /** The step totals of a state: the core's count, the kernel's play, the two
      counters and their base, and what the engine holds back: in the backlog, in
      the chunk being written, counted and not output, marked by a reset, owed. */
  datatype Account = Account(
    pos: Vec, played: Vec, steps: Vec, counts: Vec, baseSteps: Vec, baseCounts: Vec,
    backlog: Vec, flight: Vec, pend: Vec, kill: Vec, owed: Vec)

  function AccountOf(o: Track, s: Sys): Account {
    Account(s.pos, s.k.played, s.g.steps, Counters(s.k), s.g.baseSteps, s.g.baseCounts,
            EventSteps(o.live), InFlight(s), s.pend, KillOwed(s.g), ReadbackOwed(s.g))
  }

  /** The steps counted since the base that the kernel's counters do not show: in
      its ring. */
  function Unseen(a: Account): Vec { Minus(Minus(a.steps, a.baseSteps), Minus(a.counts, a.baseCounts)) }

  function Held(a: Account): Vec { Plus(Plus(a.backlog, a.flight), Plus(a.pend, Plus(a.kill, a.owed))) }

  /** The core's count less everything played or outstanding: the frame between
      the core's coordinates and the kernel's, constant while no step is lost. */
  function Balance(a: Account): Vec { Minus(Minus(a.pos, a.played), Plus(Unseen(a), Held(a))) }

  // ---- what a step loses ----

  /** The steps a core step leaves counted and neither played nor outstanding. */
  function CoreLoss(o: Track, s: Sys, c: CoreStep): Vec {
    match c
    // a step refused: the stream has failed or ended, or the event is late while armed, or past the ring
    case Output => if Accepts(s) then ZERO else s.pend
    // an idle under a reset that finds no live stream, or a mark already made
    case Sleep(reset) => if !reset then ZERO else if s.g.streaming then KillOwed(s.g) else s.pend
    // a new stream forgets a mark no reset took
    case Wake(_) => if s.g.failed then ZERO else KillOwed(s.g)
    // a reset forgets a read-back not taken, and owes nothing after a fault or without a mark
    case DoReset => Plus(ReadbackOwed(s.g), if s.g.killed && !s.g.failed then ZERO else DropLoss(o, s.g))
    // the wait for the clear ended first
    case DoReadback => if s.g.readback.RbWait? then s.g.unplayed else ZERO
    // counters zeroed over bytes not played yet
    case ZeroPosition(ok) => if ok then Unseen(AccountOf(o, s)) else ZERO
    case _ => ZERO
  }

  /** What a reset that owes nothing drops. */
  function DropLoss(o: Track, g: Gf): Vec {
    if g.streaming || g.killed || g.failed then Plus(EventSteps(o.live), KillOwed(g)) else ZERO
  }

  /** A clear that takes its new base over bytes not played, or over a read-back
      that a counter zero made worthless. */
  function ShipLoss(s: Sys, h: ShipStep): Vec {
    if !(h.Finish? && s.pc.Cleared?) then ZERO
    else if s.pc.zeros != s.g.zeros then (if s.g.readback.RbWait? then s.g.unplayed else ZERO)
    else if s.g.readback.RbWait? then ZERO
    else Minus(Minus(s.g.steps, s.g.baseSteps), Minus(s.pc.counts, s.g.baseCounts))
  }

  function Loss(o: Track, s: Sys, a: Step): Vec {
    match a
    case ByCore(c) => CoreLoss(o, s, c)
    case ByShipper(h) => ShipLoss(s, h)
    case ByKernel(_) => ZERO
  }

  // ---- the algebra of one step ----

  /** A step may move from the core's hand to the backlog, and so on along its way. */
  lemma Moves(a: Account, v: Vec)
    ensures Balance(a.(pos := Plus(a.pos, v), pend := Plus(a.pend, v))) == Balance(a)
    ensures Balance(a.(backlog := Plus(a.backlog, a.pend), pend := ZERO)) == Balance(a)
    ensures Balance(a.(backlog := Minus(a.backlog, v), flight := Plus(a.flight, v))) == Balance(a)
  {
  }

  /** The step an idle under a reset marks; a mark it replaces is lost. */
  lemma KillMoves(a: Account)
    ensures Balance(a.(kill := a.pend, pend := ZERO)) == Plus(Balance(a), a.kill)
  {
  }

  /** What is let go of is lost. */
  lemma LossMoves(a: Account)
    ensures Balance(a.(pend := ZERO)) == Plus(Balance(a), a.pend)
    ensures Balance(a.(kill := ZERO)) == Plus(Balance(a), a.kill)
    ensures Balance(a.(owed := ZERO)) == Plus(Balance(a), a.owed)
    ensures Balance(a.(backlog := ZERO, kill := ZERO)) == Plus(Balance(a), Plus(a.backlog, a.kill))
    ensures Plus(Balance(a), ZERO) == Balance(a)
  {
  }

  lemma PlayMoves(a: Account, v: Vec, counts: Vec)
    requires Cong(counts, Plus(a.counts, v))
    ensures Cong(Balance(a.(played := Plus(a.played, v), counts := counts)), Balance(a))
  {
    hide Cong;
    var b := a.(played := Plus(a.played, v), counts := counts);
    CongTerm(Balance(b), Balance(a), counts, Plus(a.counts, v));
  }

  /** A reset that owes: the mark and the backlog become the debt, the old debt is
      lost. */
  lemma ResetMoves(a: Account)
    ensures Cong(Balance(a.(backlog := ZERO, kill := ZERO, owed := Wrap(Plus(a.kill, a.backlog)))),
                 Plus(Balance(a), a.owed))
  {
    hide Cong, Wrap;
    var owed := Plus(a.kill, a.backlog);
    WrapIdem(owed);
    CongTermLess(Balance(a.(backlog := ZERO, kill := ZERO, owed := Wrap(owed))), Plus(Balance(a), a.owed), Wrap(owed), owed);
  }

  /** One that does not: all of it is lost. */
  lemma ResetDrops(a: Account)
    ensures Balance(a.(backlog := ZERO, kill := ZERO, owed := ZERO)) ==
            Plus(Balance(a), Plus(a.owed, Plus(a.backlog, a.kill)))
    ensures Balance(a.(owed := ZERO)) == Plus(Balance(a), Plus(a.owed, ZERO))
    ensures Plus(a.owed, ZERO) == a.owed
  {
  }

  lemma WriteMoves(a: Account)
    ensures Cong(Balance(a.(steps := Wrap(Plus(a.steps, a.flight)), flight := ZERO)), Balance(a))
  {
    hide Cong, Wrap;
    var sum := Plus(a.steps, a.flight);
    WrapIdem(sum);
    CongTermLess(Balance(a.(steps := Wrap(sum), flight := ZERO)), Balance(a), Wrap(sum), sum);
  }

  /** The residue joins what is owed, the base moves to the counters read. */
  lemma ClearMoves(a: Account, counts: Vec)
    ensures var residue := Minus(Minus(a.steps, a.baseSteps), Minus(counts, a.baseCounts));
            Cong(Balance(a.(owed := Wrap(Plus(a.owed, residue)), baseSteps := a.steps, baseCounts := counts)), Balance(a))
  {
    hide Cong, Wrap;
    var owed := Plus(a.owed, Minus(Minus(a.steps, a.baseSteps), Minus(counts, a.baseCounts)));
    WrapIdem(owed);
    CongTermLess(Balance(a.(owed := Wrap(owed), baseSteps := a.steps, baseCounts := counts)), Balance(a), Wrap(owed), owed);
  }

  /** A base that moves gives up what was unseen. */
  lemma BaseMoves(a: Account, counts: Vec)
    ensures var residue := Minus(Minus(a.steps, a.baseSteps), Minus(counts, a.baseCounts));
            Balance(a.(baseSteps := a.steps, baseCounts := counts)) == Plus(Balance(a), residue)
  {
  }

  lemma ReadbackMoves(a: Account, v: Vec)
    requires Cong(v, a.owed)
    ensures Cong(Balance(a.(pos := Minus(a.pos, v), owed := ZERO)), Balance(a))
  {
    hide Cong;
    CongTermLess(Balance(a.(pos := Minus(a.pos, v), owed := ZERO)), Balance(a), v, a.owed);
  }

  // ---- every step ----

  lemma KernelBalance(o: Track, s: Sys, e: KernelStep)
    requires SysSane(s) && KernelEnabled(s, e)
    ensures Cong(Balance(AccountOf(o, KernelNext(s, e))), Balance(AccountOf(o, s)))
  {
    hide Cong, Wrap, EventSteps, StepsOf, Counters, Balance;
    var a, t := AccountOf(o, s), KernelNext(s, e);
    if e.Play? {
      var v := ByteSteps(s.k.taken[s.k.processed]);
      CountersPlay(s.k, v);
      PlayMoves(a, v, Counters(t.k));
      assert AccountOf(o, t) == a.(played := Plus(a.played, v), counts := Counters(t.k));
    } else {
      SameCounters(s.k, t.k);
      CongSame(Balance(a));
    }
  }

  lemma CountersPlay(k: Kernel, v: Vec)
    ensures forall j: Kernel :: j.played == Plus(k.played, v) && j.zeroed == k.zeroed ==>
              Cong(Counters(j), Plus(Counters(k), v))
  {
    hide Cong, Wrap, Counters;
    forall j: Kernel | j.played == Plus(k.played, v) && j.zeroed == k.zeroed
      ensures Cong(Counters(j), Plus(Counters(k), v))
    {
      CountersMean(j);
      CountersMean(k);
      CongTerm(Plus(Counters(k), v), Minus(j.played, j.zeroed), Counters(k), Minus(k.played, k.zeroed));
      CongTrans(Plus(Counters(k), v), Minus(j.played, j.zeroed), Minus(j.played, j.zeroed)) by { CongSame(Minus(j.played, j.zeroed)); }
      CongTrans(Counters(j), Minus(j.played, j.zeroed), Plus(Counters(k), v));
    }
  }

  lemma SameCounters(k: Kernel, j: Kernel)
    requires k.played == j.played && k.zeroed == j.zeroed
    ensures Counters(k) == Counters(j)
  {
  }

  lemma OutputBalance(o: Track, s: Sys)
    requires SysSane(s)
    ensures Balance(AccountOf(Observe(o, s, ByCore(Output)), CoreNext(s, Output))) ==
            Plus(Balance(AccountOf(o, s)), CoreLoss(o, s, Output))
  {
    hide EventSteps, StepsOf, Counters, Balance, Overflows, Late, Place, Store;
    var a, p, t := AccountOf(o, s), Observe(o, s, ByCore(Output)), CoreNext(s, Output);
    LossMoves(a);
    if Accepts(s) {
      var e := Event(Place(s.g.ring), s.pend, TickNow(s.g.ring));
      EventStepsConcat(o.live, [e]);
      EventStepsOne(e);
      Moves(a, ZERO);
      assert AccountOf(p, t) == a.(backlog := Plus(a.backlog, a.pend), pend := ZERO);
    } else {
      assert AccountOf(p, t) == a.(pend := ZERO);
    }
  }

  /** A reset of a marked stream owes exactly the marked step and the backlog. */
  lemma ResetOwes(g: Gf, evs: seq<Event>)
    requires Sane(g) && Holds(g.ring, evs)
    ensures var r := Reset(g);
            && r.steps == g.steps && r.baseSteps == g.baseSteps && r.baseCounts == g.baseCounts
            && r.baseValid == g.baseValid && !r.killed
            && (g.killed && !g.failed ==>
                  && r.unplayed == Wrap(Plus(g.killStep, EventSteps(evs)))
                  && (g.baseValid ==> r.readback.RbWait?))
            && (!g.killed || g.failed ==> r.readback.RbNone?)
  {
    hide Wrap, Holds, EventSteps;
    DropRefines(g.ring, evs);
  }

  lemma NoSteps(evs: seq<Event>)
    requires |evs| == 0
    ensures EventSteps(evs) == ZERO
  {
  }

  lemma ResetAccounts(o: Track, s: Sys)
    requires SysSane(s) && InOrder(o, s) && s.g.baseValid
    ensures var a, g := AccountOf(o, s), s.g;
            AccountOf(Observe(o, s, ByCore(DoReset)), CoreNext(s, DoReset)) ==
            AfterReset(a, g.killed && !g.failed, g.streaming || g.killed || g.failed)
  {
    ResetOwes(s.g, o.live);
    ResetLive(o, s);
    hide Wrap, EventSteps, StepsOf, Counters, InOrder, Reset, Observe, CoreNext;
    if s.g.streaming || s.g.killed || s.g.failed { NoSteps(Observe(o, s, ByCore(DoReset)).live); }
  }

  lemma ResetLive(o: Track, s: Sys)
    requires SysSane(s)
    ensures CoreNext(s, DoReset) == s.(g := Reset(s.g))
    ensures Observe(o, s, ByCore(DoReset)).live == if s.g.streaming || s.g.killed || s.g.failed then [] else o.live
  {
    hide Reset, EventsOf;
  }

  /** The account after a reset, by what the reset found. */
  function AfterReset(a: Account, marked: bool, dropping: bool): Account {
    if marked then a.(backlog := ZERO, kill := ZERO, owed := Wrap(Plus(a.kill, a.backlog)))
    else if dropping then a.(backlog := ZERO, kill := ZERO, owed := ZERO)
    else a.(owed := ZERO)
  }

  function ResetLoss(a: Account, marked: bool, dropping: bool): Vec {
    Plus(a.owed, if marked then ZERO else if dropping then Plus(a.backlog, a.kill) else ZERO)
  }

  lemma ResetAlgebra(a: Account, marked: bool, dropping: bool)
    ensures Cong(Balance(AfterReset(a, marked, dropping)), Plus(Balance(a), ResetLoss(a, marked, dropping)))
  {
    ResetDrops(a);
    ResetMoves(a);
    hide Cong, Wrap, Balance;
    CongSame(Balance(AfterReset(a, marked, dropping)));
  }

  lemma ResetLossIs(o: Track, s: Sys)
    ensures CoreLoss(o, s, DoReset) ==
            ResetLoss(AccountOf(o, s), s.g.killed && !s.g.failed, s.g.streaming || s.g.killed || s.g.failed)
  {
    hide EventSteps, StepsOf, Counters;
  }

  lemma ResetBalance(o: Track, s: Sys)
    requires SysSane(s) && InOrder(o, s) && s.g.baseValid
    ensures Cong(Balance(AccountOf(Observe(o, s, ByCore(DoReset)), CoreNext(s, DoReset))),
                 Plus(Balance(AccountOf(o, s)), CoreLoss(o, s, DoReset)))
  {
    ResetEnabled(s);
    hide *;
    ResetAccounts(o, s);
    ResetLossIs(o, s);
    ResetAlgebra(AccountOf(o, s), s.g.killed && !s.g.failed, s.g.streaming || s.g.killed || s.g.failed);
  }

  lemma ResetEnabled(s: Sys)
    requires SysSane(s)
    ensures Enabled(s, ByCore(DoReset)) && CoreEnabled(s, DoReset)
  {
  }

  lemma PlusAssoc(a: Vec, b: Vec, c: Vec)
    ensures Plus(Plus(a, b), c) == Plus(a, Plus(b, c)) && Plus(a, ZERO) == a
  {
  }

  lemma ReadbackBalance(o: Track, s: Sys)
    requires SysSane(s)
    ensures Cong(Balance(AccountOf(o, CoreNext(s, DoReadback))),
                 Plus(Balance(AccountOf(o, s)), CoreLoss(o, s, DoReadback)))
  {
    hide Cong, Wrap, EventSteps, StepsOf, Counters, Balance;
    var a, t := AccountOf(o, s), CoreNext(s, DoReadback);
    var v := TakeReadback(s.g).2;
    LossMoves(a);
    if s.g.readback.RbDone? {
      SignedCong(s.g.unplayed);
      ReadbackMoves(a, v);
      assert AccountOf(o, t) == a.(pos := Minus(a.pos, v), owed := ZERO);
    } else {
      assert AccountOf(o, t) == a.(owed := ZERO);
      CongSame(Balance(AccountOf(o, t)));
    }
  }

  lemma SignedCong(v: Vec)
    ensures Cong(Vec(Signed(U32(v.x)), Signed(U32(v.y)), Signed(U32(v.z))), v)
  {
    forall x: int ensures U32(Signed(U32(x))) == U32(x) {
      U32Shift(U32(x), if U32(x) < 0x8000_0000 then 0 else -1);
    }
  }

  lemma ZeroBalance(o: Track, s: Sys, ok: bool)
    requires SysSane(s) && CoreNext(s, ZeroPosition(ok)).g.baseValid
    ensures Balance(AccountOf(o, CoreNext(s, ZeroPosition(ok)))) ==
            Plus(Balance(AccountOf(o, s)), CoreLoss(o, s, ZeroPosition(ok)))
  {
    hide Cong, EventSteps, StepsOf;
    var a, t := AccountOf(o, s), CoreNext(s, ZeroPosition(ok));
    assert ok;
    assert Counters(t.k) == ZERO;
    BaseMoves(a, a.counts);
    assert Balance(AccountOf(o, t)) == Balance(a.(baseSteps := a.steps, baseCounts := a.counts));
  }

  lemma CoreBalance(o: Track, s: Sys, c: CoreStep)
    requires SysSane(s) && InOrder(o, s) && CoreEnabled(s, c)
    requires s.g.baseValid && CoreNext(s, c).g.baseValid
    ensures Cong(Balance(AccountOf(Observe(o, s, ByCore(c)), CoreNext(s, c))),
                 Plus(Balance(AccountOf(o, s)), CoreLoss(o, s, c)))
  {
    CongSame(Balance(AccountOf(Observe(o, s, ByCore(c)), CoreNext(s, c))));
    if c.Output? {
      OutputBalance(o, s);
    } else if c.DoReset? {
      ResetBalance(o, s);
    } else if c.DoReadback? {
      ReadbackBalance(o, s);
    } else if c.ZeroPosition? {
      ZeroBalance(o, s, c.ok);
    } else {
      OtherBalance(o, s, c);
    }
  }

  lemma OtherBalance(o: Track, s: Sys, c: CoreStep)
    requires SysSane(s) && CoreEnabled(s, c)
    requires !c.Output? && !c.DoReset? && !c.DoReadback? && !c.ZeroPosition?
    ensures Balance(AccountOf(o, CoreNext(s, c))) == Plus(Balance(AccountOf(o, s)), CoreLoss(o, s, c))
  {
    hide EventSteps, StepsOf, Counters, Balance, Cong, InOrder, LaserRequest, Jog, GoIdle, Wakeup;
    var a, t := AccountOf(o, s), CoreNext(s, c);
    LossMoves(a);
    if c.Count? {
      Moves(a, c.v);
      PlusZero(c.v);
      assert AccountOf(o, t) == a.(pos := Plus(a.pos, c.v), pend := Plus(a.pend, c.v));
    } else if c.Sleep? {
      SleepBalance(o, s, c.reset);
    } else if c.Wake? {
      WakeKills(s.g, s.armed, c.dueNow);
      assert AccountOf(o, t) == if s.g.failed then a else a.(kill := ZERO);
    } else {
      assert AccountOf(o, t) == a;
    }
  }

  lemma WakeKills(g: Gf, armed: bool, dueNow: nat)
    requires Sane(g)
    ensures var r := Wakeup(g, armed, dueNow);
            if g.failed then r == g else !r.killed && r.killStep == ZERO
  {
  }

  lemma SleepKills(g: Gf, reset: bool, v: Vec)
    requires Sane(g)
    ensures var r := GoIdle(g, reset, v);
            if reset then r.killed && r.killStep == (if g.streaming then v else if g.killed then g.killStep else ZERO)
            else r.killed == g.killed && r.killStep == g.killStep
  {
  }

  lemma SleepBalance(o: Track, s: Sys, reset: bool)
    requires SysSane(s) && CoreEnabled(s, Sleep(reset))
    ensures Balance(AccountOf(o, CoreNext(s, Sleep(reset)))) ==
            Plus(Balance(AccountOf(o, s)), CoreLoss(o, s, Sleep(reset)))
  {
    hide EventSteps, StepsOf, Counters, Balance, Cong, GoIdle;
    SleepKills(s.g, reset, s.pend);
    var a, t := AccountOf(o, s), CoreNext(s, Sleep(reset));
    assert t == s.(g := GoIdle(s.g, reset, s.pend), pend := ZERO);
    LossMoves(a);
    if reset && s.g.streaming {
      KillMoves(a);
      assert AccountOf(o, t) == a.(kill := a.pend, pend := ZERO);
    } else {
      assert AccountOf(o, t) == a.(pend := ZERO);
    }
  }

  // ---- the shipper's steps ----

  /** The account with no chunk in flight. */
  function Landed(o: Track, s: Sys): Account { AccountOf(o, s).(flight := ZERO) }

  /** The live events left when the cursor has moved. */
  function LiveAt(o: Track, t: Sys): Track { o.(live := o.live[Passed(o.live, t.g.ring.shipped)..]) }

  /** Passing events moves their steps out of the backlog. */
  lemma SplitSteps(evs: seq<Event>, n: nat)
    requires n <= |evs|
    ensures EventSteps(evs[n..]) == Minus(EventSteps(evs), EventSteps(evs[..n]))
  {
    hide EventSteps;
    EventStepsConcat(evs[..n], evs[n..]);
    assert evs == evs[..n] + evs[n..];
  }

  /** A shipping turn moves the steps of its chunk from the backlog into flight. */
  lemma TurnBalance(o: Track, s: Sys, gate: bool, due: nat, startRun: bool)
    requires SysSane(s) && Holds(s.g.ring, o.live)
    ensures var t := ShipTurn(s, gate, due, startRun);
            Balance(AccountOf(LiveAt(o, t), t)) == Balance(Landed(o, s))
  {
    hide Holds, BuildChunk, Passed, EventSteps, EventMarks, Marks, StepsOf, Ticks, Counters, Balance, Cong;
    var t := ShipTurn(s, gate, due, startRun);
    if ShipMore(s.g, due) {
      var b := Build(s.g.laser, s.g.ring, []);
      StartMarks(b, o.live, gate, due, s.g.streaming);
      var v := StepsOf(t.pc.chunk);
      SplitSteps(o.live, Passed(o.live, t.g.ring.shipped));
      Moves(Landed(o, s), v);
      PlusZero(v);
      var a := Landed(o, s);
      assert AccountOf(LiveAt(o, t), t) == a.(backlog := Minus(a.backlog, v), flight := Plus(a.flight, v));
    } else {
      NonePassed(s.g.ring, o.live);
      assert AccountOf(LiveAt(o, t), t) == Landed(o, s);
    }
  }

  lemma BeginBalance(o: Track, s: Sys, due: nat, landed: bool)
    requires SysSane(s) && InOrder(o, s) && s.pc == Ready
    ensures var t := DoBegin(s, due, landed);
            Balance(AccountOf(LiveAt(o, t), t)) == Balance(AccountOf(o, s))
  {
    hide Holds, EventSteps, Counters, Balance, Cong, ShipTurn;
    hide GateEdge, Passed, FinishStream, PadFault, EventMarks, EventsOf, ShippedOf;
    var t, u := DoBegin(s, due, landed), Sampled(s);
    assert Landed(o, u) == AccountOf(o, s);
    if s.g.failed {
      QuietBalance(o, s, t);
    } else if !s.g.streaming && Backlog(s.g.ring) == 0 {
      EndBalance(o, s, t);
    } else if PreloadWait(s.g) {
      QuietBalance(o, s, t);
    } else {
      TurnBalance(o, u, s.gate, due, false);
    }
  }

  /** The position fields and the kernel's play untouched, no chunk in flight. */
  predicate SameSteps(s: Sys, t: Sys) {
    && t.pos == s.pos && t.pend == s.pend && t.k.played == s.k.played && t.k.zeroed == s.k.zeroed
    && t.g.steps == s.g.steps && t.g.baseSteps == s.g.baseSteps && t.g.baseCounts == s.g.baseCounts
    && t.g.killed == s.g.killed && t.g.killStep == s.g.killStep
    && t.g.readback == s.g.readback && t.g.unplayed == s.g.unplayed
    && !t.pc.Writing?
  }

  lemma QuietBalance(o: Track, s: Sys, t: Sys)
    requires InOrder(o, s) && SameSteps(s, t) && t.g.ring.shipped == s.g.ring.shipped
    ensures AccountOf(LiveAt(o, t), t) == Landed(o, s)
  {
    hide Holds, EventSteps, Counters;
    NonePassed(s.g.ring, o.live);
    SameCounters(s.k, t.k);
  }

  lemma EndBalance(o: Track, s: Sys, t: Sys)
    requires SysSane(s) && InOrder(o, s) && Backlog(s.g.ring) == 0 && SameSteps(s, t)
    ensures AccountOf(LiveAt(o, t), t) == Landed(o, s)
  {
    NoBacklogNoEvents(s.g.ring, o.live);
    hide Holds, EventSteps, Counters;
    SameCounters(s.k, t.k);
  }

  lemma WriteBalance(o: Track, s: Sys)
    requires SysSane(s) && InOrder(o, s) && s.pc.Writing?
    ensures var t := DoWriteOk(s);
            Cong(Balance(AccountOf(LiveAt(o, t), t)), Balance(AccountOf(o, s)))
  {
    hide Holds, EventSteps, StepsOf, Wrap, Counters, Balance, Cong, ShipTurn, Passed, EventMarks, EventsOf, ShippedOf;
    var t := DoWriteOk(s);
    var u := s.(g := ChunkTaken(s.g, s.pc.chunk), k := Take(s.k, s.pc.chunk));
    var a := AccountOf(o, s);
    WriteMoves(a);
    SameCounters(s.k, u.k);
    assert Landed(o, u) == a.(steps := Wrap(Plus(a.steps, a.flight)), flight := ZERO);
    if u.g.failed || u.g.clearPending {
      SameRing(o, s, u);
      QuietBalance(o, u, t);
    } else {
      TurnBalance(o, u, s.pc.gate, s.pc.due, s.pc.startRun || s.pc.first);
    }
  }

  /** The clear's second region, seen by the accounts. */
  lemma FinishAccounts(g: Gf, cleared: bool, counted: bool, counts: Vec, zeros: nat)
    ensures var r := FinishClear(g, cleared, counted, counts, zeros);
            var sound := counted && zeros == g.zeros;
            && r.steps == g.steps && r.killed == g.killed && r.killStep == g.killStep && r.ring == g.ring
            && (sound ==> r.baseSteps == g.steps && r.baseCounts == counts && r.baseValid)
            && (zeros != g.zeros ==> r.baseSteps == g.baseSteps && r.baseCounts == g.baseCounts && r.baseValid == g.baseValid)
            && (!counted && zeros == g.zeros ==> !r.baseValid)
            && (!g.readback.RbWait? ==> r.readback == g.readback && r.unplayed == g.unplayed)
            && (g.readback.RbWait? && sound && g.baseValid ==>
                  && r.readback.RbDone?
                  && r.unplayed == Wrap(Plus(g.unplayed, Minus(Minus(g.steps, g.baseSteps), Minus(counts, g.baseCounts)))))
            && (g.readback.RbWait? && !(sound && g.baseValid) ==> r.readback.RbLost?)
  {
    hide Wrap, Restart;
    var h := OwedResidue(g, counted && zeros == g.zeros, counts);
    assert h.steps == g.steps && h.baseSteps == g.baseSteps && h.baseCounts == g.baseCounts;
  }

  lemma FinishBalance(o: Track, s: Sys)
    requires SysSane(s) && InOrder(o, s) && s.pc.Cleared?
    requires s.g.baseValid && DoFinish(s).g.baseValid
    ensures var t := DoFinish(s);
            Cong(Balance(AccountOf(LiveAt(o, t), t)), Plus(Balance(AccountOf(o, s)), ShipLoss(s, Finish)))
  {
    hide Holds, EventSteps, StepsOf, Wrap, Counters, Balance;
    hide Cong, FinishClear, Passed, EventMarks, EventsOf, ShippedOf;
    var a, t := AccountOf(o, s), DoFinish(s);
    var q := s.pc;
    FinishAccounts(s.g, q.cleared, q.counted, q.counts, q.zeros);
    NonePassed(s.g.ring, o.live);
    LossMoves(a);
    CongSame(Balance(AccountOf(LiveAt(o, t), t)));
    if q.zeros != s.g.zeros {
      assert AccountOf(LiveAt(o, t), t) == if s.g.readback.RbWait? then a.(owed := ZERO) else a;
    } else if s.g.readback.RbWait? {
      ClearMoves(a, q.counts);
    } else {
      BaseMoves(a, q.counts);
      assert AccountOf(LiveAt(o, t), t) == a.(baseSteps := a.steps, baseCounts := q.counts);
    }
  }

  lemma ShipBalance(o: Track, s: Sys, h: ShipStep)
    requires SysSane(s) && InOrder(o, s) && ShipEnabled(s, h)
    requires s.g.baseValid && ShipNext(s, h).g.baseValid
    ensures var t := ShipNext(s, h);
            Cong(Balance(AccountOf(LiveAt(o, t), t)), Plus(Balance(AccountOf(o, s)), ShipLoss(s, h)))
  {
    hide InOrder, EventSteps, StepsOf, Wrap, Counters, Balance;
    hide Cong, DoBegin, DoWriteOk, DoFinish, Passed, LiveAt, SameSteps;
    var t := ShipNext(s, h);
    LossMoves(AccountOf(o, s));
    CongSame(Balance(AccountOf(o, s)));
    if h.Begin? {
      BeginBalance(o, s, h.due, h.landed);
    } else if h.WriteOk? {
      WriteBalance(o, s);
    } else if h.Finish? {
      FinishBalance(o, s);
    } else {
      QuietShip(s, h);
      QuietBalance(o, s, t);
    }
  }

  /** The shipper's other steps touch no step total. */
  lemma QuietShip(s: Sys, h: ShipStep)
    requires SysSane(s) && ShipEnabled(s, h) && !h.Begin? && !h.WriteOk? && !h.Finish?
    requires s.g.baseValid && ShipNext(s, h).g.baseValid
    ensures SameSteps(s, ShipNext(s, h)) && ShipNext(s, h).g.ring == s.g.ring && !s.pc.Writing?
  {
    hide DoSnap, DoBegin, DoWriteOk, DoFinish, CountsMatch;
  }

  // ---- whole runs ----

  /** Every step moves the balance by exactly what it loses. */
  lemma StepBalance(o: Track, s: Sys, a: Step)
    requires SysSane(s) && InOrder(o, s) && Enabled(s, a)
    requires s.g.baseValid && Next(s, a).g.baseValid
    ensures Cong(Balance(AccountOf(Observe(o, s, a), Next(s, a))), Plus(Balance(AccountOf(o, s)), Loss(o, s, a)))
  {
    hide InOrder, Balance, Cong, CoreNext, ShipNext, KernelNext, CoreLoss, ShipLoss;
    match a
    case ByCore(c) => CoreBalance(o, s, c);
    case ByShipper(h) =>
      ShipBalance(o, s, h);
      assert AccountOf(Observe(o, s, a), Next(s, a)) == AccountOf(LiveAt(o, Next(s, a)), Next(s, a));
    case ByKernel(e) =>
      KernelBalance(o, s, e);
      PlusAssoc(Balance(AccountOf(o, s)), ZERO, ZERO);
  }

  /** A run in which every state has a base. */
  ghost predicate Based(s: Sys, steps: seq<Step>)
    requires SysSane(s) && IsRun(s, steps)
    decreases |steps|
  {
    s.g.baseValid && (steps == [] || Based(Next(s, steps[0]), steps[1..]))
  }

  /** The steps a run loses, all told. */
  ghost function TotalLoss(o: Track, s: Sys, steps: seq<Step>): Vec
    requires SysSane(s) && IsRun(s, steps)
    decreases |steps|
  {
    if steps == [] then ZERO
    else Plus(Loss(o, s, steps[0]), TotalLoss(Observe(o, s, steps[0]), Next(s, steps[0]), steps[1..]))
  }

  lemma BasedNext(s: Sys, steps: seq<Step>)
    requires SysSane(s) && IsRun(s, steps) && Based(s, steps) && steps != []
    ensures s.g.baseValid && Next(s, steps[0]).g.baseValid && Based(Next(s, steps[0]), steps[1..])
  {
  }

  lemma {:induction false} RunBalance(o: Track, s: Sys, steps: seq<Step>)
    requires SysSane(s) && IsRun(s, steps) && InOrder(o, s) && Based(s, steps)
    ensures Cong(Balance(AccountOf(Watched(o, s, steps), Final(s, steps))),
                 Plus(Balance(AccountOf(o, s)), TotalLoss(o, s, steps)))
    decreases |steps|
  {
    hide InOrder, Balance, Cong, AccountOf, Next, Observe, Loss;
    var now := Balance(AccountOf(o, s));
    if steps == [] {
      PlusAssoc(now, ZERO, ZERO);
      CongSame(now);
    } else {
      var p, t, rest := Observe(o, s, steps[0]), Next(s, steps[0]), steps[1..];
      BasedNext(s, steps);
      StepOrder(o, s, steps[0]);
      StepBalance(o, s, steps[0]);
      RunBalance(p, t, rest);
      var loss, more := Loss(o, s, steps[0]), TotalLoss(p, t, rest);
      CongSame(more);
      CongAdd(Balance(AccountOf(p, t)), Plus(now, loss), more, more);
      PlusAssoc(now, loss, more);
      CongTrans(Balance(AccountOf(Watched(p, t, rest), Final(t, rest))),
                Plus(Balance(AccountOf(p, t)), more), Plus(now, Plus(loss, more)));
    }
  }

  /** The frame at a base: the core's count less the kernel's play. */
  function Frame(s: Sys): Vec { Minus(s.pos, s.k.played) }

  /** With nothing in hand and nothing unseen the balance is count less play less
      what is owed. */
  lemma SettledAlgebra(a: Account)
    requires a.steps == a.baseSteps && a.counts == a.baseCounts
    requires a.backlog == ZERO && a.flight == ZERO && a.pend == ZERO && a.kill == ZERO
    ensures Balance(a) == Minus(Minus(a.pos, a.played), a.owed)
    ensures a.owed == ZERO ==> Balance(a) == Minus(a.pos, a.played)
  {
  }

  /** Nothing streamed, output or played since the base was taken. */
  predicate Settled(o: Track, s: Sys) {
    && o.live == [] && !s.pc.Writing? && s.pend == ZERO && !s.g.killed
    && s.g.steps == s.g.baseSteps && Counters(s.k) == s.g.baseCounts
  }

  /** A base to count from: settled, and nothing owed. */
  predicate AtBase(o: Track, s: Sys) {
    Settled(o, s) && s.g.baseValid && !s.g.readback.RbWait? && !s.g.readback.RbDone?
  }

  lemma StartsAtBase(s: Sys)
    requires Initial(s)
    ensures AtBase(START, s)
  {
  }

  lemma SettledBalance(o: Track, t: Sys)
    requires Settled(o, t)
    ensures t.g.readback.RbDone? ==> Balance(AccountOf(o, t)) == Minus(Minus(t.pos, t.k.played), t.g.unplayed)
    ensures AtBase(o, t) ==> Balance(AccountOf(o, t)) == Frame(t)
  {
    hide Counters, EventSteps, StepsOf, Balance;
    NoSteps(o.live);
    SettledAlgebra(AccountOf(o, t));
  }

  /** Position conservation: from any base that any run has reached, through any
      interleaving of streams, idles, resets, clears and kernel stops with a base, a
      read-back that is ready is, per axis modulo 2^32, the core's count less what the
      kernel really played since that base, less the steps the run lost; so it is
      right if and only if those sum to zero, and then exact where it fits an
      int32. */
  lemma PositionConservation(s: Sys, before: seq<Step>, steps: seq<Step>)
    requires Initial(s) && IsRun(s, before)
    requires var b := Final(s, before); var o := Watched(START, s, before);
             && AtBase(o, b) && IsRun(b, steps) && Based(b, steps)
             && Final(b, steps).g.readback.RbDone? && Settled(Watched(o, b, steps), Final(b, steps))
    ensures var b := Final(s, before); var o := Watched(START, s, before);
            var t := Final(b, steps);
            var lost := TotalLoss(o, b, steps);
            var unplayed := Minus(Minus(t.pos, t.k.played), Frame(b));
            var v := TakeReadback(t.g).2;
            && Cong(v, Minus(unplayed, lost))
            && (Cong(v, unplayed) <==> Cong(lost, ZERO))
            && (Cong(lost, ZERO) && FitsInt32(unplayed.x) ==> v.x == unplayed.x)
            && (Cong(lost, ZERO) && FitsInt32(unplayed.y) ==> v.y == unplayed.y)
            && (Cong(lost, ZERO) && FitsInt32(unplayed.z) ==> v.z == unplayed.z)
  {
    var b, o := Final(s, before), Watched(START, s, before);
    StreamRefinesQueue(s, before);
    hide IsRun, Final, Watched, InOrder, Based, TotalLoss, AtBase, Settled, Initial;
    ConservedFrom(o, b, steps);
  }

  /** The same from the start itself: the count and the play since the program took the
      device over. */
  lemma ConservationFromStart(s: Sys, steps: seq<Step>)
    requires Initial(s) && IsRun(s, steps) && Based(s, steps)
    requires Final(s, steps).g.readback.RbDone? && Settled(Watched(START, s, steps), Final(s, steps))
    ensures var t := Final(s, steps);
            var unplayed := Minus(Minus(t.pos, s.pos), Minus(t.k.played, s.k.played));
            var v := TakeReadback(t.g).2;
            && (Cong(v, unplayed) <==> Cong(TotalLoss(START, s, steps), ZERO))
            && (Cong(v, unplayed) && FitsInt32(unplayed.x) ==> v.x == unplayed.x)
            && (Cong(v, unplayed) && FitsInt32(unplayed.y) ==> v.y == unplayed.y)
            && (Cong(v, unplayed) && FitsInt32(unplayed.z) ==> v.z == unplayed.z)
  {
    var none: seq<Step> := [];
    StartsAtBase(s);
    assert IsRun(s, none) && Final(s, none) == s && Watched(START, s, none) == START;
    hide IsRun, Final, Watched, Based, TotalLoss, AtBase, Settled, Initial, Cong, TakeReadback;
    PositionConservation(s, none, steps);
    var t := Final(s, steps);
    assert Minus(Minus(t.pos, t.k.played), Frame(s)) == Minus(Minus(t.pos, s.pos), Minus(t.k.played, s.k.played));
  }

  lemma ConservedFrom(o: Track, b: Sys, steps: seq<Step>)
    requires SysSane(b) && InOrder(o, b) && AtBase(o, b) && IsRun(b, steps) && Based(b, steps)
    requires Final(b, steps).g.readback.RbDone? && Settled(Watched(o, b, steps), Final(b, steps))
    ensures ReadBack(Final(b, steps), Frame(b), TotalLoss(o, b, steps))
  {
    assert Settled(o, b);
    hide *;
    RunBalance(o, b, steps);
    SettledBalance(o, b);
    SettledBalance(Watched(o, b, steps), Final(b, steps));
    ReadbackMeans(Final(b, steps), Frame(b), TotalLoss(o, b, steps));
  }

  /** What the read-back of t is worth against a frame and a loss. */
  predicate ReadBack(t: Sys, frame: Vec, lost: Vec) {
    var unplayed := Minus(Minus(t.pos, t.k.played), frame);
    var v := TakeReadback(t.g).2;
    && Cong(v, Minus(unplayed, lost))
    && (Cong(v, unplayed) <==> Cong(lost, ZERO))
    && (Cong(lost, ZERO) && FitsInt32(unplayed.x) ==> v.x == unplayed.x)
    && (Cong(lost, ZERO) && FitsInt32(unplayed.y) ==> v.y == unplayed.y)
    && (Cong(lost, ZERO) && FitsInt32(unplayed.z) ==> v.z == unplayed.z)
  }

  /** The last algebra: count less play less read-back is the frame and the loss. */
  lemma ReadbackMeans(t: Sys, frame: Vec, lost: Vec)
    requires Cong(Minus(Minus(t.pos, t.k.played), t.g.unplayed), Plus(frame, lost))
    ensures ReadBack(t, frame, lost)
  {
    hide Cong;
    var unplayed := Minus(Minus(t.pos, t.k.played), frame);
    var v := TakeReadback(t.g).2;
    CongTermLess(t.g.unplayed, Minus(unplayed, lost), Minus(Minus(t.pos, t.k.played), t.g.unplayed), Plus(frame, lost));
    SignedCong(t.g.unplayed);
    CongTrans(v, t.g.unplayed, Minus(unplayed, lost));
    CongDifference(v, unplayed, lost);
    if Cong(lost, ZERO) { ExactReadback(t.g.unplayed, unplayed) by { CongBack(t.g.unplayed, v, unplayed); } }
  }

  lemma CongBack(u: Vec, v: Vec, w: Vec)
    requires Cong(v, u) && Cong(v, w)
    ensures Cong(u, w)
  {
  }

  /** A difference is the minuend exactly when what is taken off is zero. */
  lemma CongDifference(v: Vec, w: Vec, lost: Vec)
    requires Cong(v, Minus(w, lost))
    ensures Cong(v, w) <==> Cong(lost, ZERO)
  {
    hide Cong;
    if Cong(v, w) {
      CongBack(w, v, Minus(w, lost));
      CongTermLess(lost, ZERO, Minus(w, lost), w) by { CongBack(Minus(w, lost), v, w); }
    }
    if Cong(lost, ZERO) {
      CongTermLess(Minus(w, lost), w, lost, ZERO);
      CongTrans(v, Minus(w, lost), w);
    }
  }

  lemma ExactReadback(u: Vec, w: Vec)
    requires Cong(u, w)
    ensures var v := Vec(Signed(U32(u.x)), Signed(U32(u.y)), Signed(U32(u.z)));
            && Cong(v, w)
            && (FitsInt32(w.x) ==> v.x == w.x) && (FitsInt32(w.y) ==> v.y == w.y) && (FitsInt32(w.z) ==> v.z == w.z)
  {
    SignedCong(u);
    if FitsInt32(w.x) { SignedExact(w.x); }
    if FitsInt32(w.y) { SignedExact(w.y); }
    if FitsInt32(w.z) { SignedExact(w.z); }
  }
}
