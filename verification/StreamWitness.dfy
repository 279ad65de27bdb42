/** Runs of the machine, from its start, into the states where a promise fails: each
    is the input behind an exact condition proved elsewhere. */
module StreamWitness {
  import opened PulseBytes
  import opened DitherModel
  import opened StreamRing
  import opened LaserQueue
  import opened StreamEngine
  import opened StreamSystem
  import R = StreamResidue
  import G = StreamGrammar
  import D = StreamDark
  import O = StreamOrder
  import P = StreamPosition

  // ---- putting runs together ----

  /** Some run leads from one state and residue log to another. */
  ghost predicate Leads(g: R.Log, s: Sys, h: R.Log, t: Sys) {
    SysSane(s) && exists steps :: IsRun(s, steps) && Final(s, steps) == t && R.Watched(g, s, steps) == h
  }

  lemma {:induction false} RunJoin(g: R.Log, s: Sys, a: seq<Step>, b: seq<Step>)
    requires SysSane(s) && IsRun(s, a) && IsRun(Final(s, a), b)
    ensures IsRun(s, a + b) && Final(s, a + b) == Final(Final(s, a), b)
    ensures R.Watched(g, s, a + b) == R.Watched(R.Watched(g, s, a), Final(s, a), b)
    decreases |a|
  {
    hide Next, Enabled, R.Observe;
    if a == [] {
      assert a + b == b;
    } else {
      assert (a + b)[0] == a[0] && (a + b)[1..] == a[1..] + b;
      RunJoin(R.Observe(g, s, a[0]), Next(s, a[0]), a[1..], b);
    }
  }

  lemma Joined(g0: R.Log, s0: Sys, g1: R.Log, s1: Sys, g2: R.Log, s2: Sys)
    requires Leads(g0, s0, g1, s1) && Leads(g1, s1, g2, s2)
    ensures Leads(g0, s0, g2, s2)
  {
    var a :| IsRun(s0, a) && Final(s0, a) == s1 && R.Watched(g0, s0, a) == g1;
    var b :| IsRun(s1, b) && Final(s1, b) == s2 && R.Watched(g1, s1, b) == g2;
    hide IsRun, Final, R.Watched;
    RunJoin(g0, s0, a, b);
  }

  /** One step. */
  lemma Takes(g: R.Log, s: Sys, a: Step)
    requires SysSane(s) && Enabled(s, a)
    ensures Leads(g, s, R.Observe(g, s, a), Next(s, a))
  {
    hide Next, Enabled, R.Observe;
    var one := [a];
    assert one[0] == a && one[1..] == [];
    RunIsOver(R.Observe(g, s, a), Next(s, a), one[1..]);
    assert IsRun(s, one) && Final(s, one) == Next(s, a) && R.Watched(g, s, one) == R.Observe(g, s, a);
  }

  lemma RunIsOver(g: R.Log, s: Sys, none: seq<Step>)
    requires SysSane(s) && |none| == 0
    ensures IsRun(s, none) && Final(s, none) == s && R.Watched(g, s, none) == g
  {
  }

  /** A step at the end of a run. */
  lemma Then(g0: R.Log, s0: Sys, g: R.Log, s: Sys, a: Step)
    requires Leads(g0, s0, g, s) && SysSane(s) && Enabled(s, a)
    ensures Leads(g0, s0, R.Observe(g, s, a), Next(s, a))
  {
    hide Leads, Next, Enabled, R.Observe;
    Takes(g, s, a);
    Joined(g0, s0, g, s, R.Observe(g, s, a), Next(s, a));
  }

  // ---- a stream that ships its first depth and ends ----

  /** A queue depth as the start-up sets it. */
  predicate Deep(g: Gf) { 20 <= g.depth <= RING_SIZE / 2 }

  /** Between streams: nothing of the engine's in the kernel and an empty ring. */
  predicate Parked(s: Sys) {
    && SysSane(s) && s.pc == Top && NoStepsLeft(s.g.ring) && Deep(s.g) && s.pend == ZERO
    && !s.g.failed && !s.g.streaming && !s.g.kernelRunning && !s.g.clearPending
  }

  /** A fresh stream, its ring empty behind one depth of pads. */
  predicate Woken(s: Sys, t: Sys) {
    && SysSane(t) && NoStepsLeft(t.g.ring) && Deep(t.g) && t.g.depth == s.g.depth && t.pend == ZERO && t.k == s.k
    && t.g.streaming && !t.g.failed && !t.g.kernelRunning && !t.g.clearPending && t.g.written == s.g.written
    && t.g.ring.shipped == 0 && t.g.ring.produced == t.g.depth == t.g.ring.base && t.g.ring.vticks == 0
    && t.armed == s.armed && t.gate == s.gate && !t.g.killed
  }

  lemma Wakes(s: Sys)
    requires Parked(s)
    ensures Enabled(s, ByCore(Wake(s.g.depth)))
    ensures var t := CoreNext(s, Wake(s.g.depth)); Woken(s, t) && t.pc == Top
  {
    hide Reassert, NoStepsLeft;
    SameSlots(s.g.ring, Fresh(s.g.ring, s.g.depth));
  }

  lemma SameSlots(r: Ring, q: Ring)
    requires Sized(r) && NoStepsLeft(r) && q.slots == r.slots
    ensures NoStepsLeft(q)
  {
  }

  lemma Snaps(s: Sys, landed: bool)
    requires SysSane(s) && s.pc == Top && !s.g.clearPending
    ensures Enabled(s, ByShipper(Snap(landed))) && ShipNext(s, Snap(landed)) == s.(pc := Ready)
  {
    hide PadOnly;
  }

  /** The index a first pass ships to: the depth, or the tick behind it. */
  predicate FirstDue(g: Gf, due: nat) { g.depth <= due <= g.depth + 1 }

  /** Full power and fire in force, and nothing queued behind them. */
  predicate Burning(l: Laser) { l.lev == [] && l.curFire && l.curPower == FULL_DUTY }

  /** The analog laser whose one queued transition lights the last tick before due. */
  predicate LightsLast(l: Laser, shipped: nat, due: nat) {
    && l.dith.period == 0 && shipped <= due && l.wantPower == FULL_DUTY && l.wantFire && !l.jogging
    && (if shipped < due then l.lev == [Ev(due - 1, FULL_DUTY, true)] else l.lastLit && Burning(l))
  }

  lemma {:induction false} TickLights(l: Laser, shipped: nat, due: nat, v: Vec)
    requires LightsLast(l, shipped, due) && shipped < due
    ensures LightsLast(LaserTick(l, shipped, true, v).0, shipped + 1, due)
  {
    assert l.lev[0].idx == due - 1;
    if shipped + 1 == due {
      DrainedOut(l.lev, shipped, l.curFire, l.curPower, false);
    } else {
      assert Drain(l.lev, shipped, l.curFire, l.curPower, false) == Drained(l.lev, l.curFire, l.curPower, false);
    }
    hide Drain, DitherTick, Restart;
  }

  predicate SameTime(r: Ring, q: Ring) { q.produced == r.produced && q.base == r.base && q.vticks == r.vticks }

  /** A chunk over an empty ring: at most two bytes a tick, and the last light kept. */
  lemma {:induction false} PadChunk(b: Build, gate: bool, due: nat, lit: bool)
    requires Sized(b.r) && NoStepsLeft(b.r) && b.r.shipped <= due
    requires lit ==> gate && LightsLast(b.l, b.r.shipped, due)
    ensures var c := BuildChunk(b, gate, due, true);
            && NoStepsLeft(c.r) && SameTime(b.r, c.r) && b.r.shipped <= c.r.shipped <= due
            && |c.bytes| <= |b.bytes| + 2 * (c.r.shipped - b.r.shipped)
            && (More(b, due, true) ==> b.r.shipped < c.r.shipped)
            && (lit ==> LightsLast(c.l, c.r.shipped, due))
    decreases due - b.r.shipped
  {
    hide LaserTick, LightsLast, NoStepsLeft, Ship;
    ChunkUnfolds(b, gate, due, true);
    if More(b, due, true) {
      hide BuildChunk;
      var v := Ship(b.r).1;
      CursorMoves(b.r);
      ShipsPad(b.r);
      LaserTickShape(b.l, b.r.shipped, gate, v);
      if lit { TickLights(b.l, b.r.shipped, due, v); }
      PadChunk(BuildTick(b, gate), gate, due, lit);
    }
  }

  lemma ShipsPad(r: Ring)
    requires Sized(r) && NoStepsLeft(r)
    ensures NoStepsLeft(Ship(r).0) && SameTime(r, Ship(r).0)
  {
  }

  /** A chunk of the first pass is under its write, behind sofar. */
  predicate Shipping(s: Sys, t: Sys, sofar: seq<Byte>, due: nat, lit: bool) {
    && Midway(s, t) && t.k == Take(s.k, sofar) && t.g.written == U32(s.g.written + |sofar|)
    && t.g.ring.shipped <= due && FirstDue(s.g, due)
    && t.pc.Writing? && t.pc.gate == s.gate && t.pc.due == due && (t.pc.first <==> sofar == [])
    && (t.pc.first || t.pc.startRun)
    && t.pc.chunk != [] && |sofar| + |t.pc.chunk| <= 2 * t.g.ring.shipped
    && Lit(t.pc.chunk[|t.pc.chunk| - 1]) == t.g.laser.lastLit
    && (lit ==> s.gate && LightsLast(t.g.laser, t.g.ring.shipped, due))
  }

  /** What stays so from the first chunk to the run request. */
  predicate Midway(s: Sys, t: Sys) {
    && SysSane(t) && NoStepsLeft(t.g.ring) && Deep(t.g) && t.g.depth == s.g.depth && t.pend == ZERO
    && t.g.streaming && !t.g.failed && t.g.kernelRunning && !t.g.clearPending && !t.g.killed
    && t.g.runBase == s.g.written && t.g.ring.produced == s.g.depth == t.g.ring.base && t.g.ring.vticks == 0
    && t.armed == s.armed && t.gate == s.gate
  }

  /** The next chunk built by the turn. */
  lemma TurnBuilds(s: Sys, gate: bool, due: nat, startRun: bool, lit: bool)
    requires SysSane(s) && NoStepsLeft(s.g.ring) && s.g.streaming && s.g.ring.shipped < due
    requires lit ==> gate && LightsLast(s.g.laser, s.g.ring.shipped, due)
    ensures var t := ShipTurn(s, gate, due, startRun);
            && t.pc.Writing? && t.pc == Writing(t.pc.chunk, !s.g.kernelRunning, gate, due, startRun)
            && t == s.(g := t.g, pc := t.pc)
            && t.g == s.g.(laser := t.g.laser, ring := t.g.ring, kernelRunning := true,
                           runBase := if s.g.kernelRunning then s.g.runBase else s.g.written)
            && NoStepsLeft(t.g.ring) && SameTime(s.g.ring, t.g.ring)
            && s.g.ring.shipped < t.g.ring.shipped <= due
            && t.pc.chunk != [] && |t.pc.chunk| <= 2 * (t.g.ring.shipped - s.g.ring.shipped)
            && Lit(t.pc.chunk[|t.pc.chunk| - 1]) == t.g.laser.lastLit
            && (lit ==> LightsLast(t.g.laser, t.g.ring.shipped, due))
  {
    var b := Build(s.g.laser, s.g.ring, []);
    PadChunk(b, gate, due, lit);
    D.ChunkEnd(s.g, gate, due);
    hide BuildChunk, NoStepsLeft, LightsLast;
  }

  /** The first chunk. */
  lemma Begins(s: Sys, due: nat, lit: bool)
    requires Woken(s, s) && s.pc == Ready && FirstDue(s.g, due)
    requires lit ==> s.gate && LightsLast(s.g.laser, 0, due)
    ensures Enabled(s, ByShipper(Begin(due, false)))
    ensures var t := DoBegin(s, due, false); Shipping(s, t, [], due, lit) && t.k == s.k
  {
    G.SampledSame(s);
    var u := Sampled(s);
    assert lit ==> u.g.laser.lev == s.g.laser.lev;
    TurnBuilds(u, s.gate, due, false, lit);
    assert s.k.taken + [] == s.k.taken;
    hide ShipTurn, Sampled, NoStepsLeft, GateEdge, Lit;
  }

  /** A chunk written, and the next one built. */
  lemma WritesOn(s: Sys, t: Sys, sofar: seq<Byte>, due: nat, lit: bool)
    requires Shipping(s, t, sofar, due, lit) && t.g.ring.shipped < due
    ensures Enabled(t, ByShipper(WriteOk))
    ensures var u := DoWriteOk(t);
            Shipping(s, u, sofar + t.pc.chunk, due, lit) && t.g.ring.shipped < u.g.ring.shipped
  {
    hide ShipTurn, NoStepsLeft, StepsOf, Wrap, U32, Lit, LightsLast, ChunkTaken, Take, Midway;
    ShippingSane(s, t, sofar, due, lit);
    var u := t.(g := ChunkTaken(t.g, t.pc.chunk), k := Take(t.k, t.pc.chunk));
    ChunkLands(s, t, sofar, due, lit, u);
    TurnBuilds(u, s.gate, due, true, lit);
    assert DoWriteOk(t) == ShipTurn(u, s.gate, due, true);
    StillMidway(s, u, DoWriteOk(t));
  }

  lemma ChunkLands(s: Sys, t: Sys, sofar: seq<Byte>, due: nat, lit: bool, u: Sys)
    requires Shipping(s, t, sofar, due, lit)
    requires u == t.(g := ChunkTaken(t.g, t.pc.chunk), k := Take(t.k, t.pc.chunk))
    ensures Midway(s, u) && SysSane(u) && NoStepsLeft(u.g.ring) && u.g.streaming && u.g.kernelRunning
    ensures !u.g.failed && !u.g.clearPending && u.g.laser == t.g.laser && u.g.ring == t.g.ring
    ensures u.k == Take(s.k, sofar + t.pc.chunk) && u.g.written == U32(s.g.written + |sofar + t.pc.chunk|)
  {
    Written(s.g.written, sofar, t.pc.chunk);
    assert (s.k.taken + sofar) + t.pc.chunk == s.k.taken + (sofar + t.pc.chunk);
    hide NoStepsLeft, StepsOf, Wrap, U32, Lit, LightsLast;
  }

  lemma StillMidway(s: Sys, u: Sys, t: Sys)
    requires Midway(s, u) && SysSane(t) && t == u.(g := t.g, pc := t.pc)
    requires t.g == u.g.(laser := t.g.laser, ring := t.g.ring)
    requires NoStepsLeft(t.g.ring) && SameTime(u.g.ring, t.g.ring)
    ensures Midway(s, t)
  {
    hide NoStepsLeft;
  }

  lemma Written(written: u32, a: seq<Byte>, b: seq<Byte>)
    ensures U32(U32(written + |a|) + |b|) == U32(written + |a + b|)
  {
    R.U32Next(written + |a|, |b|);
  }

  /** The last chunk written: the pass asks for its run. */
  predicate Asking(s: Sys, t: Sys, chunk: seq<Byte>, due: nat, lit: bool) {
    && Midway(s, t) && t.k == Take(s.k, chunk) && t.g.written == U32(s.g.written + |chunk|)
    && t.g.ring.shipped == due && FirstDue(s.g, due) && t.pc == Gating(t.g.runBase, t.g.written)
    && chunk != [] && |chunk| <= 2 * due
    && Lit(chunk[|chunk| - 1]) == t.g.laser.lastLit && (lit ==> LightsLast(t.g.laser, due, due))
  }

  lemma WritesLast(s: Sys, t: Sys, sofar: seq<Byte>, due: nat, lit: bool)
    requires Shipping(s, t, sofar, due, lit) && t.g.ring.shipped == due
    ensures Enabled(t, ByShipper(WriteOk))
    ensures Asking(s, DoWriteOk(t), sofar + t.pc.chunk, due, lit)
  {
    Written(s.g.written, sofar, t.pc.chunk);
    assert (s.k.taken + sofar) + t.pc.chunk == s.k.taken + (sofar + t.pc.chunk);
    hide StepsOf, Wrap, NoStepsLeft, U32;
  }

  /** The residue log of a first chunk built. */
  lemma LogsBegin(g: R.Log, s: Sys, due: nat, t: Sys, lit: bool)
    requires s.pc == Ready && SysSane(s) && t == DoBegin(s, due, false) && Shipping(s, t, [], due, lit)
    ensures Enabled(s, ByShipper(Begin(due, false))) && ShipNext(s, Begin(due, false)) == t
    ensures R.Observe(g, s, ByShipper(Begin(due, false))) == g.(start := R.Own(t.k), run := [], clean := true)
  {
    assert t.pc.Writing? && t.pc.first;
    hide DoBegin, Shipping;
  }

  /** And of a write. */
  lemma LogsWrite(g: R.Log, t: Sys)
    requires SysSane(t) && t.pc.Writing? && !(DoWriteOk(t).pc.Writing? && DoWriteOk(t).pc.first)
    ensures Enabled(t, ByShipper(WriteOk)) && ShipNext(t, WriteOk) == DoWriteOk(t)
    ensures R.Observe(g, t, ByShipper(WriteOk)) == g.(run := g.run + t.pc.chunk)
  {
    hide DoWriteOk;
  }

  /** A fresh stream, up to its first shipping pass. */
  lemma WakeUp(g0: R.Log, s0: Sys, g: R.Log, s: Sys) returns (t: Sys)
    requires Leads(g0, s0, g, s) && Parked(s)
    ensures Leads(g0, s0, g, t) && Woken(s, t) && t.pc == Ready
  {
    Wakes(s);
    var s1 := CoreNext(s, Wake(s.g.depth));
    Snaps(s1, false);
    t := s1.(pc := Ready);
    assert Woken(s, t);
    hide Leads, CoreNext, Woken, IsRun, Final, R.Watched;
    Then(g0, s0, g, s, ByCore(Wake(s.g.depth)));
    Then(g0, s0, g, s1, ByShipper(Snap(false)));
  }

  /** Its chunks, one written behind the other. */
  lemma {:induction false} ShipOn(g0: R.Log, s0: Sys, g: R.Log, s: Sys, t: Sys, sofar: seq<Byte>, due: nat, lit: bool)
    returns (h: R.Log, u: Sys, chunk: seq<Byte>)
    requires Leads(g0, s0, g, t) && Shipping(s, t, sofar, due, lit) && g.run == sofar
    ensures Leads(g0, s0, h, u) && Asking(s, u, chunk, due, lit) && h == g.(run := chunk)
    decreases due - t.g.ring.shipped
  {
    ShippingSane(s, t, sofar, due, lit);
    h, u, chunk := g.(run := sofar + t.pc.chunk), DoWriteOk(t), sofar + t.pc.chunk;
    if t.g.ring.shipped < due { WritesOn(s, t, sofar, due, lit); } else { WritesLast(s, t, sofar, due, lit); }
    WriteCarries(s, t, u, chunk, due, lit);
    hide Leads, Shipping, Asking, DoWriteOk, IsRun, Final, R.Watched, R.Observe;
    LogsWrite(g, t);
    ShipIs(t, WriteOk);
    Then(g0, s0, g, t, ByShipper(WriteOk));
    if t.g.ring.shipped < due { h, u, chunk := ShipOn(g0, s0, h, s, u, chunk, due, lit); }
  }

  lemma ShippingSane(s: Sys, t: Sys, sofar: seq<Byte>, due: nat, lit: bool)
    requires Shipping(s, t, sofar, due, lit)
    ensures SysSane(t) && t.pc.Writing? && t.pc.chunk != [] && t.g.ring.shipped <= due
  {
  }

  lemma WriteCarries(s: Sys, t: Sys, u: Sys, chunk: seq<Byte>, due: nat, lit: bool)
    requires chunk != [] && (Shipping(s, u, chunk, due, lit) || Asking(s, u, chunk, due, lit))
    ensures !(u.pc.Writing? && u.pc.first)
  {
  }

  /** A whole first pass. */
  lemma ShipOnce(g0: R.Log, s0: Sys, g: R.Log, s: Sys, due: nat, lit: bool) returns (h: R.Log, t: Sys, chunk: seq<Byte>)
    requires Leads(g0, s0, g, s) && Woken(s, s) && s.pc == Ready && FirstDue(s.g, due)
    requires lit ==> s.gate && LightsLast(s.g.laser, 0, due)
    ensures Leads(g0, s0, h, t) && Asking(s, t, chunk, due, lit)
    ensures h == g.(start := R.Own(s.k), run := chunk, clean := true)
  {
    assert SysSane(s);
    Begins(s, due, lit);
    var u := DoBegin(s, due, false);
    var f := g.(start := R.Own(s.k), run := [], clean := true);
    hide *;
    LogsBegin(g, s, due, u, lit);
    Then(g0, s0, g, s, ByShipper(Begin(due, false)));
    ShipIs(s, Begin(due, false));
    h, t, chunk := ShipOn(g0, s0, f, s, u, [], due, lit);
  }

  lemma ShipIs(s: Sys, h: ShipStep)
    requires SysSane(s) && Enabled(s, ByShipper(h))
    ensures ShipEnabled(s, h) && Next(s, ByShipper(h)) == ShipNext(s, h)
  {
    hide ShipNext, ShipEnabled;
  }

  /** From between streams to the run request of a stream that ships its first depth. */
  lemma StreamOnce(g0: R.Log, s0: Sys, g: R.Log, s: Sys) returns (h: R.Log, t: Sys, chunk: seq<Byte>)
    requires Leads(g0, s0, g, s) && Parked(s)
    ensures Leads(g0, s0, h, t) && Asking(s, t, chunk, s.g.depth, false)
    ensures h == g.(start := R.Own(s.k), run := chunk, clean := true)
  {
    hide Leads, IsRun, Final, R.Watched, NoStepsLeft;
    var u := WakeUp(g0, s0, g, s);
    h, t, chunk := ShipOnce(g0, s0, g, u, s.g.depth, false);
  }

  // ---- its run, and its end ----

  /** The stream's run plays. */
  predicate Playing(s: Sys, chunk: seq<Byte>) {
    && SysSane(s) && NoStepsLeft(s.g.ring) && Deep(s.g) && s.pend == ZERO && s.pc == Top
    && s.g.streaming && !s.g.failed && s.g.kernelRunning && !s.g.clearPending && !s.g.killed
    && s.g.ring.produced == s.g.depth == s.g.ring.base && s.g.ring.vticks == 0
    && s.g.depth <= s.g.ring.shipped && s.g.written == |chunk|
    && s.k.st == Running && s.k.taken == chunk && s.k.processed == 0 && s.k.foreign == 0
    && chunk != [] && |chunk| <= RING_SIZE + 2 && Lit(chunk[|chunk| - 1]) == s.g.laser.lastLit
  }

  /** A controller as it starts, at an idle kernel and disarmed. */
  predicate Opening(s: Sys) { Initial(s) && Deep(s.g) && s.k.st == Idle && !s.armed }

  lemma Passes(s: Sys, t: Sys, chunk: seq<Byte>, due: nat, lit: bool)
    requires Asking(s, t, chunk, due, lit) && s.k.taken == [] && s.k.foreign == 0 && s.k.processed == 0
    requires s.k.st == Idle
    requires s.g.written == 0
    ensures Enabled(t, ByShipper(GateRead(true, true)))
    ensures var u := DoGateRead(t, true, true);
            && u == t.(pc := Issuing(false, true)) && Enabled(u, ByShipper(IssueRun))
            && Playing(ShipNext(u, IssueRun), chunk)
  {
    assert [] + chunk == chunk;
    assert t.g.written == |chunk| && t.g.runBase == 0;
    NothingPlayed(t.k, |chunk|);
    GateGoes(t);
    IssueGoes(t.(pc := Issuing(false, true)));
    hide DoGateRead, ShipNext, Enabled, NoStepsLeft, CountsMatch, CanStart, Lit;
  }

  lemma GateGoes(t: Sys)
    requires SysSane(t) && t.pc.Gating? && t.k.st == Idle && CountsMatch(t.k, t.pc.base, t.pc.written)
    ensures Enabled(t, ByShipper(GateRead(true, true)))
    ensures DoGateRead(t, true, true) == t.(pc := Issuing(false, true))
  {
    hide CountsMatch, NoStepsLeft;
  }

  lemma IssueGoes(u: Sys)
    requires SysSane(u) && u.pc.Issuing? && CanStart(u.k)
    ensures Enabled(u, ByShipper(IssueRun))
    ensures ShipNext(u, IssueRun) == u.(k := u.k.(st := Running), pc := Top)
  {
    hide CanStart, NoStepsLeft;
  }

  lemma NothingPlayed(k: Kernel, n: nat)
    requires k.processed == 0 && |k.taken| == n && n <= RING_SIZE + 2
    ensures CountsMatch(k, 0, n)
  {
  }

  lemma FirstRun(s: Sys) returns (g: R.Log, t: Sys, chunk: seq<Byte>)
    requires Opening(s)
    ensures Leads(R.START, s, g, t) && Playing(t, chunk) && t.armed == s.armed
  {
    Starts(s);
    var h, u, c := StreamOnce(R.START, s, R.START, s);
    chunk := c;
    Passes(s, u, c, s.g.depth, false);
    var v := DoGateRead(u, true, true);
    t := ShipNext(v, IssueRun);
    var h1 := R.Observe(h, u, ByShipper(GateRead(true, true)));
    g := R.Observe(h1, v, ByShipper(IssueRun));
    hide Leads, DoGateRead, NoStepsLeft, IsRun, Final, R.Watched, R.Observe, Playing, Asking, Opening, ShipEnabled;
    Then(R.START, s, h, u, ByShipper(GateRead(true, true)));
    Then(R.START, s, h1, v, ByShipper(IssueRun));
  }

  lemma Starts(s: Sys)
    requires Opening(s)
    ensures Parked(s) && Leads(R.START, s, R.START, s)
  {
    var none: seq<Step> := [];
    RunIsOver(R.START, s, none);
    hide IsRun, Final, R.Watched;
    assert IsRun(s, none);
  }

  /** A stream ended behind its cursor: the engine lets the run go. */
  lemma EndsStream(g0: R.Log, s0: Sys, g: R.Log, s: Sys) returns (t: Sys)
    requires Leads(g0, s0, g, s) && SysSane(s) && s.pc == Top && NoStepsLeft(s.g.ring) && Deep(s.g) && s.pend == ZERO
    requires s.g.streaming && !s.g.failed && s.g.kernelRunning && !s.g.clearPending
    requires s.g.ring.produced <= s.g.ring.shipped
    ensures Leads(g0, s0, g, t) && Parked(t) && t.k == s.k && t.g.written == s.g.written && t.armed == s.armed
  {
    var s1 := CoreNext(s, Sleep(false));
    Sleeps(s);
    Snaps(s1, false);
    var s2 := s1.(pc := Ready);
    Finishes(s2);
    t := DoBegin(s2, s.g.depth, false);
    hide Leads, CoreNext, DoBegin, NoStepsLeft, IsRun, Final, R.Watched, Parked, DoSnap, ShipEnabled, CoreEnabled;
    Then(g0, s0, g, s, ByCore(Sleep(false)));
    Then(g0, s0, g, s1, ByShipper(Snap(false)));
    Then(g0, s0, g, s2, ByShipper(Begin(s.g.depth, false)));
  }

  lemma Sleeps(s: Sys)
    requires SysSane(s) && s.pend == ZERO && s.g.streaming
    ensures Enabled(s, ByCore(Sleep(false)))
    ensures var t := CoreNext(s, Sleep(false));
            && t == s.(g := t.g) && t.g == s.g.(streaming := false, laser := t.g.laser)
            && t.g.laser.lastLit == s.g.laser.lastLit
  {
    hide EnqueueOff;
  }

  lemma Finishes(s: Sys)
    requires SysSane(s) && s.pc == Ready && NoStepsLeft(s.g.ring) && Deep(s.g) && s.pend == ZERO
    requires !s.g.streaming && !s.g.failed && s.g.kernelRunning && !s.g.clearPending
    requires s.g.ring.produced <= s.g.ring.shipped
    ensures Enabled(s, ByShipper(Begin(s.g.depth, false)))
    ensures var t := DoBegin(s, s.g.depth, false);
            Parked(t) && t.k == s.k && t.g.written == s.g.written && t.armed == s.armed
  {
    G.SampledSame(s);
    hide GateEdge, NoStepsLeft, PadOnly;
    var t := DoBegin(s, s.g.depth, false);
    assert t == FinishStream(Sampled(s), false);
    SameSlots(s.g.ring, t.g.ring);
  }

  // ---- the starts the run gate does not see through ----

  /** The kernel step of another writer, or of its own. */
  lemma KernelDoes(g0: R.Log, s0: Sys, g: R.Log, s: Sys, e: KernelStep) returns (h: R.Log, t: Sys)
    requires Leads(g0, s0, g, s) && SysSane(s) && KernelEnabled(s, e)
    ensures t == KernelNext(s, e) && h == R.Observe(g, s, ByKernel(e)) && Leads(g0, s0, h, t)
  {
    t := KernelNext(s, e);
    h := R.Observe(g, s, ByKernel(e));
    hide Leads, KernelNext, KernelEnabled, R.Observe;
    Then(g0, s0, g, s, ByKernel(e));
  }

  /** The kernel plays n bytes. */
  lemma {:induction false} PlayBytes(g0: R.Log, s0: Sys, g: R.Log, s: Sys, n: nat) returns (t: Sys)
    requires Leads(g0, s0, g, s) && SysSane(s) && s.k.st == Running && n <= |s.k.taken| - s.k.processed
    ensures Leads(g0, s0, g, t) && SysSane(t)
    ensures t == s.(k := t.k) && t.k == s.k.(processed := s.k.processed + n, played := t.k.played)
    decreases n
  {
    if n == 0 {
      t := s;
    } else {
      hide Leads;
      var h, u := KernelDoes(g0, s0, g, s, Play);
      t := PlayBytes(g0, s0, h, u, n - 1);
    }
  }

  /** The gate's reading of a kernel that is neither running nor idle. */
  lemma GateYields(g0: R.Log, s0: Sys, g: R.Log, s: Sys) returns (h: R.Log, t: Sys)
    requires Leads(g0, s0, g, s) && SysSane(s) && s.pc.Gating? && (s.k.st == Underrun || s.k.st == Faulted)
    ensures Leads(g0, s0, h, t) && h == g.(quiet := true, seen := s.k.st) && t == s.(pc := Issuing(false, false))
  {
    t := s.(pc := Issuing(false, false));
    h := g.(quiet := true, seen := s.k.st);
    assert DoGateRead(s, true, true) == t;
    hide Leads, DoGateRead;
    Then(g0, s0, g, s, ByShipper(GateRead(true, true)));
  }

  /** The same of one whose counts pass. */
  lemma GatePasses(g0: R.Log, s0: Sys, g: R.Log, s: Sys) returns (h: R.Log, t: Sys)
    requires Leads(g0, s0, g, s) && SysSane(s) && s.pc.Gating? && s.k.st == Idle
    requires CountsMatch(s.k, s.pc.base, s.pc.written)
    ensures Leads(g0, s0, h, t) && h == g.(quiet := true, seen := Idle) && t == s.(pc := Issuing(false, true))
  {
    t := s.(pc := Issuing(false, true));
    h := g.(quiet := true, seen := Idle);
    assert DoGateRead(s, true, true) == t;
    hide Leads, DoGateRead, CountsMatch;
    Then(g0, s0, g, s, ByShipper(GateRead(true, true)));
  }

  /** The next stream, behind a run that stopped. */
  lemma NextStream(g0: R.Log, s0: Sys, g: R.Log, s: Sys) returns (h: R.Log, t: Sys, chunk: seq<Byte>)
    requires Leads(g0, s0, g, s) && SysSane(s) && s.pc == Top && NoStepsLeft(s.g.ring) && Deep(s.g) && s.pend == ZERO
    requires s.g.streaming && !s.g.failed && s.g.kernelRunning && !s.g.clearPending
    requires s.g.ring.produced <= s.g.ring.shipped
    ensures Leads(g0, s0, h, t) && SysSane(t) && t.armed == s.armed && t.k == Take(s.k, chunk)
    ensures t.pc == Gating(s.g.written, U32(s.g.written + |chunk|)) && chunk != [] && |chunk| <= RING_SIZE + 2
    ensures h == g.(start := R.Own(s.k), run := chunk, clean := true)
  {
    hide Leads, NoStepsLeft;
    var u := EndsStream(g0, s0, g, s);
    h, t, chunk := StreamOnce(g0, s0, g, u);
  }

  /** The run reaches a request, and what the request starts is not what it wrote. */
  ghost predicate ReplayRun(s: Sys, steps: seq<Step>, extra: seq<Byte>, counted: bool, retried: bool)
    requires SysSane(s)
  {
    IsRun(s, steps) &&
    var t, g := Final(s, steps), R.Watched(R.START, s, steps);
    && ShipEnabled(t, IssueRun) && t.pc == Issuing(retried, counted) && g.clean && g.quiet
    && Queue(t.k) == extra + g.run && extra != []
  }

  ghost predicate Replays(s: Sys, extra: seq<Byte>, counted: bool, retried: bool) {
    SysSane(s) && exists steps :: ReplayRun(s, steps, extra, counted, retried)
  }

  lemma Shown(s: Sys, g: R.Log, t: Sys, extra: seq<Byte>, counted: bool, retried: bool)
    requires Leads(R.START, s, g, t) && SysSane(t) && t.pc == Issuing(retried, counted) && g.clean && g.quiet
    requires CanStart(t.k) && Queue(t.k) == extra + g.run && extra != []
    ensures Replays(s, extra, counted, retried)
  {
    var steps :| IsRun(s, steps) && Final(s, steps) == t && R.Watched(R.START, s, steps) == g;
    hide IsRun, Final, R.Watched;
    assert ReplayRun(s, steps, extra, counted, retried);
  }

  /** An underrun whose acknowledgment starts a run over a byte another writer added
      since the kernel ran dry. */
  lemma UnderrunReplaysAForeignByte(s: Sys, f: Byte)
    requires Opening(s)
    ensures Replays(s, [f], false, true)
  {
    hide Leads, NoStepsLeft, R.Own, Replays;
    var g1, s1, c := FirstRun(s);
    var s2 := PlayBytes(R.START, s, g1, s1, |c|);
    var g3, s3 := KernelDoes(R.START, s, g1, s2, KernelTo(Underrun));
    var g4, s4 := KernelDoes(R.START, s, g3, s3, Foreign([f]));
    var g5, s5, d := NextStream(R.START, s, g4, s4);
    var g6, s6 := GateYields(R.START, s, g5, s5);
    var s7 := s6.(k := s6.k.(st := Idle), pc := Issuing(true, false));
    Then(R.START, s, g6, s6, ByShipper(IssueAck(true)));
    assert s6.k.taken == (c + [f]) + d;
    assert Queue(s7.k) == [f] + d;
    Shown(s, g6, s7, [f], false, true);
  }

  /** A fault read by the gate, gone before the request: what the fault stopped plays
      again. */
  lemma FaultLeftReplaysItsRun(s: Sys) returns (stopped: seq<Byte>)
    requires Opening(s)
    ensures Replays(s, stopped, false, false)
  {
    hide Leads, NoStepsLeft, R.Own, Replays;
    var g1, s1, c := FirstRun(s);
    stopped := c;
    var g2, s2 := KernelDoes(R.START, s, g1, s1, KernelTo(Faulted));
    var g3, s3, d := NextStream(R.START, s, g2, s2);
    var g4, s4 := GateYields(R.START, s, g3, s3);
    var g5, s5 := KernelDoes(R.START, s, g4, s4, KernelTo(Idle));
    assert Queue(s5.k) == c + d;
    Shown(s, g5, s5, c, false, false);
  }

  /** A tally saturated by another writer's bytes, all but the last of them played: the
      gate's counts pass, and the last one plays ahead of the run. */
  lemma SaturatedTallyMissesAByte(s: Sys, bytes: seq<Byte>)
    requires Opening(s) && |bytes| == M32 + 1
    ensures Replays(s, [bytes[M32]], true, false)
  {
    hide Leads, NoStepsLeft, R.Own, Replays;
    var g1, s1, c := FirstRun(s);
    var g2, s2 := KernelDoes(R.START, s, g1, s1, Foreign(bytes));
    var s3 := PlayBytes(R.START, s, g2, s2, |c| + M32);
    var g4, s4 := KernelDoes(R.START, s, g2, s3, KernelTo(Idle));
    var g5, s5, d := NextStream(R.START, s, g4, s4);
    assert s5.k.taken == (c + bytes) + d && s5.k.processed == |c| + M32;
    U32Shift(|c|, 1);
    assert CountsMatch(s5.k, s5.pc.base, s5.pc.written);
    var g6, s6 := GatePasses(R.START, s, g5, s5);
    assert Queue(s6.k) == [bytes[M32]] + d;
    Shown(s, g6, s6, [bytes[M32]], true, false);
  }

  // ---- the pad a reset forgets ----

  /** The core asks for fire at the first tick behind the pads of a fresh stream. */
  lemma Requests(s: Sys, t: Sys)
    requires Woken(s, t) && t.pc == Top && t.armed && !t.g.laser.jogging && |t.g.laser.lev| <= 1
    requires |t.g.laser.lev| == 1 ==> t.g.laser.lev[0].idx == t.g.depth
    ensures Enabled(t, ByCore(Request(FULL_DUTY, true)))
    ensures var u := CoreNext(t, Request(FULL_DUTY, true));
            && Woken(s, u) && u.pc == Top && u.g.laser.lev == [Ev(t.g.depth, FULL_DUTY, true)]
            && u.g.laser.dith == t.g.laser.dith && !u.g.laser.jogging
            && u.g.laser.wantPower == FULL_DUTY && u.g.laser.wantFire
  {
    hide NoStepsLeft;
    assert TickNow(t.g.ring) == t.g.depth && !Late(t.g);
    var u := CoreNext(t, Request(FULL_DUTY, true));
    assert u.g.laser.lev == Enqueue(t.g.laser.lev, t.g.depth, FULL_DUTY, true);
    assert u.g.laser.lev == [Ev(t.g.depth, FULL_DUTY, true)];
  }

  lemma WokenQueue(s: Sys)
    requires Parked(s)
    ensures var l := CoreNext(s, Wake(s.g.depth)).g.laser;
            && |l.lev| <= 1 && (|l.lev| == 1 ==> l.lev[0].idx == s.g.depth)
            && l.dith == s.g.laser.dith && l.jogging == s.g.laser.jogging
  {
    hide NoStepsLeft;
  }

  /** A controller that plays a lit byte. */
  predicate LitOpening(s: Sys) {
    Opening(s) && s.g.laser.dith.period == 0 && !s.g.laser.jogging
  }

  lemma ArmedOpening(g: R.Log, s: Sys) returns (t: Sys)
    requires LitOpening(s)
    ensures Leads(R.START, s, R.START, t) && Parked(t) && t.armed && t.gate
    ensures t.k == s.k && t.g == s.g
  {
    Starts(s);
    var u := s.(armed := true);
    t := u.(gate := true);
    hide Leads, NoStepsLeft, IsRun, Final, R.Watched;
    Then(R.START, s, R.START, s, ByCore(SetArmed(true)));
    Then(R.START, s, R.START, u, ByCore(SetGate(true)));
  }

  /** The lit stream, up to its first shipping pass. */
  lemma LitWake(s0: Sys, s: Sys) returns (t: Sys)
    requires Leads(R.START, s0, R.START, s) && Parked(s) && s.armed && s.gate
    requires s.g.laser.dith.period == 0 && !s.g.laser.jogging
    ensures Leads(R.START, s0, R.START, t) && Woken(s, t) && t.pc == Ready
    ensures LightsLast(t.g.laser, 0, t.g.depth + 1)
  {
    Wakes(s);
    WokenQueue(s);
    var s1 := CoreNext(s, Wake(s.g.depth));
    Requests(s, s1);
    var s2 := CoreNext(s1, Request(FULL_DUTY, true));
    Snaps(s2, false);
    t := s2.(pc := Ready);
    assert Woken(s, t);
    hide Leads, CoreNext, IsRun, Final, R.Watched, NoStepsLeft;
    Then(R.START, s0, R.START, s, ByCore(Wake(s.g.depth)));
    Then(R.START, s0, R.START, s1, ByCore(Request(FULL_DUTY, true)));
    Then(R.START, s0, R.START, s2, ByShipper(Snap(false)));
  }

  lemma LightsLit(l: Laser, due: nat)
    requires LightsLast(l, due, due)
    ensures l.lastLit
  {
  }

  lemma LitRun(s: Sys) returns (g: R.Log, t: Sys, chunk: seq<Byte>)
    requires LitOpening(s)
    ensures Leads(R.START, s, g, t) && Playing(t, chunk) && t.g.laser.lastLit && t.armed && t.gate
    ensures t.g.ring.shipped == t.g.depth + 1 && LightsLast(t.g.laser, t.g.depth + 1, t.g.depth + 1)
    ensures t.g.ring.base == t.g.depth && t.g.ring.vticks == 0
  {
    hide Leads, NoStepsLeft, IsRun, Final, R.Watched, R.Observe, LightsLast, R.Own;
    var a := ArmedOpening(R.START, s);
    var b := LitWake(s, a);
    var h, u, c := ShipOnce(R.START, s, R.START, b, b.g.depth + 1, true);
    chunk := c;
    Passes(b, u, c, b.g.depth + 1, true);
    var v := DoGateRead(u, true, true);
    t := ShipNext(v, IssueRun);
    assert t.g == u.g;
    LightsLit(t.g.laser, t.g.depth + 1);
    var h1 := R.Observe(h, u, ByShipper(GateRead(true, true)));
    g := R.Observe(h1, v, ByShipper(IssueRun));
    hide DoGateRead;
    Then(R.START, s, h, u, ByShipper(GateRead(true, true)));
    Then(R.START, s, h1, v, ByShipper(IssueRun));
  }

  /** A run that ends with no pad owed behind a lit byte. */
  ghost predicate EndsLit(s: Sys, steps: seq<Step>)
    requires SysSane(s)
  {
    IsRun(s, steps) &&
    var t := Final(s, steps);
    && D.LitEnd(t.k.taken) && !t.g.laser.lastLit && !t.g.streaming && !t.g.kernelRunning
  }

  /** A reset that finds a stream ended on its own forgets its pad: the stream's end
      then writes none. */
  lemma ForgottenReset(s: Sys, chunk: seq<Byte>)
    requires Playing(s, chunk) && s.g.laser.lastLit
    ensures var s1 := CoreNext(s, Sleep(false));
            && Enabled(s, ByCore(Sleep(false))) && Enabled(s1, ByCore(DoReset)) && D.Forgets(s1.g)
            && var s2 := CoreNext(s1, DoReset);
            && Enabled(s2, ByShipper(Snap(true))) && ShipNext(s2, Snap(true)) == s2.(pc := Ready)
            && var s3 := s2.(pc := Ready);
            && Enabled(s3, ByShipper(Begin(s3.g.depth, true)))
            && var t := DoBegin(s3, s3.g.depth, true);
            && t.k == s.k && !t.g.laser.lastLit && !t.g.streaming && !t.g.kernelRunning && !t.g.clearPending
  {
    Sleeps(s);
    var s1 := CoreNext(s, Sleep(false));
    UnmarkedReset(s1);
    var s2 := CoreNext(s1, DoReset);
    hide CoreNext, NoStepsLeft;
    Snaps(s2, true);
    UnlitEnd(s2.(pc := Ready));
  }

  lemma UnmarkedReset(s: Sys)
    requires SysSane(s) && !s.g.streaming && !s.g.killed && !s.g.failed
    ensures Enabled(s, ByCore(DoReset))
    ensures CoreNext(s, DoReset) ==
            s.(g := s.g.(killed := false, readback := RbNone, laser := s.g.laser.(lastLit := false)))
  {
    hide Drop, DarkStop;
  }

  lemma UnlitEnd(s: Sys)
    requires SysSane(s) && s.pc == Ready && !s.g.streaming && !s.g.failed && Backlog(s.g.ring) == 0
    requires !s.g.laser.lastLit
    ensures Enabled(s, ByShipper(Begin(s.g.depth, true)))
    ensures var t := DoBegin(s, s.g.depth, true);
            && t.k == s.k && !t.g.laser.lastLit && !t.g.streaming && !t.g.kernelRunning
            && t.g.clearPending == s.g.clearPending
  {
    G.SampledSame(s);
    D.SampledEnd(s);
    hide Sampled, PadOnly;
    assert DoBegin(s, s.g.depth, true) == FinishStream(Sampled(s), true);
  }

  /** The stream ends on its own behind a lit byte, and meets a reset before its last
      pass: nothing writes the pad. */
  lemma ResetForgetsThePad(s: Sys)
    requires LitOpening(s)
    ensures exists steps :: EndsLit(s, steps) && !Final(s, steps).g.clearPending
  {
    var g, t, chunk := LitRun(s);
    ForgottenReset(t, chunk);
    assert D.LitEnd(t.k.taken);
    ForgottenRun(s, g, t);
  }

  lemma ForgottenRun(s: Sys, g: R.Log, t: Sys)
    requires Leads(R.START, s, g, t) && SysSane(t) && D.LitEnd(t.k.taken) && Enabled(t, ByCore(Sleep(false)))
    requires var s1 := CoreNext(t, Sleep(false));
             && Enabled(s1, ByCore(DoReset))
             && var s2 := CoreNext(s1, DoReset);
             && Enabled(s2, ByShipper(Snap(true))) && ShipNext(s2, Snap(true)) == s2.(pc := Ready)
             && var s3 := s2.(pc := Ready);
             && Enabled(s3, ByShipper(Begin(s3.g.depth, true)))
             && var u := DoBegin(s3, s3.g.depth, true);
             && u.k == t.k && !u.g.laser.lastLit && !u.g.streaming && !u.g.kernelRunning && !u.g.clearPending
    ensures exists steps :: EndsLit(s, steps) && !Final(s, steps).g.clearPending
  {
    hide Leads, CoreNext, DoBegin, IsRun, Final, R.Watched, D.LitEnd, R.Observe;
    var s1 := CoreNext(t, Sleep(false));
    var s2 := CoreNext(s1, DoReset);
    var s3 := s2.(pc := Ready);
    var u := DoBegin(s3, s3.g.depth, true);
    Then(R.START, s, g, t, ByCore(Sleep(false)));
    var g1 := R.Observe(g, t, ByCore(Sleep(false)));
    Then(R.START, s, g1, s1, ByCore(DoReset));
    var g2 := R.Observe(g1, s1, ByCore(DoReset));
    Then(R.START, s, g2, s2, ByShipper(Snap(true)));
    var g3 := R.Observe(g2, s2, ByShipper(Snap(true)));
    Then(R.START, s, g3, s3, ByShipper(Begin(s3.g.depth, true)));
    LitShown(s, R.Observe(g3, s3, ByShipper(Begin(s3.g.depth, true))), u);
  }

  /** Two resets behind a lit stream that an idle marked: the first owes the pad, the
      second forgets it, and the clear comes with the lit byte last. */
  lemma SecondResetForgetsThePad(s: Sys)
    requires LitOpening(s)
    ensures exists steps :: EndsLit(s, steps) && Final(s, steps).pc.Snapped?
  {
    var g, t, chunk := LitRun(s);
    assert D.LitEnd(t.k.taken);
    MarkedResets(t, chunk);
    hide Leads, CoreNext, IsRun, Final, R.Watched, D.LitEnd, R.Observe, Playing;
    var s1 := CoreNext(t, Sleep(true));
    var s2 := CoreNext(s1, DoReset);
    var s3 := CoreNext(s2, DoReset);
    var u := ShipNext(s3, Snap(true));
    PlayingSane(t, chunk);
    Then(R.START, s, g, t, ByCore(Sleep(true)));
    var g1 := R.Observe(g, t, ByCore(Sleep(true)));
    Then(R.START, s, g1, s1, ByCore(DoReset));
    var g2 := R.Observe(g1, s1, ByCore(DoReset));
    Then(R.START, s, g2, s2, ByCore(DoReset));
    var g3 := R.Observe(g2, s2, ByCore(DoReset));
    Then(R.START, s, g3, s3, ByShipper(Snap(true)));
    LitShown(s, R.Observe(g3, s3, ByShipper(Snap(true))), u);
  }

  lemma PlayingSane(s: Sys, chunk: seq<Byte>)
    requires Playing(s, chunk)
    ensures SysSane(s)
  {
  }

  lemma MarkedResets(s: Sys, chunk: seq<Byte>)
    requires Playing(s, chunk) && s.g.laser.lastLit
    ensures Enabled(s, ByCore(Sleep(true)))
    ensures var s1 := CoreNext(s, Sleep(true));
            && Enabled(s1, ByCore(DoReset))
            && var s2 := CoreNext(s1, DoReset);
            && Enabled(s2, ByCore(DoReset)) && s2.g.laser.lastLit && s2.g.clearPending && D.Forgets(s2.g)
            && var s3 := CoreNext(s2, DoReset);
            && Enabled(s3, ByShipper(Snap(true)))
            && var u := ShipNext(s3, Snap(true));
            && u.k == s.k && u.pc.Snapped? && !u.g.laser.lastLit && !u.g.streaming && !u.g.kernelRunning
  {
    hide NoStepsLeft, D.LitEnd;
    Marks(s);
    var s1 := CoreNext(s, Sleep(true));
    MarkedReset(s1);
    var s2 := CoreNext(s1, DoReset);
    UnmarkedReset(s2);
    var s3 := CoreNext(s2, DoReset);
    hide CoreNext, PadOnly;
    assert ShipNext(s3, Snap(true)) == s3.(pc := Snapped(s3.g.zeros));
  }

  lemma Marks(s: Sys)
    requires SysSane(s) && s.g.streaming && !s.g.failed
    ensures Enabled(s, ByCore(Sleep(true)))
    ensures var t := CoreNext(s, Sleep(true));
            && t.k == s.k && t.pc == s.pc && t.g.killed && !t.g.streaming && !t.g.failed
            && t.g.laser.lastLit == s.g.laser.lastLit
  {
    hide EnqueueOff;
  }

  lemma MarkedReset(s: Sys)
    requires SysSane(s) && s.g.killed && !s.g.failed && s.g.laser.lastLit
    ensures Enabled(s, ByCore(DoReset))
    ensures var t := CoreNext(s, DoReset);
            && t.k == s.k && t.pc == s.pc && !t.g.killed && !t.g.streaming && !t.g.failed && !t.g.kernelRunning
            && t.g.laser.lastLit && t.g.clearPending
  {
    hide Drop;
  }

  lemma LitShown(s: Sys, g: R.Log, t: Sys)
    requires Leads(R.START, s, g, t) && D.LitEnd(t.k.taken) && !t.g.laser.lastLit && !t.g.streaming && !t.g.kernelRunning
    ensures exists steps :: EndsLit(s, steps) && Final(s, steps) == t
  {
    var steps :| IsRun(s, steps) && Final(s, steps) == t && R.Watched(R.START, s, steps) == g;
    hide IsRun, Final, R.Watched, D.LitEnd;
    assert EndsLit(s, steps);
  }

  // ---- the wish a continuation leaves unsaid ----

  /** A live stream of an armed window whose core wants fire, and the queue ends dark. */
  ghost predicate DarkWanted(s: Sys, steps: seq<Step>)
    requires SysSane(s)
  {
    IsRun(s, steps) &&
    var t := Final(s, steps);
    && t.g.streaming && !t.g.failed && t.armed && t.gate && t.g.laser.wantFire && !t.g.laser.jogging
    && t.g.ring.shipped <= t.g.ring.base && !Left(t.g.laser, t.g.ring.base).fire
  }

  /** A step output three ticks on. */
  lemma Outputs(s: Sys, v: Vec)
    requires SysSane(s) && s.pend == v && v != ZERO && s.g.streaming && !s.g.failed
    requires TickNow(s.g.ring) >= s.g.ring.shipped && TickNow(s.g.ring) >= s.g.ring.produced
    requires TickNow(s.g.ring) < s.g.ring.shipped + 10
    ensures Enabled(s, ByCore(Output))
    ensures var t := CoreNext(s, Output);
            && t == s.(g := t.g, pend := ZERO) && t.g == s.g.(ring := t.g.ring)
            && t.g.ring.produced == TickNow(s.g.ring) + 1 && t.g.ring.shipped == s.g.ring.shipped
  {
    hide TickNow, NoStepsLeft;
  }

  lemma Advances(s: Sys, dt: nat)
    requires SysSane(s)
    ensures Enabled(s, ByCore(Advance(dt)))
    ensures CoreNext(s, Advance(dt)) == s.(g := s.g.(ring := s.g.ring.(vticks := s.g.ring.vticks + dt)))
  {
    hide NoStepsLeft;
  }

  /** The cycle ends: the laser-off waits behind its last step. */
  lemma Dims(s: Sys)
    requires SysSane(s) && s.pend == ZERO && s.g.streaming && Burning(s.g.laser)
    requires s.g.ring.shipped < s.g.ring.produced
    ensures Enabled(s, ByCore(Sleep(false)))
    ensures CoreNext(s, Sleep(false)) ==
            s.(g := s.g.(streaming := false, laser := s.g.laser.(lev := [Ev(s.g.ring.produced, FULL_DUTY, false)])))
  {
    hide NoStepsLeft;
    assert EnqueueOff(s.g.laser, s.g.ring.produced) == [Ev(s.g.ring.produced, FULL_DUTY, false)];
  }

  /** The next cycle starts before its step has played: the wants are in force already,
      and the laser-off stays the last word. */
  lemma WakesDark(s: Sys, dueNow: nat)
    requires SysSane(s) && !s.g.failed && !s.g.streaming && s.g.kernelRunning && s.armed && dueNow <= s.g.ring.produced
    requires s.g.laser.lev == [Ev(s.g.ring.produced, FULL_DUTY, false)]
    requires s.g.laser.curFire && s.g.laser.curPower == FULL_DUTY
    requires s.g.laser.wantFire && s.g.laser.wantPower == FULL_DUTY && !s.g.laser.jogging
    ensures Enabled(s, ByCore(Wake(dueNow)))
    ensures var t := CoreNext(s, Wake(dueNow));
            && t == s.(g := t.g) && t.g.streaming && !t.g.failed && t.g.laser == s.g.laser
            && t.g.ring.shipped == s.g.ring.shipped && t.g.ring.base == s.g.ring.produced
            && !Left(t.g.laser, t.g.ring.base).fire
  {
    hide NoStepsLeft;
    var l, at := s.g.laser, s.g.ring.produced;
    DrainedOut(l.lev, at, l.curFire, l.curPower, false);
    hide Drain;
  }

  /** A cycle that cuts at full power, ends behind its last step, and is followed by one
      that wants the same before that step has played: the second cycle runs dark. */
  lemma ContinuationRunsDark(s: Sys)
    requires LitOpening(s)
    ensures exists steps :: DarkWanted(s, steps)
  {
    var g, t, chunk := LitRun(s);
    PlayingSane(t, chunk);
    var v := Vec(1, 0, 0);
    var s1 := t.(g := t.g.(ring := t.g.ring.(vticks := 3000)));
    Advances(t, 3000);
    var s2 := s1.(pos := Plus(s1.pos, v), pend := v);
    CountsStep(s1, v);
    assert TickNow(s2.g.ring) == s2.g.depth + 3;
    Outputs(s2, v);
    var s3 := CoreNext(s2, Output);
    Dims(s3);
    var s4 := CoreNext(s3, Sleep(false));
    WakesDark(s4, s4.g.ring.shipped + 1);
    var s5 := CoreNext(s4, Wake(s4.g.ring.shipped + 1));
    hide Leads, CoreNext, NoStepsLeft, IsRun, Final, R.Watched, R.Observe, Left, TickNow;
    Then(R.START, s, g, t, ByCore(Advance(3000)));
    var g1 := R.Observe(g, t, ByCore(Advance(3000)));
    Then(R.START, s, g1, s1, ByCore(Count(v)));
    var g2 := R.Observe(g1, s1, ByCore(Count(v)));
    Then(R.START, s, g2, s2, ByCore(Output));
    var g3 := R.Observe(g2, s2, ByCore(Output));
    Then(R.START, s, g3, s3, ByCore(Sleep(false)));
    var g4 := R.Observe(g3, s3, ByCore(Sleep(false)));
    Then(R.START, s, g4, s4, ByCore(Wake(s4.g.ring.shipped + 1)));
    DarkShown(s, R.Observe(g4, s4, ByCore(Wake(s4.g.ring.shipped + 1))), s5);
  }

  lemma DarkShown(s: Sys, g: R.Log, t: Sys)
    requires Leads(R.START, s, g, t)
    requires t.g.streaming && !t.g.failed && t.armed && t.gate && t.g.laser.wantFire && !t.g.laser.jogging
    requires t.g.ring.shipped <= t.g.ring.base && !Left(t.g.laser, t.g.ring.base).fire
    ensures exists steps :: DarkWanted(s, steps)
  {
    var steps :| IsRun(s, steps) && Final(s, steps) == t && R.Watched(R.START, s, steps) == g;
    hide IsRun, Final, R.Watched, Left;
    assert DarkWanted(s, steps);
  }

  // ---- the read-back that is wrong ----

  /** A run with a base throughout leads from one state to another. */
  ghost predicate LeadsBased(s: Sys, t: Sys) {
    SysSane(s) && exists steps :: BasedRun(s, steps, t)
  }

  ghost predicate BasedRun(s: Sys, steps: seq<Step>, t: Sys)
    requires SysSane(s)
  {
    IsRun(s, steps) && P.Based(s, steps) && Final(s, steps) == t
  }

  lemma {:induction false} BasedThen(s: Sys, steps: seq<Step>, t: Sys, a: Step)
    requires SysSane(s) && BasedRun(s, steps, t) && Enabled(t, a) && Next(t, a).g.baseValid
    ensures BasedRun(s, steps + [a], Next(t, a))
    decreases |steps|
  {
    hide Next, Enabled;
    var all := steps + [a];
    if steps == [] {
      assert all[0] == a && all[1..] == [];
      BasedOver(Next(s, a), all[1..]);
    } else {
      assert all[0] == steps[0] && all[1..] == steps[1..] + [a];
      BasedThen(Next(s, steps[0]), steps[1..], t, a);
    }
  }

  lemma BasedOver(s: Sys, none: seq<Step>)
    requires SysSane(s) && |none| == 0 && s.g.baseValid
    ensures BasedRun(s, none, s)
  {
  }

  lemma Further(s: Sys, t: Sys, a: Step)
    requires LeadsBased(s, t) && SysSane(t) && Enabled(t, a) && Next(t, a).g.baseValid
    ensures LeadsBased(s, Next(t, a))
  {
    var steps :| BasedRun(s, steps, t);
    hide BasedRun, Next, Enabled;
    BasedThen(s, steps, t, a);
  }

  lemma FurtherCore(s: Sys, t: Sys, c: CoreStep, u: Sys)
    requires LeadsBased(s, t) && SysSane(t) && Enabled(t, ByCore(c)) && CoreNext(t, c) == u && u.g.baseValid
    ensures LeadsBased(s, u)
  {
    hide LeadsBased, CoreNext, CoreEnabled;
    Further(s, t, ByCore(c));
  }

  lemma FurtherShip(s: Sys, t: Sys, h: ShipStep, u: Sys)
    requires LeadsBased(s, t) && SysSane(t) && Enabled(t, ByShipper(h)) && ShipNext(t, h) == u && u.g.baseValid
    ensures LeadsBased(s, u)
  {
    hide LeadsBased, ShipNext, ShipEnabled;
    Further(s, t, ByShipper(h));
  }

  /** Nothing streamed and nothing owed: an empty ring, and the counts at their base. */
  predicate Still(s: Sys) {
    && SysSane(s) && NoStepsLeft(s.g.ring) && !s.g.failed && !s.g.kernelRunning && !s.g.laser.lastLit
    && s.g.baseValid && s.g.baseSteps == s.g.steps && s.g.baseCounts == Counters(s.k)
    && s.k.st != Running && s.pc == Top
  }

  /** The fields a step leaves alone here. */
  predicate Alike(s: Sys, t: Sys) { t.k == s.k && t.pos == s.pos }

  lemma WakesStill(s: Sys)
    requires Still(s) && !s.g.streaming && s.pend == ZERO
    ensures Enabled(s, ByCore(Wake(0)))
    ensures var t := CoreNext(s, Wake(0));
            Still(t) && Alike(s, t) && t.g.streaming && t.pend == ZERO && !t.g.killed
  {
    D.WakeRecord(s.g, s.armed, 0);
    hide Reassert, NoStepsLeft, Counters;
    SameSlots(s.g.ring, Fresh(s.g.ring, s.g.depth));
  }

  lemma SleepsStill(s: Sys)
    requires Still(s) && s.g.streaming && !s.g.killed
    ensures Enabled(s, ByCore(Sleep(true)))
    ensures var t := CoreNext(s, Sleep(true));
            Still(t) && Alike(s, t) && !t.g.streaming && t.pend == ZERO && t.g.killed && t.g.killStep == s.pend
  {
    hide EnqueueOff, NoStepsLeft, Counters;
  }

  /** A marked stream reset with nothing in the ring owes its mark alone. */
  lemma ResetsStill(s: Sys)
    requires Still(s) && s.g.killed && s.g.killStep == ZERO
    ensures Enabled(s, ByCore(DoReset)) && CoreNext(s, DoReset) == s.(g := Reset(s.g))
    ensures Still(s.(g := Reset(s.g)))
    ensures var h := Reset(s.g); !h.killed && h.clearPending && h.readback.RbWait? && h.unplayed == ZERO
  {
    P.ResetEnabled(s);
    P.ResetLive(O.START, s);
    hide CoreNext, Enabled, NoStepsLeft, Drop, Counters, Wrap, Reset;
    DropsNothing(s.g.ring);
    ResetsMarked(s.g);
    D.ResetRecord(s.g);
    OwesNothing(s.g.killStep, Drop(s.g.ring).1);
  }

  lemma OwesNothing(a: Vec, b: Vec)
    requires a == ZERO && b == ZERO
    ensures Wrap(Plus(a, b)) == ZERO
  {
    WrapNothing(Plus(a, b));
    hide Wrap;
  }

  lemma ResetsMarked(g: Gf)
    requires Sane(g) && g.killed && !g.failed && g.baseValid
    ensures var h := Reset(g);
            && h.ring == Drop(g.ring).0 && !h.failed && !h.kernelRunning && h.clearPending && !h.killed
            && h.steps == g.steps && h.baseSteps == g.baseSteps && h.baseCounts == g.baseCounts && h.baseValid
            && h.readback.RbWait? && h.unplayed == Wrap(Plus(g.killStep, Drop(g.ring).1))
  {
    hide Drop, Wrap, DarkStop;
  }

  lemma WrapNothing(v: Vec)
    requires v == ZERO
    ensures Wrap(v) == ZERO
  {
  }

  lemma DropsNothing(r: Ring)
    requires Sized(r) && NoStepsLeft(r)
    ensures Sized(Drop(r).0) && NoStepsLeft(Drop(r).0) && Drop(r).1 == ZERO
  {
    SlotsZero(r);
    HoldsNothing(r);
    DropRefines(r, []);
    SlotsZero(Drop(r).0);
    HoldsNothing(Drop(r).0);
    NoEventSteps([]);
    hide Holds, NoStepsLeft, Drop, EventSteps;
  }

  lemma NoEventSteps(none: seq<Event>)
    requires |none| == 0
    ensures EventSteps(none) == ZERO
  {
  }

  lemma SlotsZero(r: Ring)
    requires Sized(r)
    ensures (forall j :: 0 <= j < RING_SIZE ==> r.slots[j] == ZERO) <==> NoStepsLeft(r)
  {
  }

  /** The clear's snapshot, its removal, and its end: the read-back is ready and says
      zero. */
  lemma SnapsStill(s: Sys)
    requires Still(s) && s.g.clearPending
    ensures Enabled(s, ByShipper(Snap(true))) && ShipNext(s, Snap(true)) == s.(pc := Snapped(s.g.zeros))
  {
    hide PadOnly, NoStepsLeft, Counters;
  }

  lemma EmptiesStill(s: Sys, t: Sys)
    requires Still(s) && t == s.(pc := Snapped(s.g.zeros))
    ensures Enabled(t, ByShipper(Empty(true, true)))
    ensures ShipNext(t, Empty(true, true)) ==
            s.(k := Emptied(s.k), pc := Cleared(true, true, Counters(s.k), s.g.zeros))
  {
    hide NoStepsLeft, Counters;
  }

  lemma FinishesStill(t: Sys, counts: Vec)
    requires SysSane(t) && t.pc == Cleared(true, true, counts, t.g.zeros)
    ensures Enabled(t, ByShipper(Finish))
    ensures ShipNext(t, Finish) == t.(g := FinishClear(t.g, true, true, counts, t.g.zeros), pc := Ready)
  {
    hide FinishClear;
  }

  lemma FinishReads(g: Gf, counts: Vec)
    requires g.steps == g.baseSteps && g.baseCounts == counts && g.baseValid && !g.killed
    requires g.readback.RbWait? && g.unplayed == ZERO
    ensures var h := FinishClear(g, true, true, counts, g.zeros);
            && h.readback.RbDone? && h.unplayed == ZERO && h.baseValid && !h.killed
            && h.steps == h.baseSteps && counts == h.baseCounts && h.ring == g.ring
  {
    hide FinishClear, Wrap;
    P.FinishAccounts(g, true, true, counts, g.zeros);
    NoResidue(g.steps, counts, g.unplayed);
  }

  lemma NoResidue(steps: Vec, counts: Vec, owed: Vec)
    requires owed == ZERO
    ensures Wrap(Plus(owed, Minus(Minus(steps, steps), Minus(counts, counts)))) == ZERO
  {
    WrapNothing(Plus(owed, Minus(Minus(steps, steps), Minus(counts, counts))));
    hide Wrap;
  }

  /** The run up to the reset: a step counted, an idle under a reset that marks it, a
      wakeup that forgets the mark, and a second idle. */
  lemma MarkForgotten(s: Sys, v: Vec) returns (t: Sys)
    requires Initial(s) && s.g.baseValid && v != ZERO
    ensures LeadsBased(s, t) && Still(t) && !t.g.streaming && t.pend == ZERO && t.g.killed && t.g.killStep == ZERO
    ensures t.k == s.k && t.pos == Plus(s.pos, v)
  {
    BasedStart(s);
    WakesStill(s);
    var s1 := CoreNext(s, Wake(0));
    var s2 := s1.(pos := Plus(s1.pos, v), pend := v);
    assert Still(s2);
    SleepsStill(s2);
    var s3 := CoreNext(s2, Sleep(true));
    WakesStill(s3);
    var s4 := CoreNext(s3, Wake(0));
    SleepsStill(s4);
    t := CoreNext(s4, Sleep(true));
    hide LeadsBased, CoreNext, NoStepsLeft, Counters, Initial;
    Further(s, s, ByCore(Wake(0)));
    CountsStep(s1, v);
    Further(s, s1, ByCore(Count(v)));
    Further(s, s2, ByCore(Sleep(true)));
    Further(s, s3, ByCore(Wake(0)));
    Further(s, s4, ByCore(Sleep(true)));
  }

  lemma BasedStart(s: Sys)
    requires Initial(s)
    ensures LeadsBased(s, s) && Still(s)
  {
    var none: seq<Step> := [];
    BasedOver(s, none);
    hide BasedRun;
  }

  lemma CountsStep(s: Sys, v: Vec)
    requires SysSane(s) && s.g.streaming && s.pend == ZERO && v != ZERO
    ensures Enabled(s, ByCore(Count(v))) && CoreNext(s, Count(v)) == s.(pos := Plus(s.pos, v), pend := v)
  {
  }

  /** Ready to be read back: nothing in the ring, nothing marked, the base just taken. */
  predicate Answerable(t: Sys) {
    && SysSane(t) && NoStepsLeft(t.g.ring) && t.g.readback.RbDone? && t.g.unplayed == ZERO
    && !t.pc.Writing? && t.pend == ZERO && !t.g.killed && t.g.steps == t.g.baseSteps && Counters(t.k) == t.g.baseCounts
  }

  /** And from there to the read-back. */
  lemma ReadsZero(s: Sys, t: Sys) returns (u: Sys)
    requires LeadsBased(s, t) && Still(t) && t.pend == ZERO && t.g.killed && t.g.killStep == ZERO
    ensures LeadsBased(s, u) && Answerable(u) && u.pos == t.pos && u.k.played == t.k.played
  {
    hide LeadsBased;
    ResetsStill(t);
    var s1 := t.(g := Reset(t.g));
    assert SysSane(t) && SysSane(s1) && s1.g.baseValid;
    FurtherCore(s, t, DoReset, s1);
    u := ClearReads(s, s1);
  }

  lemma ClearReads(s: Sys, t: Sys) returns (u: Sys)
    requires LeadsBased(s, t) && Still(t) && t.pend == ZERO && !t.g.killed && t.g.clearPending
    requires t.g.readback.RbWait? && t.g.unplayed == ZERO
    ensures LeadsBased(s, u) && Answerable(u) && u.pos == t.pos && u.k.played == t.k.played
  {
    var counts := Counters(t.k);
    P.SameCounters(t.k, Emptied(t.k));
    SnapsStill(t);
    var s1 := t.(pc := Snapped(t.g.zeros));
    EmptiesStill(t, s1);
    var s2 := t.(k := Emptied(t.k), pc := Cleared(true, true, counts, t.g.zeros));
    hide LeadsBased, ShipNext, ShipEnabled, NoStepsLeft, Counters;
    FurtherShip(s, t, Snap(true), s1);
    FurtherShip(s, s1, Empty(true, true), s2);
    FinishesStill(s2, counts);
    FinishReads(t.g, counts);
    u := s2.(g := FinishClear(t.g, true, true, counts, t.g.zeros), pc := Ready);
    hide FinishClear;
    FurtherShip(s, s2, Finish, u);
  }

  /** A ready read-back that is wrong: it says that no step is missing, and the core has
      counted one that nothing played. */
  ghost predicate WrongReadback(s: Sys, steps: seq<Step>)
    requires SysSane(s)
  {
    IsRun(s, steps) && P.Based(s, steps) &&
    var t := Final(s, steps);
    && t.g.readback.RbDone? && P.Settled(O.Watched(O.START, s, steps), t)
    && !Cong(TakeReadback(t.g).2, Minus(Minus(t.pos, t.k.played), P.Frame(s)))
  }

  lemma ForgottenMarkIsNotReadBack(s: Sys)
    requires Initial(s)
    ensures exists steps :: WrongReadback(s, steps)
  {
    var v := Vec(1, 0, 0);
    var t := MarkForgotten(s, v);
    var u := ReadsZero(s, t);
    var steps :| BasedRun(s, steps, u);
    O.StreamRefinesQueue(s, steps);
    NothingLive(O.Watched(O.START, s, steps), u);
    OneIsNotZero(s, u);
    hide IsRun, Final, P.Based, O.Watched, Initial, Cong;
    assert WrongReadback(s, steps);
  }

  lemma NothingLive(o: O.Track, s: Sys)
    requires SysSane(s) && O.InOrder(o, s) && NoStepsLeft(s.g.ring)
    ensures o.live == []
  {
    FreshRefines(s.g.ring, o.live, 0);
    HoldsNothing(Fresh(s.g.ring, 0));
  }

  lemma OneIsNotZero(s: Sys, t: Sys)
    requires t.g.unplayed == ZERO && t.pos == Plus(s.pos, Vec(1, 0, 0)) && t.k.played == s.k.played
    ensures !Cong(TakeReadback(t.g).2, Minus(Minus(t.pos, t.k.played), P.Frame(s)))
  {
    assert Minus(Minus(t.pos, t.k.played), P.Frame(s)) == Vec(1, 0, 0);
    assert TakeReadback(t.g).2 == ZERO;
  }
}
