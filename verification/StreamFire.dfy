/** Fire provenance: every lit tick byte goes back to a fire request of the core,
    seen with the laser armed and no jog, and queued after the last pass that saw
    the gate fall. */
module StreamFire {
  import opened PulseBytes
  import opened DitherModel
  import opened StreamRing
  import opened LaserQueue
  import opened StreamEngine
  import opened StreamSystem

  /** Where a queued transition came from: the step that queued it and its number in
      the run, whether the core's last fire request was on, and the armed window and
      the jog mask at that step. */
  datatype Source = Source(step: CoreStep, at: nat, asked: bool, armed: bool, jogging: bool)

  predicate Good(src: Source) {
    src.asked && src.armed && !src.jogging && (src.step.Request? || src.step.SetJog? || src.step.Wake?)
  }

  /** A lit tick: its source, the gate sample of its pass, and the number of the
      last step whose pass saw the gate fall. */
  datatype LitTick = LitTick(src: Source, gate: bool, fell: nat)

  /** The history: the sources of the queued transitions and of the one in force,
      the core's last fire request and jog state, the number of the next step, of
      the last gate fall, the gate sample of the pass; the bytes built so far, and a
      record for each lit one. */
  datatype Trace = Trace(tags: seq<Source>, cur: Source, asked: bool, jogging: bool,
                         now: nat, fell: nat, gate: bool, built: seq<Byte>, lit: seq<LitTick>)

  // ---- the observer ----

  /** A transition that a step queued or changed has that step as its source; one
      it left alone keeps its own. */
  function Retag(tags: seq<Source>, before: seq<Ev>, after: seq<Ev>, src: Source): (r: seq<Source>)
    requires |tags| == |before|
    ensures |r| == |after|
  {
    seq(|after|, i requires 0 <= i < |after| => if i < |before| && after[i] == before[i] then tags[i] else src)
  }

  /** The source in force once k transitions have been applied. */
  function InForce(tags: seq<Source>, cur: Source, k: nat): Source
    requires k <= |tags|
  {
    if k == 0 then cur else tags[k - 1]
  }

  function LitCount(bytes: seq<Byte>): nat {
    if bytes == [] then 0 else (if Lit(bytes[0]) then 1 else 0) + LitCount(bytes[1..])
  }

  /** The sources of a chunk's lit ticks, tick by tick. */
  function Sources(b: Build, tags: seq<Source>, cur: Source, gate: bool, due: nat, streaming: bool): seq<Source>
    requires Sized(b.r) && |tags| == |b.l.lev|
    decreases due - b.r.shipped
  {
    if !More(b, due, streaming) then []
    else
      var d := BuildTick(b, gate);
      var k := |b.l.lev| - |d.l.lev|;
      var src := InForce(tags, cur, k);
      (if d.l.lastLit then [src] else []) + Sources(d, tags[k..], src, gate, due, streaming)
  }

  function Records(srcs: seq<Source>, gate: bool, fell: nat): (r: seq<LitTick>)
    ensures |r| == |srcs|
    ensures forall i :: 0 <= i < |r| ==> r[i] == LitTick(srcs[i], gate, fell)
  {
    seq(|srcs|, i requires 0 <= i < |srcs| => LitTick(srcs[i], gate, fell))
  }

  /** A chunk built from g under the pass's gate sample. */
  function TraceChunk(o: Trace, g: Gf, due: nat): (r: Trace)
    requires Sane(g) && |o.tags| == |g.laser.lev|
  {
    var b := Build(g.laser, g.ring, []);
    var c := BuildChunk(b, o.gate, due, g.streaming);
    TraceBuild(o, |b.l.lev| - |c.l.lev|, c.bytes, Sources(b, o.tags, o.cur, o.gate, due, g.streaming))
  }

  /** A chunk's bytes built from these sources, and the first k transitions taken. */
  function TraceBuild(o: Trace, k: nat, bytes: seq<Byte>, srcs: seq<Source>): Trace
    requires k <= |o.tags|
  {
    o.(tags := o.tags[k..], cur := InForce(o.tags, o.cur, k), built := o.built + bytes,
       lit := o.lit + Records(srcs, o.gate, o.fell))
  }

  function TraceTurn(o: Trace, s: Sys, due: nat): Trace
    requires SysSane(s) && |o.tags| == |s.g.laser.lev|
  {
    if ShipMore(s.g, due) then TraceChunk(o, s.g, due) else o
  }

  /** A pass begins: its gate sample, and whether it saw the gate fall. */
  function TraceSample(o: Trace, s: Sys): (r: Trace)
    ensures |r.tags| == |o.tags|
  {
    o.(gate := s.gate, fell := if s.g.laser.gateSeen && !s.gate then o.now else o.fell)
  }

  function TraceShip(o: Trace, s: Sys, h: ShipStep): Trace
    requires SysSane(s) && ShipEnabled(s, h) && |o.tags| == |s.g.laser.lev|
  {
    match h
    case Begin(due, landed) =>
      if s.g.failed then o
      else if (!s.g.streaming && Backlog(s.g.ring) == 0) || PreloadWait(s.g) then TraceSample(o, s)
      else TraceTurn(TraceSample(o, s), Sampled(s), due)
    case WriteOk =>
      var u := s.(g := ChunkTaken(s.g, s.pc.chunk), k := Take(s.k, s.pc.chunk));
      if u.g.failed || u.g.clearPending then o else TraceTurn(o, u, s.pc.due)
    case _ => o
  }

  /** The core's last accepted fire request and jog state after a step. */
  function TraceRequest(o: Trace, g: Gf, c: CoreStep): (r: Trace)
    ensures r == o.(asked := r.asked, jogging := r.jogging)
  {
    if g.failed then o
    else
      match c
      case Request(_, fire) => o.(asked := fire)
      case SetJog(jog) => o.(jogging := jog)
      case _ => o
  }

  function TraceCore(o: Trace, s: Sys, c: CoreStep): Trace
    requires SysSane(s) && CoreEnabled(s, c) && |o.tags| == |s.g.laser.lev|
  {
    var p := TraceRequest(o, s.g, c);
    p.(tags := Retag(o.tags, s.g.laser.lev, CoreNext(s, c).g.laser.lev, Source(c, o.now, p.asked, s.armed, p.jogging)))
  }

  /** One step, and the next number. */
  function Observe(o: Trace, s: Sys, a: Step): Trace
    requires SysSane(s) && Enabled(s, a) && |o.tags| == |s.g.laser.lev|
  {
    var p := match a
             case ByCore(c) => TraceCore(o, s, c)
             case ByShipper(h) => TraceShip(o, s, h)
             case ByKernel(_) => o;
    p.(now := o.now + 1)
  }

  // ---- the invariant ----

  /** A source fire may come from now: good, and younger than the last gate fall. */
  predicate Sound(src: Source, fell: nat, now: nat) { Good(src) && fell < src.at < now }

  ghost predicate SoundQueue(tags: seq<Source>, lev: seq<Ev>, fell: nat, now: nat) {
    && |tags| == |lev|
    && forall i :: 0 <= i < |lev| && lev[i].fire ==> Sound(tags[i], fell, now)
  }

  ghost predicate SoundFire(o: Trace, l: Laser) {
    SoundQueue(o.tags, l.lev, o.fell, o.now) && (l.curFire ==> Sound(o.cur, o.fell, o.now))
  }

  ghost predicate AllLitSound(o: Trace) {
    && |o.lit| == LitCount(o.built)
    && forall i :: 0 <= i < |o.lit| ==>
         o.lit[i].gate && Good(o.lit[i].src) && o.lit[i].fell < o.lit[i].src.at
  }

  ghost predicate Sourced(o: Trace, s: Sys) {
    && SoundFire(o, s.g.laser) && AllLitSound(o) && o.fell < o.now
    && (s.g.laser.wantFire ==> o.asked) && s.g.laser.jogging == o.jogging
    && (s.pc.Writing? ==> s.pc.gate == o.gate)
  }

  // ---- the core's steps ----

  /** The entries of a queue a step left alone, or else lit only by a good source. */
  ghost predicate Queues(before: seq<Ev>, after: seq<Ev>, good: bool) {
    forall i :: 0 <= i < |after| ==>
      (i < |before| && after[i] == before[i]) || (after[i].fire ==> good)
  }

  lemma EnqueueQueues(lev: seq<Ev>, idx: nat, power: Duty, fire: bool)
    requires |lev| <= LEV_N
    ensures Queues(lev, Enqueue(lev, idx, power, fire), fire)
  {
  }

  lemma OffQueues(l: Laser, idx: nat)
    requires |l.lev| <= LEV_N
    ensures Queues(l.lev, EnqueueOff(l, idx), false)
  {
  }

  lemma ReassertQueues(l: Laser, base: nat, armed: bool)
    requires |l.lev| <= LEV_N
    ensures var m := Reassert(l, base, armed);
            && m == l.(lev := m.lev) && Queues(l.lev, m.lev, l.wantFire && armed && !l.jogging)
  {
  }

  /** What a core step does to the laser: p and good are the request and source it
      leaves; nothing is lit but by the shipper. */
  ghost predicate Requests(l: Laser, m: Laser, asked: bool, jogging: bool, good: bool) {
    && Queues(l.lev, m.lev, good) && (m.curFire ==> l.curFire)
    && (m.wantFire ==> asked) && m.jogging == jogging
  }

  lemma EventLaser(g: Gf, armed: bool, power: Duty, fire: bool)
    requires Sane(g)
    ensures var l, m := g.laser, LaserEvent(g, armed, power, fire).laser;
            var idx := if Late(g) then g.ring.shipped else TickNow(g.ring);
            m == l || m == l.(lev := Enqueue(l.lev, idx, power, fire))
  {
    hide Late, TickNow, Enqueue;
  }

  lemma EventRequests(g: Gf, armed: bool, power: Duty, fire: bool)
    requires Sane(g)
    ensures var m := LaserEvent(g, armed, power, fire).laser;
            m == g.laser.(lev := m.lev) && Queues(g.laser.lev, m.lev, fire)
  {
    var idx := if Late(g) then g.ring.shipped else TickNow(g.ring);
    EventLaser(g, armed, power, fire);
    EnqueueQueues(g.laser.lev, idx, power, fire);
    assert Queues(g.laser.lev, g.laser.lev, fire);
    hide Enqueue, Queues, LaserEvent, Late, TickNow;
  }

  lemma WakeRequests(g: Gf, armed: bool, dueNow: nat)
    requires Sane(g) && !g.failed
    ensures var l, m := g.laser, Wakeup(g, armed, dueNow).laser;
            Requests(l, m, l.wantFire, l.jogging, l.wantFire && armed && !l.jogging)
  {
    ReassertQueues(g.laser.(curFire := false), Continue(g.ring, dueNow).base, armed);
    ReassertQueues(g.laser, Continue(g.ring, dueNow).base, armed);
    ReassertQueues(g.laser.(lev := [], curFire := false), g.depth, armed);
    hide Reassert, Continue, Fresh;
  }

  lemma SleepRequests(g: Gf, reset: bool, v: Vec)
    requires Sane(g)
    ensures var l, m := g.laser, GoIdle(g, reset, v).laser;
            Requests(l, m, l.wantFire, l.jogging, false)
  {
    var idx := if g.ring.produced > g.ring.shipped then g.ring.produced else g.ring.shipped;
    OffQueues(g.laser, idx);
    hide EnqueueOff;
  }

  lemma ResetRequests(g: Gf)
    requires Sane(g)
    ensures var l, m := g.laser, Reset(g).laser;
            Requests(l, m, l.wantFire, l.jogging, false)
  {
    hide Drop;
  }

  lemma RequestRequests(g: Gf, armed: bool, power: Duty, fire: bool)
    requires Sane(g) && !g.failed
    ensures var l, m := g.laser, LaserRequest(g, armed, power, fire).laser;
            Requests(l, m, fire, l.jogging, fire && armed && !l.jogging)
  {
    EventRequests(g.(laser := g.laser.(wantPower := power, wantFire := fire)), armed, power,
                  fire && armed && !g.laser.jogging);
    hide LaserEvent;
  }

  lemma JogRequests(g: Gf, armed: bool, jog: bool)
    requires Sane(g) && !g.failed
    ensures var l, m := g.laser, Jog(g, armed, jog).laser;
            Requests(l, m, l.wantFire, jog, l.wantFire && armed && !jog)
  {
    EventRequests(g.(laser := g.laser.(jogging := jog)), armed, g.laser.wantPower, g.laser.wantFire && armed && !jog);
    hide LaserEvent;
  }

  predicate Lights(c: CoreStep) { c.Request? || c.SetJog? || c.Wake? }

  /** Every core step queues fire only from a good source. */
  lemma CoreRequests(o: Trace, s: Sys, c: CoreStep)
    requires SysSane(s) && CoreEnabled(s, c)
    requires (s.g.laser.wantFire ==> o.asked) && s.g.laser.jogging == o.jogging
    ensures var p := TraceRequest(o, s.g, c);
            Requests(s.g.laser, CoreNext(s, c).g.laser, p.asked, p.jogging,
                     Good(Source(c, o.now, p.asked, s.armed, p.jogging)))
  {
    if Lights(c) {
      LightRequests(o, s, c);
    } else {
      QuietRequests(o, s, c);
    }
  }

  lemma LightRequests(o: Trace, s: Sys, c: CoreStep)
    requires SysSane(s) && CoreEnabled(s, c) && Lights(c)
    requires (s.g.laser.wantFire ==> o.asked) && s.g.laser.jogging == o.jogging
    ensures var p := TraceRequest(o, s.g, c);
            Requests(s.g.laser, CoreNext(s, c).g.laser, p.asked, p.jogging,
                     Good(Source(c, o.now, p.asked, s.armed, p.jogging)))
  {
    hide LaserRequest, Jog, Wakeup, NoStepsLeft, Queues;
    if s.g.failed {
      FailedSame(s, c);
      SameQueues(s.g.laser.lev);
    } else {
      match c {
        case Request(power, fire) => RequestRequests(s.g, s.armed, power, fire);
        case SetJog(jog) =>
          JogRequests(s.g, s.armed, jog);
          MoreQueues(s.g.laser.lev, Jog(s.g, s.armed, jog).laser.lev);
        case Wake(dueNow) =>
          WakeRequests(s.g, s.armed, dueNow);
          MoreQueues(s.g.laser.lev, Wakeup(s.g, s.armed, dueNow).laser.lev);
      }
    }
  }

  lemma MoreQueues(before: seq<Ev>, after: seq<Ev>)
    ensures forall p, q :: Queues(before, after, p) && (p ==> q) ==> Queues(before, after, q)
  {
  }

  lemma SameQueues(lev: seq<Ev>)
    ensures forall good :: Queues(lev, lev, good)
  {
  }

  lemma FailedSame(s: Sys, c: CoreStep)
    requires SysSane(s) && CoreEnabled(s, c) && Lights(c) && s.g.failed
    ensures CoreNext(s, c).g == s.g
  {
  }

  lemma QuietRequests(o: Trace, s: Sys, c: CoreStep)
    requires SysSane(s) && CoreEnabled(s, c) && !Lights(c)
    requires (s.g.laser.wantFire ==> o.asked) && s.g.laser.jogging == o.jogging
    ensures var p := TraceRequest(o, s.g, c);
            Requests(s.g.laser, CoreNext(s, c).g.laser, p.asked, p.jogging, false)
  {
    hide Queues, CoreNext, CoreEnabled;
    StoppingSteps(s, c);
    if c.Sleep? {
      SleepRequests(s.g, c.reset, s.pend);
    } else if c.DoReset? {
      ResetRequests(s.g);
    } else {
      SilentSteps(s, c);
      SameQueues(s.g.laser.lev);
    }
  }

  lemma StoppingSteps(s: Sys, c: CoreStep)
    requires SysSane(s) && CoreEnabled(s, c)
    ensures c.Sleep? ==> CoreNext(s, c).g == GoIdle(s.g, c.reset, s.pend)
    ensures c.DoReset? ==> CoreNext(s, c).g == Reset(s.g)
  {
    hide GoIdle, Reset;
  }

  /** Nothing but the duty in force and the dither differ. */
  predicate SameButDuty(l: Laser, m: Laser) { m == l.(curPower := m.curPower, dith := m.dith) }

  lemma ReadbackSilent(g: Gf)
    ensures TakeReadback(g).0.laser == g.laser
  {
    hide U32, Signed;
  }

  lemma ZeroSilent(g: Gf, ok: bool)
    ensures ClearPosition(g, ok).laser == g.laser
  {
  }

  lemma ModelSilent(g: Gf, d: Dither)
    ensures SameButDuty(g.laser, LaserModel(g, d).laser)
  {
  }

  /** The other steps leave the laser's queue, light and requests alone. */
  lemma SilentSteps(s: Sys, c: CoreStep)
    requires SysSane(s) && CoreEnabled(s, c) && !Lights(c) && !c.Sleep? && !c.DoReset?
    ensures SameButDuty(s.g.laser, CoreNext(s, c).g.laser)
  {
    hide Pulse, LaserModel, TakeReadback, ClearPosition, LaserRequest, Jog, Wakeup, GoIdle, Reset;
    hide NoStepsLeft, Sized, KernelSane;
    match c {
      case Count(_) =>
      case Output =>
      case Advance(_) =>
      case SetModel(d) => ModelSilent(s.g, d);
      case SetArmed(_) =>
      case SetGate(_) =>
      case DoReadback => ReadbackSilent(s.g);
      case ZeroPosition(ok) => ZeroSilent(s.g, ok);
      case Fault =>
    }
  }

  lemma RetagSound(tags: seq<Source>, before: seq<Ev>, after: seq<Ev>, src: Source, fell: nat)
    requires SoundQueue(tags, before, fell, src.at) && Queues(before, after, Good(src)) && fell < src.at
    ensures SoundQueue(Retag(tags, before, after, src), after, fell, src.at + 1)
  {
  }

  /** The queue and the light after a core step. */
  lemma CoreFire(o: Trace, l: Laser, m: Laser, src: Source)
    requires SoundFire(o, l) && o.fell < o.now && src.at == o.now && |o.tags| == |l.lev|
    requires Queues(l.lev, m.lev, Good(src)) && (m.curFire ==> l.curFire)
    ensures SoundFire(o.(tags := Retag(o.tags, l.lev, m.lev, src), now := o.now + 1), m)
  {
    hide Queues, Good;
    RetagSound(o.tags, l.lev, m.lev, src, o.fell);
    hide SoundQueue, Retag;
  }

  lemma CoreKeeps(o: Trace, s: Sys, c: CoreStep)
    requires SysSane(s) && CoreEnabled(s, c) && |o.tags| == |s.g.laser.lev| && Sourced(o, s)
    ensures Sourced(Observe(o, s, ByCore(c)), CoreNext(s, c))
  {
    CoreRequests(o, s, c);
    var p := TraceRequest(o, s.g, c);
    var src := Source(c, o.now, p.asked, s.armed, p.jogging);
    var q := Observe(o, s, ByCore(c));
    hide CoreNext, CoreEnabled, AllLitSound, Queues, SoundFire, Retag, TraceRequest, Good;
    WeakenQueue(s.g.laser.lev, CoreNext(s, c).g.laser.lev, Good(src));
    CoreFire(o, s.g.laser, CoreNext(s, c).g.laser, src);
    SoundSame(o.(tags := q.tags, now := q.now), q, CoreNext(s, c).g.laser);
    LitSame(o, q);
  }

  lemma SoundSame(o: Trace, p: Trace, l: Laser)
    requires SoundFire(o, l) && p.tags == o.tags && p.cur == o.cur && p.fell == o.fell && p.now == o.now
    ensures SoundFire(p, l)
  {
  }

  /** A good step's queue stays so under a weaker claim. */
  lemma WeakenQueue(before: seq<Ev>, after: seq<Ev>, good: bool)
    requires Queues(before, after, false) || Queues(before, after, good)
    ensures Queues(before, after, good)
  {
  }

  lemma LitSame(o: Trace, p: Trace)
    requires AllLitSound(o) && p.lit == o.lit && p.built == o.built
    ensures AllLitSound(p)
  {
  }

  // ---- the shipper's steps ----

  /** Draining takes a prefix of the queue; the last one taken is in force. */
  lemma {:induction false} DrainTakes(lev: seq<Ev>, shipped: nat, fire: bool, power: Duty, due: bool)
    ensures var d := Drain(lev, shipped, fire, power, due);
            var k := |lev| - |d.lev|;
            d.lev == lev[k..] && d.fire == (if k == 0 then fire else lev[k - 1].fire)
    decreases |lev|
  {
    if lev != [] && lev[0].idx <= shipped {
      DrainTakes(lev[1..], shipped, lev[0].fire, lev[0].power, true);
    }
  }

  lemma {:induction false} LitCountConcat(a: seq<Byte>, b: seq<Byte>)
    ensures LitCount(a + b) == LitCount(a) + LitCount(b)
  {
    if a == [] {
      assert a + b == b;
    } else {
      assert (a + b)[1..] == a[1..] + b;
      LitCountConcat(a[1..], b);
    }
  }

  lemma {:induction false} LeadLitCount(lead: seq<Byte>, t: Byte)
    requires |lead| <= 1 && (lead == [] || lead[0].Power?) && t.Tick?
    ensures LitCount(lead + [t]) == (if t.fire then 1 else 0)
  {
    var one := [t];
    assert one[0] == t && one[1..] == [];
    assert LitCount(one) == (if Lit(t) then 1 else 0) + LitCount(one[1..]);
    if lead == [] {
      assert lead + [t] == one;
    } else {
      assert (lead + [t])[1..] == one;
    }
  }

  /** One tick: the transitions it takes, and when it is lit. */
  lemma {:induction false} TickTakes(l: Laser, shipped: nat, gate: bool, v: Vec)
    ensures var (m, bytes) := LaserTick(l, shipped, gate, v);
            var k := |l.lev| - |m.lev|;
            && 0 <= k && m.lev == l.lev[k..] && m.curFire == (if k == 0 then l.curFire else l.lev[k - 1].fire)
            && (m.lastLit ==> gate && m.curFire)
            && LitCount(bytes) == (if m.lastLit then 1 else 0)
            && m.wantFire == l.wantFire && m.jogging == l.jogging
  {
    var a, power := Reached(l, shipped), ReachedPower(l, shipped);
    ReachedTakes(l, shipped);
    LeadLitCount(Lead(a, power), Tick(v, LaserTick(l, shipped, gate, v).0.lastLit));
    FireTickLit(a.(curPower := power, powerSent := true), gate);
    hide LitCount, FireTick, Reached, ReachedPower, Lead;
  }

  lemma ReachedTakes(l: Laser, shipped: nat)
    ensures var m := Reached(l, shipped);
            var k := |l.lev| - |m.lev|;
            && 0 <= k && m.lev == l.lev[k..] && m.curFire == (if k == 0 then l.curFire else l.lev[k - 1].fire)
            && m.wantFire == l.wantFire && m.jogging == l.jogging
  {
    DrainTakes(l.lev, shipped, l.curFire, l.curPower, false);
    hide Drain, Restart;
  }

  lemma FireTickLit(l: Laser, gate: bool)
    ensures var (m, lit) := FireTick(l, gate); m == l.(dith := m.dith) && (lit ==> gate && l.curFire)
  {
    hide DitherTick;
  }

  /** The sources of a chunk, one tick unfolded. */
  lemma {:induction false} SourcesUnfold(b: Build, tags: seq<Source>, cur: Source, gate: bool, due: nat, streaming: bool)
    requires Sized(b.r) && |tags| == |b.l.lev|
    ensures var srcs := Sources(b, tags, cur, gate, due, streaming);
            if !More(b, due, streaming) then srcs == []
            else
              var d := BuildTick(b, gate);
              var k := |b.l.lev| - |d.l.lev|;
              var src := InForce(tags, cur, k);
              srcs == (if d.l.lastLit then [src] else []) + Sources(d, tags[k..], src, gate, due, streaming)
  {
    hide BuildTick;
  }

  /** One tick built from sound sources. */
  lemma TickSources(b: Build, tags: seq<Source>, cur: Source, gate: bool, fell: nat, now: nat)
    requires Sized(b.r) && SoundQueue(tags, b.l.lev, fell, now)
    requires b.l.curFire ==> Sound(cur, fell, now)
    ensures var d := BuildTick(b, gate);
            var k := |b.l.lev| - |d.l.lev|;
            var src := InForce(tags, cur, k);
            && Sized(d.r) && d.r.shipped == b.r.shipped + 1
            && SoundQueue(tags[k..], d.l.lev, fell, now)
            && (d.l.curFire ==> Sound(src, fell, now))
            && (d.l.lastLit ==> gate && d.l.curFire)
            && LitCount(d.bytes) == LitCount(b.bytes) + (if d.l.lastLit then 1 else 0)
            && d.l.wantFire == b.l.wantFire && d.l.jogging == b.l.jogging
  {
    hide LaserTick, Ship, LitCount, Sound;
    var v := Ship(b.r).1;
    TickTakes(b.l, b.r.shipped, gate, v);
    LitCountConcat(b.bytes, LaserTick(b.l, b.r.shipped, gate, v).1);
    CursorMoves(b.r);
  }

  lemma InForceJoin(tags: seq<Source>, cur: Source, k: nat, j: nat)
    requires k + j <= |tags|
    ensures tags[k..][j..] == tags[k + j..]
    ensures InForce(tags[k..], InForce(tags, cur, k), j) == InForce(tags, cur, k + j)
  {
  }

  lemma InForceNone(tags: seq<Source>, cur: Source)
    ensures tags[0..] == tags && InForce(tags, cur, 0) == cur
  {
  }

  ghost predicate AllSound(srcs: seq<Source>, gate: bool, fell: nat, now: nat) {
    forall src :: src in srcs ==> gate && Sound(src, fell, now)
  }

  lemma AllSoundJoin(a: seq<Source>, b: seq<Source>, gate: bool, fell: nat, now: nat)
    requires AllSound(a, gate, fell, now) && AllSound(b, gate, fell, now)
    ensures AllSound(a + b, gate, fell, now)
  {
    hide Sound;
  }

  lemma AllSoundOne(srcs: seq<Source>, src: Source, gate: bool, fell: nat, now: nat)
    requires |srcs| == 0 || (srcs == [src] && gate && Sound(src, fell, now))
    ensures AllSound(srcs, gate, fell, now)
  {
    hide Sound;
  }

  /** A chunk built from sound sources has sound ones: for each lit tick, for what
      is left in the queue, and for what is in force. */
  lemma {:induction false} ChunkSources(b: Build, tags: seq<Source>, cur: Source, gate: bool, due: nat,
                                        streaming: bool, fell: nat, now: nat)
    requires Sized(b.r) && |tags| == |b.l.lev| && SoundQueue(tags, b.l.lev, fell, now)
    requires b.l.curFire ==> Sound(cur, fell, now)
    ensures var c := BuildChunk(b, gate, due, streaming);
            var k := |b.l.lev| - |c.l.lev|;
            var srcs := Sources(b, tags, cur, gate, due, streaming);
            && SoundQueue(tags[k..], c.l.lev, fell, now)
            && (c.l.curFire ==> Sound(InForce(tags, cur, k), fell, now))
            && AllSound(srcs, gate, fell, now)
            && LitCount(c.bytes) == LitCount(b.bytes) + |srcs|
            && c.l.wantFire == b.l.wantFire && c.l.jogging == b.l.jogging
    decreases due - b.r.shipped
  {
    hide BuildTick, BuildChunk, Sources, LitCount, Sound, SoundQueue, AllSound, InForce, Sized;
    ChunkUnfolds(b, gate, due, streaming);
    SourcesUnfold(b, tags, cur, gate, due, streaming);
    if More(b, due, streaming) {
      var d := BuildTick(b, gate);
      TickSources(b, tags, cur, gate, fell, now);
      var k := |b.l.lev| - |d.l.lev|;
      var src := InForce(tags, cur, k);
      AllSoundOne(if d.l.lastLit then [src] else [], src, gate, fell, now);
      var j := |d.l.lev| - |BuildChunk(d, gate, due, streaming).l.lev|;
      InForceJoin(tags, cur, k, j);
      ChunkSources(d, tags[k..], src, gate, due, streaming, fell, now);
      var rest := Sources(d, tags[k..], src, gate, due, streaming);
      AllSoundJoin(if d.l.lastLit then [src] else [], rest, gate, fell, now);
    } else {
      AllSoundOne([], cur, gate, fell, now);
      InForceNone(tags, cur);
    }
  }

  lemma RecordsSound(o: Trace, k: nat, bytes: seq<Byte>, srcs: seq<Source>)
    requires AllLitSound(o) && |srcs| == LitCount(bytes) && k <= |o.tags|
    requires AllSound(srcs, o.gate, o.fell, o.now)
    ensures AllLitSound(TraceBuild(o, k, bytes, srcs))
  {
    assert forall i :: 0 <= i < |srcs| ==> srcs[i] in srcs;
    LitCountConcat(o.built, bytes);
  }

  lemma BuiltSound(o: Trace, k: nat, bytes: seq<Byte>, srcs: seq<Source>, l: Laser)
    requires k <= |o.tags| && SoundQueue(o.tags[k..], l.lev, o.fell, o.now)
    requires l.curFire ==> Sound(InForce(o.tags, o.cur, k), o.fell, o.now)
    ensures SoundFire(TraceBuild(o, k, bytes, srcs), l)
  {
    hide SoundQueue, Sound, InForce, Records;
  }

  lemma {:induction false} ChunkKeeps(o: Trace, g: Gf, due: nat)
    requires Sane(g) && |o.tags| == |g.laser.lev| && SoundFire(o, g.laser) && AllLitSound(o)
    ensures var c := BuildChunk(Build(g.laser, g.ring, []), o.gate, due, g.streaming);
            var p := TraceChunk(o, g, due);
            && SoundFire(p, c.l) && AllLitSound(p)
            && c.l.wantFire == g.laser.wantFire && c.l.jogging == g.laser.jogging
  {
    hide BuildChunk, Sources, AllLitSound, SoundFire, TraceBuild, Sized;
    BuildKeeps(o, Build(g.laser, g.ring, []), due, g.streaming);
  }

  lemma {:induction false} BuildKeeps(o: Trace, b: Build, due: nat, streaming: bool)
    requires Sized(b.r) && |b.bytes| == 0 && |o.tags| == |b.l.lev| && SoundFire(o, b.l) && AllLitSound(o)
    ensures var c := BuildChunk(b, o.gate, due, streaming);
            var srcs := Sources(b, o.tags, o.cur, o.gate, due, streaming);
            var p := TraceBuild(o, |b.l.lev| - |c.l.lev|, c.bytes, srcs);
            && SoundFire(p, c.l) && AllLitSound(p)
            && c.l.wantFire == b.l.wantFire && c.l.jogging == b.l.jogging
  {
    hide BuildChunk, Sources, Records, LitCount, AllLitSound, SoundQueue, Sound, InForce, AllSound, TraceBuild, Sized;
    NoneLit(b.bytes);
    ChunkSources(b, o.tags, o.cur, o.gate, due, streaming, o.fell, o.now);
    hide SoundFire;
    var c := BuildChunk(b, o.gate, due, streaming);
    var k, srcs := |b.l.lev| - |c.l.lev|, Sources(b, o.tags, o.cur, o.gate, due, streaming);
    RecordsSound(o, k, c.bytes, srcs);
    BuiltSound(o, k, c.bytes, srcs, c.l);
  }

  lemma TakenLaser(g: Gf, gate: bool, due: nat)
    requires Sane(g)
    ensures TakeChunk(g, gate, due).0.laser == BuildChunk(Build(g.laser, g.ring, []), gate, due, g.streaming).l
  {
    hide BuildChunk;
  }

  lemma NoneLit(none: seq<Byte>)
    requires |none| == 0
    ensures LitCount(none) == 0
  {
  }

  /** Sourced, but for the pass's bookkeeping. */
  ghost predicate SourcedPass(o: Trace, s: Sys) {
    && SoundFire(o, s.g.laser) && AllLitSound(o)
    && (s.g.laser.wantFire ==> o.asked) && s.g.laser.jogging == o.jogging
  }

  lemma TraceChunkKeeps(o: Trace, g: Gf, due: nat)
    requires Sane(g) && |o.tags| == |g.laser.lev|
    ensures var p := TraceChunk(o, g, due); p == o.(tags := p.tags, cur := p.cur, built := p.built, lit := p.lit)
  {
    hide BuildChunk, Sources;
  }

  lemma TurnKeeps(o: Trace, s: Sys, due: nat, startRun: bool)
    requires SysSane(s) && |o.tags| == |s.g.laser.lev| && SourcedPass(o, s)
    ensures var p, t := TraceTurn(o, s, due), ShipTurn(s, o.gate, due, startRun);
            SourcedPass(p, t) && (t.pc.Writing? ==> t.pc.gate == p.gate) && p.fell == o.fell && p.now == o.now
  {
    assert |o.tags| == |s.g.laser.lev|;
    hide TakeChunk, SoundFire, AllLitSound, TraceChunk, BuildChunk;
    if ShipMore(s.g, due) {
      ChunkKeeps(o, s.g, due);
      TakenLaser(s.g, o.gate, due);
      TraceChunkKeeps(o, s.g, due);
    }
  }

  lemma DarkenedQueue(tags: seq<Source>, lev: seq<Ev>, fell: nat, now: nat)
    requires |tags| == |lev|
    ensures SoundQueue(tags, Darkened(lev), fell, now)
  {
  }

  /** The gate sample: a fall leaves nothing lit in flight or queued. */
  lemma SampleKeeps(o: Trace, s: Sys)
    requires SysSane(s) && Sourced(o, s)
    ensures SourcedPass(TraceSample(o, s), Sampled(s))
    ensures s.g.laser.gateSeen && !s.gate ==>
              var l := Sampled(s).g.laser; !l.curFire && forall i :: 0 <= i < |l.lev| ==> !l.lev[i].fire
  {
    DarkenedQueue(o.tags, s.g.laser.lev, o.now, o.now);
    LitSame(o, TraceSample(o, s));
    hide AllLitSound;
  }

  /** What a step that builds nothing may change of the laser. */
  predicate Dims(l: Laser, m: Laser) {
    && m == l.(curFire := m.curFire, curPower := m.curPower, lastLit := m.lastLit, powerSent := m.powerSent, dith := m.dith)
    && (m.curFire ==> l.curFire)
  }

  /** A later number, the same history: sound still. */
  lemma Later(o: Trace, p: Trace, s: Sys, t: Sys)
    requires SourcedPass(o, s) && o.fell <= o.now && p == o.(now := o.now + 1) && Dims(s.g.laser, t.g.laser)
    requires t.pc.Writing? ==> t.pc.gate == o.gate
    ensures Sourced(p, t)
  {
    hide AllLitSound;
    LitSame(o, p);
  }

  lemma SameDims(l: Laser)
    ensures Dims(l, l)
  {
  }

  /** A pass that ships. */
  lemma BeginShips(o: Trace, s: Sys, due: nat, landed: bool)
    requires SysSane(s) && s.pc == Ready && |o.tags| == |s.g.laser.lev| && Sourced(o, s)
    requires !s.g.failed && (s.g.streaming || Backlog(s.g.ring) != 0) && !PreloadWait(s.g)
    ensures Sourced(Observe(o, s, ByShipper(Begin(due, landed))), DoBegin(s, due, landed))
  {
    SourcedNow(o, s);
    hide DoBegin, ShipTurn, Sampled, Sourced, SourcedPass, Observe, TraceTurn, TraceSample, PreloadWait, Dims, Backlog;
    var u, p := Sampled(s), TraceSample(o, s);
    SampleKeeps(o, s);
    SampleFrame(o, s);
    BeginCases(s, due, landed);
    BeginTrace(o, s, due, landed);
    var q, t := Observe(o, s, ByShipper(Begin(due, landed))), DoBegin(s, due, landed);
    TurnKeeps(p, u, due, false);
    SameDims(t.g.laser);
    Later(TraceTurn(p, u, due), q, t, t);
  }

  /** A pass that ends a stream, waits, or finds a fault. */
  lemma BeginStays(o: Trace, s: Sys, due: nat, landed: bool)
    requires SysSane(s) && s.pc == Ready && |o.tags| == |s.g.laser.lev| && Sourced(o, s)
    requires s.g.failed || (!s.g.streaming && Backlog(s.g.ring) == 0) || PreloadWait(s.g)
    ensures Sourced(Observe(o, s, ByShipper(Begin(due, landed))), DoBegin(s, due, landed))
  {
    SourcedNow(o, s);
    hide DoBegin, ShipTurn, Sampled, Sourced, SourcedPass, FinishStream;
    hide PadFault, Observe, TraceTurn, TraceSample, PreloadWait, Dims, Backlog;
    var u, p := Sampled(s), TraceSample(o, s);
    SampleKeeps(o, s);
    SampleFrame(o, s);
    PassFrom(o, s);
    BeginCases(s, due, landed);
    BeginTrace(o, s, due, landed);
    var q, t := Observe(o, s, ByShipper(Begin(due, landed))), DoBegin(s, due, landed);
    if s.g.failed {
      FaultDims(s, landed);
      Later(o, q, s, t);
    } else if !s.g.streaming && Backlog(s.g.ring) == 0 {
      FinishDims(u, landed);
      Later(p, q, u, t);
    } else {
      SameDims(u.g.laser);
      Later(p, q, u, t);
    }
  }

  lemma BeginKeeps(o: Trace, s: Sys, due: nat, landed: bool)
    requires SysSane(s) && s.pc == Ready && |o.tags| == |s.g.laser.lev| && Sourced(o, s)
    ensures Sourced(Observe(o, s, ByShipper(Begin(due, landed))), DoBegin(s, due, landed))
  {
    hide DoBegin, Sourced, Observe, PreloadWait, Backlog;
    if s.g.failed || (!s.g.streaming && Backlog(s.g.ring) == 0) || PreloadWait(s.g) {
      BeginStays(o, s, due, landed);
    } else {
      BeginShips(o, s, due, landed);
    }
  }

  lemma SampleFrame(o: Trace, s: Sys)
    requires SysSane(s) && o.fell <= o.now
    ensures var u, p := Sampled(s), TraceSample(o, s);
            && p.fell <= p.now == o.now && p.gate == s.gate && |u.g.laser.lev| == |s.g.laser.lev| && |p.tags| == |o.tags|
            && u.pc == s.pc
  {
  }

  lemma BeginTrace(o: Trace, s: Sys, due: nat, landed: bool)
    requires SysSane(s) && s.pc == Ready && |o.tags| == |s.g.laser.lev|
    ensures var q, p := Observe(o, s, ByShipper(Begin(due, landed))), TraceSample(o, s);
            if s.g.failed then q == o.(now := o.now + 1)
            else if (!s.g.streaming && Backlog(s.g.ring) == 0) || PreloadWait(s.g) then q == p.(now := p.now + 1)
            else q == TraceTurn(p, Sampled(s), due).(now := o.now + 1)
  {
    hide TraceTurn, PreloadWait, Backlog;
  }

  lemma PassFrom(o: Trace, s: Sys)
    requires Sourced(o, s)
    ensures SourcedPass(o, s)
  {
  }

  /** The pass by cases. */
  lemma BeginCases(s: Sys, due: nat, landed: bool)
    requires SysSane(s) && s.pc == Ready
    ensures DoBegin(s, due, landed) ==
            (if s.g.failed then PadFault(s, landed)
             else if !s.g.streaming && Backlog(s.g.ring) == 0 then FinishStream(Sampled(s), landed)
             else if PreloadWait(s.g) then Sampled(s).(pc := Top)
             else ShipTurn(Sampled(s), s.gate, due, false))
  {
  }

  lemma FaultDims(s: Sys, landed: bool)
    requires SysSane(s)
    ensures Dims(s.g.laser, PadFault(s, landed).g.laser)
  {
    hide PadOnly, U32, PadWritten;
    if s.g.laser.lastLit {
      var g := Padded(s.g, landed);
      assert PadFault(s, landed).g == g.(laser := g.laser.(curFire := false));
    } else {
      assert PadFault(s, landed).g == s.g;
    }
  }

  lemma FinishDims(s: Sys, landed: bool)
    requires SysSane(s)
    ensures Dims(s.g.laser, FinishStream(s, landed).g.laser)
  {
    hide PadOnly, U32, PadWritten;
    assert FinishStream(s, landed).g == EndStream(s.g, landed);
  }

  /** The chunk's write completed, before the loop turns. */
  function Written(s: Sys): (u: Sys)
    requires SysSane(s) && s.pc.Writing?
    ensures SysSane(u) && u.g.laser == s.g.laser && u.pc == s.pc
  {
    s.(g := ChunkTaken(s.g, s.pc.chunk), k := Take(s.k, s.pc.chunk))
  }

  lemma WriteCases(o: Trace, s: Sys)
    requires SysSane(s) && s.pc.Writing? && |o.tags| == |s.g.laser.lev|
    ensures var u, q := Written(s), Observe(o, s, ByShipper(WriteOk));
            if u.g.failed || u.g.clearPending then
              && q == o.(now := o.now + 1)
              && DoWriteOk(s).g.laser == s.g.laser && !DoWriteOk(s).pc.Writing?
            else
              && q == TraceTurn(o, u, s.pc.due).(now := o.now + 1)
              && DoWriteOk(s) == ShipTurn(u, s.pc.gate, s.pc.due, s.pc.startRun || s.pc.first)
  {
    hide TraceTurn, ShipTurn, U32, Wrap, StepsOf;
  }

  lemma WriteKeeps(o: Trace, s: Sys)
    requires SysSane(s) && s.pc.Writing? && |o.tags| == |s.g.laser.lev| && Sourced(o, s)
    ensures Sourced(Observe(o, s, ByShipper(WriteOk)), DoWriteOk(s))
  {
    var u := Written(s);
    WriteCases(o, s);
    PassFrom(o, s);
    SourcedNow(o, s);
    assert SourcedPass(o, u);
    var q, t := Observe(o, s, ByShipper(WriteOk)), DoWriteOk(s);
    hide ShipTurn, Sourced, SourcedPass, Observe, TraceTurn, DoWriteOk, Written, Dims;
    if u.g.failed || u.g.clearPending {
      SameDims(s.g.laser);
      Later(o, q, s, t);
    } else {
      TurnKeeps(o, u, s.pc.due, s.pc.startRun || s.pc.first);
      SameDims(t.g.laser);
      Later(TraceTurn(o, u, s.pc.due), q, t, t);
    }
  }

  lemma SnapDims(s: Sys, landed: bool)
    requires SysSane(s)
    ensures Dims(s.g.laser, DoSnap(s, landed).g.laser)
  {
    hide PadOnly, U32, PadWritten;
    if PadDue(s.g) {
      assert DoSnap(s, landed).g == Padded(s.g, landed);
    } else {
      assert DoSnap(s, landed).g == s.g;
    }
  }

  lemma FinishClearDims(s: Sys)
    requires SysSane(s) && s.pc.Cleared?
    ensures Dims(s.g.laser, DoFinish(s).g.laser) && DoFinish(s).pc == Ready
  {
    hide OwedResidue, Restart;
  }

  /** The other shipper steps build nothing. */
  lemma QuietShip(s: Sys, h: ShipStep)
    requires SysSane(s) && ShipEnabled(s, h) && !h.Begin? && !h.WriteOk?
    ensures Dims(s.g.laser, ShipNext(s, h).g.laser) && !ShipNext(s, h).pc.Writing?
  {
    match h {
      case Snap(landed) => hide DoSnap; SnapDims(s, landed);
      case Finish => hide DoFinish; FinishClearDims(s);
      case _ => PlainShip(s, h);
    }
  }

  lemma PlainShip(s: Sys, h: ShipStep)
    requires SysSane(s) && ShipEnabled(s, h) && !h.Begin? && !h.WriteOk? && !h.Snap? && !h.Finish?
    ensures ShipNext(s, h).g.laser == s.g.laser && !ShipNext(s, h).pc.Writing?
  {
    hide DoSnap, DoFinish, DoBegin, DoWriteOk, Counters, CountsMatch, CanStart;
    match h {
      case NotYet =>
      case Empty(_, _) =>
      case WriteFail(_) =>
      case GateSkip =>
      case GateRead(_, _) =>
      case IssueRun =>
      case IssueAck(_) =>
      case IssueRefused =>
    }
  }

  lemma StepKeeps(o: Trace, s: Sys, a: Step)
    requires SysSane(s) && Enabled(s, a) && |o.tags| == |s.g.laser.lev| && Sourced(o, s)
    ensures Sourced(Observe(o, s, a), Next(s, a))
  {
    hide CoreNext, ShipNext, KernelNext, CoreEnabled, ShipEnabled, KernelEnabled, Sourced, SourcedPass, Dims;
    match a {
      case ByCore(c) => CoreKeeps(o, s, c);
      case ByShipper(h) => ShipKeeps(o, s, h);
      case ByKernel(e) =>
        PassFrom(o, s);
        KernelSame(s, e);
        StillSourced(o, s, KernelNext(s, e));
    }
  }

  lemma KernelSame(s: Sys, e: KernelStep)
    requires SysSane(s) && KernelEnabled(s, e)
    ensures KernelNext(s, e).g == s.g && KernelNext(s, e).pc == s.pc
  {
  }

  lemma StillSourced(o: Trace, s: Sys, t: Sys)
    requires Sourced(o, s) && t.g == s.g && t.pc == s.pc
    ensures Sourced(o.(now := o.now + 1), t)
  {
    Later(o, o.(now := o.now + 1), s, t);
  }

  lemma ShipKeeps(o: Trace, s: Sys, h: ShipStep)
    requires SysSane(s) && ShipEnabled(s, h) && |o.tags| == |s.g.laser.lev| && Sourced(o, s)
    ensures Sourced(Observe(o, s, ByShipper(h)), ShipNext(s, h))
  {
    hide DoBegin, DoWriteOk, Sourced, SourcedPass;
    if h.Begin? {
      BeginKeeps(o, s, h.due, h.landed);
    } else if h.WriteOk? {
      WriteKeeps(o, s);
    } else {
      QuietShip(s, h);
      PassFrom(o, s);
      SourcedNow(o, s);
      Later(o, Observe(o, s, ByShipper(h)), s, ShipNext(s, h));
    }
  }

  lemma SourcedNow(o: Trace, s: Sys)
    requires Sourced(o, s)
    ensures o.fell < o.now && |o.tags| == |s.g.laser.lev|
  {
  }

  // ---- whole runs ----

  /** The history of a run. */
  ghost function Traced(o: Trace, s: Sys, steps: seq<Step>): Trace
    requires SysSane(s) && IsRun(s, steps) && Sourced(o, s)
    decreases |steps|
  {
    if steps == [] then o
    else
      SourcedNow(o, s);
      StepKeeps(o, s, steps[0]);
      Traced(Observe(o, s, steps[0]), Next(s, steps[0]), steps[1..])
  }

  lemma {:induction false} RunKeeps(o: Trace, s: Sys, steps: seq<Step>)
    requires SysSane(s) && IsRun(s, steps) && Sourced(o, s)
    ensures Sourced(Traced(o, s, steps), Final(s, steps))
    decreases |steps|
  {
    hide Sourced, Next, Observe;
    if steps != [] {
      SourcedNow(o, s);
      StepKeeps(o, s, steps[0]);
      RunKeeps(Observe(o, s, steps[0]), Next(s, steps[0]), steps[1..]);
    }
  }

  /** The empty history at a controller's start; nothing reads its source. */
  function Opening(s: Sys): Trace {
    Trace([], Source(Fault, 0, false, false, false), false, s.g.laser.jogging, 1, 0, false, [], [])
  }

  lemma OpensSourced(s: Sys)
    requires Initial(s)
    ensures Sourced(Opening(s), s)
  {
  }

  ghost function History(s: Sys, steps: seq<Step>): Trace
    requires Initial(s) && IsRun(s, steps)
  {
    OpensSourced(s);
    Traced(Opening(s), s, steps)
  }

  /** Fire provenance over every run: there is a record for each lit byte built, and
      each was built under an open gate sample from a transition that a fire request
      of the core asked for, queued with the laser armed and no jog, after the last
      pass that saw the gate fall. */
  lemma FireProvenance(s: Sys, steps: seq<Step>)
    requires Initial(s) && IsRun(s, steps)
    ensures var o := History(s, steps);
            && |o.lit| == LitCount(o.built)
            && (forall i :: 0 <= i < |o.lit| ==>
                  o.lit[i].gate && Good(o.lit[i].src) && o.lit[i].fell < o.lit[i].src.at)
  {
    OpensSourced(s);
    RunKeeps(Opening(s), s, steps);
    hide Traced, IsRun, Final, Initial;
  }
}
