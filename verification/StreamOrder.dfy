/** The ring refines a queue of timed events: over every run, the step bytes that
    leave the engine are exactly the accepted step events, in order, each at the
    stream index it took, never before its virtual tick. */
module StreamOrder {
  import opened PulseBytes
  import opened StreamRing
  import opened LaserQueue
  import opened StreamEngine
  import opened StreamSystem

  /** A step byte on the wire: its stream index and its steps. */
  datatype Mark = Mark(at: nat, steps: Vec)

  function Marks(bytes: seq<Byte>, at: nat): seq<Mark> {
    if bytes == [] then []
    else if bytes[0].Power? then Marks(bytes[1..], at)
    else (if bytes[0].steps != ZERO then [Mark(at, bytes[0].steps)] else []) + Marks(bytes[1..], at + 1)
  }

  function EventMarks(evs: seq<Event>): seq<Mark> {
    if evs == [] then [] else [Mark(evs[0].idx, evs[0].steps)] + EventMarks(evs[1..])
  }

  /** How many of the leading events the cursor x has passed. */
  function Passed(evs: seq<Event>, x: nat): (n: nat)
    ensures n <= |evs|
  {
    if evs != [] && evs[0].idx < x then 1 + Passed(evs[1..], x) else 0
  }

  lemma {:induction false} MarksConcat(a: seq<Byte>, b: seq<Byte>, at: nat)
    ensures Marks(a + b, at) == Marks(a, at) + Marks(b, at + Ticks(a))
    decreases |a|
  {
    if a == [] {
      assert a + b == b;
    } else {
      assert (a + b)[1..] == a[1..] + b;
      MarksConcat(a[1..], b, if a[0].Power? then at else at + 1);
    }
  }

  lemma {:induction false} EventMarksConcat(a: seq<Event>, b: seq<Event>)
    ensures EventMarks(a + b) == EventMarks(a) + EventMarks(b)
  {
    if a == [] {
      assert a + b == b;
    } else {
      assert (a + b)[1..] == a[1..] + b;
      EventMarksConcat(a[1..], b);
    }
  }

  // ---- one chunk ----

  lemma {:induction false} OneTickMarks(lead: seq<Byte>, t: Byte, at: nat)
    requires |lead| <= 1 && (lead == [] || lead[0].Power?) && t.Tick?
    ensures Marks(lead + [t], at) == (if t.steps != ZERO then [Mark(at, t.steps)] else [])
  {
    var one := [t];
    assert one[0] == t && one[1..] == [];
    assert Marks(one, at) == (if t.steps != ZERO then [Mark(at, t.steps)] else []) + Marks(one[1..], at + 1);
    if lead == [] {
      assert lead + [t] == one;
    } else {
      assert (lead + [t])[1..] == one;
    }
  }

  lemma HeadIsStep(r: Ring, evs: seq<Event>)
    requires Holds(r, evs) && evs != []
    ensures evs[0].steps != ZERO && r.shipped <= evs[0].idx < r.produced
  {
    assert Pending(r, evs[0]);
  }

  /** One tick emits the event at the cursor, or a pad. */
  lemma {:induction false} TickMarks(l: Laser, r: Ring, evs: seq<Event>, gate: bool)
    requires Sized(r) && Holds(r, evs)
    ensures Holds(Ship(r).0, Unshipped(r, evs))
    ensures var bytes := LaserTick(l, r.shipped, gate, Ship(r).1).1;
            && 1 <= |bytes| <= 2 && Ticks(bytes) == 1
            && Marks(bytes, r.shipped) == HeadMark(r, evs)
            && StepsOf(bytes) == HeadSteps(r, evs)
  {
    hide Holds;
    ShipRefines(r, evs);
    var v := Ship(r).1;
    var m := LaserTick(l, r.shipped, gate, v).0;
    LaserTickShape(l, r.shipped, gate, v);
    OneTickMarks(Lead(Reached(l, r.shipped), ReachedPower(l, r.shipped)), Tick(v, m.lastLit), r.shipped);
    if AtCursor(r, evs) { HeadIsStep(r, evs); }
  }

  ghost function HeadMark(r: Ring, evs: seq<Event>): seq<Mark> {
    if AtCursor(r, evs) then [Mark(evs[0].idx, evs[0].steps)] else []
  }

  ghost function HeadSteps(r: Ring, evs: seq<Event>): Vec {
    if AtCursor(r, evs) then evs[0].steps else ZERO
  }

  /** The first passed event, then the rest. */
  lemma {:induction false} PassedHead(evs: seq<Event>, x: nat)
    requires evs != [] && evs[0].idx < x
    ensures var rest := evs[1..];
            var n, m := Passed(evs, x), Passed(rest, x);
            && n == m + 1 && evs[n..] == rest[m..]
            && EventMarks(evs[..n]) == [Mark(evs[0].idx, evs[0].steps)] + EventMarks(rest[..m])
            && EventSteps(evs[..n]) == Plus(evs[0].steps, EventSteps(rest[..m]))
  {
    var n := Passed(evs, x);
    var pre := evs[..n];
    assert pre[0] == evs[0] && pre[1..] == evs[1..][..n - 1];
  }

  /** The cursor's event first, then the rest: passing splits there. */
  lemma {:induction false} PassedSplit(r: Ring, evs: seq<Event>, x: nat)
    requires r.shipped < x
    ensures var rest := Unshipped(r, evs);
            var n, m := Passed(evs, x), Passed(rest, x);
            && EventMarks(evs[..n]) == HeadMark(r, evs) + EventMarks(rest[..m])
            && EventSteps(evs[..n]) == Plus(HeadSteps(r, evs), EventSteps(rest[..m]))
            && evs[n..] == rest[m..]
  {
    hide EventMarks, EventSteps, Passed;
    if AtCursor(r, evs) {
      PassedHead(evs, x);
    } else {
      PlusZero(EventSteps(evs[..Passed(evs, x)]));
    }
  }

  lemma NonePassed(r: Ring, evs: seq<Event>)
    requires Holds(r, evs)
    ensures Passed(evs, r.shipped) == 0 && evs[0..] == evs
  {
    if evs != [] { HeadIsStep(r, evs); }
  }

  lemma {:induction false} NothingSaid(bytes: seq<Byte>, at: nat, none: seq<Event>)
    requires |none| == 0
    ensures Marks(bytes, at) == Marks(bytes, at) + EventMarks(none)
    ensures StepsOf(bytes) == Plus(StepsOf(bytes), EventSteps(none))
  {
    hide Marks, StepsOf;
    PlusZero(StepsOf(bytes));
  }

  /** A chunk is exactly the events the cursor passed, each at its own index. at is the
      stream index of the first tick. */
  lemma {:induction false} ChunkMarks(b: Build, at: nat, evs: seq<Event>, gate: bool, due: nat, streaming: bool)
    requires Sized(b.r) && Holds(b.r, evs) && at + Ticks(b.bytes) == b.r.shipped
    ensures var c := BuildChunk(b, gate, due, streaming);
            var n := Passed(evs, c.r.shipped);
            && b.r.shipped <= c.r.shipped && c.r.produced == b.r.produced
            && at + Ticks(c.bytes) == c.r.shipped
            && Marks(c.bytes, at) == Marks(b.bytes, at) + EventMarks(evs[..n])
            && StepsOf(c.bytes) == Plus(StepsOf(b.bytes), EventSteps(evs[..n]))
            && Holds(c.r, evs[n..])
    decreases due - b.r.shipped
  {
    hide Holds, BuildChunk, LaserTick, Marks, EventMarks, StepsOf, EventSteps, Ticks, Passed, Unshipped;
    ChunkUnfolds(b, gate, due, streaming);
    if !More(b, due, streaming) {
      NonePassed(b.r, evs);
      NothingSaid(b.bytes, at, evs[..0]);
    } else {
      var d, rest := BuildTick(b, gate), Unshipped(b.r, evs);
      var bytes := LaserTick(b.l, b.r.shipped, gate, Ship(b.r).1).1;
      TickMarks(b.l, b.r, evs, gate);
      assert d.bytes == b.bytes + bytes;
      MarksConcat(b.bytes, bytes, at);
      TicksConcat(b.bytes, bytes);
      StepsOfConcat(b.bytes, bytes);
      ChunkMarks(d, at, rest, gate, due, streaming);
      PassedSplit(b.r, evs, BuildChunk(b, gate, due, streaming).r.shipped);
    }
  }

  // ---- whole runs ----

  /** What became of an accepted event that is no longer in the ring. */
  datatype Fate = Shipped(e: Event) | Dropped(e: Event)

  /** The history a run leaves: the events the ring accepted, what became of those
      gone from it, those still live, and the step bytes built for the wire. */
  datatype Track = Track(accepted: seq<Event>, gone: seq<Fate>, live: seq<Event>, wire: seq<Mark>)

  function EventsOf(gone: seq<Fate>): seq<Event> {
    if gone == [] then [] else [gone[0].e] + EventsOf(gone[1..])
  }

  function ShippedOf(gone: seq<Fate>): seq<Event> {
    if gone == [] then [] else (if gone[0].Shipped? then [gone[0].e] else []) + ShippedOf(gone[1..])
  }

  function AllShipped(evs: seq<Event>): (r: seq<Fate>) {
    seq(|evs|, i requires 0 <= i < |evs| => Shipped(evs[i]))
  }

  function AllDropped(evs: seq<Event>): (r: seq<Fate>) {
    seq(|evs|, i requires 0 <= i < |evs| => Dropped(evs[i]))
  }

  /** The pending step would be stored. */
  predicate Accepts(s: Sys) {
    !s.g.failed && s.pend != ZERO && s.g.streaming && !(Late(s.g) && s.armed) && !Overflows(s.g.ring)
  }

  function ObserveShip(o: Track, s: Sys, h: ShipStep): Track
    requires SysSane(s) && ShipEnabled(s, h)
  {
    var t := ShipNext(s, h);
    var n := Passed(o.live, t.g.ring.shipped);
    o.(gone := o.gone + AllShipped(o.live[..n]), live := o.live[n..],
       wire := o.wire + (if (h.Begin? || h.WriteOk?) && t.pc.Writing? then Marks(t.pc.chunk, s.g.ring.shipped) else []))
  }

  function Observe(o: Track, s: Sys, a: Step): Track
    requires SysSane(s) && Enabled(s, a)
  {
    match a
    case ByCore(Output) =>
      if !Accepts(s) then o
      else
        var e := Event(Place(s.g.ring), s.pend, TickNow(s.g.ring));
        o.(accepted := o.accepted + [e], live := o.live + [e])
    case ByCore(DoReset) =>
      if !(s.g.streaming || s.g.killed || s.g.failed) then o
      else o.(gone := o.gone + AllDropped(o.live), live := [])
    case ByShipper(h) => ObserveShip(o, s, h)
    case _ => o
  }

  /** Nothing is lost, merged, duplicated or reordered, and the wire carries
      exactly the events shipped, each at the index it took. */
  ghost predicate InOrder(o: Track, s: Sys) {
    && Sized(s.g.ring) && Holds(s.g.ring, o.live)
    && o.accepted == EventsOf(o.gone) + o.live
    && o.wire == EventMarks(ShippedOf(o.gone))
    && (forall i :: 0 <= i < |o.accepted| ==> o.accepted[i].tick <= o.accepted[i].idx)
  }

  lemma {:induction false} EventsOfConcat(a: seq<Fate>, b: seq<Fate>)
    ensures EventsOf(a + b) == EventsOf(a) + EventsOf(b)
  {
    if a == [] {
      assert a + b == b;
    } else {
      assert (a + b)[1..] == a[1..] + b && (a + b)[0] == a[0];
      EventsOfConcat(a[1..], b);
      assert [a[0].e] + (EventsOf(a[1..]) + EventsOf(b)) == ([a[0].e] + EventsOf(a[1..])) + EventsOf(b);
    }
  }

  lemma {:induction false} ShippedOfConcat(a: seq<Fate>, b: seq<Fate>)
    ensures ShippedOf(a + b) == ShippedOf(a) + ShippedOf(b)
  {
    if a == [] {
      assert a + b == b;
    } else {
      assert (a + b)[1..] == a[1..] + b && (a + b)[0] == a[0];
      ShippedOfConcat(a[1..], b);
      var h := if a[0].Shipped? then [a[0].e] else [];
      assert ShippedOf(a) == h + ShippedOf(a[1..]) && ShippedOf(a + b) == h + ShippedOf(a[1..] + b);
      assert h + (ShippedOf(a[1..]) + ShippedOf(b)) == (h + ShippedOf(a[1..])) + ShippedOf(b);
    }
  }

  lemma {:induction false} FatesOf(evs: seq<Event>)
    ensures EventsOf(AllShipped(evs)) == evs == ShippedOf(AllShipped(evs))
    ensures EventsOf(AllDropped(evs)) == evs && ShippedOf(AllDropped(evs)) == []
  {
    if evs != [] {
      FatesOf(evs[1..]);
      assert AllShipped(evs)[1..] == AllShipped(evs[1..]);
      assert AllDropped(evs)[1..] == AllDropped(evs[1..]);
      assert evs == [evs[0]] + evs[1..];
    }
  }

  /** The first n live events shipped: the books still balance. */
  lemma {:induction false} ShipBooks(o: Track, n: nat, marks: seq<Mark>)
    requires n <= |o.live| && marks == EventMarks(o.live[..n])
    requires o.accepted == EventsOf(o.gone) + o.live && o.wire == EventMarks(ShippedOf(o.gone))
    ensures var gone := o.gone + AllShipped(o.live[..n]);
            && o.accepted == EventsOf(gone) + o.live[n..]
            && o.wire + marks == EventMarks(ShippedOf(gone))
  {
    hide EventMarks, EventsOf, ShippedOf, AllShipped;
    EventsOfConcat(o.gone, AllShipped(o.live[..n]));
    ShippedOfConcat(o.gone, AllShipped(o.live[..n]));
    FatesOf(o.live[..n]);
    EventMarksConcat(ShippedOf(o.gone), o.live[..n]);
    assert o.live == o.live[..n] + o.live[n..];
  }

  lemma {:induction false} DropBooks(o: Track)
    requires o.accepted == EventsOf(o.gone) + o.live && o.wire == EventMarks(ShippedOf(o.gone))
    ensures var gone := o.gone + AllDropped(o.live);
            && o.accepted == EventsOf(gone) + []
            && o.wire == EventMarks(ShippedOf(gone))
  {
    hide EventMarks, EventsOf, ShippedOf, AllDropped;
    EventsOfConcat(o.gone, AllDropped(o.live));
    ShippedOfConcat(o.gone, AllDropped(o.live));
    FatesOf(o.live);
    assert ShippedOf(o.gone) + [] == ShippedOf(o.gone);
  }

  /** A step that leaves the slots and cursors alone leaves the queue alone. */
  lemma SameRing(o: Track, s: Sys, t: Sys)
    requires InOrder(o, s)
    requires t.g.ring.slots == s.g.ring.slots && t.g.ring.shipped == s.g.ring.shipped
    requires t.g.ring.produced == s.g.ring.produced
    ensures InOrder(o, t)
  {
    forall i | 0 <= i < |o.live|
      ensures Pending(t.g.ring, o.live[i])
    {
      assert Pending(s.g.ring, o.live[i]);
    }
  }

  lemma WakeOrder(o: Track, s: Sys, dueNow: nat)
    requires SysSane(s) && InOrder(o, s) && CoreEnabled(s, Wake(dueNow))
    ensures InOrder(o, CoreNext(s, Wake(dueNow)))
  {
    var t := CoreNext(s, Wake(dueNow));
    if FreshWake(s.g) {
      if o.live != [] { HeadIsStep(s.g.ring, o.live); }
      FreshRefines(s.g.ring, o.live, s.g.depth);
      assert t.g.ring == Fresh(s.g.ring, s.g.depth);
    } else if !s.g.failed && !s.g.streaming {
      ContinueRefines(s.g.ring, o.live, dueNow);
      assert t.g.ring == Continue(s.g.ring, dueNow);
    } else {
      SameRing(o, s, t);
    }
  }

  lemma OutputOrder(o: Track, s: Sys)
    requires SysSane(s) && InOrder(o, s)
    ensures InOrder(Observe(o, s, ByCore(Output)), CoreNext(s, Output))
  {
    var t := CoreNext(s, Output);
    if Accepts(s) {
      hide Holds;
      var e := Event(Place(s.g.ring), s.pend, TickNow(s.g.ring));
      StoreRefines(s.g.ring, o.live, s.pend);
      assert t.g.ring == Store(s.g.ring, s.pend);
      assert EventsOf(o.gone) + (o.live + [e]) == EventsOf(o.gone) + o.live + [e];
    } else {
      SameRing(o, s, t);
    }
  }

  lemma ResetRing(g: Gf, evs: seq<Event>)
    requires Sane(g) && Holds(g.ring, evs)
    ensures g.streaming || g.killed || g.failed ==> Holds(Reset(g).ring, [])
    ensures !(g.streaming || g.killed || g.failed) ==> Reset(g).ring == g.ring
  {
    hide Holds;
    DropRefines(g.ring, evs);
    DropRefines(Drop(g.ring).0, []);
  }

  lemma ResetOrder(o: Track, s: Sys)
    requires SysSane(s) && InOrder(o, s)
    ensures InOrder(Observe(o, s, ByCore(DoReset)), CoreNext(s, DoReset))
  {
    var t := CoreNext(s, DoReset);
    ResetRing(s.g, o.live);
    if s.g.streaming || s.g.killed || s.g.failed {
      hide Holds;
      DropBooks(o);
    } else {
      SameRing(o, s, t);
    }
  }

  /** The core's other steps leave the slots and both cursors alone. */
  lemma QuietCore(s: Sys, c: CoreStep)
    requires SysSane(s) && CoreEnabled(s, c) && !c.Output? && !c.DoReset? && !c.Wake?
    ensures var r, q := CoreNext(s, c).g.ring, s.g.ring;
            r.slots == q.slots && r.shipped == q.shipped && r.produced == q.produced
  {
    hide LaserRequest, Jog, GoIdle;
    match c {
      case Output | DoReset | Wake(_) =>
      case Count(_) =>
      case Advance(_) =>
      case Request(_, _) =>
      case SetJog(_) =>
      case SetModel(_) =>
      case SetArmed(_) =>
      case SetGate(_) =>
      case Sleep(_) =>
      case DoReadback =>
      case ZeroPosition(_) =>
      case Fault =>
    }
  }

  lemma CoreOrder(o: Track, s: Sys, c: CoreStep)
    requires SysSane(s) && InOrder(o, s) && CoreEnabled(s, c)
    ensures InOrder(Observe(o, s, ByCore(c)), CoreNext(s, c))
  {
    hide InOrder, CoreNext, Accepts;
    if c.Output? {
      OutputOrder(o, s);
    } else if c.DoReset? {
      ResetOrder(o, s);
    } else if c.Wake? {
      WakeOrder(o, s, c.dueNow);
    } else {
      QuietCore(s, c);
      SameRing(o, s, CoreNext(s, c));
    }
  }

  /** A shipping turn: the chunk built is the events passed. */
  lemma TurnOrder(o: Track, s: Sys, gate: bool, due: nat, startRun: bool)
    requires SysSane(s) && InOrder(o, s)
    ensures var t := ShipTurn(s, gate, due, startRun);
            var n := Passed(o.live, t.g.ring.shipped);
            InOrder(o.(gone := o.gone + AllShipped(o.live[..n]), live := o.live[n..],
                       wire := o.wire + (if t.pc.Writing? then Marks(t.pc.chunk, s.g.ring.shipped) else [])), t)
  {
    hide Holds, BuildChunk, Passed, EventMarks, AllShipped, EventsOf, ShippedOf, Marks, Ticks, Sized;
    var t := ShipTurn(s, gate, due, startRun);
    if ShipMore(s.g, due) {
      var b := Build(s.g.laser, s.g.ring, []);
      StartMarks(b, o.live, gate, due, s.g.streaming);
      var c := BuildChunk(b, gate, due, s.g.streaming);
      assert t.pc.chunk == c.bytes && t.g.ring == c.r;
      ShipBooks(o, Passed(o.live, c.r.shipped), Marks(c.bytes, s.g.ring.shipped));
    } else {
      StillOrder(o, s, t);
    }
  }

  /** ChunkMarks for a chunk started empty. */
  lemma StartMarks(b: Build, evs: seq<Event>, gate: bool, due: nat, streaming: bool)
    requires Sized(b.r) && Holds(b.r, evs) && |b.bytes| == 0
    ensures var c := BuildChunk(b, gate, due, streaming);
            var n := Passed(evs, c.r.shipped);
            && b.r.shipped + Ticks(c.bytes) == c.r.shipped
            && Marks(c.bytes, b.r.shipped) == EventMarks(evs[..n])
            && StepsOf(c.bytes) == EventSteps(evs[..n])
            && Sized(c.r) && Holds(c.r, evs[n..])
  {
    hide Holds, BuildChunk, Passed, EventMarks, EventSteps;
    ChunkMarks(b, b.r.shipped, evs, gate, due, streaming);
    PlusZero(EventSteps(evs[..Passed(evs, BuildChunk(b, gate, due, streaming).r.shipped)]));
  }

  /** A shipper step that moves no cursor. */
  lemma StillOrder(o: Track, s: Sys, t: Sys)
    requires InOrder(o, s) && t.g.ring == s.g.ring
    ensures var n := Passed(o.live, t.g.ring.shipped);
            InOrder(o.(gone := o.gone + AllShipped(o.live[..n]), live := o.live[n..], wire := o.wire + []), t)
  {
    NonePassed(s.g.ring, o.live);
    assert o.gone + AllShipped(o.live[..0]) == o.gone && o.wire + [] == o.wire;
    SameRing(o, s, t);
  }

  lemma BeginOrder(o: Track, s: Sys, due: nat, landed: bool)
    requires SysSane(s) && InOrder(o, s) && s.pc == Ready
    ensures InOrder(ObserveShip(o, s, Begin(due, landed)), DoBegin(s, due, landed))
  {
    hide InOrder, FinishStream, PadFault, ShipTurn, GateEdge, AllShipped, Marks, Passed;
    var t, u := DoBegin(s, due, landed), Sampled(s);
    SameRing(o, s, u);
    if s.g.failed {
      StillOrder(o, s, t);
    } else if !s.g.streaming && Backlog(s.g.ring) == 0 {
      EndOrder(o, u, t, landed);
    } else if PreloadWait(s.g) {
      StillOrder(o, s, t);
    } else {
      TurnOrder(o, u, s.gate, due, false);
    }
  }

  /** The end of a stream ships nothing but its pad. */
  lemma EndOrder(o: Track, u: Sys, t: Sys, landed: bool)
    requires SysSane(u) && InOrder(o, u) && Backlog(u.g.ring) == 0 && t == FinishStream(u, landed)
    ensures var n := Passed(o.live, t.g.ring.shipped);
            InOrder(o.(gone := o.gone + AllShipped(o.live[..n]), live := o.live[n..], wire := o.wire + []), t)
  {
    hide Holds, EndStream, PadOnly, PadWritten, EventsOf, EventMarks, ShippedOf;
    NoBacklogNoEvents(u.g.ring, o.live);
    EndSlots(u.g, landed);
    HoldsNothingStill(u.g.ring, t.g.ring, o.live);
    assert o.gone + AllShipped(o.live[..0]) == o.gone && o.wire + [] == o.wire;
  }

  lemma HoldsNothingStill(r: Ring, q: Ring, none: seq<Event>)
    requires Sized(r) && Holds(r, none) && |none| == 0 && q.slots == r.slots
    ensures Sized(q) && Holds(q, none)
  {
  }

  lemma EndSlots(g: Gf, landed: bool)
    ensures EndStream(g, landed).ring.slots == g.ring.slots
  {
    hide U32;
  }

  lemma ShipOrder(o: Track, s: Sys, h: ShipStep)
    requires SysSane(s) && InOrder(o, s) && ShipEnabled(s, h)
    ensures InOrder(ObserveShip(o, s, h), ShipNext(s, h))
  {
    hide InOrder, ShipTurn, DoBegin, DoSnap, DoFinish, DoGateRead, DoEmpty, DoWriteFail, AllShipped, Marks, Passed;
    var t := ShipNext(s, h);
    if h.Begin? {
      BeginOrder(o, s, h.due, h.landed);
    } else if h.WriteOk? {
      var u := s.(g := ChunkTaken(s.g, s.pc.chunk), k := Take(s.k, s.pc.chunk));
      SameRing(o, s, u);
      if u.g.failed || u.g.clearPending {
        StillOrder(o, s, t);
      } else {
        TurnOrder(o, u, s.pc.gate, s.pc.due, s.pc.startRun || s.pc.first);
      }
    } else {
      QuietCursor(s, h);
      StillOrder(o, s, t);
    }
  }

  lemma QuietCursor(s: Sys, h: ShipStep)
    requires SysSane(s) && ShipEnabled(s, h) && !h.Begin? && !h.WriteOk?
    ensures ShipNext(s, h).g.ring == s.g.ring
  {
    hide DoSnap, DoBegin, DoWriteOk, FinishClear, CountsMatch;
    match h {
      case Snap(_) =>
      case NotYet =>
      case Empty(_, _) =>
      case Finish =>
      case WriteFail(_) =>
      case GateSkip =>
      case GateRead(_, _) =>
      case IssueRun =>
      case IssueAck(_) =>
      case IssueRefused =>
      case _ =>
    }
  }

  /** One step of anything keeps the order. */
  lemma StepOrder(o: Track, s: Sys, a: Step)
    requires SysSane(s) && InOrder(o, s) && Enabled(s, a)
    ensures InOrder(Observe(o, s, a), Next(s, a))
  {
    hide InOrder;
    match a
    case ByCore(c) => CoreOrder(o, s, c);
    case ByShipper(h) => ShipOrder(o, s, h);
    case ByKernel(e) => SameRing(o, s, KernelNext(s, e));
  }

  ghost function Watched(o: Track, s: Sys, steps: seq<Step>): Track
    requires SysSane(s) && IsRun(s, steps)
    decreases |steps|
  {
    if steps == [] then o else Watched(Observe(o, s, steps[0]), Next(s, steps[0]), steps[1..])
  }

  lemma {:induction false} RunInOrder(o: Track, s: Sys, steps: seq<Step>)
    requires SysSane(s) && IsRun(s, steps) && InOrder(o, s)
    ensures InOrder(Watched(o, s, steps), Final(s, steps))
    decreases |steps|
  {
    if steps != [] {
      StepOrder(o, s, steps[0]);
      RunInOrder(Observe(o, s, steps[0]), Next(s, steps[0]), steps[1..]);
    }
  }

  const START: Track := Track([], [], [], [])

  lemma StartsInOrder(s: Sys)
    requires Initial(s)
    ensures InOrder(START, s)
  {
    HoldsNothing(s.g.ring);
  }

  /** The ring refines the timed queue: over every run from the start, faults and
      resets included, each accepted event has shipped, was dropped by a reset, or
      is live, in the order accepted; the step bytes built are exactly the shipped
      events, each at the index it took, at or after its virtual tick; and every
      slot but a live event's is zero. */
  lemma StreamRefinesQueue(s: Sys, steps: seq<Step>)
    requires Initial(s) && IsRun(s, steps)
    ensures InOrder(Watched(START, s, steps), Final(s, steps))
  {
    hide InOrder;
    StartsInOrder(s);
    RunInOrder(START, s, steps);
  }

  ghost predicate NoneDropped(gone: seq<Fate>) { forall i :: 0 <= i < |gone| ==> gone[i].Shipped? }

  ghost predicate ResetFree(steps: seq<Step>) { forall i :: 0 <= i < |steps| ==> steps[i] != ByCore(DoReset) }

  lemma {:induction false} NothingDropped(o: Track, s: Sys, steps: seq<Step>)
    requires SysSane(s) && IsRun(s, steps) && ResetFree(steps) && NoneDropped(o.gone)
    ensures NoneDropped(Watched(o, s, steps).gone)
    decreases |steps|
  {
    if steps != [] {
      NothingDropped(Observe(o, s, steps[0]), Next(s, steps[0]), steps[1..]);
    }
  }

  lemma {:induction false} AllOfThem(gone: seq<Fate>)
    requires NoneDropped(gone)
    ensures ShippedOf(gone) == EventsOf(gone)
  {
    if gone != [] {
      assert forall i :: 0 <= i < |gone[1..]| ==> gone[1..][i] == gone[i + 1];
      AllOfThem(gone[1..]);
    }
  }

  /** Without a reset nothing is missing at all: the wire, then what is live, is
      everything accepted. */
  lemma NothingMissing(s: Sys, steps: seq<Step>)
    requires Initial(s) && IsRun(s, steps) && ResetFree(steps)
    ensures var o := Watched(START, s, steps);
            EventMarks(o.accepted) == o.wire + EventMarks(o.live)
  {
    hide EventMarks, EventsOf, ShippedOf, Watched, Holds;
    var o := Watched(START, s, steps);
    StreamRefinesQueue(s, steps);
    NothingDropped(START, s, steps);
    AllOfThem(o.gone);
    EventMarksConcat(EventsOf(o.gone), o.live);
  }
}
