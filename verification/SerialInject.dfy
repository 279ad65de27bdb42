/** The injected line in the core's line buffer: it is read whole and alone, unless an
    overrun has left the beginning of a lost line there. */
module SerialInject {
  import opened SerialLines
  import P = SerialProofs

  /** The core takes a byte: an end of line runs the buffer, a cancel empties it. */
  predicate Clears(b: byte) { IsEol(b) || b == CAN }

  function Took(line: seq<byte>, b: byte): seq<byte> { if Clears(b) then [] else line + [b] }

  /** The buffer once these bytes are read. */
  function Behind(line: seq<byte>, q: seq<byte>): seq<byte>
    decreases |q|
  {
    if q == [] then line else Behind(Took(line, q[0]), q[1..])
  }

  /** An injected line run: what the core ran, what was injected, and whether the buffer
      was torn when it was. */
  datatype Ran = Ran(line: seq<byte>, asked: seq<byte>, torn: bool)

  /** The history: the core's line buffer; whether the last byte it read since a flush ended
      no line, and whether it has read of a sender's line whose status is not out; whether an overrun has left the beginning of a
      lost line in it or on its way to it; the line last injected, the buffer it came
      upon, and whether that was torn; and every injected line run. */
  datatype Core = Core(line: seq<byte>, mid: bool, open: bool, torn: bool, asked: seq<byte>, upon: seq<byte>, tornThen: bool, runs: seq<Ran>)

  const FRESH: Core := Core([], false, false, false, [], [], false, [])

  function Observe(o: Core, s: Port, a: Step): Core
    requires Enabled(s, a)
  {
    match a
    case Byte(b) =>
      if s.rx.discarding then o
      else if Full(s.rx) then o.(torn := Behind(o.line, Unwrite(s.rx.q)) != [])
      else o.(torn := o.torn && !Clears(b))
    case Read => Taken(o, s.rx)
    case Line(line) =>
      if CanInject(s.rx, line) then o.(asked := line, upon := o.line, tornThen := o.torn, torn := false) else o
    case Status(_) => if s.rx.injDue then o else o.(open := false)
    case Hold(_) => o
    case Reset => Flushed(o)
    case CancelRead => Flushed(o)
  }

  /** The core reads the head of the queue. */
  function Taken(o: Core, r: Rx): (p: Core)
    requires r.q != []
    ensures p == o.(line := Took(o.line, r.q[0]), mid := p.mid, open := p.open, runs := p.runs)
  {
    var b := r.q[0];
    o.(line := Took(o.line, b), mid := b != LF && b != CR,
       open := o.open || (r.injLeft == 0 && b != LF && b != CR),
       runs := if r.injLeft == 1 then o.runs + [Ran(o.line, o.asked, o.tornThen)] else o.runs)
  }

  function Flushed(o: Core): Core { o.(line := [], mid := false, open := false, torn := false) }

  /** Injected lines hold no end of line and no cancel. */
  predicate Plain(a: Step) { a.Line? ==> forall i :: 0 <= i < |a.line| ==> !Clears(a.line[i]) }

  lemma {:induction false} BehindConcat(line: seq<byte>, a: seq<byte>, b: seq<byte>)
    ensures Behind(line, a + b) == Behind(Behind(line, a), b)
    decreases |a|
  {
    if a == [] {
      assert a + b == b;
    } else {
      assert (a + b)[1..] == a[1..] + b;
      BehindConcat(Took(line, a[0]), a[1..], b);
    }
  }

  lemma BehindOne(line: seq<byte>, b: byte)
    ensures Behind(line, [b]) == Took(line, b)
  {
    var one := [b];
    assert one[0] == b && one[1..] == [];
    assert Behind(line, one) == Behind(Took(line, b), one[1..]);
  }

  /** The injected bytes that have been read, in the buffer behind what they came upon, and
      the ones still to be read. */
  predicate Injecting(o: Core, r: Rx) {
    r.injLeft > 0 ==>
      && r.injLeft <= |o.asked| + 1 && r.injLeft <= |r.q|
      && o.line == o.upon + o.asked[..|o.asked| + 1 - r.injLeft]
      && r.q[..r.injLeft] == o.asked[|o.asked| + 1 - r.injLeft..] + [r.q[r.injLeft - 1]]
      && IsEol(r.q[r.injLeft - 1])
      && forall i :: 0 <= i < |o.asked| ==> !Clears(o.asked[i])
  }

  /** What will be in the buffer behind everything queued: the sender's line in progress,
      or the torn one. */
  predicate Kept(o: Core, r: Rx) {
    && IsEol(r.senderEol) && (Behind(o.line, r.q) != [] ==> r.senderMidline || o.torn)
    && (o.torn ==> Behind(o.line, r.q) != [])
  }

  /** The line run was the one injected, behind what was torn if something was. */
  predicate RanRight(r: Ran) {
    && |r.line| >= |r.asked| && r.line[|r.line| - |r.asked|..] == r.asked
    && (r.line != r.asked <==> r.torn)
  }

  ghost predicate AllRan(runs: seq<Ran>) { forall i :: 0 <= i < |runs| ==> RanRight(runs[i]) }

  /** Bytes still to be read are an injection's. */
  predicate Active(r: Rx) { (r.injDue ==> r.injActive) && (r.injLeft > 0 ==> r.injActive && !r.injDue) }

  ghost predicate Whole(o: Core, r: Rx) {
    && Kept(o, r) && Injecting(o, r) && AllRan(o.runs) && Active(r)
    && r.readMidline == o.mid && r.lineOpen == o.open
    && (r.injLeft > 0 ==> (o.upon != [] <==> o.tornThen))
  }

  // ---- every step ----

  lemma StoreWhole(o: Core, s: Port, b: byte)
    requires Whole(o, s.rx)
    ensures Whole(Observe(o, s, Byte(b)), Store(s.rx, b))
  {
    hide Behind, AllRan, Unwrite, Injecting, IsEol;
    if s.rx.discarding {
      SameWhole(o, s.rx, Store(s.rx, b));
    } else if Full(s.rx) {
      OverrunWhole(o, s, b);
    } else {
      StoredWhole(o, s, b);
    }
  }

  lemma OverrunWhole(o: Core, s: Port, b: byte)
    requires Whole(o, s.rx) && !s.rx.discarding && Full(s.rx)
    ensures Whole(Observe(o, s, Byte(b)), Store(s.rx, b))
  {
    OverrunInjecting(o, s.rx);
    hide Behind, AllRan, Unwrite, Injecting;
    var q, p := Unwrite(s.rx.q), Observe(o, s, Byte(b));
    SameInjecting(o, s.rx, p, Store(s.rx, b));
  }

  lemma StoredWhole(o: Core, s: Port, b: byte)
    requires Whole(o, s.rx) && !s.rx.discarding && !Full(s.rx)
    ensures Whole(Observe(o, s, Byte(b)), Store(s.rx, b))
  {
    BehindConcat(o.line, s.rx.q, [b]);
    BehindOne(Behind(o.line, s.rx.q), b);
    StoredInjecting(o, s.rx, b);
    hide Behind, AllRan, Injecting;
    SameInjecting(o, s.rx, Observe(o, s, Byte(b)), Store(s.rx, b));
  }

  /** The injected bytes at the front of the queue are what they were. */
  lemma SameInjecting(o: Core, r: Rx, p: Core, t: Rx)
    requires Injecting(o, r) && t.injLeft == r.injLeft
    requires p.line == o.line && p.upon == o.upon && p.asked == o.asked
    requires r.injLeft > 0 ==> r.injLeft <= |t.q| && t.q[..r.injLeft] == r.q[..r.injLeft]
    ensures Injecting(p, t)
  {
    if r.injLeft > 0 {
      assert t.q[r.injLeft - 1] == t.q[..r.injLeft][r.injLeft - 1];
      assert r.q[r.injLeft - 1] == r.q[..r.injLeft][r.injLeft - 1];
    }
  }

  /** An overrun never reaches into an injected line. */
  lemma OverrunInjecting(o: Core, r: Rx)
    requires Injecting(o, r)
    ensures var q := Unwrite(r.q); r.injLeft > 0 ==> r.injLeft <= |q| && q[..r.injLeft] == r.q[..r.injLeft]
  {
    P.UnwriteStops(r.q);
  }

  lemma StoredInjecting(o: Core, r: Rx, b: byte)
    requires Injecting(o, r)
    ensures r.injLeft > 0 ==> r.injLeft <= |r.q| && (r.q + [b])[..r.injLeft] == r.q[..r.injLeft]
  {
  }

  lemma ReadWhole(o: Core, s: Port)
    requires Enabled(s, Read) && Whole(o, s.rx)
    ensures Whole(Observe(o, s, Read), Get(s.rx, s.err))
  {
    ReadKept(o, s);
    ReadInjecting(o, s);
    RanMore(o, s);
    hide Kept, Injecting, AllRan;
  }

  lemma ReadKept(o: Core, s: Port)
    requires Enabled(s, Read) && Kept(o, s.rx)
    ensures Kept(Observe(o, s, Read), Get(s.rx, s.err))
  {
    hide Behind, Kept;
    assert s.rx.q != [];
    BehindHead(o.line, s.rx.q);
    ReadTakes(o, s);
    hide Observe, Get, Took, Enabled;
    SameKept(o, s.rx, Observe(o, s, Read), Get(s.rx, s.err));
  }

  lemma ReadTakes(o: Core, s: Port)
    requires Enabled(s, Read)
    ensures var p, t, r := Observe(o, s, Read), Get(s.rx, s.err), s.rx;
            && r.q != [] && p.line == Took(o.line, r.q[0]) && t.q == r.q[1..] && p.torn == o.torn
            && t.senderEol == r.senderEol && t.senderMidline == r.senderMidline
  {
    hide Took, Taken, IsEol;
    hide Get, Held;
  }

  lemma SameKept(o: Core, r: Rx, p: Core, t: Rx)
    requires Kept(o, r) && Behind(p.line, t.q) == Behind(o.line, r.q) && p.torn == o.torn
    requires t.senderEol == r.senderEol && t.senderMidline == r.senderMidline
    ensures Kept(p, t)
  {
    hide Behind;
  }

  lemma BehindHead(line: seq<byte>, q: seq<byte>)
    requires q != []
    ensures Behind(line, q) == Behind(Took(line, q[0]), q[1..])
  {
  }

  lemma ReadInjecting(o: Core, s: Port)
    requires Enabled(s, Read) && Injecting(o, s.rx)
    ensures Injecting(Observe(o, s, Read), Get(s.rx, s.err))
  {
    if s.rx.injLeft > 0 { InjectedRead(o, s); }
  }

  lemma InjectedRead(o: Core, s: Port)
    requires Enabled(s, Read) && Injecting(o, s.rx) && s.rx.injLeft > 0
    ensures Injecting(Observe(o, s, Read), Get(s.rx, s.err))
    ensures s.rx.injLeft == 1 ==> o.line == o.upon + o.asked
  {
    var r := s.rx;
    var n, k := |o.asked|, |o.asked| + 1 - r.injLeft;
    if r.injLeft > 1 {
      assert r.q[0] == r.q[..r.injLeft][0] == o.asked[k];
      assert o.asked[..k] + [o.asked[k]] == o.asked[..k + 1];
      assert r.q[1..][..r.injLeft - 1] == r.q[..r.injLeft][1..];
      assert o.asked[k..][1..] == o.asked[k + 1..];
    } else {
      assert o.asked[..n] == o.asked;
    }
  }

  lemma RanMore(o: Core, s: Port)
    requires Enabled(s, Read) && Whole(o, s.rx)
    ensures AllRan(Observe(o, s, Read).runs)
  {
    hide Behind, Injecting, Kept;
    if s.rx.injLeft == 1 {
      InjectedRead(o, s);
      assert o.line[|o.line| - |o.asked|..] == o.asked;
      assert o.line == o.asked <==> o.upon == [];
    }
  }

  lemma LineWhole(o: Core, s: Port, line: seq<byte>)
    requires Whole(o, s.rx) && Plain(Line(line))
    ensures Whole(Observe(o, s, Line(line)), Inject(s.rx, line))
  {
    if CanInject(s.rx, line) {
      var p, t := Observe(o, s, Line(line)), Inject(s.rx, line);
      BehindConcat(p.line, line, [t.senderEol]);
      BehindOne(Behind(p.line, line), t.senderEol);
      assert Behind(o.line, s.rx.q) == o.line;
      hide Behind, AllRan;
      assert p.upon + p.asked[..0] == p.line;
      assert t.q[..t.injLeft] == p.asked[0..] + [t.senderEol] && t.q[t.injLeft - 1] == t.senderEol;
    }
  }

  lemma DropWhole(o: Core, s: Port)
    requires Whole(o, s.rx)
    ensures Whole(Flushed(o), Flush(s.rx)) && Whole(Flushed(o), Cancel(s.rx))
  {
    BehindOne([], CAN);
    assert Behind([], Flush(s.rx).q) == [];
    hide Behind, AllRan;
  }

  lemma StepWhole(o: Core, s: Port, a: Step)
    requires Enabled(s, a) && Whole(o, s.rx) && Plain(a)
    ensures Whole(Observe(o, s, a), Next(s, a).rx)
  {
    hide Whole;
    match a {
      case Byte(b) => StoreWhole(o, s, b);
      case Read => ReadWhole(o, s);
      case Line(line) => LineWhole(o, s, line);
      case Status(_) => StatusWhole(o, s, a.err);
      case Hold(_) => SameWhole(o, s.rx, Next(s, a).rx);
      case Reset => DropWhole(o, s);
      case CancelRead => DropWhole(o, s);
    }
  }

  lemma SameWhole(o: Core, r: Rx, t: Rx)
    requires Whole(o, r)
    requires t.q == r.q && t.injLeft == r.injLeft && t.senderEol == r.senderEol && t.senderMidline == r.senderMidline
    requires (t.injActive == r.injActive && t.injDue == r.injDue) || (r.injDue && !t.injActive && !t.injDue)
    requires t.readMidline == r.readMidline && t.lineOpen == r.lineOpen
    ensures Whole(o, t)
  {
    hide Behind, AllRan;
  }

  lemma StatusWhole(o: Core, s: Port, err: int)
    requires Whole(o, s.rx) && s.run.Owed?
    ensures Whole(Observe(o, s, Status(err)), AfterStatus(s, err).rx)
  {
    hide Whole;
    if s.rx.injDue { SameWhole(o, s.rx, AfterStatus(s, err).rx); } else { Closes(o, s.rx); }
  }

  lemma Closes(o: Core, r: Rx)
    requires Whole(o, r)
    ensures Whole(o.(open := false), r.(lineOpen := false))
  {
    hide Behind, AllRan;
  }

  // ---- whole runs ----

  ghost predicate AllPlain(steps: seq<Step>) { forall i :: 0 <= i < |steps| ==> Plain(steps[i]) }

  ghost function Watched(o: Core, s: Port, steps: seq<Step>): Core
    requires IsRun(s, steps)
    decreases |steps|
  {
    if steps == [] then o else Watched(Observe(o, s, steps[0]), Next(s, steps[0]), steps[1..])
  }

  lemma {:induction false} RunWhole(o: Core, s: Port, steps: seq<Step>)
    requires IsRun(s, steps) && AllPlain(steps) && Whole(o, s.rx)
    ensures Whole(Watched(o, s, steps), Final(s, steps).rx)
    decreases |steps|
  {
    hide Whole, Next, Enabled, Observe, Plain;
    if steps != [] {
      StepWhole(o, s, steps[0]);
      RunWhole(Observe(o, s, steps[0]), Next(s, steps[0]), steps[1..]);
    }
  }

  /** The injected line read whole, over every run, flushes and cancels included: every
      injected line the core ran was exactly the one injected, if and only if the buffer
      was not torn when it was accepted; and wherever a line can be injected, the core's
      buffer is empty if and only if it is not torn. The two flags beside the ring tell
      whether the core stands inside a line, and inside a sender's line whose status is
      not out. */
  lemma InjectedLinesRunWhole(s: Port, steps: seq<Step>, line: seq<byte>)
    requires Initial(s) && IsRun(s, steps) && AllPlain(steps)
    ensures var o, t := Watched(FRESH, s, steps), Final(s, steps);
            && (forall i :: 0 <= i < |o.runs| ==> RanRight(o.runs[i]))
            && (CanInject(t.rx, line) ==> (o.line == [] <==> !o.torn))
            && t.rx.readMidline == o.mid && t.rx.lineOpen == o.open
  {
    assert Behind(FRESH.line, s.rx.q) == [];
    RunWhole(FRESH, s, steps);
    hide IsRun, Final, Watched;
    var o, t := Watched(FRESH, s, steps), Final(s, steps);
    assert t.rx.q == [] ==> Behind(o.line, t.rx.q) == o.line;
  }

  // ---- the run that tears ----

  ghost predicate Leads(o: Core, s: Port, p: Core, t: Port) {
    exists steps :: IsRun(s, steps) && AllPlain(steps) && Final(s, steps) == t && Watched(o, s, steps) == p
  }

  lemma {:induction false} OneMore(o: Core, s: Port, steps: seq<Step>, a: Step)
    requires IsRun(s, steps) && AllPlain(steps) && Enabled(Final(s, steps), a) && Plain(a)
    ensures IsRun(s, steps + [a]) && AllPlain(steps + [a])
    ensures Final(s, steps + [a]) == Next(Final(s, steps), a)
    ensures Watched(o, s, steps + [a]) == Observe(Watched(o, s, steps), Final(s, steps), a)
    decreases |steps|
  {
    hide Next, Enabled, Observe, Plain;
    var all := steps + [a];
    if steps == [] {
      assert all[0] == a && all[1..] == [];
      NoMore(Observe(o, s, a), Next(s, a), all[1..]);
    } else {
      assert all[0] == steps[0] && all[1..] == steps[1..] + [a];
      OneMore(Observe(o, s, steps[0]), Next(s, steps[0]), steps[1..], a);
    }
  }

  lemma NoMore(o: Core, s: Port, none: seq<Step>)
    requires |none| == 0
    ensures IsRun(s, none) && Final(s, none) == s && Watched(o, s, none) == o
  {
  }

  lemma Here(o: Core, s: Port)
    ensures Leads(o, s, o, s)
  {
    var none: seq<Step> := [];
    NoMore(o, s, none);
    hide IsRun, Final, Watched;
    assert IsRun(s, none);
  }

  lemma Then(o0: Core, s0: Port, o: Core, s: Port, a: Step, p: Core, t: Port)
    requires Leads(o0, s0, o, s) && Enabled(s, a) && Plain(a) && Next(s, a) == t && Observe(o, s, a) == p
    ensures Leads(o0, s0, p, t)
  {
    var steps :| IsRun(s0, steps) && AllPlain(steps) && Final(s0, steps) == s && Watched(o0, s0, steps) == o;
    hide IsRun, Final, Watched, Next, Enabled, Observe, Plain, AllPlain;
    OneMore(o0, s0, steps, a);
  }

  /** An injected line is accepted into a torn buffer. */
  ghost predicate TornRun(s: Port, steps: seq<Step>, line: seq<byte>) {
    && IsRun(s, steps) && AllPlain(steps) && CanInject(Final(s, steps).rx, line)
    && Watched(FRESH, s, steps).line != []
  }

  lemma Stores(o: Core, s: Port, b: byte)
    requires !s.rx.discarding && !Full(s.rx) && P.LineByte(b) && !o.torn
    ensures Enabled(s, Byte(b)) && Next(s, Byte(b)) == P.Queued(s, [b]) && Observe(o, s, Byte(b)) == o
  {
    P.Stores(P.SILENT, s, b);
  }

  lemma {:induction false} StoreAll(o0: Core, s0: Port, o: Core, s: Port, bytes: seq<byte>)
    requires Leads(o0, s0, o, s) && !s.rx.discarding && !o.torn && |s.rx.q| + |bytes| < s.rx.size
    requires forall i :: 0 <= i < |bytes| ==> P.LineByte(bytes[i])
    ensures Leads(o0, s0, o, P.Queued(s, bytes))
    decreases |bytes|
  {
    hide Leads, Next, Enabled, Observe;
    if bytes == [] {
      assert s.rx.q + bytes == s.rx.q;
    } else {
      var b, rest := bytes[0], bytes[1..];
      var t := P.Queued(s, [b]);
      Stores(o, s, b);
      Then(o0, s0, o, s, Byte(b), o, t);
      StoreAll(o0, s0, o, t, rest);
      assert t.rx.q + rest == s.rx.q + bytes;
    }
  }

  lemma {:induction false} DropAll(o0: Core, s0: Port, o: Core, s: Port, bytes: seq<byte>)
    requires Leads(o0, s0, o, s) && s.rx.discarding
    requires forall i :: 0 <= i < |bytes| ==> P.LineByte(bytes[i])
    ensures Leads(o0, s0, o, s)
    decreases |bytes|
  {
    hide Leads;
    if bytes != [] {
      assert Next(s, Byte(bytes[0])) == s && Observe(o, s, Byte(bytes[0])) == o;
      hide Next, Enabled, Observe;
      Then(o0, s0, o, s, Byte(bytes[0]), o, s);
      DropAll(o0, s0, o, s, bytes[1..]);
    }
  }

  lemma ReadsFirst(o: Core, s: Port, b: byte)
    requires P.Readable(s) && s.rx.q == [b] && P.LineByte(b) && b != CAN && o == FRESH
    ensures Enabled(s, Read) && Next(s, Read) == P.Consumed(s, 1) && Observe(o, s, Read) == o.(line := [b], mid := true, open := true)
  {
    P.Reads(P.SILENT, s);
  }

  lemma Tears(o: Core, s: Port, b: byte)
    requires Full(s.rx) && !s.rx.discarding && P.LineByte(b) && o.line != []
    requires forall i :: 0 <= i < |s.rx.q| ==> P.LineByte(s.rx.q[i])
    ensures Enabled(s, Byte(b)) && Next(s, Byte(b)) == P.Emptied(s) && Observe(o, s, Byte(b)) == o.(torn := true)
  {
    P.Overruns(P.SILENT, s, b);
    assert Behind(o.line, Unwrite(s.rx.q)) == o.line;
  }

  lemma Discards(o: Core, s: Port)
    requires s.rx.discarding
    ensures Enabled(s, Byte(LF)) && Next(s, Byte(LF)) == s.(rx := s.rx.(discarding := false)) && Observe(o, s, Byte(LF)) == o
  {
  }

  /** Any line longer than the ring, read in part before it overruns, and any injected line
      behind it that fits: the injected line is accepted, and goes behind the fragment. */
  lemma InjectedBehindAFragment(s: Port, line: seq<byte>, injected: seq<byte>)
    requires Initial(s) && s.rx.size >= 3 && !s.rx.hold && P.LineBytes(line) && line != [] && line[0] != CAN
    requires |line| > s.rx.size && injected != [] && |injected| + 1 < s.rx.size
    ensures exists steps :: TornRun(s, steps, injected)
  {
    hide Leads, Next, Enabled, Observe, Unwrite;
    var n := s.rx.size;
    var one, more, rest := [line[0]], line[1..n], line[n + 1..];
    var s1 := P.Queued(s, one);
    var s2 := P.Consumed(s1, 1);
    var s3 := P.Queued(s2, more);
    var s4 := P.Emptied(s3);
    var s5 := s4.(rx := s4.rx.(discarding := false));
    var o2 := FRESH.(line := one, mid := true, open := true);
    var o4 := o2.(torn := true);
    Here(FRESH, s);
    StoreAll(FRESH, s, FRESH, s, one);
    assert s.rx.q + one == one;
    ReadsFirst(FRESH, s1, line[0]);
    Then(FRESH, s, FRESH, s1, Read, o2, s2);
    StoreAll(FRESH, s, o2, s2, more);
    Tears(o2, s3, line[n]);
    Then(FRESH, s, o2, s3, Byte(line[n]), o4, s4);
    DropAll(FRESH, s, o4, s4, rest);
    Discards(o4, s4);
    Then(FRESH, s, o4, s4, Byte(LF), o4, s5);
    TornBy(s, o4, s5, injected);
  }

  lemma TornBy(s: Port, o: Core, t: Port, line: seq<byte>)
    requires Leads(FRESH, s, o, t) && o.line != [] && CanInject(t.rx, line)
    ensures exists steps :: TornRun(s, steps, line)
  {
    var steps :| IsRun(s, steps) && AllPlain(steps) && Final(s, steps) == t && Watched(FRESH, s, steps) == o;
    hide IsRun, Final, Watched, AllPlain;
    assert TornRun(s, steps, line);
  }
}
