/** What the multiplexer promises: injected lines never interfere with the sender,
    and no sender line is ever read in part. */
module SerialProofs {
  import opened SerialLines

  // ---- injection non-interference ----

  /** The history: for every queued byte whether an injection put it there; whether
      the line the core has read was injected; for every line run its source and
      where its status went; the injections accepted and answered; and the error
      the sender's own last line left. */
  datatype Log = Log(tags: seq<bool>, running: bool, ran: seq<bool>, routed: seq<bool>,
                     accepted: nat, answered: nat, err: int)

  function Observe(o: Log, s: Port, a: Step): Log
    requires Enabled(s, a) && |o.tags| == |s.rx.q|
  {
    var t := Next(s, a);
    match a
    case Byte(_) =>
      o.(tags := if |t.rx.q| > |s.rx.q| then o.tags + [false] else if |t.rx.q| <= |o.tags| then o.tags[..|t.rx.q|] else [])
    case Read => o.(tags := o.tags[1..], running := o.tags[0])
    case Line(line) =>
      if |t.rx.q| > |s.rx.q| then o.(tags := seq(|t.rx.q|, _ => true), accepted := o.accepted + 1) else o
    case Status(err) =>
      o.(ran := o.ran + [o.running], routed := o.routed + [s.rx.injDue],
         answered := if s.rx.injDue then o.answered + 1 else o.answered,
         err := if o.running then o.err else err)
    case Hold(_) => o
    case Reset => o.(tags := [], answered := if s.rx.injActive then o.answered + 1 else o.answered)
    case CancelRead => o.(tags := [false], answered := if s.rx.injActive then o.answered + 1 else o.answered)
  }

  /** Every queued byte's source is what injLeft says: the injected bytes are the
      first ones, and an injected line in the queue ends the way the sender ends
      lines. */
  ghost predicate Sorted(o: Log, s: Port) {
    && |o.tags| == |s.rx.q| && s.rx.injLeft <= |s.rx.q| && IsEol(s.rx.senderEol)
    && (forall i :: 0 <= i < |o.tags| ==> (o.tags[i] <==> i < s.rx.injLeft))
    && (s.rx.injLeft > 0 ==> IsEol(s.rx.q[s.rx.injLeft - 1]) && forall i :: 0 <= i < s.rx.injLeft - 1 ==> LineByte(s.rx.q[i]))
  }

  /** A byte that does not end a line. */
  predicate LineByte(b: byte) { !IsEol(b) }

  ghost predicate Separate(o: Log, s: Port) {
    && Sorted(o, s)
    && (s.rx.injLeft > 0 ==> s.rx.injActive && !s.rx.injDue)
    && (s.rx.injDue ==> s.rx.injActive && s.rx.injLeft == 0)
    && (s.rx.injActive ==> s.rx.injLeft > 0 || s.rx.injDue)
    && (s.rx.injDue ==> s.run == Owed(false))
    && (s.run.Owed? ==> (o.running <==> s.rx.injDue))
    && o.ran == o.routed
    && o.accepted == o.answered + (if s.rx.injActive then 1 else 0)
    && s.err == o.err
    && (s.rx.injActive && !s.rx.injFirst ==> s.rx.injSaved == o.err)
    && (s.rx.injActive && !s.rx.injFirst && s.rx.injLeft > 0 ==> s.run.Resting? && s.rx.readMidline)
    && (s.rx.injActive && s.rx.injFirst ==> s.rx.injLeft > 1)
  }

  /** Injected lines hold no end of line of their own. */
  predicate OneLine(a: Step) { a.Line? ==> forall i :: 0 <= i < |a.line| ==> LineByte(a.line[i]) }

  lemma StepSeparate(o: Log, s: Port, a: Step)
    requires Enabled(s, a) && OneLine(a) && Separate(o, s)
    ensures Separate(Observe(o, s, a), Next(s, a))
  {
    match a {
      case Byte(b) => ByteSeparate(o, s, b);
      case Read => ReadSeparate(o, s);
      case Line(line) =>
      case Status(_) =>
      case Hold(_) =>
      case Reset =>
      case CancelRead =>
    }
  }

  lemma ReadSeparate(o: Log, s: Port)
    requires Enabled(s, Read) && Separate(o, s)
    ensures Separate(Observe(o, s, Read), Next(s, Read))
  {
  }

  /** Unwriting stops behind the last end of line. */
  lemma {:induction false} UnwriteStops(q: seq<byte>)
    ensures var r := Unwrite(q);
            && r == q[..|r|] && (r == [] || IsEol(r[|r| - 1]))
            && forall i :: |r| <= i < |q| ==> !IsEol(q[i])
  {
    if q != [] && !IsEol(q[|q| - 1]) {
      UnwriteStops(q[..|q| - 1]);
    }
  }

  /** An overrun never reaches into an injected line: it ends in an end of line. */
  lemma ByteSeparate(o: Log, s: Port, b: byte)
    requires Separate(o, s)
    ensures Separate(Observe(o, s, Byte(b)), Next(s, Byte(b)))
  {
    var t := Store(s.rx, b);
    if !s.rx.discarding && Full(s.rx) {
      UnwriteStops(s.rx.q);
      assert s.rx.injLeft > 0 ==> |t.q| >= s.rx.injLeft;
    }
  }

  ghost predicate OneLines(steps: seq<Step>) { forall i :: 0 <= i < |steps| ==> OneLine(steps[i]) }

  ghost function Logged(o: Log, s: Port, steps: seq<Step>): Log
    requires IsRun(s, steps) && Separate(o, s) && OneLines(steps)
    decreases |steps|
  {
    if steps == [] then o
    else
      StepSeparate(o, s, steps[0]);
      Logged(Observe(o, s, steps[0]), Next(s, steps[0]), steps[1..])
  }

  lemma {:induction false} RunSeparate(o: Log, s: Port, steps: seq<Step>)
    requires IsRun(s, steps) && Separate(o, s) && OneLines(steps)
    ensures Separate(Logged(o, s, steps), Final(s, steps))
    decreases |steps|
  {
    hide Separate, Observe, Next, Enabled;
    if steps != [] {
      SeparateLength(o, s);
      StepSeparate(o, s, steps[0]);
      RunSeparate(Observe(o, s, steps[0]), Next(s, steps[0]), steps[1..]);
    }
  }

  lemma SeparateLength(o: Log, s: Port)
    requires Separate(o, s)
    ensures |o.tags| == |s.rx.q|
  {
  }

  function Opening(s: Port): Log { Log([], false, [], [], 0, 0, s.err) }

  ghost function History(s: Port, steps: seq<Step>): Log
    requires Initial(s) && IsRun(s, steps) && OneLines(steps)
  {
    Logged(Opening(s), s, steps)
  }

  /** Over every interleaving of sender bytes, injections, reads, statuses, holds,
      flushes and cancels: the unread injected bytes are exactly the first injLeft
      of the queue; every status went to the source of its line; every accepted
      injection is answered once or outstanding; and the error the sender's next
      line meets is the one its own last line left. */
  lemma InjectionNonInterference(s: Port, steps: seq<Step>)
    requires Initial(s) && IsRun(s, steps) && OneLines(steps)
    ensures var o, t := History(s, steps), Final(s, steps);
            && |o.tags| == |t.rx.q|
            && (forall i :: 0 <= i < |o.tags| ==> (o.tags[i] <==> i < t.rx.injLeft))
            && o.routed == o.ran
            && o.accepted == o.answered + (if t.rx.injActive then 1 else 0)
            && t.err == o.err
  {
    RunSeparate(Opening(s), s, steps);
    hide Logged, IsRun, Final;
  }

  // ---- line integrity under overrun ----

  function Flat(lines: seq<seq<byte>>): seq<byte> {
    if lines == [] then [] else lines[0] + Flat(lines[1..])
  }

  /** The lines whose flag is set. */
  function Select(lines: seq<seq<byte>>, keep: seq<bool>): seq<seq<byte>>
    requires |lines| == |keep|
  {
    if lines == [] then [] else (if keep[0] then [lines[0]] else []) + Select(lines[1..], keep[1..])
  }

  /** A whole line: nothing but its last byte ends a line. */
  ghost predicate Whole(line: seq<byte>) {
    line != [] && IsEol(line[|line| - 1]) && forall i :: 0 <= i < |line| - 1 ==> LineByte(line[i])
  }

  lemma {:induction false} FlatAppend(lines: seq<seq<byte>>, line: seq<byte>)
    ensures Flat(lines + [line]) == Flat(lines) + line
  {
    if lines == [] {
      var one := lines + [line];
      assert one[0] == line && one[1..] == [];
      assert Flat(one) == line + Flat(one[1..]);
    } else {
      assert (lines + [line])[1..] == lines[1..] + [line];
      FlatAppend(lines[1..], line);
      assert lines[0] + (Flat(lines[1..]) + line) == (lines[0] + Flat(lines[1..])) + line;
    }
  }

  lemma {:induction false} SelectAppend(lines: seq<seq<byte>>, keep: seq<bool>, line: seq<byte>, k: bool)
    requires |lines| == |keep|
    ensures Select(lines + [line], keep + [k]) == Select(lines, keep) + (if k then [line] else [])
  {
    var all, flags := lines + [line], keep + [k];
    if lines == [] {
      assert all[0] == line && all[1..] == [] && flags[0] == k && flags[1..] == [];
      assert Select(all, flags) == (if k then [line] else []) + Select(all[1..], flags[1..]);
    } else {
      assert all[1..] == lines[1..] + [line] && flags[1..] == keep[1..] + [k];
      SelectAppend(lines[1..], keep[1..], line, k);
    }
  }

  lemma {:induction false} SelectWhole(lines: seq<seq<byte>>, keep: seq<bool>)
    requires |lines| == |keep| && forall i :: 0 <= i < |lines| ==> Whole(lines[i])
    ensures forall i :: 0 <= i < |Select(lines, keep)| ==> Whole(Select(lines, keep)[i])
  {
    if lines != [] { SelectWhole(lines[1..], keep[1..]); }
  }

  lemma {:induction false} FlatEnds(lines: seq<seq<byte>>)
    requires forall i :: 0 <= i < |lines| ==> Whole(lines[i])
    ensures Flat(lines) == [] || IsEol(Flat(lines)[|Flat(lines)| - 1])
  {
    if lines != [] {
      FlatEnds(lines[1..]);
      assert Whole(lines[0]);
    }
  }

  /** The sender's side: its whole lines so far and which of them did not overrun,
      the line it is in and whether that one has overrun; and its bytes that the
      core has read. */
  datatype Wire = Wire(lines: seq<seq<byte>>, kept: seq<bool>, tail: seq<byte>, lost: bool, read: seq<byte>)

  function Track(w: Wire, s: Port, a: Step): Wire
    requires Enabled(s, a)
  {
    match a
    case Byte(b) =>
      var lost := w.lost || (!s.rx.discarding && |s.rx.q| + 1 >= s.rx.size);
      if IsEol(b) then Wire(w.lines + [w.tail + [b]], w.kept + [!lost], [], false, w.read)
      else w.(tail := w.tail + [b], lost := lost)
    case Read => if s.rx.injLeft == 0 then w.(read := w.read + [s.rx.q[0]]) else w
    case _ => w
  }

  /** What the ring owes the core of the sender's bytes: the lines that did not
      overrun, and the one in progress unless it has. */
  function Due(w: Wire): seq<byte>
    requires |w.lines| == |w.kept|
  {
    Flat(Select(w.lines, w.kept)) + (if w.lost then [] else w.tail)
  }

  /** The sender's bytes, split into lines. */
  ghost predicate Parsed(w: Wire) {
    && |w.lines| == |w.kept| && (forall i :: 0 <= i < |w.lines| ==> Whole(w.lines[i]))
    && (forall i :: 0 <= i < |w.tail| ==> LineByte(w.tail[i]))
  }

  /** The ring holds what it owes. */
  ghost predicate Matches(w: Wire, r: Rx)
    requires |w.lines| == |w.kept|
  {
    && r.injLeft <= |r.q| && IsEol(r.senderEol)
    && (r.injLeft > 0 ==> IsEol(r.q[r.injLeft - 1]))
    && r.discarding == w.lost
    && r.senderMidline == (!w.lost && w.tail != [])
    && w.read + r.q[r.injLeft..] == Due(w)
    && (r.injLeft > 0 && !w.lost ==> |w.tail| <= |r.q| - r.injLeft)
  }

  ghost predicate Unbroken(w: Wire, s: Port) { Parsed(w) && Matches(w, s.rx) }

  /** The sender's lines fit the ring, and nothing flushes it. */
  predicate Fits(w: Wire, s: Port, a: Step) {
    match a
    case Byte(b) => |w.tail| + 2 <= s.rx.size - (if IsEol(b) then 0 else 1)
    case Reset => false
    case CancelRead => false
    case _ => true
  }

  /** A queue that ends in a partial line is unwritten exactly to its start. */
  lemma {:induction false} UnwriteTail(q: seq<byte>, n: nat)
    requires n <= |q| && (n == 0 || IsEol(q[n - 1])) && forall i :: n <= i < |q| ==> LineByte(q[i])
    ensures Unwrite(q) == q[..n]
  {
    if n < |q| {
      assert LineByte(q[|q| - 1]);
      var p := q[..|q| - 1];
      UnwriteTail(p, n);
      assert p[..n] == q[..n];
    } else {
      assert q[..n] == q;
    }
  }

  /** Two splits of one sequence, the second cut inside the first's last part. */
  lemma SplitAgain(a: seq<byte>, part: seq<byte>, flat: seq<byte>, tail: seq<byte>)
    requires a + part == flat + tail && |tail| <= |part|
    ensures var k := |part| - |tail|; part[k..] == tail && a + part[..k] == flat
  {
    var k, all := |part| - |tail|, a + part;
    assert all[|flat|..] == tail && all[..|flat|] == flat;
    assert part == part[..k] + part[k..];
    assert all == (a + part[..k]) + part[k..];
  }

  /** A partial line that sits whole in the queue sits at its end, behind an end of
      line or nothing. */
  lemma TailSplit(q: seq<byte>, left: nat, tail: seq<byte>, read: seq<byte>, flat: seq<byte>)
    requires left <= |q| && |tail| <= |q| - left && read + q[left..] == flat + tail
    requires (left > 0 ==> IsEol(q[left - 1])) && (flat == [] || IsEol(flat[|flat| - 1]))
    ensures var n := |q| - |tail|;
            q[n..] == tail && (n == 0 || IsEol(q[n - 1])) && read + q[left..n] == flat
  {
    var n, part := |q| - |tail|, q[left..];
    SplitAgain(read, part, flat, tail);
    assert part[..n - left] == q[left..n] && part[n - left..] == q[n..];
    if n > left {
      var head := q[left..n];
      assert q[n - 1] == head[|head| - 1] == (read + head)[|read| + |head| - 1];
    }
  }

  lemma DueStored(w: Wire, b: byte)
    requires |w.lines| == |w.kept| && !w.lost
    ensures Due(if IsEol(b) then Wire(w.lines + [w.tail + [b]], w.kept + [true], [], false, w.read)
                else w.(tail := w.tail + [b])) == Due(w) + [b]
  {
    var flat := Flat(Select(w.lines, w.kept));
    if IsEol(b) {
      SelectAppend(w.lines, w.kept, w.tail + [b], true);
      FlatAppend(Select(w.lines, w.kept), w.tail + [b]);
    }
    assert flat + (w.tail + [b]) == (flat + w.tail) + [b];
  }

  lemma DueLost(w: Wire, b: byte)
    requires |w.lines| == |w.kept|
    ensures Due(if IsEol(b) then Wire(w.lines + [w.tail + [b]], w.kept + [false], [], false, w.read)
                else w.(tail := w.tail + [b], lost := true)) == Flat(Select(w.lines, w.kept))
  {
    var sel := Select(w.lines, w.kept);
    assert sel + [] == sel && Flat(sel) + [] == Flat(sel);
    if IsEol(b) { SelectAppend(w.lines, w.kept, w.tail + [b], false); }
  }

  lemma ByteParsed(w: Wire, s: Port, b: byte)
    requires Parsed(w)
    ensures Parsed(Track(w, s, Byte(b)))
  {
    if IsEol(b) { assert Whole(w.tail + [b]); }
  }

  lemma LostUnbroken(w: Wire, s: Port, b: byte)
    requires Unbroken(w, s) && s.rx.discarding
    ensures Unbroken(Track(w, s, Byte(b)), Next(s, Byte(b)))
  {
    ByteParsed(w, s, b);
    DueLost(w, b);
    var flat := Flat(Select(w.lines, w.kept));
    assert Due(w) == flat + [] == flat;
    hide Select, Flat, Unwrite, Due, Parsed;
  }

  lemma StoredUnbroken(w: Wire, s: Port, b: byte)
    requires Unbroken(w, s) && !s.rx.discarding && !Full(s.rx)
    ensures Unbroken(Track(w, s, Byte(b)), Next(s, Byte(b)))
  {
    ByteParsed(w, s, b);
    hide Select, Flat, Unwrite, Due, Whole;
    var q, left := s.rx.q, s.rx.injLeft;
    DueStored(w, b);
    assert Next(s, Byte(b)).rx.q[left..] == q[left..] + [b];
    assert w.read + (q[left..] + [b]) == (w.read + q[left..]) + [b];
  }

  /** The overrun of a line that is whole in the ring: all of it goes. */
  lemma OverrunUnbroken(w: Wire, s: Port, b: byte)
    requires Unbroken(w, s) && !s.rx.discarding && Full(s.rx) && |w.tail| <= |s.rx.q| - s.rx.injLeft
    ensures Unbroken(Track(w, s, Byte(b)), Next(s, Byte(b)))
  {
    ByteParsed(w, s, b);
    OverrunMatches(w, s, b);
  }

  lemma OverrunMatches(w: Wire, s: Port, b: byte)
    requires Unbroken(w, s) && !s.rx.discarding && Full(s.rx) && |w.tail| <= |s.rx.q| - s.rx.injLeft
    requires Parsed(Track(w, s, Byte(b)))
    ensures Matches(Track(w, s, Byte(b)), Next(s, Byte(b)).rx)
  {
    OverrunLeaves(w, s);
    DueLost(w, b);
    hide Select, Flat, Due, Unwrite, Whole, LineByte;
    LostMatches(Track(w, s, Byte(b)), Next(s, Byte(b)).rx, Flat(Select(w.lines, w.kept)));
  }

  lemma OverrunLeaves(w: Wire, s: Port)
    requires Unbroken(w, s) && !s.rx.discarding && |w.tail| <= |s.rx.q| - s.rx.injLeft
    ensures var q, left := Unwrite(s.rx.q), s.rx.injLeft;
            && left <= |q| && (left > 0 ==> IsEol(q[left - 1]))
            && w.read + q[left..] == Flat(Select(w.lines, w.kept))
  {
    TailFacts(w, s);
    hide Select, Flat, Unwrite, Unbroken;
    TailUnwritten(s.rx.q, s.rx.injLeft, w.tail, w.read, Flat(Select(w.lines, w.kept)));
  }

  lemma TailFacts(w: Wire, s: Port)
    requires Unbroken(w, s) && !s.rx.discarding
    ensures var flat := Flat(Select(w.lines, w.kept));
            && (s.rx.injLeft > 0 ==> IsEol(s.rx.q[s.rx.injLeft - 1]))
            && (forall i :: 0 <= i < |w.tail| ==> LineByte(w.tail[i]))
            && (flat == [] || IsEol(flat[|flat| - 1]))
            && w.read + s.rx.q[s.rx.injLeft..] == flat + w.tail
  {
    SelectWhole(w.lines, w.kept);
    FlatEnds(Select(w.lines, w.kept));
    hide Select, Flat, Whole;
  }

  /** An overrun keeps the lines whole exactly when none of the line in progress has
      been read: a line too long for the ring, read in part, leaves its beginning to
      be glued to the next. */
  lemma OverrunExactly(w: Wire, s: Port, b: byte)
    requires Unbroken(w, s) && !s.rx.discarding && Full(s.rx)
    ensures Unbroken(Track(w, s, Byte(b)), Next(s, Byte(b))) <==> |w.tail| <= |s.rx.q| - s.rx.injLeft
  {
    if |w.tail| <= |s.rx.q| - s.rx.injLeft {
      OverrunUnbroken(w, s, b);
    } else {
      FragmentLeft(w, s);
      DueLost(w, b);
      hide Select, Flat, Due, Unwrite;
      var v, t := Track(w, s, Byte(b)), Next(s, Byte(b));
      assert v.read + t.rx.q[t.rx.injLeft..] == w.read;
    }
  }

  lemma FragmentLeft(w: Wire, s: Port)
    requires Unbroken(w, s) && !s.rx.discarding && |w.tail| > |s.rx.q| - s.rx.injLeft
    ensures s.rx.injLeft == 0 && Unwrite(s.rx.q) == [] && w.read != Flat(Select(w.lines, w.kept))
  {
    assert s.rx.injLeft == 0;
    TailFacts(w, s);
    hide Select, Flat, Unbroken;
    assert s.rx.q[0..] == s.rx.q;
    PartRead(w.read, s.rx.q, Flat(Select(w.lines, w.kept)), w.tail);
    UnwriteTail(s.rx.q, 0);
  }

  /** A tail that reaches back into what was read: all that is left is its own. */
  lemma PartRead(read: seq<byte>, q: seq<byte>, flat: seq<byte>, tail: seq<byte>)
    requires read + q == flat + tail && |tail| > |q| && forall i :: 0 <= i < |tail| ==> LineByte(tail[i])
    ensures |read| > |flat| && forall i :: 0 <= i < |q| ==> LineByte(q[i])
  {
    assert |read + q| == |read| + |q| && |flat + tail| == |flat| + |tail|;
    forall i | 0 <= i < |q|
      ensures LineByte(q[i])
    {
      assert q[i] == (read + q)[|read| + i] == (flat + tail)[|read| + i] == tail[|read| + i - |flat|];
    }
  }

  lemma TailFits(w: Wire, s: Port, b: byte)
    requires Unbroken(w, s) && Fits(w, s, Byte(b)) && !s.rx.discarding && Full(s.rx)
    ensures |w.tail| <= |s.rx.q| - s.rx.injLeft
  {
    hide Due, Parsed;
  }

  lemma LostMatches(v: Wire, t: Rx, flat: seq<byte>)
    requires |v.lines| == |v.kept| && t.injLeft <= |t.q| && IsEol(t.senderEol)
    requires t.injLeft > 0 ==> IsEol(t.q[t.injLeft - 1])
    requires t.discarding == v.lost && !t.senderMidline && (v.lost || v.tail == [])
    requires v.read + t.q[t.injLeft..] == flat == Due(v)
    ensures Matches(v, t)
  {
    hide Due;
  }

  lemma TailUnwritten(q: seq<byte>, left: nat, tail: seq<byte>, read: seq<byte>, flat: seq<byte>)
    requires left <= |q| && |tail| <= |q| - left && read + q[left..] == flat + tail
    requires (left > 0 ==> IsEol(q[left - 1])) && (flat == [] || IsEol(flat[|flat| - 1]))
    requires forall i :: 0 <= i < |tail| ==> LineByte(tail[i])
    ensures var r := Unwrite(q);
            left <= |r| && (left > 0 ==> IsEol(r[left - 1])) && read + r[left..] == flat
  {
    var n := |q| - |tail|;
    TailSplit(q, left, tail, read, flat);
    assert forall i :: n <= i < |q| ==> q[i] == q[n..][i - n];
    UnwriteTail(q, n);
    assert q[..n][left..] == q[left..n];
  }

  /** A byte stored, a line lost, a byte of a lost line: the ring still owes whole
      lines only. */
  lemma ByteUnbroken(w: Wire, s: Port, b: byte)
    requires Unbroken(w, s) && Fits(w, s, Byte(b))
    ensures Unbroken(Track(w, s, Byte(b)), Next(s, Byte(b)))
  {
    hide Unbroken, Track, Next;
    assert Enabled(s, Byte(b));
    if s.rx.discarding {
      LostUnbroken(w, s, b);
    } else if Full(s.rx) {
      TailFits(w, s, b);
      OverrunUnbroken(w, s, b);
    } else {
      StoredUnbroken(w, s, b);
    }
  }

  lemma ReadUnbroken(w: Wire, s: Port)
    requires Unbroken(w, s) && Enabled(s, Read)
    ensures Unbroken(Track(w, s, Read), Next(s, Read))
  {
    hide Flat, Select;
    var q, left := s.rx.q, s.rx.injLeft;
    if left == 0 {
      assert (w.read + [q[0]]) + q[1..] == w.read + q;
      assert q[0..] == q && q[1..][0..] == q[1..];
    } else {
      assert q[1..][left - 1..] == q[left..];
    }
  }

  lemma StepUnbroken(w: Wire, s: Port, a: Step)
    requires Enabled(s, a) && Fits(w, s, a) && Unbroken(w, s)
    ensures Unbroken(Track(w, s, a), Next(s, a))
  {
    match a {
      case Byte(b) => ByteUnbroken(w, s, b);
      case Read => ReadUnbroken(w, s);
      case Line(line) => LineUnbroken(w, s, line);
      case Status(_) =>
      case Hold(_) =>
    }
  }

  lemma LineUnbroken(w: Wire, s: Port, line: seq<byte>)
    requires Unbroken(w, s)
    ensures Unbroken(w, Next(s, Line(line)))
  {
    hide Due;
    var t := Next(s, Line(line));
    if CanInject(s.rx, line) {
      assert s.rx.q[s.rx.injLeft..] == [] == t.rx.q[t.rx.injLeft..];
    }
  }

  ghost predicate FitsRun(w: Wire, s: Port, steps: seq<Step>)
    requires IsRun(s, steps)
    decreases |steps|
  {
    steps == [] || (Fits(w, s, steps[0]) && FitsRun(Track(w, s, steps[0]), Next(s, steps[0]), steps[1..]))
  }

  ghost function Tracked(w: Wire, s: Port, steps: seq<Step>): Wire
    requires IsRun(s, steps)
    decreases |steps|
  {
    if steps == [] then w else Tracked(Track(w, s, steps[0]), Next(s, steps[0]), steps[1..])
  }

  lemma {:induction false} RunUnbroken(w: Wire, s: Port, steps: seq<Step>)
    requires IsRun(s, steps) && FitsRun(w, s, steps) && Unbroken(w, s)
    ensures Unbroken(Tracked(w, s, steps), Final(s, steps))
    decreases |steps|
  {
    hide Unbroken, Track, Next, Enabled, Fits;
    if steps != [] {
      StepUnbroken(w, s, steps[0]);
      RunUnbroken(Track(w, s, steps[0]), Next(s, steps[0]), steps[1..]);
    }
  }

  const SILENT: Wire := Wire([], [], [], false, [])

  /** Line integrity: for every sender whose lines fit the ring, however its bytes
      interleave with reads, holds and injected lines, what the core has read of it
      and what the ring still holds is exactly its lines that did not overrun, whole
      and in order, and the line in progress unless that one has overrun. */
  lemma LineIntegrity(s: Port, steps: seq<Step>)
    requires Initial(s) && IsRun(s, steps) && FitsRun(SILENT, s, steps)
    ensures var w, t := Tracked(SILENT, s, steps), Final(s, steps);
            && |w.lines| == |w.kept| && t.rx.injLeft <= |t.rx.q|
            && (forall i :: 0 <= i < |w.lines| ==> Whole(w.lines[i]))
            && w.read + t.rx.q[t.rx.injLeft..] ==
               Flat(Select(w.lines, w.kept)) + (if w.lost then [] else w.tail)
  {
    assert Select(SILENT.lines, SILENT.kept) == [];
    RunUnbroken(SILENT, s, steps);
    hide IsRun, Final, Tracked, FitsRun, Initial;
  }

  // ---- the read gate, and the overrun ----

  /** The gate: whatever waits in the ring is the core's to read while the gate is open,
      and behind a closed one exactly an injected byte, a cancel, and the end of an empty
      line. */
  lemma GateExactly(r: Rx)
    ensures !r.hold ==> (CanGet(r) <==> r.q != [])
    ensures r.injLeft > 0 ==> (CanGet(r) <==> r.q != [])
    ensures r.hold && r.injLeft == 0 && r.q != [] ==>
              (CanGet(r) <==> r.q[0] == CAN || (!r.readMidline && (r.q[0] == LF || r.q[0] == CR)))
    ensures CanGet(r) ==> r.q != []
  {
  }

  /** A byte of the sender overruns exactly where the ring holds all but one of its bytes
      and nothing is being discarded; then, and only then, the overrun is flagged and its
      line begins to be lost. */
  lemma OverrunsExactly(s: Port, b: byte)
    requires s.rx.size >= 2 && |s.rx.q| < s.rx.size
    ensures var t := Next(s, Byte(b)).rx; var over := !s.rx.discarding && |s.rx.q| == s.rx.size - 1;
            && (t.overrun <==> s.rx.overrun || over)
            && (t.discarding <==> (s.rx.discarding || over) && b != LF && b != CR)
            && (!over && !s.rx.discarding ==> t.q == s.rx.q + [b] && (t.senderMidline <==> b != LF && b != CR))
            && |t.q| < t.size
  {
    hide Unwrite;
  }

  // ---- a line read in part ----

  /** Some run leads from one state and wire to another. */
  ghost predicate Leads(w: Wire, s: Port, v: Wire, t: Port) {
    exists steps :: IsRun(s, steps) && Final(s, steps) == t && Tracked(w, s, steps) == v
  }

  lemma {:induction false} OneMore(w: Wire, s: Port, steps: seq<Step>, a: Step)
    requires IsRun(s, steps) && Enabled(Final(s, steps), a)
    ensures IsRun(s, steps + [a]) && Final(s, steps + [a]) == Next(Final(s, steps), a)
    ensures Tracked(w, s, steps + [a]) == Track(Tracked(w, s, steps), Final(s, steps), a)
    decreases |steps|
  {
    hide Next, Enabled, Track;
    var all := steps + [a];
    if steps == [] {
      assert all[0] == a && all[1..] == [];
      NoMore(Track(w, s, a), Next(s, a), all[1..]);
    } else {
      assert all[0] == steps[0] && all[1..] == steps[1..] + [a];
      OneMore(Track(w, s, steps[0]), Next(s, steps[0]), steps[1..], a);
    }
  }

  lemma NoMore(w: Wire, s: Port, none: seq<Step>)
    requires |none| == 0
    ensures IsRun(s, none) && Final(s, none) == s && Tracked(w, s, none) == w
  {
  }

  lemma Then(w0: Wire, s0: Port, w: Wire, s: Port, a: Step, v: Wire, t: Port)
    requires Leads(w0, s0, w, s) && Enabled(s, a) && Next(s, a) == t && Track(w, s, a) == v
    ensures Leads(w0, s0, v, t)
  {
    var steps :| IsRun(s0, steps) && Final(s0, steps) == s && Tracked(w0, s0, steps) == w;
    hide IsRun, Final, Tracked, Next, Enabled, Track;
    OneMore(w0, s0, steps, a);
  }

  lemma Here(w: Wire, s: Port)
    ensures Leads(w, s, w, s)
  {
    var none: seq<Step> := [];
    NoMore(w, s, none);
    hide IsRun, Final, Tracked;
    assert IsRun(s, none);
  }

  /** Bytes stored where there is room. */
  function Queued(s: Port, bytes: seq<byte>): Port {
    s.(rx := s.rx.(q := s.rx.q + bytes, senderMidline := s.rx.senderMidline || bytes != []))
  }

  lemma Stores(w: Wire, s: Port, b: byte)
    requires !s.rx.discarding && !Full(s.rx) && LineByte(b) && !w.lost
    ensures Enabled(s, Byte(b)) && Next(s, Byte(b)) == Queued(s, [b])
    ensures Track(w, s, Byte(b)) == w.(tail := w.tail + [b])
  {
  }

  lemma {:induction false} StoreAll(w0: Wire, s0: Port, w: Wire, s: Port, bytes: seq<byte>)
    requires Leads(w0, s0, w, s) && !s.rx.discarding && !w.lost && |s.rx.q| + |bytes| < s.rx.size
    requires forall i :: 0 <= i < |bytes| ==> LineByte(bytes[i])
    ensures Leads(w0, s0, w.(tail := w.tail + bytes), Queued(s, bytes))
    decreases |bytes|
  {
    hide Leads, Next, Track, Enabled, LineByte;
    if bytes == [] {
      assert s.rx.q + bytes == s.rx.q && w.tail + bytes == w.tail;
    } else {
      var b, rest := bytes[0], bytes[1..];
      var v, t := w.(tail := w.tail + [b]), Queued(s, [b]);
      Stores(w, s, b);
      Then(w0, s0, w, s, Byte(b), v, t);
      StoreAll(w0, s0, v, t, rest);
      assert [b] + rest == bytes;
      assert t.rx.q + rest == s.rx.q + bytes && v.tail + rest == w.tail + bytes;
    }
  }

  /** The byte that finds the ring full of its own line: the rest of it goes. */
  function Emptied(s: Port): Port {
    s.(rx := s.rx.(q := [], overrun := true, discarding := true, senderMidline := false))
  }

  lemma Overruns(w: Wire, s: Port, b: byte)
    requires Full(s.rx) && !s.rx.discarding && LineByte(b) && !w.lost
    requires forall i :: 0 <= i < |s.rx.q| ==> LineByte(s.rx.q[i])
    ensures Enabled(s, Byte(b)) && Next(s, Byte(b)) == Emptied(s)
    ensures Track(w, s, Byte(b)) == w.(tail := w.tail + [b], lost := true)
  {
    UnwriteTail(s.rx.q, 0);
  }

  /** Bytes of a lost line, and its end. */
  lemma Drops(w: Wire, s: Port, b: byte)
    requires s.rx.discarding && w.lost && LineByte(b)
    ensures Enabled(s, Byte(b)) && Next(s, Byte(b)) == s
    ensures Track(w, s, Byte(b)) == w.(tail := w.tail + [b])
  {
  }

  lemma {:induction false} DropAll(w0: Wire, s0: Port, w: Wire, s: Port, bytes: seq<byte>)
    requires Leads(w0, s0, w, s) && s.rx.discarding && w.lost
    requires forall i :: 0 <= i < |bytes| ==> LineByte(bytes[i])
    ensures Leads(w0, s0, w.(tail := w.tail + bytes), s)
    decreases |bytes|
  {
    hide Leads, Next, Track, Enabled, LineByte;
    if bytes == [] {
      assert w.tail + bytes == w.tail;
    } else {
      var v, rest := w.(tail := w.tail + [bytes[0]]), bytes[1..];
      Drops(w, s, bytes[0]);
      Then(w0, s0, w, s, Byte(bytes[0]), v, s);
      DropAll(w0, s0, v, s, rest);
      assert v.tail + rest == w.tail + bytes;
    }
  }

  lemma Discards(w: Wire, s: Port)
    requires s.rx.discarding && w.lost
    ensures Enabled(s, Byte(LF)) && Next(s, Byte(LF)) == s.(rx := s.rx.(discarding := false))
    ensures Track(w, s, Byte(LF)) ==
            w.(lines := w.lines + [w.tail + [LF]], kept := w.kept + [false], tail := [], lost := false)
  {
  }

  /** The end of a kept line. */
  function LineEnded(s: Port): Port {
    s.(rx := s.rx.(q := s.rx.q + [LF], senderMidline := false, senderEol := LF))
  }

  lemma Ends(w: Wire, s: Port)
    requires !s.rx.discarding && !Full(s.rx) && !w.lost
    ensures Enabled(s, Byte(LF)) && Next(s, Byte(LF)) == LineEnded(s)
    ensures Track(w, s, Byte(LF)) == w.(lines := w.lines + [w.tail + [LF]], kept := w.kept + [true], tail := [])
  {
  }

  /** Bytes read, none of them an end of line. */
  predicate Readable(s: Port) { !s.rx.hold && s.rx.injLeft == 0 && s.run.Resting? }

  function Consumed(s: Port, n: nat): Port
    requires n <= |s.rx.q|
  {
    if n == 0 then s else s.(rx := s.rx.(q := s.rx.q[n..], readMidline := true, lineOpen := true))
  }

  lemma Reads(w: Wire, s: Port)
    requires Readable(s) && s.rx.q != [] && LineByte(s.rx.q[0])
    ensures Enabled(s, Read) && Next(s, Read) == Consumed(s, 1)
    ensures Track(w, s, Read) == w.(read := w.read + [s.rx.q[0]])
  {
  }

  lemma {:induction false} ReadAll(w0: Wire, s0: Port, w: Wire, s: Port, n: nat)
    requires Leads(w0, s0, w, s) && Readable(s) && n <= |s.rx.q|
    requires forall i :: 0 <= i < n ==> LineByte(s.rx.q[i])
    ensures Leads(w0, s0, w.(read := w.read + s.rx.q[..n]), Consumed(s, n))
    decreases n
  {
    hide Leads, Next, Track, Enabled, LineByte;
    if n == 0 {
      assert w.read + s.rx.q[..n] == w.read;
    } else {
      var v, t := w.(read := w.read + [s.rx.q[0]]), Consumed(s, 1);
      Reads(w, s);
      Then(w0, s0, w, s, Read, v, t);
      ReadAll(w0, s0, v, t, n - 1);
      assert [s.rx.q[0]] + t.rx.q[..n - 1] == s.rx.q[..n];
      assert v.read + t.rx.q[..n - 1] == w.read + s.rx.q[..n];
      assert n > 1 ==> t.rx.q[n - 1..] == s.rx.q[n..];
    }
  }

  lemma ReadsEnd(w: Wire, s: Port)
    requires Readable(s) && s.rx.q == [LF]
    ensures Enabled(s, Read) && Track(w, s, Read) == w.(read := w.read + [LF])
  {
  }

  ghost predicate LineBytes(bytes: seq<byte>) { forall i :: 0 <= i < |bytes| ==> LineByte(bytes[i]) }

  /** The first line of the witness: one byte read, the ring filled with more of it, and
      the rest lost. */
  lemma FirstLine(s: Port, line: seq<byte>) returns (t: Port)
    requires Initial(s) && s.rx.size >= 3 && !s.rx.hold && LineBytes(line) && |line| > s.rx.size
    ensures Leads(SILENT, s, Wire([line + [LF]], [false], [], false, [line[0]]), t)
    ensures t == s.(rx := s.rx.(overrun := true, readMidline := true, lineOpen := true))
  {
    hide Leads, Next, Track, Enabled, Unwrite;
    var n := s.rx.size;
    var one, more, rest := [line[0]], line[1..n], line[n + 1..];
    assert line == one + more + [line[n]] + rest;
    var s1 := Queued(s, one);
    var s2 := Consumed(s1, 1);
    var s3 := Queued(s2, more);
    var s4 := Emptied(s3);
    var w1, w2 := Wire([], [], one, false, []), Wire([], [], one, false, one);
    var w3 := w2.(tail := one + more);
    var w4, w5 := w3.(tail := one + more + [line[n]], lost := true), w3.(tail := line, lost := true);
    t := s4.(rx := s4.rx.(discarding := false));
    Here(SILENT, s);
    StoreAll(SILENT, s, SILENT, s, one);
    assert [] + one == one && s.rx.q + one == one;
    ReadAll(SILENT, s, w1, s1, 1);
    assert one[..1] == one && [] + one == one;
    StoreAll(SILENT, s, w2, s2, more);
    Overruns(w3, s3, line[n]);
    Then(SILENT, s, w3, s3, Byte(line[n]), w4, s4);
    DropAll(SILENT, s, w4, s4, rest);
    Discards(w5, s4);
    assert w5.lines + [w5.tail + [LF]] == [line + [LF]] && w5.kept + [false] == [false];
    Then(SILENT, s, w5, s4, Byte(LF), Wire([line + [LF]], [false], [], false, one), t);
  }

  /** What the core has read is a line the sender never wrote. */
  ghost predicate GluedRun(s: Port, steps: seq<Step>, line: seq<byte>, next: seq<byte>)
    requires line != []
  {
    IsRun(s, steps) &&
    var w := Tracked(SILENT, s, steps);
    && w.lines == [line + [LF], next + [LF]] && w.kept == [false, true] && w.read == [line[0]] + next + [LF]
  }

  /** Any line longer than the ring, read in part before it overruns, and any line behind
      it that fits: the first byte of the one is glued to the other. */
  lemma FragmentGlued(s: Port, line: seq<byte>, next: seq<byte>)
    requires Initial(s) && s.rx.size >= 3 && !s.rx.hold && LineBytes(line) && LineBytes(next)
    requires |line| > s.rx.size && |next| + 1 < s.rx.size
    ensures exists steps :: GluedRun(s, steps, line, next)
  {
    hide Leads, Next, Track, Enabled, Unwrite;
    var t := FirstLine(s, line);
    var n := |next|;
    var w := Wire([line + [LF]], [false], [], false, [line[0]]);
    var s1 := Queued(t, next);
    var s2 := LineEnded(s1);
    var s3 := Consumed(s2, n);
    var w1 := w.(tail := next);
    var w2 := Wire([line + [LF], next + [LF]], [false, true], [], false, [line[0]]);
    var w3, w4 := w2.(read := [line[0]] + next), w2.(read := [line[0]] + next + [LF]);
    StoreAll(SILENT, s, w, t, next);
    assert t.rx.q + next == next && w.tail + next == next;
    Ends(w1, s1);
    assert w1.lines + [next + [LF]] == w2.lines && w1.kept + [true] == w2.kept;
    Then(SILENT, s, w1, s1, Byte(LF), w2, s2);
    assert s2.rx.q == next + [LF] && s2.rx.q[..n] == next && s2.rx.q[n..] == [LF];
    ReadAll(SILENT, s, w2, s2, n);
    ReadsEnd(w3, s3);
    Then(SILENT, s, w3, s3, Read, w4, Next(s3, Read));
    GluedBy(s, w4, Next(s3, Read), line, next);
  }

  lemma GluedBy(s: Port, w: Wire, t: Port, line: seq<byte>, next: seq<byte>)
    requires Leads(SILENT, s, w, t) && line != []
    requires w.lines == [line + [LF], next + [LF]] && w.kept == [false, true] && w.read == [line[0]] + next + [LF]
    ensures exists steps :: GluedRun(s, steps, line, next)
  {
    var steps :| IsRun(s, steps) && Final(s, steps) == t && Tracked(SILENT, s, steps) == w;
    hide IsRun, Final, Tracked;
    assert GluedRun(s, steps, line, next);
  }
}
