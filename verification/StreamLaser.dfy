/** What the laser plays: over every run, the duty and the light of every tick on the wire
    are those of the last command the core gave at or before it, however the transition
    queue has merged the commands on the way. */
module StreamLaser {
  import opened PulseBytes
  import opened DitherModel
  import opened StreamRing
  import opened LaserQueue
  import opened StreamEngine
  import opened StreamSystem
  import opened StreamClock
  import F = StreamFire
  import D = StreamDose

  // ---- a program of commands ----

  /** How many of the leading commands index x has reached: each waits for those before
      it. */
  function Due(cmds: seq<Ev>, x: nat): (k: nat)
    ensures k <= |cmds|
    ensures forall i :: 0 <= i < k ==> cmds[i].idx <= x
    ensures k < |cmds| ==> cmds[k].idx > x
  {
    if cmds == [] || cmds[0].idx > x then 0 else 1 + Due(cmds[1..], x)
  }

  lemma {:induction false} DueIs(cmds: seq<Ev>, x: nat, k: nat)
    requires k <= |cmds| && (forall i :: 0 <= i < k ==> cmds[i].idx <= x) && (k < |cmds| ==> cmds[k].idx > x)
    ensures Due(cmds, x) == k
  {
  }

  /** A tick as it is to be played: the power and the fire in force, the gate of its pass,
      the dose model, and whether the model has stayed of one kind in its kernel run. */
  datatype Note = Note(power: Duty, fire: bool, gate: bool, analog: bool, sure: bool)

  /** The history: the clock; what the core wants; the commands ahead, in the order given,
      and the power and fire in force; whether a command has met a full queue; whether the
      dose model has changed its kind inside the kernel run; the ticks to be played, and
      the bytes built. */
  datatype Score = Score(clock: Clock, wantPower: Duty, wantFire: bool, jogging: bool,
                         cmds: seq<Ev>, power: Duty, fire: bool, full: bool, mixed: bool,
                         notes: seq<Note>, built: seq<Byte>)

  // ---- the observer ----

  /** The queue has no room for a command at idx of its own. */
  predicate Crowded(l: Laser, idx: nat) { |l.lev| >= LEV_N && l.lev[|l.lev| - 1].idx != idx }

  function Adds(o: Score, l: Laser, idx: nat, power: Duty, fire: bool): (r: Score)
    ensures r == o.(cmds := r.cmds, full := r.full)
  {
    o.(cmds := o.cmds + [Ev(idx, power, fire)], full := o.full || Crowded(l, idx))
  }

  /** A command at the current virtual time, or at the cursor where that has passed; late
      under an armed window it fails the stream. */
  function Commands(o: Score, s: Sys, power: Duty, fire: bool): (r: Score)
    ensures r == o.(cmds := r.cmds, full := r.full)
  {
    var now, cursor := Now(o.clock), s.g.ring.shipped;
    if !s.g.streaming || (now < cursor && s.armed) then o
    else Adds(o, s.g.laser, if now < cursor then cursor else now, power, fire)
  }

  /** A wakeup: a fresh stream forgets the commands, a continued one goes dark where it
      skips a gap; then the wants, if they differ from what is in force. */
  function Wakes(o: Score, s: Sys, dueNow: nat): (r: Score)
    ensures r == o.(cmds := r.cmds, fire := r.fire, full := r.full)
  {
    Wishes(Darks(o, s.g.kernelRunning, dueNow > o.clock.next), !s.g.kernelRunning || |s.g.laser.lev| < LEV_N,
           Starts(o.clock, s, dueNow).base, s.armed)
  }

  function Darks(o: Score, running: bool, gap: bool): (r: Score)
    ensures r == o.(cmds := r.cmds, fire := r.fire)
  {
    if !running then o.(cmds := [], fire := false) else if gap then o.(fire := false) else o
  }

  /** The wants commanded at an index, if there is room and they differ from what is in
      force. */
  function Wishes(o: Score, room: bool, at: nat, armed: bool): (r: Score)
    ensures r == o.(cmds := r.cmds, full := r.full)
  {
    var fire := o.wantFire && armed && !o.jogging;
    if o.wantPower == o.power && fire == o.fire then o
    else if !room then o.(full := true)
    else o.(cmds := o.cmds + [Ev(at, o.wantPower, fire)])
  }

  /** A cycle's end turns the laser off behind everything produced and shipped, at the
      power last commanded. */
  function Ends(o: Score, s: Sys): (r: Score)
    ensures r == o.(cmds := r.cmds, full := r.full)
  {
    var idx := if o.clock.next > s.g.ring.shipped then o.clock.next else s.g.ring.shipped;
    var n := |o.cmds|;
    if !o.fire && n == 0 then o
    else o.(cmds := o.cmds + [Ev(idx, if n > 0 then o.cmds[n - 1].power else o.power, false)],
            full := o.full || (|s.g.laser.lev| >= LEV_N && s.g.laser.lev[|s.g.laser.lev| - 1].idx < idx))
  }

  function ScoreCore(o: Score, s: Sys, c: CoreStep): (r: Score)
    ensures r.built == o.built && r.notes == o.notes && r.clock == o.clock
  {
    match c
    case Request(power, fire) =>
      if s.g.failed then o
      else Commands(o.(wantPower := power, wantFire := fire), s, power, fire && s.armed && !o.jogging)
    case SetJog(jog) =>
      if s.g.failed then o
      else Commands(o.(jogging := jog), s, o.wantPower, o.wantFire && s.armed && !jog)
    case SetModel(d) =>
      if (d.period == 0) == (s.g.laser.dith.period == 0) then o
      else o.(power := 0, mixed := o.mixed || s.g.laser.powerSent)
    case Wake(dueNow) => if s.g.failed || s.g.streaming then o else Wakes(o, s, dueNow)
    case Sleep(_) => if s.g.streaming then Ends(o, s) else o
    case DoReset =>
      if s.g.streaming || s.g.killed || s.g.failed
      then o.(wantFire := false, cmds := [], fire := false, mixed := false) else o
    case _ => o
  }

  /** One tick at index x: the commands it reaches, then the tick. */
  function Reads(o: Score, x: nat, gate: bool, analog: bool, bytes: seq<Byte>): Score {
    var k := Due(o.cmds, x);
    var power := if k == 0 then o.power else o.cmds[k - 1].power;
    var fire := if k == 0 then o.fire else o.cmds[k - 1].fire;
    o.(cmds := o.cmds[k..], power := power, fire := fire,
       notes := o.notes + [Note(power, fire, gate, analog, !o.mixed)], built := o.built + bytes)
  }

  function ScoreBuild(o: Score, b: Build, gate: bool, due: nat, streaming: bool): Score
    requires Sized(b.r)
    decreases due - b.r.shipped
  {
    if !More(b, due, streaming) then o
    else
      var bytes := LaserTick(b.l, b.r.shipped, gate, Ship(b.r).1).1;
      ScoreBuild(Reads(o, b.r.shipped, gate, b.l.dith.period == 0, bytes), BuildTick(b, gate), gate, due, streaming)
  }

  function ScoreTurn(o: Score, s: Sys, gate: bool, due: nat): Score
    requires SysSane(s)
  {
    if ShipMore(s.g, due) then ScoreBuild(o, Build(s.g.laser, s.g.ring, []), gate, due, s.g.streaming) else o
  }

  /** A pass that sees the gate fall turns everything dark. */
  function ScoreSample(o: Score, s: Sys): Score {
    if s.g.laser.gateSeen && !s.gate then o.(fire := false, cmds := Darkened(o.cmds)) else o
  }

  /** A pass: the pad behind a fault or a stream's end leaves fire off, and a stream's end
      ends the kernel run. */
  function ScorePass(o: Score, s: Sys, due: nat): Score
    requires SysSane(s)
  {
    if s.g.failed then (if s.g.laser.lastLit then o.(fire := false) else o)
    else if !s.g.streaming && Backlog(s.g.ring) == 0 then
      (var p := ScoreSample(o, s);
       if !s.g.kernelRunning then p else if s.g.laser.lastLit then p.(fire := false, mixed := false) else p.(mixed := false))
    else if PreloadWait(s.g) then ScoreSample(o, s)
    else ScoreTurn(ScoreSample(o, s), Sampled(s), s.gate, due)
  }

  function ScoreWrite(o: Score, s: Sys): Score
    requires SysSane(s) && s.pc.Writing?
  {
    var u := s.(g := ChunkTaken(s.g, s.pc.chunk), k := Take(s.k, s.pc.chunk));
    if u.g.failed || u.g.clearPending then o else ScoreTurn(o, u, s.pc.gate, s.pc.due)
  }

  function Observe(o: Score, s: Sys, a: Step): Score
    requires SysSane(s) && Enabled(s, a)
  {
    var p := match a
             case ByCore(c) => ScoreCore(o, s, c)
             case ByShipper(Begin(due, _)) => ScorePass(o, s, due)
             case ByShipper(WriteOk) => ScoreWrite(o, s)
             case ByShipper(Finish) => o.(mixed := false)
             case _ => o;
    p.(clock := StreamClock.Observe(o.clock, s, a))
  }

  // ---- the normal form of a queue ----

  /** A command at an index already spoken for takes the place of the one there. */
  function Put(q: seq<Ev>, e: Ev): (r: seq<Ev>)
    ensures r != [] && r[|r| - 1].power == e.power && r[|r| - 1].fire == e.fire
  {
    var n := |q|;
    if n > 0 && q[n - 1].idx >= e.idx then q[n - 1 := Ev(q[n - 1].idx, e.power, e.fire)] else q + [e]
  }

  /** What a list of commands comes to. */
  function Norm(cmds: seq<Ev>): (r: seq<Ev>)
    ensures r == [] <==> cmds == []
    ensures r != [] ==> r[|r| - 1].power == cmds[|cmds| - 1].power && r[|r| - 1].fire == cmds[|cmds| - 1].fire
    ensures r != [] ==> r[|r| - 1].idx >= cmds[|cmds| - 1].idx
  {
    if cmds == [] then [] else Put(Norm(cmds[..|cmds| - 1]), cmds[|cmds| - 1])
  }

  lemma {:induction false} NormAppend(cmds: seq<Ev>, e: Ev)
    ensures Norm(cmds + [e]) == Put(Norm(cmds), e)
  {
    var all := cmds + [e];
    assert all[..|all| - 1] == cmds && all[|all| - 1] == e;
  }

  /** The newest command changed, its index kept. */
  lemma {:induction false} NormNewest(cmds: seq<Ev>, e: Ev)
    requires cmds != [] && e.idx <= cmds[|cmds| - 1].idx
    ensures var n := |cmds| - 1; Norm(cmds[n := Ev(cmds[n].idx, e.power, e.fire)]) == Put(Norm(cmds), e)
  {
    var n := |cmds| - 1;
    var head, was := cmds[..n], cmds[n];
    var now := Ev(was.idx, e.power, e.fire);
    assert cmds == head + [was] && cmds[n := now] == head + [now];
    NormAppend(head, was);
    NormAppend(head, now);
    hide Norm;
  }

  lemma EnqueueNorm(l: Laser, idx: nat, power: Duty, fire: bool)
    requires |l.lev| <= LEV_N && !Crowded(l, idx)
    ensures Norm(Enqueue(l.lev, idx, power, fire)) == Put(Norm(l.lev), Ev(idx, power, fire))
  {
    hide Norm, Put;
    var n := |l.lev|;
    if n > 0 && l.lev[n - 1].idx == idx {
      NormNewest(l.lev, Ev(idx, power, fire));
    } else {
      NormAppend(l.lev, Ev(idx, power, fire));
    }
  }

  lemma OffNorm(l: Laser, idx: nat)
    requires |l.lev| <= LEV_N && (l.curFire || l.lev != [])
    requires |l.lev| >= LEV_N ==> l.lev[|l.lev| - 1].idx >= idx
    ensures var power := if l.lev != [] then l.lev[|l.lev| - 1].power else l.curPower;
            Norm(EnqueueOff(l, idx)) == Put(Norm(l.lev), Ev(idx, power, false))
  {
    hide Norm, Put;
    var n := |l.lev|;
    if n > 0 && l.lev[n - 1].idx >= idx {
      var e := Ev(idx, l.lev[n - 1].power, false);
      NormNewest(l.lev, e);
      assert l.lev[n - 1].(fire := false) == Ev(l.lev[n - 1].idx, e.power, e.fire);
    } else {
      NormAppend(l.lev, Ev(idx, if n > 0 then l.lev[n - 1].power else l.curPower, false));
    }
  }

  lemma {:induction false} DarkenedConcat(a: seq<Ev>, e: Ev)
    ensures Darkened(a + [e]) == Darkened(a) + [e.(fire := false)]
  {
  }

  lemma {:induction false} NormDarkened(cmds: seq<Ev>)
    ensures Norm(Darkened(cmds)) == Darkened(Norm(cmds))
  {
    if cmds != [] {
      var n := |cmds| - 1;
      assert cmds == cmds[..n] + [cmds[n]];
      DarkenedConcat(cmds[..n], cmds[n]);
      NormAppend(Darkened(cmds[..n]), cmds[n].(fire := false));
      NormDarkened(cmds[..n]);
      PutDarkened(Norm(cmds[..n]), cmds[n]);
    }
  }

  lemma PutDarkened(q: seq<Ev>, e: Ev)
    ensures Put(Darkened(q), e.(fire := false)) == Darkened(Put(q, e))
  {
    hide Darkened;
    var n, d := |q|, Darkened(q);
    assert n > 0 ==> d[n - 1].idx == q[n - 1].idx;
    assert Put(d, e.(fire := false)) == Darkened(Put(q, e));
  }

  /** x reaches the same state in both lists, and leaves the same behind. */
  ghost predicate SameAt(cmds: seq<Ev>, q: seq<Ev>, x: nat) {
    var k, j := Due(cmds, x), Due(q, x);
    && Norm(cmds[k..]) == q[j..] && (k == 0 <==> j == 0)
    && (k > 0 ==> q[j - 1].power == cmds[k - 1].power && q[j - 1].fire == cmds[k - 1].fire)
  }

  /** A list and its normal form reach the same state at every index, and leave the same
      behind. */
  lemma {:induction false} NormDue(cmds: seq<Ev>, x: nat)
    ensures SameAt(cmds, Norm(cmds), x)
    decreases |cmds|
  {
    if cmds == [] {
      NormNone(cmds);
      NormNone(cmds[0..]);
      DueIs(cmds, x, 0);
      hide Norm;
    } else {
      var n := |cmds| - 1;
      var head, e := cmds[..n], cmds[n];
      assert cmds == head + [e];
      NormDue(head, x);
      NormAppend(head, e);
      hide Norm, SameAt, Put;
      if Due(head, x) < n {
        DueLater(head, Norm(head), e, x);
      } else {
        DueLast(head, Norm(head), e, x);
      }
    }
  }

  lemma PutSuffix(q: seq<Ev>, e: Ev, j: nat)
    requires j < |q|
    ensures var r := Put(q, e);
            |r| >= |q| && (forall i :: 0 <= i < j ==> r[i] == q[i]) && r[j].idx == q[j].idx && r[j..] == Put(q[j..], e)
  {
  }

  /** The newest command behind one that x has not reached. */
  lemma DueLater(head: seq<Ev>, p: seq<Ev>, e: Ev, x: nat)
    requires SameAt(head, p, x) && Due(head, x) < |head|
    ensures SameAt(head + [e], Put(p, e), x)
  {
    hide Norm, Put, Due;
    var k, j := Due(head, x), Due(p, x);
    assert |p[j..]| > 0 && Norm(head[k..]) == p[j..];
    NormAppend(head[k..], e);
    PutSuffix(p, e, j);
    StaysDue(head, p, Put(p, e), e, x, k, j);
  }

  /** Two longer lists with the same parts reached. */
  lemma StaysDue(head: seq<Ev>, p: seq<Ev>, q: seq<Ev>, e: Ev, x: nat, k: nat, j: nat)
    requires k == Due(head, x) < |head| && j == Due(p, x) < |p| && (k == 0 <==> j == 0)
    requires k > 0 ==> p[j - 1].power == head[k - 1].power && p[j - 1].fire == head[k - 1].fire
    requires |q| >= |p| && (forall i :: 0 <= i < j ==> q[i] == p[i]) && q[j].idx == p[j].idx
    requires Norm(head[k..] + [e]) == q[j..]
    ensures SameAt(head + [e], q, x)
  {
    hide Norm, Due, SameAt;
    AppendDue(head, e, x, k);
    DueIs(q, x, j);
    AppendTail(head, e, k);
    SameAtBy(head + [e], q, x, k, j);
  }

  lemma AppendTail(head: seq<Ev>, e: Ev, k: nat)
    requires k < |head|
    ensures (head + [e])[k..] == head[k..] + [e]
    ensures k > 0 ==> (head + [e])[k - 1] == head[k - 1]
  {
  }

  lemma SameAtBy(cmds: seq<Ev>, q: seq<Ev>, x: nat, k: nat, j: nat)
    requires k == Due(cmds, x) && j == Due(q, x) && Norm(cmds[k..]) == q[j..] && (k == 0 <==> j == 0)
    requires k > 0 ==> q[j - 1].power == cmds[k - 1].power && q[j - 1].fire == cmds[k - 1].fire
    ensures SameAt(cmds, q, x)
  {
    hide Norm, Due;
  }

  lemma AppendDue(head: seq<Ev>, e: Ev, x: nat, k: nat)
    requires k == Due(head, x) < |head|
    ensures Due(head + [e], x) == k
  {
    hide Due;
    DueIs(head + [e], x, k);
  }

  /** The newest command behind others all reached. */
  lemma DueLast(head: seq<Ev>, p: seq<Ev>, e: Ev, x: nat)
    requires SameAt(head, p, x) && Due(head, x) == |head|
    ensures SameAt(head + [e], Put(p, e), x)
  {
    hide Norm, Due, Put;
    assert |p[Due(p, x)..]| == 0;
    if e.idx <= x { DueAll(head, p, e, x); } else { DueBut(head, p, e, x); }
  }

  lemma DueAll(head: seq<Ev>, p: seq<Ev>, e: Ev, x: nat)
    requires (forall i :: 0 <= i < |p| ==> p[i].idx <= x) && forall i :: 0 <= i < |head| ==> head[i].idx <= x
    requires e.idx <= x
    ensures SameAt(head + [e], Put(p, e), x)
  {
    hide Due, Norm;
    var cmds, q, n := head + [e], Put(p, e), |head|;
    NormNone(cmds[n + 1..]);
    DueIs(cmds, x, n + 1);
    DueIs(q, x, |q|);
    assert cmds[n] == e && q[|q|..] == [];
  }

  lemma DueBut(head: seq<Ev>, p: seq<Ev>, e: Ev, x: nat)
    requires (forall i :: 0 <= i < |p| ==> p[i].idx <= x) && forall i :: 0 <= i < |head| ==> head[i].idx <= x
    requires (|head| == 0 <==> |p| == 0) && e.idx > x
    requires p != [] ==> p[|p| - 1].power == head[|head| - 1].power && p[|p| - 1].fire == head[|head| - 1].fire
    ensures SameAt(head + [e], Put(p, e), x)
  {
    hide Due, Norm;
    var cmds, q, n := head + [e], p + [e], |head|;
    assert Put(p, e) == q;
    NormOne([e]);
    DueIs(cmds, x, n);
    DueIs(q, x, |p|);
    assert cmds[n..] == [e] && q[|p|..] == [e];
    assert n > 0 ==> cmds[n - 1] == head[n - 1] && q[|p| - 1] == p[|p| - 1];
  }

  lemma NormNone(none: seq<Ev>)
    ensures |none| == 0 ==> Norm(none) == []
  {
  }

  lemma {:induction false} NormOne(one: seq<Ev>)
    requires |one| == 1
    ensures Norm(one) == one
  {
    NormNone(one[..0]);
    assert Norm(one) == Put(Norm(one[..|one| - 1]), one[0]);
  }

  // ---- one tick ----

  /** Draining is reaching. */
  lemma {:induction false} DrainIs(lev: seq<Ev>, x: nat, fire: bool, power: Duty, due: bool)
    ensures var d, k := Drain(lev, x, fire, power, due), Due(lev, x);
            && d.lev == lev[k..]
            && d.fire == (if k == 0 then fire else lev[k - 1].fire)
            && d.power == (if k == 0 then power else lev[k - 1].power)
    decreases |lev|
  {
    if lev != [] && lev[0].idx <= x {
      var rest := lev[1..];
      var k := Due(rest, x);
      DrainIs(rest, x, lev[0].fire, lev[0].power, true);
      DueIs(lev, x, k + 1);
      assert rest[k..] == lev[k + 1..];
      assert k > 0 ==> rest[k - 1] == lev[k];
    } else {
      DueIs(lev, x, 0);
      assert lev[0..] == lev;
    }
  }

  /** The engine's laser has come to what the score says. */
  predicate Follows(o: Score, l: Laser) {
    o.power == l.curPower && o.fire == l.curFire && Norm(o.cmds) == Norm(l.lev)
  }

  predicate Wants(o: Score, l: Laser) {
    o.wantPower == l.wantPower && o.wantFire == l.wantFire && o.jogging == l.jogging
  }

  lemma TickFollows(o: Score, l: Laser, x: nat, gate: bool, v: Vec, analog: bool, bytes: seq<Byte>)
    requires Follows(o, l)
    ensures var p, m := Reads(o, x, gate, analog, bytes), LaserTick(l, x, gate, v).0;
            Follows(p, m) && (Wants(o, l) ==> Wants(p, m))
  {
    DrainIs(l.lev, x, l.curFire, l.curPower, false);
    NormDue(l.lev, x);
    NormDue(o.cmds, x);
    F.FireTickLit(Reached(l, x).(curPower := ReachedPower(l, x), powerSent := true), gate);
    hide Norm, Due, Drain, FireTick, Restart;
  }

  // ---- what the wire says ----

  /** A tick as the kernel hears it. */
  datatype Sound = Sound(duty: Duty, lit: bool)

  function Heard(duty: Duty, bytes: seq<Byte>): seq<Sound>
    decreases |bytes|
  {
    if bytes == [] then []
    else if bytes[0].Power? then Heard(bytes[0].duty, bytes[1..])
    else [Sound(duty, bytes[0].fire)] + Heard(duty, bytes[1..])
  }

  lemma {:induction false} HeardConcat(duty: Duty, a: seq<Byte>, b: seq<Byte>)
    ensures Heard(duty, a + b) == Heard(duty, a) + Heard(DutyAfter(duty, a), b)
    decreases |a|
  {
    if a == [] {
      assert a + b == b;
    } else {
      assert (a + b)[1..] == a[1..] + b;
      HeardConcat(if a[0].Power? then a[0].duty else duty, a[1..], b);
    }
  }

  /** A tick sounds as noted: in the analog model at the power in force, lit exactly with
      fire in force and the gate open; in the density model at full duty, and lit only
      then. */
  predicate Sounds(h: Sound, p: Note) {
    && (h.lit ==> p.fire && p.gate)
    && (p.analog ==> h.lit == (p.fire && p.gate))
    && (p.sure ==> h.duty == if p.analog then p.power else FULL_DUTY)
  }

  ghost predicate AllSound(heard: seq<Sound>, notes: seq<Note>) {
    |heard| == |notes| && forall i :: 0 <= i < |notes| ==> Sounds(heard[i], notes[i])
  }

  /** Everything built sounds as noted, and the duty in force is known while a run of one
      model goes on. */
  ghost predicate Hears(o: Score, l: Laser) {
    && AllSound(Heard(0, o.built), o.notes)
    && (o.mixed ==> l.powerSent)
    && (l.powerSent && !o.mixed ==> DutyAfter(0, o.built) == if l.dith.period == 0 then l.curPower else FULL_DUTY)
  }

  lemma {:induction false} LeadHeard(duty: Duty, lead: seq<Byte>, t: Byte)
    requires |lead| <= 1 && (lead == [] || lead[0].Power?) && t.Tick?
    ensures Heard(duty, lead + [t]) == [Sound(DutyAfter(duty, lead + [t]), t.fire)]
  {
    LeadDuty(duty, lead, t);
    var one := [t];
    assert one[0] == t && one[1..] == [];
    assert forall d :: Heard(d, one) == [Sound(d, t.fire)] + Heard(d, one[1..]);
    if lead == [] {
      assert lead + [t] == one;
    } else {
      assert (lead + [t])[1..] == one;
    }
  }

  /** What one tick adds to the wire. */
  lemma TickHeard(l: Laser, x: nat, gate: bool, v: Vec, duty: Duty)
    ensures var (m, bytes) := LaserTick(l, x, gate, v);
            Heard(duty, bytes) == [Sound(DutyAfter(duty, bytes), m.lastLit)]
  {
    LeadHeard(duty, Lead(Reached(l, x), ReachedPower(l, x)), Tick(v, LaserTick(l, x, gate, v).0.lastLit));
    hide Heard, DutyAfter, Reached, ReachedPower, FireTick;
  }

  lemma TickLit(l: Laser, x: nat, gate: bool, v: Vec)
    ensures var m := LaserTick(l, x, gate, v).0;
            && (m.lastLit ==> gate && m.curFire) && m.powerSent
            && (l.dith.period == 0 ==> m.lastLit == (gate && m.curFire)) && m.dith.period == l.dith.period
  {
    LaserTickShape(l, x, gate, v);
    hide Drain, DitherTick, Restart, Lead, Paired, Ticks, Powers, StepsOf;
  }

  lemma TickHears(o: Score, l: Laser, x: nat, gate: bool, v: Vec)
    requires Follows(o, l) && Hears(o, l)
    ensures var (m, bytes) := LaserTick(l, x, gate, v); Hears(Reads(o, x, gate, l.dith.period == 0, bytes), m)
  {
    var (m, bytes) := LaserTick(l, x, gate, v);
    var p := Reads(o, x, gate, l.dith.period == 0, bytes);
    var duty := DutyAfter(0, o.built);
    TickFollows(o, l, x, gate, v, l.dith.period == 0, bytes);
    TickHeard(l, x, gate, v, duty);
    TickLit(l, x, gate, v);
    HeardConcat(0, o.built, bytes);
    DutyConcat(0, o.built, bytes);
    if !o.mixed { TickDuty(l, x, gate, v, duty); }
    hide Heard, DutyAfter, LaserTick, Follows, Norm, Due;
    NotesAppend(Heard(0, o.built), o.notes, Sound(DutyAfter(duty, bytes), m.lastLit), p.notes[|o.notes|]);
  }

  lemma NotesAppend(heard: seq<Sound>, notes: seq<Note>, h: Sound, p: Note)
    requires AllSound(heard, notes) && Sounds(h, p)
    ensures AllSound(heard + [h], notes + [p])
  {
    hide Sounds;
  }

  // ---- a chunk ----

  lemma TickWants(o: Score, l: Laser, x: nat, gate: bool, v: Vec, analog: bool, bytes: seq<Byte>)
    requires Wants(o, l)
    ensures Wants(Reads(o, x, gate, analog, bytes), LaserTick(l, x, gate, v).0)
  {
    hide Drain, DitherTick, Restart, Due;
  }

  /** What a chunk leaves of the score, but for the laser's state. */
  predicate SameScore(o: Score, p: Score) {
    p.clock == o.clock && p.full == o.full && p.mixed == o.mixed
  }

  lemma {:induction false} BuildWants(o: Score, b: Build, gate: bool, due: nat, streaming: bool)
    requires Sized(b.r) && Wants(o, b.l)
    ensures var c, p := BuildChunk(b, gate, due, streaming), ScoreBuild(o, b, gate, due, streaming);
            && Wants(p, c.l) && SameScore(o, p) && |b.bytes| <= |c.bytes| && c.bytes[..|b.bytes|] == b.bytes
            && p.built == o.built + c.bytes[|b.bytes|..]
    decreases due - b.r.shipped
  {
    hide LaserTick, Ship, Wants, Due;
    ChunkUnfolds(b, gate, due, streaming);
    if More(b, due, streaming) {
      var v := Ship(b.r).1;
      var bytes, c := LaserTick(b.l, b.r.shipped, gate, v).1, BuildTick(b, gate);
      var analog := b.l.dith.period == 0;
      TickWants(o, b.l, b.r.shipped, gate, v, analog, bytes);
      CursorMoves(b.r);
      var p := Reads(o, b.r.shipped, gate, analog, bytes);
      BuildWants(p, c, gate, due, streaming);
      hide BuildChunk, ScoreBuild;
      D.BuiltSplit(o.built, b.bytes, bytes, BuildChunk(c, gate, due, streaming).bytes);
    } else {
      assert o.built + b.bytes[|b.bytes|..] == o.built;
    }
  }

  lemma {:induction false} BuildFollows(o: Score, b: Build, gate: bool, due: nat, streaming: bool)
    requires Sized(b.r) && Follows(o, b.l) && Hears(o, b.l)
    ensures var c, p := BuildChunk(b, gate, due, streaming), ScoreBuild(o, b, gate, due, streaming);
            Follows(p, c.l) && Hears(p, c.l)
    decreases due - b.r.shipped
  {
    hide LaserTick, Ship, Follows, Hears, Reads;
    ChunkUnfolds(b, gate, due, streaming);
    if More(b, due, streaming) {
      var v := Ship(b.r).1;
      var bytes := LaserTick(b.l, b.r.shipped, gate, v).1;
      TickFollows(o, b.l, b.r.shipped, gate, v, b.l.dith.period == 0, bytes);
      TickHears(o, b.l, b.r.shipped, gate, v);
      CursorMoves(b.r);
      BuildFollows(Reads(o, b.r.shipped, gate, b.l.dith.period == 0, bytes), BuildTick(b, gate), gate, due, streaming);
    }
  }

  // ---- every step ----

  /** The score and the laser agree, on all but the clock. */
  ghost predicate Agrees(o: Score, l: Laser) {
    Wants(o, l) && (!o.full ==> Follows(o, l) && Hears(o, l))
  }

  ghost predicate Scored(o: Score, s: Sys) {
    Timed(o.clock, s.g.ring, s.g.streaming) && Agrees(o, s.g.laser)
  }

  /** Nothing new was built, and the duty in force is the one it was. */
  lemma HearsStill(o: Score, l: Laser, p: Score, m: Laser)
    requires Hears(o, l) && p.built == o.built && p.notes == o.notes && p.mixed == o.mixed
    requires m.powerSent == l.powerSent && m.curPower == l.curPower && (m.dith.period == 0) == (l.dith.period == 0)
    ensures Hears(p, m)
  {
  }

  lemma TurnScored(o: Score, s: Sys, gate: bool, due: nat, startRun: bool)
    requires SysSane(s) && Agrees(o, s.g.laser)
    ensures var t, p := ShipTurn(s, gate, due, startRun), ScoreTurn(o, s, gate, due);
            Agrees(p, t.g.laser) && p.clock == o.clock && p.built == o.built + D.ChunkOf(t.pc)
  {
    hide Agrees, BuildChunk, ScoreBuild, PassEnd, Sized;
    if ShipMore(s.g, due) {
      ChunkScored(o, Build(s.g.laser, s.g.ring, []), gate, due, s.g.streaming);
    } else {
      PassEnds(s, startRun);
      assert o.built + [] == o.built;
    }
  }

  lemma ChunkScored(o: Score, b: Build, gate: bool, due: nat, streaming: bool)
    requires Sized(b.r) && |b.bytes| == 0 && Agrees(o, b.l)
    ensures var c, p := BuildChunk(b, gate, due, streaming), ScoreBuild(o, b, gate, due, streaming);
            Agrees(p, c.l) && p.clock == o.clock && p.built == o.built + c.bytes
  {
    hide Follows, Hears, Wants, BuildChunk, ScoreBuild, Sized;
    BuildWants(o, b, gate, due, streaming);
    if !o.full { BuildFollows(o, b, gate, due, streaming); }
    var c := BuildChunk(b, gate, due, streaming);
    assert c.bytes[|b.bytes|..] == c.bytes;
  }

  lemma PassEnds(s: Sys, startRun: bool)
    ensures PassEnd(s, startRun).g == s.g && !PassEnd(s, startRun).pc.Writing?
  {
  }

  lemma SampleScored(o: Score, s: Sys)
    requires SysSane(s) && Agrees(o, s.g.laser)
    ensures Agrees(ScoreSample(o, s), GateEdge(s.g.laser, s.gate))
  {
    var l, m, p := s.g.laser, GateEdge(s.g.laser, s.gate), ScoreSample(o, s);
    if !o.full {
      NormDarkened(o.cmds);
      NormDarkened(l.lev);
      hide Norm, Darkened;
      HearsStill(o, l, p, m);
    }
    hide Hears;
  }

  /** A stream's end, and the pad behind a fault: the fire is off where a pad was due. */
  lemma Unlit(o: Score, l: Laser, p: Score, m: Laser)
    requires Agrees(o, l) && p == o.(fire := p.fire, mixed := p.mixed) && p.fire == (o.fire && !l.lastLit)
    requires m == l.(curFire := m.curFire, lastLit := m.lastLit, powerSent := m.powerSent, dith := m.dith)
    requires m.curFire == (l.curFire && !l.lastLit) && m.dith.period == l.dith.period
    requires (m.powerSent == l.powerSent && p.mixed == o.mixed) || (!m.powerSent && !p.mixed)
    ensures Agrees(p, m)
  {
    hide Norm, AllSound, DutyAfter, Heard;
  }

  lemma EndIs(g: Gf, landed: bool)
    ensures var l, m := g.laser, EndStream(g, landed).laser;
            if !g.kernelRunning then m == l
            else
              && m == l.(curFire := l.curFire && !l.lastLit, lastLit := false, powerSent := false, dith := m.dith)
              && m.dith.period == l.dith.period
  {
    hide U32;
  }

  lemma FaultIs(s: Sys, landed: bool)
    requires SysSane(s)
    ensures var l := s.g.laser;
            PadFault(s, landed).g.laser == l.(curFire := l.curFire && !l.lastLit, lastLit := false)
  {
    hide U32, PadWritten;
  }

  lemma EndScored(o: Score, s: Sys, landed: bool)
    requires SysSane(s) && Agrees(o, s.g.laser)
    ensures var p := if !s.g.kernelRunning then o else if s.g.laser.lastLit then o.(fire := false, mixed := false)
                     else o.(mixed := false);
            Agrees(p, FinishStream(s, landed).g.laser)
  {
    EndIs(s.g, landed);
    hide Agrees, EndStream;
    var p := o.(fire := o.fire && !s.g.laser.lastLit, mixed := false);
    if s.g.kernelRunning { Unlit(o, s.g.laser, p, FinishStream(s, landed).g.laser); }
  }

  lemma PassScored(o: Score, s: Sys, due: nat, landed: bool)
    requires SysSane(s) && s.pc == Ready && Agrees(o, s.g.laser)
    ensures var t, p := DoBegin(s, due, landed), ScorePass(o, s, due);
            Agrees(p, t.g.laser) && p.clock == o.clock && p.built == o.built + D.ChunkOf(t.pc)
  {
    assert o.built + [] == o.built;
    if s.g.failed {
      FaultIs(s, landed);
      D.FaultDither(s, landed);
      hide Agrees, PadFault;
      Unlit(o, s.g.laser, o.(fire := o.fire && !s.g.laser.lastLit), PadFault(s, landed).g.laser);
    } else {
      LiveScored(o, s, due, landed);
    }
  }

  lemma LiveScored(o: Score, s: Sys, due: nat, landed: bool)
    requires SysSane(s) && s.pc == Ready && Agrees(o, s.g.laser) && !s.g.failed
    ensures var t, p := DoBegin(s, due, landed), ScorePass(o, s, due);
            Agrees(p, t.g.laser) && p.clock == o.clock && p.built == o.built + D.ChunkOf(t.pc)
  {
    hide Agrees, ShipTurn, ScoreTurn, FinishStream, PadFault, PadOnly, Backlog, PreloadWait;
    assert o.built + [] == o.built;
    SampleScored(o, s);
    SampledRing(s);
    var u, p := Sampled(s), ScoreSample(o, s);
    hide Sampled, ScoreSample;
    SampleSays(o, s);
    if !s.g.streaming && Backlog(s.g.ring) == 0 {
      EndScored(p, u, landed);
      D.EndQuiet(u, landed);
    } else if !PreloadWait(s.g) {
      TurnScored(p, u, s.gate, due, false);
    }
  }

  lemma SampleSays(o: Score, s: Sys)
    requires SysSane(s)
    ensures var p, u := ScoreSample(o, s), Sampled(s);
            && p.clock == o.clock && p.built == o.built && u.g.laser == GateEdge(s.g.laser, s.gate)
  {
    hide GateEdge;
  }

  lemma WriteScored(o: Score, s: Sys)
    requires SysSane(s) && s.pc.Writing? && Agrees(o, s.g.laser)
    ensures var t, p := DoWriteOk(s), ScoreWrite(o, s);
            Agrees(p, t.g.laser) && p.clock == o.clock && p.built == o.built + D.ChunkOf(t.pc)
  {
    hide Agrees, ShipTurn, ScoreTurn, ChunkTaken, Take, PassEnd;
    var u := s.(g := ChunkTaken(s.g, s.pc.chunk), k := Take(s.k, s.pc.chunk));
    TakenLasers(s.g, s.pc.chunk);
    assert o.built + [] == o.built;
    if u.g.failed || u.g.clearPending {
      PassEnds(u, s.pc.startRun);
    } else {
      TurnScored(o, u, s.pc.gate, s.pc.due, s.pc.startRun || s.pc.first);
    }
  }

  lemma TakenLasers(g: Gf, chunk: seq<Byte>)
    ensures ChunkTaken(g, chunk).laser == g.laser
  {
    hide U32, Wrap, StepsOf;
  }

  lemma FinishScored(o: Score, s: Sys)
    requires SysSane(s) && s.pc.Cleared? && Agrees(o, s.g.laser)
    ensures Agrees(o.(mixed := false), DoFinish(s).g.laser) && DoFinish(s).pc == Ready
  {
    FinishIs(s);
    hide DoFinish, Hears, Norm;
    assert !o.full ==> Hears(o.(mixed := false), DoFinish(s).g.laser) by {
      if !o.full { HearsUnsent(o, s.g.laser, o.(mixed := false), DoFinish(s).g.laser); }
    }
  }

  lemma HearsUnsent(o: Score, l: Laser, p: Score, m: Laser)
    requires Hears(o, l) && p.built == o.built && p.notes == o.notes && !p.mixed && !m.powerSent
    ensures Hears(p, m)
  {
  }

  lemma FinishIs(s: Sys)
    requires SysSane(s) && s.pc.Cleared?
    ensures var l, m := s.g.laser, DoFinish(s).g.laser;
            m == l.(powerSent := false, dith := m.dith) && m.dith.period == l.dith.period && DoFinish(s).pc == Ready
  {
    hide OwedResidue;
  }

  lemma SnapScored(o: Score, s: Sys, landed: bool)
    requires SysSane(s) && Agrees(o, s.g.laser)
    ensures Agrees(o, DoSnap(s, landed).g.laser) && !DoSnap(s, landed).pc.Writing?
  {
    F.SnapDims(s, landed);
    SnapIs(s, landed);
    hide DoSnap, Hears, Norm;
    if !o.full { HearsStill(o, s.g.laser, o, DoSnap(s, landed).g.laser); }
  }

  lemma SnapIs(s: Sys, landed: bool)
    requires SysSane(s)
    ensures var l, m := s.g.laser, DoSnap(s, landed).g.laser;
            m == l.(lastLit := m.lastLit) && !DoSnap(s, landed).pc.Writing?
  {
    hide PadOnly, U32, PadWritten;
  }

  lemma ShipScored(o: Score, s: Sys, h: ShipStep)
    requires SysSane(s) && ShipEnabled(s, h) && Agrees(o, s.g.laser)
    ensures var t, p := ShipNext(s, h), Observe(o, s, ByShipper(h));
            Agrees(p.(clock := o.clock), t.g.laser) && p.built == o.built + D.ChunkOf(t.pc)
  {
    hide Agrees, ScorePass, ScoreWrite, DoBegin, DoWriteOk, DoFinish, DoSnap, StreamClock.Observe;
    assert o.built + [] == o.built;
    if h.Begin? {
      PassScored(o, s, h.due, h.landed);
    } else if h.WriteOk? {
      WriteScored(o, s);
    } else if h.Finish? {
      FinishScored(o, s);
    } else if h.Snap? {
      SnapScored(o, s, h.landed);
    } else {
      hide ShipNext, ShipEnabled;
      F.PlainShip(s, h);
    }
  }

  // ---- the core's steps ----

  /** A command queued behind the others. */
  lemma QueueFollows(o: Score, l: Laser, idx: nat, power: Duty, fire: bool)
    requires Follows(o, l) && |l.lev| <= LEV_N && !Crowded(l, idx)
    ensures Follows(Adds(o, l, idx, power, fire), l.(lev := Enqueue(l.lev, idx, power, fire)))
  {
    EnqueueNorm(l, idx, power, fire);
    NormAppend(o.cmds, Ev(idx, power, fire));
    hide Norm, Put, Enqueue;
  }

  /** The command's index is the engine's. */
  lemma CommandIs(o: Score, s: Sys, power: Duty, fire: bool)
    requires Timed(o.clock, s.g.ring, s.g.streaming)
    ensures var idx := if Late(s.g) then s.g.ring.shipped else TickNow(s.g.ring);
            Commands(o, s, power, fire) ==
            if !s.g.streaming || (Late(s.g) && s.armed) then o else Adds(o, s.g.laser, idx, power, fire)
  {
    if s.g.streaming { FirstIs(o.clock, s.g.ring); }
    hide Now, TickNow, First, Timed, Adds;
  }

  lemma AddsAgrees(o: Score, l: Laser, k: Laser, idx: nat, power: Duty, fire: bool)
    requires Agrees(o, l) && |l.lev| <= LEV_N && k.lev == l.lev
    ensures Agrees(Adds(o, k, idx, power, fire), l.(lev := Enqueue(l.lev, idx, power, fire)))
  {
    var p := Adds(o, k, idx, power, fire);
    assert p == Adds(o, l, idx, power, fire);
    hide Follows, Hears, Enqueue, Crowded;
    if !p.full {
      QueueFollows(o, l, idx, power, fire);
      HearsStill(o, l, p, l.(lev := Enqueue(l.lev, idx, power, fire)));
    }
  }

  lemma CommandScored(o: Score, s: Sys, g: Gf, power: Duty, fire: bool)
    requires SysSane(s) && g == s.g.(laser := g.laser) && g.laser.lev == s.g.laser.lev
    requires Timed(o.clock, s.g.ring, s.g.streaming) && Agrees(o, g.laser)
    ensures Agrees(Commands(o, s, power, fire), LaserEvent(g, s.armed, power, fire).laser)
  {
    hide Timed, Agrees, Commands, LaserEvent, Adds, TickNow, Enqueue;
    CommandIs(o, s, power, fire);
    EventIs(g, s.armed, power, fire);
    AddsAgrees(o, g.laser, s.g.laser, if Late(s.g) then s.g.ring.shipped else TickNow(s.g.ring), power, fire);
  }

  lemma RequestScored(o: Score, s: Sys, power: Duty, fire: bool)
    requires SysSane(s) && Scored(o, s)
    ensures Agrees(ScoreCore(o, s, Request(power, fire)), LaserRequest(s.g, s.armed, power, fire).laser)
  {
    hide Follows, Hears, LaserEvent, Commands, Timed;
    if !s.g.failed {
      var g := s.g.(laser := s.g.laser.(wantPower := power, wantFire := fire));
      var p := o.(wantPower := power, wantFire := fire);
      WantsOnly(o, s.g.laser, p, g.laser);
      CommandScored(p, s, g, power, fire && s.armed && !o.jogging);
    }
  }

  lemma WantsOnly(o: Score, l: Laser, p: Score, m: Laser)
    requires Agrees(o, l) && Wants(p, m)
    requires p == o.(wantPower := p.wantPower, wantFire := p.wantFire, jogging := p.jogging)
    requires m == l.(wantPower := m.wantPower, wantFire := m.wantFire, jogging := m.jogging)
    ensures Agrees(p, m)
  {
    hide Norm, AllSound, DutyAfter, Heard;
  }

  lemma JogScored(o: Score, s: Sys, jog: bool)
    requires SysSane(s) && Scored(o, s)
    ensures Agrees(ScoreCore(o, s, SetJog(jog)), Jog(s.g, s.armed, jog).laser)
  {
    hide Follows, Hears, LaserEvent, Commands, Timed;
    if !s.g.failed {
      var g := s.g.(laser := s.g.laser.(jogging := jog));
      var p := o.(jogging := jog);
      WantsOnly(o, s.g.laser, p, g.laser);
      CommandScored(p, s, g, o.wantPower, o.wantFire && s.armed && !jog);
    }
  }

  lemma ModelScored(o: Score, s: Sys, d: Dither)
    requires SysSane(s) && Agrees(o, s.g.laser)
    ensures Agrees(ScoreCore(o, s, SetModel(d)), LaserModel(s.g, d).laser)
  {
    hide Norm, AllSound, DutyAfter, Heard;
  }

  lemma SleepScored(o: Score, s: Sys, reset: bool)
    requires SysSane(s) && Scored(o, s)
    ensures Agrees(ScoreCore(o, s, Sleep(reset)), GoIdle(s.g, reset, s.pend).laser)
  {
    var l, r := s.g.laser, s.g.ring;
    var idx := if r.produced > r.shipped then r.produced else r.shipped;
    SleepLaser(s.g, reset, s.pend);
    hide GoIdle, Hears, Norm, EnqueueOff;
    if s.g.streaming {
      assert Ends(o, s).full || o.full || OffFits(l, idx);
      if !Ends(o, s).full { OffFollows(o, s, idx); }
    }
  }

  predicate OffFits(l: Laser, idx: nat) { |l.lev| >= LEV_N ==> l.lev[|l.lev| - 1].idx >= idx }

  lemma OffFollows(o: Score, s: Sys, idx: nat)
    requires SysSane(s) && Scored(o, s) && !o.full && OffFits(s.g.laser, idx)
    requires idx == if s.g.ring.produced > s.g.ring.shipped then s.g.ring.produced else s.g.ring.shipped
    ensures var l, p := s.g.laser, Ends(o, s); var m := l.(lev := EnqueueOff(l, idx)); Follows(p, m) && Hears(p, m)
  {
    var l, p := s.g.laser, Ends(o, s);
    var m := l.(lev := EnqueueOff(l, idx));
    SameEnds(o, l);
    hide Norm, Hears, Put;
    if l.curFire || l.lev != [] {
      OffNorm(l, idx);
      NormAppend(o.cmds, Ev(idx, if o.cmds != [] then o.cmds[|o.cmds| - 1].power else o.power, false));
      hide EnqueueOff;
    }
    HearsStill(o, l, p, m);
  }

  /** The two lists are empty together, and end in the same command. */
  lemma SameEnds(o: Score, l: Laser)
    requires Norm(o.cmds) == Norm(l.lev)
    ensures o.cmds == [] <==> l.lev == []
    ensures l.lev != [] ==> o.cmds[|o.cmds| - 1].power == l.lev[|l.lev| - 1].power
  {
    var q := Norm(l.lev);
    hide Norm;
  }

  lemma SleepLaser(g: Gf, reset: bool, v: Vec)
    requires Sane(g)
    ensures var idx := if g.ring.produced > g.ring.shipped then g.ring.produced else g.ring.shipped;
            GoIdle(g, reset, v).laser == if g.streaming then g.laser.(lev := EnqueueOff(g.laser, idx)) else g.laser
  {
    hide EnqueueOff;
  }

  lemma ResetScored(o: Score, s: Sys)
    requires SysSane(s) && Agrees(o, s.g.laser)
    ensures Agrees(ScoreCore(o, s, DoReset), Reset(s.g).laser)
  {
    ResetLaser(s.g);
    D.ResetDither(s.g);
    hide Reset, Hears, Restart;
    var l, m, p := s.g.laser, Reset(s.g).laser, ScoreCore(o, s, DoReset);
    if !o.full {
      if m.powerSent || !(s.g.streaming || s.g.killed || s.g.failed) {
        HearsStill(o, l, p, m);
      } else {
        HearsUnsent(o, l, p, m);
      }
    }
  }

  lemma ResetLaser(g: Gf)
    requires Sane(g)
    ensures var l, m := g.laser, Reset(g).laser;
            m == if g.streaming || g.killed || g.failed
                 then l.(lev := [], curFire := false, wantFire := false, powerSent := false,
                         lastLit := m.lastLit, dith := m.dith)
                 else l.(lastLit := m.lastLit)
  {
    hide Drop, Wrap, Restart;
  }

  /** Where a wakeup's stream starts. */
  function WakeAt(g: Gf, dueNow: nat): nat {
    if !g.kernelRunning then g.depth else if dueNow > g.ring.produced then dueNow else g.ring.produced
  }

  /** What it keeps of the laser's state. */
  function WakeKeeps(l: Laser, running: bool, gap: bool): Laser {
    if !running then l.(lev := [], curFire := false) else if gap then l.(curFire := false) else l
  }

  lemma WakeScored(o: Score, s: Sys, dueNow: nat)
    requires SysSane(s) && Scored(o, s)
    ensures Agrees(ScoreCore(o, s, Wake(dueNow)), Wakeup(s.g, s.armed, dueNow).laser)
  {
    hide Wakeup, Wakes;
    if !s.g.failed && !s.g.streaming {
      OpenScored(o, s, dueNow);
    } else {
      NoWake(s.g, s.armed, dueNow);
    }
  }

  lemma NoWake(g: Gf, armed: bool, dueNow: nat)
    requires Sane(g) && (g.failed || g.streaming)
    ensures Wakeup(g, armed, dueNow).laser == g.laser
  {
  }

  lemma OpenScored(o: Score, s: Sys, dueNow: nat)
    requires SysSane(s) && Scored(o, s) && !s.g.failed && !s.g.streaming
    ensures Agrees(Wakes(o, s, dueNow), Wakeup(s.g, s.armed, dueNow).laser)
  {
    hide Wakeup, Reassert, Agrees, Timed, Darks, Wishes, WakeKeeps, WakeAt, Starts;
    var running, gap := s.g.kernelRunning, dueNow > s.g.ring.produced;
    StartsAt(o.clock, s, dueNow);
    WakeLaser(s.g, s.armed, dueNow);
    WakeDarkens(o, s.g.laser, running, gap);
    KeepsRoom(s.g.laser, running, gap);
    ReassertScored(Darks(o, running, gap), WakeKeeps(s.g.laser, running, gap), WakeAt(s.g, dueNow), s.armed);
  }

  lemma KeepsRoom(l: Laser, running: bool, gap: bool)
    ensures |WakeKeeps(l, running, gap).lev| < LEV_N <==> !running || |l.lev| < LEV_N
    ensures |WakeKeeps(l, running, gap).lev| <= |l.lev|
  {
  }

  lemma StartsAt(c: Clock, s: Sys, dueNow: nat)
    requires Timed(c, s.g.ring, s.g.streaming)
    ensures Starts(c, s, dueNow).base == WakeAt(s.g, dueNow) && c.next == s.g.ring.produced
  {
  }

  lemma WakeDarkens(o: Score, l: Laser, running: bool, gap: bool)
    requires Agrees(o, l)
    ensures Agrees(Darks(o, running, gap), WakeKeeps(l, running, gap))
  {
    NormNone([]);
    hide Norm, Hears;
    DarkScored(o, l, Darks(o, running, gap), WakeKeeps(l, running, gap));
  }

  lemma DarkScored(o: Score, l: Laser, p: Score, m: Laser)
    requires Agrees(o, l) && p == o.(cmds := p.cmds, fire := p.fire) && m == l.(lev := m.lev, curFire := m.curFire)
    requires !o.full ==> p.fire == m.curFire && Norm(p.cmds) == Norm(m.lev)
    ensures Agrees(p, m)
  {
    hide Norm, AllSound, DutyAfter, Heard;
  }

  lemma ReassertScored(o: Score, l: Laser, at: nat, armed: bool)
    requires |l.lev| <= LEV_N && Agrees(o, l)
    ensures Agrees(Wishes(o, |l.lev| < LEV_N, at, armed), Reassert(l, at, armed))
  {
    var e := Ev(at, o.wantPower, o.wantFire && armed && !o.jogging);
    hide Hears, Norm;
    SameForce(o, l);
    if |l.lev| < LEV_N { AppendAgrees(o, l, e); }
    FullAgrees(o, l);
    WasFull(o, l, at, armed);
    assert Wants(o, l);
    hide Agrees;
  }

  lemma SameForce(o: Score, l: Laser)
    requires Agrees(o, l)
    ensures !o.full ==> o.power == l.curPower && o.fire == l.curFire
  {
  }

  lemma AppendAgrees(o: Score, l: Laser, e: Ev)
    requires Agrees(o, l)
    ensures Agrees(o.(cmds := o.cmds + [e]), l.(lev := l.lev + [e]))
  {
    NormAppend(o.cmds, e);
    NormAppend(l.lev, e);
    hide Norm, Put, AllSound, DutyAfter, Heard;
  }

  lemma FullAgrees(o: Score, l: Laser)
    requires Agrees(o, l)
    ensures Agrees(o.(full := true), l)
  {
    hide Norm, Hears;
  }

  /** Past a full queue only the wants are followed. */
  lemma WasFull(o: Score, l: Laser, at: nat, armed: bool)
    requires Agrees(o, l) && |l.lev| <= LEV_N
    ensures o.full ==> Agrees(Wishes(o, |l.lev| < LEV_N, at, armed), Reassert(l, at, armed))
  {
    hide Norm, Hears;
  }

  lemma WakeLaser(g: Gf, armed: bool, dueNow: nat)
    requires Sane(g) && !g.failed && !g.streaming
    ensures Wakeup(g, armed, dueNow).laser ==
            Reassert(WakeKeeps(g.laser, g.kernelRunning, dueNow > g.ring.produced), WakeAt(g, dueNow), armed)
  {
    hide Reassert;
  }

  lemma QuietScored(s: Sys, c: CoreStep)
    requires SysSane(s) && CoreEnabled(s, c)
    requires !c.Request? && !c.SetJog? && !c.SetModel? && !c.Wake? && !c.Sleep? && !c.DoReset?
    ensures CoreNext(s, c).g.laser == s.g.laser
  {
    hide Pulse, NoStepsLeft, Signed, U32;
    match c {
      case Count(_) =>
      case Output =>
      case Advance(_) =>
      case SetArmed(_) =>
      case SetGate(_) =>
      case DoReadback =>
      case ZeroPosition(_) =>
      case Fault =>
    }
  }

  lemma CoreScored(o: Score, s: Sys, c: CoreStep)
    requires SysSane(s) && CoreEnabled(s, c) && Scored(o, s)
    ensures Agrees(ScoreCore(o, s, c), CoreNext(s, c).g.laser)
  {
    if c.Request? || c.SetJog? || c.SetModel? || c.Wake? || c.Sleep? || c.DoReset? {
      LoudScored(o, s, c);
    } else {
      QuietScored(s, c);
      hide CoreNext, CoreEnabled, Agrees;
    }
  }

  lemma LoudScored(o: Score, s: Sys, c: CoreStep)
    requires SysSane(s) && CoreEnabled(s, c) && Scored(o, s)
    requires c.Request? || c.SetJog? || c.SetModel? || c.Wake? || c.Sleep? || c.DoReset?
    ensures Agrees(ScoreCore(o, s, c), CoreNext(s, c).g.laser)
  {
    hide LaserRequest, Jog, LaserModel, Wakeup, GoIdle, Reset, NoStepsLeft, Agrees, Timed;
    assert Agrees(o, s.g.laser);
    match c {
      case Request(power, fire) => RequestScored(o, s, power, fire);
      case SetJog(jog) => JogScored(o, s, jog);
      case SetModel(d) => ModelScored(o, s, d);
      case Wake(dueNow) => WakeScored(o, s, dueNow);
      case Sleep(reset) => SleepScored(o, s, reset);
      case DoReset => ResetScored(o, s);
    }
    hide ScoreCore;
  }

  lemma StepScored(o: Score, s: Sys, a: Step)
    requires SysSane(s) && Enabled(s, a) && Scored(o, s)
    ensures Scored(Observe(o, s, a), Next(s, a)) && Observe(o, s, a).built == o.built + D.Made(s, a)
  {
    StepTimed(o.clock, s, a);
    assert o.built + [] == o.built;
    hide Timed, Agrees, CoreNext, ShipNext, KernelNext, CoreEnabled, ShipEnabled, KernelEnabled;
    hide ScoreCore, StreamClock.Observe;
    match a {
      case ByCore(c) =>
        CoreScored(o, s, c);
        Reclocked(ScoreCore(o, s, c), Observe(o, s, a), CoreNext(s, c).g.laser);
      case ByShipper(h) =>
        ShipScored(o, s, h);
        Reclocked(Observe(o, s, a).(clock := o.clock), Observe(o, s, a), ShipNext(s, h).g.laser);
      case ByKernel(e) => Reclocked(o, Observe(o, s, a), KernelNext(s, e).g.laser);
    }
  }

  lemma Reclocked(o: Score, p: Score, l: Laser)
    requires Agrees(o, l) && p == o.(clock := p.clock)
    ensures Agrees(p, l)
  {
    hide Norm, AllSound, DutyAfter, Heard;
  }

  // ---- whole runs ----

  ghost function Watched(o: Score, s: Sys, steps: seq<Step>): Score
    requires SysSane(s) && IsRun(s, steps)
    decreases |steps|
  {
    if steps == [] then o else Watched(Observe(o, s, steps[0]), Next(s, steps[0]), steps[1..])
  }

  lemma {:induction false} RunScored(o: Score, s: Sys, steps: seq<Step>)
    requires SysSane(s) && IsRun(s, steps) && Scored(o, s)
    ensures Scored(Watched(o, s, steps), Final(s, steps))
    ensures Watched(o, s, steps).built == o.built + D.Built(s, steps)
    decreases |steps|
  {
    hide Scored, Observe, Next, Enabled, D.Made;
    if steps != [] {
      StepScored(o, s, steps[0]);
      RunScored(Observe(o, s, steps[0]), Next(s, steps[0]), steps[1..]);
    } else {
      assert o.built + [] == o.built;
    }
  }

  /** The score of a start: nothing commanded. */
  function Opened(s: Sys): Score {
    var l := s.g.laser;
    Score(Started(s), l.wantPower, l.wantFire, l.jogging, [], l.curPower, l.curFire, false, false, [], [])
  }

  lemma Opens(s: Sys)
    requires Initial(s)
    ensures Scored(Opened(s), s)
  {
    hide Norm;
  }

  /** The laser plays the core's program, over every run. Unless a command has met a full
      queue, every tick built sounds as the program says: in the analog model at the power
      of the last command it has reached, and lit exactly where that command asks for fire
      and the gate is open; in the density model at full duty, and lit only there. What
      the core wants, and the commands still ahead, are what the engine holds. */
  lemma LaserPlaysTheProgram(s: Sys, steps: seq<Step>)
    requires Initial(s) && IsRun(s, steps)
    ensures var o, l := Watched(Opened(s), s, steps), Final(s, steps).g.laser;
            && o.built == D.Built(s, steps) && Wants(o, l)
            && (!o.full ==> AllSound(Heard(0, o.built), o.notes) && Follows(o, l))
  {
    Opens(s);
    RunScored(Opened(s), s, steps);
    hide IsRun, Final, Watched, D.Built, Initial, Wants, Follows, AllSound;
    assert [] + D.Built(s, steps) == D.Built(s, steps);
  }

  /** A tick that has reached every command plays the last one, whatever came before. */
  lemma LastCommandPlays(o: Score, x: nat, gate: bool, analog: bool, bytes: seq<Byte>)
    requires o.cmds != [] && forall i :: 0 <= i < |o.cmds| ==> o.cmds[i].idx <= x
    ensures var p, e := Reads(o, x, gate, analog, bytes), o.cmds[|o.cmds| - 1];
            p.cmds == [] && p.notes == o.notes + [Note(e.power, e.fire, gate, analog, !o.mixed)]
  {
    DueIs(o.cmds, x, |o.cmds|);
    hide Due;
  }
}
