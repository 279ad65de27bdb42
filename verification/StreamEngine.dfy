/** The stream engine's record and its operations (src/stepper_stream.c), one
    function per region under gf.lock. Atomics the regions sample (the armed
    window, the fire gate) and wall time (the due index) come in as arguments. */
module StreamEngine {
  import opened PulseBytes
  import opened DitherModel
  import opened StreamRing
  import opened LaserQueue

  /** The position read-back a reset owes. */
  datatype Readback = RbNone | RbWait | RbDone | RbLost

  datatype Gf = Gf(
    ring: Ring, laser: Laser, depth: nat,
    streaming: bool, kernelRunning: bool, clearPending: bool, killed: bool, killStep: Vec, failed: bool,
    written: u32, runBase: u32,
    steps: Vec, baseSteps: Vec, baseCounts: Vec, baseValid: bool, zeros: nat,
    readback: Readback, unplayed: Vec)

  predicate Sane(g: Gf) {
    Sized(g.ring) && |g.laser.lev| <= LEV_N
  }

  // ---- producer and protocol thread ----

  predicate Late(g: Gf) { TickNow(g.ring) < g.ring.shipped }

  /** A step event mapped onto the grid. Late inside an armed window, or past the
      ring, it faults the stream instead. */
  function Pulse(g: Gf, armed: bool, v: Vec): (r: Gf)
    requires Sane(g)
    ensures Sane(r) && r == g.(ring := r.ring, failed := r.failed)
  {
    if g.failed || v == ZERO || !g.streaming then g
    else if (Late(g) && armed) || Overflows(g.ring) then g.(failed := true)
    else g.(ring := Store(g.ring, v))
  }

  function LaserEvent(g: Gf, armed: bool, power: Duty, fire: bool): (r: Gf)
    requires Sane(g)
    ensures Sane(r) && r.ring == g.ring && r == g.(laser := r.laser, failed := r.failed)
  {
    if !g.streaming then g
    else if Late(g) && armed then g.(failed := true)
    else
      var idx := if Late(g) then g.ring.shipped else TickNow(g.ring);
      g.(laser := g.laser.(lev := Enqueue(g.laser.lev, idx, power, fire)))
  }

  /** The core's power and fire request. */
  function LaserRequest(g: Gf, armed: bool, power: Duty, fire: bool): (r: Gf)
    requires Sane(g)
    ensures Sane(r) && r.ring == g.ring && r == g.(laser := r.laser, failed := r.failed)
  {
    if g.failed then g
    else
      LaserEvent(g.(laser := g.laser.(wantPower := power, wantFire := fire)),
                 armed, power, fire && armed && !g.laser.jogging)
  }

  /** The core enters or leaves a jog: fire is masked, then re-asserted. */
  function Jog(g: Gf, armed: bool, jog: bool): (r: Gf)
    requires Sane(g)
    ensures Sane(r) && r.ring == g.ring && r == g.(laser := r.laser, failed := r.failed)
  {
    if g.failed then g
    else
      LaserEvent(g.(laser := g.laser.(jogging := jog)), armed,
                 g.laser.wantPower, g.laser.wantFire && armed && !jog)
  }

  /** Selects the dose model; a change between the two leads the next run dark. */
  function LaserModel(g: Gf, d: Dither): (r: Gf)
    ensures Sane(g) ==> Sane(r)
  {
    var power: Duty := if (g.laser.dith.period != 0) != (d.period != 0) then 0 else g.laser.curPower;
    g.(laser := g.laser.(curPower := power, dith := d))
  }

  /** The wanted laser state re-asserted at a stream's first byte. */
  function Reassert(l: Laser, base: nat, armed: bool): (r: Laser)
    requires |l.lev| <= LEV_N
    ensures |r.lev| <= LEV_N
  {
    var fire := l.wantFire && armed && !l.jogging;
    if (l.wantPower != l.curPower || fire != l.curFire) && |l.lev| < LEV_N
    then l.(lev := l.lev + [Ev(base, l.wantPower, fire)])
    else l
  }

  function Wakeup(g: Gf, armed: bool, dueNow: nat): (r: Gf)
    requires Sane(g)
    ensures Sane(r)
    ensures r == g.(ring := r.ring, laser := r.laser, streaming := r.streaming, killed := r.killed, killStep := r.killStep)
  {
    if g.failed then g
    else
      var h := g.(killed := false, killStep := ZERO);
      if h.streaming then h
      else if !h.kernelRunning then
        var l := h.laser.(lev := [], curFire := false);
        h.(streaming := true, ring := Fresh(h.ring, h.depth), laser := Reassert(l, h.depth, armed))
      else
        var r := Continue(h.ring, dueNow);
        var l := if dueNow > h.ring.produced then h.laser.(curFire := false) else h.laser;
        h.(streaming := true, ring := r, laser := Reassert(l, r.base, armed))
  }

  /** The core goes idle; under a reset the stream is marked and owes the step v
      that was counted and never output. */
  function GoIdle(g: Gf, reset: bool, v: Vec): (r: Gf)
    requires Sane(g)
    ensures Sane(r) && r.ring == g.ring
    ensures r == g.(laser := r.laser, streaming := r.streaming, killed := r.killed, killStep := r.killStep)
  {
    var h := if !reset then g
             else g.(killed := true,
                     killStep := if g.streaming then v else if g.killed then g.killStep else ZERO);
    if !h.streaming then h
    else
      var idx := if h.ring.produced > h.ring.shipped then h.ring.produced else h.ring.shipped;
      h.(streaming := false, laser := h.laser.(lev := EnqueueOff(h.laser, idx)))
  }

  function DarkStop(l: Laser): Laser {
    l.(lev := [], curFire := false, wantFire := false, powerSent := false, dith := Restart(l.dith))
  }

  /** The first half of a reset: a live or marked stream ends, its backlog drops,
      and a marked one owes the read-back. */
  function ResetStream(g: Gf): (r: Gf)
    requires Sane(g)
    ensures Sane(r) && r.written == g.written && r.runBase == g.runBase
  {
    var h := g.(killed := false, readback := RbNone);
    if !(g.streaming || g.killed) then h
    else
      var (ring, backlog) := Drop(g.ring);
      var dropped := Wrap(Plus(if g.killed then g.killStep else ZERO, backlog));
      var stop := g.killed || g.kernelRunning;
      h.(ring := ring, streaming := false,
         laser := DarkStop(g.laser).(lastLit := stop && g.laser.lastLit),
         kernelRunning := if stop then false else g.kernelRunning,
         clearPending := g.clearPending || stop,
         unplayed := if g.killed && !g.failed then dropped else g.unplayed,
         readback := if g.killed && !g.failed then (if g.baseValid then RbWait else RbLost) else RbNone)
  }

  /** The second half: a stream fault is acknowledged and everything unshipped
      drops. */
  function ResetFault(g: Gf): (r: Gf)
    requires Sane(g)
    ensures Sane(r) && r.written == g.written && r.runBase == g.runBase
  {
    g.(failed := false, kernelRunning := false, clearPending := true, ring := Drop(g.ring).0,
       streaming := false, laser := DarkStop(g.laser))
  }

  /** A soft reset. Only a pad already owed survives it as a lit last byte. */
  function Reset(g: Gf): (r: Gf)
    requires Sane(g)
    ensures Sane(r) && r.written == g.written && r.runBase == g.runBase
  {
    var h := ResetStream(g);
    var h := h.(laser := h.laser.(lastLit := (g.streaming || g.killed) && h.laser.lastLit));
    if g.failed then ResetFault(h) else h
  }

  /** The read-back taken, once: 1 with the steps, 0 with nothing owed, else -1. */
  function TakeReadback(g: Gf): (Gf, int, Vec) {
    (g.(readback := RbNone),
     if g.readback.RbNone? then 0 else if g.readback.RbDone? then 1 else -1,
     Vec(Signed(U32(g.unplayed.x)), Signed(U32(g.unplayed.y)), Signed(U32(g.unplayed.z))))
  }

  function Rebase(g: Gf, counts: Vec): Gf {
    g.(baseSteps := g.steps, baseCounts := counts, baseValid := true)
  }

  /** The kernel's counters zeroed (a home): a new base, or none. */
  function ClearPosition(g: Gf, ok: bool): (r: Gf)
    ensures Sane(g) ==> Sane(r)
  {
    var h := g.(zeros := g.zeros + 1);
    if ok then Rebase(h, ZERO) else h.(baseValid := false)
  }

  // ---- shipper ----

  /** A pad is due behind a lit last byte of a stream that a reset ended. */
  predicate PadDue(g: Gf) { g.clearPending && g.laser.lastLit }

  /** A pad written (or not): it is counted only when it landed. */
  function Padded(g: Gf, landed: bool): (r: Gf)
    ensures Sane(g) ==> Sane(r)
    ensures r == g.(laser := r.laser, written := r.written)
  {
    g.(laser := g.laser.(lastLit := false), written := if landed then U32(g.written + 1) else g.written)
  }

  /** The residue a clear removed joins the backlog a reset owes; a base or a
      counter that cannot be trusted loses the read-back. */
  function OwedResidue(g: Gf, usable: bool, counts: Vec): (r: Gf)
    ensures r == g.(readback := r.readback, unplayed := r.unplayed)
  {
    if !g.readback.RbWait? then g
    else if !(usable && g.baseValid) then g.(readback := RbLost)
    else
      var owed := Minus(Minus(g.steps, g.baseSteps), Minus(counts, g.baseCounts));
      g.(readback := RbDone, unplayed := Wrap(Plus(g.unplayed, owed)))
  }

  /** The residue clear's second region: the read-back, then the base moves to the
      emptied ring. A counter zero since the snapshot took its own base. */
  function FinishClear(g: Gf, cleared: bool, counted: bool, counts: Vec, zeros: nat): (r: Gf)
    ensures (Sane(g) ==> Sane(r)) && r.ring == g.ring
  {
    var stale := g.zeros != zeros;
    var h := OwedResidue(g, counted && !stale, counts);
    var h := if stale then h else if counted then Rebase(h, counts) else h.(baseValid := false);
    h.(written := if cleared then 0 else h.written, clearPending := false, kernelRunning := false,
       laser := h.laser.(powerSent := false, dith := Restart(h.laser.dith)))
  }

  /** A stream that shipped out ends: the pad, then the run is the kernel's to
      drain. */
  function EndStream(g: Gf, landed: bool): (r: Gf)
    ensures Sane(g) ==> Sane(r)
    ensures r == g.(ring := r.ring, laser := r.laser, written := r.written, kernelRunning := r.kernelRunning)
  {
    if !g.kernelRunning then g
    else
      var h := if !g.laser.lastLit then g
               else
                 var n := g.ring.shipped + 1;
                 Padded(g, landed).(ring := g.ring.(shipped := n, produced := n),
                                    laser := g.laser.(curFire := false, lastLit := false));
      h.(kernelRunning := false, laser := h.laser.(powerSent := false, dith := Restart(h.laser.dith)))
  }

  /** The next chunk built, its bytes the kernel's from here on. */
  function TakeChunk(g: Gf, gate: bool, due: nat): (r: (Gf, seq<Byte>))
    requires Sane(g)
    ensures Sane(r.0)
  {
    var b := BuildChunk(Build(g.laser, g.ring, []), gate, due, g.streaming);
    (g.(laser := b.l, ring := b.r, kernelRunning := true,
        runBase := if g.kernelRunning then g.runBase else g.written),
     b.bytes)
  }

  /** The chunk's write completed: the ring took it. */
  function ChunkTaken(g: Gf, chunk: seq<Byte>): (r: Gf)
    ensures Sane(g) ==> Sane(r)
  {
    g.(written := U32(g.written + |chunk|), steps := Wrap(Plus(g.steps, StepsOf(chunk))))
  }

  /** The chunk's write failed, part of it landed uncounted. */
  function ChunkLost(g: Gf): (r: Gf)
    ensures Sane(g) ==> Sane(r)
  {
    g.(failed := true, baseValid := false,
       readback := if g.readback.RbWait? then RbLost else g.readback)
  }

  /** A fresh stream plays from its first byte at the power and fire the core wants,
      fire only inside an armed window and outside a jog, whatever the last stream
      left behind. */
  lemma FreshWakeReasserts(g: Gf, armed: bool, dueNow: nat)
    requires Sane(g) && !g.failed && !g.streaming && !g.kernelRunning
    ensures var h := Wakeup(g, armed, dueNow);
            var d := Drain(h.laser.lev, h.ring.base, h.laser.curFire, h.laser.curPower, false);
            && h.streaming && h.ring.shipped == 0 && h.ring.base == g.depth
            && d.lev == [] && d.power == g.laser.wantPower
            && d.fire == (g.laser.wantFire && armed && !g.laser.jogging)
  {
    var h := Wakeup(g, armed, dueNow);
    DrainedOut(h.laser.lev, h.ring.base, h.laser.curFire, h.laser.curPower, false);
    hide Drain;
  }

  lemma EventIs(g: Gf, armed: bool, power: Duty, fire: bool)
    requires Sane(g)
    ensures var idx := if Late(g) then g.ring.shipped else TickNow(g.ring); var l := g.laser;
            LaserEvent(g, armed, power, fire) ==
            if !g.streaming then g
            else if Late(g) && armed then g.(failed := true)
            else g.(laser := l.(lev := Enqueue(l.lev, idx, power, fire)))
  {
    hide Late, TickNow, Enqueue;
  }

  /** Where a command given now is queued. */
  function CommandAt(g: Gf): nat { if Late(g) then g.ring.shipped else TickNow(g.ring) }

  predicate TakesCommands(g: Gf, armed: bool) { !g.failed && g.streaming && !(Late(g) && armed) }

  /** What draining the queue at index at leaves. */
  function Left(l: Laser, at: nat): Drained { Drain(l.lev, at, l.curFire, l.curPower, false) }

  lemma CommandDrains(l: Laser, at: nat, power: Duty, fire: bool)
    requires |l.lev| <= LEV_N && AllReached(l.lev, at)
    ensures var d := Left(l.(lev := Enqueue(l.lev, at, power, fire)), at);
            d.lev == [] && d.power == power && d.fire == fire
  {
    hide Drain, Enqueue, AllReached;
    LastRequestWins(l.lev, at, power, fire, at, l.curFire, l.curPower);
  }

  /** A request the stream accepts: the wants are the request's, and at its index, where
      nothing older is still ahead, the queue leaves exactly the power asked for, and
      fire exactly when it was asked for armed and outside a jog. */
  lemma RequestReaches(g: Gf, armed: bool, power: Duty, fire: bool)
    requires Sane(g) && TakesCommands(g, armed) && AllReached(g.laser.lev, CommandAt(g))
    ensures var h := LaserRequest(g, armed, power, fire); var d := Left(h.laser, CommandAt(g));
            && !h.failed && h.laser.wantPower == power && h.laser.wantFire == fire
            && d.lev == [] && d.power == power && d.fire == (fire && armed && !g.laser.jogging)
  {
    hide LaserRequest, CommandAt, Left, Enqueue, AllReached;
    RequestQueues(g, armed, power, fire);
    CommandDrains(g.laser.(wantPower := power, wantFire := fire), CommandAt(g), power, fire && armed && !g.laser.jogging);
  }

  lemma RequestQueues(g: Gf, armed: bool, power: Duty, fire: bool)
    requires Sane(g) && TakesCommands(g, armed)
    ensures var l := g.laser; var lev := Enqueue(l.lev, CommandAt(g), power, fire && armed && !l.jogging);
            LaserRequest(g, armed, power, fire) == g.(laser := l.(wantPower := power, wantFire := fire, lev := lev))
  {
    hide Enqueue, TickNow;
  }

  /** The same of a jog entered or left: the wants stay, and the fire wanted is masked,
      or comes back. */
  lemma JogReaches(g: Gf, armed: bool, jog: bool)
    requires Sane(g) && TakesCommands(g, armed) && AllReached(g.laser.lev, CommandAt(g))
    ensures var l, h := g.laser, Jog(g, armed, jog); var d := Left(h.laser, CommandAt(g));
            && !h.failed && h.laser.wantPower == l.wantPower && h.laser.wantFire == l.wantFire && h.laser.jogging == jog
            && d.lev == [] && d.power == l.wantPower && d.fire == (l.wantFire && armed && !jog)
  {
    hide Jog, CommandAt, Left, Enqueue, AllReached;
    JogQueues(g, armed, jog);
    CommandDrains(g.laser.(jogging := jog), CommandAt(g), g.laser.wantPower, g.laser.wantFire && armed && !jog);
  }

  lemma JogQueues(g: Gf, armed: bool, jog: bool)
    requires Sane(g) && TakesCommands(g, armed)
    ensures var l := g.laser; var lev := Enqueue(l.lev, CommandAt(g), l.wantPower, l.wantFire && armed && !jog);
            Jog(g, armed, jog) == g.(laser := l.(jogging := jog, lev := lev))
  {
    hide Enqueue, TickNow;
  }

  /** What a continued stream is to play from its first index: the wanted power, and the
      wanted fire inside an armed window and outside a jog. */
  predicate Reasserted(g: Gf, armed: bool, h: Gf) {
    var d := Drain(h.laser.lev, h.ring.base, h.laser.curFire, h.laser.curPower, false);
    d.power == g.laser.wantPower && d.fire == (g.laser.wantFire && armed && !g.laser.jogging)
  }

  /** The wakeup leaves the wants unsaid: they are in force already, behind a gap dark, or
      the queue is full. */
  predicate Unsaid(g: Gf, armed: bool, dueNow: nat) {
    var l := g.laser;
    || |l.lev| >= LEV_N
    || (l.wantPower == l.curPower
        && (l.wantFire && armed && !l.jogging) == (l.curFire && dueNow <= g.ring.produced))
  }

  /** The newest transition still queued says something else. */
  predicate SaysElse(g: Gf, armed: bool) {
    var l, n := g.laser, |g.laser.lev|;
    n > 0 && !(l.lev[n - 1].power == l.wantPower && l.lev[n - 1].fire == (l.wantFire && armed && !l.jogging))
  }

  /** A stream continued while the kernel plays, with nothing queued past its first index,
      plays the wants from there unless the wakeup leaves them unsaid while a queued
      transition, the last cycle's laser-off among them, says something else. */
  lemma ContinueReasserts(g: Gf, armed: bool, dueNow: nat)
    requires Sane(g) && !g.failed && !g.streaming && g.kernelRunning
    requires AllReached(g.laser.lev, Wakeup(g, armed, dueNow).ring.base)
    ensures var h := Wakeup(g, armed, dueNow);
            && h.streaming && h.ring.base == (if dueNow > g.ring.produced then dueNow else g.ring.produced)
            && (Reasserted(g, armed, h) <==> !(Unsaid(g, armed, dueNow) && SaysElse(g, armed)))
  {
    var base := if dueNow > g.ring.produced then dueNow else g.ring.produced;
    var kept := if dueNow > g.ring.produced then g.laser.(curFire := false) else g.laser;
    ContinuedLaser(g, armed, dueNow);
    hide Wakeup, Reassert, Drain, AllReached;
    ReassertSays(kept, base, armed);
  }

  lemma ContinuedLaser(g: Gf, armed: bool, dueNow: nat)
    requires Sane(g) && !g.failed && !g.streaming && g.kernelRunning
    ensures var h := Wakeup(g, armed, dueNow);
            var base := if dueNow > g.ring.produced then dueNow else g.ring.produced;
            var kept := if dueNow > g.ring.produced then g.laser.(curFire := false) else g.laser;
            h.streaming && h.ring.base == base && h.laser == Reassert(kept, base, armed)
  {
    hide Reassert;
  }

  lemma ReassertSays(l: Laser, at: nat, armed: bool)
    requires |l.lev| <= LEV_N && AllReached(l.lev, at)
    ensures var m, n, fire := Reassert(l, at, armed), |l.lev|, l.wantFire && armed && !l.jogging;
            var d := Drain(m.lev, at, m.curFire, m.curPower, false);
            (d.power == l.wantPower && d.fire == fire) <==>
            !((n >= LEV_N || (l.wantPower == l.curPower && fire == l.curFire))
              && n > 0 && !(l.lev[n - 1].power == l.wantPower && l.lev[n - 1].fire == fire))
  {
    hide Drain;
    var m := Reassert(l, at, armed);
    assert AllReached(m.lev, at);
    DrainedOut(m.lev, at, m.curFire, m.curPower, false);
    hide AllReached;
  }
}
