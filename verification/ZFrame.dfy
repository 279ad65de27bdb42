/** The Z frame (src/glowforge_homing.c, src/glowforge_tray.c): the lens position in
    whole half-steps, its envelope, the anchor an outside reader adds the kernel
    counter to, and the tray mode that shifts them all. */
module ZFrame {

  const WINDOW_MAX := 40

  /** position and home are sys.position and sys.home_position for Z, envMin and
      envMax the reference's envelope, workMin and workMax the limit in force; the
      anchor's Z, the axes it carries, and the kernel's Z counter; the tray mode, and
      its shift once that is known. */
  datatype Frame = Frame(
    position: int, home: int, referenced: bool, envMin: int, envMax: int, workMin: int, workMax: int,
    xyHomed: bool, xyLimited: bool, anchorXY: bool, anchorZ: bool, anchor: int, counter: int,
    out: bool, shift: int, known: bool)

  // ---- the step grid ----

  /** Rounds half away from zero. */
  function Lround(x: real): int {
    if x >= 0.0 then (x + 0.5).Floor else -((0.5 - x).Floor)
  }

  /** A Z in millimetres on the step grid, moved by whole half-steps. */
  function GridShift(z: real, delta: int, spm: real): real
    requires spm > 0.0
  {
    (Lround(z * spm) + delta) as real / spm
  }

  /** On the grid the shift is exact: a Z that lies at step n is moved to step
      n + delta, so everything below counts steps. */
  lemma GridShiftExact(z: real, n: int, delta: int, spm: real)
    requires spm > 0.0 && z * spm == n as real
    ensures GridShift(z, delta, spm) * spm == (n + delta) as real
  {
    LroundInt(n);
  }

  /** Off the grid the height is taken to the nearest step first. */
  lemma GridShiftNearest(z: real, delta: int, spm: real)
    requires spm > 0.0
    ensures var n := Lround(z * spm);
            && n as real - 0.5 <= z * spm <= n as real + 0.5 && GridShift(z, delta, spm) * spm == (n + delta) as real
  {
    LroundNearest(z * spm);
  }

  lemma LroundNearest(x: real)
    ensures Lround(x) as real - 0.5 <= x <= Lround(x) as real + 0.5
  {
  }

  lemma LroundInt(n: int)
    ensures Lround(n as real) == n
  {
    FloorHalf(n);
    FloorHalf(-n);
    assert 0.5 - n as real == (-n) as real + 0.5;
  }

  lemma FloorHalf(n: int)
    ensures (n as real + 0.5).Floor == n
  {
  }

  // ---- the operations ----

  /** The limit in force: the reference's envelope, or where an unreferenced lens
      stands. */
  function ApplyLimit(s: Frame): Frame {
    s.(workMin := if s.referenced then s.envMin else s.position,
       workMax := if s.referenced then s.envMax else s.position,
       xyLimited := s.xyLimited || s.xyHomed)
  }

  /** The free travel on one side: the value given, the setting, or the fallback. */
  function LensWindow(given: int, key: int, fallback: int): (w: int)
    requires 1 <= fallback <= WINDOW_MAX
    ensures 1 <= w <= WINDOW_MAX
    ensures 1 <= given <= WINDOW_MAX ==> w == given
    ensures !(1 <= given <= WINDOW_MAX) && 1 <= key <= WINDOW_MAX ==> w == key
    ensures !(1 <= given <= WINDOW_MAX) && !(1 <= key <= WINDOW_MAX) ==> w == fallback
  {
    if 1 <= given <= WINDOW_MAX then given else if 1 <= key <= WINDOW_MAX then key else fallback
  }

  /** The shift of the mode in force; offset is what the setting says now, read only
      while a tray-out shift is not known yet. */
  function ShiftNow(s: Frame, offset: int): int {
    if !s.out then 0 else if s.known then s.shift else offset
  }

  function ShiftRead(s: Frame, offset: int): Frame {
    if s.out && !s.known then s.(shift := offset, known := true) else s
  }

  /** The lens on the hall edge, edge steps above the tray. */
  function ReferenceZ(s: Frame, edge: int, below: int, above: int, offset: int): Frame {
    var at := edge + ShiftNow(s, offset);
    ApplyLimit(ShiftRead(s, offset).(position := at, home := at, referenced := true,
                                     envMin := at - below - 1, envMax := at + above + 1))
  }

  /** The kernel's counters zeroed. */
  function Zeroed(s: Frame): Frame { s.(counter := 0) }

  function AnchorWrite(s: Frame, at: int, xy: bool, z: bool): Frame { s.(anchor := at, anchorXY := xy, anchorZ := z) }

  function StartupReference(s: Frame, edge: int, below: int, above: int, offset: int): Frame {
    var t := ReferenceZ(s, edge, below, above, offset);
    AnchorWrite(Zeroed(t), t.home, false, true)
  }

  function Invalidate(s: Frame): Frame {
    ApplyLimit(s.(anchorXY := false, anchorZ := false, referenced := false, xyHomed := false, xyLimited := false))
  }

  function InvalidateXY(s: Frame): Frame {
    ApplyLimit(s.(anchorXY := false, xyHomed := false, xyLimited := false))
  }

  function Distance(a: int, b: int): nat { if a < b then b - a else a - b }

  /** No number of the range is nearer to the one wanted. */
  ghost predicate Nearest(k: int, want: int, low: int, high: int) {
    forall j :: low <= j <= high ==> Distance(k, want) <= Distance(j, want)
  }

  /** The park a home takes from the edge: the nearest to the one asked for inside the free
      travel. */
  function ParkSteps(edge: int, park: int, below: int, above: int): (k: int)
    requires below >= 0 && above >= 0
    ensures -below <= k <= above
    ensures Nearest(k, park - edge, -below, above)
  {
    var k := park - edge;
    if k < -below then -below else if k > above then above else k
  }

  /** A camera home that succeeded: the lens on the edge, then parked. */
  function CloudHome(s: Frame, edge: int, park: int, below: int, above: int, offset: int): Frame {
    var at := edge + ShiftNow(s, offset);
    var t := ShiftRead(s, offset).(position := at + park, home := at + park, referenced := true,
                                   envMin := at - below - 1, envMax := at + above + 1, xyHomed := true);
    AnchorWrite(Zeroed(ApplyLimit(t)), at + park, true, true)
  }

  /** A manual home: X and Y declared, Z kept as it is. */
  function ManualHome(s: Frame): Frame {
    AnchorWrite(Zeroed(ApplyLimit(s.(xyHomed := true))), s.position, true, s.referenced)
  }

  function Shifted(s: Frame, delta: int): Frame {
    s.(position := s.position + delta, home := s.home + delta,
       envMin := if s.referenced then s.envMin + delta else s.envMin,
       envMax := if s.referenced then s.envMax + delta else s.envMax)
  }

  function TrayShift(s: Frame, delta: int): Frame {
    var t := ApplyLimit(Shifted(s, delta));
    if t.anchorXY || t.anchorZ then t.(anchor := t.anchor + delta) else t
  }

  /** The tray switch: a mode that could not be saved is a mode that did not
      change. */
  function TraySet(s: Frame, want: bool, offset: int, saved: bool): Frame {
    if want == s.out then s
    else
      var r := if want then s else ShiftRead(s, offset);
      var delta := if want then offset else -ShiftNow(s, offset);
      if !saved then r
      else TrayShift(r.(out := want, shift := if want then delta else 0, known := want), delta)
  }

  /** A move of the lens that the core's limit lets through, played out. */
  function Moved(s: Frame, d: int): Frame { s.(position := s.position + d, counter := s.counter + d) }

  // ---- runs at an idle kernel ----

  datatype Step =
    | Move(d: int)
    | Startup(edge: int, below: int, above: int, offset: int)
    | SessionBegins | SessionFails(counter: int)
    | SessionHomes(edge: int, parkHeight: int, below: int, above: int, offset: int)
    | Manual | Lost | Released | Tray(want: bool, offset: int, saved: bool) | Reapply

  predicate InWindow(below: int, above: int) { 1 <= below <= WINDOW_MAX && 1 <= above <= WINDOW_MAX }

  predicate Enabled(s: Frame, a: Step) {
    match a
    case Move(d) => s.workMin <= s.position + d <= s.workMax
    case Startup(_, below, above, _) => InWindow(below, above)
    case SessionFails(_) => !s.anchorZ && !s.anchorXY && !s.referenced
    case SessionHomes(_, _, below, above, _) => InWindow(below, above) && !s.anchorZ && !s.anchorXY && !s.referenced
    case _ => true
  }

  function Next(s: Frame, a: Step): Frame
    requires Enabled(s, a)
  {
    match a
    case Move(d) => Moved(s, d)
    case Startup(edge, below, above, offset) => StartupReference(s, edge, below, above, offset)
    case SessionBegins => Invalidate(s)
    case SessionFails(counter) => s.(counter := counter)
    case SessionHomes(edge, height, below, above, offset) =>
      CloudHome(s, edge, ParkSteps(edge, height, below, above), below, above, offset)
    case Manual => ManualHome(s)
    case Lost => Invalidate(s)
    case Released => InvalidateXY(s)
    case Tray(want, offset, saved) => TraySet(s, want, offset, saved)
    case Reapply => ApplyLimit(s)
  }

  /** A fresh controller: nothing referenced, no anchor, the lens pinned where it
      reads. */
  predicate Initial(s: Frame) {
    && !s.referenced && !s.anchorZ && !s.anchorXY && !s.known && !s.xyHomed
    && s.workMin == s.position == s.workMax
  }

  /** The lens itself: its focal height above the tray, in steps. It moves with a
      move, and a reference says where it is. */
  function Lens(lens: int, s: Frame, a: Step): int
    requires Enabled(s, a)
  {
    match a
    case Move(d) => lens + d
    case Startup(edge, _, _, _) => edge
    case SessionHomes(edge, height, below, above, _) => edge + ParkSteps(edge, height, below, above)
    case _ => lens
  }

  predicate Coherent(lens: int, s: Frame) {
    && (s.anchorZ ==> s.anchor + s.counter == s.position && s.referenced)
    && s.workMin <= s.position <= s.workMax
    && (s.referenced ==> s.workMin == s.envMin && s.workMax == s.envMax)
    && (s.referenced && s.out ==> s.known)
    && (s.referenced ==> s.position == lens + (if s.out then s.shift else 0))
    && (s.xyHomed ==> s.xyLimited)
  }

  ghost predicate IsRun(s: Frame, steps: seq<Step>)
    decreases |steps|
  {
    steps == [] || (Enabled(s, steps[0]) && IsRun(Next(s, steps[0]), steps[1..]))
  }

  ghost function Final(s: Frame, steps: seq<Step>): Frame
    requires IsRun(s, steps)
    decreases |steps|
  {
    if steps == [] then s else Final(Next(s, steps[0]), steps[1..])
  }

  ghost function FinalLens(lens: int, s: Frame, steps: seq<Step>): int
    requires IsRun(s, steps)
    decreases |steps|
  {
    if steps == [] then lens else FinalLens(Lens(lens, s, steps[0]), Next(s, steps[0]), steps[1..])
  }

  lemma TrayCoherent(lens: int, s: Frame, want: bool, offset: int, saved: bool)
    requires Coherent(lens, s)
    ensures Coherent(lens, TraySet(s, want, offset, saved))
  {
    if want != s.out && saved {
      var delta := if want then offset else -ShiftNow(s, offset);
      assert TraySet(s, want, offset, saved).position == s.position + delta;
    }
  }

  lemma StepCoherent(lens: int, s: Frame, a: Step)
    requires Enabled(s, a) && Coherent(lens, s)
    ensures Coherent(Lens(lens, s, a), Next(s, a))
  {
    match a {
      case Tray(want, offset, saved) =>
        TrayCoherent(lens, s, want, offset, saved);
        hide TraySet, Coherent;
      case Move(_) =>
      case Startup(_, _, _, _) =>
      case SessionBegins =>
      case SessionFails(_) =>
      case SessionHomes(_, _, _, _, _) =>
      case Manual =>
      case Lost =>
      case Released =>
      case Reapply =>
    }
  }

  lemma {:induction false} RunCoherent(lens: int, s: Frame, steps: seq<Step>)
    requires IsRun(s, steps) && Coherent(lens, s)
    ensures Coherent(FinalLens(lens, s, steps), Final(s, steps))
    decreases |steps|
  {
    hide Coherent, Next, Enabled, Lens;
    if steps != [] {
      StepCoherent(lens, s, steps[0]);
      RunCoherent(Lens(lens, s, steps[0]), Next(s, steps[0]), steps[1..]);
    }
  }

  /** A reference and a camera home leave exactly the free travel around the edge, from
      where the lens then stands; which anchors they leave; and a manual home leaves Z as
      it was. */
  lemma HomesLeave(s: Frame, edge: int, height: int, below: int, above: int, offset: int, d: int)
    requires InWindow(below, above)
    ensures var t := Next(s, Startup(edge, below, above, offset));
            && (Enabled(t, Move(d)) <==> -below - 1 <= d <= above + 1)
            && t.referenced && t.anchorZ && !t.anchorXY && t.counter == 0 && t.home == t.position
    ensures Enabled(s, SessionHomes(edge, height, below, above, offset)) ==>
              var t, p := Next(s, SessionHomes(edge, height, below, above, offset)), ParkSteps(edge, height, below, above);
              && (Enabled(t, Move(d)) <==> -below - 1 <= p + d <= above + 1)
              && t.referenced && t.anchorZ && t.anchorXY && t.xyHomed && t.counter == 0 && t.home == t.position
    ensures var t := Next(s, Manual);
            && t.xyHomed && t.anchorXY && (t.anchorZ <==> s.referenced) && t.referenced == s.referenced
            && t.position == s.position && t.counter == 0
  {
    hide Nearest;
  }

  /** The tray switch: nothing moves for the mode in force, or for a marker that was not
      saved, and it stays in force then; else the mode is the one wanted, and every Z of
      the frame moves by the offset out, and back by the shift remembered in. */
  lemma TraySwitchesExactly(s: Frame, want: bool, offset: int, saved: bool)
    ensures var t := TraySet(s, want, offset, saved);
            var delta := if want == s.out || !saved then 0 else if want then offset else -ShiftNow(s, offset);
            && t.out == (if saved then want else s.out)
            && t.position == s.position + delta && t.home == s.home + delta
            && (s.referenced ==> t.envMin == s.envMin + delta && t.envMax == s.envMax + delta)
            && t.anchor == (if s.anchorXY || s.anchorZ then s.anchor + delta else s.anchor)
            && (want != s.out && saved && want ==> t.known && t.shift == offset)
            && t.counter == s.counter && t.referenced == s.referenced
  {
  }

  /** Nothing to stand on: no reference, no Z anchor, and no move of the lens. */
  predicate Pinned(s: Frame) { !s.referenced && !s.anchorZ && s.workMin == s.position == s.workMax }

  lemma StepPinned(s: Frame, a: Step)
    requires Enabled(s, a) && Pinned(s) && !a.Startup? && !a.SessionHomes?
    ensures Pinned(Next(s, a))
  {
  }

  lemma {:induction false} RunPinned(s: Frame, steps: seq<Step>)
    requires IsRun(s, steps) && Pinned(s) && forall i :: 0 <= i < |steps| ==> !steps[i].Startup? && !steps[i].SessionHomes?
    ensures Pinned(Final(s, steps))
    decreases |steps|
  {
    hide Pinned, Next, Enabled;
    if steps != [] {
      StepPinned(s, steps[0]);
      RunPinned(Next(s, steps[0]), steps[1..]);
    }
  }

  /** A lost reference pins the lens until the next reference or camera home, whatever
      happens in between; and the steps released with it stay released in X and Y. */
  lemma LostStaysPinned(s: Frame, steps: seq<Step>, d: int)
    requires IsRun(Next(s, Lost), steps)
    requires forall i :: 0 <= i < |steps| ==> !steps[i].Startup? && !steps[i].SessionHomes?
    ensures var t := Final(Next(s, Lost), steps); !t.referenced && !t.anchorZ && (Enabled(t, Move(d)) <==> d == 0)
    ensures var t := Next(s, Lost); !t.anchorXY && !t.xyHomed && !t.xyLimited
    ensures var t := Next(s, Released); !t.anchorXY && !t.xyHomed && !t.xyLimited
    ensures Next(s, SessionBegins) == Next(s, Lost)
  {
    RunPinned(Next(s, Lost), steps);
    hide IsRun, Final;
  }

  /** Over every sequence of references, homes, invalidations, releases, tray
      switches and moves at an idle kernel, counter zeros that take: the anchor's Z
      plus the kernel counter is the Z position whenever the anchor carries Z; Z
      stands inside its limit; and a referenced Z is the lens's height above the tray
      plus the shift of the mode in force. */
  lemma ZFrameCoherence(lens: int, s: Frame, steps: seq<Step>)
    requires Initial(s) && IsRun(s, steps)
    ensures var t := Final(s, steps);
            && (t.anchorZ ==> t.anchor + t.counter == t.position)
            && t.workMin <= t.position <= t.workMax
            && (t.referenced ==> t.position == FinalLens(lens, s, steps) + (if t.out then t.shift else 0))
            && (t.xyHomed ==> t.xyLimited)
  {
    RunCoherent(lens, s, steps);
    hide IsRun, Final, FinalLens;
  }

  // ---- the tray switch undone ----

  /** What the tray switch moves. */
  predicate SameZ(s: Frame, t: Frame) {
    && t.position == s.position && t.home == s.home && t.envMin == s.envMin && t.envMax == s.envMax
    && t.workMin == s.workMin && t.workMax == s.workMax && t.anchor == s.anchor
    && t.anchorZ == s.anchorZ && t.anchorXY == s.anchorXY && t.counter == s.counter && t.referenced == s.referenced
  }

  /** No switch of the tray, whatever else. */
  ghost predicate NoTray(steps: seq<Step>) { forall i :: 0 <= i < |steps| ==> !steps[i].Tray? }

  /** While the tray stays out its shift stays what it was. */
  lemma {:induction false} ShiftStands(s: Frame, steps: seq<Step>)
    requires IsRun(s, steps) && NoTray(steps) && s.out && s.known
    ensures var t := Final(s, steps); t.out && t.known && t.shift == s.shift
    decreases |steps|
  {
    if steps != [] {
      assert !steps[0].Tray?;
      ShiftStays(s, steps[0]);
      hide Next, Enabled;
      ShiftStands(Next(s, steps[0]), steps[1..]);
    }
  }

  lemma ShiftStays(s: Frame, a: Step)
    requires Enabled(s, a) && !a.Tray? && s.out && s.known
    ensures var t := Next(s, a); t.out && t.known && t.shift == s.shift
  {
    hide TraySet, TrayShift;
    match a {
      case Move(_) =>
      case Startup(_, _, _, _) =>
      case SessionBegins =>
      case SessionFails(_) =>
      case SessionHomes(_, _, _, _, _) =>
      case Manual =>
      case Lost =>
      case Released =>
      case Reapply =>
    }
  }

  /** The tray in again, at any offset setting, moves Z back by exactly what the tray
      out moved it, whatever happened in between; with nothing in between it restores
      every Z of the frame. */
  lemma TrayUndone(s: Frame, steps: seq<Step>, offset: int, later: int)
    requires !s.out && s.workMin == (if s.referenced then s.envMin else s.position)
    requires s.workMax == (if s.referenced then s.envMax else s.position)
    requires IsRun(TraySet(s, true, offset, true), steps) && NoTray(steps)
    ensures var u := TraySet(s, true, offset, true);
            var t := Final(u, steps);
            var v := TraySet(t, false, later, true);
            && u.position == s.position + offset
            && v.position == t.position - offset && v.home == t.home - offset && !v.out
            && (t.referenced ==> v.envMin == t.envMin - offset && v.envMax == t.envMax - offset)
            && (t.anchorZ ==> v.anchor == t.anchor - offset)
            && (steps == [] ==> SameZ(s, v))
  {
    var u := TraySet(s, true, offset, true);
    assert u.out && u.known && u.shift == offset;
    ShiftStands(u, steps);
  }

  // ---- in place ----

  class Machine {
    var position: int
    var home: int
    var referenced: bool
    var envMin: int
    var envMax: int
    var workMin: int
    var workMax: int
    var xyHomed: bool
    var xyLimited: bool
    var anchorXY: bool
    var anchorZ: bool
    var anchor: int
    var counter: int
    var out: bool
    var shift: int
    var known: bool

    ghost function State(): Frame
      reads this
    {
      Frame(position, home, referenced, envMin, envMax, workMin, workMax, xyHomed, xyLimited,
            anchorXY, anchorZ, anchor, counter, out, shift, known)
    }

    method ApplyZLimit()
      modifies this`workMin, this`workMax, this`xyLimited
      ensures State() == ApplyLimit(old(State()))
    {
      if referenced {
        workMin, workMax := envMin, envMax;
      } else {
        workMin, workMax := position, position;
      }
      if xyHomed { xyLimited := true; }
    }

    /** The shift of the mode in force, read from the setting at its first use. */
    method ShiftSteps(offset: int) returns (steps: int)
      modifies this`shift, this`known
      ensures steps == ShiftNow(old(State()), offset) && State() == ShiftRead(old(State()), offset)
    {
      if !out { return 0; }
      if !known {
        shift := offset;
        known := true;
      }
      steps := shift;
    }

    method SetReference(edge: int, below: int, above: int, offset: int)
      modifies this
      ensures State() == ReferenceZ(old(State()), edge, below, above, offset)
    {
      var d := ShiftSteps(offset);
      Refer(edge + d, below, above);
      ApplyZLimit();
    }

    /** The edge stands here, and the travel with it. */
    method Refer(edge: int, below: int, above: int)
      modifies this`position, this`home, this`envMin, this`envMax, this`referenced
      ensures State() == old(State()).(position := edge, home := edge, referenced := true,
                                       envMin := edge - below - 1, envMax := edge + above + 1)
    {
      position := edge;
      home := position;
      envMin, envMax := position - below - 1, position + above + 1;
      referenced := true;
    }

    method InvalidateAll()
      modifies this
      ensures State() == Invalidate(old(State()))
    {
      anchorZ, referenced := false, false;
      assert State() == old(State()).(anchorZ := false, referenced := false);
      ReleaseXY();
    }

    method ReleaseXY()
      modifies this
      ensures State() == InvalidateXY(old(State()))
    {
      anchorXY := false;
      xyHomed, xyLimited := false, false;
      ApplyZLimit();
    }

    method ShiftFrame(delta: int)
      modifies this
      ensures State() == TrayShift(old(State()), delta)
    {
      ShiftLens(delta);
      ApplyZLimit();
      hide ApplyLimit;
      if anchorXY || anchorZ { anchor := anchor + delta; }
    }

    method ShiftLens(delta: int)
      modifies this`position, this`home, this`envMin, this`envMax
      ensures State() == Shifted(old(State()), delta)
    {
      position, home := position + delta, home + delta;
      if referenced { envMin, envMax := envMin + delta, envMax + delta; }
    }

    /** The marker first, then the frame. */
    method SetTray(want: bool, offset: int, saved: bool)
      modifies this
      ensures State() == TraySet(old(State()), want, offset, saved)
    {
      hide TrayShift;
      if want != out {
        var delta := offset;
        if !want {
          var d := ShiftSteps(offset);
          delta := -d;
        }
        assert State() == if want then old(State()) else ShiftRead(old(State()), offset);
        if !saved { return; }
        SetMode(want, delta);
        ShiftFrame(delta);
      }
    }

    method SetMode(want: bool, delta: int)
      modifies this`out, this`shift, this`known
      ensures State() == old(State()).(out := want, shift := if want then delta else 0, known := want)
    {
      out := want;
      shift := if want then delta else 0;
      known := want;
    }
  }
}
