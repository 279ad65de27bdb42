/** The whole machine: the stream engine's record, the core's step count, the
    kernel as an environment, and the shipper thread's program counter between
    its regions under gf.lock. A run is any interleaving of the steps below. */
module StreamSystem {
  import opened PulseBytes
  import opened DitherModel
  import opened StreamRing
  import opened LaserQueue
  import opened StreamEngine

  // ---- the kernel ----

  datatype KState = Idle | Running | Underrun | Faulted | Disabled

  /** The kernel's ring since its last clear, the bytes of it processed, the steps
      it ever played, and the total at its last counter zero. foreign counts the
      bytes of the ring that this process's own count does not hold. */
  datatype Kernel = Kernel(st: KState, taken: seq<Byte>, processed: nat, foreign: nat, played: Vec, zeroed: Vec)

  predicate KernelSane(k: Kernel) { k.processed <= |k.taken| && k.foreign <= |k.taken| }

  function Queue(k: Kernel): seq<Byte>
    requires KernelSane(k)
  {
    k.taken[k.processed..]
  }

  /** The step counters in cnc/position. */
  function Counters(k: Kernel): Vec { Wrap(Minus(k.played, k.zeroed)) }

  /** The processed count wraps; the tally of bytes taken saturates. */
  function Processed(k: Kernel): u32 { U32(k.processed) }

  function Tally(k: Kernel): u32 { if |k.taken| < M32 - 1 then |k.taken| else M32 - 1 }

  function Take(k: Kernel, bytes: seq<Byte>): (r: Kernel)
    ensures KernelSane(k) ==> KernelSane(r)
  { k.(taken := k.taken + bytes) }

  function TakeForeign(k: Kernel, bytes: seq<Byte>): (r: Kernel)
    ensures KernelSane(k) ==> KernelSane(r)
  {
    k.(taken := k.taken + bytes, foreign := k.foreign + |bytes|)
  }

  function PlayOne(k: Kernel): Kernel
    requires KernelSane(k) && k.processed < |k.taken|
  {
    k.(processed := k.processed + 1, played := Plus(k.played, ByteSteps(k.taken[k.processed])))
  }

  function Emptied(k: Kernel): Kernel { k.(taken := [], processed := 0, foreign := 0) }

  /** What the kernel may do on its own or under another writer: never start. An
      underrun needs an empty ring. */
  predicate KernelMoves(k: Kernel, st: KState)
    requires KernelSane(k)
  {
    st != Running && (st == Underrun ==> k.st == Running && Queue(k) == [])
  }

  // ---- the shipper between its regions ----

  datatype Pc =
    | Top
    | Snapped(zeros: nat)
    | Cleared(cleared: bool, counted: bool, counts: Vec, zeros: nat)
    | Ready
    | Writing(chunk: seq<Byte>, first: bool, gate: bool, due: nat, startRun: bool)
    | Gating(base: u32, written: u32)
    | Issuing(retried: bool, counted: bool)

  /** pos is the core's exact step count, pend the step counted and not output. */
  datatype Sys = Sys(g: Gf, k: Kernel, pc: Pc, armed: bool, gate: bool, pos: Vec, pend: Vec)

  predicate SysSane(s: Sys) { Sane(s.g) && KernelSane(s.k) }

  // ---- steps ----

  /** The core, on the producer or the protocol thread, and any thread's fault. */
  datatype CoreStep =
    | Count(v: Vec) | Output | Advance(vticks: nat)
    | Request(power: Duty, fire: bool) | SetJog(jog: bool) | SetModel(d: Dither)
    | SetArmed(armed: bool) | SetGate(gate: bool)
    | Wake(dueNow: nat) | Sleep(reset: bool)
    | DoReset | DoReadback | ZeroPosition(ok: bool) | Fault

  /** The shipper thread, one step per region under gf.lock and per kernel access
      outside it. */
  datatype ShipStep =
    | Snap(landed: bool) | NotYet | Empty(seekOk: bool, readOk: bool) | Finish
    | Begin(due: nat, landed: bool) | WriteOk | WriteFail(n: nat)
    | GateSkip | GateRead(stateOk: bool, countsOk: bool)
    | IssueRun | IssueAck(acked: bool) | IssueRefused

  /** The kernel, and other processes that write to it. */
  datatype KernelStep = Play | KernelTo(st: KState) | Foreign(bytes: seq<Byte>)

  datatype Step = ByCore(c: CoreStep) | ByShipper(h: ShipStep) | ByKernel(e: KernelStep)

  predicate NoStepsLeft(r: Ring)
    requires Sized(r)
  {
    forall j :: 0 <= j < RING_SIZE ==> r.slots[j] == ZERO
  }

  /** A fresh stream restarts the ring's index space. */
  predicate FreshWake(g: Gf) { !g.failed && !g.streaming && !g.kernelRunning }

  predicate CanStart(k: Kernel)
    requires KernelSane(k)
  {
    (k.st == Idle || k.st == Disabled) && Queue(k) != []
  }

  predicate CoreEnabled(s: Sys, c: CoreStep)
    requires SysSane(s)
  {
    match c
    case Count(v) => s.g.streaming && s.pend == ZERO && v != ZERO
    case Sleep(reset) => reset || s.pend == ZERO
    case Wake(_) => FreshWake(s.g) ==> NoStepsLeft(s.g.ring)
    case SetModel(d) => Restarted(d)
    case _ => true
  }

  predicate ShipEnabled(s: Sys, h: ShipStep)
    requires SysSane(s)
  {
    match h
    case Snap(_) => s.pc == Top
    case NotYet => s.pc.Snapped?
    case Empty(_, _) => s.pc.Snapped? && s.k.st != Running
    case Finish => s.pc.Cleared?
    case Begin(_, _) => s.pc == Ready
    case WriteOk => s.pc.Writing?
    case WriteFail(n) => s.pc.Writing? && n <= |s.pc.chunk|
    case GateSkip => s.pc.Gating? && s.g.failed
    case GateRead(_, _) => s.pc.Gating?
    case IssueRun => s.pc.Issuing? && CanStart(s.k)
    case IssueAck(_) => s.pc.Issuing? && !s.pc.retried && s.k.st == Underrun && !s.armed
    case IssueRefused => s.pc.Issuing?
  }

  predicate KernelEnabled(s: Sys, e: KernelStep)
    requires SysSane(s)
  {
    match e
    case Play => s.k.st == Running && Queue(s.k) != []
    case KernelTo(st) => KernelMoves(s.k, st)
    case Foreign(_) => true
  }

  predicate Enabled(s: Sys, a: Step)
    requires SysSane(s)
  {
    match a
    case ByCore(c) => CoreEnabled(s, c)
    case ByShipper(h) => ShipEnabled(s, h)
    case ByKernel(e) => KernelEnabled(s, e)
  }

  /** The run gate's byte-count test. */
  predicate CountsMatch(k: Kernel, base: u32, written: u32) {
    Processed(k) == base && (Tally(k) == written || Tally(k) == M32 - 1)
  }

  function DoSnap(s: Sys, landed: bool): (t: Sys)
    requires SysSane(s)
    ensures SysSane(t) && PadOnly(s, t) && t.g.ring == s.g.ring
    ensures t.pc == (if s.g.clearPending then Snapped(s.g.zeros) else Ready)
  {
    var pc := if s.g.clearPending then Snapped(s.g.zeros) else Ready;
    if !PadDue(s.g) then s.(pc := pc)
    else s.(g := Padded(s.g, landed), k := PadWritten(s.k, true, landed), pc := pc)
  }

  function DoEmpty(s: Sys, seekOk: bool, readOk: bool): (t: Sys)
    requires SysSane(s) && s.pc.Snapped?
    ensures SysSane(t)
  {
    s.(k := if seekOk then Emptied(s.k) else s.k,
       pc := Cleared(seekOk, seekOk && readOk, Counters(s.k), s.pc.zeros))
  }

  function DoFinish(s: Sys): (t: Sys)
    requires SysSane(s) && s.pc.Cleared?
    ensures SysSane(t)
  {
    s.(g := FinishClear(s.g, s.pc.cleared, s.pc.counted, s.pc.counts, s.pc.zeros), pc := Ready)
  }

  predicate ShipMore(g: Gf, due: nat) {
    g.ring.shipped < due && (g.streaming || g.ring.shipped < g.ring.produced)
  }

  /** One more turn of the shipping loop: a chunk goes out, or the pass ends. */
  function ShipTurn(s: Sys, gate: bool, due: nat, startRun: bool): (t: Sys)
    requires SysSane(s)
    ensures SysSane(t)
  {
    if ShipMore(s.g, due) then
      var (g, chunk) := TakeChunk(s.g, gate, due);
      s.(g := g, pc := Writing(chunk, !s.g.kernelRunning, gate, due, startRun))
    else PassEnd(s, startRun)
  }

  function PassEnd(s: Sys, startRun: bool): Sys {
    s.(pc := if startRun then Gating(s.g.runBase, s.g.written) else Top)
  }

  /** A pad written where one is owed. */
  function PadWritten(k: Kernel, owed: bool, landed: bool): (r: Kernel)
    ensures r == k.(taken := r.taken) && (KernelSane(k) ==> KernelSane(r))
  {
    if owed && landed then Take(k, [PAD]) else k
  }

  predicate PreloadWait(g: Gf) {
    (g.ring.shipped == 0 || !g.kernelRunning) && Backlog(g.ring) < (if g.streaming then g.depth else 1)
  }

  /** What a pad may change: the laser state, the byte counts, the cursors. */
  predicate PadOnly(s: Sys, t: Sys) {
    && t == s.(g := t.g, k := t.k, pc := t.pc) && t.k == s.k.(taken := t.k.taken)
    && ((t.k == s.k && t.g.written == s.g.written) ||
        (t.k == Take(s.k, [PAD]) && t.g.written == U32(s.g.written + 1)))
    && t.g == s.g.(ring := t.g.ring, laser := t.g.laser, written := t.g.written, kernelRunning := t.g.kernelRunning)
  }

  /** A faulted stream still ends dark. */
  function PadFault(s: Sys, landed: bool): (t: Sys)
    requires SysSane(s)
    ensures SysSane(t) && PadOnly(s, t) && t.g.ring == s.g.ring && t.pc == Top
  {
    if !s.g.laser.lastLit then s.(pc := Top)
    else
      var g := Padded(s.g, landed);
      s.(g := g.(laser := g.laser.(curFire := false)), k := PadWritten(s.k, true, landed), pc := Top)
  }

  function FinishStream(s: Sys, landed: bool): (t: Sys)
    requires SysSane(s)
    ensures SysSane(t) && PadOnly(s, t) && t.pc == Top
  {
    s.(g := EndStream(s.g, landed), pc := Top,
       k := PadWritten(s.k, s.g.kernelRunning && s.g.laser.lastLit, landed))
  }

  /** The pass with its gate sample taken. */
  function Sampled(s: Sys): (t: Sys)
    requires SysSane(s)
    ensures SysSane(t)
  {
    s.(g := s.g.(laser := GateEdge(s.g.laser, s.gate)))
  }

  function DoBegin(s: Sys, due: nat, landed: bool): (t: Sys)
    requires SysSane(s)
    ensures SysSane(t)
  {
    if s.g.failed then PadFault(s, landed)
    else if !s.g.streaming && Backlog(s.g.ring) == 0 then FinishStream(Sampled(s), landed)
    else if PreloadWait(s.g) then Sampled(s).(pc := Top)
    else ShipTurn(Sampled(s), s.gate, due, false)
  }

  function DoWriteOk(s: Sys): (t: Sys)
    requires SysSane(s) && s.pc.Writing?
    ensures SysSane(t)
  {
    var t := s.(g := ChunkTaken(s.g, s.pc.chunk), k := Take(s.k, s.pc.chunk));
    if t.g.failed || t.g.clearPending then PassEnd(t, s.pc.startRun)
    else ShipTurn(t, s.pc.gate, s.pc.due, s.pc.startRun || s.pc.first)
  }

  function DoWriteFail(s: Sys, n: nat): (t: Sys)
    requires SysSane(s) && s.pc.Writing? && n <= |s.pc.chunk|
    ensures SysSane(t)
  {
    PassEnd(s.(g := ChunkLost(s.g), k := TakeForeign(s.k, s.pc.chunk[..n])), s.pc.startRun)
  }

  function DoGateRead(s: Sys, stateOk: bool, countsOk: bool): (t: Sys)
    requires SysSane(s) && s.pc.Gating?
    ensures SysSane(t)
  {
    var refuse := s.(g := s.g.(failed := true), pc := Top);
    if !stateOk then refuse
    else if s.k.st == Running then s.(pc := Top)
    else if s.k.st == Underrun || s.k.st == Faulted then s.(pc := Issuing(false, false))
    else if countsOk && CountsMatch(s.k, s.pc.base, s.pc.written) then s.(pc := Issuing(false, true))
    else refuse
  }

  function CoreNext(s: Sys, c: CoreStep): (t: Sys)
    requires SysSane(s) && CoreEnabled(s, c)
    ensures SysSane(t) && t.pc == s.pc
  {
    match c
    case Count(v) => s.(pos := Plus(s.pos, v), pend := v)
    case Output => s.(g := Pulse(s.g, s.armed, s.pend), pend := ZERO)
    case Advance(dt) => s.(g := s.g.(ring := s.g.ring.(vticks := s.g.ring.vticks + dt)))
    case Request(p, f) => s.(g := LaserRequest(s.g, s.armed, p, f))
    case SetJog(j) => s.(g := Jog(s.g, s.armed, j))
    case SetModel(d) => s.(g := LaserModel(s.g, d))
    case SetArmed(b) => s.(armed := b)
    case SetGate(b) => s.(gate := b)
    case Wake(dueNow) => s.(g := Wakeup(s.g, s.armed, dueNow))
    case Sleep(reset) => s.(g := GoIdle(s.g, reset, s.pend), pend := ZERO)
    case DoReset => s.(g := Reset(s.g))
    case DoReadback =>
      var (g, rc, v) := TakeReadback(s.g);
      s.(g := g, pos := if rc == 1 then Minus(s.pos, v) else s.pos)
    case ZeroPosition(ok) =>
      s.(g := ClearPosition(s.g, ok), k := if ok then s.k.(zeroed := s.k.played) else s.k)
    case Fault => s.(g := s.g.(failed := true))
  }

  function ShipNext(s: Sys, h: ShipStep): (t: Sys)
    requires SysSane(s) && ShipEnabled(s, h)
    ensures SysSane(t)
  {
    match h
    case Snap(landed) => DoSnap(s, landed)
    case NotYet => s.(pc := Top)
    case Empty(seekOk, readOk) => DoEmpty(s, seekOk, readOk)
    case Finish => DoFinish(s)
    case Begin(due, landed) => DoBegin(s, due, landed)
    case WriteOk => DoWriteOk(s)
    case WriteFail(n) => DoWriteFail(s, n)
    case GateSkip => s.(pc := Top)
    case GateRead(stateOk, countsOk) => DoGateRead(s, stateOk, countsOk)
    case IssueRun => s.(k := s.k.(st := Running), pc := Top)
    case IssueAck(acked) =>
      s.(k := if acked then s.k.(st := Idle) else s.k, pc := Issuing(true, s.pc.counted))
    case IssueRefused => s.(g := s.g.(failed := true), pc := Top)
  }

  function KernelNext(s: Sys, e: KernelStep): (t: Sys)
    requires SysSane(s) && KernelEnabled(s, e)
    ensures SysSane(t) && t == s.(k := t.k)
  {
    match e
    case Play => s.(k := PlayOne(s.k))
    case KernelTo(st) => s.(k := s.k.(st := st))
    case Foreign(bytes) => s.(k := TakeForeign(s.k, bytes))
  }

  function Next(s: Sys, a: Step): (t: Sys)
    requires SysSane(s) && Enabled(s, a)
    ensures SysSane(t)
  {
    match a
    case ByCore(c) => CoreNext(s, c)
    case ByShipper(h) => ShipNext(s, h)
    case ByKernel(e) => KernelNext(s, e)
  }

  // ---- runs ----

  /** The state a controller starts in: the device taken over and emptied, nothing
      streamed, the base taken. */
  predicate Initial(s: Sys) {
    && SysSane(s) && NoStepsLeft(s.g.ring) && s.pc == Top
    && s.k.taken == [] && s.k.foreign == 0 && s.k.st != Running
    && s.g.ring.produced == s.g.ring.shipped
    && !s.g.streaming && !s.g.kernelRunning && !s.g.clearPending && !s.g.killed && !s.g.failed
    && s.g.written == 0 && s.g.readback.RbNone? && s.pend == ZERO
    && s.g.baseValid && s.g.baseSteps == s.g.steps && s.g.baseCounts == Counters(s.k)
    && s.g.laser.lev == [] && !s.g.laser.curFire && !s.g.laser.lastLit && !s.g.laser.powerSent
    && Restarted(s.g.laser.dith) && !s.g.laser.wantFire
  }

  /** A run: the steps taken one after another, each enabled where it is taken. */
  ghost predicate IsRun(s: Sys, steps: seq<Step>)
    requires SysSane(s)
    decreases |steps|
  {
    steps == [] || (Enabled(s, steps[0]) && IsRun(Next(s, steps[0]), steps[1..]))
  }

  ghost function Final(s: Sys, steps: seq<Step>): (t: Sys)
    requires SysSane(s) && IsRun(s, steps)
    ensures SysSane(t)
    decreases |steps|
  {
    if steps == [] then s else Final(Next(s, steps[0]), steps[1..])
  }
}
