/** The receive ring and the line multiplexer (src/serial.c): the sender's bytes
    and injected lines share one queue, an overrun unwrites a whole line, and a read
    gate can hold the sender. The core reads bytes, runs a line at its end-of-line
    byte, and emits its status before it reads on. */
module SerialLines {

  type byte = x: int | 0 <= x < 256

  const LF: byte := 10
  const CR: byte := 13
  const CAN: byte := 24

  predicate IsEol(b: byte) { b == LF || b == CR }

  /** The ring of size bytes (one is never used) as the queue it holds, and the
      flags beside it. */
  datatype Rx = Rx(
    size: nat, q: seq<byte>,
    discarding: bool, overrun: bool, senderMidline: bool, readMidline: bool, senderEol: byte,
    injActive: bool, injLeft: nat, injFirst: bool, injDue: bool, injSaved: int,
    hold: bool, lineOpen: bool)

  // ---- the operations ----

  /** The partial line at the end of the queue removed. */
  function Unwrite(q: seq<byte>): (r: seq<byte>)
    ensures |r| <= |q|
  {
    if q == [] || IsEol(q[|q| - 1]) then q else Unwrite(q[..|q| - 1])
  }

  predicate Full(s: Rx) { |s.q| + 1 >= s.size }

  /** A byte from the sender that is no realtime command. */
  function Store(s: Rx, b: byte): Rx {
    if s.discarding then s.(discarding := !IsEol(b))
    else if Full(s) then
      s.(q := Unwrite(s.q), overrun := true, discarding := !IsEol(b), senderMidline := false)
    else s.(q := s.q + [b], senderMidline := !IsEol(b), senderEol := if IsEol(b) then b else s.senderEol)
  }

  /** The read gate: an injected line passes, a cancel, and an empty line. */
  predicate Held(s: Rx)
    requires s.q != []
  {
    s.hold && s.injLeft == 0 && s.q[0] != CAN && !(IsEol(s.q[0]) && !s.readMidline)
  }

  predicate CanGet(s: Rx) { s.q != [] && !Held(s) }

  /** The core takes the next byte; err is the parser error in force. */
  function Get(s: Rx, err: int): (t: Rx)
    requires CanGet(s)
    ensures t.q == s.q[1..] && t.senderEol == s.senderEol && t.senderMidline == s.senderMidline
  {
    var b := s.q[0];
    var t := s.(q := s.q[1..], readMidline := !IsEol(b), lineOpen := s.lineOpen || (s.injLeft == 0 && !IsEol(b)));
    if s.injLeft == 0 then t
    else t.(injLeft := s.injLeft - 1, injFirst := false,
            injSaved := if s.injFirst then err else s.injSaved,
            injDue := s.injDue || s.injLeft == 1)
  }

  predicate CanInject(s: Rx, line: seq<byte>) {
    && !s.injActive && !s.senderMidline && !s.discarding && line != [] && s.q == []
    && |line| + 1 <= s.size - 1
  }

  /** A line from the second source, in one piece into an empty ring. */
  function Inject(s: Rx, line: seq<byte>): Rx {
    if !CanInject(s, line) then s
    else s.(q := line + [s.senderEol], injLeft := |line| + 1, injActive := true, injFirst := true, injDue := false)
  }

  /** Everything queued is dropped, an injected line with it. */
  function Flush(s: Rx): Rx {
    s.(q := [], discarding := false, senderMidline := false, readMidline := false, lineOpen := false,
       injActive := false, injDue := s.injDue && !s.injActive, injLeft := if s.injActive then 0 else s.injLeft)
  }

  function Cancel(s: Rx): Rx { Flush(s).(q := [CAN]) }

  // ---- the port with the core behind it ----

  /** What the core owes: nothing, or the run and status of the line it has read. */
  datatype Run = Resting | Owed(empty: bool)

  /** err is the core's held parser error. */
  datatype Port = Port(rx: Rx, err: int, run: Run)

  datatype Step =
    | Byte(b: byte) | Read | Line(line: seq<byte>) | Status(err: int) | Hold(on: bool) | Reset | CancelRead

  /** A line's status comes before the next read; an end of line that only pairs
      with the one before it gets none. */
  predicate Enabled(s: Port, a: Step) {
    match a
    case Read => CanGet(s.rx) && (s.run.Owed? ==> s.run.empty)
    case Status(_) => s.run.Owed?
    case _ => true
  }

  /** The status hook: an injected line's own status ends it, and the sender's held
      error is put back. */
  function AfterStatus(s: Port, err: int): Port {
    if s.rx.injDue
    then Port(s.rx.(injActive := false, injDue := false), s.rx.injSaved, Resting)
    else Port(s.rx.(lineOpen := false), err, Resting)
  }

  function Next(s: Port, a: Step): Port
    requires Enabled(s, a)
  {
    match a
    case Byte(b) => s.(rx := Store(s.rx, b))
    case Read => s.(rx := Get(s.rx, s.err), run := if IsEol(s.rx.q[0]) then Owed(!s.rx.readMidline) else Resting)
    case Line(line) => s.(rx := Inject(s.rx, line))
    case Status(err) => AfterStatus(s, err)
    case Hold(on) => s.(rx := s.rx.(hold := on))
    case Reset => s.(rx := Flush(s.rx), run := Resting)
    case CancelRead => s.(rx := Cancel(s.rx), run := Resting)
  }

  predicate Initial(s: Port) {
    && s.rx.q == [] && !s.rx.discarding && !s.rx.senderMidline && !s.rx.readMidline && IsEol(s.rx.senderEol)
    && !s.rx.injActive && s.rx.injLeft == 0 && !s.rx.injDue && s.rx.size >= 2 && s.run.Resting? && !s.rx.lineOpen
  }

  ghost predicate IsRun(s: Port, steps: seq<Step>)
    decreases |steps|
  {
    steps == [] || (Enabled(s, steps[0]) && IsRun(Next(s, steps[0]), steps[1..]))
  }

  ghost function Final(s: Port, steps: seq<Step>): Port
    requires IsRun(s, steps)
    decreases |steps|
  {
    if steps == [] then s else Final(Next(s, steps[0]), steps[1..])
  }
}
