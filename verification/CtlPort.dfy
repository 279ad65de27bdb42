/** The controller port (src/ctlport.c) over the line multiplexer: its jog holds the
    sender's bytes in the ring until the core leaves the jog. */
module CtlPort {
  import opened SerialLines

  const STATUS_OK := 0

  /** A line that waits for the sender's empty lines to be read. */
  datatype Deferred = None | Waiting(line: seq<byte>, jog: bool)

  /** The port's flags; hold is the multiplexer's read gate, tray the mode the
      injected line switches the tray to, or -1. */
  datatype Flags = Flags(
    awaiting: bool, awaitingJog: bool, portJog: bool, cancelSent: bool,
    envelopeHold: bool, envelopeOpen: bool, hold: bool, tray: int, deferred: Deferred)

  // ---- the port's own steps ----

  /** The injected line's status. */
  function LineDone(f: Flags, status: int): Flags {
    var g := f.(awaiting := false, tray := -1);
    if status == STATUS_OK && f.tray < 0 && f.awaitingJog
    then g.(portJog := true, cancelSent := false, hold := true)
    else g
  }

  function CancelJog(f: Flags, jogging: bool): Flags {
    if f.portJog && !f.cancelSent && jogging then f.(cancelSent := true) else f
  }

  function DropClient(f: Flags, jogging: bool): Flags {
    CancelJog(f, jogging).(deferred := None, envelopeOpen := false)
  }

  /** The jog's end: the sender's held bytes go to the core. */
  function PollJog(f: Flags, jogging: bool, pending: bool): Flags {
    if !f.portJog || f.awaiting then f
    else if !jogging then f.(portJog := false, hold := false)
    else if pending then CancelJog(f, jogging)
    else f
  }

  /** The bed check's envelope holds the sender too, and its first line closes it. */
  function PollEnvelope(f: Flags, jogging: bool, pending: bool): Flags {
    if f.envelopeOpen && !f.awaiting then
      if !pending then f.(hold := true, envelopeHold := true)
      else if f.portJog then CancelJog(f, jogging)
      else f.(envelopeOpen := false, hold := false, envelopeHold := false)
    else if f.envelopeHold && !f.envelopeOpen then
      f.(envelopeHold := false, hold := f.hold && f.portJog)
    else f
  }

  function Poll(f: Flags, jogging: bool, pending: bool): Flags {
    PollEnvelope(PollJog(f, jogging, pending), jogging, pending)
  }

  // ---- with the multiplexer and the core ----

  datatype Sys = Sys(port: Port, f: Flags, jogging: bool)

  /** Sender bytes wait in the ring, more than empty lines. */
  predicate Pending(r: Rx) { exists i :: r.injLeft <= i < |r.q| && !IsEol(r.q[i]) }

  predicate EmptyLinesOnly(r: Rx) { r.q != [] && r.injLeft == 0 && !Pending(r) }

  /** A line handed to the multiplexer, now or after the empty lines. */
  function Hand(s: Sys, line: seq<byte>, jog: bool): Sys {
    if CanInject(s.port.rx, line) then
      s.(port := s.port.(rx := Inject(s.port.rx, line)), f := s.f.(awaiting := true, awaitingJog := jog))
    else if EmptyLinesOnly(s.port.rx) then s.(f := s.f.(deferred := Waiting(line, jog)))
    else s.(f := s.f.(tray := -1))
  }

  /** A deferred line tried again; late says that its time is up. */
  function Retry(s: Sys, late: bool): Sys
    requires s.f.deferred.Waiting?
  {
    if CanInject(s.port.rx, s.f.deferred.line) then
      s.(port := s.port.(rx := Inject(s.port.rx, s.f.deferred.line)),
         f := s.f.(awaiting := true, awaitingJog := s.f.deferred.jog, deferred := None))
    else if Pending(s.port.rx) || late then s.(f := s.f.(deferred := None, tray := -1))
    else s
  }

  datatype Step =
    | Core(a: SerialLines.Step) | CoreJogs(on: bool)
    | AskJog(line: seq<byte>) | AskTray(line: seq<byte>, out: bool) | AskCommand(line: seq<byte>)
    | TryAgain(late: bool) | Polled | Gone | Envelope(open: bool)

  /** What the port reads a request under, and what each request needs. */
  predicate Enabled(s: Sys, a: Step) {
    match a
    case Core(c) => SerialLines.Enabled(s.port, c) && !c.Hold? && !c.Line?
    case AskJog(_) => Asks(s) && (!s.jogging || s.f.portJog) && !Pending(s.port.rx)
    case AskTray(_, _) => Asks(s) && !s.jogging && !s.f.portJog && !Pending(s.port.rx)
    case AskCommand(_) => Asks(s) && !s.jogging && !Pending(s.port.rx)
    case TryAgain(_) => s.f.deferred.Waiting?
    case _ => true
  }

  predicate Asks(s: Sys) { !s.f.awaiting && s.f.deferred.None? }

  /** The injection the core's step answers, and its status. */
  function Answered(s: Sys, a: SerialLines.Step): Flags {
    match a
    case Status(err) => if s.port.rx.injDue then LineDone(s.f, err) else s.f
    case Reset => if s.port.rx.injActive then LineDone(s.f, -1) else s.f
    case CancelRead => if s.port.rx.injActive then LineDone(s.f, -1) else s.f
    case _ => s.f
  }

  /** The multiplexer's gate is what the port last set. */
  function Gated(s: Sys): Sys { s.(port := s.port.(rx := s.port.rx.(hold := s.f.hold))) }

  function Next(s: Sys, a: Step): Sys
    requires Enabled(s, a)
  {
    match a
    case Core(c) => Gated(s.(port := SerialLines.Next(s.port, c), f := Answered(s, c)))
    case CoreJogs(on) => s.(jogging := on)
    case AskJog(line) => Hand(s, line, true)
    case AskTray(line, out) => Hand(s.(f := s.f.(tray := if out then 1 else 0)), line, false)
    case AskCommand(line) => Hand(s, line, false)
    case TryAgain(late) => Retry(s, late)
    case Polled => Gated(s.(f := Poll(s.f, s.jogging, Pending(s.port.rx))))
    case Gone => s.(f := DropClient(s.f, s.jogging))
    case Envelope(open) => s.(f := s.f.(envelopeOpen := open))
  }

  predicate Initial(s: Sys) {
    && SerialLines.Initial(s.port) && !s.port.rx.hold && !s.f.hold
    && !s.f.awaiting && !s.f.portJog && !s.f.envelopeHold && s.f.deferred.None? && s.f.tray == -1
  }

  ghost predicate IsRun(s: Sys, steps: seq<Step>)
    decreases |steps|
  {
    steps == [] || (Enabled(s, steps[0]) && IsRun(Next(s, steps[0]), steps[1..]))
  }

  ghost function Final(s: Sys, steps: seq<Step>): Sys
    requires IsRun(s, steps)
    decreases |steps|
  {
    if steps == [] then s else Final(Next(s, steps[0]), steps[1..])
  }

  // ---- the held sender ----

  /** A port jog holds the sender; the port waits exactly while a line of its own is
      in the multiplexer; and a deferred line waits only where none is. */
  predicate Held(s: Sys) {
    && s.port.rx.hold == s.f.hold && (s.f.portJog ==> s.f.hold)
    && s.f.awaiting == s.port.rx.injActive && Injecting(s.port.rx)
    && (s.f.deferred.Waiting? ==> !s.f.awaiting)
  }

  /** An injection in the multiplexer. */
  predicate Injecting(r: Rx) {
    (r.injDue ==> r.injActive) && (r.injLeft > 0 ==> r.injActive && !r.injDue)
  }

  /** The core's step answers an injection. */
  predicate Answers(r: Rx, a: SerialLines.Step) {
    r.injActive && ((a.Status? && r.injDue) || a.Reset? || a.CancelRead?)
  }

  /** What a core step does to the injection: on says that it goes on. */
  predicate Keeps(r: Rx, t: Rx, on: bool) { Injecting(t) && t.hold == r.hold && t.injActive == on }

  lemma StoreInjecting(r: Rx, b: byte)
    requires Injecting(r)
    ensures Keeps(r, Store(r, b), r.injActive)
  {
    hide Unwrite, IsEol;
  }

  lemma GetInjecting(r: Rx, err: int)
    requires Injecting(r) && CanGet(r)
    ensures Keeps(r, Get(r, err), r.injActive)
  {
    hide IsEol;
  }

  lemma CoreInjecting(p: Port, a: SerialLines.Step)
    requires SerialLines.Enabled(p, a) && !a.Hold? && !a.Line? && Injecting(p.rx)
    ensures Keeps(p.rx, SerialLines.Next(p, a).rx, p.rx.injActive && !Answers(p.rx, a))
  {
    hide Store, Get, CanGet, IsEol;
    match a {
      case Byte(b) => StoreInjecting(p.rx, b);
      case Read => GetInjecting(p.rx, p.err);
      case Status(_) =>
      case Reset =>
      case CancelRead =>
    }
  }

  lemma GatedHeld(s: Sys)
    requires (s.f.portJog ==> s.f.hold) && s.f.awaiting == s.port.rx.injActive && Injecting(s.port.rx)
    requires s.f.deferred.Waiting? ==> !s.f.awaiting
    ensures Held(Gated(s))
  {
  }

  lemma AnsweredHolds(s: Sys, c: SerialLines.Step)
    requires Held(s)
    ensures var g := Answered(s, c);
            && (g.portJog ==> g.hold) && g.awaiting == (s.f.awaiting && !Answers(s.port.rx, c))
            && g.deferred == s.f.deferred
  {
    match c {
      case Byte(_) =>
      case Read =>
      case Line(_) =>
      case Status(_) =>
      case Hold(_) =>
      case Reset =>
      case CancelRead =>
    }
  }

  lemma CoreHeld(s: Sys, c: SerialLines.Step)
    requires Enabled(s, Core(c)) && Held(s)
    ensures Held(Next(s, Core(c)))
  {
    CoreInjecting(s.port, c);
    AnsweredHolds(s, c);
    hide SerialLines.Next, SerialLines.Enabled, Gated, Answered, Answers, Injecting, Pending;
    GatedHeld(s.(port := SerialLines.Next(s.port, c), f := Answered(s, c)));
  }

  lemma HandHeld(s: Sys, line: seq<byte>, jog: bool)
    requires Held(s) && Asks(s)
    ensures Held(Hand(s, line, jog))
  {
    hide EmptyLinesOnly, CanInject;
    if CanInject(s.port.rx, line) { InjectInjects(s.port.rx, line); }
    hide Inject, Injecting;
  }

  lemma InjectInjects(r: Rx, line: seq<byte>)
    requires CanInject(r, line)
    ensures var t := Inject(r, line); Injecting(t) && t.injActive && t.hold == r.hold
  {
  }

  lemma RetryHeld(s: Sys, late: bool)
    requires Held(s) && s.f.deferred.Waiting?
    ensures Held(Retry(s, late))
  {
    hide Pending;
  }

  lemma PollHeld(f: Flags, jogging: bool, pending: bool)
    requires f.portJog ==> f.hold
    ensures var g := Poll(f, jogging, pending);
            (g.portJog ==> g.hold) && g.awaiting == f.awaiting && g.deferred == f.deferred
  {
  }

  lemma StepHeld(s: Sys, a: Step)
    requires Enabled(s, a) && Held(s)
    ensures Held(Next(s, a))
  {
    if a.Core? {
      CoreHeld(s, a.a);
    } else {
      OwnHeld(s, a);
    }
  }

  lemma OwnHeld(s: Sys, a: Step)
    requires Enabled(s, a) && Held(s) && !a.Core?
    ensures Held(Next(s, a))
  {
    hide Hand, Retry, Poll, Pending, Injecting;
    match a {
      case CoreJogs(_) =>
      case AskJog(line) => HandHeld(s, line, true);
      case AskTray(line, out) => HandHeld(s.(f := s.f.(tray := if out then 1 else 0)), line, false);
      case AskCommand(line) => HandHeld(s, line, false);
      case TryAgain(late) => RetryHeld(s, late);
      case Polled =>
        var g := s.(f := Poll(s.f, s.jogging, Pending(s.port.rx)));
        PollHeld(s.f, s.jogging, Pending(s.port.rx));
        GatedHeld(g);
      case Gone =>
      case Envelope(_) =>
    }
  }

  lemma {:induction false} RunHeld(s: Sys, steps: seq<Step>)
    requires IsRun(s, steps) && Held(s)
    ensures Held(Final(s, steps))
    decreases |steps|
  {
    hide Held, Next, Enabled;
    if steps != [] {
      StepHeld(s, steps[0]);
      RunHeld(Next(s, steps[0]), steps[1..]);
    }
  }

  /** Over every run: while the jog is the port's, the read gate is closed, so what
      the core can read next is a byte of an injected line, a cancel, or the end of
      an empty line; and every other byte of the sender stays where it is. */
  lemma SenderHeldDuringJog(s: Sys, steps: seq<Step>)
    requires Initial(s) && IsRun(s, steps)
    ensures var t := Final(s, steps); var r := t.port.rx;
            && (t.f.portJog ==> r.hold)
            && t.f.awaiting == r.injActive
            && (t.f.portJog && CanGet(r) && r.injLeft == 0 ==> r.q[0] == CAN || (IsEol(r.q[0]) && !r.readMidline))
  {
    RunHeld(s, steps);
  }

  /** An accepted jog becomes the port's exactly when no tray switch is on record: a
      record that a lost client left behind takes the jog's answer for its own. */
  lemma JogHoldsExactly(s: Sys, err: int)
    requires Held(s) && s.port.rx.injDue && s.port.run.Owed? && s.f.awaitingJog && !s.f.portJog
    ensures var t := Next(s, Core(Status(err)));
            && (t.f.portJog <==> err == STATUS_OK && s.f.tray < 0)
            && (t.f.portJog ==> t.port.rx.hold)
  {
  }

  /** The answer to a line in flight, whatever it was: it is over, its tray switch with it;
      the jog is the port's from an accepted jog with no switch on record, and then the
      gate closes and its cancel is still to come. A line lost to a reset or a cancel is
      over the same way, and changes nothing else. */
  lemma AnsweredExactly(s: Sys, err: int)
    requires Held(s)
    ensures s.port.rx.injDue && s.port.run.Owed? ==>
              var t := Next(s, Core(Status(err))); var jogs := err == STATUS_OK && s.f.tray < 0 && s.f.awaitingJog;
              && !t.f.awaiting && t.f.tray == -1 && t.port.rx.hold == t.f.hold
              && (t.f.portJog <==> s.f.portJog || jogs) && (t.f.hold <==> s.f.hold || jogs)
              && (t.f.cancelSent <==> s.f.cancelSent && !jogs)
    ensures !s.port.rx.injDue && s.port.run.Owed? ==> Next(s, Core(Status(err))).f == s.f
    ensures Next(s, Core(Reset)).f == (if s.port.rx.injActive then s.f.(awaiting := false, tray := -1) else s.f)
    ensures Next(s, Core(CancelRead)).f == (if s.port.rx.injActive then s.f.(awaiting := false, tray := -1) else s.f)
  {
    hide Flush, Cancel, Injecting, Pending, CanInject;
    if s.port.rx.injDue && s.port.run.Owed? { DueAnswered(s, err); }
    hide AfterStatus, SerialLines.Enabled;
  }

  lemma DueAnswered(s: Sys, err: int)
    requires Held(s) && s.port.rx.injDue && s.port.run.Owed?
    ensures var t := Next(s, Core(Status(err))); var jogs := err == STATUS_OK && s.f.tray < 0 && s.f.awaitingJog;
            && !t.f.awaiting && t.f.tray == -1 && t.port.rx.hold == t.f.hold
            && (t.f.portJog <==> s.f.portJog || jogs) && (t.f.hold <==> s.f.hold || jogs)
            && (t.f.cancelSent <==> s.f.cancelSent && !jogs)
  {
    hide Flush, Cancel, Injecting, Pending, CanInject;
    assert Answered(s, Status(err)) == LineDone(s.f, err);
  }

  // ---- the gate opens again ----

  /** The gate is closed only for the port's jog or its envelope. */
  predicate Needed(f: Flags) { f.hold ==> f.portJog || f.envelopeHold }

  lemma StepNeeded(s: Sys, a: Step)
    requires Enabled(s, a) && Needed(s.f)
    ensures Needed(Next(s, a).f)
  {
    hide Pending, CanInject, SerialLines.Next, SerialLines.Enabled, EmptyLinesOnly;
    match a {
      case Core(c) => AnsweredNeeded(s, c);
      case CoreJogs(_) =>
      case AskJog(_) =>
      case AskTray(_, _) =>
      case AskCommand(_) =>
      case TryAgain(_) =>
      case Polled => PollNeeded(s.f, s.jogging, Pending(s.port.rx));
      case Gone =>
      case Envelope(_) =>
    }
  }

  lemma AnsweredNeeded(s: Sys, c: SerialLines.Step)
    requires Needed(s.f)
    ensures Needed(Answered(s, c))
  {
    match c {
      case Byte(_) =>
      case Read =>
      case Line(_) =>
      case Status(_) =>
      case Hold(_) =>
      case Reset =>
      case CancelRead =>
    }
  }

  lemma PollNeeded(f: Flags, jogging: bool, pending: bool)
    requires Needed(f)
    ensures Needed(Poll(f, jogging, pending))
  {
  }

  lemma {:induction false} RunNeeded(s: Sys, steps: seq<Step>)
    requires IsRun(s, steps) && Needed(s.f)
    ensures Needed(Final(s, steps).f)
    decreases |steps|
  {
    hide Needed, Next, Enabled;
    if steps != [] {
      StepNeeded(s, steps[0]);
      RunNeeded(Next(s, steps[0]), steps[1..]);
    }
  }

  /** What a poll decides, in its inputs: the jog ends with the core's, once no line is in
      flight; a sender's line asks for its cancel once; the envelope closes on a sender's
      line outside the jog; and the gate is closed for the jog, or for an open envelope no
      sender's line waits behind. */
  predicate Polls(f: Flags, jogging: bool, pending: bool, g: Flags) {
    && (g.portJog <==> f.portJog && (f.awaiting || jogging))
    && (g.cancelSent <==> f.cancelSent || (f.portJog && !f.awaiting && jogging && pending))
    && (g.envelopeOpen <==> f.envelopeOpen && (f.awaiting || !pending || g.portJog))
    && (g.hold <==> g.portJog || (f.envelopeOpen && if f.awaiting then f.hold else !pending))
    && g == f.(portJog := g.portJog, cancelSent := g.cancelSent, hold := g.hold,
               envelopeOpen := g.envelopeOpen, envelopeHold := g.envelopeHold)
  }

  lemma PollDecides(f: Flags, jogging: bool, pending: bool)
    requires Needed(f) && (f.portJog ==> f.hold)
    ensures Polls(f, jogging, pending, Poll(f, jogging, pending))
  {
  }

  /** The gate opens again, over every run: it is closed only for the port's jog or its
      envelope. Whatever a run reaches, a poll decides as said; with no line in flight and
      the core out of the jog it ends the jog, and leaves the gate open exactly when the
      envelope is closed or a sender's line waits; and behind an open gate whatever waits
      is the core's to read. */
  lemma GateOpensAgain(s: Sys, steps: seq<Step>)
    requires Initial(s) && IsRun(s, steps)
    ensures var t := Final(s, steps); var u := Next(t, Polled); var pending := Pending(t.port.rx);
            && (t.f.hold ==> t.f.portJog || t.f.envelopeHold)
            && Polls(t.f, t.jogging, pending, u.f) && u.port.rx == t.port.rx.(hold := u.f.hold)
            && (!t.f.awaiting && !t.jogging ==> !u.f.portJog && (u.f.hold <==> t.f.envelopeOpen && !pending))
            && (!u.f.hold ==> (CanGet(u.port.rx) <==> t.port.rx.q != []))
  {
    RunHeld(s, steps);
    RunNeeded(s, steps);
    hide IsRun, Final, Pending, Injecting, CanGet, Needed, Polls, Next;
    PolledGate(Final(s, steps));
  }

  lemma PolledGate(t: Sys)
    requires Needed(t.f) && Held(t)
    ensures var u := Next(t, Polled); var pending := Pending(t.port.rx);
            && (t.f.hold ==> t.f.portJog || t.f.envelopeHold)
            && Polls(t.f, t.jogging, pending, u.f) && u.port.rx == t.port.rx.(hold := u.f.hold)
            && (!t.f.awaiting && !t.jogging ==> !u.f.portJog && (u.f.hold <==> t.f.envelopeOpen && !pending))
            && (!u.f.hold ==> (CanGet(u.port.rx) <==> t.port.rx.q != []))
  {
    hide Pending, Injecting;
    PollDecides(t.f, t.jogging, Pending(t.port.rx));
    hide Poll;
  }

  /** A client lost: its jog is cancelled once, if the core jogs, and nothing of it waits. */
  lemma LostClient(s: Sys)
    ensures var u := Next(s, Gone);
            && (u.f.cancelSent <==> s.f.cancelSent || (s.f.portJog && s.jogging))
            && u == s.(f := s.f.(cancelSent := u.f.cancelSent, deferred := None, envelopeOpen := false))
  {
  }

  /** A line handed over goes into the ring exactly when the ring is empty, the sender is
      between lines, nothing injected is unanswered and it fits; it waits exactly when
      only empty lines of the sender stand before it; and it is refused otherwise. */
  lemma HandedExactly(s: Sys, line: seq<byte>, jog: bool)
    requires Held(s) && Asks(s)
    ensures var t, r := Hand(s, line, jog), s.port.rx;
            var room := line != [] && |line| + 1 <= r.size - 1;
            var quiet := r.q == [] && !r.senderMidline && !r.discarding;
            && (t.f.awaiting <==> quiet && room)
            && (t.f.awaiting ==> t.port.rx.q == line + [r.senderEol] && t.f.awaitingJog == jog)
            && (t.f.deferred == Waiting(line, jog) <==> r.q != [] && forall i :: 0 <= i < |r.q| ==> IsEol(r.q[i]))
            && (!t.f.awaiting ==> t.port == s.port)
  {
  }

  /** A waiting line tried again: the same, and it is given up when the sender has more
      than empty lines, or its time is up. */
  lemma RetriedExactly(s: Sys, late: bool)
    requires Held(s) && s.f.deferred.Waiting?
    ensures var t, r, line := Retry(s, late), s.port.rx, s.f.deferred.line;
            var goes := r.q == [] && !r.senderMidline && !r.discarding && line != [] && |line| + 1 <= r.size - 1;
            && (t.f.awaiting <==> goes)
            && (goes ==> t.port.rx.q == line + [r.senderEol] && t.f.awaitingJog == s.f.deferred.jog && t.f.deferred.None?)
            && (!goes ==> t.port == s.port && (t.f.deferred.None? <==> Pending(r) || late))
  {
    var r, line := s.port.rx, s.f.deferred.line;
    assert CanInject(r, line) <==>
           r.q == [] && !r.senderMidline && !r.discarding && line != [] && |line| + 1 <= r.size - 1;
    hide Pending, CanInject, Injecting;
    if CanInject(r, line) {
      assert Inject(r, line).q == line + [r.senderEol];
      hide Inject;
    }
  }

  // ---- how that record comes about ----

  ghost predicate Leads(s: Sys, t: Sys) { exists steps :: IsRun(s, steps) && Final(s, steps) == t }

  lemma {:induction false} OneMore(s: Sys, steps: seq<Step>, a: Step)
    requires IsRun(s, steps) && Enabled(Final(s, steps), a)
    ensures IsRun(s, steps + [a]) && Final(s, steps + [a]) == Next(Final(s, steps), a)
    decreases |steps|
  {
    hide Next, Enabled;
    var all := steps + [a];
    if steps == [] {
      assert all[0] == a && all[1..] == [];
      NoMore(Next(s, a), all[1..]);
    } else {
      assert all[0] == steps[0] && all[1..] == steps[1..] + [a];
      OneMore(Next(s, steps[0]), steps[1..], a);
    }
  }

  lemma NoMore(s: Sys, none: seq<Step>)
    requires |none| == 0
    ensures IsRun(s, none) && Final(s, none) == s
  {
  }

  lemma Here(s: Sys)
    ensures Leads(s, s)
  {
    var none: seq<Step> := [];
    NoMore(s, none);
    hide IsRun, Final;
    assert IsRun(s, none);
  }

  lemma Then(s0: Sys, s: Sys, a: Step, t: Sys)
    requires Leads(s0, s) && Enabled(s, a) && Next(s, a) == t
    ensures Leads(s0, t)
  {
    var steps :| IsRun(s0, steps) && Final(s0, steps) == s;
    hide IsRun, Final, Next, Enabled;
    OneMore(s0, steps, a);
  }

  /** The sender's empty line, a tray switch deferred behind it, its client gone, the
      empty line read: the switch is on record, and nothing else is under way. */
  predicate Stale(s: Sys) {
    && !s.port.rx.hold && !s.f.hold && !s.f.awaiting && !s.f.portJog && s.f.deferred.None? && s.f.tray >= 0
    && s.port.rx.q == [] && !s.port.rx.discarding && !s.port.rx.senderMidline && IsEol(s.port.rx.senderEol)
    && !s.port.rx.injActive && s.port.rx.injLeft == 0 && !s.port.rx.injDue && !s.jogging
    && (s.port.run.Owed? ==> s.port.run.empty)
  }

  lemma NonePending(r: Rx)
    requires r.q == [] || r.q == [LF]
    ensures !Pending(r)
  {
  }

  /** The record with the sender's empty line in the ring. */
  function EmptyLine(s: Sys): Sys {
    s.(port := s.port.(rx := s.port.rx.(q := [LF], senderMidline := false, senderEol := LF)))
  }

  lemma EmptyLineIn(s: Sys)
    requires Initial(s) && s.port.rx.size >= 3
    ensures Enabled(s, Core(Byte(LF))) && Next(s, Core(Byte(LF))) == EmptyLine(s)
  {
    hide Unwrite, Pending;
    assert Store(s.port.rx, LF) == EmptyLine(s).port.rx;
  }

  /** Behind it the tray switch waits. */
  lemma TrayWaits(s: Sys, tray: seq<byte>)
    requires Initial(s) && !s.jogging && tray != []
    ensures var t := EmptyLine(s);
            && Enabled(t, AskTray(tray, true))
            && Next(t, AskTray(tray, true)) == t.(f := t.f.(tray := 1, deferred := Waiting(tray, false)))
  {
    NonePending(EmptyLine(s).port.rx);
    hide Pending;
  }

  lemma ClientGone(s: Sys)
    requires !s.f.portJog
    ensures Enabled(s, Gone) && Next(s, Gone) == s.(f := s.f.(deferred := None, envelopeOpen := false))
  {
  }

  lemma EmptyLineRead(s: Sys)
    requires Initial(s)
    ensures var e := EmptyLine(s); var t := e.(f := e.f.(tray := 1, envelopeOpen := false));
            && Enabled(t, Core(Read)) && Next(t, Core(Read)).port.rx.size == s.port.rx.size
            && (!s.jogging ==> Stale(Next(t, Core(Read))))
  {
    hide Pending;
  }

  lemma TrayOnRecord(s: Sys, tray: seq<byte>) returns (t: Sys)
    requires Initial(s) && !s.jogging && s.port.rx.size >= 3 && tray != []
    ensures Leads(s, t) && Stale(t) && t.port.rx.size == s.port.rx.size
  {
    var s1 := EmptyLine(s);
    var s2 := s1.(f := s1.f.(tray := 1, deferred := Waiting(tray, false)));
    var s3 := s2.(f := s2.f.(deferred := None, envelopeOpen := false));
    Here(s);
    EmptyLineIn(s);
    TrayWaits(s, tray);
    ClientGone(s2);
    assert s3 == s1.(f := s1.f.(tray := 1, envelopeOpen := false));
    EmptyLineRead(s);
    hide Leads, Next, Enabled, Stale;
    t := Next(s3, Core(Read));
    Then(s, s, Core(Byte(LF)), s1);
    Then(s, s1, AskTray(tray, true), s2);
    Then(s, s2, Gone, s3);
    Then(s, s3, Core(Read), t);
  }

  /** The port's jog line in the ring, its first n bytes still to be read. */
  predicate Injected(s: Sys, n: nat) {
    && !s.port.rx.hold && !s.f.hold && s.f.awaiting && s.f.awaitingJog && !s.f.portJog && s.f.tray >= 0 && !s.jogging
    && s.port.rx.injActive && s.port.rx.injLeft == n && |s.port.rx.q| == n
    && (if n == 0 then s.port.rx.injDue && s.port.run == Owed(false)
        else
          && !s.port.rx.injDue && IsEol(s.port.rx.q[n - 1]) && (s.port.run.Owed? ==> s.port.run.empty)
          && (n == 1 ==> s.port.rx.readMidline)
          && forall i :: 0 <= i < n - 1 ==> !IsEol(s.port.rx.q[i]))
  }

  lemma JogIn(s: Sys, jog: seq<byte>)
    requires Stale(s) && jog != [] && |jog| + 1 <= s.port.rx.size - 1 && forall i :: 0 <= i < |jog| ==> !IsEol(jog[i])
    ensures Enabled(s, AskJog(jog)) && Injected(Next(s, AskJog(jog)), |jog| + 1)
  {
    NonePending(s.port.rx);
    hide Pending;
  }

  lemma ReadOne(s: Sys, n: nat)
    requires n > 0 && Injected(s, n)
    ensures Enabled(s, Core(Read)) && Injected(Next(s, Core(Read)), n - 1)
  {
  }

  lemma {:induction false} ReadAll(s0: Sys, s: Sys, n: nat) returns (t: Sys)
    requires Leads(s0, s) && Injected(s, n)
    ensures Leads(s0, t) && Injected(t, 0)
    decreases n
  {
    hide Leads, Injected, Next, Enabled;
    if n == 0 {
      t := s;
    } else {
      ReadOne(s, n);
      var u := Next(s, Core(Read));
      Then(s0, s, Core(Read), u);
      t := ReadAll(s0, u, n - 1);
    }
  }

  /** The core accepts the port's jog and jogs, and the sender is not held: the jog is
      not on the port's record. */
  ghost predicate UnheldJog(s: Sys, steps: seq<Step>) {
    IsRun(s, steps) &&
    var t := Final(s, steps);
    t.jogging && !t.f.portJog && !t.port.rx.hold && !t.f.awaiting && t.f.awaitingJog
  }

  /** A tray switch deferred behind the sender's empty line, its client gone, and a later
      client's jog taken through to its status: the switch takes the jog's answer. */
  lemma LostClientLeavesTheTray(s: Sys, tray: seq<byte>, jog: seq<byte>)
    requires Initial(s) && !s.jogging && tray != []
    requires jog != [] && |jog| + 1 <= s.port.rx.size - 1 && forall i :: 0 <= i < |jog| ==> !IsEol(jog[i])
    ensures exists steps :: UnheldJog(s, steps)
  {
    hide Leads, Stale, Injected, Next;
    var s1 := TrayOnRecord(s, tray);
    JogIn(s1, jog);
    var s2 := Next(s1, AskJog(jog));
    Then(s, s1, AskJog(jog), s2);
    var s3 := ReadAll(s, s2, |jog| + 1);
    JogAnswered(s3);
    var s4 := Next(s3, Core(Status(STATUS_OK)));
    Then(s, s3, Core(Status(STATUS_OK)), s4);
    var s5 := Next(s4, CoreJogs(true));
    Then(s, s4, CoreJogs(true), s5);
    Unheld(s, s5);
  }

  lemma JogAnswered(s: Sys)
    requires Injected(s, 0)
    ensures Enabled(s, Core(Status(STATUS_OK)))
    ensures var t := Next(s, Core(Status(STATUS_OK)));
            && !t.f.portJog && !t.port.rx.hold && !t.f.awaiting && t.f.awaitingJog
            && Enabled(t, CoreJogs(true)) && Next(t, CoreJogs(true)) == t.(jogging := true)
  {
  }

  lemma Unheld(s: Sys, t: Sys)
    requires Leads(s, t) && t.jogging && !t.f.portJog && !t.port.rx.hold && !t.f.awaiting && t.f.awaitingJog
    ensures exists steps :: UnheldJog(s, steps)
  {
    var steps :| IsRun(s, steps) && Final(s, steps) == t;
    hide IsRun, Final;
    assert UnheldJog(s, steps);
  }

  // ---- the numbers a reply prints ----

  function DecimalDigit(d: nat): (c: char)
    requires d <= 9
    ensures '0' <= c <= '9'
  {
    ('0' as int + d) as char
  }

  /** A number in decimal. */
  function Decimal(n: nat): (s: string)
    ensures s != []
  {
    if n <= 9 then [DecimalDigit(n)] else Decimal(n / 10) + [DecimalDigit(n % 10)]
  }

  lemma {:induction false} DecimalStarts(n: nat)
    ensures '0' <= Decimal(n)[0] <= '9'
  {
    if n > 9 { DecimalStarts(n / 10); }
  }

  /** Two numbers print alike only when they are the same. */
  lemma {:induction false} DecimalInjective(m: nat, n: nat)
    requires Decimal(m) == Decimal(n)
    ensures m == n
  {
    var s, t := Decimal(m), Decimal(n);
    assert s[|s| - 1] == t[|t| - 1] && s[..|s| - 1] == t[..|t| - 1];
    assert m % 10 == n % 10 by {
      assert s[|s| - 1] == DecimalDigit(m % 10) && t[|t| - 1] == DecimalDigit(n % 10);
    }
    if m > 9 && n > 9 {
      assert s[..|s| - 1] == Decimal(m / 10) && t[..|t| - 1] == Decimal(n / 10);
      DecimalInjective(m / 10, n / 10);
    }
  }

  // ---- the flags in place ----

  class Panel {
    var awaiting: bool
    var awaitingJog: bool
    var portJog: bool
    var cancelSent: bool
    var envelopeHold: bool
    var envelopeOpen: bool
    var hold: bool
    var tray: int
    var deferred: Deferred

    ghost function State(): Flags
      reads this
    {
      Flags(awaiting, awaitingJog, portJog, cancelSent, envelopeHold, envelopeOpen, hold, tray, deferred)
    }

    method CancelPortJog(jogging: bool) returns (flag: bool)
      modifies this`cancelSent
      ensures State() == CancelJog(old(State()), jogging) && flag == (cancelSent && !old(cancelSent))
    {
      flag := portJog && !cancelSent && jogging;
      if flag { cancelSent := true; }
    }

    /** The status callback, and what it answers the client: ok exactly to an accepted
        line whose tray mode, if it asked for one, is in force. */
    method OnStatus(status: int, trayOut: bool) returns (reply: string)
      modifies this
      ensures State() == LineDone(old(State()), status)
      ensures reply == "ok" <==> status == STATUS_OK && (old(tray) < 0 || trayOut == (old(tray) == 1))
      ensures reply == "error:saved" <==> status == STATUS_OK && old(tray) >= 0 && trayOut != (old(tray) == 1)
      ensures reply == "error:aborted" <==> status < 0
      ensures status > 0 ==> reply == "error:" + Decimal(status)
    {
      var want := tray;
      awaiting, tray := false, -1;
      if status == STATUS_OK && want >= 0 {
        reply := if trayOut == (want == 1) then "ok" else "error:saved";
      } else if status == STATUS_OK && !awaitingJog {
        reply := "ok";
      } else if status == STATUS_OK {
        portJog, cancelSent, hold := true, false, true;
        reply := "ok";
      } else if status < 0 {
        reply := "error:aborted";
      } else {
        DecimalStarts(status);
        reply := "error:" + Decimal(status);
        assert reply[6] == Decimal(status)[0];
      }
    }

    method OnPoll(jogging: bool, pending: bool)
      modifies this
      ensures State() == Poll(old(State()), jogging, pending)
    {
      if portJog && !awaiting {
        if !jogging {
          portJog, hold := false, false;
        } else if pending {
          var _ := CancelPortJog(jogging);
        }
      }
      if envelopeOpen && !awaiting {
        if !pending {
          hold, envelopeHold := true, true;
        } else if portJog {
          var _ := CancelPortJog(jogging);
        } else {
          envelopeOpen, hold, envelopeHold := false, false, false;
        }
      } else if envelopeHold && !envelopeOpen {
        envelopeHold := false;
        if !portJog { hold := false; }
      }
    }

    method DropPortClient(jogging: bool)
      modifies this
      ensures State() == DropClient(old(State()), jogging)
    {
      deferred := None;
      var _ := CancelPortJog(jogging);
      envelopeOpen := false;
    }
  }
}
