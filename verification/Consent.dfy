/** Consent before the window (src/glowforge_laser.c): the arm's button wait, the
    re-arm of a held job, the acknowledgment behind both, and the disarm that may
    land at any point of them. */
module Consent {

  const READ_FAILS_MAX := 3

  // ---- the switches ----

  /** A raw read of the switch device: the doors bit is set when the lid is closed,
      the interlock bit when the loop is open. */
  datatype Raw = NoRead | Bits(doors: bool, interlock: bool, button: bool)

  datatype Switch = Waiting | Pressed | LidOpen | InterlockOpen | Unreadable

  function ArmSwitches(raw: Raw): Switch {
    match raw
    case NoRead => Unreadable
    case Bits(doors, interlock, button) =>
      if !doors then LidOpen else if interlock then InterlockOpen else if button then Pressed else Waiting
  }

  /** The button is up, or down, with the lid and the loop closed. */
  predicate Up(raw: Raw) { raw == Bits(true, false, false) }

  predicate Down(raw: Raw) { raw == Bits(true, false, true) }

  // ---- the button wait ----

  /** One turn of the wait: the sender is the one that asked, an alarm stands, the
      switches, whether the pump came back without a reset, the deadline. */
  datatype Turn = Turn(sameSender: bool, alarm: bool, raw: Raw, pumped: bool, late: bool)

  datatype Wait = Going(released: bool, unreadable: nat) | Yes | No

  /** The switches as this wait takes them: a button down since before it is not
      consent. */
  function Taken(t: Turn, released: bool): Switch {
    var sw := ArmSwitches(t.raw);
    if sw == Pressed && !released then Waiting else sw
  }

  function WaitTurn(w: Wait, t: Turn): Wait
    requires w.Going?
  {
    if !t.sameSender || t.alarm then No
    else
      var sw := Taken(t, w.released);
      var released := w.released || ArmSwitches(t.raw) == Waiting;
      var unreadable := if sw == Unreadable then w.unreadable + 1 else 0;
      if unreadable >= READ_FAILS_MAX then No
      else if sw == Pressed then Yes
      else if sw == LidOpen || sw == InterlockOpen then (if t.pumped then Going(released, unreadable) else No)
      else if !t.pumped || t.late then No
      else Going(released, unreadable)
  }

  function WaitOver(w: Wait, turns: seq<Turn>): Wait
    decreases |turns|
  {
    if turns == [] || !w.Going? then w else WaitOver(WaitTurn(w, turns[0]), turns[1..])
  }

  /** The wait as the arm runs it. */
  method ButtonWait(turns: seq<Turn>) returns (pressed: bool, aborted: bool)
    ensures !(pressed && aborted)
    ensures pressed <==> WaitOver(Going(false, 0), turns).Yes?
    ensures aborted <==> WaitOver(Going(false, 0), turns).No?
  {
    pressed, aborted := false, false;
    var released, unreadable, i := false, 0, 0;
    assert turns[0..] == turns;
    while !pressed && !aborted && i < |turns|
      invariant 0 <= i <= |turns| && !(pressed && aborted)
      invariant WaitOver(Going(false, 0), turns) ==
                WaitOver(if pressed then Yes else if aborted then No else Going(released, unreadable), turns[i..])
      decreases |turns| - i, !pressed && !aborted
    {
      var t := turns[i];
      assert turns[i..][1..] == turns[i + 1..];
      i := i + 1;
      if !t.sameSender || t.alarm {
        aborted := true;
        break;
      }
      var sw := ArmSwitches(t.raw);
      if sw == Waiting {
        released := true;
      } else if sw == Pressed && !released {
        sw := Waiting;
      }
      if sw == Unreadable {
        unreadable := unreadable + 1;
        if unreadable >= READ_FAILS_MAX {
          aborted := true;
          break;
        }
      } else {
        unreadable := 0;
      }
      match sw {
        case Pressed => pressed := true;
        case LidOpen => aborted := !t.pumped;
        case InterlockOpen => aborted := !t.pumped;
        case Waiting => aborted := !t.pumped || t.late;
        case Unreadable => aborted := !t.pumped || t.late;
      }
    }
  }

  /** A turn that neither ends the wait by a change of sender, an alarm, a reset or
      the deadline. */
  predicate Lives(t: Turn) {
    && t.sameSender && !t.alarm && t.pumped
    && (t.late ==> ArmSwitches(t.raw) == LidOpen || ArmSwitches(t.raw) == InterlockOpen)
  }

  /** The unreadable reads in a row that end with turn k. */
  function Streak(before: nat, turns: seq<Turn>, k: nat): nat
    requires k < |turns|
  {
    if turns[k].raw != NoRead then 0
    else 1 + (if k == 0 then before else Streak(before, turns, k - 1))
  }

  /** Consent at turn j: the button is down with everything closed, it was seen up
      at an earlier turn of this wait, and nothing ended the wait before. */
  ghost predicate ConsentAt(released: bool, before: nat, turns: seq<Turn>, j: nat) {
    && j < |turns| && Down(turns[j].raw) && turns[j].sameSender && !turns[j].alarm
    && (released || exists i :: 0 <= i < j && Up(turns[i].raw))
    && forall k :: 0 <= k < j ==> Lives(turns[k]) && Streak(before, turns, k) < READ_FAILS_MAX
  }

  lemma {:induction false} StreakShift(before: nat, turns: seq<Turn>, k: nat)
    requires k + 1 < |turns|
    ensures Streak(before, turns, k + 1) == Streak(Streak(before, turns, 0), turns[1..], k)
    decreases k
  {
    if k > 0 { StreakShift(before, turns, k - 1); }
  }

  lemma ConsentShift(released: bool, before: nat, turns: seq<Turn>, j: nat)
    requires turns != [] && Lives(turns[0]) && Streak(before, turns, 0) < READ_FAILS_MAX
    ensures ConsentAt(released, before, turns, j + 1) <==>
            ConsentAt(released || Up(turns[0].raw), Streak(before, turns, 0), turns[1..], j)
  {
    var rest, mid := turns[1..], Streak(before, turns, 0);
    forall k | 0 <= k < |rest|
      ensures Streak(before, turns, k + 1) == Streak(mid, rest, k)
    {
      StreakShift(before, turns, k);
    }
    if ConsentAt(released, before, turns, j + 1) {
      forall k | 0 <= k < j
        ensures Lives(rest[k]) && Streak(mid, rest, k) < READ_FAILS_MAX
      {
        assert Lives(turns[k + 1]) && Streak(before, turns, k + 1) < READ_FAILS_MAX;
      }
      if !released && !Up(turns[0].raw) {
        var i :| 0 <= i < j + 1 && Up(turns[i].raw);
        assert Up(rest[i - 1].raw);
      }
    }
    if ConsentAt(released || Up(turns[0].raw), mid, rest, j) {
      forall k | 0 <= k < j + 1
        ensures Lives(turns[k]) && Streak(before, turns, k) < READ_FAILS_MAX
      {
        assert k == 0 || (Lives(rest[k - 1]) && Streak(mid, rest, k - 1) < READ_FAILS_MAX);
      }
      if !released && !Up(turns[0].raw) {
        var i :| 0 <= i < j && Up(rest[i].raw);
        assert Up(turns[i + 1].raw);
      }
    }
  }

  /** A turn that the wait outlives, in both readings. */
  lemma TurnLives(released: bool, before: nat, turns: seq<Turn>)
    requires turns != []
    ensures var w := WaitTurn(Going(released, before), turns[0]);
            && (w.Yes? <==> ConsentAt(released, before, turns, 0))
            && (w.Going? ==> w == Going(released || Up(turns[0].raw), Streak(before, turns, 0))
                             && Lives(turns[0]) && Streak(before, turns, 0) < READ_FAILS_MAX)
            && (w.No? ==> !(Lives(turns[0]) && Streak(before, turns, 0) < READ_FAILS_MAX))
  {
  }

  /** The wait ends in consent exactly when, at some turn, the button is down with
      the lid and the loop closed, after it was seen up in this wait, and no turn
      before ended it: no other sender, alarm, reset, deadline, or three unreadable
      reads in a row. */
  lemma {:induction false} WaitExactly(released: bool, before: nat, turns: seq<Turn>)
    ensures WaitOver(Going(released, before), turns).Yes? <==> exists j :: ConsentAt(released, before, turns, j)
    decreases |turns|
  {
    if turns != [] {
      TurnLives(released, before, turns);
      var w := WaitTurn(Going(released, before), turns[0]);
      hide WaitTurn, Lives;
      if w.Yes? {
        assert ConsentAt(released, before, turns, 0);
        StopsThere(w, turns[1..]);
      } else if w.Going? {
        GoesOn(released, before, turns, w.released, w.unreadable, turns[1..]);
        WaitExactly(w.released, w.unreadable, turns[1..]);
      } else {
        StopsThere(w, turns[1..]);
        NoConsent(released, before, turns);
      }
    }
  }

  lemma {:induction false} StopsThere(w: Wait, turns: seq<Turn>)
    requires !w.Going?
    ensures WaitOver(w, turns) == w
  {
  }

  lemma NoConsent(released: bool, before: nat, turns: seq<Turn>)
    requires turns != [] && !ConsentAt(released, before, turns, 0)
    requires !(Lives(turns[0]) && Streak(before, turns, 0) < READ_FAILS_MAX)
    ensures forall j :: !ConsentAt(released, before, turns, j)
  {
    hide Lives, Streak;
  }

  lemma GoesOn(released: bool, before: nat, turns: seq<Turn>, up: bool, mid: nat, rest: seq<Turn>)
    requires turns != [] && Lives(turns[0]) && Streak(before, turns, 0) < READ_FAILS_MAX
    requires !ConsentAt(released, before, turns, 0)
    requires up == (released || Up(turns[0].raw)) && mid == Streak(before, turns, 0) && rest == turns[1..]
    ensures (exists j :: ConsentAt(released, before, turns, j)) <==> (exists j :: ConsentAt(up, mid, rest, j))
  {
    forall j: nat
      ensures ConsentAt(released, before, turns, j + 1) <==> ConsentAt(up, mid, rest, j)
    {
      ConsentShift(released, before, turns, j);
    }
    hide ConsentAt;
    if j: nat :| ConsentAt(released, before, turns, j) {
      var i: nat := j - 1;
      assert ConsentAt(released, before, turns, i + 1);
      assert ConsentAt(up, mid, rest, i);
    }
    if j: nat :| ConsentAt(up, mid, rest, j) {
      assert ConsentAt(released, before, turns, j + 1);
    }
  }

  // ---- the acknowledgment wait ----

  /** One turn of the acknowledgment wait, and the two checks behind it. */
  datatype Ack = Ack(acked: bool, pumped: bool, late: bool, fireOk: bool, head: bool)

  /** The wait goes on behind this turn. */
  predicate AckLives(a: Ack) { !a.acked && a.pumped && !a.late }

  // ---- the window, over every interleaving ----

  /** Where the protocol thread is: at rest, in the arm's wait, in the re-arm's
      (polled), or behind the press. */
  datatype Phase = Rest | Arming(w: Wait) | Rearming(released: bool, unreadable: nat) | Completing

  /** ok is the window, armed the stream's flag, locked the latch record, told what
      the cooling engine was last told. */
  datatype Window = Window(switches: bool, phase: Phase, ok: bool, armed: bool, locked: bool, told: bool)

  /** What the gates of an arm read, and whether the unlock took. */
  datatype Gates = Gates(fireOk: bool, head: bool, unlocked: bool)

  /** The steps; Witness is the emission witness, which locks outside a window. Both it
      and a disarm can land in any wait's pump. */
  datatype Step =
    | Arm(g: Gates) | ArmTurn(t: Turn)
    | Resume(g: Gates) | RearmTurn(held: bool, t: Turn)
    | AckTurn(a: Ack) | Disarm | Witness

  predicate Enabled(s: Window, a: Step) {
    match a
    case Arm(_) => s.phase.Rest? && !s.ok
    case Resume(_) => s.phase.Rest? && !s.ok
    case ArmTurn(_) => s.phase.Arming? && s.phase.w.Going?
    case RearmTurn(_, _) => s.phase.Rearming?
    case AckTurn(_) => s.phase.Completing?
    case Disarm => true
    case Witness => !s.ok
  }

  /** Every other exit: the latch locked, the engine told. The lock writes take. */
  function Refused(s: Window): Window { s.(phase := Rest, locked := true, told := false) }

  /** The gates, the engine told, the unlock; then the wait, or straight on where no
      switch can be read. */
  function Begin(s: Window, g: Gates, wait: Phase): Window {
    if !g.fireOk || !g.head then s
    else if !g.unlocked then s.(told := false)
    else s.(told := true, locked := false, phase := if s.switches then wait else Completing)
  }

  function RearmNext(s: Window, held: bool, t: Turn): Window
    requires s.phase.Rearming?
  {
    var sw := ArmSwitches(t.raw);
    if !held || !t.sameSender then Refused(s)
    else if sw == Unreadable then
      (if s.phase.unreadable + 1 >= READ_FAILS_MAX then Refused(s)
       else s.(phase := s.phase.(unreadable := s.phase.unreadable + 1)))
    else
      match sw
      case Pressed => if s.phase.released then s.(phase := Completing) else s.(phase := Rearming(false, 0))
      case LidOpen => Refused(s)
      case InterlockOpen => Refused(s)
      case Waiting => if t.late then Refused(s) else s.(phase := Rearming(true, 0))
  }

  function AckNext(s: Window, a: Ack): Window {
    if a.acked then (if a.fireOk && a.head then s.(phase := Rest, ok := true, armed := true) else Refused(s))
    else if !a.pumped || a.late then Refused(s)
    else s
  }

  /** The lock does not depend on the window. */
  function Disarmed(s: Window): Window {
    s.(ok := false, armed := false, locked := true, told := s.told && !s.ok && s.locked)
  }

  function Next(s: Window, a: Step): Window
    requires Enabled(s, a)
  {
    match a
    case Arm(g) => Begin(s, g, Arming(Going(false, 0)))
    case Resume(g) => Begin(s, g, Rearming(false, 0))
    case ArmTurn(t) =>
      var w := WaitTurn(s.phase.w, t);
      if w.Yes? then s.(phase := Completing) else if w.No? then Refused(s) else s.(phase := Arming(w))
    case RearmTurn(held, t) => RearmNext(s, held, t)
    case AckTurn(k) => AckNext(s, k)
    case Disarm => Disarmed(s)
    case Witness => s.(locked := true)
  }

  predicate Initial(s: Window) { s.phase.Rest? && !s.ok && !s.armed && s.locked && !s.told }

  ghost predicate IsRun(s: Window, steps: seq<Step>)
    decreases |steps|
  {
    steps == [] || (Enabled(s, steps[0]) && IsRun(Next(s, steps[0]), steps[1..]))
  }

  ghost function Final(s: Window, steps: seq<Step>): Window
    requires IsRun(s, steps)
    decreases |steps|
  {
    if steps == [] then s else Final(Next(s, steps[0]), steps[1..])
  }

  // ---- what each wait comes to ----

  /** The wait under way: an arm and a re-arm begin one exactly when all their gates pass,
      and an unlock that does not take leaves the engine told of nothing. */
  lemma BeginsExactly(s: Window, g: Gates, a: Step)
    requires (a == Arm(g) || a == Resume(g)) && Enabled(s, a)
    ensures var t := Next(s, a);
            && (!t.phase.Rest? <==> Passes(g))
            && (Passes(g) ==> t.told && !t.locked)
            && (Passes(g) && s.switches ==> t.phase == if a.Arm? then Arming(Going(false, 0)) else Rearming(false, 0))
            && (Passes(g) && !s.switches ==> t.phase.Completing?)
            && (!Passes(g) ==> t == s || (g.fireOk && g.head && t == s.(told := false)))
  {
  }

  /** A disarm locks and closes whatever the window is, and reports it closed unless there
      was nothing to close: no window, and a latch already locked. It ends no wait. */
  lemma DisarmsExactly(s: Window)
    ensures var t := Next(s, Disarm);
            && !t.ok && !t.armed && t.locked && t.phase == s.phase
            && (t.told <==> s.told && !s.ok && s.locked)
  {
  }

  ghost function AckOver(s: Window, acks: seq<Ack>): Window
    decreases |acks|
  {
    if acks == [] || !s.phase.Completing? then s else AckOver(AckNext(s, acks[0]), acks[1..])
  }

  /** The acknowledgment, the verdict and the head at turn j, and no turn before that ended
      the wait: no reset, no deadline, no acknowledgment. */
  ghost predicate AckAt(acks: seq<Ack>, j: nat) {
    && j < |acks| && acks[j].acked && acks[j].fireOk && acks[j].head
    && forall k :: 0 <= k < j ==> AckLives(acks[k])
  }

  lemma AckShift(acks: seq<Ack>, j: nat)
    requires acks != [] && AckLives(acks[0])
    ensures AckAt(acks, j + 1) <==> AckAt(acks[1..], j)
  {
    var rest := acks[1..];
    assert forall k :: 0 <= k < |rest| ==> rest[k] == acks[k + 1];
    if AckAt(rest, j) {
      forall k | 0 <= k < j + 1
        ensures AckLives(acks[k])
      {
        assert k == 0 || AckLives(rest[k - 1]);
      }
    }
    if AckAt(acks, j + 1) {
      forall k | 0 <= k < j
        ensures AckLives(rest[k])
      {
        assert AckLives(acks[k + 1]);
      }
    }
  }

  /** The acknowledgment wait opens the window, armed, exactly when a turn reads the
      acknowledgment, a passing verdict and a head, and no turn before ended it. */
  lemma {:induction false} AckExactly(s: Window, acks: seq<Ack>)
    requires s.phase.Completing? && !s.ok
    ensures var t := AckOver(s, acks);
            (t.ok && t.armed && t.phase.Rest? && t.locked == s.locked && t.told == s.told) <==>
            exists j :: AckAt(acks, j)
    ensures AckOver(s, acks).ok <==> exists j :: AckAt(acks, j)
    decreases |acks|
  {
    if acks != [] {
      var t := AckNext(s, acks[0]);
      assert AckAt(acks, 0) <==> acks[0].acked && acks[0].fireOk && acks[0].head;
      if AckLives(acks[0]) {
        AckExactly(t, acks[1..]);
        AckOn(acks, acks[1..]);
      } else {
        assert AckOver(t, acks[1..]) == t;
        AckStops(acks);
      }
    }
  }

  lemma AckOn(acks: seq<Ack>, rest: seq<Ack>)
    requires acks != [] && AckLives(acks[0]) && rest == acks[1..]
    ensures (exists j :: AckAt(acks, j)) <==> exists j :: AckAt(rest, j)
  {
    forall j: nat
      ensures AckAt(acks, j + 1) <==> AckAt(rest, j)
    {
      AckShift(acks, j);
    }
    assert !AckAt(acks, 0);
    hide AckAt;
    if j: nat :| AckAt(acks, j) {
      var i: nat := j - 1;
      assert AckAt(acks, i + 1);
      assert AckAt(rest, i);
    }
    if j: nat :| AckAt(rest, j) {
      assert AckAt(acks, j + 1);
    }
  }

  lemma AckStops(acks: seq<Ack>)
    requires acks != [] && !AckLives(acks[0])
    ensures (exists j :: AckAt(acks, j)) <==> AckAt(acks, 0)
  {
  }

  /** A poll of the re-arm: the job is still held, and the turn. */
  datatype Poll = Poll(held: bool, t: Turn)

  ghost function RearmOver(s: Window, polls: seq<Poll>): Window
    decreases |polls|
  {
    if polls == [] || !s.phase.Rearming? then s
    else RearmOver(RearmNext(s, polls[0].held, polls[0].t), polls[1..])
  }

  function TurnsOf(polls: seq<Poll>): (r: seq<Turn>)
    ensures |r| == |polls|
  {
    seq(|polls|, i requires 0 <= i < |polls| => polls[i].t)
  }

  /** A poll the re-arm outlives: the job held, the same sender, lid and loop closed, and
      the deadline ahead while the button is up. */
  predicate PollLives(p: Poll) {
    && p.held && p.t.sameSender && ArmSwitches(p.t.raw) != LidOpen && ArmSwitches(p.t.raw) != InterlockOpen
    && (p.t.late ==> ArmSwitches(p.t.raw) != Waiting)
  }

  /** The press at poll j: the button down with everything closed, it was seen up at an
      earlier poll of this wait, and nothing ended the wait before. */
  ghost predicate PressAt(released: bool, before: nat, polls: seq<Poll>, j: nat) {
    && j < |polls| && Down(polls[j].t.raw) && polls[j].held && polls[j].t.sameSender
    && (released || exists i :: 0 <= i < j && Up(polls[i].t.raw))
    && forall k :: 0 <= k < j ==> PollLives(polls[k]) && Streak(before, TurnsOf(polls), k) < READ_FAILS_MAX
  }

  lemma PressShift(released: bool, before: nat, polls: seq<Poll>, j: nat)
    requires polls != [] && PollLives(polls[0]) && Streak(before, TurnsOf(polls), 0) < READ_FAILS_MAX
    ensures PressAt(released, before, polls, j + 1) <==>
            PressAt(released || Up(polls[0].t.raw), Streak(before, TurnsOf(polls), 0), polls[1..], j)
  {
    var rest, mid := polls[1..], Streak(before, TurnsOf(polls), 0);
    assert TurnsOf(polls)[1..] == TurnsOf(rest);
    forall k | 0 <= k < |rest|
      ensures Streak(before, TurnsOf(polls), k + 1) == Streak(mid, TurnsOf(rest), k)
    {
      StreakShift(before, TurnsOf(polls), k);
    }
    if PressAt(released, before, polls, j + 1) {
      forall k | 0 <= k < j
        ensures PollLives(rest[k]) && Streak(mid, TurnsOf(rest), k) < READ_FAILS_MAX
      {
        assert PollLives(polls[k + 1]) && Streak(before, TurnsOf(polls), k + 1) < READ_FAILS_MAX;
      }
      if !released && !Up(polls[0].t.raw) {
        var i :| 0 <= i < j + 1 && Up(polls[i].t.raw);
        assert Up(rest[i - 1].t.raw);
      }
    }
    if PressAt(released || Up(polls[0].t.raw), mid, rest, j) {
      forall k | 0 <= k < j + 1
        ensures PollLives(polls[k]) && Streak(before, TurnsOf(polls), k) < READ_FAILS_MAX
      {
        assert k == 0 || (PollLives(rest[k - 1]) && Streak(mid, TurnsOf(rest), k - 1) < READ_FAILS_MAX);
      }
      if !released && !Up(polls[0].t.raw) {
        var i :| 0 <= i < j && Up(rest[i].t.raw);
        assert Up(polls[i + 1].t.raw);
      }
    }
  }

  /** The unreadable reads in a row behind this one. */
  function Misses(before: nat, raw: Raw): nat { if raw == NoRead then before + 1 else 0 }

  lemma OnePoll(s: Window, p: Poll)
    requires s.phase.Rearming?
    ensures var t, missed := RearmNext(s, p.held, p.t), Misses(s.phase.unreadable, p.t.raw);
            && (t.phase.Completing? <==> Down(p.t.raw) && p.held && p.t.sameSender && s.phase.released)
            && (t.phase.Rearming? ==>
                  && PollLives(p) && missed < READ_FAILS_MAX
                  && t == s.(phase := Rearming(s.phase.released || Up(p.t.raw), missed)))
            && (t.phase.Rest? ==> !(PollLives(p) && missed < READ_FAILS_MAX))
  {
    if !p.held || !p.t.sameSender {
      assert RearmNext(s, p.held, p.t) == Refused(s);
    } else {
      HeldPoll(s, p);
    }
  }

  lemma HeldPoll(s: Window, p: Poll)
    requires s.phase.Rearming? && p.held && p.t.sameSender
    ensures var t, missed := RearmNext(s, p.held, p.t), Misses(s.phase.unreadable, p.t.raw);
            && (t.phase.Completing? <==> Down(p.t.raw) && s.phase.released)
            && (t.phase.Rearming? ==>
                  && PollLives(p) && missed < READ_FAILS_MAX
                  && t == s.(phase := Rearming(s.phase.released || Up(p.t.raw), missed)))
            && (t.phase.Rest? ==> !(PollLives(p) && missed < READ_FAILS_MAX))
  {
    SwitchIs(p.t.raw);
    hide ArmSwitches, Up, Down;
    match ArmSwitches(p.t.raw) {
      case Waiting =>
      case Pressed =>
      case LidOpen =>
      case InterlockOpen =>
      case Unreadable =>
    }
  }

  lemma SwitchIs(raw: Raw)
    ensures (ArmSwitches(raw) == Pressed <==> Down(raw)) && (ArmSwitches(raw) == Waiting <==> Up(raw))
    ensures ArmSwitches(raw) == Unreadable <==> raw == NoRead
  {
  }

  /** A poll, in both readings. */
  lemma PollTurns(s: Window, polls: seq<Poll>)
    requires polls != [] && s.phase.Rearming?
    ensures var t := RearmNext(s, polls[0].held, polls[0].t);
            var released, before := s.phase.released, s.phase.unreadable;
            && (t.phase.Completing? <==> PressAt(released, before, polls, 0))
            && (t.phase.Rearming? ==>
                  && PollLives(polls[0]) && Streak(before, TurnsOf(polls), 0) < READ_FAILS_MAX
                  && t == s.(phase := Rearming(released || Up(polls[0].t.raw), Streak(before, TurnsOf(polls), 0))))
            && (t.phase.Rest? ==> !(PollLives(polls[0]) && Streak(before, TurnsOf(polls), 0) < READ_FAILS_MAX))
  {
    var p := polls[0];
    assert TurnsOf(polls)[0] == p.t;
    assert Streak(s.phase.unreadable, TurnsOf(polls), 0) == if p.t.raw != NoRead then 0 else 1 + s.phase.unreadable;
    assert PressAt(s.phase.released, s.phase.unreadable, polls, 0) <==>
           Down(p.t.raw) && p.held && p.t.sameSender && s.phase.released;
    hide Streak, PressAt, TurnsOf, RearmNext, PollLives;
    OnePoll(s, p);
  }

  lemma PressOn(released: bool, before: nat, polls: seq<Poll>, up: bool, mid: nat, rest: seq<Poll>)
    requires polls != [] && PollLives(polls[0]) && Streak(before, TurnsOf(polls), 0) < READ_FAILS_MAX
    requires !PressAt(released, before, polls, 0)
    requires up == (released || Up(polls[0].t.raw)) && mid == Streak(before, TurnsOf(polls), 0) && rest == polls[1..]
    ensures (exists j :: PressAt(released, before, polls, j)) <==> (exists j :: PressAt(up, mid, rest, j))
  {
    forall j: nat
      ensures PressAt(released, before, polls, j + 1) <==> PressAt(up, mid, rest, j)
    {
      PressShift(released, before, polls, j);
    }
    hide PressAt;
    if j: nat :| PressAt(released, before, polls, j) {
      var i: nat := j - 1;
      assert PressAt(released, before, polls, i + 1);
      assert PressAt(up, mid, rest, i);
    }
    if j: nat :| PressAt(up, mid, rest, j) {
      assert PressAt(released, before, polls, j + 1);
    }
  }

  lemma NoPress(released: bool, before: nat, polls: seq<Poll>)
    requires polls != [] && !PressAt(released, before, polls, 0)
    requires !(PollLives(polls[0]) && Streak(before, TurnsOf(polls), 0) < READ_FAILS_MAX)
    ensures forall j :: !PressAt(released, before, polls, j)
  {
    hide PollLives, Streak;
  }

  /** The re-arm goes on to its completion exactly when, at some poll, the button is down
      with the lid and the loop closed, after it was seen up in this wait, and no poll
      before ended it: the job no longer held, another sender, an open lid or loop, the
      deadline with the button up, or three unreadable reads in a row. */
  lemma {:induction false} RearmExactly(s: Window, polls: seq<Poll>)
    requires s.phase.Rearming?
    ensures RearmOver(s, polls).phase.Completing? <==>
            exists j :: PressAt(s.phase.released, s.phase.unreadable, polls, j)
    decreases |polls|
  {
    if polls != [] {
      var released, before := s.phase.released, s.phase.unreadable;
      PollTurns(s, polls);
      var t := RearmNext(s, polls[0].held, polls[0].t);
      hide RearmNext, PollLives, Streak;
      if t.phase.Completing? {
        assert PressAt(released, before, polls, 0);
        assert RearmOver(t, polls[1..]) == t;
      } else if t.phase.Rearming? {
        PressOn(released, before, polls, t.phase.released, t.phase.unreadable, polls[1..]);
        RearmExactly(t, polls[1..]);
      } else {
        assert RearmOver(t, polls[1..]) == t;
        NoPress(released, before, polls);
      }
    }
  }

  // ---- what a window has behind it ----

  /** What was read since the wait began: the gates that let it begin; the button up; the
      button down at a later read, the lid and the loop closed both times; then an
      acknowledgment, a passing verdict and a head, all at once. */
  datatype Evidence = Evidence(gated: bool, up: bool, down: bool, acked: bool, verdict: bool, head: bool)

  const NOTHING: Evidence := Evidence(false, false, false, false, false, false)

  predicate Complete(e: Evidence) { e.gated && e.up && e.down && e.acked && e.verdict && e.head }

  /** The gates of an arm: a passing verdict, a head, and the latch unlocked. */
  predicate Passes(g: Gates) { g.fireOk && g.head && g.unlocked }

  /** A window opened: the evidence behind it, whether the latch record was locked,
      and whether a lock had landed in its wait since the arm's unlock. */
  datatype Opened = Opened(e: Evidence, locked: bool, relocked: bool)

  /** The wait in progress, and every window opened so far. */
  datatype Log = Log(now: Evidence, relocked: bool, windows: seq<Opened>)

  const NO_WAIT: Log := Log(NOTHING, false, [])

  function ReadSwitches(e: Evidence, raw: Raw): Evidence {
    e.(up := e.up || Up(raw), down := e.down || (e.up && Down(raw)))
  }

  function Gathered(e: Evidence, a: Step): Evidence {
    match a
    case Arm(g) => NOTHING.(gated := Passes(g))
    case Resume(g) => NOTHING.(gated := Passes(g))
    case ArmTurn(t) => ReadSwitches(e, t.raw)
    case RearmTurn(_, t) => ReadSwitches(e, t.raw)
    case AckTurn(k) => e.(acked := k.acked, verdict := k.acked && k.fireOk, head := k.acked && k.head)
    case Disarm => e
    case Witness => e
  }

  function Observe(o: Log, s: Window, a: Step): Log
    requires Enabled(s, a)
  {
    var now := Gathered(o.now, a);
    var relocked := if a.Arm? || a.Resume? then false else o.relocked || a.Disarm? || a.Witness?;
    Log(now, relocked,
        if Next(s, a).ok && !s.ok then o.windows + [Opened(now, Next(s, a).locked, relocked)] else o.windows)
  }

  ghost predicate Consented(o: Log, s: Window) {
    && s.switches && s.armed == s.ok
    && (s.phase.Arming? ==> s.phase.w.Going? && (s.phase.w.released ==> o.now.up))
    && (s.phase.Rearming? ==> (s.phase.released ==> o.now.up))
    && (s.phase.Completing? ==> o.now.up && o.now.down)
    && (s.phase.Rest? && !s.ok ==> s.locked && !s.told)
    && (!s.phase.Rest? ==> !s.ok && (s.locked <==> o.relocked) && o.now.gated)
    && forall i :: 0 <= i < |o.windows| ==> Complete(o.windows[i].e) && (o.windows[i].locked <==> o.windows[i].relocked)
  }

  lemma StepConsented(o: Log, s: Window, a: Step)
    requires Enabled(s, a) && Consented(o, s)
    ensures Consented(Observe(o, s, a), Next(s, a))
  {
    if Turns(a) {
      TurnConsented(o, s, a);
    } else {
      CallConsented(o, s, a);
    }
  }

  predicate Turns(a: Step) { a.ArmTurn? || a.RearmTurn? || a.AckTurn? }

  lemma TurnConsented(o: Log, s: Window, a: Step)
    requires Enabled(s, a) && Consented(o, s) && Turns(a)
    ensures Consented(Observe(o, s, a), Next(s, a))
  {
    hide Begin;
    match a {
      case ArmTurn(_) =>
      case RearmTurn(_, _) =>
      case AckTurn(_) =>
    }
  }

  lemma CallConsented(o: Log, s: Window, a: Step)
    requires Enabled(s, a) && Consented(o, s) && !Turns(a)
    ensures Consented(Observe(o, s, a), Next(s, a))
  {
    hide WaitTurn, RearmNext, AckNext, Complete;
    match a {
      case Arm(_) =>
      case Resume(_) =>
      case Disarm =>
      case Witness =>
    }
  }

  ghost function Logged(o: Log, s: Window, steps: seq<Step>): Log
    requires IsRun(s, steps)
    decreases |steps|
  {
    if steps == [] then o else Logged(Observe(o, s, steps[0]), Next(s, steps[0]), steps[1..])
  }

  lemma {:induction false} RunConsented(o: Log, s: Window, steps: seq<Step>)
    requires IsRun(s, steps) && Consented(o, s)
    ensures Consented(Logged(o, s, steps), Final(s, steps))
    decreases |steps|
  {
    hide Consented, Observe, Next, Enabled;
    if steps != [] {
      StepConsented(o, s, steps[0]);
      RunConsented(Observe(o, s, steps[0]), Next(s, steps[0]), steps[1..]);
    }
  }

  /** Over every run of a machine with switches, disarms and witness locks landing
      anywhere: every window opened had, in its own wait, the button up, then down with
      the lid and the loop closed, then the acknowledgment, the verdict and the head;
      it opened over a locked latch record if and only if a disarm or the witness
      locked in its wait; and whenever nothing is under way and no window is open, the
      latch record is locked, the engine told, and the stream disarmed. */
  lemma ConsentBeforeWindow(s: Window, steps: seq<Step>)
    requires Initial(s) && s.switches && IsRun(s, steps)
    ensures var o, t := Logged(NO_WAIT, s, steps), Final(s, steps);
            && (forall i :: 0 <= i < |o.windows| ==>
                  Complete(o.windows[i].e) && (o.windows[i].locked <==> o.windows[i].relocked))
            && (t.ok ==> o.windows != [])
            && (t.phase.Rest? && !t.ok ==> t.locked && !t.told && !t.armed)
  {
    RunConsented(NO_WAIT, s, steps);
    OpensAreLogged(NO_WAIT, s, steps);
    hide IsRun, Final, Logged;
  }

  /** A disarm in the acknowledgment wait: an arm, the button up, the button down, the
      disarm, the acknowledgment. */
  predicate IsAckWait(steps: seq<Step>) {
    && |steps| == 5
    && steps[0] == Arm(Gates(true, true, true))
    && steps[1] == ArmTurn(Turn(true, false, Bits(true, false, false), true, false))
    && steps[2] == ArmTurn(Turn(true, false, Bits(true, false, true), true, false))
    && steps[3] == Disarm && steps[4] == AckTurn(Ack(true, true, false, true, true))
  }

  /** The window opens all the same: armed, and over the latch the disarm locked. */
  lemma AckWaitOpensLocked(s: Window, steps: seq<Step>)
    requires Initial(s) && s.switches && IsAckWait(steps)
    ensures IsRun(s, steps) && Final(s, steps).ok && Final(s, steps).armed && Final(s, steps).locked
  {
    var s1 := Next(s, steps[0]);
    assert s1 == s.(told := true, locked := false, phase := Arming(Going(false, 0)));
    var s2 := Next(s1, steps[1]);
    assert s2 == s1.(phase := Arming(Going(true, 0)));
    var s3 := Next(s2, steps[2]);
    assert s3 == s2.(phase := Completing);
    var s4 := Next(s3, steps[3]);
    var s5 := Next(s4, steps[4]);
    assert s5.ok && s5.armed && s5.locked;
    hide IsRun, Final, Next, Enabled;
    RunEnds(s5, steps[5..]);
    RunAhead(s4, steps[4..]);
    RunAhead(s3, steps[3..]);
    RunAhead(s2, steps[2..]);
    RunAhead(s1, steps[1..]);
    RunAhead(s, steps);
  }

  lemma RunEnds(s: Window, none: seq<Step>)
    requires |none| == 0
    ensures IsRun(s, none) && Final(s, none) == s
  {
  }

  lemma RunAhead(s: Window, steps: seq<Step>)
    requires steps != [] && Enabled(s, steps[0]) && IsRun(Next(s, steps[0]), steps[1..])
    ensures IsRun(s, steps) && Final(s, steps) == Final(Next(s, steps[0]), steps[1..])
  {
  }

  lemma {:induction false} OpensAreLogged(o: Log, s: Window, steps: seq<Step>)
    requires IsRun(s, steps) && (s.ok ==> o.windows != [])
    ensures Final(s, steps).ok ==> Logged(o, s, steps).windows != []
    decreases |steps|
  {
    hide Next, Enabled;
    if steps != [] { OpensAreLogged(Observe(o, s, steps[0]), Next(s, steps[0]), steps[1..]); }
  }

  // ---- the flags in place ----

  class Laser {
    const switches: bool
    var ok: bool
    var armed: bool
    var locked: bool
    var told: bool
    var pending: bool
    var released: bool
    var unreadable: nat

    /** The window while no arm blocks: at rest, or with a re-arm polled. */
    ghost function State(): Window
      reads this
    {
      Window(switches, if pending then Rearming(released, unreadable) else Rest, ok, armed, locked, told)
    }

    method Disarm()
      modifies this
      ensures State() == Disarmed(old(State()))
    {
      var was, unlocked := ok, !locked;
      ok, armed := false, false;
      if unlocked { locked := true; }
      if !was && !unlocked { return; }
      told := false;
    }

    /** The re-arm ended without consent. */
    method RearmEnd()
      modifies this
      ensures State() == Refused(old(State()))
    {
      pending := false;
      locked := true;
      told := false;
    }

    /** One poll of the re-arm; a press ends the wait and leaves the completion to
        the caller. */
    method RearmPoll(held: bool, t: Turn) returns (pressed: bool)
      requires pending
      modifies this
      ensures var s := RearmNext(old(State()), held, t);
              && (pressed <==> s.phase.Completing?)
              && (if pressed then State() == s.(phase := Rest) else State() == s)
    {
      pressed := false;
      if !held || !t.sameSender {
        RearmEnd();
        return;
      }
      var sw := ArmSwitches(t.raw);
      if sw == Unreadable {
        unreadable := unreadable + 1;
        if unreadable >= READ_FAILS_MAX { RearmEnd(); }
        return;
      }
      unreadable := 0;
      match sw {
        case Pressed =>
          if released {
            pressed := true;
            pending := false;
          }
        case LidOpen => RearmEnd();
        case InterlockOpen => RearmEnd();
        case Waiting =>
          released := true;
          if t.late { RearmEnd(); }
      }
    }
  }
}
