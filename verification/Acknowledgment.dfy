/** The acknowledgment behind a window (src/glowforge_cooling.c): the armed bit goes to
    the cooling engine in a report and comes back in a verdict. What the program reads
    says that a window was reported, and not which one. */
module Acknowledgment {
  import opened Consent

  /** A report, and what is computed from it: the armed bit, and the number of the arm
      it reports, which neither side sends. */
  datatype Note = Note(armed: bool, job: nat)

  /** The way round, with the number of the last arm: the report sent, the one the engine
      works with, the verdict on file, the verdict read, and whether that is fresh. */
  datatype Line = Line(job: nat, sent: Note, seen: Note, filed: Note, cached: Note, young: bool)

  datatype Session = Session(w: Window, e: Line)

  datatype Move = Does(a: Consent.Step) | Send | Take | Publish | Look | Age

  /** The program's reading of the verdict. */
  predicate Acked(e: Line) { e.young && e.cached.armed }

  predicate Enabled(s: Session, m: Move) {
    match m
    case Does(a) => Consent.Enabled(s.w, a) && (a.AckTurn? ==> a.a.acked == Acked(s.e))
    case _ => true
  }

  /** An arm or a re-arm that passes its gates reports a window. */
  predicate Begins(m: Move) {
    match m
    case Does(Arm(g)) => g.fireOk && g.head
    case Does(Resume(g)) => g.fireOk && g.head
    case _ => false
  }

  function Next(s: Session, m: Move): Session
    requires Enabled(s, m)
  {
    match m
    case Does(a) => Session(Consent.Next(s.w, a), if Begins(m) then s.e.(job := s.e.job + 1) else s.e)
    case Send => s.(e := s.e.(sent := Note(s.w.told, s.e.job)))
    case Take => s.(e := s.e.(seen := s.e.sent))
    case Publish => s.(e := s.e.(filed := s.e.seen))
    case Look => s.(e := s.e.(cached := s.e.filed, young := true))
    case Age => s.(e := s.e.(young := false))
  }

  const SILENT: Note := Note(false, 0)

  predicate Initial(s: Session) {
    Consent.Initial(s.w) && s.e == Line(0, SILENT, SILENT, SILENT, SILENT, false)
  }

  ghost predicate IsRun(s: Session, moves: seq<Move>)
    decreases |moves|
  {
    moves == [] || (Enabled(s, moves[0]) && IsRun(Next(s, moves[0]), moves[1..]))
  }

  ghost function Final(s: Session, moves: seq<Move>): Session
    requires IsRun(s, moves)
    decreases |moves|
  {
    if moves == [] then s else Final(Next(s, moves[0]), moves[1..])
  }

  // ---- where every run leads ----

  /** No note is of an arm to come. */
  predicate Numbered(e: Line) {
    e.sent.job <= e.job && e.seen.job <= e.job && e.filed.job <= e.job && e.cached.job <= e.job
  }

  ghost predicate Reached(s: Session) { Numbered(s.e) && exists o :: Consented(o, s.w) }

  lemma StepReached(s: Session, m: Move)
    requires Enabled(s, m) && Reached(s)
    ensures Reached(Next(s, m))
  {
    hide Consented;
    if m.Does? {
      var o :| Consented(o, s.w);
      StepConsented(o, s.w, m.a);
      hide Consent.Next, Consent.Enabled, Consent.Observe;
      assert Consented(Consent.Observe(o, s.w, m.a), Next(s, m).w);
    }
  }

  lemma {:induction false} RunReached(s: Session, moves: seq<Move>)
    requires IsRun(s, moves) && Reached(s)
    ensures Reached(Final(s, moves))
    decreases |moves|
  {
    hide Reached, Next, Enabled;
    if moves != [] {
      StepReached(s, moves[0]);
      RunReached(Next(s, moves[0]), moves[1..]);
    }
  }

  // ---- an answer to an earlier window ----

  /** An answer to an earlier window is still on its way, or fresh. */
  predicate Carries(e: Line) { Acked(e) || e.filed.armed || e.seen.armed || e.sent.armed }

  ghost predicate OneWait(moves: seq<Move>) { forall i :: 0 <= i < |moves| ==> !Begins(moves[i]) }

  /** The rest of a wait, up to the acknowledgment that opens its window; what it read
      was computed for an earlier one. */
  ghost predicate OpensStale(s: Session, moves: seq<Move>) {
    && IsRun(s, moves) && OneWait(moves) && moves != []
    && moves[|moves| - 1].Does? && moves[|moves| - 1].a.AckTurn?
    && Final(s, moves).w.ok && Final(s, moves).e.cached.job < Final(s, moves).e.job
  }

  /** The wait that begins here. */
  ghost predicate StaleWait(s: Session, begin: Move, moves: seq<Move>) {
    Enabled(s, begin) && Begins(begin) && OpensStale(Next(s, begin), moves)
  }

  /** Every armed note is of the last arm. */
  predicate Own(e: Line) {
    && (e.sent.armed ==> e.sent.job == e.job) && (e.seen.armed ==> e.seen.job == e.job)
    && (e.filed.armed ==> e.filed.job == e.job) && (Acked(e) ==> e.cached.job == e.job)
  }

  lemma StepOwn(s: Session, m: Move)
    requires Enabled(s, m) && !Begins(m) && Own(s.e)
    ensures Own(Next(s, m).e)
  {
    hide Consent.Next, Consent.Enabled;
  }

  /** A window opens only at a wait's end. */
  predicate Shut(w: Window) { w.phase.Rest? || !w.ok }

  lemma StepShut(s: Session, m: Move)
    requires Enabled(s, m) && Shut(s.w)
    ensures Shut(Next(s, m).w)
  {
  }

  /** An own line never opens a window on another's answer. */
  lemma {:induction false} OwnNeverStale(s: Session, moves: seq<Move>)
    requires Own(s.e) && Shut(s.w)
    ensures !OpensStale(s, moves)
    decreases |moves|
  {
    hide Next, Enabled, Begins, Own, Shut, Acked;
    if OpensStale(s, moves) {
      StepOwn(s, moves[0]);
      StepShut(s, moves[0]);
      if |moves| == 1 {
        assert moves[1..] == [];
        LastMove(s, moves);
        OpensAcked(s, moves[0]);
        OwnAcked(s.e);
      } else {
        OwnNeverStale(Next(s, moves[0]), moves[1..]);
        StaleTail(s, moves);
      }
    }
  }

  lemma LastMove(s: Session, moves: seq<Move>)
    requires IsRun(s, moves) && |moves| == 1
    ensures Final(s, moves) == Next(s, moves[0])
  {
    hide Next, Enabled;
    assert Final(s, moves) == Final(Next(s, moves[0]), moves[1..]);
  }

  lemma OwnAcked(e: Line)
    requires Own(e) && Acked(e)
    ensures e.cached.job == e.job
  {
  }

  lemma OpensAcked(s: Session, m: Move)
    requires Enabled(s, m) && m.Does? && m.a.AckTurn? && Next(s, m).w.ok && Shut(s.w)
    ensures Acked(s.e) && Next(s, m).e == s.e
  {
  }

  lemma StaleTail(s: Session, moves: seq<Move>)
    requires |moves| > 1 && OpensStale(s, moves)
    ensures OpensStale(Next(s, moves[0]), moves[1..])
  {
    hide Next, Enabled, Begins;
    var rest := moves[1..];
    assert rest[|rest| - 1] == moves[|moves| - 1];
    forall i | 0 <= i < |rest|
      ensures !Begins(rest[i])
    {
      assert rest[i] == moves[i + 1];
    }
  }

  // ---- the run that opens on it ----

  lemma StaleAhead(s: Session, m: Move)
    requires Enabled(s, m) && !Begins(m) && exists moves :: OpensStale(Next(s, m), moves)
    ensures exists moves :: OpensStale(s, moves)
  {
    hide Next, Enabled, Begins;
    var rest :| OpensStale(Next(s, m), rest);
    var moves := [m] + rest;
    assert moves[0] == m && moves[1..] == rest && moves[|moves| - 1] == rest[|rest| - 1];
    assert OpensStale(s, moves);
  }

  predicate StaleAck(e: Line) { Acked(e) && e.cached.job < e.job }

  /** The acknowledgment read, the gate and the head behind it. */
  lemma StaleEnds(s: Session)
    requires s.w.phase.Completing? && StaleAck(s.e)
    ensures exists moves :: OpensStale(s, moves)
  {
    var last := Does(AckTurn(Ack(true, true, false, true, true)));
    var moves := [last];
    assert moves[1..] == [];
    assert Next(s, last).w.ok && Next(s, last).e == s.e && !Begins(last);
    hide Next, Begins;
    LastMove(s, moves);
    assert OpensStale(s, moves);
  }

  /** The button up, then down. */
  lemma StalePress(s: Session)
    requires s.w.phase == Arming(Going(false, 0)) && StaleAck(s.e)
    ensures exists moves :: OpensStale(s, moves)
  {
    var up := Does(ArmTurn(Turn(true, false, Bits(true, false, false), true, false)));
    var down := Does(ArmTurn(Turn(true, false, Bits(true, false, true), true, false)));
    var t := s.(w := s.w.(phase := Arming(Going(true, 0))));
    assert Enabled(s, up) && Next(s, up) == t;
    var u := s.(w := s.w.(phase := Completing));
    assert Enabled(t, down) && Next(t, down) == u;
    hide OpensStale, Next, Enabled;
    StaleEnds(u);
    StaleAhead(t, down);
    StaleAhead(s, up);
  }

  /** The old answer comes round while the wait goes on. */
  lemma StaleComes(s: Session, e: Line)
    requires s.w.phase == Arming(Going(false, 0)) && Carries(e) && Numbered(e) && s.e == e.(job := e.job + 1)
    ensures exists moves :: OpensStale(s, moves)
  {
    hide OpensStale;
    if Acked(e) {
      StalePress(s);
    } else {
      var t := if e.filed.armed then s else if e.seen.armed then Next(s, Publish) else Next(Next(s, Take), Publish);
      StalePress(Next(t, Look));
      StaleAhead(t, Look);
      if !e.filed.armed {
        if e.seen.armed {
          StaleAhead(s, Publish);
        } else {
          StaleAhead(Next(s, Take), Publish);
          StaleAhead(s, Take);
        }
      }
    }
  }

  /** Wherever a run has led a machine with switches to rest with no window open: the
      next wait can open its window on an answer to an earlier one if and only if such an
      answer is still fresh, on file, in the engine or on its way to it. */
  lemma StaleAckExactly(s: Session, before: seq<Move>)
    requires Initial(s) && s.w.switches && IsRun(s, before)
    requires Final(s, before).w.phase.Rest? && !Final(s, before).w.ok
    ensures var t := Final(s, before);
            (exists begin, moves :: StaleWait(t, begin, moves)) <==> Carries(t.e)
  {
    StartReached(s);
    RunReached(s, before);
    var t := Final(s, before);
    hide IsRun, Final, Initial;
    Switched(t);
    if Carries(t.e) {
      var begin := Does(Arm(Gates(true, true, true)));
      BeginsWait(t, begin);
      StaleComes(Next(t, begin), t.e);
      var moves :| OpensStale(Next(t, begin), moves);
      assert StaleWait(t, begin, moves);
    } else {
      forall begin, moves
        ensures !StaleWait(t, begin, moves)
      {
        if Enabled(t, begin) && Begins(begin) {
          BeginsOwn(t, begin);
          StepShut(t, begin);
          OwnNeverStale(Next(t, begin), moves);
        }
      }
    }
  }

  lemma StartReached(s: Session)
    requires Initial(s) && s.w.switches
    ensures Reached(s)
  {
    assert Consented(NO_WAIT, s.w);
  }

  lemma Switched(s: Session)
    requires Reached(s)
    ensures s.w.switches && Numbered(s.e)
  {
  }

  lemma BeginsWait(s: Session, begin: Move)
    requires s.w.phase.Rest? && !s.w.ok && s.w.switches && begin == Does(Arm(Gates(true, true, true)))
    ensures Enabled(s, begin) && Begins(begin)
    ensures Next(s, begin).w.phase == Arming(Going(false, 0)) && Next(s, begin).e == s.e.(job := s.e.job + 1)
  {
  }

  lemma BeginsOwn(s: Session, begin: Move)
    requires Enabled(s, begin) && Begins(begin) && !Carries(s.e)
    ensures Own(Next(s, begin).e)
  {
  }
}
