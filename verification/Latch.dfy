/** The laser latch (src/stepper_stream.c, src/glowforge_laser.c): one hardware
    lock that several writers can close and only this process opens, this process's
    record of its own last write, and the run start that may relight it. A run is
    any interleaving of the protocol thread, the shipper's run start and the other
    writers; latch_mx is the holder. */
module Latch {

  const RETRIES := 3

  /** Who holds latch_mx, and where in its writes. */
  datatype Holder =
    | Free
    | Client(lock: bool, failures: nat)
    | Unlocking(failures: nat)
    | Starting(relight: bool)
    | Relocking(failures: nat)

  /** The protocol thread between the steps of a disarm, or inside a latch call. */
  datatype Caller = Rest | Sampled(unlocked: bool) | Disarmed(unlocked: bool) | Closed(unlocked: bool) | Calling

  /** hw is the latch, record which way this process last wrote it; armed and gate
      are the two atomics the run start samples. */
  datatype Latch = Latch(hw: bool, record: bool, armed: bool, gate: bool, holder: Holder, caller: Caller)

  datatype Step =
    | Arm | Disarm | Gate(open: bool)
    | Call(lock: bool) | Write(took: bool)
    | DisarmSample | DisarmArm | DisarmGate | DisarmLock
    | StartRun | StartWrite(took: bool) | StartEnd | StartRelock(took: bool)
    | OtherLocks

  predicate Enabled(s: Latch, a: Step) {
    match a
    case Arm => s.caller.Rest?
    case Disarm => s.caller.Rest?
    case Gate(_) => s.caller.Rest?
    case Call(_) => s.caller.Rest? && s.holder.Free?
    case Write(_) => s.holder.Client?
    case DisarmSample => s.caller.Rest? && s.holder.Free?
    case DisarmArm => s.caller.Sampled?
    case DisarmGate => s.caller.Disarmed?
    case DisarmLock => s.caller.Closed? && (s.caller.unlocked ==> s.holder.Free?)
    case StartRun => s.holder.Free?
    case StartWrite(_) => s.holder.Unlocking?
    case StartEnd => s.holder.Starting?
    case StartRelock(_) => s.holder.Relocking?
    case OtherLocks => true
  }

  /** A write that took: the latch and the record together. */
  function Wrote(s: Latch, lock: bool): Latch { s.(hw := lock, record := lock) }

  /** A latch call enters: an unlock of a latch this process believes unlocked
      writes nothing. */
  function Enter(s: Latch, lock: bool): Latch {
    if !lock && !s.record then s.(caller := Rest)
    else s.(holder := Client(lock, 0), caller := Calling)
  }

  function Next(s: Latch, a: Step): Latch
    requires Enabled(s, a)
  {
    match a
    case Arm => s.(armed := true)
    case Disarm => s.(armed := false)
    case Gate(open) => s.(gate := open)
    case Call(lock) => Enter(s, lock)
    case Write(took) =>
      if took then Wrote(s, s.holder.lock).(holder := Free, caller := Rest)
      else if s.holder.failures >= RETRIES then s.(holder := Free, caller := Rest)
      else s.(holder := Client(s.holder.lock, s.holder.failures + 1))
    case DisarmSample => s.(caller := Sampled(!s.record))
    case DisarmArm => s.(armed := false, caller := Disarmed(s.caller.unlocked))
    case DisarmGate => s.(gate := false, caller := Closed(s.caller.unlocked))
    case DisarmLock => if s.caller.unlocked then Enter(s, true) else s.(caller := Rest)
    case StartRun =>
      if s.armed && s.gate && s.record then s.(holder := Unlocking(0)) else s.(holder := Starting(false))
    case StartWrite(took) =>
      if took then Wrote(s, false).(holder := Starting(true))
      else s.(holder := if s.holder.failures >= RETRIES then Free else Unlocking(s.holder.failures + 1))
    case StartEnd => s.(holder := if s.holder.relight && !s.armed then Relocking(0) else Free)
    case StartRelock(took) =>
      if took then Wrote(s, true).(holder := Free)
      else s.(holder := if s.holder.failures >= RETRIES then Free else Relocking(s.holder.failures + 1))
    case OtherLocks => s.(hw := true)
  }

  ghost predicate IsRun(s: Latch, steps: seq<Step>)
    decreases |steps|
  {
    steps == [] || (Enabled(s, steps[0]) && IsRun(Next(s, steps[0]), steps[1..]))
  }

  ghost function Final(s: Latch, steps: seq<Step>): Latch
    requires IsRun(s, steps)
    decreases |steps|
  {
    if steps == [] then s else Final(Next(s, steps[0]), steps[1..])
  }

  /** The latch as the kernel and this process start it. */
  predicate Initial(s: Latch) { s.hw && s.record && !s.armed && s.holder.Free? && s.caller.Rest? }

  // ---- ownership over every run ----

  /** shut: a lock call of this process took while disarmed, and it has not asked for
      an unlock since; over: since then it armed over a locked record; sampled: what
      the last run start found; relit: a run start that found it relightable has
      unlocked a shut latch armed over, and nothing has locked it since; kept: that run
      start ended in an armed window, or none of its locks took. theirs:
      another writer locked while the record read unlocked, and no lock of this
      process took since. */
  datatype Watch = Watch(shut: bool, over: bool, sampled: bool, relit: bool, kept: bool, theirs: bool)

  const NOTHING: Watch := Watch(false, false, false, false, false, false)

  /** A run start could relight the latch now. */
  predicate Relightable(s: Latch) { s.record && s.armed && s.gate }

  function Observe(o: Watch, s: Latch, a: Step): Watch
    requires Enabled(s, a)
  {
    match a
    case Arm => o.(over := o.over || (o.shut && s.record))
    case Call(lock) => if lock then o else o.(shut := false, over := false, relit := false)
    case Write(took) =>
      if !took || !s.holder.lock then o
      else if s.armed then o.(relit := false, theirs := false)
      else o.(shut := true, over := false, relit := false, theirs := false)
    case StartRun => o.(sampled := Relightable(s))
    case StartWrite(took) => if took then o.(relit := o.shut && o.over && o.sampled, kept := false) else o
    case StartEnd => o.(kept := o.kept || (s.holder.relight && s.armed))
    case StartRelock(took) =>
      if took then o.(relit := false, theirs := false) else o.(kept := o.kept || s.holder.failures >= RETRIES)
    case OtherLocks => o.(relit := false, theirs := o.theirs || !s.record)
    case _ => o
  }

  predicate Opening(h: Holder) { h.Unlocking? || (h.Client? && !h.lock) }

  /** The record is never ahead of the latch; a shut latch is open exactly while a run
      start has relit it, which takes an arm over the locked record; and nothing opens
      a lock another writer made under an open record. */
  predicate Owned(o: Watch, s: Latch) {
    && (s.record ==> s.hw)
    && (Opening(s.holder) ==> s.record)
    && (s.holder.Unlocking? ==> o.sampled)
    && (o.shut ==> (s.hw <==> !o.relit) && !(s.holder.Client? && !s.holder.lock))
    && (o.shut && !o.over ==> s.record && !s.armed && !s.holder.Unlocking?)
    && (o.relit ==> o.shut && o.over && !s.record)
    && (o.relit ==> o.kept || s.holder == Starting(true) || s.holder.Relocking?)
    && (o.theirs ==> s.hw && !s.record)
    && (s.holder.Client? <==> s.caller.Calling?)
  }

  lemma StepOwned(o: Watch, s: Latch, a: Step)
    requires Enabled(s, a) && Owned(o, s)
    ensures Owned(Observe(o, s, a), Next(s, a))
  {
    if Writes(a) {
      WriteOwned(o, s, a);
    } else {
      FlagOwned(o, s, a);
    }
  }

  /** The steps that take or hold latch_mx, or write the latch. */
  predicate Writes(a: Step) {
    a.Write? || a.StartRun? || a.StartWrite? || a.StartEnd? || a.StartRelock? || a.OtherLocks?
  }

  lemma WriteOwned(o: Watch, s: Latch, a: Step)
    requires Enabled(s, a) && Owned(o, s) && Writes(a)
    ensures Owned(Observe(o, s, a), Next(s, a))
  {
    match a {
      case Write(_) =>
      case StartRun =>
      case StartWrite(_) =>
      case StartEnd =>
      case StartRelock(_) =>
      case OtherLocks =>
    }
  }

  lemma FlagOwned(o: Watch, s: Latch, a: Step)
    requires Enabled(s, a) && Owned(o, s) && !Writes(a)
    ensures Owned(Observe(o, s, a), Next(s, a))
  {
    match a {
      case Arm =>
      case Disarm =>
      case Gate(_) =>
      case Call(_) =>
      case DisarmSample =>
      case DisarmArm =>
      case DisarmGate =>
      case DisarmLock =>
    }
  }

  ghost function Watched(o: Watch, s: Latch, steps: seq<Step>): Watch
    requires IsRun(s, steps)
    decreases |steps|
  {
    if steps == [] then o else Watched(Observe(o, s, steps[0]), Next(s, steps[0]), steps[1..])
  }

  lemma {:induction false} RunOwned(o: Watch, s: Latch, steps: seq<Step>)
    requires IsRun(s, steps) && Owned(o, s)
    ensures Owned(Watched(o, s, steps), Final(s, steps))
    decreases |steps|
  {
    hide Owned, Observe, Next, Enabled;
    if steps != [] {
      StepOwned(o, s, steps[0]);
      RunOwned(Observe(o, s, steps[0]), Next(s, steps[0]), steps[1..]);
    }
  }

  /** Over every interleaving from the start: a latch this process shut while disarmed
      stays locked, whatever run start overlaps or follows, until it asks for an
      unlock, unless it arms over the locked record; then it is open if and only if a
      run start, which found the window armed, the gate open and the record locked,
      has relit it; and once that run start is over, it ended in an armed window or none
      of its locks took. A lock another writer made under a record of unlocked stays until
      this process has itself locked, and a record of locked is true of the
      hardware. */
  lemma LatchOwnership(s: Latch, steps: seq<Step>)
    requires Initial(s) && IsRun(s, steps)
    ensures var o, t := Watched(NOTHING, s, steps), Final(s, steps);
            && (o.shut && !o.over ==> t.hw && t.record)
            && (o.shut ==> (!t.hw <==> o.relit))
            && (o.relit ==> o.over && (o.kept || t.holder == Starting(true) || t.holder.Relocking?))
            && (o.theirs ==> t.hw)
            && (t.record ==> t.hw)
  {
    RunOwned(NOTHING, s, steps);
    hide IsRun, Final, Watched;
  }

  // ---- when a shut latch can open ----

  /** No unlock asked for, no window armed, no gate opened. */
  predicate Restrained(a: Step) { a != Call(false) && a != Arm && a != Gate(true) }

  ghost predicate AllRestrained(steps: seq<Step>) { forall i :: 0 <= i < |steps| ==> Restrained(steps[i]) }

  predicate Shut(s: Latch) {
    && s.record && s.hw && !(s.armed && s.gate) && !Opening(s.holder)
    && (s.holder.Starting? ==> !s.holder.relight) && !s.holder.Relocking?
  }

  lemma {:induction false} StaysShut(s: Latch, steps: seq<Step>)
    requires IsRun(s, steps) && AllRestrained(steps) && Shut(s)
    ensures Shut(Final(s, steps))
    decreases |steps|
  {
    if steps != [] {
      assert Restrained(steps[0]);
      ShutStep(s, steps[0]);
      hide Shut, Next, Enabled, Restrained;
      StaysShut(Next(s, steps[0]), steps[1..]);
    }
  }

  lemma ShutStep(s: Latch, a: Step)
    requires Enabled(s, a) && Restrained(a) && Shut(s)
    ensures Shut(Next(s, a))
  {
  }

  /** A locked latch at rest opens without an unlock call, an arm or a gate opened if
      and only if it is armed over its locked record under an open gate now; a run
      start is then all it takes. */
  lemma ShutOpensExactly(s: Latch)
    requires s.record && s.hw && s.holder.Free? && s.caller.Rest?
    ensures (exists steps :: IsRun(s, steps) && AllRestrained(steps) && !Final(s, steps).hw) <==> Relightable(s)
  {
    if Relightable(s) {
      RelightRun(s, [StartRun, StartWrite(true)]);
    } else {
      forall steps | IsRun(s, steps) && AllRestrained(steps)
        ensures Final(s, steps).hw
      {
        StaysShut(s, steps);
      }
    }
  }

  /** What the step does, to the latch and to what is known of it. */
  predicate Goes(o: Watch, s: Latch, a: Step, p: Watch, t: Latch) {
    Enabled(s, a) && Next(s, a) == t && Observe(o, s, a) == p
  }

  lemma RunEnds(o: Watch, s: Latch, steps: seq<Step>, i: nat)
    requires i == |steps|
    ensures IsRun(s, steps[i..]) && Final(s, steps[i..]) == s && Watched(o, s, steps[i..]) == o
  {
  }

  /** One step ahead of the rest of the run. */
  lemma RunAhead(o: Watch, s: Latch, steps: seq<Step>, i: nat, p: Watch, t: Latch)
    requires i < |steps| && Goes(o, s, steps[i], p, t) && IsRun(t, steps[i + 1..])
    ensures IsRun(s, steps[i..]) && Final(s, steps[i..]) == Final(t, steps[i + 1..])
    ensures Watched(o, s, steps[i..]) == Watched(p, t, steps[i + 1..])
  {
    hide Next, Enabled, Observe;
    assert steps[i..][1..] == steps[i + 1..] && steps[i..][0] == steps[i];
  }

  /** A run start over a relightable latch. */
  function Unlocks(s: Latch): Latch { s.(holder := Unlocking(0)) }

  function Relit(s: Latch): Latch { s.(hw := false, record := false, holder := Starting(true)) }

  lemma StartGoes(o: Watch, s: Latch)
    requires Relightable(s) && s.holder.Free?
    ensures Goes(o, s, StartRun, o.(sampled := true), Unlocks(s))
    ensures Goes(o.(sampled := true), Unlocks(s), StartWrite(true),
                 o.(sampled := true, relit := o.shut && o.over, kept := false), Relit(s))
  {
  }

  lemma RelightRun(s: Latch, steps: seq<Step>)
    requires Relightable(s) && s.holder.Free?
    requires |steps| == 2 && steps[0] == StartRun && steps[1] == StartWrite(true)
    ensures IsRun(s, steps) && AllRestrained(steps) && !Final(s, steps).hw
  {
    hide IsRun, Final, Watched, Goes, Next, Enabled, Observe;
    var o, p := NOTHING.(sampled := true), NOTHING.(sampled := true, relit := false, kept := false);
    StartGoes(NOTHING, s);
    RunEnds(p, Relit(s), steps, 2);
    RunAhead(o, Unlocks(s), steps, 1, p, Relit(s));
    RunAhead(NOTHING, s, steps, 0, o, Unlocks(s));
    assert steps[0..] == steps;
  }

  /** How the callers reach it: an arm unlocks, a disarm lands in its acknowledgment
      wait and locks, the acknowledgment comes and the window opens all the same. The
      next run start then opens a latch no call has unlocked since it was shut. */
  predicate IsAckWait(steps: seq<Step>) {
    && |steps| == 11
    && steps[0] == Call(false) && steps[1] == Write(true)
    && steps[2] == DisarmSample && steps[3] == DisarmArm && steps[4] == DisarmGate
    && steps[5] == DisarmLock && steps[6] == Write(true)
    && steps[7] == Arm && steps[8] == Gate(true) && steps[9] == StartRun && steps[10] == StartWrite(true)
  }

  /** The disarm's steps up to its lock, from what it sampled. */
  lemma DisarmGoes(o: Watch, s: Latch, unlocked: bool)
    ensures s.caller == Sampled(unlocked) ==>
              Goes(o, s, DisarmArm, o, s.(armed := false, caller := Disarmed(unlocked)))
    ensures s.caller == Disarmed(unlocked) ==>
              Goes(o, s, DisarmGate, o, s.(gate := false, caller := Closed(unlocked)))
    ensures s.caller == Closed(false) ==> Goes(o, s, DisarmLock, o, s.(caller := Rest))
  {
  }

  lemma SampleGoes(o: Watch, s: Latch)
    requires s.caller.Rest? && s.holder.Free?
    ensures Goes(o, s, DisarmSample, o, s.(caller := Sampled(!s.record)))
  {
    hide IsRun, Final, Watched, Owned, Opening;
    var t := s.(caller := Sampled(!s.record));
    assert Enabled(s, DisarmSample);
    assert Next(s, DisarmSample) == t;
    assert Observe(o, s, DisarmSample) == o;
  }

  /** A write of this process that takes at once. */
  function Asked(s: Latch, lock: bool): Latch { s.(holder := Client(lock, 0), caller := Calling) }

  function Given(s: Latch, lock: bool): Latch { s.(hw := lock, record := lock, holder := Free, caller := Rest) }

  function ShutNow(o: Watch): Watch { o.(shut := true, over := false, relit := false, theirs := false) }

  lemma LockGoes(o: Watch, s: Latch)
    requires s.holder.Free? && s.caller == Closed(true) && !s.armed
    ensures Goes(o, s, DisarmLock, o, Asked(s, true))
    ensures Goes(o, Asked(s, true), Write(true), ShutNow(o), Given(s, true))
  {
  }

  lemma UnlockGoes(s: Latch)
    requires s.holder.Free? && s.caller.Rest? && s.record
    ensures Goes(NOTHING, s, Call(false), NOTHING, Asked(s, false))
    ensures Goes(NOTHING, Asked(s, false), Write(true), NOTHING, Given(s, false))
  {
  }

  lemma ArmGoes(o: Watch, s: Latch)
    requires s.caller.Rest? && s.record && o.shut
    ensures Goes(o, s, Arm, o.(over := true), s.(armed := true))
    ensures Goes(o.(over := true), s.(armed := true), Gate(true), o.(over := true), s.(armed := true, gate := true))
  {
  }

  /** The disarm inside the wait, from an open latch to a shut one. */
  lemma DisarmShuts(o: Watch, s: Latch, steps: seq<Step>, t: Latch)
    requires !s.record && s.holder.Free? && s.caller.Rest? && IsAckWait(steps)
    requires t == Given(s, true).(armed := false, gate := false) && IsRun(t, steps[7..])
    ensures IsRun(s, steps[2..]) && Final(s, steps[2..]) == Final(t, steps[7..])
    ensures Watched(o, s, steps[2..]) == Watched(ShutNow(o), t, steps[7..])
  {
    hide IsRun, Final, Watched, Goes, Next, Enabled, Observe;
    var s3 := s.(caller := Sampled(true));
    var s4 := s3.(armed := false, caller := Disarmed(true));
    var s5 := s4.(gate := false, caller := Closed(true));
    LockGoes(o, s5);
    assert Given(s5, true) == t;
    RunAhead(o, Asked(s5, true), steps, 6, ShutNow(o), t);
    RunAhead(o, s5, steps, 5, o, Asked(s5, true));
    DisarmGoes(o, s4, true);
    RunAhead(o, s4, steps, 4, o, s5);
    DisarmGoes(o, s3, true);
    RunAhead(o, s3, steps, 3, o, s4);
    SampleGoes(o, s);
    RunAhead(o, s, steps, 2, o, s3);
  }

  /** The window opened over the locked record, and the run start that relights it. */
  lemma ArmsOver(o: Watch, s: Latch, steps: seq<Step>)
    requires s.record && s.holder.Free? && s.caller.Rest? && o.shut && IsAckWait(steps)
    ensures IsRun(s, steps[7..])
    ensures var t, p := Final(s, steps[7..]), Watched(o, s, steps[7..]); !t.hw && t.armed && p.shut && p.relit
  {
    hide IsRun, Final, Watched, Goes, Next, Enabled, Observe;
    var s9, o9 := s.(armed := true, gate := true), o.(over := true);
    var o10, o11 := o9.(sampled := true), o9.(sampled := true, relit := true, kept := false);
    StartGoes(o9, s9);
    RunEnds(o11, Relit(s9), steps, 11);
    RunAhead(o10, Unlocks(s9), steps, 10, o11, Relit(s9));
    RunAhead(o9, s9, steps, 9, o10, Unlocks(s9));
    ArmGoes(o, s);
    RunAhead(o9, s.(armed := true), steps, 8, o9, s9);
    RunAhead(o, s, steps, 7, o9, s.(armed := true));
  }

  lemma AckWaitOpensLatch(s: Latch, steps: seq<Step>)
    requires Initial(s) && IsAckWait(steps)
    ensures IsRun(s, steps)
    ensures var t, o := Final(s, steps), Watched(NOTHING, s, steps); !t.hw && t.armed && o.shut && o.relit
  {
    hide IsRun, Final, Watched, Goes, Next, Enabled, Observe;
    var s2 := Given(s, false);
    var t := Given(s2, true).(armed := false, gate := false);
    ArmsOver(ShutNow(NOTHING), t, steps);
    DisarmShuts(NOTHING, s2, steps, t);
    UnlockGoes(s);
    RunAhead(NOTHING, Asked(s, false), steps, 1, NOTHING, s2);
    RunAhead(NOTHING, s, steps, 0, NOTHING, Asked(s, false));
    assert steps[0..] == steps;
  }

  // ---- the disarm ----

  /** What may happen while the protocol thread is inside a disarm whose own lock
      write takes. */
  predicate InDisarm(a: Step) {
    match a
    case DisarmArm => true
    case DisarmGate => true
    case DisarmLock => true
    case Write(took) => took
    case StartRun => true
    case StartWrite(_) => true
    case StartEnd => true
    case StartRelock(_) => true
    case OtherLocks => true
    case _ => false
  }

  ghost predicate AllInDisarm(steps: seq<Step>) { forall i :: 0 <= i < |steps| ==> InDisarm(steps[i]) }

  /** A disarm from its sample to its end. */
  ghost predicate DisarmRun(s: Latch, steps: seq<Step>) {
    && IsRun(s, steps) && steps != [] && steps[0] == DisarmSample && AllInDisarm(steps[1..])
    && Final(s, steps).caller.Rest?
  }

  /** Inside a disarm that found nothing to relight. */
  predicate Closing(s: Latch) {
    && (s.record ==> s.hw)
    && !s.holder.Unlocking? && !s.holder.Relocking? && (s.holder.Starting? ==> !s.holder.relight)
    && (s.holder.Client? ==> s.holder.lock && s.caller.Calling?)
    && !Relightable(s)
    && match s.caller
       case Sampled(unlocked) => !unlocked ==> s.record
       case Disarmed(unlocked) => (!unlocked ==> s.record) && !s.armed
       case Closed(unlocked) => (!unlocked ==> s.record) && !s.armed
       case Calling => s.holder.Client? && !s.armed
       case Rest => s.hw && s.record && !s.armed
  }

  lemma ClosingStep(s: Latch, a: Step)
    requires Enabled(s, a) && InDisarm(a) && Closing(s)
    ensures Closing(Next(s, a))
  {
  }

  lemma {:induction false} ClosingRun(s: Latch, steps: seq<Step>)
    requires IsRun(s, steps) && AllInDisarm(steps) && Closing(s)
    ensures Closing(Final(s, steps))
    decreases |steps|
  {
    if steps != [] {
      ClosingStep(s, steps[0]);
      ClosingRun(Next(s, steps[0]), steps[1..]);
    }
  }

  /** The run that defeats a disarm: the run start relights between the disarm's
      sample of the record and its own disarm of the window. */
  predicate IsRace(steps: seq<Step>) {
    && |steps| == 7
    && steps[0] == DisarmSample && steps[1] == StartRun && steps[2] == StartWrite(true) && steps[3] == StartEnd
    && steps[4] == DisarmArm && steps[5] == DisarmGate && steps[6] == DisarmLock
  }

  /** The run start inside the disarm: the latch is open behind a sample of locked. */
  lemma RaceRelights(s: Latch, race: seq<Step>, t: Latch)
    requires s.caller.Rest? && s.holder.Free? && Relightable(s) && IsRace(race)
    requires t == s.(hw := false, record := false, caller := Sampled(false)) && IsRun(t, race[4..])
    ensures IsRun(s, race) && Final(s, race) == Final(t, race[4..])
  {
    hide IsRun, Final, Watched, Goes, Next, Enabled, Observe;
    var s1, o := s.(caller := Sampled(false)), NOTHING.(sampled := true);
    EndGoes(o, Relit(s1));
    assert Relit(s1).(holder := Free) == t;
    RunAhead(o, Relit(s1), race, 3, o.(kept := true), t);
    StartGoes(NOTHING, s1);
    assert o.(relit := false, kept := false) == o;
    RunAhead(o, Unlocks(s1), race, 2, o, Relit(s1));
    RunAhead(NOTHING, s1, race, 1, o, Unlocks(s1));
    SampleGoes(NOTHING, s);
    RunAhead(NOTHING, s, race, 0, NOTHING, s1);
    assert race[0..] == race;
  }

  lemma EndGoes(o: Watch, s: Latch)
    requires s.holder == Starting(true) && s.armed
    ensures Goes(o, s, StartEnd, o.(kept := true), s.(holder := Free))
  {
  }

  /** The rest of the disarm writes no lock. */
  lemma RaceEnds(s: Latch, race: seq<Step>)
    requires s.caller == Sampled(false) && IsRace(race)
    ensures IsRun(s, race[4..])
    ensures Final(s, race[4..]) == s.(armed := false, gate := false, caller := Rest)
  {
    hide IsRun, Final, Watched, Goes, Next, Enabled, Observe;
    var s5 := s.(armed := false, caller := Disarmed(false));
    var s6 := s5.(gate := false, caller := Closed(false));
    var t := s6.(caller := Rest);
    RunEnds(NOTHING, t, race, 7);
    DisarmGoes(NOTHING, s6, false);
    RunAhead(NOTHING, s6, race, 6, NOTHING, t);
    DisarmGoes(NOTHING, s5, false);
    RunAhead(NOTHING, s5, race, 5, NOTHING, s6);
    DisarmGoes(NOTHING, s, false);
    RunAhead(NOTHING, s, race, 4, NOTHING, s5);
  }

  lemma RaceLeavesOpen(s: Latch, race: seq<Step>)
    requires s.caller.Rest? && s.holder.Free? && Relightable(s) && IsRace(race)
    ensures DisarmRun(s, race) && !Final(s, race).hw && !Final(s, race).armed
  {
    hide IsRun, Final;
    var t := s.(hw := false, record := false, caller := Sampled(false));
    RaceEnds(t, race);
    RaceRelights(s, race, t);
    forall i | 0 <= i < 6
      ensures InDisarm(race[1..][i])
    {
      assert race[1..][i] == race[i + 1];
    }
  }

  /** A disarm can end with the latch open exactly when it begins with a lock of
      this process inside an armed window under an open gate. */
  lemma DisarmRaceExactly(s: Latch)
    requires s.caller.Rest? && s.holder.Free? && (s.record ==> s.hw)
    ensures (exists steps :: DisarmRun(s, steps) && !Final(s, steps).hw) <==> Relightable(s)
  {
    if Relightable(s) {
      RaceLeavesOpen(s, [DisarmSample, StartRun, StartWrite(true), StartEnd, DisarmArm, DisarmGate, DisarmLock]);
    } else {
      forall steps | DisarmRun(s, steps)
        ensures Final(s, steps).hw
      {
        var t := Next(s, DisarmSample);
        assert Closing(t);
        ClosingRun(t, steps[1..]);
      }
    }
  }

  // ---- one write with its retries ----

  /** The first of the attempts that takes, if one of the first four does. */
  predicate Takes(outcomes: seq<bool>) { exists i :: 0 <= i <= RETRIES && i < |outcomes| && outcomes[i] }

  class Writer {
    var hw: bool
    var record: bool
    var failReported: bool

    /** One latch write: the record follows only a write that took, and an unlock
        of a latch believed unlocked writes nothing. */
    method WriteLocked(lock: bool, outcomes: seq<bool>) returns (ok: bool, writes: nat)
      requires |outcomes| > RETRIES
      modifies this
      ensures writes == 0 <==> !lock && !old(record)
      ensures writes <= RETRIES + 1
      ensures ok <==> (writes == 0 || Takes(outcomes))
      ensures hw == (if ok && writes > 0 then lock else old(hw))
      ensures record == (if ok then lock else old(record))
      ensures failReported == (old(failReported) && !(ok && writes > 0))
      ensures forall i :: 0 <= i < writes - 1 ==> !outcomes[i]
    {
      if !lock && !record { return true, 0; }
      var took := outcomes[0];
      var i := 0;
      while !took && i < RETRIES
        invariant 0 <= i <= RETRIES && took == outcomes[i]
        invariant forall j :: 0 <= j < i ==> !outcomes[j]
        invariant hw == old(hw) && record == old(record) && failReported == old(failReported)
      {
        i := i + 1;
        took := outcomes[i];
      }
      writes := i + 1;
      ok := took;
      if took {
        hw := lock;
        record := lock;
        failReported := false;
      }
    }
  }
}
