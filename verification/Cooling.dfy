/** The cooling client's hold (src/glowforge_cooling.c): a verdict that blocks fire
    holds the job, the first hold of an episode decelerates lit, and a clean verdict
    resumes what this client held. */
module Cooling {

  /** The core's state as the client tells states apart; stopped says that a hold's
      deceleration has ended. */
  datatype Core = Cycle | Hold(stopped: bool) | Jog | Other

  /** One poll's inputs: the verdict and whether it is fresh, the core's state, the
      armed window, and whether a run or an armed window was reported. */
  datatype Input = Input(current: bool, fireOk: bool, hold: bool, resumeOk: bool, failTier: bool,
                         core: Core, armed: bool, window: bool, flood: bool)

  datatype Client = Client(holdOurs: bool, decelLit: bool, pauseSaid: bool, reholdSaid: bool,
                           staleWarned: bool, fallbackDone: bool, jogWarned: bool)

  /** What a poll asks of the core, of the laser module, and of the fans and the check
      heater, which it turns off. */
  datatype Commands = Commands(feedHold: bool, jogCancel: bool, resume: bool, fail: bool, fans: bool, heater: bool)

  const QUIET: Commands := Commands(false, false, false, false, false, false)

  predicate Blocked(v: Input) { !(v.current && v.fireOk) }

  /** A fresh verdict that neither asks for a hold nor blocks fire in an open
      window. */
  predicate Clean(v: Input) { v.current && !v.hold && !(v.armed && Blocked(v)) }

  function HoldTake(s: Client): Client {
    s.(holdOurs := true, decelLit := s.decelLit || !s.holdOurs, reholdSaid := s.reholdSaid || s.holdOurs)
  }

  /** The tiers, and the end of a lit deceleration. */
  function Tiers(s: Client, v: Input): Client {
    var t := if v.armed && Blocked(v)
             then s.(pauseSaid := s.pauseSaid || !(v.current && v.failTier))
             else s.(pauseSaid := false, decelLit := false);
    t.(decelLit := t.decelLit && (v.core.Cycle? || v.core == Hold(false)))
  }

  function StalePoll(s: Client, v: Input): (Client, Commands) {
    if !(v.window || v.flood) then (s, QUIET)
    else
      var t := s.(staleWarned := true, fallbackDone := s.fallbackDone || v.window);
      var fans := QUIET.(fans := v.window && !s.fallbackDone, heater := !s.staleWarned);
      match v.core
      case Cycle => (HoldTake(t), fans.(feedHold := true))
      case Hold(_) => (t.(reholdSaid := false), fans)
      case Jog => (t, fans)
      case Other => (t, fans)
  }

  function FreshPoll(s: Client, v: Input): (Client, Commands) {
    var t := if s.staleWarned then s.(staleWarned := false, fallbackDone := false) else s;
    if v.hold || (v.armed && Blocked(v)) then
      match v.core
      case Cycle => (HoldTake(t), QUIET.(feedHold := true))
      case Hold(_) => (t.(reholdSaid := false), QUIET)
      case Jog => (t.(jogWarned := true), QUIET.(jogCancel := true))
      case Other => (t, QUIET)
    else
      var u := t.(jogWarned := false, reholdSaid := false);
      if !u.holdOurs then (u, QUIET)
      else if !v.core.Hold? then (u.(holdOurs := false), QUIET)
      else if v.resumeOk then (u.(holdOurs := false), QUIET.(resume := true))
      else (u, QUIET)
  }

  function Poll(s: Client, v: Input): (Client, Commands) {
    var t := Tiers(s, v);
    var (u, cmds) := Enforced(t, v);
    (u, cmds.(fail := v.armed && Blocked(v) && v.current && v.failTier))
  }

  // ---- runs ----

  ghost function After(s: Client, polls: seq<Input>): Client
    decreases |polls|
  {
    if polls == [] then s else After(Poll(s, polls[0]).0, polls[1..])
  }

  /** This poll opens a hold episode: the client takes a hold it did not have. */
  predicate Opens(s: Client, v: Input) { !s.holdOurs && Poll(s, v).0.holdOurs }

  /** This poll raises the lit deceleration. */
  predicate Raises(s: Client, v: Input) { !Tiers(s, v).decelLit && Poll(s, v).0.decelLit }

  predicate Resumes(s: Client, v: Input) { Poll(s, v).1.resume }

  ghost function Episodes(s: Client, polls: seq<Input>): nat
    decreases |polls|
  {
    if polls == [] then 0
    else (if Opens(s, polls[0]) then 1 else 0) + Episodes(Poll(s, polls[0]).0, polls[1..])
  }

  ghost function ResumeCount(s: Client, polls: seq<Input>): nat
    decreases |polls|
  {
    if polls == [] then 0
    else (if Resumes(s, polls[0]) then 1 else 0) + ResumeCount(Poll(s, polls[0]).0, polls[1..])
  }

  /** The half of a poll behind the tiers. */
  function Enforced(t: Client, v: Input): (Client, Commands) {
    if v.current then FreshPoll(t, v) else StalePoll(t, v)
  }

  lemma TiersEffects(s: Client, v: Input)
    ensures var t := Tiers(s, v);
            && t.holdOurs == s.holdOurs
            && (t.decelLit ==> s.decelLit && v.armed && Blocked(v) && (v.core.Cycle? || v.core == Hold(false)))
  {
    hide Blocked;
    var t := Tiers(s, v);
    assert t.holdOurs == s.holdOurs;
    assert t.decelLit ==> v.core.Cycle? || v.core == Hold(false);
    assert t.decelLit ==> s.decelLit && v.armed && Blocked(v);
  }

  /** What a poll may do to the hold: r is its outcome. */
  predicate HoldRules(t: Client, v: Input, r: (Client, Commands)) {
    && (r.0.decelLit == (t.decelLit || (!t.holdOurs && r.0.holdOurs)))
    && (!t.holdOurs && r.0.holdOurs ==> v.core.Cycle? && r.1.feedHold && !r.1.resume)
    && (t.holdOurs && !Clean(v) ==> r.0.holdOurs)
    && (r.1.resume ==> t.holdOurs && !r.0.holdOurs && Clean(v) && v.core.Hold? && v.resumeOk)
  }

  lemma StaleRules(t: Client, v: Input)
    requires !v.current
    ensures HoldRules(t, v, StalePoll(t, v))
  {
    match v.core {
      case Cycle =>
      case Hold(_) =>
      case Jog =>
      case Other =>
    }
  }

  lemma FreshRules(t: Client, v: Input)
    requires v.current
    ensures HoldRules(t, v, FreshPoll(t, v))
  {
    if Clean(v) {
      CleanRules(t, v);
    } else {
      match v.core {
        case Cycle =>
        case Hold(_) =>
        case Jog =>
        case Other =>
      }
    }
  }

  lemma CleanRules(t: Client, v: Input)
    requires Clean(v)
    ensures HoldRules(t, v, FreshPoll(t, v))
  {
  }

  lemma EnforcedEffects(t: Client, v: Input)
    ensures HoldRules(t, v, Enforced(t, v))
  {
    hide FreshPoll, StalePoll, HoldRules;
    if v.current { FreshRules(t, v); } else { StaleRules(t, v); }
  }

  /** One poll: it lights a deceleration only by opening an episode; it leaves one
      lit only while the head still moves; an episode ends only on a clean verdict;
      and a resume ends one. */
  lemma PollEffects(s: Client, v: Input)
    ensures Raises(s, v) ==> Opens(s, v) && v.core.Cycle?
    ensures Poll(s, v).0.decelLit ==> v.core.Cycle? || v.core == Hold(false)
    ensures Poll(s, v).0.decelLit && !Opens(s, v) ==> s.decelLit && v.armed && Blocked(v)
    ensures s.holdOurs && !Clean(v) ==> Poll(s, v).0.holdOurs
    ensures Resumes(s, v) ==> s.holdOurs && !Poll(s, v).0.holdOurs && Clean(v) && v.core.Hold? && v.resumeOk
    ensures Opens(s, v) ==> !Resumes(s, v) && Poll(s, v).1.feedHold
  {
    TiersEffects(s, v);
    EnforcedEffects(Tiers(s, v), v);
    hide Tiers, FreshPoll, StalePoll, Clean;
    assert Poll(s, v).0 == Enforced(Tiers(s, v), v).0;
    assert Poll(s, v).1.resume == Enforced(Tiers(s, v), v).1.resume;
    assert Poll(s, v).1.feedHold == Enforced(Tiers(s, v), v).1.feedHold;
  }

  /** A fresh verdict that holds the job, whether it asks for the hold or blocks fire in
      an open window. */
  predicate Holds(v: Input) { v.current && (v.hold || (v.armed && !v.fireOk)) }

  /** No fresh verdict, in a reported window or run. */
  predicate Lost(v: Input) { !v.current && (v.window || v.flood) }

  /** What a poll asks for, in its inputs: the feed hold in a cycle that the verdict holds
      or no verdict covers; the cancel of a jog the verdict holds; the resume of our own
      hold on a clean verdict that allows one; the end of a job that cannot go on; the
      fallback airflow and the heater's end once the verdict is lost. */
  lemma PollAsks(s: Client, v: Input)
    ensures var c := Poll(s, v).1;
            && (c.feedHold <==> v.core.Cycle? && (Holds(v) || Lost(v)))
            && (c.jogCancel <==> v.core.Jog? && Holds(v))
            && (c.resume <==> Clean(v) && s.holdOurs && v.core.Hold? && v.resumeOk)
            && (c.fail <==> v.current && v.armed && !v.fireOk && v.failTier)
            && (c.fans <==> !v.current && v.window && !s.fallbackDone)
            && (c.heater <==> Lost(v) && !s.staleWarned)
  {
    TiersKeep(s, v);
    hide Tiers;
    EnforcedAsks(Tiers(s, v), v);
    hide Enforced, Clean, Holds, Lost;
  }

  lemma TiersKeep(s: Client, v: Input)
    ensures var t := Tiers(s, v);
            t == s.(pauseSaid := t.pauseSaid, decelLit := t.decelLit)
  {
    hide Blocked;
    if v.armed && Blocked(v) {
      assert Tiers(s, v).reholdSaid == s.reholdSaid;
    } else {
      assert Tiers(s, v).reholdSaid == s.reholdSaid;
    }
  }

  lemma EnforcedAsks(t: Client, v: Input)
    ensures var c := Enforced(t, v).1;
            && (c.feedHold <==> v.core.Cycle? && (Holds(v) || Lost(v)))
            && (c.jogCancel <==> v.core.Jog? && Holds(v))
            && (c.resume <==> Clean(v) && t.holdOurs && v.core.Hold? && v.resumeOk)
            && (c.fans <==> !v.current && v.window && !t.fallbackDone)
            && (c.heater <==> Lost(v) && !t.staleWarned)
  {
    if v.current { FreshAsks(t, v); } else { StaleAsks(t, v); }
  }

  lemma FreshAsks(t: Client, v: Input)
    requires v.current
    ensures var c := FreshPoll(t, v).1;
            && (c.feedHold <==> v.core.Cycle? && Holds(v)) && (c.jogCancel <==> v.core.Jog? && Holds(v))
            && (c.resume <==> Clean(v) && t.holdOurs && v.core.Hold? && v.resumeOk) && !c.fans && !c.heater
  {
    match v.core {
      case Cycle =>
      case Hold(_) =>
      case Jog =>
      case Other =>
    }
  }

  lemma StaleAsks(t: Client, v: Input)
    requires !v.current
    ensures var c := StalePoll(t, v).1;
            && (c.feedHold <==> v.core.Cycle? && Lost(v)) && !c.jogCancel && !c.resume
            && (c.fans <==> v.window && !t.fallbackDone) && (c.heater <==> Lost(v) && !t.staleWarned)
  {
    match v.core {
      case Cycle =>
      case Hold(_) =>
      case Jog =>
      case Other =>
    }
  }

  /** What a poll remembers: the hold is ours from a feed hold to a clean verdict over a
      core that left it or may resume; the deceleration stays lit only from the first
      feed hold, in a window that fire is blocked in, to the head's stop; the loss of
      the verdict and its airflow are remembered to the next fresh one. */
  lemma PollRemembers(s: Client, v: Input)
    ensures var (t, c) := Poll(s, v);
            && (t.holdOurs <==> c.feedHold || (s.holdOurs && !(Clean(v) && (!v.core.Hold? || v.resumeOk))))
            && (t.decelLit <==>
                 || (!s.holdOurs && c.feedHold)
                 || (s.decelLit && v.armed && Blocked(v) && (v.core.Cycle? || v.core == Hold(false))))
            && (t.staleWarned <==> Lost(v) || (s.staleWarned && !v.current))
            && (t.fallbackDone <==> if v.current then s.fallbackDone && !s.staleWarned else s.fallbackDone || v.window)
            && (t.pauseSaid <==> v.armed && Blocked(v) && (s.pauseSaid || !(v.current && v.failTier)))
  {
    TiersKeep(s, v);
    TiersRemember(s, v);
    hide Tiers;
    EnforcedRemembers(Tiers(s, v), v);
    hide Enforced, Clean, Lost, Blocked;
  }

  lemma TiersRemember(s: Client, v: Input)
    ensures var t := Tiers(s, v);
            && (t.decelLit <==> s.decelLit && v.armed && Blocked(v) && (v.core.Cycle? || v.core == Hold(false)))
            && (t.pauseSaid <==> v.armed && Blocked(v) && (s.pauseSaid || !(v.current && v.failTier)))
  {
    hide Blocked;
  }

  lemma EnforcedRemembers(t: Client, v: Input)
    ensures var (u, c) := Enforced(t, v);
            && (u.holdOurs <==> c.feedHold || (t.holdOurs && !(Clean(v) && (!v.core.Hold? || v.resumeOk))))
            && (u.decelLit <==> t.decelLit || (!t.holdOurs && c.feedHold))
            && (u.staleWarned <==> Lost(v) || (t.staleWarned && !v.current))
            && (u.fallbackDone <==> if v.current then t.fallbackDone && !t.staleWarned else t.fallbackDone || v.window)
            && u.pauseSaid == t.pauseSaid
  {
    if v.current { FreshRemembers(t, v); } else { StaleRemembers(t, v); }
  }

  lemma FreshRemembers(t: Client, v: Input)
    requires v.current
    ensures var (u, c) := FreshPoll(t, v);
            && (u.holdOurs <==> c.feedHold || (t.holdOurs && !(Clean(v) && (!v.core.Hold? || v.resumeOk))))
            && (u.decelLit <==> t.decelLit || (!t.holdOurs && c.feedHold))
            && !u.staleWarned && (u.fallbackDone <==> t.fallbackDone && !t.staleWarned) && u.pauseSaid == t.pauseSaid
  {
    hide Blocked;
    if Clean(v) {
      CleanRemembers(t, v);
    } else {
      HeldRemembers(t, v);
    }
  }

  lemma CleanRemembers(t: Client, v: Input)
    requires Clean(v)
    ensures var (u, c) := FreshPoll(t, v);
            && !c.feedHold && (u.holdOurs <==> t.holdOurs && v.core.Hold? && !v.resumeOk) && u.decelLit == t.decelLit
            && !u.staleWarned && (u.fallbackDone <==> t.fallbackDone && !t.staleWarned) && u.pauseSaid == t.pauseSaid
  {
    hide Blocked;
  }

  lemma HeldRemembers(t: Client, v: Input)
    requires v.current && !Clean(v)
    ensures var (u, c) := FreshPoll(t, v);
            && (u.holdOurs <==> c.feedHold || t.holdOurs) && (u.decelLit <==> t.decelLit || (!t.holdOurs && c.feedHold))
            && !u.staleWarned && (u.fallbackDone <==> t.fallbackDone && !t.staleWarned) && u.pauseSaid == t.pauseSaid
  {
    hide Blocked;
    match v.core {
      case Cycle =>
      case Hold(_) =>
      case Jog =>
      case Other =>
    }
  }

  lemma StaleRemembers(t: Client, v: Input)
    requires !v.current
    ensures var (u, c) := StalePoll(t, v);
            && (u.holdOurs <==> c.feedHold || t.holdOurs)
            && (u.decelLit <==> t.decelLit || (!t.holdOurs && c.feedHold))
            && (u.staleWarned <==> Lost(v) || t.staleWarned) && (u.fallbackDone <==> t.fallbackDone || v.window)
            && u.pauseSaid == t.pauseSaid
  {
    match v.core {
      case Cycle =>
      case Hold(_) =>
      case Jog =>
      case Other =>
    }
  }

  /** No verdict covered the window at poll i, nor any since. */
  ghost predicate LostSince(polls: seq<Input>, i: nat, j: nat)
    requires i < j <= |polls|
  {
    polls[i].window && forall k :: i <= k < j ==> !polls[k].current
  }

  /** The airflow is remembered exactly while the verdict is lost behind such a poll. */
  lemma {:induction false} FallbackSince(s: Client, polls: seq<Input>)
    requires !s.fallbackDone && !s.staleWarned
    ensures var t := After(s, polls);
            && (t.fallbackDone <==> exists i :: 0 <= i < |polls| && LostSince(polls, i, |polls|))
            && (t.fallbackDone ==> t.staleWarned)
    decreases |polls|
  {
    if polls != [] {
      var n := |polls| - 1;
      var head, v := polls[..n], polls[n];
      assert polls == head + [v];
      FallbackSince(s, head);
      AfterConcat(s, head, [v]);
      AfterOne(After(s, head), v);
      PollRemembers(After(s, head), v);
      hide Poll, After;
      LostMore(head, v, polls);
    }
  }

  lemma LostMore(head: seq<Input>, v: Input, polls: seq<Input>)
    requires polls == head + [v]
    ensures (exists i :: 0 <= i < |polls| && LostSince(polls, i, |polls|)) <==>
            !v.current && (v.window || exists i :: 0 <= i < |head| && LostSince(head, i, |head|))
  {
    var n := |head|;
    forall i | 0 <= i < n
      ensures LostSince(polls, i, n + 1) <==> LostSince(head, i, n) && !v.current
    {
      assert forall k :: 0 <= k < n ==> polls[k] == head[k];
      assert polls[n] == v;
    }
    assert LostSince(polls, n, n + 1) <==> v.window && !v.current;
    hide LostSince;
    if i :| 0 <= i < n && LostSince(head, i, n) {
      assert LostSince(polls, i, n + 1) <==> !v.current;
    }
    if i :| 0 <= i < |polls| && LostSince(polls, i, |polls|) {
      assert i < n ==> LostSince(head, i, n) && !v.current;
    }
  }

  /** The fallback airflow once per loss: exactly at the first poll without a verdict in a
      reported window since the last fresh one. */
  lemma FansOncePerLoss(s: Client, polls: seq<Input>, v: Input)
    requires !s.fallbackDone && !s.staleWarned
    ensures Poll(After(s, polls), v).1.fans <==>
            !v.current && v.window && !exists i :: 0 <= i < |polls| && LostSince(polls, i, |polls|)
  {
    FallbackSince(s, polls);
    PollAsks(After(s, polls), v);
    hide Poll, After;
  }

  lemma {:induction false} HoldStands(s: Client, polls: seq<Input>)
    requires s.holdOurs && forall i :: 0 <= i < |polls| ==> !Clean(polls[i])
    ensures After(s, polls).holdOurs
    decreases |polls|
  {
    hide Poll, Clean;
    if polls != [] {
      PollEffects(s, polls[0]);
      HoldStands(Poll(s, polls[0]).0, polls[1..]);
    }
  }

  /** A hold that ended, ended on a clean verdict. */
  lemma HoldEnds(s: Client, polls: seq<Input>)
    requires s.holdOurs && !After(s, polls).holdOurs
    ensures exists k :: 0 <= k < |polls| && Clean(polls[k])
  {
    hide Clean, After;
    if forall k :: 0 <= k < |polls| ==> !Clean(polls[k]) { HoldStands(s, polls); }
  }

  lemma {:induction false} AfterConcat(s: Client, a: seq<Input>, b: seq<Input>)
    ensures After(s, a + b) == After(After(s, a), b)
    decreases |a|
  {
    hide Poll;
    if a == [] {
      assert a + b == b;
    } else {
      assert (a + b)[1..] == a[1..] + b;
      AfterConcat(Poll(s, a[0]).0, a[1..], b);
    }
  }

  /** One lit deceleration per episode: between two polls that raise it, some poll
      had a fresh verdict that neither asked for a hold nor blocked fire in an open
      window. */
  lemma OneLitDeceleration(s: Client, polls: seq<Input>, i: nat, j: nat)
    requires i < j < |polls|
    requires Raises(After(s, polls[..i]), polls[i]) && Raises(After(s, polls[..j]), polls[j])
    ensures exists k :: i < k < j && Clean(polls[k])
  {
    var before := After(s, polls[..i]);
    var held := Poll(before, polls[i]).0;
    var mid := polls[i + 1..j];
    PollEffects(before, polls[i]);
    PollEffects(After(s, polls[..j]), polls[j]);
    hide Poll, Clean, Raises, Opens;
    assert polls[..j] == (polls[..i] + [polls[i]]) + mid;
    AfterConcat(s, polls[..i] + [polls[i]], mid);
    AfterConcat(s, polls[..i], [polls[i]]);
    AfterOne(before, polls[i]);
    OpensHolds(before, polls[i]);
    OpensHolds(After(s, polls[..j]), polls[j]);
    assert !After(held, mid).holdOurs;
    HoldEnds(held, mid);
    var k :| 0 <= k < |mid| && Clean(mid[k]);
    assert Clean(polls[i + 1 + k]);
  }

  lemma AfterOne(s: Client, v: Input)
    ensures After(s, [v]) == Poll(s, v).0
  {
    hide Poll;
    var one := [v];
    assert one[0] == v && one[1..] == [];
    assert After(s, one) == After(Poll(s, v).0, one[1..]);
  }

  lemma OpensHolds(s: Client, v: Input)
    requires Opens(s, v)
    ensures !s.holdOurs && Poll(s, v).0.holdOurs
  {
  }

  /** Automatic resumes never outnumber the episodes this client opened. */
  lemma {:induction false} ResumesWithinEpisodes(s: Client, polls: seq<Input>)
    ensures ResumeCount(s, polls) + (if After(s, polls).holdOurs then 1 else 0)
            <= Episodes(s, polls) + (if s.holdOurs then 1 else 0)
    decreases |polls|
  {
    if polls != [] {
      PollEffects(s, polls[0]);
      hide Poll, Clean, Resumes;
      ResumesWithinEpisodes(Poll(s, polls[0]).0, polls[1..]);
    }
  }

  // ---- the flags in place ----

  class Cooler {
    var holdOurs: bool
    var decelLit: bool
    var pauseSaid: bool
    var reholdSaid: bool
    var staleWarned: bool
    var fallbackDone: bool
    var jogWarned: bool

    ghost function State(): Client
      reads this
    {
      Client(holdOurs, decelLit, pauseSaid, reholdSaid, staleWarned, fallbackDone, jogWarned)
    }

    method TakeHold()
      modifies this
      ensures State() == HoldTake(old(State()))
    {
      if holdOurs && !reholdSaid { reholdSaid := true; }
      if !holdOurs { decelLit := true; }
      holdOurs := true;
    }

    method TrackDecel(core: Core)
      modifies this`decelLit
      ensures decelLit == (old(decelLit) && (core.Cycle? || core == Hold(false)))
    {
      if !decelLit { return; }
      if core == Hold(true) {
        decelLit := false;
      } else if !core.Cycle? && !core.Hold? {
        decelLit := false;
      }
    }

    /** The tiers, said once per episode. */
    method OnTiers(v: Input) returns (fail: bool)
      modifies this`pauseSaid, this`decelLit
      ensures State() == Tiers(old(State()), v)
      ensures fail == (v.armed && Blocked(v) && v.current && v.failTier)
    {
      fail := false;
      if v.armed && Blocked(v) {
        if v.current && v.failTier {
          fail := true;
        } else if !pauseSaid {
          pauseSaid := true;
        }
      } else {
        pauseSaid, decelLit := false, false;
      }
      TrackDecel(v.core);
    }

    /** No verdict: motion holds, and an armed window gets the fallback airflow. */
    method OnStale(v: Input) returns (cmds: Commands)
      modifies this
      ensures (State(), cmds) == StalePoll(old(State()), v)
    {
      cmds := QUIET;
      if v.window || v.flood {
        cmds := cmds.(heater := !staleWarned);
        staleWarned := true;
        if v.core.Cycle? {
          TakeHold();
          cmds := cmds.(feedHold := true);
        } else if v.core.Hold? {
          reholdSaid := false;
        }
        if v.window && !fallbackDone {
          fallbackDone := true;
          cmds := cmds.(fans := true);
        }
      }
    }

    /** A verdict that holds, or a clean one that gives back what this client held. */
    method OnFresh(v: Input) returns (cmds: Commands)
      modifies this
      ensures (State(), cmds) == FreshPoll(old(State()), v)
    {
      cmds := QUIET;
      if staleWarned { staleWarned, fallbackDone := false, false; }
      if v.hold || (v.armed && Blocked(v)) {
        match v.core {
          case Cycle =>
            TakeHold();
            cmds := cmds.(feedHold := true);
          case Hold(_) => reholdSaid := false;
          case Jog =>
            cmds := cmds.(jogCancel := true);
            jogWarned := true;
          case Other =>
        }
      } else {
        jogWarned, reholdSaid := false, false;
        if holdOurs {
          if !v.core.Hold? {
            holdOurs := false;
          } else if v.resumeOk {
            holdOurs := false;
            cmds := cmds.(resume := true);
          }
        }
      }
    }

    /** One poll of the cached verdict. */
    method OnPoll(v: Input) returns (cmds: Commands)
      modifies this
      ensures (State(), cmds) == Poll(old(State()), v)
    {
      hide Tiers, FreshPoll, StalePoll;
      var fail := OnTiers(v);
      if v.current {
        cmds := OnFresh(v);
      } else {
        cmds := OnStale(v);
      }
      cmds := cmds.(fail := fail);
    }
  }
}
