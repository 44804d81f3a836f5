/**
 Pausing is transparent: a game that is paused for a while, in which players may still
 submit, and then resumed, goes on exactly as the unpaused game would have, later by
 the length of the pause.
 */
module Pausing {
  import opened GameTypes
  import opened Roster
  import opened Rules
  import opened Invariants
  import opened Runs
  import opened Shifting
  import Dealing

  function Halted(s: State, at: Time): State { s.(paused := true, pausedAt := at) }

  // ---------------------------------------------------------------- the pause window

  /**
   A step that belongs in a pause: a tick, a repeated pause, a night submission, the voice
   switch, a ballot that is not counted, or anything that is rejected. Accepted steps that
   end a phase do not.
   */
  predicate Calm(s: State, st: Step)
    requires Indexable(s)
  {
    match st
    case Clock(_, _) => true
    case Submit(a, env) =>
      || a.PauseGame? || a.SubmitKill? || a.SubmitHeal? || a.SubmitCheck? || a.ToggleVoice?
      || (a.SubmitVote? && Exec(s, st).events == [])
      || Exec(s, st).error.Some?
  }

  ghost predicate CalmThroughout(s: State, steps: seq<Step>)
    requires Inv(s) && Sane(steps)
  {
    steps != [] ==>
      var front := steps[..|steps| - 1];
      CalmThroughout(s, front) && Calm(After(s, front), steps[|steps| - 1])
  }

  predicate IsKept(st: Step) { st.Submit? && !st.action.PauseGame? }

  /** The steps of a pause window that do something: everything but ticks and repeated pauses. */
  function Kept(steps: seq<Step>): (r: seq<Step>)
    ensures Sane(steps) ==> Sane(r)
  {
    if steps == [] then []
    else
      var front, st := Kept(steps[..|steps| - 1]), steps[|steps| - 1];
      if IsKept(st) then front + [st] else front
  }

  /** What a halted game makes of a submission: the same as the running game, still halted. */
  predicate SameWhileHalted(s: State, at: Time, o: Outcome, o': Outcome) {
    && o'.next == Halted(o.next, at) && o'.events == o.events && o'.error == o.error
    && o.next.paused == s.paused && o.next.lastTickAt == s.lastTickAt && o.next.phase == s.phase
  }

  lemma KillWhileHalted(s: State, at: Time, sender: PlayerId, target: PlayerId)
    ensures SameWhileHalted(s, at, SubmitKillRule(s, sender, target), SubmitKillRule(Halted(s, at), sender, target))
  {
    hide RoleError, LifeErrors, RoleOf;
  }

  lemma HealWhileHalted(s: State, at: Time, sender: PlayerId, target: PlayerId)
    ensures SameWhileHalted(s, at, SubmitHealRule(s, sender, target), SubmitHealRule(Halted(s, at), sender, target))
  {
    hide RoleError, LifeErrors, RoleOf;
  }

  lemma CheckWhileHalted(s: State, at: Time, sender: PlayerId, target: PlayerId)
    ensures SameWhileHalted(s, at, SubmitCheckRule(s, sender, target), SubmitCheckRule(Halted(s, at), sender, target))
  {
    hide RoleError, LifeErrors, RoleOf;
  }

  lemma BallotWhileHalted(s: State, at: Time, sender: PlayerId, target: PlayerId, env: Env)
    requires CastVote(Halted(s, at), sender, target, env).events == []
    ensures SameWhileHalted(s, at, CastVote(s, sender, target, env), CastVote(Halted(s, at), sender, target, env))
  {
    hide Eliminate, EnterNight, Live, IsAlive, Has, LifeError, LifeErrors;
  }

  lemma VoiceWhileHalted(s: State, at: Time, host: PlayerId, on: bool)
    ensures SameWhileHalted(s, at, Voice(s, host, on), Voice(Halted(s, at), host, on))
  {
  }

  lemma IdleWhileHalted(s: State, at: Time, st: Step)
    requires Indexable(s) && (st.Clock? || st.action.PauseGame?)
    ensures Exec(Halted(s, at), st).next == Halted(s, at) && Exec(Halted(s, at), st).events == []
  {
  }

  /** While the game is halted, ticks and pauses do nothing and submissions act as on the running game. */
  lemma CalmStep(s: State, at: Time, st: Step)
    requires Indexable(s) && Calm(Halted(s, at), st)
    ensures !IsKept(st) ==> Exec(Halted(s, at), st).next == Halted(s, at) && Exec(Halted(s, at), st).events == []
    ensures IsKept(st) ==> SameWhileHalted(s, at, Exec(s, st), Exec(Halted(s, at), st))
  {
    hide SubmitKillRule, SubmitHealRule, SubmitCheckRule, CastVote, Voice, SameWhileHalted;
    if !IsKept(st) {
      IdleWhileHalted(s, at, st);
    } else if Exec(Halted(s, at), st).error.Some? {
      RejectionWhileHalted(s, at, st.action, st.env);
    } else {
      match st.action {
        case SubmitKill(sender, target) => KillWhileHalted(s, at, sender, target);
        case SubmitHeal(sender, target) => HealWhileHalted(s, at, sender, target);
        case SubmitCheck(sender, target) => CheckWhileHalted(s, at, sender, target);
        case ToggleVoice(host, on) => VoiceWhileHalted(s, at, host, on);
        case SubmitVote(sender, target) => BallotWhileHalted(s, at, sender, target, st.env);
      }
    }
  }

  /** A pause changes nothing about what is rejected. */
  lemma ErrorWhileHalted(s: State, at: Time, a: Action, env: Env)
    requires Indexable(s)
    ensures Apply(Halted(s, at), a, env).error == Apply(s, a, env).error
  {
    hide SubmitKillRule, SubmitHealRule, SubmitCheckRule, CastVote, ResolveNight, Advance, FinishSelf, StartFromLobby;
    hide Pause, Resume;
    match a {
      case StartGame(host, o) => StartErrorWhileHalted(s, at, host, o, env);
      case AdvanceIntro(host) => HostErrorWhileHalted(s, at, host, env);
      case EndSelfIntro(sender) => HostErrorWhileHalted(s, at, sender, env);
      case PauseGame(host) => HostErrorWhileHalted(s, at, host, env);
      case ResumeGame(host) => HostErrorWhileHalted(s, at, host, env);
      case EndNightEarly(_) => ResolutionErrorWhileHalted(s, at, env);
      case SubmitKill(sender, target) => KillWhileHalted(s, at, sender, target);
      case SubmitHeal(sender, target) => HealWhileHalted(s, at, sender, target);
      case SubmitCheck(sender, target) => CheckWhileHalted(s, at, sender, target);
      case SubmitVote(sender, target) => BallotErrorWhileHalted(s, at, sender, target, env);
      case _ =>
    }
  }

  lemma StartErrorWhileHalted(s: State, at: Time, host: PlayerId, o: Options, env: Env)
    ensures StartFromLobby(Halted(s, at), host, o, env).error == StartFromLobby(s, host, o, env).error
  {
    hide Opening, Dealing.Seat, Dealing.Assign;
  }

  lemma HostErrorWhileHalted(s: State, at: Time, id: PlayerId, env: Env)
    requires Indexable(s)
    ensures Advance(Halted(s, at), id, env).error == Advance(s, id, env).error
    ensures FinishSelf(Halted(s, at), id, env).error == FinishSelf(s, id, env).error
    ensures Pause(Halted(s, at), id, env).error == Pause(s, id, env).error
    ensures Resume(Halted(s, at), id, env).error == Resume(s, id, env).error
  {
    hide IntroToDay, Resumed;
  }

  lemma ResolutionErrorWhileHalted(s: State, at: Time, env: Env)
    ensures ResolveNight(Halted(s, at), env).error == ResolveNight(s, env).error
  {
    hide Bury, ScheduleEnd, Has;
  }

  lemma BallotErrorWhileHalted(s: State, at: Time, sender: PlayerId, target: PlayerId, env: Env)
    ensures CastVote(Halted(s, at), sender, target, env).error == CastVote(s, sender, target, env).error
  {
    hide Tally, Live, LifeError, LifeErrors;
  }

  lemma RejectionWhileHalted(s: State, at: Time, a: Action, env: Env)
    requires Indexable(s) && Apply(Halted(s, at), a, env).error.Some?
    ensures SameWhileHalted(s, at, Apply(s, a, env), Apply(Halted(s, at), a, env))
  {
    hide Apply;
    ErrorWhileHalted(s, at, a, env);
    ApplyIsAtomic(s, a, env);
    ApplyIsAtomic(Halted(s, at), a, env);
  }

  /**
   A pause window only halts: it leaves the game the kept submissions would have left
   running, and announces what they would have announced.
   */
  lemma {:induction false} WindowOnlyHalts(s: State, at: Time, window: seq<Step>)
    requires Inv(s) && !s.paused && Inv(Halted(s, at)) && Sane(window) && CalmThroughout(Halted(s, at), window)
    ensures
      var t := After(s, Kept(window));
      && After(Halted(s, at), window) == Halted(t, at)
      && Trace(Halted(s, at), window) == Trace(s, Kept(window))
      && !t.paused && t.lastTickAt == s.lastTickAt && t.phase == s.phase
  {
    hide Inv, Exec, Calm, Halted;
    if window != [] {
      var front, st := window[..|window| - 1], window[|window| - 1];
      WindowOnlyHalts(s, at, front);
      var m := After(s, Kept(front));
      InvIndexable(m);
      CalmStep(m, at, st);
      var es := Trace(s, Kept(front));
      assert es + [] == es;
      assert (Kept(front) + [st])[..|Kept(front)|] == Kept(front);
    }
  }

  // ---------------------------------------------------------------- resuming

  /** Resuming after `d` gives the shifted game, except for the instant of its last tick. */
  lemma ResumeIsShift(s: State, at: Time, d: nat)
    requires Inv(s) && !s.paused && !s.phase.End?
    ensures Resumed(Halted(s, at), at + d) == Shift(s, d, s.phase.Intro?).(lastTickAt := at + d)
  {
    hide ProperIds, People, Records;
  }

  /** Reminders whose instant passed between the last tick and the pause; they are the pause's only loss. */
  function Skipped(s: State, at: Time, now: Time): seq<Envelope> {
    if s.phase.Day? && (s.pendingEnd.None? || now < s.pendingEnd.value.deadline)
    then Crossed(THRESHOLDS, s.deadline, s.lastTickAt, at) else []
  }

  lemma CrossedLast(ths: seq<int>, th: int, deadline: Time, a: Time, b: Time)
    ensures Crossed(ths + [th], deadline, a, b)
         == Crossed(ths, deadline, a, b) + (if Crosses(th, deadline, a, b) then [Pub(DiscussionTick(th))] else [])
  {
    assert (ths + [th])[..|ths|] == ths;
    assert Crossed(ths, deadline, a, b) + [] == Crossed(ths, deadline, a, b);
  }

  lemma CrossedThree(deadline: Time, a: Time, b: Time)
    ensures
      var f := (th: int) => if Crosses(th, deadline, a, b) then [Pub(DiscussionTick(th))] else [];
      Crossed(THRESHOLDS, deadline, a, b) == f(30) + f(10) + f(0)
  {
    assert [] + [30] == [30] && [30] + [10] == [30, 10] && [30, 10] + [0] == THRESHOLDS;
    CrossedLast([], 30, deadline, a, b);
    CrossedLast([30], 10, deadline, a, b);
    CrossedLast([30, 10], 0, deadline, a, b);
  }

  lemma CrossedSplits(deadline: Time, a: Time, b: Time, c: Time)
    requires a <= b <= c
    ensures Crossed(THRESHOLDS, deadline, a, c)
         == Crossed(THRESHOLDS, deadline, a, b) + Crossed(THRESHOLDS, deadline, b, c)
  {
    hide Crossed, THRESHOLDS;
    CrossedThree(deadline, a, b);
    CrossedThree(deadline, b, c);
    CrossedThree(deadline, a, c);
  }

  /** A later last tick costs a tick only the reminders in between. */
  lemma LaterLastTick(s: State, last: Time, now: Time, env: Env)
    requires Inv(s) && !s.paused && s.lastTickAt <= last < now
    ensures
      var o, o' := Tick(s, now, env), Tick(s.(lastTickAt := last), now, env);
      o'.next == o.next && o'.error == o.error && o.events == Skipped(s, last, now) + o'.events
  {
    hide ProperIds, People, Records, TickIntro, TickNight, Crossed;
    var o' := Tick(s.(lastTickAt := last), now, env);
    assert [] + o'.events == o'.events;
    if s.phase.Day? {
      CrossedSplits(s.deadline, s.lastTickAt, last, now);
      var a, b := Crossed(THRESHOLDS, s.deadline, s.lastTickAt, last), Crossed(THRESHOLDS, s.deadline, last, now);
      assert a + (b + DayToVote(s.(lastTickAt := now), now).events)
        == (a + b) + DayToVote(s.(lastTickAt := now), now).events;
    }
  }

  /** The first tick after a pause does what the tick of the running game does, `d` later. */
  lemma FirstTickAfterPause(s: State, at: Time, d: nat, now: Time, env: Env)
    requires Inv(s) && !s.paused && !s.phase.End? && s.lastTickAt <= at < now && SaneEnv(env)
    ensures Inv(Resumed(Halted(s, at), at + d))
    ensures
      var intro := s.phase.Intro?;
      var o := Tick(s, now, env);
      var o' := Tick(Resumed(Halted(s, at), at + d), now + d, ShiftEnv(env, d));
      && o'.next == Shift(o.next, d, intro) && o'.error == o.error
      && o.error.None?
      && ShiftAll(o.events, d) == Skipped(s, at, now) + o'.events
  {
    hide Inv, Tick, Shift, ShiftAll, Resumed, Crossed;
    var intro := s.phase.Intro?;
    var t := Shift(s, d, intro);
    NormalTimes(s, at, d);
    ResumeIsShift(s, at, d);
    ShiftKeepsInv(s, d, intro);
    TickKeeps(s, now, env);
    TickShifts(s, now, env, d, intro);
    LaterLastTick(t, at + d, now + d, ShiftEnv(env, d));
    SkippedShifts(s, at, now, d);
    LaterStampKeepsInv(t, at + d);
  }

  lemma NormalTimes(s: State, at: Time, d: nat)
    requires Inv(s) && !s.paused && s.lastTickAt <= at
    ensures !Shift(s, d, s.phase.Intro?).paused && Shift(s, d, s.phase.Intro?).lastTickAt <= at + d
    ensures ZERO_TIME < at + d
  {
  }

  lemma LaterStampKeepsInv(s: State, last: Time)
    requires Inv(s) && ZERO_TIME < last
    ensures Inv(s.(lastTickAt := last))
  {
    hide ProperIds, TrueHistory, OpenBallot, RightRepresentative, Balanced, LiveTargets;
  }

  lemma SkippedShifts(s: State, at: Time, now: Time, d: nat)
    requires Inv(s)
    ensures Skipped(Shift(s, d, s.phase.Intro?), at + d, now + d) == Skipped(s, at, now)
  {
    hide ProperIds, People, Records, Crossed;
    if s.phase.Day? {
      CrossedShifts(THRESHOLDS, s.deadline, s.lastTickAt, at, d);
    }
  }

  // ---------------------------------------------------------------- the theorem

  lemma {:induction false} AfterConcat(s: State, a: seq<Step>, b: seq<Step>)
    requires Inv(s) && Sane(a) && Sane(b)
    ensures Sane(a + b) && After(s, a + b) == After(After(s, a), b)
    ensures Trace(s, a + b) == Trace(s, a) + Trace(After(s, a), b)
  {
    hide Inv, Exec;
    if b == [] {
      assert a + b == a;
    } else {
      AfterConcat(s, a, b[..|b| - 1]);
      assert (a + b)[..|a + b| - 1] == a + b[..|b| - 1];
      assert b[|b| - 1] == (a + b)[|a + b| - 1];
      InvIndexable(After(After(s, a), b[..|b| - 1]));
      TraceAssoc(Trace(s, a), Trace(After(s, a), b[..|b| - 1]),
                 Exec(After(After(s, a), b[..|b| - 1]), b[|b| - 1]).events);
    }
  }

  lemma TraceAssoc(a: seq<Envelope>, b: seq<Envelope>, c: seq<Envelope>)
    ensures (a + b) + c == a + (b + c)
  {
  }

  lemma AfterOne(s: State, st: Step)
    requires Inv(s) && SaneEnv(st.env)
    ensures Sane([st]) && After(s, [st]) == Exec(s, st).next && Trace(s, [st]) == Exec(s, st).events
  {
    hide Inv, Exec;
    assert [st][..0] == [];
    InvIndexable(s);
  }

  /** The run that is paused at `pause.now` and resumed after the window. */
  function Interruption(host: PlayerId, pause: Env, window: seq<Step>, resume: Env): seq<Step> {
    [Submit(PauseGame(host), pause)] + window + [Submit(ResumeGame(host), resume)]
  }

  /** What the interruption announces: the pause, the window's own announcements, and the moved deadline. */
  function Interrupted(s: State, during: seq<Envelope>, w: State, d: nat): seq<Envelope> {
    [Pub(GamePaused(s.phase))] + during + [Pub(GameResumed(s.phase, ActiveDeadline(Shift(w, d, s.phase.Intro?))))]
  }

  lemma InterruptionEnds(s: State, host: PlayerId, pause: Env, window: seq<Step>, resume: Env, d: nat)
    requires Inv(s) && !s.paused && SaneEnv(pause) && SaneEnv(resume) && Sane(window)
    requires Pause(s, host, pause).error.None? && !s.phase.End? && CalmThroughoutHalted(s, pause.now, window)
    requires resume.now == pause.now + d
    ensures Sane(Interruption(host, pause, window, resume))
    ensures
      var w := After(s, Kept(window));
      var run := Interruption(host, pause, window, resume);
      && After(s, run) == Resumed(Halted(w, pause.now), resume.now)
      && Trace(s, run) == Interrupted(s, Trace(s, Kept(window)), w, d)
      && !w.paused && w.lastTickAt == s.lastTickAt && w.phase == s.phase
  {
    hide Inv, Shift, Resumed, Halted, Exec, Pause, ActiveDeadline;
    var first, third := Submit(PauseGame(host), pause), Submit(ResumeGame(host), resume);
    var w := After(s, Kept(window));
    HaltKeeps(s, pause.now);
    HostPauses(s, host, pause);
    AfterOne(s, first);
    WindowOnlyHalts(s, pause.now, window);
    AfterConcat(s, [first], window);
    HaltKeeps(w, pause.now);
    SameHost(s, Kept(window));
    ResumedExec(w, pause.now, host, resume, d);
    AfterOne(Halted(w, pause.now), third);
    AfterConcat(s, [first] + window, [third]);
  }

  ghost predicate CalmThroughoutHalted(s: State, at: Time, window: seq<Step>)
    requires Sane(window)
  {
    Inv(Halted(s, at)) && CalmThroughout(Halted(s, at), window)
  }

  lemma HostPauses(s: State, host: PlayerId, pause: Env)
    requires Inv(s) && !s.paused && !s.phase.End? && Pause(s, host, pause).error.None?
    ensures host == s.hostId
    ensures Exec(s, Submit(PauseGame(host), pause)).next == Halted(s, pause.now)
    ensures Exec(s, Submit(PauseGame(host), pause)).events == [Pub(GamePaused(s.phase))]
  {
    hide People, Records, ProperIds;
  }

  lemma ResumedExec(w: State, at: Time, host: PlayerId, resume: Env, d: nat)
    requires Inv(w) && !w.paused && !w.phase.End? && host == w.hostId && resume.now == at + d
    ensures
      var o := Exec(Halted(w, at), Submit(ResumeGame(host), resume));
      && o.next == Resumed(Halted(w, at), resume.now)
      && o.events == [Pub(GameResumed(w.phase, ActiveDeadline(Shift(w, d, w.phase.Intro?))))]
  {
    hide Resumed, Shift, People, Records, ProperIds;
    ResumeIsShift(w, at, d);
    InvIndexable(w);
  }

  lemma {:induction false} SameHost(s: State, steps: seq<Step>)
    requires Inv(s) && Sane(steps)
    ensures After(s, steps).hostId == s.hostId
    ensures Indexable(After(s, steps))
  {
    hide Inv, Exec;
    InvIndexable(After(s, steps));
    if steps != [] {
      var front, st := steps[..|steps| - 1], steps[|steps| - 1];
      SameHost(s, front);
      StepKeeps(After(s, front), st);
    }
  }

  /** The first tick after the interruption, as a run of one step. */
  lemma TickAfterInterruption(w: State, at: Time, d: nat, now: Time, env: Env)
    requires Inv(w) && !w.paused && !w.phase.End? && w.lastTickAt <= at < now && SaneEnv(env)
    ensures Inv(Resumed(Halted(w, at), at + d)) && Sane([Clock(now, env)]) && Sane(ShiftSteps([Clock(now, env)], d))
    ensures
      var r, tick := Resumed(Halted(w, at), at + d), [Clock(now, env)];
      && After(r, ShiftSteps(tick, d)) == Shift(After(w, tick), d, w.phase.Intro?)
      && ShiftAll(Trace(w, tick), d) == Skipped(w, at, now) + Trace(r, ShiftSteps(tick, d))
  {
    hide Inv, Exec, Shift, Resumed, Skipped, ShiftAll, Tick;
    var r, tick := Resumed(Halted(w, at), at + d), Clock(now, env);
    FirstTickAfterPause(w, at, d, now, env);
    ShiftStepsOne(tick, d);
    AfterOne(w, tick);
    AfterOne(r, Clock(now + d, ShiftEnv(env, d)));
    TickIsExec(w, now, env);
    TickIsExec(r, now + d, ShiftEnv(env, d));
  }

  lemma ShiftStepsOne(st: Step, d: nat)
    ensures ShiftSteps([st], d) == [ShiftStep(st, d)]
  {
  }

  lemma ShiftStepsConcat(a: seq<Step>, b: seq<Step>, d: nat)
    ensures ShiftSteps(a + b, d) == ShiftSteps(a, d) + ShiftSteps(b, d)
  {
  }

  /** The running game's tick and what follows it, as the resumed game goes through them. */
  lemma ResumedRunFollows(w: State, at: Time, d: nat, now: Time, env: Env, rest: seq<Step>)
    requires Inv(w) && !w.paused && !w.phase.End? && w.lastTickAt <= at < now && SaneEnv(env) && Sane(rest)
    ensures Inv(Resumed(Halted(w, at), at + d))
    ensures
      var r, run := Resumed(Halted(w, at), at + d), [Clock(now, env)] + rest;
      && Sane(run) && Sane(ShiftSteps(run, d))
      && After(r, ShiftSteps(run, d)) == Shift(After(w, run), d, w.phase.Intro?)
      && ShiftAll(Trace(w, run), d) == Skipped(w, at, now) + Trace(r, ShiftSteps(run, d))
  {
    hide Inv, Exec, Shift, Resumed, Skipped, ShiftAll, ShiftSteps;
    var r, tick := Resumed(Halted(w, at), at + d), [Clock(now, env)];
    TickAfterInterruption(w, at, d, now, env);
    var m := After(w, tick);
    IntroStaysBehind(w, tick);
    RunsShift(m, rest, d, w.phase.Intro?);
    AfterConcat(w, tick, rest);
    ShiftStepsConcat(tick, rest, d);
    AfterConcat(r, ShiftSteps(tick, d), ShiftSteps(rest, d));
    ShiftConcat(Trace(w, tick), Trace(m, rest), d);
    TraceAssoc(Skipped(w, at, now), Trace(r, ShiftSteps(tick, d)),
               Trace(After(r, ShiftSteps(tick, d)), ShiftSteps(rest, d)));
  }

  /**
   Pause transparency. Pause a running game at `pause.now`, let any calm steps happen,
   resume it `d` later, and tick and go on with every clock reading moved by `d`. The game
   is then exactly the game that was never paused (and saw only the kept submissions), with
   all its timers moved by `d`. What it announces is, in order: the pause, what the kept
   submissions announce, the resumption, and everything the running game announces from
   its next tick on, moved by `d`, without the reminders skipped by the pause.
   */
  lemma PauseIsTransparent(s: State, host: PlayerId, pause: Env, window: seq<Step>, resume: Env,
                           now: Time, env: Env, rest: seq<Step>, d: nat)
    requires Inv(s) && !s.paused && SaneEnv(pause) && SaneEnv(resume) && SaneEnv(env) && Sane(window) && Sane(rest)
    requires Pause(s, host, pause).error.None? && !s.phase.End? && CalmThroughoutHalted(s, pause.now, window)
    requires resume.now == pause.now + d && s.lastTickAt <= pause.now < now
    ensures
      var onward := [Clock(now, env)] + rest;
      var paused, running := Interruption(host, pause, window, resume) + ShiftSteps(onward, d), Kept(window) + onward;
      var w := After(s, Kept(window));
      var lost := Skipped(w, pause.now, now);
      && Sane(onward) && Sane(paused) && Sane(running)
      && After(s, paused) == Shift(After(s, running), d, s.phase.Intro?)
      && lost <= ShiftAll(Trace(w, onward), d)
      && Trace(s, paused) == Interrupted(s, Trace(s, Kept(window)), w, d) + ShiftAll(Trace(w, onward), d)[|lost|..]
  {
    hide Inv, Exec, Shift, CalmThroughoutHalted, Interruption, Interrupted, Pause, Resumed, Halted, Skipped, ShiftAll;
    hide ShiftSteps;
    var onward := [Clock(now, env)] + rest;
    var w := After(s, Kept(window));
    InterruptionEnds(s, host, pause, window, resume, d);
    ResumedRunFollows(w, pause.now, d, now, env, rest);
    AfterConcat(s, Kept(window), onward);
    AfterConcat(s, Interruption(host, pause, window, resume), ShiftSteps(onward, d));
  }

  lemma TickIsExec(s: State, now: Time, env: Env)
    requires Inv(s)
    ensures Indexable(s) && Exec(s, Clock(now, env)) == Tick(s, now, env)
  {
  }
}
