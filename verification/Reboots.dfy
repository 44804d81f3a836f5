/**
 The whole life of a session: calls, crashes and orderly restarts. What survives a reboot
 and what a crash loses.
 */
module Reboots {
  import opened GameTypes
  import opened Roster
  import opened Rules
  import opened Invariants
  import opened Runs
  import opened Sessions

  // ---------------------------------------------------------------- the life of a session

  /**
   What can happen to a session: a call, a crash and reboot, or an orderly shutdown and
   reboot. Calls and shutdowns write; whether their writes succeed is part of what happens.
   */
  datatype Happening = Call(step: Step, writes: Writes) | Crash | Restart(writes: Writes)

  const ALL_WRITES := Writes(true, true)

  /** A session after one happening; reboots meet a store that can be read and written. */
  ghost function Met(x: Session, h: Happening): Session
    requires h.Call? && x.started ==> Callable(x.engine, h.step)
  {
    match h
    case Call(st, w) => SessionStep(x, st, w)
    case Crash => Rebooted(x.store, CLEAN_BOOT)
    case Restart(w) => Rebooted(Closed(x, w).store, CLEAN_BOOT)
  }

  lemma CoveredIsCallable(x: Session, st: Step)
    requires Covered(x)
    ensures x.started ==> Callable(x.engine, st)
  {
    if x.started {
      InvIndexable(x.engine);
    }
  }

  /**
   A crash takes a running game back to its snapshot, which agrees with it on all progress;
   an orderly restart that saves resumes the very same state, and one that does not is a
   crash. No reboot starts or stops a game, and the store covers the game again.
   */
  lemma RebootResumes(x: Session, w: Writes)
    requires Covered(x)
    ensures Met(x, Crash).started == Met(x, Restart(w)).started == x.started
    ensures x.started ==> Agrees(Met(x, Crash).engine, x.engine)
    ensures x.started && w.snapshot ==> Met(x, Restart(w)).engine == x.engine
    ensures !x.started || !w.snapshot ==> Met(x, Restart(w)) == Met(x, Crash)
    ensures Met(x, Crash).store == x.store && Met(x, Restart(w)).store.results == x.store.results
    ensures Covered(Met(x, Crash)) && Covered(Met(x, Restart(w)))
    ensures x.started ==> Met(x, Crash).queue == Met(x, Restart(w)).queue == [Restored]
  {
    hide Inv, Agrees, SessionStep, Earned;
    if x.started {
      InvIndexable(x.engine);
      InvIndexable(x.store.active.value);
      SelfAgrees(x.store.active.value);
      SelfAgrees(x.engine);
      AgreesOnPhase(x.store.active.value, x.engine);
    }
  }

  lemma AgreesOnPhase(a: State, b: State)
    requires Agrees(a, b)
    ensures a.phase == b.phase && (Earned(b) ==> Earned(a))
  {
  }

  /** A happening whose clock is sane and whose writes, if it is a call, succeed. */
  predicate Sound(h: Happening) { h.Call? ==> SaneEnv(h.step.env) && h.writes == ALL_WRITES }

  ghost predicate SoundLife(hs: seq<Happening>) { forall i :: 0 <= i < |hs| ==> Sound(hs[i]) }

  /** A covered session after one sound happening. */
  ghost function Next(x: Session, h: Happening): Session
    requires Covered(x)
  {
    if h.Call? then
      CoveredIsCallable(x, h.step);
      Met(x, h)
    else Met(x, h)
  }

  /** Every sound happening keeps the store covering the game, so reboots may come again and again. */
  lemma StaysCovered(x: Session, h: Happening)
    requires Covered(x) && Sound(h)
    ensures Covered(Next(x, h))
  {
    hide Covered, Rebooted, SessionStep, Closed;
    match h {
      case Call(st, _) => StepStaysCovered(x, st);
      case Crash => RebootResumes(x, ALL_WRITES);
      case Restart(w) => RebootResumes(x, w);
    }
  }

  /** A session after all of these. */
  ghost function Lived(x: Session, hs: seq<Happening>): (y: Session)
    requires Covered(x) && SoundLife(hs)
    ensures Covered(y)
  {
    if hs == [] then x
    else
      var before := Lived(x, hs[..|hs| - 1]);
      StaysCovered(before, hs[|hs| - 1]);
      Next(before, hs[|hs| - 1])
  }

  // ---------------------------------------------------------------- nothing decided is lost

  /** No seat, death, day or verdict of `a` is undone in `b`. */
  ghost predicate Carried(a: State, b: State) {
    && a.gameId == b.gameId && a.day <= b.day
    && SamePeople(a.players, b.players)
    && (forall i :: 0 <= i < |a.players| && b.players[i].alive ==> a.players[i].alive)
    && (a.pendingEnd.Some? ==> b.pendingEnd.Some? && VerdictOf(b) == VerdictOf(a))
  }

  /** The filed result of the game that was in state `a`: its people, and its verdict unless the host ended it. */
  ghost predicate FiledFor(a: State, results: map<string, GameResult>) {
    && a.gameId in results
    && var r := results[a.gameId];
       && SamePeople(a.players, r.roster)
       && (forall i :: 0 <= i < |a.players| && r.roster[i].alive ==> a.players[i].alive)
       && (a.pendingEnd.Some? && r.reason != HostForceEnd ==>
             r.winner.Some? && VerdictOf(a) == Some(Verdict(r.reason, r.winner.value)))
  }

  ghost predicate Survives(a: State, y: Session) {
    if y.started then Carried(a, y.engine) else FiledFor(a, y.store.results)
  }

  lemma CarriedFurther(a: State, m: State, t: State)
    requires Inv(m) && Inv(t) && Carried(a, m) && Follows(m, t) && !t.phase.End?
    ensures Carried(a, t)
  {
    hide ProperIds, People, Records, PhaseShape, EvaluateEnd;
    SamePeopleThrough(a.players, m.players, t.players);
  }

  lemma CarriedToResult(a: State, m: State, t: State, store: Store)
    requires Inv(m) && Inv(t) && Carried(a, m) && Follows(m, t) && !m.phase.End? && t.phase.End? && HasFiled(store, t)
    ensures FiledFor(a, store.results)
  {
    hide ProperIds, People, Records;
    SamePeopleThrough(a.players, m.players, t.players);
  }

  lemma CallSurvives(a: State, x: Session, st: Step)
    requires Covered(x) && SaneEnv(st.env) && Survives(a, x)
    ensures Survives(a, Next(x, Call(st, ALL_WRITES)))
  {
    hide Inv, Exec, Carried, FiledFor, Follows, HasTrigger, Agrees, Earned;
    StepStaysCovered(x, st);
    if x.started {
      InvIndexable(x.engine);
      StepKeeps(x.engine, st);
      var t := Exec(x.engine, st).next;
      if t.phase.End? {
        EndingIsFiled(x, st);
        CarriedToResult(a, x.engine, t, Next(x, Call(st, ALL_WRITES)).store);
      } else {
        RunningStep(x, st);
        CarriedFurther(a, x.engine, t);
      }
    }
  }

  lemma RunningStep(x: Session, st: Step)
    requires Covered(x) && x.started && SaneEnv(st.env) && Callable(x.engine, st) && !Exec(x.engine, st).next.phase.End?
    ensures SessionStep(x, st, ALL_WRITES).started && SessionStep(x, st, ALL_WRITES).engine == Exec(x.engine, st).next
  {
    hide Inv, Exec, Follows, HasTrigger, Agrees, Earned;
    StepAnnounces(x.engine, st);
    EndIndexFound(Exec(x.engine, st).events);
  }

  lemma AgreedIsCarried(a: State, b: State, c: State)
    requires Carried(a, c) && Agrees(b, c)
    ensures Carried(a, b)
  {
  }

  lemma RebootSurvives(a: State, x: Session, h: Happening)
    requires Covered(x) && Survives(a, x) && !h.Call?
    ensures Survives(a, Met(x, h))
  {
    hide Carried, FiledFor, Agrees, Covered, Rebooted, Closed;
    RebootResumes(x, if h.Restart? then h.writes else ALL_WRITES);
    if x.started {
      AgreedIsCarried(a, Met(x, Crash).engine, x.engine);
    }
  }

  lemma HappeningSurvives(a: State, x: Session, h: Happening)
    requires Covered(x) && Sound(h) && Survives(a, x)
    ensures Survives(a, Next(x, h))
  {
    hide Survives, Covered, Met;
    match h {
      case Call(st, _) => CallSurvives(a, x, st);
      case _ => RebootSurvives(a, x, h);
    }
  }

  /**
   Persist triggers cover progress. Through any calls, crashes and restarts, with writes
   that succeed, the same people keep their seats and roles, the dead stay dead, the day
   never goes back, and a pending verdict stays until the game is filed with it (or by the
   host's order).
   */
  lemma {:induction false} ProgressSurvives(x: Session, hs: seq<Happening>)
    requires Covered(x) && x.started && SoundLife(hs)
    ensures Survives(x.engine, Lived(x, hs))
  {
    hide Carried, FiledFor, Covered, Next;
    if hs == [] {
      SelfCarried(x.engine);
    } else {
      var front := hs[..|hs| - 1];
      ProgressSurvives(x, front);
      HappeningSurvives(x.engine, Lived(x, front), hs[|hs| - 1]);
    }
  }

  lemma SelfCarried(s: State)
    ensures Carried(s, s)
  {
  }

  // ---------------------------------------------------------------- what a crash loses

  /** A call that triggers no snapshot leaves no trace in the store: a crash undoes it. */
  lemma QuietStepIsForgotten(x: Session, st: Step, w: Writes)
    requires Covered(x) && x.started && SaneEnv(st.env) && Callable(x.engine, st)
    requires !HasTrigger(Exec(x.engine, st).events)
    ensures SessionStep(x, st, w).store == x.store && SessionStep(x, st, w).started
    ensures Rebooted(SessionStep(x, st, w).store, CLEAN_BOOT) == Rebooted(x.store, CLEAN_BOOT)
  {
    hide Inv, Exec, Agrees, Earned, Rebooted;
    var es := Exec(x.engine, st).events;
    if EndIndex(es) < |es| {
      TriggerAt(es, EndIndex(es));
    }
  }

  /** Night submissions, the pause, the voice switch and uncounted ballots are such calls. */
  predicate Unsaved(s: State, st: Step)
    requires Callable(s, st)
  {
    && st.Submit?
    && (|| st.action.SubmitKill? || st.action.SubmitHeal? || st.action.SubmitCheck?
        || st.action.PauseGame? || st.action.ResumeGame? || st.action.ToggleVoice?
        || (st.action.SubmitVote? && Exec(s, st).events == []))
  }

  /**
   A crash before the next snapshot forgets every accepted kill, heal, check, ballot, pause
   and voice switch: the reboot finds the game as if they had never been submitted, so a
   player may submit again in the same night.
   */
  lemma SubmissionIsForgotten(x: Session, st: Step, w: Writes)
    requires Covered(x) && x.started && SaneEnv(st.env) && Callable(x.engine, st) && Unsaved(x.engine, st)
    ensures Rebooted(SessionStep(x, st, w).store, CLEAN_BOOT) == Rebooted(x.store, CLEAN_BOOT)
  {
    hide Inv, Covered, Rebooted, SessionStep;
    SubmissionIsQuiet(x.engine, st);
    QuietStepIsForgotten(x, st, w);
  }

  lemma SubmissionIsQuiet(s: State, st: Step)
    requires Callable(s, st) && Unsaved(s, st)
    ensures !HasTrigger(Exec(s, st).events)
  {
    hide RoleError, LifeErrors, RoleOf, CastVote, Resumed;
  }

  /** Announcements that only tell the time: speakers, night steps and reminders. */
  ghost predicate TimeOnly(es: seq<Envelope>) {
    forall i :: 0 <= i < |es| ==>
      es[i].event.SpeakerChanged? || es[i].event.NightStepChanged? || es[i].event.DiscussionTick?
  }

  lemma {:induction false} SpeakersTellTime(ps: seq<Player>, i: int, k: nat, secs: int)
    requires k == 0 || -1 <= i < |ps| - k
    ensures TimeOnly(SpeakerEvents(ps, i, k, secs))
  {
    if k > 0 {
      SpeakersTellTime(ps, i, k - 1, secs);
    }
  }

  lemma IntroTellsTime(s: State, now: Time)
    requires -1 <= s.speakerIdx && s.phase.Intro? && TickIntro(s, now).next.phase.Intro?
    ensures TimeOnly(TickIntro(s, now).events)
  {
    hide SpeakerEvents, Turns;
    var per := Seconds(s.settings.introSeconds);
    var k := Turns(s.speakerIdx, s.speakerStartedAt, per, now, |s.players|);
    TurnsBound(s.speakerIdx, s.speakerStartedAt, per, now, |s.players|);
    SpeakersTellTime(s.players, s.speakerIdx, k, s.settings.introSeconds);
  }

  lemma DayTellsTime(s: State, now: Time, prev: Time)
    requires s.phase.Day? && TickDay(s, now, prev).next.phase.Day?
    ensures TimeOnly(TickDay(s, now, prev).events)
  {
    hide Crossed;
    CrossedPlain(THRESHOLDS, s.deadline, prev, now);
  }

  lemma NightTellsTime(s: State, now: Time, env: Env)
    requires Inv(s) && s.phase.Night? && SaneEnv(env) && TickNight(s, now, env).next.phase.Night?
    ensures TimeOnly(TickNight(s, now, env).events)
  {
    hide TickNight, ResolveNight, People, Records, ProperIds;
    var pre, step, deadline := NightTickForm(s, now, env);
    ResolveNightKeeps(s, s.(nightStep := NoStep, stepDeadline := ZERO_TIME), env);
  }

  lemma TickTellsTime(s: State, now: Time, env: Env)
    requires Inv(s) && SaneEnv(env) && Tick(s, now, env).next.phase == s.phase
    ensures TimeOnly(Tick(s, now, env).events)
  {
    hide TickIntro, TickDay, TickNight, People, Records, ProperIds;
    if !s.paused && s.lastTickAt < now {
      ActiveTick(s, now);
      var s1 := s.(lastTickAt := now);
      match s.phase {
        case Intro => if Tick(s, now, env) == TickIntro(s1, now) { IntroTellsTime(s1, now); }
        case Day => if Tick(s, now, env) == TickDay(s1, now, s.lastTickAt) { DayTellsTime(s1, now, s.lastTickAt); }
        case Night => if Tick(s, now, env) == TickNight(s1, now, env) { NightTellsTime(s1, now, env); }
        case _ =>
      }
    }
  }

  /** A tick that stays in its phase is not saved either: only progress is worth a write. */
  lemma QuietTickIsForgotten(x: Session, now: Time, env: Env, w: Writes)
    requires Covered(x) && x.started && SaneEnv(env) && Tickable(x.engine, now)
    requires Tick(x.engine, now, env).next.phase == x.engine.phase
    ensures SessionStep(x, Clock(now, env), w).store == x.store
  {
    hide Inv, Tick, Agrees, Earned, Rebooted;
    TickTellsTime(x.engine, now, env);
    QuietStepIsForgotten(x, Clock(now, env), w);
  }
}
