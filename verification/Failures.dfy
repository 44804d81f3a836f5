/**
 Results that could not be written. What a session makes of an ending whose result write
 fails, for every way the session can go on; and the fate of a decided game through any
 calls, crashes, restarts and failing writes.
 */
module Failures {
  import opened GameTypes
  import opened Roster
  import opened Rules
  import opened Invariants
  import opened Runs
  import opened Endings
  import opened Sessions
  import opened Reboots
  import Ballots

  // ---------------------------------------------------------------- a failed result write

  /** The game has ended, but the session still counts it as running. */
  ghost predicate Over(y: Session) { y.started && Inv(y.engine) && y.engine.phase.End? }

  lemma OverStays(y: Session, st: Step, w: Writes)
    requires Over(y)
    ensures Callable(y.engine, st)
    ensures
      var z := SessionStep(y, st, w);
      Over(z) && z == y.(engine := y.engine.(lastTickAt := z.engine.lastTickAt))
  {
    hide Exec;
    InvIndexable(y.engine);
    EndIsFinal(y.engine, st);
    LaterStamp(y.engine, Exec(y.engine, st).next.lastTickAt, st);
  }

  lemma LaterStamp(s: State, last: Time, st: Step)
    requires Inv(s) && s.phase.End? && last == Exec(s, st).next.lastTickAt
    ensures Inv(s.(lastTickAt := last))
  {
    hide ProperIds, RightRepresentative, LiveTargets, TrueHistory, OpenBallot, Balanced;
    EndIsFinal(s, st);
  }

  /** Such a session after further calls. */
  ghost function Idled(y: Session, calls: seq<Happening>): (z: Session)
    requires Over(y) && forall i :: 0 <= i < |calls| ==> calls[i].Call?
    ensures Over(z) && z == y.(engine := y.engine.(lastTickAt := z.engine.lastTickAt))
  {
    if calls == [] then y
    else
      var before, h := Idled(y, calls[..|calls| - 1]), calls[|calls| - 1];
      OverStays(before, h.step, h.writes);
      Met(before, h)
  }

  /** What an ending leaves behind when its result cannot be written. */
  lemma FailureLeaves(x: Session, st: Step, w: Writes)
    requires Covered(x) && x.started && SaneEnv(st.env) && Callable(x.engine, st) && Exec(x.engine, st).next.phase.End?
    requires !w.result
    ensures
      var o := Exec(x.engine, st);
      && SessionStep(x, st, w)
         == Session(o.next, true, if w.snapshot then x.store.(active := Some(o.reply)) else x.store, [PersistFailed])
      && o.reply == if st.Submit? then o.next else x.engine.(pendingEnd := None, lastTickAt := st.now)
  {
    hide Select, HasTrigger, People, Records, ProperIds, Earned, Agrees;
    match st {
      case Submit(a, env) =>
        ForcedOnly(x.engine, a, env);
        TriggerAt(Exec(x.engine, st).events, 0);
      case Clock(now, env) =>
        FiredOnly(x.engine, now, env);
        TriggerAt(Exec(x.engine, st).events, 0);
    }
  }

  /** A reboot of an over session: from its final state if the shutdown saved it, else from the store. */
  lemma RebootOfOver(y: Session, h: Happening)
    requires Over(y) && y.store.active.Some? && !y.store.active.value.phase.NoPhase? && !h.Call?
    ensures
      var saved := h.Restart? && h.writes.snapshot;
      var s := if saved then y.engine else y.store.active.value;
      var z := Met(y, h);
      if s.phase.End? then !z.started && HasFiled(z.store, s)
      else z.engine == s && z.started == IsActivePhase(s.phase)
  {
    hide Inv;
  }

  lemma SameResult(s: State, last: Time, store: Store)
    ensures HasFiled(store, s.(lastTickAt := last)) <==> HasFiled(store, s)
  {
  }

  /** Whether a reboot comes after a shutdown that saved the final state. */
  predicate Saves(h: Happening) { h.Restart? && h.writes.snapshot }

  /**
   When the result write of an ending fails, later calls change nothing, and the next
   reboot files the right result if and only if the shutdown saved the final state, or the
   host ended the game and the snapshot of that was written. The snapshot of a fired verdict
   is the copy taken before the move to END: from it a crash resumes the game without its
   verdict. If the snapshot was not written either, a crash resumes the game as it was
   covered before, a pending verdict included.
   */
  lemma FailedResultWrite(x: Session, st: Step, w: Writes, calls: seq<Happening>, h: Happening)
    requires Covered(x) && x.started && SaneEnv(st.env) && Callable(x.engine, st) && Exec(x.engine, st).next.phase.End?
    requires !w.result && !h.Call? && forall i :: 0 <= i < |calls| ==> calls[i].Call?
    ensures Over(SessionStep(x, st, w))
    ensures
      var z := Met(Idled(SessionStep(x, st, w), calls), h);
      && (!z.started && HasFiled(z.store, Exec(x.engine, st).next) <==> Saves(h) || (w.snapshot && st.Submit?))
      && (!Saves(h) && w.snapshot && st.Clock? ==>
            z.started && z.engine == x.engine.(pendingEnd := None, lastTickAt := st.now))
      && (!Saves(h) && !w.snapshot ==> z.started && Agrees(z.engine, x.engine))
  {
    hide Inv, Exec, Agrees, Earned, SessionStep, HasFiled, Met;
    var o := Exec(x.engine, st);
    FailureLeaves(x, st, w);
    StepKeeps(x.engine, st);
    InvIndexable(x.engine);
    InvIndexable(x.store.active.value);
    AgreesOnPhase(x.store.active.value, x.engine);
    var y := Idled(SessionStep(x, st, w), calls);
    RebootOfOver(y, h);
    SameResult(o.next, y.engine.lastTickAt, Met(y, h).store);
  }

  lemma ForcedOnly(s: State, a: Action, env: Env)
    requires Inv(s) && !s.phase.End? && Apply(s, a, env).next.phase.End?
    ensures a.ForceEndGame? && a.host == s.hostId
  {
    hide People, Records, ProperIds, Pause, Resume, Tally, Bury, RoleError, LifeErrors, RoleOf;
    if !a.ForceEndGame? {
      if a.EndNightEarly? {
        ResolutionKeepsPending(s, env);
      } else {
        ActionIsPlain(s, a, env);
      }
    }
  }

  lemma FiredOnly(s: State, now: Time, env: Env)
    requires Inv(s) && SaneEnv(env) && !s.phase.End? && Tick(s, now, env).next.phase.End?
    ensures !s.paused && s.lastTickAt < now && s.pendingEnd.Some? && s.pendingEnd.value.deadline <= now
  {
    hide Inv, Tick;
    if s.pendingEnd.Some? {
      PendingEndFires(s, now, env);
    } else if !s.paused && s.lastTickAt < now {
      TickStaysOpen(s, now, env);
    } else {
      InvIndexable(s);
      IdleTick(s, now, env);
    }
  }

  lemma IdleTick(s: State, now: Time, env: Env)
    requires Indexable(s) && (s.paused || now <= s.lastTickAt)
    ensures Tick(s, now, env) == Done(s, [])
  {
  }

  // ---------------------------------------------------------------- a decided game, whatever fails

  /** An end by the host's order or with the win of the citizens. */
  predicate RightEnd(reason: EndReason, winner: Option<Team>) {
    reason.HostForceEnd? || (reason.CitizenWin? && winner == Some(CitizenTeam))
  }

  /**
   No mafia lives in this game, and no end other than the citizens' win or the host's order
   is pending or recorded. This needs none of the rest of the invariant, which a game that
   lost its verdict does not satisfy: it goes on although a side has won.
   */
  predicate CitizensHold(game: string, s: State) {
    && s.gameId == game && LiveMafia(s.players) == 0
    && Indexable(s) && !s.phase.Lobby? && !s.phase.NoPhase?
    && (s.pendingEnd.Some? ==>
          s.pendingEnd.value.reason == CitizenWin && s.pendingEnd.value.winner == Some(CitizenTeam))
    && (s.phase.End? ==> s.endReason.Some? && RightEnd(s.endReason.value, s.winner))
  }

  /** A step that moves neither people, verdict nor result, and enters neither INTRO nor END. */
  lemma HoldsOn(game: string, s: State, t: State)
    requires CitizensHold(game, s) && t.players == s.players && t.gameId == s.gameId
    requires t.pendingEnd == s.pendingEnd && t.endReason == s.endReason && t.winner == s.winner
    requires (t.phase == s.phase && t.speakerIdx >= s.speakerIdx)
          || t.phase.Day? || t.phase.Vote? || t.phase.Recount? || t.phase.Night?
    ensures CitizensHold(game, t)
  {
  }

  lemma BurialHolds(game: string, s: State, id: PlayerId, pick: Option<nat>)
    requires CitizensHold(game, s)
    ensures CitizensHold(game, Bury(s, id, pick).state)
  {
    hide Drawn, Kill, MafiaIds, LiveMafia, SamePeople, AtMostOneDeath, IsAlive;
    KillFacts(s.players, id);
    FewerMafia(s.players, Kill(s.players, id));
  }

  lemma ScheduleHolds(game: string, s: State, now: Time)
    requires CitizensHold(game, s)
    ensures CitizensHold(game, ScheduleEnd(s, now)) && ScheduleEnd(s, now).phase == s.phase
  {
  }

  lemma MorningHolds(game: string, s: State, env: Env)
    requires CitizensHold(game, s) && !s.phase.End?
    ensures CitizensHold(game, ResolveNight(s, env).next) && !ResolveNight(s, env).next.phase.End?
  {
    hide CitizensHold, Bury, ScheduleEnd;
    var v := Victim(s);
    if v.None? || Has(s.players, v.value) {
      if v.Some? {
        BurialHolds(game, s, v.value, env.pick);
      }
      var b := if v.Some? then Bury(s, v.value, env.pick).state else s;
      var deadline := env.now + Seconds(DAY_INTRO_SECONDS + s.settings.discussionSeconds);
      var m := ClearNight(b).(day := s.day + 1, phase := Day, deadline := deadline, lastTickAt := env.now);
      HoldsOn(game, b, m);
      ScheduleHolds(game, m, env.later);
    }
  }

  lemma {:induction false} NightTickHolds(game: string, s: State, now: Time, env: Env)
    requires CitizensHold(game, s) && !s.phase.End? && s.phase.Night?
    ensures CitizensHold(game, TickNight(s, now, env).next)
    decreases StepsLeft(s.nightStep)
  {
    hide CitizensHold, ResolveNight;
    if !(s.nightStep.NoStep? || s.stepDeadline == ZERO_TIME || now < s.stepDeadline) {
      if NextStep(s.nightStep).StepResolved? {
        var s0 := s.(nightStep := NoStep, stepDeadline := ZERO_TIME);
        HoldsOn(game, s, s0);
        MorningHolds(game, s0, env);
      } else {
        var c := BeginStep(s, NextStep(s.nightStep), s.stepDeadline).state;
        HoldsOn(game, s, c);
        NightTickHolds(game, c, now, env);
      }
    }
  }

  lemma EliminationHolds(game: string, s: State, id: PlayerId, env: Env)
    requires CitizensHold(game, s)
    ensures CitizensHold(game, Eliminate(s, id, env).state)
  {
    hide CitizensHold, Bury, ScheduleEnd, EvaluateEnd;
    if Has(s.players, id) {
      BurialHolds(game, s, id, env.pick);
      var b := Bury(s, id, env.pick).state;
      ScheduleHolds(game, b, env.now);
      HoldsOn(game, b, EnterNight(b, env.now).state);
    }
  }

  lemma BallotHolds(game: string, s: State, sender: PlayerId, target: PlayerId, env: Env)
    requires CitizensHold(game, s)
    ensures CitizensHold(game, CastVote(s, sender, target, env).next)
  {
    hide CitizensHold, Eliminate, BallotError, Live, Ballots.Top, Ballots.Counts;
    var s1 := s.(votes := s.votes[sender := target]);
    HoldsOn(game, s, s1);
    var top := Ballots.Top(s1.players, Ballots.Counts(s1.votes));
    if |top| == 1 {
      EliminationHolds(game, s1, top[0], env);
    }
    HoldsOn(game, s1, s1.(phase := Recount, voteRound := 2, candidates := top, votes := map[]));
    HoldsOn(game, s1, EnterNight(s1, env.now).state);
  }

  lemma HostActionHolds(game: string, s: State, host: PlayerId, on: bool, env: Env)
    requires CitizensHold(game, s) && !s.phase.End?
    ensures CitizensHold(game, Pause(s, host, env).next) && CitizensHold(game, Resume(s, host, env).next)
    ensures CitizensHold(game, Voice(s, host, on).next) && CitizensHold(game, ForceEnd(s, host).next)
  {
    hide LiveMafia;
  }

  lemma IntroActionHolds(game: string, s: State, id: PlayerId, env: Env)
    requires CitizensHold(game, s)
    ensures CitizensHold(game, Advance(s, id, env).next) && CitizensHold(game, FinishSelf(s, id, env).next)
  {
    hide LiveMafia, NextSpeaker;
    if s.phase.Intro? {
      SpeakerHolds(game, s, env.now);
    }
  }

  lemma SpeakerHolds(game: string, s: State, now: Time)
    requires CitizensHold(game, s) && s.phase.Intro?
    ensures CitizensHold(game, NextSpeaker(s, now).next)
  {
    hide CitizensHold;
    assert Indexable(s) by { HoldsIndexable(game, s); }
    HoldsOn(game, s, NextSpeaker(s, now).next);
  }

  lemma HoldsIndexable(game: string, s: State)
    requires CitizensHold(game, s)
    ensures Indexable(s) && !s.phase.Lobby? && s.gameId == game
  {
  }

  lemma DiscussionHolds(game: string, s: State, host: PlayerId, env: Env)
    requires CitizensHold(game, s)
    ensures CitizensHold(game, EndDiscussionRule(s, host, env).next)
  {
    hide CitizensHold;
    HoldsOn(game, s, DayToVote(s, env.now).state);
  }

  lemma SubmissionHolds(game: string, s: State, sender: PlayerId, target: PlayerId)
    requires CitizensHold(game, s)
    ensures CitizensHold(game, SubmitKillRule(s, sender, target).next)
    ensures CitizensHold(game, SubmitHealRule(s, sender, target).next)
    ensures CitizensHold(game, SubmitCheckRule(s, sender, target).next)
  {
    hide LiveMafia, RoleError, LifeErrors, RoleOf;
  }

  lemma ActionHolds(game: string, s: State, a: Action, env: Env)
    requires CitizensHold(game, s)
    ensures Acceptable(s, a) && CitizensHold(game, Apply(s, a, env).next)
  {
    hide CitizensHold, CastVote, SubmitKillRule, SubmitHealRule, SubmitCheckRule, Advance, FinishSelf;
    hide EndDiscussionRule;
    hide Pause, Resume, Voice, ForceEnd, ResolveNight, StartFromLobby;
    HoldsIndexable(game, s);
    if s.phase.End? {
      return;
    }
    match a {
      case StartGame(host, o) => NoSecondStart(s, host, o, env);
      case AdvanceIntro(host) => IntroActionHolds(game, s, host, env);
      case EndSelfIntro(sender) => IntroActionHolds(game, s, sender, env);
      case SubmitKill(sender, target) => SubmissionHolds(game, s, sender, target);
      case SubmitHeal(sender, target) => SubmissionHolds(game, s, sender, target);
      case SubmitCheck(sender, target) => SubmissionHolds(game, s, sender, target);
      case EndNightEarly(_) => MorningHolds(game, s, env);
      case EndDiscussionEarly(host) => DiscussionHolds(game, s, host, env);
      case SubmitVote(sender, target) => BallotHolds(game, s, sender, target, env);
      case ToggleVoice(host, on) => HostActionHolds(game, s, host, on, env);
      case ForceEndGame(host) => HostActionHolds(game, s, host, false, env);
      case PauseGame(host) => HostActionHolds(game, s, host, false, env);
      case ResumeGame(host) => HostActionHolds(game, s, host, false, env);
    }
  }

  lemma QuietTickHolds(game: string, s: State, now: Time, prev: Time)
    requires CitizensHold(game, s) && !s.phase.End?
    ensures CitizensHold(game, TickDay(s, now, prev).next)
    ensures s.phase.Intro? ==> CitizensHold(game, TickIntro(s, now).next)
  {
    hide LiveMafia, Crossed, SpeakerEvents, Turns;
  }

  lemma TickHolds(game: string, s: State, now: Time, env: Env)
    requires CitizensHold(game, s)
    ensures Tickable(s, now) && CitizensHold(game, Tick(s, now, env).next)
  {
    hide LiveMafia, TickDay, TickIntro, TickNight;
    var s1 := s.(lastTickAt := now);
    HoldsOn(game, s, s1);
    if s.phase.Night? {
      NightTickHolds(game, s1, now, env);
    } else if !s.phase.End? {
      QuietTickHolds(game, s1, now, s.lastTickAt);
    }
  }

  // ---------------------------------------------------------------- replies and announcements

  ghost predicate OnlyRightEnds(es: seq<Envelope>) {
    forall i :: 0 <= i < |es| && es[i].event.GameEnded? ==> RightEnd(es[i].event.reason, es[i].event.outcome)
  }

  /** What a call hands to the session is as good as what it leaves in the engine. */
  ghost predicate Upheld(game: string, o: Outcome) {
    CitizensHold(game, o.next) && CitizensHold(game, o.reply) && OnlyRightEnds(o.events)
  }

  lemma ResolutionIsEndless(s: State, env: Env)
    ensures ResolveNight(s, env).reply == ResolveNight(s, env).next
    ensures Silent(ResolveNight(s, env).events, IsGameEnded)
  {
    hide Bury, ScheduleEnd, Has;
    if Victim(s).Some? {
      BurialIsPlain(s, Victim(s).value, env.pick);
    }
  }

  lemma {:induction false} NightTickIsEndless(s: State, now: Time, env: Env)
    ensures TickNight(s, now, env).reply == TickNight(s, now, env).next
    ensures Silent(TickNight(s, now, env).events, IsGameEnded)
    decreases StepsLeft(s.nightStep)
  {
    hide ResolveNight;
    if !(s.nightStep.NoStep? || s.stepDeadline == ZERO_TIME || now < s.stepDeadline) {
      if NextStep(s.nightStep).StepResolved? {
        ResolutionIsEndless(s.(nightStep := NoStep, stepDeadline := ZERO_TIME), env);
      } else {
        NightTickIsEndless(BeginStep(s, NextStep(s.nightStep), s.stepDeadline).state, now, env);
      }
    }
  }

  lemma DayTickIsEndless(s: State, now: Time, prev: Time)
    ensures TickDay(s, now, prev).reply == TickDay(s, now, prev).next
    ensures Silent(TickDay(s, now, prev).events, IsGameEnded)
  {
    hide Crossed;
    CrossedPlain(THRESHOLDS, s.deadline, prev, now);
  }

  lemma IntroTickIsEndless(s: State, now: Time)
    requires -1 <= s.speakerIdx
    ensures TickIntro(s, now).reply == TickIntro(s, now).next && Silent(TickIntro(s, now).events, IsGameEnded)
  {
    hide SpeakerEvents, Turns;
    var per := Seconds(s.settings.introSeconds);
    var k := Turns(s.speakerIdx, s.speakerStartedAt, per, now, |s.players|);
    TurnsBound(s.speakerIdx, s.speakerStartedAt, per, now, |s.players|);
    SpeakerEventsPlain(s.players, s.speakerIdx, k, s.settings.introSeconds);
  }

  lemma FiringUpheld(game: string, s: State, now: Time)
    requires CitizensHold(game, s) && s.pendingEnd.Some?
    ensures Upheld(game, FirePendingEnd(s, now))
  {
    hide LiveMafia;
  }

  lemma TickUpheld(game: string, s: State, now: Time, env: Env)
    requires CitizensHold(game, s)
    ensures Tickable(s, now) && Upheld(game, Tick(s, now, env))
  {
    hide CitizensHold, TickDay, TickIntro, TickNight, FirePendingEnd;
    HoldsIndexable(game, s);
    TickHolds(game, s, now, env);
    var s1 := s.(lastTickAt := now);
    if s.pendingEnd.Some? {
      FiringUpheld(game, s, now);
    }
    match s.phase {
      case Intro => IntroTickIsEndless(s1, now);
      case Day => DayTickIsEndless(s1, now, s.lastTickAt);
      case Night => NightTickIsEndless(s1, now, env);
      case _ =>
    }
  }

  lemma ForceEndUpheld(game: string, s: State, host: PlayerId)
    requires CitizensHold(game, s)
    ensures Upheld(game, ForceEnd(s, host))
  {
    hide LiveMafia;
  }

  lemma NightEndUpheld(game: string, s: State, host: PlayerId, env: Env)
    requires CitizensHold(game, s) && !s.phase.End?
    ensures Upheld(game, EndNightRule(s, host, env))
  {
    hide CitizensHold, ResolveNight;
    MorningHolds(game, s, env);
    ResolutionIsEndless(s, env);
  }

  lemma ActionUpheld(game: string, s: State, a: Action, env: Env)
    requires CitizensHold(game, s)
    ensures Acceptable(s, a) && Upheld(game, Apply(s, a, env))
  {
    hide CitizensHold, CastVote, SubmitKillRule, SubmitHealRule, SubmitCheckRule, Advance, FinishSelf;
    hide EndDiscussionRule;
    hide Pause, Resume, Voice, ForceEnd, EndNightRule, StartFromLobby;
    HoldsIndexable(game, s);
    ActionHolds(game, s, a, env);
    if !s.phase.End? {
      if a.ForceEndGame? {
        ForceEndUpheld(game, s, a.host);
      } else if a.EndNightEarly? {
        NightEndUpheld(game, s, a.host, env);
      } else {
        ActionReply(s, a, env);
        ActionIsPlain(s, a, env);
      }
    }
  }

  lemma StepUpheld(game: string, s: State, st: Step)
    requires CitizensHold(game, s)
    ensures Callable(s, st) && Upheld(game, Exec(s, st))
  {
    hide CitizensHold, Apply, Tick, Acceptable, Tickable, Upheld;
    match st {
      case Submit(a, env) => ActionUpheld(game, s, a, env);
      case Clock(now, env) => TickUpheld(game, s, now, env);
    }
  }

  // ---------------------------------------------------------------- the life of a decided game

  /** The citizens hold the game in the engine and in the store, or its result is filed as theirs or the host's. */
  ghost predicate Guarded(game: string, x: Session) {
    if x.started then
      CitizensHold(game, x.engine) && x.store.active.Some? && CitizensHold(game, x.store.active.value)
    else
      && x.store.active.None? && game in x.store.results
      && RightEnd(x.store.results[game].reason, x.store.results[game].winner)
  }

  lemma CallGuarded(game: string, x: Session, st: Step, w: Writes)
    requires Guarded(game, x)
    ensures x.started ==> Callable(x.engine, st)
    ensures Guarded(game, SessionStep(x, st, w))
  {
    hide CitizensHold, Exec, HasTrigger, RightEnd, Callable;
    if x.started {
      StepUpheld(game, x.engine, st);
      HoldsIndexable(game, Exec(x.engine, st).next);
    }
  }

  lemma RestoredGuarded(game: string, store: Store)
    requires store.active.Some? && CitizensHold(game, store.active.value)
    ensures Guarded(game, Rebooted(store, CLEAN_BOOT))
  {
    hide LiveMafia;
  }

  lemma RebootGuarded(game: string, x: Session, h: Happening)
    requires Guarded(game, x) && !h.Call?
    ensures Guarded(game, Met(x, h))
  {
    hide CitizensHold, RightEnd;
    if x.started {
      RestoredGuarded(game, x.store);
      RestoredGuarded(game, x.store.(active := Some(x.engine)));
    }
  }

  /** A guarded session after any happenings, with any writes failing. */
  ghost function Endured(game: string, x: Session, hs: seq<Happening>): (y: Session)
    requires Guarded(game, x)
    ensures Guarded(game, y)
  {
    if hs == [] then x
    else
      var before, h := Endured(game, x, hs[..|hs| - 1]), hs[|hs| - 1];
      if h.Call? then
        CallGuarded(game, before, h.step, h.writes);
        Met(before, h)
      else
        RebootGuarded(game, before, h);
        Met(before, h)
  }

  /**
   A citizens' win survives everything. From the moment it is pending, through any calls,
   crashes, restarts and failing writes, a verdict lost on the way included, the game can
   end only with the citizens' win or by the host's order, and is filed as nothing else.
   */
  lemma CitizensWinAnyway(x: Session, hs: seq<Happening>)
    requires Covered(x) && x.started
    requires x.engine.pendingEnd.Some? && x.engine.pendingEnd.value.winner == Some(CitizenTeam)
    ensures Guarded(x.engine.gameId, x)
    ensures
      var game := x.engine.gameId;
      var y := Endured(game, x, hs);
      if y.started then
        y.engine.phase.End? ==> y.engine.endReason.Some? && RightEnd(y.engine.endReason.value, y.engine.winner)
      else game in y.store.results && RightEnd(y.store.results[game].reason, y.store.results[game].winner)
  {
    hide Endured;
    PendingIsGuarded(x);
  }

  lemma PendingHolds(s: State)
    requires Inv(s) && Earned(s) && !s.phase.End? && s.pendingEnd.Some?
    requires s.pendingEnd.value.winner == Some(CitizenTeam)
    ensures CitizensHold(s.gameId, s)
  {
    hide ProperIds, People, Records, LiveMafia;
  }

  lemma PendingIsGuarded(x: Session)
    requires Covered(x) && x.started
    requires x.engine.pendingEnd.Some? && x.engine.pendingEnd.value.winner == Some(CitizenTeam)
    ensures Guarded(x.engine.gameId, x)
  {
    hide Inv, CitizensHold, Earned;
    AgreesOnPhase(x.store.active.value, x.engine);
    PendingHolds(x.engine);
    PendingHolds(x.store.active.value);
  }
}
