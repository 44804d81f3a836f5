/**
 How games end: the first verdict wins, a pending end is never lost, and only pauses
 delay it.
 */
module Endings {
  import opened GameTypes
  import opened Roster
  import Ballots
  import opened Rules
  import opened Invariants
  import opened Runs

  /** Nothing is decided: the game is on, no end is pending and neither side has won. */
  predicate Open(s: State) { !s.phase.End? && s.pendingEnd.None? && EvaluateEnd(s).None? }

  /** Every state of the run, the first and the last included, is open. */
  ghost predicate OpenThroughout(s: State, steps: seq<Step>)
    requires Inv(s) && Sane(steps)
  {
    Open(After(s, steps)) && (steps != [] ==> OpenThroughout(s, steps[..|steps| - 1]))
  }

  /**
   Up to step `j` nothing was decided, and after the next step the count of the living
   met a win condition for the first time, with this reason and winner.
   */
  ghost predicate FirstWon(s: State, steps: seq<Step>, j: nat, reason: EndReason, winner: Option<Team>)
    requires Inv(s) && Sane(steps)
  {
    && j < |steps|
    && OpenThroughout(s, steps[..j])
    && winner.Some?
    && EvaluateEnd(After(s, steps[..j + 1])) == Some(Verdict(reason, winner.value))
  }

  lemma FirstWonExtends(s: State, steps: seq<Step>, st: Step, j: nat, reason: EndReason, winner: Option<Team>)
    requires Inv(s) && Sane(steps) && Sane(steps + [st]) && FirstWon(s, steps, j, reason, winner)
    ensures FirstWon(s, steps + [st], j, reason, winner)
  {
    hide Inv, Open, EvaluateEnd, After;
    assert (steps + [st])[..j] == steps[..j] && (steps + [st])[..j + 1] == steps[..j + 1];
  }

  lemma FirstWonNow(s: State, steps: seq<Step>, st: Step, reason: EndReason, winner: Team)
    requires Inv(s) && Sane(steps) && Sane(steps + [st]) && OpenThroughout(s, steps)
    requires EvaluateEnd(After(s, steps + [st])) == Some(Verdict(reason, winner))
    ensures FirstWon(s, steps + [st], |steps|, reason, Some(winner))
  {
    hide Inv, Open, EvaluateEnd, After;
    var more := steps + [st];
    assert more[..|steps|] == steps && more[..|steps| + 1] == more;
  }

  /** Where the pending or announced verdict of a run comes from. */
  ghost predicate Origin(s: State, steps: seq<Step>, j: nat)
    requires Inv(s) && Sane(steps)
  {
    var t := After(s, steps);
    if t.pendingEnd.Some? then FirstWon(s, steps, j, t.pendingEnd.value.reason, t.pendingEnd.value.winner)
    else if t.phase.End? then t.endReason == Some(HostForceEnd) || FirstWon(s, steps, j, t.endReason.value, t.winner)
    else OpenThroughout(s, steps)
  }

  /** How one call may move the verdict: it appears as counted, stays, and ends the game. */
  lemma VerdictMoves(m: State, t: State)
    requires Inv(m) && Inv(t) && Follows(m, t)
    ensures m.pendingEnd.Some? ==> !m.phase.End?
    ensures t.pendingEnd.Some? ==> !t.phase.End? && t.pendingEnd.value.winner.Some?
    ensures m.pendingEnd.Some? && !t.phase.End? ==>
      && t.pendingEnd.Some?
      && t.pendingEnd.value.reason == m.pendingEnd.value.reason
      && t.pendingEnd.value.winner == m.pendingEnd.value.winner
    ensures m.pendingEnd.None? && t.pendingEnd.Some? ==>
      EvaluateEnd(t) == Some(Verdict(t.pendingEnd.value.reason, t.pendingEnd.value.winner.value))
    ensures t.phase.End? ==> t.endReason.Some? && t.pendingEnd.None?
    ensures m.phase.End? ==> m.endReason.Some? && t.phase.End? && t.endReason == m.endReason && t.winner == m.winner
    ensures !m.phase.End? && t.phase.End? && t.endReason != Some(HostForceEnd) ==>
      m.pendingEnd.Some? && t.endReason == Some(m.pendingEnd.value.reason) && t.winner == m.pendingEnd.value.winner
    ensures !t.phase.End? && t.pendingEnd.None? ==> EvaluateEnd(t).None?
  {
    hide ProperIds, Records, SamePeople, AtMostOneDeath, RightRepresentative, LiveTargets, OpenBallot;
    UndecidedIsBalanced(t);
  }

  /** One more step carries the origin of the verdict along. */
  lemma OriginStep(s: State, front: seq<Step>, st: Step, j: nat) returns (j': nat)
    requires Inv(s) && Sane(front) && Sane(front + [st]) && Origin(s, front, j)
    requires After(s, front + [st]) == Exec(After(s, front), st).next
    ensures Origin(s, front + [st], j')
  {
    hide Inv, Follows, Exec, EvaluateEnd, FirstWon;
    var m, t := After(s, front), After(s, front + [st]);
    assert SaneEnv((front + [st])[|front|].env);
    InvIndexable(m);
    StepKeeps(m, st);
    VerdictMoves(m, t);
    j' := j;
    if m.pendingEnd.Some? {
      FirstWonExtends(s, front, st, j, m.pendingEnd.value.reason, m.pendingEnd.value.winner);
    } else if m.phase.End? {
      if m.endReason != Some(HostForceEnd) {
        FirstWonExtends(s, front, st, j, m.endReason.value, m.winner);
      }
    } else if t.pendingEnd.Some? {
      FirstWonNow(s, front, st, t.pendingEnd.value.reason, t.pendingEnd.value.winner.value);
      j' := |front|;
    } else if !t.phase.End? {
      assert (front + [st])[..|front|] == front;
    }
  }

  lemma {:induction false} OriginOf(s: State, steps: seq<Step>) returns (j: nat)
    requires Inv(s) && Sane(steps) && Open(s)
    ensures Origin(s, steps, j)
  {
    if steps == [] {
      j := 0;
    } else {
      var front, st := steps[..|steps| - 1], steps[|steps| - 1];
      assert front + [st] == steps;
      j := OriginOf(s, front);
      j := OriginStep(s, front, st, j);
    }
  }

  /**
   First verdict wins. However long the result buffer lasts and whatever happens in it,
   a game that ends without the host's order ends with the reason and winner that the
   count of the living gave at the first step where a win condition held: the citizens'
   when no mafia was left, the mafia's when they were no fewer than the rest.
   */
  lemma FirstVerdictWins(s: State, steps: seq<Step>) returns (j: nat)
    requires Inv(s) && Sane(steps) && Open(s)
    requires After(s, steps).phase.End? && After(s, steps).endReason != Some(HostForceEnd)
    ensures FirstWon(s, steps, j, After(s, steps).endReason.value, After(s, steps).winner)
    ensures Select(Trace(s, steps), IsGameEnded)
         == [GameEnded(After(s, steps).winner, After(s, steps).endReason.value, After(s, steps).players)]
    ensures
      var ps, t := After(s, steps[..j + 1]).players, After(s, steps);
      if MafiaSeats(ps) == {} then t.winner == Some(CitizenTeam) && t.endReason == Some(CitizenWin)
      else t.winner == Some(MafiaTeam) && t.endReason == Some(MafiaWin) && |MafiaSeats(ps)| >= |CitizenSeats(ps)|
  {
    hide Inv;
    j := OriginOf(s, steps);
    GameEndsOnce(s, steps);
    VerdictByCount(After(s, steps[..j + 1]));
    EndHasReason(After(s, steps));
  }

  lemma EndHasReason(s: State)
    requires Inv(s) && s.phase.End?
    ensures s.endReason.Some? && s.pendingEnd.None?
  {
  }

  /** What the verdict says in seats. */
  lemma VerdictByCount(s: State)
    ensures EvaluateEnd(s).Some? ==>
      if MafiaSeats(s.players) == {} then EvaluateEnd(s).value == Verdict(CitizenWin, CitizenTeam)
      else EvaluateEnd(s).value == Verdict(MafiaWin, MafiaTeam) && |MafiaSeats(s.players)| >= |CitizenSeats(s.players)|
    ensures !s.phase.End? && EvaluateEnd(s).None? ==> 0 < |MafiaSeats(s.players)| < |CitizenSeats(s.players)|
  {
    CountsAreSizes(s.players);
    if MafiaSeats(s.players) != {} {
      var i :| i in MafiaSeats(s.players);
      assert |MafiaSeats(s.players)| > 0;
    }
  }

  // ---------------------------------------------------------------- a verdict is deferred

  lemma VoteDefers(s: State, sender: PlayerId, target: PlayerId, env: Env)
    requires s.pendingEnd.None? && !s.phase.End?
    ensures
      var t := CastVote(s, sender, target, env).next;
      t.pendingEnd.Some? ==> t.phase == s.phase && t.pendingEnd.value.deadline == env.now + Seconds(5)
  {
    hide Ballots.Top, Ballots.Counts, Live, BallotError, Eliminate;
    var s1 := s.(votes := s.votes[sender := target]);
    var top := Ballots.Top(s1.players, Ballots.Counts(s1.votes));
    if |top| == 1 {
      EliminationDefers(s1, top[0], env);
    }
  }

  lemma EliminationDefers(s: State, id: PlayerId, env: Env)
    requires s.pendingEnd.None? && !s.phase.End?
    ensures
      var t := Eliminate(s, id, env).state;
      t.pendingEnd.Some? ==> t.phase == s.phase && t.pendingEnd.value.deadline == env.now + Seconds(5)
  {
    hide EvaluateEnd, Bury, RoleOf, Has;
    BuryKeepsEnd(s, id, env.pick);
  }

  lemma BuryKeepsEnd(s: State, id: PlayerId, pick: Option<nat>)
    ensures Bury(s, id, pick).state.pendingEnd == s.pendingEnd && Bury(s, id, pick).state.phase == s.phase
  {
  }

  lemma ResolutionDefers(s: State, env: Env)
    requires s.pendingEnd.None? && !s.phase.End?
    ensures
      var t := ResolveNight(s, env).next;
      t.pendingEnd.Some? ==> t.phase.Day? && t.pendingEnd.value.deadline == env.later + Seconds(5)
  {
    hide Bury, EvaluateEnd, Has;
    if Victim(s).Some? {
      BuryKeepsEnd(s, Victim(s).value, env.pick);
    }
  }

  /**
   A verdict is never announced at once. The step that reaches it leaves the result on
   screen, in the voting phase or on the new day, and sets the end five seconds ahead.
   */
  lemma VerdictIsDeferred(s: State, st: Step)
    requires Inv(s) && SaneEnv(st.env) && s.pendingEnd.None? && Exec(s, st).next.pendingEnd.Some?
    ensures
      var t := Exec(s, st).next;
      if s.phase.Night? then t.phase.Day? && t.pendingEnd.value.deadline == st.env.later + Seconds(5)
      else
        && (s.phase.Vote? || s.phase.Recount?) && t.phase == s.phase
        && t.pendingEnd.value.deadline == st.env.now + Seconds(5)
    ensures Select(Exec(s, st).events, IsGameEnded) == []
  {
    hide Inv, Apply, Tick, Select;
    InvIndexable(s);
    StepAnnounces(s, st);
    StepKeeps(s, st);
    match st {
      case Submit(a, env) => ActionDefers(s, a, env);
      case Clock(now, env) => TickDefers(s, now, env);
    }
    PendingMeansOpen(Exec(s, st).next);
  }

  lemma ActionDefers(s: State, a: Action, env: Env)
    requires Indexable(s) && !s.phase.Lobby? && s.pendingEnd.None? && Apply(s, a, env).next.pendingEnd.Some?
    ensures
      var t := Apply(s, a, env).next;
      if s.phase.Night? then t.phase.Day? && t.pendingEnd.value.deadline == env.later + Seconds(5)
      else
        && (s.phase.Vote? || s.phase.Recount?) && t.phase == s.phase
        && t.pendingEnd.value.deadline == env.now + Seconds(5)
  {
    hide CastVote, ResolveNight, SubmitKillRule, SubmitHealRule, SubmitCheckRule, Advance, FinishSelf;
    match a {
      case SubmitVote(x, y) =>
        VotingOnly(s, x, y, env);
        if !s.phase.End? {
          VoteDefers(s, x, y, env);
        }
      case EndNightEarly(_) =>
        if !s.phase.End? {
          ResolutionDefers(s, env);
        }
      case SubmitKill(x, y) => PlayerActionPending(s, x, y, env);
      case SubmitHeal(x, y) => PlayerActionPending(s, x, y, env);
      case SubmitCheck(x, y) => PlayerActionPending(s, x, y, env);
      case AdvanceIntro(x) => PlayerActionPending(s, x, NOBODY, env);
      case EndSelfIntro(x) => PlayerActionPending(s, x, NOBODY, env);
      case _ =>
    }
  }

  lemma VotingOnly(s: State, sender: PlayerId, target: PlayerId, env: Env)
    ensures !s.phase.Vote? && !s.phase.Recount? ==> CastVote(s, sender, target, env).next == s
  {
  }

  lemma TickDefers(s: State, now: Time, env: Env)
    requires Inv(s) && SaneEnv(env) && s.pendingEnd.None? && Tick(s, now, env).next.pendingEnd.Some?
    ensures s.phase.Night?
    ensures
      var t := Tick(s, now, env).next;
      t.phase.Day? && t.pendingEnd.value.deadline == env.later + Seconds(5)
  {
    hide ProperIds, People, Records, ResolveNight, TickNight, Turns, SpeakerEvents, Crossed;
    if s.phase.Night? && !s.paused && s.lastTickAt < now {
      ActiveTick(s, now);
      var s1 := s.(lastTickAt := now);
      var pre, step, deadline := NightTickForm(s1, now, env);
      ResolutionDefers(s1.(nightStep := NoStep, stepDeadline := ZERO_TIME), env);
    }
  }

  // ---------------------------------------------------------------- a pending end is never lost

  /** The first unpaused tick at or past the deadline ends the game, from any phase, with the pending verdict. */
  lemma PendingEndFires(s: State, now: Time, env: Env)
    requires Inv(s) && s.pendingEnd.Some? && SaneEnv(env)
    ensures
      var t := Tick(s, now, env).next;
      t.phase.End? <==> !s.paused && s.lastTickAt < now && s.pendingEnd.value.deadline <= now
    ensures
      var t := Tick(s, now, env).next;
      t.phase.End? ==> t.endReason == Some(s.pendingEnd.value.reason) && t.winner == s.pendingEnd.value.winner
  {
    if !s.paused && s.lastTickAt < now && now < s.pendingEnd.value.deadline {
      ProcessedTickKeeps(s, now, env);
      TickStaysOpen(s, now, env);
    }
  }

  lemma TickStaysOpen(s: State, now: Time, env: Env)
    requires Inv(s) && SaneEnv(env) && !s.paused && s.lastTickAt < now
    requires s.pendingEnd.None? || now < s.pendingEnd.value.deadline
    requires !s.phase.End?
    ensures !Tick(s, now, env).next.phase.End?
    ensures s.pendingEnd.Some? ==> Tick(s, now, env).next.pendingEnd == s.pendingEnd
  {
    hide ProperIds, People, Records, ResolveNight, TickNight, Turns, SpeakerEvents, Crossed;
    if s.phase.Night? {
      var s1 := s.(lastTickAt := now);
      ActiveTick(s, now);
      var pre, step, deadline := NightTickForm(s1, now, env);
      ResolutionKeepsPending(s1.(nightStep := NoStep, stepDeadline := ZERO_TIME), env);
      TickNightKeeps(s1, now, env);
    }
  }

  lemma ResolutionKeepsPending(s: State, env: Env)
    requires !s.phase.End?
    ensures s.pendingEnd.Some? ==> ResolveNight(s, env).next.pendingEnd == s.pendingEnd
    ensures !ResolveNight(s, env).next.phase.End?
  {
    hide Bury, EvaluateEnd, Has;
    if Victim(s).Some? {
      BuryKeepsEnd(s, Victim(s).value, env.pick);
    }
  }

  /** How far this step moves a pending deadline: the length of the pause it ends, if it ends one. */
  function PauseCredit(s: State, st: Step): int {
    if st.Submit? && st.action.ResumeGame? && st.action.host == s.hostId && s.paused && s.pausedAt <= st.env.now
    then st.env.now - s.pausedAt else 0
  }

  lemma VoteKeepsPending(s: State, sender: PlayerId, target: PlayerId, env: Env)
    requires s.pendingEnd.Some? && !s.phase.End?
    ensures CastVote(s, sender, target, env).next.pendingEnd == s.pendingEnd
  {
    var s1 := s.(votes := s.votes[sender := target]);
    var top := Ballots.Top(s1.players, Ballots.Counts(s1.votes));
    if |top| == 1 {
      BurialIsPlain(s1, top[0], env.pick);
      assert Bury(s1, top[0], env.pick).state.pendingEnd == s.pendingEnd;
      assert Eliminate(s1, top[0], env).state.pendingEnd == s.pendingEnd;
    }
    assert Tally(s1, env).state.pendingEnd == s.pendingEnd;
  }

  lemma HostActionPending(s: State, host: PlayerId, on: bool, env: Env)
    ensures EndDiscussionRule(s, host, env).next.pendingEnd == s.pendingEnd
    ensures Voice(s, host, on).next.pendingEnd == s.pendingEnd
    ensures Pause(s, host, env).next.pendingEnd == s.pendingEnd
    ensures s.pendingEnd.Some? ==>
      var credit := PauseCredit(s, Submit(ResumeGame(host), env));
      Resume(s, host, env).next.pendingEnd
      == Some(s.pendingEnd.value.(deadline := s.pendingEnd.value.deadline + credit))
  {
  }

  lemma PlayerActionPending(s: State, id: PlayerId, target: PlayerId, env: Env)
    requires Indexable(s)
    ensures SubmitKillRule(s, id, target).next.pendingEnd == s.pendingEnd
    ensures SubmitHealRule(s, id, target).next.pendingEnd == s.pendingEnd
    ensures SubmitCheckRule(s, id, target).next.pendingEnd == s.pendingEnd
    ensures Advance(s, id, env).next.pendingEnd == s.pendingEnd
    ensures FinishSelf(s, id, env).next.pendingEnd == s.pendingEnd
  {
    hide RoleError, LifeErrors, RoleOf;
  }

  lemma ActionMovesPending(s: State, a: Action, env: Env)
    requires Indexable(s) && !s.phase.Lobby? && !s.phase.End?
    requires s.pendingEnd.Some? && !Apply(s, a, env).next.phase.End?
    ensures Apply(s, a, env).next.pendingEnd
         == Some(s.pendingEnd.value.(deadline := s.pendingEnd.value.deadline + PauseCredit(s, Submit(a, env))))
  {
    hide Advance, FinishSelf, SubmitKillRule, SubmitHealRule, SubmitCheckRule, EndDiscussionRule, CastVote, Voice;
    hide Pause, Resume;
    hide ResolveNight;
    hide StartFromLobby, EndGame, PauseCredit, ForceEnd;
    NoCredit(s, a, env);
    match a {
      case StartGame(host, o) => NoSecondStart(s, host, o, env);
      case AdvanceIntro(host) => PlayerActionPending(s, host, NOBODY, env);
      case EndSelfIntro(sender) => PlayerActionPending(s, sender, NOBODY, env);
      case SubmitKill(sender, target) => PlayerActionPending(s, sender, target, env);
      case SubmitHeal(sender, target) => PlayerActionPending(s, sender, target, env);
      case SubmitCheck(sender, target) => PlayerActionPending(s, sender, target, env);
      case SubmitVote(sender, target) => VoteKeepsPending(s, sender, target, env);
      case EndNightEarly(_) => ResolutionKeepsPending(s, env);
      case EndDiscussionEarly(host) => HostActionPending(s, host, false, env);
      case ToggleVoice(host, on) => HostActionPending(s, host, on, env);
      case PauseGame(host) => HostActionPending(s, host, false, env);
      case ResumeGame(host) => HostActionPending(s, host, false, env);
      case ForceEndGame(host) => ForceEndPending(s, host);
    }
  }

  lemma NoCredit(s: State, a: Action, env: Env)
    ensures !a.ResumeGame? ==> PauseCredit(s, Submit(a, env)) == 0
  {
  }

  lemma ForceEndPending(s: State, host: PlayerId)
    ensures !ForceEnd(s, host).next.phase.End? ==> ForceEnd(s, host).next == s
  {
  }

  lemma TickKeepsPending(s: State, now: Time, env: Env)
    requires Inv(s) && SaneEnv(env) && s.pendingEnd.Some? && !Tick(s, now, env).next.phase.End?
    ensures Tick(s, now, env).next.pendingEnd == s.pendingEnd
  {
    PendingEndFires(s, now, env);
    if !s.paused && s.lastTickAt < now {
      TickStaysOpen(s, now, env);
    }
  }

  lemma StepMovesPending(s: State, st: Step)
    requires Inv(s) && SaneEnv(st.env) && s.pendingEnd.Some? && !Exec(s, st).next.phase.End?
    ensures Exec(s, st).next.pendingEnd
         == Some(s.pendingEnd.value.(deadline := s.pendingEnd.value.deadline + PauseCredit(s, st)))
  {
    hide Apply, Tick;
    match st {
      case Submit(a, env) => ActionMovesPending(s, a, env);
      case Clock(now, env) => TickKeepsPending(s, now, env);
    }
  }

  /** The time a run spends paused, counted at each resume. */
  ghost function PausedTime(s: State, steps: seq<Step>): int
    requires Inv(s) && Sane(steps)
  {
    if steps == [] then 0
    else
      var front := steps[..|steps| - 1];
      PausedTime(s, front) + PauseCredit(After(s, front), steps[|steps| - 1])
  }

  /**
   A pending end survives everything but the end itself: it keeps its reason and winner,
   and its deadline moves by exactly the time spent paused.
   */
  lemma {:induction false} PendingEndSurvives(s: State, steps: seq<Step>)
    requires Inv(s) && Sane(steps) && s.pendingEnd.Some? && !After(s, steps).phase.End?
    ensures After(s, steps).pendingEnd
         == Some(s.pendingEnd.value.(deadline := s.pendingEnd.value.deadline + PausedTime(s, steps)))
  {
    hide Exec, Inv;
    if steps != [] {
      var front, st := steps[..|steps| - 1], steps[|steps| - 1];
      var m := After(s, front);
      StepKeeps(m, st);
      PendingEndSurvives(s, front);
      StepMovesPending(m, st);
    }
  }

  /** Once an end is pending, the game can only end with that verdict or by the host's order. */
  lemma {:induction false} PendingVerdictIsFinal(s: State, steps: seq<Step>)
    requires Inv(s) && Sane(steps) && s.pendingEnd.Some? && After(s, steps).phase.End?
    ensures
      var t := After(s, steps);
      || (t.endReason == Some(HostForceEnd) && t.winner.None?)
      || (t.endReason == Some(s.pendingEnd.value.reason) && t.winner == s.pendingEnd.value.winner)
  {
    hide Exec, Inv;
    if steps == [] {
      PendingMeansOpen(s);
    } else {
      var front, st := steps[..|steps| - 1], steps[|steps| - 1];
      var m := After(s, front);
      StepKeeps(m, st);
      if m.phase.End? {
        PendingVerdictIsFinal(s, front);
      } else {
        PendingEndSurvives(s, front);
      }
    }
  }

  lemma PendingMeansOpen(s: State)
    requires Inv(s) && s.pendingEnd.Some?
    ensures !s.phase.End?
  {
  }
}
