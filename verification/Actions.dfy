/**
 What a caller can count on, action by action, in every reachable state: when the action is
 accepted, what an accepted one does, and what each refusal means. Night submissions have
 their windows elsewhere; here are their effects.
 */
module Actions {
  import opened GameTypes
  import opened Roster
  import opened Rules
  import opened Invariants
  import opened Runs
  import Dealing

  // ---------------------------------------------------------------- the intro

  /** The turn passes: to the next seat, or after the last one to the first discussion. */
  ghost predicate TurnPasses(s: State, now: Time, o: Outcome) {
    if s.speakerIdx + 1 < |s.players| then
      && o.next == s.(speakerIdx := s.speakerIdx + 1, speakerStartedAt := now)
      && 0 <= s.speakerIdx + 1
      && o.events == [Pub(SpeakerChanged(s.players[s.speakerIdx + 1].id, s.settings.introSeconds))]
    else
      && o.next.phase.Day? && o.next.day == 1 && o.next.lastTickAt == now
      && o.next.deadline == now + Seconds(s.settings.discussionSeconds)
      && o.events == [Pub(PhaseChanged(Day, 1, o.next.deadline))]
  }

  /** In the intro the host may pass the turn on at any time, and the speaker its own. */
  lemma IntroActions(s: State, id: PlayerId, env: Env)
    requires Inv(s)
    ensures
      var o := Apply(s, AdvanceIntro(id), env);
      && (o.error.None? <==> s.phase.Intro? && id == s.hostId)
      && (o.error.None? ==> TurnPasses(s, env.now, o))
    ensures
      var o := Apply(s, EndSelfIntro(id), env);
      && (o.error.None? <==> s.phase.Intro? && id == s.players[s.speakerIdx].id)
      && (o.error.None? ==> TurnPasses(s, env.now, o))
  {
    hide People, Records, ProperIds;
  }

  // ---------------------------------------------------------------- the discussion and the vote

  /** The first round of voting is open, with no ballot cast. */
  predicate VoteOpens(s: State, t: State, now: Time) {
    && t.phase.Vote? && t.votes == map[] && t.voteRound == 1 && t.candidates == []
    && t.deadline == ZERO_TIME && t.lastTickAt == now
    && t.players == s.players && t.day == s.day && t.pendingEnd == s.pendingEnd
  }

  /** The host, and nobody else, may end a discussion before its time. */
  lemma EndingDiscussion(s: State, host: PlayerId, env: Env)
    requires Inv(s)
    ensures
      var o := Apply(s, EndDiscussionEarly(host), env);
      && (o.error.None? <==> s.phase.Day? && host == s.hostId)
      && (o.error.None? ==> VoteOpens(s, o.next, env.now) && o.events == [Pub(PhaseChanged(Vote, s.day, ZERO_TIME))])
  {
    hide People, Records, ProperIds;
  }

  /**
   A discussion ends by itself: the first processed tick at or past its deadline opens the
   vote and announces it last; an earlier one leaves it open.
   */
  lemma DiscussionEndsOnTime(s: State, now: Time, env: Env)
    requires Inv(s) && s.phase.Day? && !s.paused && s.lastTickAt < now
    requires s.pendingEnd.None? || now < s.pendingEnd.value.deadline
    ensures
      var o := Tick(s, now, env);
      && o.error.None?
      && (o.next.phase.Vote? <==> s.deadline <= now)
      && (s.deadline <= now ==>
            && VoteOpens(s, o.next, now)
            && o.events != [] && o.events[|o.events| - 1] == Pub(PhaseChanged(Vote, s.day, ZERO_TIME)))
      && (now < s.deadline ==> o.next == s.(lastTickAt := now))
  {
    hide People, Records, ProperIds, Crossed;
  }

  lemma {:induction false} CrossedHas(ths: seq<int>, deadline: Time, prev: Time, now: Time, th: int)
    ensures Pub(DiscussionTick(th)) in Crossed(ths, deadline, prev, now)
       <==> th in ths && prev < deadline - Seconds(th) <= now
  {
    if ths != [] {
      CrossedHas(ths[..|ths| - 1], deadline, prev, now, th);
    }
  }

  /** A processed tick reminds of thirty, ten or no seconds left exactly if that instant is new since the last tick. */
  lemma ReminderIff(s: State, now: Time, env: Env, th: int)
    requires Inv(s) && s.phase.Day? && !s.paused && s.lastTickAt < now
    requires s.pendingEnd.None? || now < s.pendingEnd.value.deadline
    ensures Pub(DiscussionTick(th)) in Tick(s, now, env).events
       <==> (th == 30 || th == 10 || th == 0) && s.lastTickAt < s.deadline - Seconds(th) <= now
  {
    hide People, Records, ProperIds, Crossed;
    CrossedHas(THRESHOLDS, s.deadline, s.lastTickAt, now, th);
    var ticks := Crossed(THRESHOLDS, s.deadline, s.lastTickAt, now);
    var es := Tick(s, now, env).events;
    assert es == ticks || es == ticks + [Pub(PhaseChanged(Vote, s.day, ZERO_TIME))];
  }

  /**
   A ballot is accepted exactly from the living, in a voting phase, for nobody or for a
   living player, who in the recount must be one of the candidates.
   */
  lemma BallotAcceptedIff(s: State, sender: PlayerId, target: PlayerId, env: Env)
    requires Inv(s)
    ensures Apply(s, SubmitVote(sender, target), env).error.None? <==>
      && (s.phase.Vote? || s.phase.Recount?)
      && IsAlive(s.players, sender)
      && (target == NOBODY || (IsAlive(s.players, target) && (s.phase.Recount? ==> target in s.candidates)))
  {
    hide People, Records, ProperIds, Tally, Live;
  }

  /** An accepted ballot that does not complete the vote is recorded, over an earlier one of the same voter. */
  lemma BallotIsRecorded(s: State, sender: PlayerId, target: PlayerId, env: Env)
    requires Inv(s) && Apply(s, SubmitVote(sender, target), env).error.None?
    requires |s.votes[sender := target]| < Live(s.players)
    ensures
      var o := Apply(s, SubmitVote(sender, target), env);
      o.next == s.(votes := s.votes[sender := target]) && o.events == []
  {
    hide People, Records, ProperIds, Tally, LifeErrors, LifeError;
  }

  /** Between ballots a vote is left alone: no tick moves it. */
  lemma VoteWaits(s: State, now: Time, env: Env)
    requires Inv(s) && (s.phase.Vote? || s.phase.Recount?) && (s.pendingEnd.None? || now < s.pendingEnd.value.deadline)
    ensures
      var o := Tick(s, now, env);
      o.events == [] && o.next == s.(lastTickAt := if !s.paused && s.lastTickAt < now then now else s.lastTickAt)
  {
    hide People, Records, ProperIds;
  }

  // ---------------------------------------------------------------- the night

  /** An accepted kill stores the target and tells the living mafia; nothing else changes. */
  lemma KillEffect(s: State, sender: PlayerId, target: PlayerId, env: Env)
    requires Inv(s) && Apply(s, SubmitKill(sender, target), env).error.None?
    ensures
      var o := Apply(s, SubmitKill(sender, target), env);
      && o.next == s.(killTarget := Some(target))
      && o.events == [Envelope(TargetSelected(s.representative, target), LivingMafia)]
  {
    hide People, Records, ProperIds, RoleError, LifeErrors, RoleOf;
  }

  /** An accepted heal stores the target and tells nobody. */
  lemma HealEffect(s: State, sender: PlayerId, target: PlayerId, env: Env)
    requires Inv(s) && Apply(s, SubmitHeal(sender, target), env).error.None?
    ensures
      var o := Apply(s, SubmitHeal(sender, target), env);
      o.next == s.(healTarget := Some(target)) && o.events == []
  {
    hide People, Records, ProperIds, RoleError, LifeErrors, RoleOf;
  }

  /**
   An accepted check adds one record of the day and tells its result to the police officer
   alone: mafia if and only if the target is mafia.
   */
  lemma CheckEffect(s: State, sender: PlayerId, target: PlayerId, env: Env)
    requires Inv(s) && Apply(s, SubmitCheck(sender, target), env).error.None?
    ensures
      var o := Apply(s, SubmitCheck(sender, target), env);
      && |o.next.history| == |s.history| + 1 && s.history <= o.next.history
      && var r := o.next.history[|s.history|];
      && r.day == s.day && r.target == target && (r.team == MafiaTeam <==> RoleOf(s.players, target).Mafia?)
      && o.events == [Envelope(PoliceResult(sender, target, r.team), Only(sender))]
      && RoleOf(s.players, sender).Police?
      && o.next == s.(history := o.next.history, checkTarget := Some(target), policeChecked := true)
  {
    hide People, Records, ProperIds, LifeErrors;
  }

  /** The host, and nobody else, may end a night before its time. */
  lemma EndingNight(s: State, host: PlayerId, env: Env)
    requires Inv(s) && SaneEnv(env)
    ensures
      var o := Apply(s, EndNightEarly(host), env);
      && (o.error.None? <==> s.phase.Night? && host == s.hostId)
      && (o.error.None? ==> DayBreaks(s, env, o))
  {
    hide People, Records, ProperIds, ResolveNight;
    if s.phase.Night? {
      ResolveNightKeeps(s, s, env);
      MorningBreaks(s, env);
    }
  }

  /** The day after a night: five seconds of introduction and then the discussion, from the clock's instant. */
  ghost predicate DayBreaks(s: State, env: Env, o: Outcome) {
    && o.next.phase.Day? && o.next.day == s.day + 1 && o.next.lastTickAt == env.now
    && o.next.deadline == env.now + Seconds(5 + s.settings.discussionSeconds)
    && Pub(PhaseChanged(Day, s.day + 1, o.next.deadline)) in o.events
  }

  lemma MorningBreaks(s: State, env: Env)
    requires ResolveNight(s, env).error.None?
    ensures DayBreaks(s, env, ResolveNight(s, env))
  {
    hide Bury, EvaluateEnd, Has;
    var o := ResolveNight(s, env);
    assert o.events[0] in o.events;
  }

  /** The same day breaks when the last step of a night runs out. */
  lemma NightEndsOnTime(s: State, now: Time, env: Env)
    requires Inv(s) && SaneEnv(env) && s.phase.Night? && !s.paused && s.lastTickAt < now
    requires s.pendingEnd.None? || now < s.pendingEnd.value.deadline
    ensures
      var o := Tick(s, now, env);
      && (o.next.phase.Day? <==> NightEnds(s) <= now)
      && (NightEnds(s) <= now ==> DayBreaks(s, env, o))
  {
    hide People, Records, ProperIds, ResolveNight, TickNight, DayBreaks, NightEnds;
    ActiveTick(s, now);
    var s1 := s.(lastTickAt := now);
    NightTickStamp(s1, now, env);
    SameEnd(s, now);
    var pre, step, deadline := NightTickForm(s1, now, env);
    var s0 := s1.(nightStep := NoStep, stepDeadline := ZERO_TIME);
    ResolveNightKeeps(s1, s0, env);
    MorningBreaks(s0, env);
    DayBreaksAfter(s, s0, env, pre, ResolveNight(s0, env));
  }

  lemma DayBreaksAfter(s: State, s0: State, env: Env, pre: seq<Envelope>, o: Outcome)
    requires s0.day == s.day && s0.settings == s.settings && DayBreaks(s0, env, o)
    ensures DayBreaks(s, env, o.(events := pre + o.events))
  {
    var i :| 0 <= i < |o.events| && o.events[i] == Pub(PhaseChanged(Day, s.day + 1, o.next.deadline));
    assert (pre + o.events)[|pre| + i] == o.events[i];
  }

  // ---------------------------------------------------------------- succession

  lemma {:induction false} MafiaIsListed(ps: seq<Player>, i: nat)
    requires i < |ps| && LivingMafioso(ps[i])
    ensures ps[i].id in MafiaIds(ps)
  {
    if i < |ps| - 1 {
      MafiaIsListed(ps[..|ps| - 1], i);
    }
  }

  /** The list of living mafia starts with the first one at the table. */
  lemma {:induction false} FirstIsListedFirst(ps: seq<Player>) returns (i: nat)
    requires MafiaIds(ps) != []
    ensures i < |ps| && LivingMafioso(ps[i]) && ps[i].id == MafiaIds(ps)[0]
    ensures forall j :: 0 <= j < i ==> !LivingMafioso(ps[j])
  {
    var front := ps[..|ps| - 1];
    if MafiaIds(front) != [] {
      i := FirstIsListedFirst(front);
      assert forall j :: 0 <= j <= i ==> front[j] == ps[j];
    } else {
      i := |ps| - 1;
      forall j | 0 <= j < i ensures !LivingMafioso(ps[j]) {
        if LivingMafioso(ps[j]) {
          MafiaIsListed(front, j);
        }
      }
    }
  }

  /**
   A death changes the representative only if it is the representative's own. It is then
   announced to the living mafia, unless there are none; and if no seed can be read, the
   first of them at the table succeeds.
   */
  lemma Succession(s: State, id: PlayerId, pick: Option<nat>)
    requires ProperIds(s.players) && Has(s.players, id)
    ensures
      var c, ps := Bury(s, id, pick), Kill(s.players, id);
      && c.state == s.(players := ps, representative := c.state.representative)
      && (id != s.representative ==> c.state.representative == s.representative && c.events == [])
      && (id == s.representative && MafiaIds(ps) == [] ==> c.state.representative == NOBODY && c.events == [])
      && (id == s.representative && MafiaIds(ps) != [] ==>
            c.events == [Envelope(RepresentativeReassigned(id, c.state.representative), LivingMafia)])
    ensures
      var rep, ps := Bury(s, id, pick).state.representative, Kill(s.players, id);
      id == s.representative && MafiaIds(ps) != [] && pick.None? ==>
        exists i :: 0 <= i < |ps| && ps[i].id == rep && FirstMafioso(ps, i)
  {
    hide Kill, MafiaIds, ProperIds;
    var ps := Kill(s.players, id);
    if MafiaIds(ps) != [] {
      var i := FirstIsListedFirst(ps);
      assert FirstMafioso(ps, i);
    }
  }

  ghost predicate FirstMafioso(ps: seq<Player>, i: int) {
    0 <= i < |ps| && LivingMafioso(ps[i]) && forall j :: 0 <= j < i ==> !LivingMafioso(ps[j])
  }

  /** With a seed, every living mafioso can be drawn. */
  lemma AnyoneCanSucceed(s: State, i: nat) returns (n: nat)
    requires Has(s.players, s.representative)
    requires i < |s.players| && LivingMafioso(Kill(s.players, s.representative)[i])
    ensures Bury(s, s.representative, Some(n)).state.representative == s.players[i].id
  {
    hide Kill, MafiaIds, Has;
    var ps := Kill(s.players, s.representative);
    MafiaIsListed(ps, i);
    n :| 0 <= n < |MafiaIds(ps)| && MafiaIds(ps)[n] == ps[i].id;
    DrawnAsIs(n, |MafiaIds(ps)|);
    SameNameAfterDeath(s.players, s.representative, i);
  }

  lemma DrawnAsIs(n: nat, len: nat)
    requires n < len
    ensures n % len == n
  {
  }

  lemma SameNameAfterDeath(ps: seq<Player>, id: PlayerId, i: nat)
    requires i < |ps|
    ensures Kill(ps, id)[i].id == ps[i].id
  {
  }

  // ---------------------------------------------------------------- the host's switches

  /** The voice switch belongs to the host and changes one setting. */
  lemma VoiceSwitch(s: State, host: PlayerId, on: bool, env: Env)
    requires Inv(s)
    ensures
      var o := Apply(s, ToggleVoice(host, on), env);
      && (o.error.None? <==> host == s.hostId && !s.phase.End?)
      && (o.error.None? ==>
            o.next == s.(settings := s.settings.(voiceOn := on)) && o.events == [Pub(VoiceToggled(on))])
  {
    hide People, Records, ProperIds;
  }

  /** The host may end a game at any time; it then has no winner. */
  lemma ForcedEnd(s: State, host: PlayerId, env: Env)
    requires Inv(s)
    ensures
      var o := Apply(s, ForceEndGame(host), env);
      && (o.error.None? <==> host == s.hostId && !s.phase.End?)
      && (o.error.None? ==>
            && o.next == s.(phase := End, pendingEnd := None, endReason := Some(HostForceEnd), winner := None)
            && o.events == [Pub(GameEnded(None, HostForceEnd, s.players))])
  {
    hide People, Records, ProperIds;
  }

  /**
   The host may pause the intro, the discussion and the night after its first step, and in
   the result buffer any phase. A pause records when it began; a second one does nothing.
   */
  lemma Pausing(s: State, host: PlayerId, env: Env)
    requires Inv(s)
    ensures
      var o := Apply(s, PauseGame(host), env);
      && (o.error.None? <==>
            && host == s.hostId && !s.phase.End?
            && (s.pendingEnd.Some? || s.phase.Intro? || s.phase.Day? || (s.phase.Night? && !s.nightStep.StepIntro?)))
      && (o.error.None? && !s.paused ==>
            o.next == s.(paused := true, pausedAt := env.now) && o.events == [Pub(GamePaused(s.phase))])
      && (o.error.None? && s.paused ==> o.next == s && o.events == [])
  {
    hide People, Records, ProperIds;
  }

  /** How long a pause has lasted; a clock that runs behind its beginning counts as no time. */
  function Paused(s: State, now: Time): nat { if now < s.pausedAt then 0 else now - s.pausedAt }

  /** Only the host resumes a game. The running timer moves by the pause; resuming a running game does nothing. */
  lemma Resuming(s: State, host: PlayerId, env: Env)
    requires Inv(s)
    ensures
      var o := Apply(s, ResumeGame(host), env);
      && (o.error.None? <==> host == s.hostId && !s.phase.End?)
      && (o.error.None? && !s.paused ==> o.next == s && o.events == [])
      && (o.error.None? && s.paused ==>
            && !o.next.paused && o.next.pausedAt == ZERO_TIME && o.next.lastTickAt == env.now
            && (s.phase.Intro? ==> o.next.speakerStartedAt == s.speakerStartedAt + Paused(s, env.now))
            && (s.phase.Day? ==>
                  && o.next.deadline == s.deadline + Paused(s, env.now)
                  && o.events == [Pub(GameResumed(Day, o.next.deadline))])
            && (s.phase.Night? ==>
                  && o.next.stepDeadline == s.stepDeadline + Paused(s, env.now)
                  && o.events == [Pub(GameResumed(Night, o.next.stepDeadline))])
            && (!s.phase.Day? && !s.phase.Night? ==> o.events == [Pub(GameResumed(s.phase, ZERO_TIME))]))
  {
    hide People, Records, ProperIds;
  }

  // ---------------------------------------------------------------- what a refusal means

  predicate HostAction(a: Action) {
    || a.StartGame? || a.AdvanceIntro? || a.EndNightEarly? || a.EndDiscussionEarly? || a.ToggleVoice? || a.ForceEndGame?
    || a.PauseGame? || a.ResumeGame?
  }

  predicate Targeted(a: Action) { a.SubmitKill? || a.SubmitHeal? || a.SubmitCheck? || a.SubmitVote? }

  /** Whether the game is where this action belongs. */
  predicate Timely(s: State, a: Action) {
    match a
    case StartGame(_, _) => false
    case AdvanceIntro(_) => s.phase.Intro?
    case EndSelfIntro(_) => s.phase.Intro?
    case SubmitKill(_, _) => s.phase.Night? && s.nightStep.StepMafia?
    case SubmitHeal(_, _) => s.phase.Night? && s.nightStep.StepDoctor?
    case SubmitCheck(_, _) => s.phase.Night? && s.nightStep.StepPolice?
    case EndNightEarly(_) => s.phase.Night?
    case EndDiscussionEarly(_) => s.phase.Day?
    case SubmitVote(_, _) => s.phase.Vote? || s.phase.Recount?
    case PauseGame(_) =>
      s.pendingEnd.Some? || s.phase.Intro? || s.phase.Day? || (s.phase.Night? && !s.nightStep.StepIntro?)
    case _ => !s.phase.End?
  }

  function RoleFor(a: Action): Role {
    if a.SubmitKill? then Mafia else if a.SubmitHeal? then Doctor else if a.SubmitCheck? then Police else NoRole
  }

  /** The players an action names: its sender and, unless it is an abstention, its target. */
  predicate Names(a: Action, id: PlayerId) {
    Targeted(a) && (id == a.sender || (id == a.target && !(a.SubmitVote? && a.target == NOBODY)))
  }

  /** What each error code says about the state and the action it answers. */
  ghost predicate Explains(s: State, a: Action, code: ErrorCode) {
    match code
    case WrongPhase => !Timely(s, a)
    case PermissionDenied =>
      if HostAction(a) then a.host != s.hostId
      else a.EndSelfIntro? && 0 <= s.speakerIdx < |s.players| && a.sender != s.players[s.speakerIdx].id
    case RoleMismatch => RoleFor(a) != NoRole && Has(s.players, a.sender) && RoleOf(s.players, a.sender) != RoleFor(a)
    case UnknownPlayer => exists id :: Names(a, id) && !Has(s.players, id)
    case DeadPlayer => exists id :: Names(a, id) && Has(s.players, id) && !IsAlive(s.players, id)
    case NotRepresentative => a.SubmitKill? && RoleOf(s.players, a.sender).Mafia? && a.sender != s.representative
    case AlreadyDone =>
      || (a.SubmitKill? && s.killTarget.Some?) || (a.SubmitHeal? && s.healTarget.Some?)
      || (a.SubmitCheck? && s.policeChecked)
    case InvalidTarget =>
      || (a.SubmitKill? && RoleOf(s.players, a.target).Mafia?)
      || (a.SubmitHeal? && a.sender == a.target && !s.settings.selfHeal)
      || (a.SubmitCheck? && a.sender == a.target)
      || (a.SubmitVote? && s.phase.Recount? && a.target != NOBODY && a.target !in s.candidates)
    case Validation => false
  }

  lemma LifeErrorsExplain(s: State, a: Action)
    requires Inv(s) && Targeted(a) && !(a.SubmitVote? && a.target == NOBODY)
    ensures LifeErrors(s.players, a.sender, a.target).Some? ==>
      Explains(s, a, LifeErrors(s.players, a.sender, a.target).value)
  {
    hide People, Records, ProperIds, Index;
    assert Names(a, a.sender) && Names(a, a.target);
  }

  lemma RoleErrorExplains(s: State, a: Action)
    requires Inv(s) && RoleFor(a) != NoRole
    ensures RoleError(s.players, a.sender, RoleFor(a)).Some? ==>
      Explains(s, a, RoleError(s.players, a.sender, RoleFor(a)).value)
    ensures RoleError(s.players, a.sender, RoleFor(a)).None? ==> RoleOf(s.players, a.sender) == RoleFor(a)
  {
    hide People, Records, ProperIds, Index;
    assert Names(a, a.sender);
  }

  lemma SubmissionRefused(s: State, a: Action, env: Env, code: ErrorCode)
    requires Inv(s) && RoleFor(a) != NoRole && Apply(s, a, env).error == Some(code)
    ensures Explains(s, a, code)
  {
    hide People, Records, ProperIds, RoleError, LifeErrors, Has, IsAlive;
    LifeErrorsExplain(s, a);
    RoleErrorExplains(s, a);
  }

  lemma BallotRefused(s: State, a: Action, env: Env, code: ErrorCode)
    requires Inv(s) && a.SubmitVote? && Apply(s, a, env).error == Some(code)
    ensures Explains(s, a, code)
  {
    hide People, Records, ProperIds, LifeErrors, Tally, Live, Has, IsAlive;
    if a.target == NOBODY {
      AbstentionRefused(s, a);
    } else {
      LifeErrorsExplain(s, a);
    }
  }

  lemma AbstentionRefused(s: State, a: Action)
    requires Inv(s) && a.SubmitVote? && a.target == NOBODY
    ensures LifeError(s.players, a.sender).Some? ==> Explains(s, a, LifeError(s.players, a.sender).value)
  {
    hide People, Records, ProperIds, Index;
    assert Names(a, a.sender);
  }

  /** A refusal tells the truth: its code says why, in every reachable state, for every action. */
  lemma RefusalMeans(s: State, a: Action, env: Env, code: ErrorCode)
    requires Inv(s) && SaneEnv(env) && Apply(s, a, env).error == Some(code)
    ensures Explains(s, a, code)
  {
    hide ProperIds, People, Records, ResolveNight, IntroToDay, DayToVote, Resumed, CastVote;
    hide SubmitKillRule, SubmitHealRule, SubmitCheckRule, StartFromLobby;
    if a.StartGame? {
      NoSecondStart(s, a.host, a.options, env);
    } else if RoleFor(a) != NoRole {
      SubmissionRefused(s, a, env, code);
    } else if a.SubmitVote? {
      BallotRefused(s, a, env, code);
    } else if a.EndNightEarly? && s.phase.Night? {
      ResolveNightKeeps(s, s, env);
    }
  }

  // ---------------------------------------------------------------- what is allowed

  /** Who may do what, when: the rules of the game as a player would be told them. */
  predicate Allowed(s: State, a: Action) {
    && Timely(s, a) && !s.phase.End? && (HostAction(a) ==> a.host == s.hostId)
    && (a.EndSelfIntro? ==> 0 <= s.speakerIdx < |s.players| && a.sender == s.players[s.speakerIdx].id)
    && (Targeted(a) ==> IsAlive(s.players, a.sender))
    && (Targeted(a) && !(a.SubmitVote? && a.target == NOBODY) ==> IsAlive(s.players, a.target))
    && (RoleFor(a) != NoRole ==> RoleOf(s.players, a.sender) == RoleFor(a))
    && match a
       case SubmitKill(x, y) => s.killTarget.None? && x == s.representative && !RoleOf(s.players, y).Mafia?
       case SubmitHeal(x, y) => s.healTarget.None? && (x == y ==> s.settings.selfHeal)
       case SubmitCheck(x, y) => !s.policeChecked && x != y
       case SubmitVote(_, y) => s.phase.Recount? && y != NOBODY ==> y in s.candidates
       case _ => true
  }

  lemma SubmissionAcceptedIff(s: State, a: Action, env: Env)
    requires Inv(s) && RoleFor(a) != NoRole
    ensures Apply(s, a, env).error.None? <==> Allowed(s, a)
  {
    hide Inv, Index;
    InvIndexable(s);
  }

  lemma SeatOfSpeaker(s: State)
    requires Inv(s)
    ensures 0 <= s.speakerIdx < |s.players| && (s.phase.End? ==> s.pendingEnd.None?)
  {
  }

  /** In every reachable state an action is accepted if and only if it is allowed. */
  lemma AcceptedIff(s: State, a: Action, env: Env)
    requires Inv(s) && SaneEnv(env)
    ensures Apply(s, a, env).error.None? <==> Allowed(s, a)
  {
    hide Inv, TurnPasses, VoteOpens, DayBreaks, IsAlive, RoleOf, Apply;
    InvIndexable(s);
    SeatOfSpeaker(s);
    match a {
      case StartGame(host, o) => NeverStartedAgain(s, host, o, env);
      case AdvanceIntro(host) => IntroActions(s, host, env);
      case EndSelfIntro(sender) => IntroActions(s, sender, env);
      case EndNightEarly(host) => EndingNight(s, host, env);
      case EndDiscussionEarly(host) => EndingDiscussion(s, host, env);
      case ToggleVoice(host, on) => VoiceSwitch(s, host, on, env);
      case ForceEndGame(host) => ForcedEnd(s, host, env);
      case PauseGame(host) => Pausing(s, host, env);
      case ResumeGame(host) => Resuming(s, host, env);
      case SubmitVote(sender, target) => BallotAcceptedIff(s, sender, target, env);
      case _ => SubmissionAcceptedIff(s, a, env);
    }
  }

  lemma NeverStartedAgain(s: State, host: PlayerId, o: Options, env: Env)
    requires Inv(s)
    ensures Apply(s, StartGame(host, o), env).error.Some?
  {
    hide People, Records, ProperIds, StartFromLobby;
    NoSecondStart(s, host, o, env);
  }

  // ---------------------------------------------------------------- starting

  /** What a start hands over to the game: the host, the options, the roster by seat, and one clock reading. */
  lemma StartSetsUp(s: State, gameId: string, host: PlayerId, roster: seq<Player>, o: Options, env: Env)
    requires Start(s, gameId, host, roster, o, env).error.None?
    ensures
      var t := Start(s, gameId, host, roster, o, env).next;
      && t.gameId == gameId && t.hostId == host && t.settings == o
      && t.startedAt == t.speakerStartedAt == t.lastTickAt == env.now
      && t.phase.Intro? && t.day == 1 && t.speakerIdx == 0 && !t.paused && t.pendingEnd.None? && t.history == []
      && |t.players| == |roster|
      && forall i :: 0 <= i < |roster| ==>
           t.players[i].id == roster[i].id && t.players[i].name == roster[i].name && t.players[i].alive
  {
    hide Opening, Dealing.ValidOptions, Dealing.Shuffle, Dealing.Roles, Has;
  }

  /** A start is accepted exactly for a fresh engine, a table of six to twelve with its host, and a possible deal. */
  lemma StartAcceptedIff(s: State, gameId: string, host: PlayerId, roster: seq<Player>, o: Options, env: Env)
    ensures Start(s, gameId, host, roster, o, env).error.None? <==>
      && (s.phase.NoPhase? || s.phase.Lobby?)
      && 6 <= |roster| <= 12
      && (host == NOBODY || exists i :: 0 <= i < |roster| && roster[i].id == host)
      && env.deal.seeded && env.deal.keywords.Some?
      && (o.maxPlayers == 0 || (6 <= o.maxPlayers <= 12 && |roster| <= o.maxPlayers))
      && 1 <= o.mafiaCount && o.mafiaCount < |roster| - o.mafiaCount && 3 <= |roster| - o.mafiaCount
      && 5 <= o.introSeconds && 30 <= o.discussionSeconds
  {
    hide Opening, Dealing.Shuffle, Dealing.Roles;
    if exists i :: 0 <= i < |roster| && roster[i].id == host {
      var i :| 0 <= i < |roster| && roster[i].id == host;
      assert Index(roster, host) <= i;
    }
  }

  /** Starting from a lobby comes to the same game as starting afresh over the lobby's players. */
  lemma LobbyStartIsStart(s: State, host: PlayerId, o: Options, env: Env)
    requires s == ZERO_STATE.(phase := Lobby, gameId := s.gameId, players := s.players, hostId := host)
    requires host == NOBODY || Has(s.players, host)
    ensures StartFromLobby(s, host, o, env) == Start(s, s.gameId, host, s.players, o, env)
  {
    hide Opening, Dealing.Shuffle, Dealing.Roles, Has;
  }
}
