/**
 The engine does not care what time it is: moving every instant of a state and of the
 steps that follow by the same amount moves the whole run by that amount and changes
 nothing else.
 */
module Shifting {
  import opened GameTypes
  import opened Roster
  import opened Ballots
  import opened Rules
  import opened Invariants
  import opened Runs

  function ShiftEnd(pe: Option<PendingEnd>, d: nat): Option<PendingEnd> {
    if pe.Some? then Some(pe.value.(deadline := pe.value.deadline + d)) else None
  }

  /** Every running instant moved by `d`; the intro stamp only if asked for. */
  function Shift(s: State, d: nat, intro: bool): State {
    s.(speakerStartedAt := if intro then s.speakerStartedAt + d else s.speakerStartedAt,
       deadline := MovedBy(s.deadline, d),
       stepDeadline := MovedBy(s.stepDeadline, d),
       pausedAt := MovedBy(s.pausedAt, d),
       pendingEnd := ShiftEnd(s.pendingEnd, d),
       lastTickAt := s.lastTickAt + d)
  }

  function ShiftEnv(env: Env, d: nat): Env { env.(now := env.now + d, later := env.later + d) }

  function ShiftEvent(e: Event, d: nat): Event {
    match e
    case PhaseChanged(p, day, t) => PhaseChanged(p, day, MovedBy(t, d))
    case NightStepChanged(st, day, t) => NightStepChanged(st, day, MovedBy(t, d))
    case GameResumed(p, t) => GameResumed(p, MovedBy(t, d))
    case _ => e
  }

  function ShiftAll(es: seq<Envelope>, d: nat): seq<Envelope> {
    if es == [] then []
    else ShiftAll(es[..|es| - 1], d) + [es[|es| - 1].(event := ShiftEvent(es[|es| - 1].event, d))]
  }

  function ShiftChange(c: Change, d: nat, intro: bool): Change {
    Change(Shift(c.state, d, intro), ShiftAll(c.events, d))
  }

  function ShiftOutcome(o: Outcome, d: nat, intro: bool): Outcome {
    Outcome(Shift(o.next, d, intro), Shift(o.reply, d, intro), ShiftAll(o.events, d), o.error)
  }

  lemma {:induction false} ShiftConcat(a: seq<Envelope>, b: seq<Envelope>, d: nat)
    ensures ShiftAll(a + b, d) == ShiftAll(a, d) + ShiftAll(b, d)
  {
    if b == [] {
      assert a + b == a;
    } else {
      ShiftConcat(a, b[..|b| - 1], d);
      assert (a + b)[..|a + b| - 1] == a + b[..|b| - 1];
    }
  }

  lemma ShiftOne(e: Envelope, d: nat)
    ensures ShiftAll([e], d) == [e.(event := ShiftEvent(e.event, d))]
  {
    assert [e][..0] == [];
  }

  lemma ShiftNone(d: nat)
    ensures ShiftAll([], d) == []
  {
  }

  // ---------------------------------------------------------------- building blocks

  lemma BuryShifts(s: State, id: PlayerId, pick: Option<nat>, d: nat, intro: bool)
    ensures Bury(Shift(s, d, intro), id, pick) == ShiftChange(Bury(s, id, pick), d, intro)
  {
    hide Drawn, MafiaIds, Kill, ShiftAll;
    var living := MafiaIds(Kill(s.players, id));
    if id == s.representative && living != [] {
      var newId := Drawn(living, pick);
      ShiftOne(Envelope(RepresentativeReassigned(id, newId), LivingMafia), d);
    } else {
      ShiftNone(d);
    }
  }

  lemma ScheduleShifts(s: State, now: Time, d: nat, intro: bool)
    ensures ScheduleEnd(Shift(s, d, intro), now + d) == Shift(ScheduleEnd(s, now), d, intro)
  {
    hide LiveMafia, LiveCitizens;
    assert EvaluateEnd(Shift(s, d, intro)) == EvaluateEnd(s);
  }

  lemma BeginShifts(s: State, step: NightStep, at: Time, d: nat, intro: bool)
    requires ZERO_TIME < at && StepsLeft(step) > 0
    ensures BeginStep(Shift(s, d, intro), step, at + d) == ShiftChange(BeginStep(s, step, at), d, intro)
  {
    hide ShiftAll;
    ShiftOne(BeginStep(s, step, at).events[0], d);
  }

  lemma EnterNightShifts(s: State, now: Time, d: nat, intro: bool)
    requires ZERO_TIME < now
    ensures EnterNight(Shift(s, d, intro), now + d) == ShiftChange(EnterNight(s, now), d, intro)
  {
    hide ShiftAll;
    var s1 := ClearNight(s).(phase := Night, deadline := ZERO_TIME, votes := map[], voteRound := 0,
                             candidates := [], lastTickAt := now);
    BeginShifts(s1, StepIntro, now, d, intro);
    var e := Pub(PhaseChanged(Night, s.day, ZERO_TIME));
    ShiftConcat([e], BeginStep(s1, StepIntro, now).events, d);
    ShiftOne(e, d);
  }

  lemma EliminateShifts(s: State, id: PlayerId, env: Env, d: nat, intro: bool)
    requires ZERO_TIME < env.now
    ensures Eliminate(Shift(s, d, intro), id, ShiftEnv(env, d)) == ShiftChange(Eliminate(s, id, env), d, intro)
  {
    hide Bury, ScheduleEnd, EnterNight, LiveMafia, LiveCitizens, Index, ShiftAll;
    ShiftNone(d);
    if Has(s.players, id) {
      BuryShifts(s, id, env.pick, d, intro);
      var b := Bury(s, id, env.pick);
      ScheduleShifts(b.state, env.now, d, intro);
      EnterNightShifts(b.state, env.now, d, intro);
      var e := Pub(Eliminated(id, RoleOf(s.players, id)));
      ShiftOne(e, d);
      ShiftConcat([e], b.events, d);
      ShiftConcat([e] + b.events, EnterNight(b.state, env.now).events, d);
    }
  }

  /** Moving time changes nothing that a vote is counted by. */
  lemma ShiftKeepsTable(s: State, d: nat, intro: bool)
    ensures
      var t := Shift(s, d, intro);
      t.players == s.players && t.votes == s.votes && t.voteRound == s.voteRound && t.day == s.day
  {
  }

  lemma RecountShifts(s: State, top: seq<PlayerId>, counts: map<PlayerId, nat>, d: nat, intro: bool)
    ensures
      var events := [Pub(VoteTallied(counts, None, true)), Pub(PhaseChanged(Recount, s.day, ZERO_TIME))];
      Change(Shift(s, d, intro).(phase := Recount, voteRound := 2, candidates := top, votes := map[]), events)
      == ShiftChange(Change(s.(phase := Recount, voteRound := 2, candidates := top, votes := map[]), events), d, intro)
  {
    hide ShiftAll;
    var e, f := Pub(VoteTallied(counts, None, true)), Pub(PhaseChanged(Recount, s.day, ZERO_TIME));
    ShiftOne(e, d);
    ShiftOne(f, d);
    assert [e, f] == [e] + [f];
    ShiftConcat([e], [f], d);
  }

  /** An announcement without a deadline goes in front unchanged. */
  lemma TalliedFirst(counts: map<PlayerId, nat>, out: Option<PlayerId>, c: Change, d: nat, intro: bool)
    ensures
      var e := Pub(VoteTallied(counts, out, false));
      ShiftChange(Change(c.state, [e] + c.events), d, intro)
      == Change(ShiftChange(c, d, intro).state, [e] + ShiftChange(c, d, intro).events)
  {
    hide ShiftAll, Shift;
    var e := Pub(VoteTallied(counts, out, false));
    ShiftOne(e, d);
    ShiftConcat([e], c.events, d);
  }

  lemma TallyShifts(s: State, env: Env, d: nat, intro: bool)
    requires ZERO_TIME < env.now
    ensures Tally(Shift(s, d, intro), ShiftEnv(env, d)) == ShiftChange(Tally(s, env), d, intro)
  {
    hide Eliminate, EnterNight, Top, Counts, ShiftAll, Shift, ShiftChange;
    var counts := Counts(s.votes);
    var top := Top(s.players, counts);
    ShiftKeepsTable(s, d, intro);
    if |top| == 1 {
      EliminateShifts(s, top[0], env, d, intro);
      TalliedFirst(counts, Some(top[0]), Eliminate(s, top[0], env), d, intro);
    } else if |top| > 1 && s.voteRound == 1 {
      RecountShifts(s, top, counts, d, intro);
    } else {
      EnterNightShifts(s, env.now, d, intro);
      TalliedFirst(counts, None, EnterNight(s, env.now), d, intro);
    }
  }

  lemma VoteShifts(s: State, sender: PlayerId, target: PlayerId, env: Env, d: nat, intro: bool)
    requires ZERO_TIME < env.now
    ensures CastVote(Shift(s, d, intro), sender, target, ShiftEnv(env, d))
         == ShiftOutcome(CastVote(s, sender, target, env), d, intro)
  {
    hide Tally, Live, LifeError, LifeErrors, ShiftAll;
    ShiftNone(d);
    assert BallotError(Shift(s, d, intro), sender, target) == BallotError(s, sender, target);
    var s1 := s.(votes := s.votes[sender := target]);
    assert Shift(s1, d, intro) == Shift(s, d, intro).(votes := s.votes[sender := target]);
    TallyShifts(s1, env, d, intro);
  }

  /** The state of a new day, before a decided end is scheduled. */
  function Dawn(b: State, deadline: Time, now: Time): State {
    ClearNight(b).(day := b.day + 1, phase := Day, deadline := deadline, lastTickAt := now)
  }

  lemma DawnShifts(b: State, deadline: Time, now: Time, d: nat, intro: bool)
    requires ZERO_TIME < deadline
    ensures Dawn(Shift(b, d, intro), deadline + d, now + d) == Shift(Dawn(b, deadline, now), d, intro)
  {
  }

  lemma DawnEventsShift(day: int, deadline: Time, fate: Event, rest: seq<Envelope>, d: nat)
    requires ZERO_TIME < deadline && (fate.DeathAnnounced? || fate.PeacefulNight?)
    ensures ShiftAll([Pub(PhaseChanged(Day, day, deadline)), Pub(fate)] + rest, d)
         == [Pub(PhaseChanged(Day, day, deadline + d)), Pub(fate)] + ShiftAll(rest, d)
  {
    var e, f := Pub(PhaseChanged(Day, day, deadline)), Pub(fate);
    ShiftConcat([e, f], rest, d);
    assert [e, f] == [e] + [f];
    ShiftConcat([e], [f], d);
    ShiftOne(e, d);
    ShiftOne(f, d);
  }

  /** The morning after a burial, as a function of what the burial left. */
  function MorningOutcome(s: State, burial: Change, fate: Event, env: Env): Outcome {
    var deadline := env.now + Seconds(DAY_INTRO_SECONDS + s.settings.discussionSeconds);
    Done(ScheduleEnd(Dawn(burial.state, deadline, env.now), env.later),
         [Pub(PhaseChanged(Day, s.day + 1, deadline)), Pub(fate)] + burial.events)
  }

  lemma MorningShifts(s: State, burial: Change, fate: Event, env: Env, d: nat, intro: bool)
    requires SaneEnv(env) && s.settings.discussionSeconds > 0 && (fate.DeathAnnounced? || fate.PeacefulNight?)
    ensures MorningOutcome(Shift(s, d, intro), ShiftChange(burial, d, intro), fate, ShiftEnv(env, d))
         == ShiftOutcome(MorningOutcome(s, burial, fate, env), d, intro)
  {
    hide ScheduleEnd, ShiftAll, Dawn, Shift;
    ShiftKeepsNight(s, d, intro);
    var deadline := env.now + Seconds(DAY_INTRO_SECONDS + s.settings.discussionSeconds);
    DawnShifts(burial.state, deadline, env.now, d, intro);
    ScheduleShifts(Dawn(burial.state, deadline, env.now), env.later, d, intro);
    DawnEventsShift(s.day + 1, deadline, fate, burial.events, d);
  }

  /** A resolution is the morning after the burial of the victim, if there is one. */
  lemma ResolutionIsMorning(s: State, env: Env)
    ensures
      var v := Victim(s);
      ResolveNight(s, env) ==
        if v.Some? && !Has(s.players, v.value) then Rejected(s, UnknownPlayer)
        else if v.Some? then MorningOutcome(s, Bury(s, v.value, env.pick), DeathAnnounced(v.value), env)
        else MorningOutcome(s, Change(s, []), PeacefulNight, env)
  {
    hide Bury, ScheduleEnd, Has;
    BuryKeepsDay(s, if Victim(s).Some? then Victim(s).value else NOBODY, env.pick);
  }

  lemma ResolveShifts(s: State, env: Env, d: nat, intro: bool)
    requires SaneEnv(env) && s.settings.discussionSeconds > 0
    ensures ResolveNight(Shift(s, d, intro), ShiftEnv(env, d)) == ShiftOutcome(ResolveNight(s, env), d, intro)
  {
    hide Bury, Has, ShiftAll, Shift, ShiftOutcome, MorningOutcome, ResolveNight;
    ShiftKeepsNight(s, d, intro);
    RejectionShifts(s, d, intro);
    ResolutionIsMorning(s, env);
    ResolutionIsMorning(Shift(s, d, intro), ShiftEnv(env, d));
    var v := Victim(s);
    if v.Some? {
      BuryShifts(s, v.value, env.pick, d, intro);
      MorningShifts(s, Bury(s, v.value, env.pick), DeathAnnounced(v.value), env, d, intro);
    } else {
      ShiftNone(d);
      MorningShifts(s, Change(s, []), PeacefulNight, env, d, intro);
    }
  }

  lemma IntroToDayShifts(s: State, now: Time, d: nat, intro: bool)
    requires ZERO_TIME < now && s.settings.discussionSeconds > 0
    ensures IntroToDay(Shift(s, d, intro), now + d) == ShiftChange(IntroToDay(s, now), d, intro)
  {
    hide ShiftAll;
    ShiftOne(IntroToDay(s, now).events[0], d);
  }

  lemma NextSpeakerShifts(s: State, now: Time, d: nat)
    requires -1 <= s.speakerIdx && ZERO_TIME < now && s.settings.discussionSeconds > 0
    ensures NextSpeaker(Shift(s, d, true), now + d) == ShiftOutcome(NextSpeaker(s, now), d, true)
  {
    hide ShiftAll, IntroToDay;
    if s.speakerIdx < |s.players| - 1 {
      ShiftOne(NextSpeaker(s, now).events[0], d);
    } else {
      IntroToDayShifts(s, now, d, true);
    }
  }

  lemma DayToVoteShifts(s: State, now: Time, d: nat, intro: bool)
    ensures DayToVote(Shift(s, d, intro), now + d) == ShiftChange(DayToVote(s, now), d, intro)
  {
    ShiftOne(DayToVote(s, now).events[0], d);
  }

  lemma RejectionShifts(s: State, d: nat, intro: bool)
    ensures forall code :: Rejected(Shift(s, d, intro), code) == ShiftOutcome(Rejected(s, code), d, intro)
  {
    hide Shift;
    ShiftNone(d);
  }

  lemma ShiftKeepsNight(s: State, d: nat, intro: bool)
    ensures
      var t := Shift(s, d, intro);
      && t.players == s.players && t.phase == s.phase && t.nightStep == s.nightStep
      && t.settings == s.settings && t.day == s.day
      && t.representative == s.representative && t.killTarget == s.killTarget && t.healTarget == s.healTarget
      && t.policeChecked == s.policeChecked && t.history == s.history
  {
  }

  lemma KillShifts(s: State, sender: PlayerId, target: PlayerId, d: nat, intro: bool)
    ensures SubmitKillRule(Shift(s, d, intro), sender, target)
         == ShiftOutcome(SubmitKillRule(s, sender, target), d, intro)
  {
    hide RoleOf, ShiftAll, LifeErrors, RoleError, Shift, ShiftOutcome;
    RejectionShifts(s, d, intro);
    ShiftKeepsNight(s, d, intro);
    TargetShifts(s, sender, target, d, intro);
  }

  lemma TargetShifts(s: State, sender: PlayerId, target: PlayerId, d: nat, intro: bool)
    ensures
      var events := [Envelope(TargetSelected(sender, target), LivingMafia)];
      Done(Shift(s, d, intro).(killTarget := Some(target)), events)
      == ShiftOutcome(Done(s.(killTarget := Some(target)), events), d, intro)
  {
    hide ShiftAll;
    ShiftOne(Envelope(TargetSelected(sender, target), LivingMafia), d);
  }

  lemma HealShifts(s: State, sender: PlayerId, target: PlayerId, d: nat, intro: bool)
    ensures SubmitHealRule(Shift(s, d, intro), sender, target)
         == ShiftOutcome(SubmitHealRule(s, sender, target), d, intro)
  {
    hide Has, IsAlive, RoleOf, ShiftAll, LifeErrors, RoleError;
    ShiftNone(d);
  }

  lemma CheckShifts(s: State, sender: PlayerId, target: PlayerId, d: nat, intro: bool)
    ensures SubmitCheckRule(Shift(s, d, intro), sender, target)
         == ShiftOutcome(SubmitCheckRule(s, sender, target), d, intro)
  {
    hide Has, IsAlive, RoleOf, ShiftAll, LifeErrors, RoleError;
    ShiftNone(d);
    ShiftOne(Envelope(PoliceResult(sender, target, TeamOf(RoleOf(s.players, target))), Only(sender)), d);
  }

  lemma PauseShifts(s: State, host: PlayerId, env: Env, d: nat, intro: bool)
    requires ZERO_TIME < env.now
    ensures Pause(Shift(s, d, intro), host, ShiftEnv(env, d)) == ShiftOutcome(Pause(s, host, env), d, intro)
  {
    hide ShiftAll;
    ShiftNone(d);
    ShiftOne(Pub(GamePaused(s.phase)), d);
  }

  lemma ResumedShifts(s: State, now: Time, d: nat, intro: bool)
    requires s.paused && (s.phase.Intro? ==> intro)
    requires ZERO_TIME <= s.deadline && ZERO_TIME <= s.stepDeadline && ZERO_TIME < s.pausedAt
    ensures Resumed(Shift(s, d, intro), now + d) == Shift(Resumed(s, now), d, intro)
    ensures MovedBy(ActiveDeadline(Resumed(s, now)), d) == ActiveDeadline(Resumed(Shift(s, d, intro), now + d))
  {
  }

  lemma ResumeShifts(s: State, host: PlayerId, env: Env, d: nat, intro: bool)
    requires s.phase.Intro? ==> intro
    requires ZERO_TIME <= s.deadline && ZERO_TIME <= s.stepDeadline && (s.paused ==> ZERO_TIME < s.pausedAt)
    ensures Resume(Shift(s, d, intro), host, ShiftEnv(env, d)) == ShiftOutcome(Resume(s, host, env), d, intro)
  {
    hide Resumed, ActiveDeadline, ShiftAll;
    ShiftNone(d);
    if s.paused {
      ResumedShifts(s, env.now, d, intro);
      ShiftOne(Pub(GameResumed(s.phase, ActiveDeadline(Resumed(s, env.now)))), d);
    }
  }

  lemma VoiceShifts(s: State, host: PlayerId, on: bool, d: nat, intro: bool)
    ensures Voice(Shift(s, d, intro), host, on) == ShiftOutcome(Voice(s, host, on), d, intro)
  {
    hide ShiftAll;
    ShiftNone(d);
    ShiftOne(Pub(VoiceToggled(on)), d);
  }

  lemma ForceEndShifts(s: State, host: PlayerId, d: nat, intro: bool)
    ensures ForceEnd(Shift(s, d, intro), host) == ShiftOutcome(ForceEnd(s, host), d, intro)
  {
    hide ShiftAll;
    ShiftNone(d);
    ShiftOne(Pub(GameEnded(None, HostForceEnd, s.players)), d);
  }

  lemma EndDiscussionShifts(s: State, host: PlayerId, env: Env, d: nat, intro: bool)
    ensures EndDiscussionRule(Shift(s, d, intro), host, ShiftEnv(env, d))
         == ShiftOutcome(EndDiscussionRule(s, host, env), d, intro)
  {
    hide ShiftAll, DayToVote;
    ShiftNone(d);
    DayToVoteShifts(s, env.now, d, intro);
  }

  lemma IntroActionsShift(s: State, id: PlayerId, env: Env, d: nat, intro: bool)
    requires Indexable(s) && ZERO_TIME < env.now && s.settings.discussionSeconds > 0 && (s.phase.Intro? ==> intro)
    ensures Advance(Shift(s, d, intro), id, ShiftEnv(env, d)) == ShiftOutcome(Advance(s, id, env), d, intro)
    ensures FinishSelf(Shift(s, d, intro), id, ShiftEnv(env, d)) == ShiftOutcome(FinishSelf(s, id, env), d, intro)
  {
    hide NextSpeaker, ShiftAll;
    ShiftNone(d);
    if s.phase.Intro? {
      NextSpeakerShifts(s, env.now, d);
    }
  }

  lemma EndNightShifts(s: State, host: PlayerId, env: Env, d: nat, intro: bool)
    requires SaneEnv(env) && s.settings.discussionSeconds > 0
    ensures EndNightRule(Shift(s, d, intro), host, ShiftEnv(env, d))
         == ShiftOutcome(EndNightRule(s, host, env), d, intro)
  {
    hide ShiftAll, ResolveNight;
    ShiftNone(d);
    ResolveShifts(s, env, d, intro);
  }

  lemma ShiftReady(s: State, d: nat, intro: bool)
    requires Inv(s)
    ensures Indexable(s) && !s.phase.Lobby? && s.settings.discussionSeconds > 0
    ensures !s.phase.End? ==>
      ZERO_TIME <= s.deadline && ZERO_TIME <= s.stepDeadline && (s.paused ==> ZERO_TIME < s.pausedAt)
    ensures Shift(s, d, intro).phase == s.phase && Shift(s, d, intro).speakerIdx == s.speakerIdx
  {
    hide People, Records, ProperIds;
  }

  /** Every action, accepted or rejected, commutes with moving time. */
  lemma ApplyShifts(s: State, a: Action, env: Env, d: nat, intro: bool)
    requires Inv(s) && SaneEnv(env) && (s.phase.Intro? ==> intro)
    ensures Apply(Shift(s, d, intro), a, ShiftEnv(env, d)) == ShiftOutcome(Apply(s, a, env), d, intro)
  {
    hide Inv, Shift, ShiftOutcome;
    hide Advance, FinishSelf, SubmitKillRule, SubmitHealRule, SubmitCheckRule, CastVote, Voice, ForceEnd, Pause, Resume;
    hide EndDiscussionRule, EndNightRule, StartFromLobby;
    ShiftReady(s, d, intro);
    RejectionShifts(s, d, intro);
    if s.phase.End? {
      return;
    }
    match a {
      case StartGame(host, o) =>
        NoSecondStart(s, host, o, env);
        NoSecondStart(Shift(s, d, intro), host, o, ShiftEnv(env, d));
      case AdvanceIntro(host) => IntroActionsShift(s, host, env, d, intro);
      case EndSelfIntro(sender) => IntroActionsShift(s, sender, env, d, intro);
      case SubmitKill(sender, target) => KillShifts(s, sender, target, d, intro);
      case SubmitHeal(sender, target) => HealShifts(s, sender, target, d, intro);
      case SubmitCheck(sender, target) => CheckShifts(s, sender, target, d, intro);
      case EndNightEarly(host) => EndNightShifts(s, host, env, d, intro);
      case EndDiscussionEarly(host) => EndDiscussionShifts(s, host, env, d, intro);
      case SubmitVote(sender, target) => VoteShifts(s, sender, target, env, d, intro);
      case ToggleVoice(host, on) => VoiceShifts(s, host, on, d, intro);
      case ForceEndGame(host) => ForceEndShifts(s, host, d, intro);
      case PauseGame(host) => PauseShifts(s, host, env, d, intro);
      case ResumeGame(host) => ResumeShifts(s, host, env, d, intro);
    }
  }

  // ---------------------------------------------------------------- ticks

  lemma {:induction false} TurnsShift(idx: int, start: Time, per: int, now: Time, n: nat, d: nat)
    ensures Turns(idx, start + d, per, now + d, n) == Turns(idx, start, per, now, n)
    decreases n - idx
  {
    if idx < n - 1 && now - start >= per {
      TurnsShift(idx + 1, start + per, per, now, n, d);
    }
  }

  lemma {:induction false} SpeakerEventsShift(ps: seq<Player>, i: nat, k: nat, secs: int, d: nat)
    requires k == 0 || i + k < |ps|
    ensures ShiftAll(SpeakerEvents(ps, i, k, secs), d) == SpeakerEvents(ps, i, k, secs)
  {
    if k > 0 {
      SpeakerEventsShift(ps, i, k - 1, secs, d);
    }
  }

  lemma SpeakerShifts(s: State, i: int, start: Time, d: nat)
    ensures Shift(s, d, true).(speakerIdx := i, speakerStartedAt := start + d)
         == Shift(s.(speakerIdx := i, speakerStartedAt := start), d, true)
  {
  }

  lemma ShiftKeepsIntro(s: State, d: nat)
    ensures
      var t := Shift(s, d, true);
      && t.players == s.players && t.settings == s.settings && t.speakerIdx == s.speakerIdx
      && t.speakerStartedAt == s.speakerStartedAt + d
  {
  }

  lemma TickIntroShifts(s: State, now: Time, d: nat)
    requires 0 <= s.speakerIdx && ZERO_TIME < now && s.settings.discussionSeconds > 0
    ensures TickIntro(Shift(s, d, true), now + d) == ShiftOutcome(TickIntro(s, now), d, true)
  {
    hide Turns, SpeakerEvents, ShiftAll, IntroToDay, TurnsTime, Shift;
    var per := Seconds(s.settings.introSeconds);
    var k := Turns(s.speakerIdx, s.speakerStartedAt, per, now, |s.players|);
    TurnsBound(s.speakerIdx, s.speakerStartedAt, per, now, |s.players|);
    TurnsShift(s.speakerIdx, s.speakerStartedAt, per, now, |s.players|, d);
    SpeakerEventsShift(s.players, s.speakerIdx, k, s.settings.introSeconds, d);
    var start := s.speakerStartedAt + TurnsTime(k, per);
    var s1 := s.(speakerIdx := s.speakerIdx + k, speakerStartedAt := start);
    ShiftKeepsIntro(s, d);
    SpeakerShifts(s, s.speakerIdx + k, start, d);
    IntroToDayShifts(s1, now, d, true);
    ShiftConcat(SpeakerEvents(s.players, s.speakerIdx, k, s.settings.introSeconds), IntroToDay(s1, now).events, d);
  }

  lemma {:induction false} CrossedShifts(ths: seq<int>, deadline: Time, prev: Time, now: Time, d: nat)
    ensures Crossed(ths, deadline + d, prev + d, now + d) == Crossed(ths, deadline, prev, now)
    ensures ShiftAll(Crossed(ths, deadline, prev, now), d) == Crossed(ths, deadline, prev, now)
  {
    if ths != [] {
      CrossedShifts(ths[..|ths| - 1], deadline, prev, now, d);
    }
  }

  lemma TickDayShifts(s: State, now: Time, prev: Time, d: nat, intro: bool)
    requires ZERO_TIME < s.deadline
    ensures TickDay(Shift(s, d, intro), now + d, prev + d) == ShiftOutcome(TickDay(s, now, prev), d, intro)
  {
    hide Crossed, DayToVote, ShiftAll;
    CrossedShifts(THRESHOLDS, s.deadline, prev, now, d);
    DayToVoteShifts(s, now, d, intro);
    ShiftConcat(Crossed(THRESHOLDS, s.deadline, prev, now), DayToVote(s, now).events, d);
  }

  lemma {:induction false} TickNightShifts(s: State, now: Time, env: Env, d: nat, intro: bool)
    requires InStep(s) && SaneEnv(env) && s.settings.discussionSeconds > 0
    ensures TickNight(Shift(s, d, intro), now + d, ShiftEnv(env, d)) == ShiftOutcome(TickNight(s, now, env), d, intro)
    decreases StepsLeft(s.nightStep)
  {
    hide ResolveNight, BeginStep, ShiftAll, Prefixed;
    ShiftNone(d);
    if now >= s.stepDeadline {
      if NextStep(s.nightStep).StepResolved? {
        ResolveShifts(s.(nightStep := NoStep, stepDeadline := ZERO_TIME), env, d, intro);
      } else {
        var c := BeginStep(s, NextStep(s.nightStep), s.stepDeadline);
        BeginShifts(s, NextStep(s.nightStep), s.stepDeadline, d, intro);
        StepStarts(s);
        TickNightShifts(c.state, now, env, d, intro);
        PrefixedShifts(c.events, TickNight(c.state, now, env), d, intro);
      }
    }
  }

  lemma StepStarts(s: State)
    requires InStep(s) && !NextStep(s.nightStep).StepResolved?
    ensures
      var t := BeginStep(s, NextStep(s.nightStep), s.stepDeadline).state;
      InStep(t) && t.settings == s.settings && StepsLeft(t.nightStep) < StepsLeft(s.nightStep)
  {
  }

  lemma PrefixedShifts(pre: seq<Envelope>, o: Outcome, d: nat, intro: bool)
    ensures Prefixed(ShiftAll(pre, d), ShiftOutcome(o, d, intro)) == ShiftOutcome(Prefixed(pre, o), d, intro)
  {
    hide Shift;
    ShiftConcat(pre, o.events, d);
  }

  lemma FiringShifts(s: State, now: Time, d: nat, intro: bool)
    requires s.pendingEnd.Some?
    ensures FirePendingEnd(Shift(s, d, intro), now + d) == ShiftOutcome(FirePendingEnd(s, now), d, intro)
  {
    hide ShiftAll;
    ShiftNone(d);
    ShiftOne(Pub(GameEnded(s.pendingEnd.value.winner, s.pendingEnd.value.reason, s.players)), d);
  }

  /** Every tick commutes with moving time. */
  lemma TickShifts(s: State, now: Time, env: Env, d: nat, intro: bool)
    requires Inv(s) && SaneEnv(env) && (s.phase.Intro? ==> intro)
    ensures Tick(Shift(s, d, intro), now + d, ShiftEnv(env, d)) == ShiftOutcome(Tick(s, now, env), d, intro)
  {
    hide People, Records, ProperIds, TickIntro, TickDay, TickNight, FirePendingEnd, ShiftAll;
    ShiftNone(d);
    if s.paused || now <= s.lastTickAt {
      return;
    }
    if s.pendingEnd.Some? && now >= s.pendingEnd.value.deadline {
      FiringShifts(s, now, d, intro);
      return;
    }
    var s1 := s.(lastTickAt := now);
    assert Shift(s1, d, intro) == Shift(s, d, intro).(lastTickAt := now + d);
    match s.phase {
      case Intro => TickIntroShifts(s1, now, d);
      case Day => TickDayShifts(s1, now, s.lastTickAt, d, intro);
      case Night => TickNightShifts(s1, now, env, d, intro);
      case _ =>
    }
  }

  // ---------------------------------------------------------------- runs

  function ShiftStep(st: Step, d: nat): Step {
    match st
    case Submit(a, env) => Submit(a, ShiftEnv(env, d))
    case Clock(now, env) => Clock(now + d, ShiftEnv(env, d))
  }

  function ShiftSteps(steps: seq<Step>, d: nat): (r: seq<Step>)
    ensures |r| == |steps| && forall i :: 0 <= i < |steps| ==> r[i] == ShiftStep(steps[i], d)
  {
    seq(|steps|, i requires 0 <= i < |steps| => ShiftStep(steps[i], d))
  }

  lemma ShiftKeepsInv(s: State, d: nat, intro: bool)
    requires Inv(s)
    ensures Inv(Shift(s, d, intro))
  {
    hide ProperIds, TrueHistory, OpenBallot, RightRepresentative, Balanced, LiveTargets;
  }

  lemma StepShifts(s: State, st: Step, d: nat, intro: bool)
    requires Inv(s) && SaneEnv(st.env) && (s.phase.Intro? ==> intro)
    ensures Inv(Shift(s, d, intro)) && SaneEnv(ShiftStep(st, d).env)
    ensures Exec(Shift(s, d, intro), ShiftStep(st, d)) == ShiftOutcome(Exec(s, st), d, intro)
  {
    hide Apply, Tick;
    ShiftKeepsInv(s, d, intro);
    match st {
      case Submit(a, env) => ApplyShifts(s, a, env, d, intro);
      case Clock(now, env) => TickShifts(s, now, env, d, intro);
    }
  }

  /**
   Time translation. Running the shifted steps from the shifted state gives the shifted
   final state and the shifted events of the original run, for every run.
   */
  lemma {:induction false} RunsShift(s: State, steps: seq<Step>, d: nat, intro: bool)
    requires Inv(s) && Sane(steps) && (s.phase.Intro? ==> intro)
    ensures Inv(Shift(s, d, intro)) && Sane(ShiftSteps(steps, d))
    ensures After(Shift(s, d, intro), ShiftSteps(steps, d)) == Shift(After(s, steps), d, intro)
    ensures Trace(Shift(s, d, intro), ShiftSteps(steps, d)) == ShiftAll(Trace(s, steps), d)
  {
    hide Inv, Exec, Shift, ShiftAll;
    ShiftKeepsInv(s, d, intro);
    ShiftNone(d);
    assert Sane(ShiftSteps(steps, d));
    if steps != [] {
      var front, st := steps[..|steps| - 1], steps[|steps| - 1];
      RunsShift(s, front, d, intro);
      assert ShiftSteps(steps, d)[..|steps| - 1] == ShiftSteps(front, d);
      IntroStaysBehind(s, front);
      StepShifts(After(s, front), st, d, intro);
      InvIndexable(After(s, front));
      ShiftConcat(Trace(s, front), Exec(After(s, front), st).events, d);
    }
  }

  lemma {:induction false} IntroStaysBehind(s: State, steps: seq<Step>)
    requires Inv(s) && Sane(steps)
    ensures After(s, steps).phase.Intro? ==> s.phase.Intro?
  {
    hide Inv, Exec;
    if steps != [] {
      var front, st := steps[..|steps| - 1], steps[|steps| - 1];
      IntroStaysBehind(s, front);
      StepKeeps(After(s, front), st);
    }
  }
}
