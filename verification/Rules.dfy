/**
 The transition rules of the engine as functions of the state: what one accepted
 or rejected action does, and what one tick does. The engine class computes
 exactly these; the theorems are about them.
 */
module Rules {
  import opened GameTypes
  import opened Roster
  import opened Ballots
  import opened Dealing

  /** The one index the engine uses unchecked is the seat after the current speaker's. */
  predicate Indexable(s: State) { s.phase.Intro? ==> -1 <= s.speakerIdx }

  /** Whether an action stays clear of a bad index; only the host's advance would panic on one. */
  predicate Acceptable(s: State, a: Action) { Indexable(s) || !a.AdvanceIntro? || a.host != s.hostId }

  /** Whether a tick does: one that moves no speaker on never uses the index. */
  predicate Tickable(s: State, now: Time) {
    || Indexable(s) || s.paused || now <= s.lastTickAt
    || (s.pendingEnd.Some? && now >= s.pendingEnd.value.deadline)
    || now - s.speakerStartedAt < Seconds(s.settings.introSeconds)
  }

  // ---------------------------------------------------------------- guards

  function RoleError(ps: seq<Player>, sender: PlayerId, role: Role): Option<ErrorCode> {
    if !Has(ps, sender) then Some(UnknownPlayer)
    else if RoleOf(ps, sender) != role then Some(RoleMismatch)
    else None
  }

  function LifeError(ps: seq<Player>, id: PlayerId): Option<ErrorCode> {
    if !Has(ps, id) then Some(UnknownPlayer)
    else if !IsAlive(ps, id) then Some(DeadPlayer)
    else None
  }

  /** The first error among the IDs, in order. */
  function LifeErrors(ps: seq<Player>, a: PlayerId, b: PlayerId): Option<ErrorCode> {
    if LifeError(ps, a).Some? then LifeError(ps, a) else LifeError(ps, b)
  }

  // ---------------------------------------------------------------- game end

  /** Which side has won, if any, by counting the living. */
  function EvaluateEnd(s: State): Option<Verdict> {
    if s.phase.End? then None
    else if LiveMafia(s.players) == 0 then Some(Verdict(CitizenWin, CitizenTeam))
    else if LiveMafia(s.players) >= LiveCitizens(s.players) then Some(Verdict(MafiaWin, MafiaTeam))
    else None
  }

  /** Defers a decided end by the result buffer; an end already pending stands. */
  function ScheduleEnd(s: State, now: Time): State {
    match EvaluateEnd(s)
    case None => s
    case Some(v) =>
      if s.pendingEnd.Some? then s
      else s.(pendingEnd := Some(PendingEnd(v.reason, Some(v.winner), now + Seconds(RESULT_BUFFER_SECONDS))))
  }

  function EndGame(s: State, reason: EndReason, winner: Option<Team>): Change {
    Change(s.(phase := End, endReason := Some(reason), winner := winner),
           [Pub(GameEnded(winner, reason, s.players))])
  }

  function FirePendingEnd(s: State, now: Time): Outcome
    requires s.pendingEnd.Some?
  {
    var pe := s.pendingEnd.value;
    var s1 := s.(pendingEnd := None, lastTickAt := now);
    if pe.winner.None? then Rejected(s1, Validation)
    else
      var c := EndGame(s1, pe.reason, pe.winner);
      Outcome(c.state, s1, c.events, None)
  }

  // ---------------------------------------------------------------- night

  function StepSeconds(o: Options, step: NightStep): int {
    match step
    case StepIntro => NIGHT_INTRO_SECONDS
    case StepMafia => if o.mafiaSeconds <= 0 then 30 else o.mafiaSeconds
    case StepPolice => if o.policeSeconds <= 0 then 10 else o.policeSeconds
    case StepDoctor => if o.doctorSeconds <= 0 then 10 else o.doctorSeconds
    case _ => 0
  }

  function NextStep(step: NightStep): NightStep {
    match step
    case StepIntro => StepMafia
    case StepMafia => StepPolice
    case StepPolice => StepDoctor
    case _ => StepResolved
  }

  function StepsLeft(step: NightStep): nat {
    match step
    case StepIntro => 4
    case StepMafia => 3
    case StepPolice => 2
    case StepDoctor => 1
    case _ => 0
  }

  function BeginStep(s: State, step: NightStep, at: Time): Change {
    var deadline := at + Seconds(StepSeconds(s.settings, step));
    Change(s.(nightStep := step, stepDeadline := deadline), [Pub(NightStepChanged(step, s.day, deadline))])
  }

  function ClearNight(s: State): State {
    s.(killTarget := None, healTarget := None, checkTarget := None, policeChecked := false,
       nightStep := NoStep, stepDeadline := ZERO_TIME)
  }

  function EnterNight(s: State, now: Time): Change {
    var s1 := ClearNight(s).(phase := Night, deadline := ZERO_TIME, votes := map[], voteRound := 0,
                             candidates := [], lastTickAt := now);
    var c := BeginStep(s1, StepIntro, now);
    Change(c.state, [Pub(PhaseChanged(Night, s.day, ZERO_TIME))] + c.events)
  }

  /** The drawn one of the living mafia, or the first when no seed could be read. */
  function Drawn(living: seq<PlayerId>, pick: Option<nat>): PlayerId
    requires living != []
  {
    if pick.None? then living[0] else living[pick.value % |living|]
  }

  /** Draws a new representative from the living mafia, if any is left. */
  function Reassign(s: State, oldId: PlayerId, pick: Option<nat>): Change {
    var living := MafiaIds(s.players);
    if living == [] then Change(s.(representative := NOBODY), [])
    else
      var newId := Drawn(living, pick);
      Change(s.(representative := newId), [Envelope(RepresentativeReassigned(oldId, newId), LivingMafia)])
  }

  /** A known player dies; a dead representative is replaced. */
  function Bury(s: State, id: PlayerId, pick: Option<nat>): Change {
    var s1 := s.(players := Kill(s.players, id));
    if id == s.representative then Reassign(s1, id, pick) else Change(s1, [])
  }

  lemma BuryKeepsDay(s: State, id: PlayerId, pick: Option<nat>)
    ensures Bury(s, id, pick).state.day == s.day && Bury(s, id, pick).state.settings == s.settings
  {
  }

  /** The kill target, unless the doctor protects it. */
  function Victim(s: State): Option<PlayerId> {
    if s.killTarget.Some? && s.healTarget != s.killTarget then s.killTarget else None
  }

  function ResolveNight(s: State, env: Env): Outcome {
    var victim := Victim(s);
    if victim.Some? && !Has(s.players, victim.value) then Rejected(s, UnknownPlayer)
    else
      var burial := if victim.Some? then Bury(s, victim.value, env.pick) else Change(s, []);
      var summary := if victim.Some? then DeathAnnounced(victim.value) else PeacefulNight;
      var deadline := env.now + Seconds(DAY_INTRO_SECONDS + s.settings.discussionSeconds);
      var s1 := ClearNight(burial.state).(day := s.day + 1, phase := Day, deadline := deadline, lastTickAt := env.now);
      Done(ScheduleEnd(s1, env.later),
           [Pub(PhaseChanged(Day, s.day + 1, deadline)), Pub(summary)] + burial.events)
  }

  // ---------------------------------------------------------------- intro and day

  function IntroToDay(s: State, now: Time): Change {
    var deadline := now + Seconds(s.settings.discussionSeconds);
    Change(s.(phase := Day, deadline := deadline, killTarget := None, healTarget := None, checkTarget := None,
              policeChecked := false, nightStep := NoStep, lastTickAt := now),
           [Pub(PhaseChanged(Day, s.day, deadline))])
  }

  function DayToVote(s: State, now: Time): Change {
    Change(s.(phase := Vote, deadline := ZERO_TIME, votes := map[], voteRound := 1, candidates := [],
              lastTickAt := now),
           [Pub(PhaseChanged(Vote, s.day, ZERO_TIME))])
  }

  /** Moves on to the next speaker, or to DAY after the last one. */
  function NextSpeaker(s: State, now: Time): Outcome
    requires -1 <= s.speakerIdx
  {
    if s.speakerIdx < |s.players| - 1 then
      var i := s.speakerIdx + 1;
      Done(s.(speakerIdx := i, speakerStartedAt := now),
           [Pub(SpeakerChanged(s.players[i].id, s.settings.introSeconds))])
    else
      var c := IntroToDay(s, now);
      Done(c.state, c.events)
  }

  // ---------------------------------------------------------------- vote

  function Eliminate(s: State, id: PlayerId, env: Env): Change {
    if !Has(s.players, id) then Change(s, [])
    else
      var burial := Bury(s, id, env.pick);
      var events := [Pub(Eliminated(id, RoleOf(s.players, id)))] + burial.events;
      if EvaluateEnd(burial.state).Some? then Change(ScheduleEnd(burial.state, env.now), events)
      else
        var c := EnterNight(burial.state, env.now);
        Change(c.state, events + c.events)
  }

  /** A single leader is eliminated; a first tie is voted again; otherwise nobody goes. */
  function Tally(s: State, env: Env): Change {
    var counts := Counts(s.votes);
    var top := Top(s.players, counts);
    if |top| == 1 then
      var c := Eliminate(s, top[0], env);
      Change(c.state, [Pub(VoteTallied(counts, Some(top[0]), false))] + c.events)
    else if |top| > 1 && s.voteRound == 1 then
      Change(s.(phase := Recount, voteRound := 2, candidates := top, votes := map[]),
             [Pub(VoteTallied(counts, None, true)), Pub(PhaseChanged(Recount, s.day, ZERO_TIME))])
    else
      var c := EnterNight(s, env.now);
      Change(c.state, [Pub(VoteTallied(counts, None, false))] + c.events)
  }

  // ---------------------------------------------------------------- actions

  /** A player's secret, for that player alone. */
  function Revelation(p: Player): Envelope { Envelope(RoleRevealed(p.id, p.role, p.keyword), Only(p.id)) }

  function Opening(s: State, a: Assignment): seq<Envelope>
    requires s.players != []
  {
    [Pub(GameStarted(s))]
    + seq(|s.players|, i requires 0 <= i < |s.players| => Revelation(s.players[i]))
    + (if a.mafiaIds == [] then [] else [Envelope(CohortRevealed(a.mafiaIds, a.rep), LivingMafia)])
    + [Pub(PhaseChanged(Intro, 1, ZERO_TIME)), Pub(SpeakerChanged(s.players[0].id, s.settings.introSeconds))]
  }

  function Start(s: State, gameId: string, host: PlayerId, roster: seq<Player>, o: Options, env: Env): Outcome {
    if !s.phase.NoPhase? && !s.phase.Lobby? then Rejected(s, WrongPhase)
    else if |roster| < 6 || |roster| > 12 then Rejected(s, Validation)
    else if host != NOBODY && !Has(roster, host) then Rejected(s, PermissionDenied)
    else if !env.deal.seeded then Rejected(s, Validation)
    else match Assign(Ids(roster), o, env.deal)
      case None => Rejected(s, Validation)
      case Some(a) =>
        var s1 := ZERO_STATE.(gameId := gameId, phase := Intro, day := 1, players := Seat(roster, a), hostId := host,
                              settings := o, startedAt := env.now, speakerIdx := 0, speakerStartedAt := env.now,
                              representative := a.rep, lastTickAt := env.now);
        Done(s1, Opening(s1, a))
  }

  function StartFromLobby(s: State, host: PlayerId, o: Options, env: Env): Outcome {
    if !s.phase.Lobby? then Rejected(s, WrongPhase)
    else if host != s.hostId then Rejected(s, PermissionDenied)
    else if !env.deal.seeded then Rejected(s, Validation)
    else match Assign(Ids(s.players), o, env.deal)
      case None => Rejected(s, Validation)
      case Some(a) =>
        var s1 := s.(players := Seat(s.players, a), settings := o, phase := Intro, day := 1, speakerIdx := 0,
                     speakerStartedAt := env.now, startedAt := env.now, representative := a.rep, lastTickAt := env.now);
        Done(s1, Opening(s1, a))
  }

  lemma NoSecondStart(s: State, host: PlayerId, o: Options, env: Env)
    ensures !s.phase.Lobby? ==> StartFromLobby(s, host, o, env) == Rejected(s, WrongPhase)
  {
  }

  function Advance(s: State, host: PlayerId, env: Env): Outcome
    requires Indexable(s) || host != s.hostId
  {
    if !s.phase.Intro? then Rejected(s, WrongPhase)
    else if host != s.hostId then Rejected(s, PermissionDenied)
    else NextSpeaker(s, env.now)
  }

  function FinishSelf(s: State, sender: PlayerId, env: Env): Outcome {
    if !s.phase.Intro? then Rejected(s, WrongPhase)
    else if s.speakerIdx < 0 || s.speakerIdx >= |s.players| then Rejected(s, Validation)
    else if sender != s.players[s.speakerIdx].id then Rejected(s, PermissionDenied)
    else NextSpeaker(s, env.now)
  }

  function SubmitKillRule(s: State, sender: PlayerId, target: PlayerId): Outcome {
    if !s.phase.Night? || !s.nightStep.StepMafia? then Rejected(s, WrongPhase)
    else if RoleError(s.players, sender, Mafia).Some? then Rejected(s, RoleError(s.players, sender, Mafia).value)
    else if LifeErrors(s.players, sender, target).Some? then Rejected(s, LifeErrors(s.players, sender, target).value)
    else if sender != s.representative then Rejected(s, NotRepresentative)
    else if s.killTarget.Some? then Rejected(s, AlreadyDone)
    else if RoleOf(s.players, target).Mafia? then Rejected(s, InvalidTarget)
    else Done(s.(killTarget := Some(target)), [Envelope(TargetSelected(sender, target), LivingMafia)])
  }

  function SubmitHealRule(s: State, sender: PlayerId, target: PlayerId): Outcome {
    if !s.phase.Night? || !s.nightStep.StepDoctor? then Rejected(s, WrongPhase)
    else if RoleError(s.players, sender, Doctor).Some? then Rejected(s, RoleError(s.players, sender, Doctor).value)
    else if LifeErrors(s.players, sender, target).Some? then Rejected(s, LifeErrors(s.players, sender, target).value)
    else if sender == target && !s.settings.selfHeal then Rejected(s, InvalidTarget)
    else if s.healTarget.Some? then Rejected(s, AlreadyDone)
    else Done(s.(healTarget := Some(target)), [])
  }

  function SubmitCheckRule(s: State, sender: PlayerId, target: PlayerId): Outcome {
    if !s.phase.Night? || !s.nightStep.StepPolice? then Rejected(s, WrongPhase)
    else if RoleError(s.players, sender, Police).Some? then Rejected(s, RoleError(s.players, sender, Police).value)
    else if LifeErrors(s.players, sender, target).Some? then Rejected(s, LifeErrors(s.players, sender, target).value)
    else if sender == target then Rejected(s, InvalidTarget)
    else if s.policeChecked then Rejected(s, AlreadyDone)
    else
      var team := TeamOf(RoleOf(s.players, target));
      Done(s.(checkTarget := Some(target), policeChecked := true,
              history := s.history + [PoliceRecord(s.day, target, team)]),
           [Envelope(PoliceResult(sender, target, team), Only(sender))])
  }

  function EndNightRule(s: State, host: PlayerId, env: Env): Outcome {
    if !s.phase.Night? then Rejected(s, WrongPhase)
    else if host != s.hostId then Rejected(s, PermissionDenied)
    else ResolveNight(s, env)
  }

  function EndDiscussionRule(s: State, host: PlayerId, env: Env): Outcome {
    if !s.phase.Day? then Rejected(s, WrongPhase)
    else if host != s.hostId then Rejected(s, PermissionDenied)
    else
      var c := DayToVote(s, env.now);
      Done(c.state, c.events)
  }

  function BallotError(s: State, sender: PlayerId, target: PlayerId): Option<ErrorCode> {
    if !s.phase.Vote? && !s.phase.Recount? then Some(WrongPhase)
    else if target == NOBODY then LifeError(s.players, sender)
    else if LifeErrors(s.players, sender, target).Some? then LifeErrors(s.players, sender, target)
    else if s.phase.Recount? && target !in s.candidates then Some(InvalidTarget)
    else None
  }

  function CastVote(s: State, sender: PlayerId, target: PlayerId, env: Env): Outcome {
    if BallotError(s, sender, target).Some? then Rejected(s, BallotError(s, sender, target).value)
    else
      var s1 := s.(votes := s.votes[sender := target]);
      if |s1.votes| >= Live(s1.players) then
        var c := Tally(s1, env);
        Done(c.state, c.events)
      else Done(s1, [])
  }

  function Voice(s: State, host: PlayerId, on: bool): Outcome {
    if host != s.hostId then Rejected(s, PermissionDenied)
    else Done(s.(settings := s.settings.(voiceOn := on)), [Pub(VoiceToggled(on))])
  }

  function ForceEnd(s: State, host: PlayerId): Outcome {
    if host != s.hostId then Rejected(s, PermissionDenied)
    else if s.phase.End? then Rejected(s, WrongPhase)
    else
      var c := EndGame(s.(pendingEnd := None), HostForceEnd, None);
      Done(c.state, c.events)
  }

  predicate CanPause(p: Phase) { p.Intro? || p.Day? || p.Night? }

  function Pause(s: State, host: PlayerId, env: Env): Outcome {
    if host != s.hostId then Rejected(s, PermissionDenied)
    else if s.pendingEnd.None? && (!CanPause(s.phase) || (s.phase.Night? && s.nightStep.StepIntro?)) then
      Rejected(s, WrongPhase)
    else if s.paused then Done(s, [])
    else Done(s.(paused := true, pausedAt := env.now), [Pub(GamePaused(s.phase))])
  }

  /** The timer a phase runs on; phases without one report the zero instant. */
  function ActiveDeadline(s: State): Time {
    if s.phase.Day? then s.deadline else if s.phase.Night? then s.stepDeadline else ZERO_TIME
  }

  function MovedBy(t: Time, delta: int): Time { if t == ZERO_TIME then t else t + delta }

  /** A resumed game: every running timer is moved by the time spent paused. */
  function Resumed(s: State, now: Time): State {
    var delta := if now < s.pausedAt then 0 else now - s.pausedAt;
    s.(
      speakerStartedAt := if s.phase.Intro? then s.speakerStartedAt + delta else s.speakerStartedAt,
      deadline := if s.phase.Day? then MovedBy(s.deadline, delta) else s.deadline,
      stepDeadline := if s.phase.Night? then MovedBy(s.stepDeadline, delta) else s.stepDeadline,
      pendingEnd := if s.pendingEnd.Some?
                    then Some(s.pendingEnd.value.(deadline := s.pendingEnd.value.deadline + delta)) else None,
      paused := false, pausedAt := ZERO_TIME, lastTickAt := now)
  }

  function Resume(s: State, host: PlayerId, env: Env): Outcome {
    if host != s.hostId then Rejected(s, PermissionDenied)
    else if !s.paused then Done(s, [])
    else
      var t := Resumed(s, env.now);
      Done(t, [Pub(GameResumed(s.phase, ActiveDeadline(t)))])
  }

  function Apply(s: State, a: Action, env: Env): Outcome
    requires Acceptable(s, a)
  {
    if s.phase.End? then Rejected(s, WrongPhase)
    else match a
      case StartGame(host, options) => StartFromLobby(s, host, options, env)
      case AdvanceIntro(host) => Advance(s, host, env)
      case EndSelfIntro(sender) => FinishSelf(s, sender, env)
      case SubmitKill(sender, target) => SubmitKillRule(s, sender, target)
      case SubmitHeal(sender, target) => SubmitHealRule(s, sender, target)
      case SubmitCheck(sender, target) => SubmitCheckRule(s, sender, target)
      case EndNightEarly(host) => EndNightRule(s, host, env)
      case EndDiscussionEarly(host) => EndDiscussionRule(s, host, env)
      case SubmitVote(sender, target) => CastVote(s, sender, target, env)
      case ToggleVoice(host, on) => Voice(s, host, on)
      case ForceEndGame(host) => ForceEnd(s, host)
      case PauseGame(host) => Pause(s, host, env)
      case ResumeGame(host) => Resume(s, host, env)
  }

  // ---------------------------------------------------------------- ticks

  /** How many speakers' turns have run out by `now`, short of the last speaker. */
  function Turns(idx: int, start: Time, per: int, now: Time, n: nat): nat
    decreases n - idx
  {
    if idx >= n - 1 || now - start < per then 0 else 1 + Turns(idx + 1, start + per, per, now, n)
  }

  lemma {:induction false} TurnsBound(idx: int, start: Time, per: int, now: Time, n: nat)
    ensures idx < n ==> idx + Turns(idx, start, per, now, n) < n
    ensures idx >= n - 1 ==> Turns(idx, start, per, now, n) == 0
    decreases n - idx
  {
    if !(idx >= n - 1 || now - start < per) {
      TurnsBound(idx + 1, start + per, per, now, n);
    }
  }

  /** The time `k` turns take. */
  function TurnsTime(k: nat, per: int): Time { k * per }

  lemma OneMoreTurn(k: nat, per: int)
    ensures TurnsTime(k + 1, per) == TurnsTime(k, per) + per
    ensures TurnsTime(0, per) == 0
  {
  }

  /** One event for each of the `k` speakers after seat `i`. */
  function SpeakerEvents(ps: seq<Player>, i: int, k: nat, secs: int): seq<Envelope>
    requires k == 0 || -1 <= i < |ps| - k
  {
    if k == 0 then [] else SpeakerEvents(ps, i, k - 1, secs) + [Pub(SpeakerChanged(ps[i + k].id, secs))]
  }

  function TickIntro(s: State, now: Time): Outcome
    requires -1 <= s.speakerIdx || now - s.speakerStartedAt < Seconds(s.settings.introSeconds)
  {
    var per := Seconds(s.settings.introSeconds);
    var k := Turns(s.speakerIdx, s.speakerStartedAt, per, now, |s.players|);
    TurnsBound(s.speakerIdx, s.speakerStartedAt, per, now, |s.players|);
    var s1 := s.(speakerIdx := s.speakerIdx + k, speakerStartedAt := s.speakerStartedAt + TurnsTime(k, per));
    var events := SpeakerEvents(s.players, s.speakerIdx, k, s.settings.introSeconds);
    if s1.speakerIdx >= |s.players| - 1 && now - s1.speakerStartedAt >= per then
      var c := IntroToDay(s1, now);
      Done(c.state, events + c.events)
    else Done(s1, events)
  }

  const THRESHOLDS: seq<int> := [30, 10, 0]

  /** Whether the instant `th` seconds before the deadline lies in (prev, now]. */
  predicate Crosses(th: int, deadline: Time, prev: Time, now: Time) {
    prev < deadline - Seconds(th) <= now
  }

  function Crossed(ths: seq<int>, deadline: Time, prev: Time, now: Time): seq<Envelope> {
    if ths == [] then []
    else
      var front := Crossed(ths[..|ths| - 1], deadline, prev, now);
      if Crosses(ths[|ths| - 1], deadline, prev, now) then front + [Pub(DiscussionTick(ths[|ths| - 1]))] else front
  }

  function TickDay(s: State, now: Time, prev: Time): Outcome {
    var ticks := Crossed(THRESHOLDS, s.deadline, prev, now);
    if now >= s.deadline then
      var c := DayToVote(s, now);
      Done(c.state, ticks + c.events)
    else Done(s, ticks)
  }

  /** The same outcome with earlier events put in front, unless it failed. */
  function Prefixed(pre: seq<Envelope>, o: Outcome): Outcome {
    if o.error.Some? then o else o.(events := pre + o.events)
  }

  lemma PrefixedTwice(a: seq<Envelope>, b: seq<Envelope>, o: Outcome)
    ensures Prefixed(a, Prefixed(b, o)) == Prefixed(a + b, o)
    ensures Prefixed([], o) == o
  {
    assert a + (b + o.events) == (a + b) + o.events;
    assert [] + o.events == o.events;
  }

  lemma PrefixedDone(pre: seq<Envelope>, s: State)
    ensures Prefixed(pre, Done(s, [])) == Done(s, pre)
  {
    assert pre + [] == pre;
  }

  lemma PrefixedResolution(pre: seq<Envelope>, s: State, env: Env)
    ensures
      var o := ResolveNight(s, env);
      Prefixed(pre, o)
      == if o.error.Some? then Outcome(o.next, o.next, [], o.error) else Outcome(o.next, o.next, pre + o.events, None)
  {
  }

  lemma BeginAdvances(s: State, step: NightStep, at: Time)
    ensures BeginStep(s, step, at).state.nightStep == step
  {
  }

  /** Runs every night step whose deadline has passed, each starting where the last one ended. */
  function TickNight(s: State, now: Time, env: Env): Outcome
    decreases StepsLeft(s.nightStep)
  {
    if s.nightStep.NoStep? || s.stepDeadline == ZERO_TIME || now < s.stepDeadline then Done(s, [])
    else if NextStep(s.nightStep).StepResolved? then
      ResolveNight(s.(nightStep := NoStep, stepDeadline := ZERO_TIME), env)
    else
      var c := BeginStep(s, NextStep(s.nightStep), s.stepDeadline);
      Prefixed(c.events, TickNight(c.state, now, env))
  }

  function Tick(s: State, now: Time, env: Env): Outcome
    requires Tickable(s, now)
  {
    if s.paused || now <= s.lastTickAt then Done(s, [])
    else if s.pendingEnd.Some? && now >= s.pendingEnd.value.deadline then FirePendingEnd(s, now)
    else
      var s1 := s.(lastTickAt := now);
      match s.phase
      case Intro => TickIntro(s1, now)
      case Day => TickDay(s1, now, s.lastTickAt)
      case Night => TickNight(s1, now, env)
      case _ => Done(s1, [])
  }
}
