/**
 Who is told what, and that it is true. Every announcement of every call goes to its
 proper audience: roles to their holders, the cohort, the targets and the representative
 to the living mafia, police results to the police, everything else to everybody. What an
 announcement says about roles is what the table says.
 */
module Secrets {
  import opened GameTypes
  import opened Roster
  import opened Rules
  import opened Invariants
  import opened Runs
  import opened Replica
  import opened Bystanders
  import Ballots

  /** An announcement made while a game is running at this table: its audience, and the truth about roles. */
  ghost predicate Proper(ps: seq<Player>, e: Envelope) {
    match e.event
    case GameStarted(_) => false
    case RoleRevealed(_, _, _) => false
    case CohortRevealed(_, _) => false
    case TargetSelected(x, y) =>
      e.audience == LivingMafia && RoleOf(ps, x).Mafia? && Has(ps, y) && !RoleOf(ps, y).Mafia?
    case RepresentativeReassigned(_, x) => e.audience == LivingMafia && RoleOf(ps, x).Mafia?
    case PoliceResult(x, y, team) =>
      && e.audience == Only(x) && RoleOf(ps, x).Police? && Has(ps, y)
      && (team == MafiaTeam <==> RoleOf(ps, y).Mafia?)
    case Eliminated(x, role) => e.audience == Everyone && Has(ps, x) && role == RoleOf(ps, x)
    case GameEnded(_, _, roster) => e.audience == Everyone && SamePeople(ps, roster)
    case _ => e.audience == Everyone
  }

  ghost predicate AllProper(ps: seq<Player>, es: seq<Envelope>) {
    forall i :: 0 <= i < |es| ==> Proper(ps, es[i])
  }

  lemma ProperConcat(ps: seq<Player>, a: seq<Envelope>, b: seq<Envelope>)
    requires AllProper(ps, a) && AllProper(ps, b)
    ensures AllProper(ps, a + b)
  {
    hide Proper;
  }

  /** An announcement that names no role. */
  predicate Neutral(e: Event) {
    || e.PhaseChanged? || e.SpeakerChanged? || e.NightStepChanged? || e.GamePaused? || e.GameResumed?
    || e.DeathAnnounced? || e.PeacefulNight? || e.DiscussionTick? || e.VoteTallied? || e.VoiceToggled?
  }

  ghost predicate AllNeutral(es: seq<Envelope>) {
    forall i :: 0 <= i < |es| ==> Neutral(es[i].event) && es[i].audience == Everyone
  }

  lemma NeutralIsProper(ps: seq<Player>, es: seq<Envelope>)
    requires AllNeutral(es)
    ensures AllProper(ps, es)
  {
  }

  // ---------------------------------------------------------------- votes and nights

  lemma BurialProper(s: State, id: PlayerId, pick: Option<nat>)
    requires ProperIds(s.players) && RightRepresentative(s.players, s.representative) && Has(s.players, id)
    ensures AllProper(s.players, Bury(s, id, pick).events)
  {
    hide ProperIds, Bury, RightRepresentative, SamePeople, AtMostOneDeath, RoleOf, Has, AllProper;
    BuryFacts(s, id, pick);
    BurialNames(s, id, pick);
    var t := Bury(s, id, pick).state;
    if Bury(s, id, pick).events == [] {
      NothingIsProper(s.players);
    } else {
      LivingIsListed(t.players, t.representative);
      SamePeopleSameIndex(s.players, t.players, t.representative);
      NewNameProper(s.players, id, t.representative);
    }
  }

  lemma NewNameProper(ps: seq<Player>, oldId: PlayerId, newId: PlayerId)
    requires RoleOf(ps, newId).Mafia?
    ensures AllProper(ps, [Envelope(RepresentativeReassigned(oldId, newId), LivingMafia)])
  {
  }

  lemma BurialNames(s: State, id: PlayerId, pick: Option<nat>)
    ensures
      var c := Bury(s, id, pick);
      c.events == [] || (&& c.events == [Envelope(RepresentativeReassigned(id, c.state.representative), LivingMafia)]
                         && MafiaIds(c.state.players) != [])
  {
    hide Drawn, MafiaIds, Kill;
  }

  lemma LivingIsListed(ps: seq<Player>, rep: PlayerId)
    requires RightRepresentative(ps, rep) && MafiaIds(ps) != []
    ensures RoleOf(ps, rep).Mafia?
  {
  }

  lemma EliminationProper(s: State, id: PlayerId, env: Env)
    requires ProperIds(s.players) && RightRepresentative(s.players, s.representative) && Has(s.players, id)
    ensures AllProper(s.players, Eliminate(s, id, env).events)
  {
    hide ProperIds, RightRepresentative, Bury, EvaluateEnd, ScheduleEnd, AllProper, Index;
    var b := Bury(s, id, env.pick);
    var first := [Pub(Eliminated(id, RoleOf(s.players, id)))];
    VotedOutProper(s.players, id);
    BurialProper(s, id, env.pick);
    ProperConcat(s.players, first, b.events);
    NightOpeningProper(s.players, b.state, env.now);
    ProperConcat(s.players, first + b.events, EnterNight(b.state, env.now).events);
  }

  lemma VotedOutProper(ps: seq<Player>, id: PlayerId)
    requires Has(ps, id)
    ensures AllProper(ps, [Pub(Eliminated(id, RoleOf(ps, id)))])
  {
  }

  lemma NightOpeningProper(ps: seq<Player>, s: State, now: Time)
    ensures AllProper(ps, EnterNight(s, now).events)
  {
    NeutralIsProper(ps, EnterNight(s, now).events);
  }

  lemma OneNeutral(ps: seq<Player>, e: Event)
    requires Neutral(e)
    ensures AllProper(ps, [Pub(e)])
  {
    NeutralIsProper(ps, [Pub(e)]);
  }

  lemma TallyProper(s: State, env: Env)
    requires ProperIds(s.players) && RightRepresentative(s.players, s.representative)
    ensures AllProper(s.players, Tally(s, env).events)
  {
    hide ProperIds, RightRepresentative, Ballots.Top, Ballots.Counts, Eliminate, EnterNight, AllProper;
    var counts := Ballots.Counts(s.votes);
    var top := Ballots.Top(s.players, counts);
    if |top| == 1 {
      TopIsSeated(s.players, s.votes);
      EliminationProper(s, top[0], env);
      OneNeutral(s.players, VoteTallied(counts, Some(top[0]), false));
      ProperConcat(s.players, [Pub(VoteTallied(counts, Some(top[0]), false))], Eliminate(s, top[0], env).events);
    } else if |top| > 1 && s.voteRound == 1 {
      NeutralIsProper(s.players, Tally(s, env).events);
    } else {
      NightOpeningProper(s.players, s, env.now);
      OneNeutral(s.players, VoteTallied(counts, None, false));
      ProperConcat(s.players, [Pub(VoteTallied(counts, None, false))], EnterNight(s, env.now).events);
    }
  }

  lemma BallotProper(s: State, sender: PlayerId, target: PlayerId, env: Env)
    requires ProperIds(s.players) && RightRepresentative(s.players, s.representative)
    ensures AllProper(s.players, CastVote(s, sender, target, env).events)
  {
    hide ProperIds, RightRepresentative, Tally, BallotError, Live;
    TallyProper(s.(votes := s.votes[sender := target]), env);
  }

  lemma ResolutionProper(s: State, env: Env)
    requires ProperIds(s.players) && RightRepresentative(s.players, s.representative)
    ensures AllProper(s.players, ResolveNight(s, env).events)
  {
    hide ProperIds, RightRepresentative, Bury, ScheduleEnd, Has, AllProper;
    var v := Victim(s);
    var o := ResolveNight(s, env);
    NothingIsProper(s.players);
    if o.error.None? {
      NeutralIsProper(s.players, o.events[..2]);
      if v.Some? {
        BurialProper(s, v.value, env.pick);
        ProperConcat(s.players, o.events[..2], Bury(s, v.value, env.pick).events);
        assert o.events == o.events[..2] + Bury(s, v.value, env.pick).events;
      } else {
        assert o.events == o.events[..2];
      }
    }
  }

  lemma NothingIsProper(ps: seq<Player>)
    ensures AllProper(ps, [])
  {
  }

  // ---------------------------------------------------------------- every call

  lemma SubmissionProper(s: State, sender: PlayerId, target: PlayerId)
    ensures AllProper(s.players, SubmitKillRule(s, sender, target).events)
    ensures AllProper(s.players, SubmitHealRule(s, sender, target).events)
    ensures AllProper(s.players, SubmitCheckRule(s, sender, target).events)
  {
    hide Index;
  }

  lemma IntroProper(s: State, id: PlayerId, env: Env)
    requires Indexable(s)
    ensures AllProper(s.players, Advance(s, id, env).events) && AllProper(s.players, FinishSelf(s, id, env).events)
  {
    NeutralIsProper(s.players, Advance(s, id, env).events);
    NeutralIsProper(s.players, FinishSelf(s, id, env).events);
  }

  lemma HostProper(s: State, host: PlayerId, on: bool, env: Env)
    ensures AllProper(s.players, EndDiscussionRule(s, host, env).events)
    ensures AllProper(s.players, Voice(s, host, on).events)
    ensures AllProper(s.players, Pause(s, host, env).events) && AllProper(s.players, Resume(s, host, env).events)
  {
    NeutralIsProper(s.players, EndDiscussionRule(s, host, env).events);
    NeutralIsProper(s.players, Voice(s, host, on).events);
    NeutralIsProper(s.players, Pause(s, host, env).events);
    NeutralIsProper(s.players, Resume(s, host, env).events);
  }

  lemma EndingProper(s: State, reason: EndReason, winner: Option<Team>)
    ensures AllProper(s.players, EndGame(s, reason, winner).events)
  {
  }

  lemma PeopleOf(s: State)
    requires Inv(s)
    ensures ProperIds(s.players) && RightRepresentative(s.players, s.representative)
  {
  }

  lemma ActionProper(s: State, a: Action, env: Env)
    requires Inv(s)
    ensures AllProper(s.players, Apply(s, a, env).events)
  {
    hide Inv, ProperIds, RightRepresentative, AllProper, Advance, FinishSelf, SubmitKillRule, SubmitHealRule;
    hide SubmitCheckRule, EndDiscussionRule, CastVote, Voice, Pause, Resume, ResolveNight, EndGame, StartFromLobby;
    InvIndexable(s);
    PeopleOf(s);
    NothingIsProper(s.players);
    match a {
      case StartGame(host, o) => NoSecondStart(s, host, o, env);
      case AdvanceIntro(host) => IntroProper(s, host, env);
      case EndSelfIntro(sender) => IntroProper(s, sender, env);
      case SubmitKill(x, y) => SubmissionProper(s, x, y);
      case SubmitHeal(x, y) => SubmissionProper(s, x, y);
      case SubmitCheck(x, y) => SubmissionProper(s, x, y);
      case EndNightEarly(_) => ResolutionProper(s, env);
      case SubmitVote(x, y) => BallotProper(s, x, y, env);
      case EndDiscussionEarly(host) => HostProper(s, host, false, env);
      case ToggleVoice(host, on) => HostProper(s, host, on, env);
      case PauseGame(host) => HostProper(s, host, false, env);
      case ResumeGame(host) => HostProper(s, host, false, env);
      case ForceEndGame(_) => EndingProper(s.(pendingEnd := None), HostForceEnd, None);
    }
  }

  lemma {:induction false} SpeakersNeutral(ps: seq<Player>, i: int, k: nat, secs: int)
    requires k == 0 || -1 <= i < |ps| - k
    ensures AllNeutral(SpeakerEvents(ps, i, k, secs))
  {
    if k > 0 {
      SpeakersNeutral(ps, i, k - 1, secs);
    }
  }

  lemma IntroTickProper(s: State, now: Time)
    requires -1 <= s.speakerIdx
    ensures AllProper(s.players, TickIntro(s, now).events)
  {
    hide SpeakerEvents, Turns;
    var per := Seconds(s.settings.introSeconds);
    var k := Turns(s.speakerIdx, s.speakerStartedAt, per, now, |s.players|);
    TurnsBound(s.speakerIdx, s.speakerStartedAt, per, now, |s.players|);
    SpeakersNeutral(s.players, s.speakerIdx, k, s.settings.introSeconds);
    NeutralIsProper(s.players, TickIntro(s, now).events);
  }

  lemma {:induction false} CrossedNeutral(ths: seq<int>, deadline: Time, prev: Time, now: Time)
    ensures AllNeutral(Crossed(ths, deadline, prev, now))
  {
    if ths != [] {
      CrossedNeutral(ths[..|ths| - 1], deadline, prev, now);
    }
  }

  lemma DayTickProper(s: State, now: Time, prev: Time)
    ensures AllProper(s.players, TickDay(s, now, prev).events)
  {
    hide Crossed;
    CrossedNeutral(THRESHOLDS, s.deadline, prev, now);
    NeutralIsProper(s.players, TickDay(s, now, prev).events);
  }

  lemma {:induction false} NightTickProper(s: State, now: Time, env: Env)
    requires ProperIds(s.players) && RightRepresentative(s.players, s.representative)
    ensures AllProper(s.players, TickNight(s, now, env).events)
    decreases StepsLeft(s.nightStep)
  {
    hide ProperIds, RightRepresentative, ResolveNight, AllProper;
    NothingIsProper(s.players);
    if !(s.nightStep.NoStep? || s.stepDeadline == ZERO_TIME || now < s.stepDeadline) {
      if NextStep(s.nightStep).StepResolved? {
        ResolutionProper(s.(nightStep := NoStep, stepDeadline := ZERO_TIME), env);
      } else {
        var c := BeginStep(s, NextStep(s.nightStep), s.stepDeadline);
        NightTickProper(c.state, now, env);
        OneNeutral(s.players, c.events[0].event);
        ProperConcat(s.players, c.events, TickNight(c.state, now, env).events);
      }
    }
  }

  lemma TickProper(s: State, now: Time, env: Env)
    requires Inv(s)
    ensures AllProper(s.players, Tick(s, now, env).events)
  {
    hide Inv, ProperIds, RightRepresentative, AllProper, TickIntro, TickDay, TickNight, EndGame;
    InvIndexable(s);
    PeopleOf(s);
    NothingIsProper(s.players);
    var s1 := s.(lastTickAt := now);
    if s.pendingEnd.Some? {
      var pe := s.pendingEnd.value;
      EndingProper(s.(pendingEnd := None, lastTickAt := now), pe.reason, pe.winner);
    }
    match s.phase {
      case Intro => IntroTickProper(s1, now);
      case Day => DayTickProper(s1, now, s.lastTickAt);
      case Night => NightTickProper(s1, now, env);
      case _ =>
    }
  }

  /** Every announcement of every call goes to its proper audience and is true. */
  lemma StepIsProper(s: State, st: Step)
    requires Inv(s)
    ensures Callable(s, st) && AllProper(s.players, Exec(s, st).events)
  {
    hide Inv, Apply, Tick, AllProper;
    InvIndexable(s);
    match st {
      case Submit(a, env) => ActionProper(s, a, env);
      case Clock(now, env) => TickProper(s, now, env);
    }
  }

  // ---------------------------------------------------------------- over whole runs

  /** What nobody but the mafia or the police is ever told during a game. */
  predicate IsSecret(e: Event) {
    e.TargetSelected? || e.RepresentativeReassigned? || e.PoliceResult? || e.RoleRevealed? || e.CohortRevealed?
  }

  lemma {:induction false} NothingSecretReceived(es: seq<Envelope>, viewer: PlayerId, ps: seq<Player>, ps0: seq<Player>)
    requires AllProper(ps0, es) && SamePeople(ps0, ps) && Bystander(ps0, viewer)
    ensures forall i :: 0 <= i < |Received(es, viewer, ps)| ==> !IsSecret(Received(es, viewer, ps)[i])
  {
    if es != [] {
      NothingSecretReceived(es[..|es| - 1], viewer, ps, ps0);
      SamePeopleSameIndex(ps0, ps, viewer);
      assert Proper(ps0, es[|es| - 1]);
    }
  }

  lemma ReplyPeople(s: State, st: Step)
    requires Inv(s) && SaneEnv(st.env)
    ensures SamePeople(s.players, Exec(s, st).reply.players)
  {
    hide Inv, Exec, SamePeople;
    InvIndexable(s);
    StepKeeps(s, st);
    ReplyRoster(s, st);
  }

  lemma ReplyRoster(s: State, st: Step)
    requires Inv(s)
    ensures Exec(s, st).reply.players == Exec(s, st).next.players
  {
    hide Inv, Apply;
    InvIndexable(s);
    match st {
      case Submit(a, env) => ReplyOfAction(s, a, env);
      case Clock(now, env) => ReplyOfTick(s, now, env);
    }
  }

  lemma ReplyOfAction(s: State, a: Action, env: Env)
    requires Acceptable(s, a)
    ensures Apply(s, a, env).reply.players == Apply(s, a, env).next.players
  {
    hide LifeErrors, RoleError, BallotError, Tally, Bury, RoleOf;
  }

  lemma ReplyOfTick(s: State, now: Time, env: Env)
    requires Inv(s)
    ensures Tick(s, now, env).reply.players == Tick(s, now, env).next.players
  {
    hide People, Records, ProperIds, Crossed, SpeakerEvents, Turns, TickNight;
    if s.phase.Night? {
      ReplyOfNight(s.(lastTickAt := now), now, env);
    }
  }

  lemma {:induction false} ReplyOfNight(s: State, now: Time, env: Env)
    ensures TickNight(s, now, env).reply == TickNight(s, now, env).next
    decreases StepsLeft(s.nightStep)
  {
    hide Bury, ScheduleEnd, Has;
    var over := !s.nightStep.NoStep? && s.stepDeadline != ZERO_TIME && s.stepDeadline <= now;
    if over && !NextStep(s.nightStep).StepResolved? {
      ReplyOfNight(BeginStep(s, NextStep(s.nightStep), s.stepDeadline).state, now, env);
    }
  }

  /** Over any run of a game, no secret ever reaches a viewer who is neither mafia nor police. */
  lemma {:induction false} SecretsAreKept(s: State, steps: seq<Step>, viewer: PlayerId)
    requires Inv(s) && Sane(steps) && Bystander(s.players, viewer)
    ensures forall i :: 0 <= i < |Heard(viewer, s, steps)| ==> !IsSecret(Heard(viewer, s, steps)[i])
  {
    hide Inv, Exec, Received, Bystander, IsSecret, AllProper, SamePeople;
    if steps != [] {
      var front, st := steps[..|steps| - 1], steps[|steps| - 1];
      var m := After(s, front);
      SecretsAreKept(s, front, viewer);
      StillBystander(s, front, viewer);
      StepIsProper(m, st);
      ReplyPeople(m, st);
      NothingSecretReceived(Exec(m, st).events, viewer, Exec(m, st).reply.players, m.players);
    }
  }

  /** And a viewer who is told a secret is entitled to it. */
  lemma SecretsReachTheirOwners(s: State, st: Step, i: nat, viewer: PlayerId)
    requires Inv(s) && SaneEnv(st.env) && Callable(s, st) && i < |Exec(s, st).events|
    requires Reaches(Exec(s, st).events[i], viewer, Exec(s, st).reply.players)
    ensures
      var e, ps := Exec(s, st).events[i].event, Exec(s, st).reply.players;
      && (e.TargetSelected? || e.RepresentativeReassigned? ==> IsAlive(ps, viewer) && RoleOf(ps, viewer).Mafia?)
      && (e.PoliceResult? ==> viewer == e.police && RoleOf(ps, viewer).Police?)
      && !e.RoleRevealed? && !e.CohortRevealed?
  {
    hide Inv, Exec, RoleOf, IsAlive;
    StepIsProper(s, st);
    ReplyPeople(s, st);
    SamePeopleSameIndex(s.players, Exec(s, st).reply.players, viewer);
    assert Proper(s.players, Exec(s, st).events[i]);
  }
}
