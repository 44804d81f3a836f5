/**
 Whole runs of the engine: any sequence of submitted actions and ticks after a
 start. What the invariant and the step relation give for every reachable state,
 and the shape every run has.
 */
module Runs {
  import opened GameTypes
  import opened Roster
  import opened Ballots
  import opened Dealing
  import opened Rules
  import opened Invariants

  /** One call into the engine, with what it reads from outside. */
  datatype Step = Submit(action: Action, env: Env) | Clock(now: Time, env: Env)

  /** Whether a call stays clear of a speaker index that would panic; in a reachable state it does. */
  predicate Callable(s: State, st: Step) {
    match st
    case Submit(a, _) => Acceptable(s, a)
    case Clock(now, _) => Tickable(s, now)
  }

  function Exec(s: State, st: Step): Outcome
    requires Callable(s, st)
  {
    match st
    case Submit(a, env) => Apply(s, a, env)
    case Clock(now, env) => Tick(s, now, env)
  }

  ghost predicate Sane(steps: seq<Step>) {
    forall i :: 0 <= i < |steps| ==> SaneEnv(steps[i].env)
  }

  lemma InvIndexable(s: State)
    requires Inv(s)
    ensures Indexable(s) && !s.phase.Lobby? && !s.phase.NoPhase?
  {
  }

  lemma StepKeeps(s: State, st: Step)
    requires Inv(s) && SaneEnv(st.env)
    ensures Inv(Exec(s, st).next) && Follows(s, Exec(s, st).next)
    ensures Exec(s, st).error.Some? ==> st.Submit? && Exec(s, st).next == s && Exec(s, st).events == []
  {
    match st {
      case Submit(a, env) => ApplyKeeps(s, a, env);
      case Clock(now, env) => TickKeeps(s, now, env);
    }
    Still(s, s);
  }

  /** The state after a run; every state on the way satisfies the invariant. */
  ghost function After(s: State, steps: seq<Step>): (t: State)
    requires Inv(s) && Sane(steps)
    ensures Inv(t)
  {
    if steps == [] then s
    else
      var before := After(s, steps[..|steps| - 1]);
      StepKeeps(before, steps[|steps| - 1]);
      Exec(before, steps[|steps| - 1]).next
  }

  /** Everything a run emits, in order. */
  ghost function Trace(s: State, steps: seq<Step>): seq<Envelope>
    requires Inv(s) && Sane(steps)
  {
    if steps == [] then []
    else Trace(s, steps[..|steps| - 1]) + Exec(After(s, steps[..|steps| - 1]), steps[|steps| - 1]).events
  }

  /** The latest instant a run has ticked to, counting from `start`. */
  function Latest(start: Time, steps: seq<Step>): Time {
    if steps == [] then start
    else
      var m := Latest(start, steps[..|steps| - 1]);
      var st := steps[|steps| - 1];
      if st.Clock? && st.now > m then st.now else m
  }

  lemma {:induction false} LatestGrows(start: Time, steps: seq<Step>)
    ensures start <= Latest(start, steps)
  {
    if steps != [] {
      LatestGrows(start, steps[..|steps| - 1]);
    }
  }

  // ---------------------------------------------------------------- selecting events

  function Select(es: seq<Envelope>, p: Event -> bool): seq<Event> {
    if es == [] then []
    else
      var front := Select(es[..|es| - 1], p);
      if p(es[|es| - 1].event) then front + [es[|es| - 1].event] else front
  }

  ghost predicate Silent(es: seq<Envelope>, p: Event -> bool) {
    forall i :: 0 <= i < |es| ==> !p(es[i].event)
  }

  lemma {:induction false} SelectConcat(a: seq<Envelope>, b: seq<Envelope>, p: Event -> bool)
    ensures Select(a + b, p) == Select(a, p) + Select(b, p)
  {
    if b == [] {
      assert a + b == a;
    } else {
      SelectConcat(a, b[..|b| - 1], p);
      assert (a + b)[..|a + b| - 1] == a + b[..|b| - 1];
    }
  }

  lemma {:induction false} SelectSilent(es: seq<Envelope>, p: Event -> bool)
    requires Silent(es, p)
    ensures Select(es, p) == []
  {
    if es != [] {
      SelectSilent(es[..|es| - 1], p);
    }
  }

  lemma SelectOne(e: Envelope, p: Event -> bool)
    ensures Select([e], p) == if p(e.event) then [e.event] else []
  {
    assert [e][..0] == [];
  }

  predicate IsGameEnded(e: Event) { e.GameEnded? }

  /** The summary of a night: a death or a peaceful night. */
  predicate IsNightResult(e: Event) { e.DeathAnnounced? || e.PeacefulNight? }

  /** Neither a game end nor a night result. */
  ghost predicate Plain(es: seq<Envelope>) {
    forall i :: 0 <= i < |es| ==> !IsGameEnded(es[i].event) && !IsNightResult(es[i].event)
  }

  /** The milestones a step from `s` to `t` must announce, and no others. */
  ghost predicate Announces(s: State, t: State, es: seq<Envelope>) {
    && Select(es, IsGameEnded)
       == (if !s.phase.End? && t.phase.End? && t.endReason.Some?
           then [GameEnded(t.winner, t.endReason.value, t.players)] else [])
    && |Select(es, IsNightResult)| == t.day - s.day
  }

  lemma PlainAnnounces(s: State, t: State, es: seq<Envelope>)
    requires Plain(es) && t.day == s.day && (t.phase.End? ==> s.phase.End?)
    ensures Announces(s, t, es)
  {
    SelectSilent(es, IsGameEnded);
    SelectSilent(es, IsNightResult);
  }

  lemma {:induction false} SpeakerEventsPlain(ps: seq<Player>, i: int, k: nat, secs: int)
    requires k == 0 || -1 <= i < |ps| - k
    ensures Plain(SpeakerEvents(ps, i, k, secs))
  {
    if k > 0 {
      SpeakerEventsPlain(ps, i, k - 1, secs);
    }
  }

  lemma {:induction false} CrossedPlain(ths: seq<int>, deadline: Time, prev: Time, now: Time)
    ensures forall i :: 0 <= i < |Crossed(ths, deadline, prev, now)| ==>
      Crossed(ths, deadline, prev, now)[i].event.DiscussionTick?
  {
    if ths != [] {
      CrossedPlain(ths[..|ths| - 1], deadline, prev, now);
    }
  }

  lemma BurialIsPlain(s: State, id: PlayerId, pick: Option<nat>)
    ensures Plain(Bury(s, id, pick).events)
    ensures Bury(s, id, pick).state.phase == s.phase && Bury(s, id, pick).state.day == s.day
  {
    hide Drawn, MafiaIds, Kill;
  }

  /** A morning's announcements hold one night result and no game end. */
  lemma MorningMilestones(e: Event, f: Event, rest: seq<Envelope>)
    requires e.PhaseChanged? && IsNightResult(f) && Plain(rest)
    ensures Select([Pub(e), Pub(f)] + rest, IsNightResult) == [f]
    ensures Select([Pub(e), Pub(f)] + rest, IsGameEnded) == []
  {
    hide Select;
    assert [Pub(e), Pub(f)] + rest == ([Pub(e)] + [Pub(f)]) + rest;
    SelectConcat([Pub(e)] + [Pub(f)], rest, IsNightResult);
    SelectConcat([Pub(e)], [Pub(f)], IsNightResult);
    SelectOne(Pub(e), IsNightResult);
    SelectOne(Pub(f), IsNightResult);
    SelectSilent(rest, IsNightResult);
    SelectSilent([Pub(e), Pub(f)] + rest, IsGameEnded);
  }

  lemma ScheduleKeepsDay(s: State, now: Time)
    ensures ScheduleEnd(s, now).day == s.day && ScheduleEnd(s, now).phase == s.phase
  {
    hide EvaluateEnd;
  }

  lemma ResolutionAnnounces(s: State, env: Env)
    requires !s.phase.End? && ResolveNight(s, env).error.None?
    ensures Announces(s, ResolveNight(s, env).next, ResolveNight(s, env).events)
  {
    hide Bury, ScheduleEnd, Select, Has, Plain;
    var v := Victim(s);
    var burial := if v.Some? then Bury(s, v.value, env.pick) else Change(s, []);
    if v.Some? {
      BurialIsPlain(s, v.value, env.pick);
    } else {
      NothingIsPlain();
    }
    var deadline := env.now + Seconds(DAY_INTRO_SECONDS + s.settings.discussionSeconds);
    var dawn := ClearNight(burial.state).(day := s.day + 1, phase := Day, deadline := deadline, lastTickAt := env.now);
    var fate := if v.Some? then DeathAnnounced(v.value) else PeacefulNight;
    ScheduleKeepsDay(dawn, env.later);
    MorningMilestones(PhaseChanged(Day, s.day + 1, deadline), fate, burial.events);
  }

  lemma NothingIsPlain()
    ensures Plain([])
  {
  }

  lemma EliminationIsPlain(s: State, id: PlayerId, env: Env)
    requires !s.phase.End?
    ensures Plain(Eliminate(s, id, env).events)
    ensures !Eliminate(s, id, env).state.phase.End? && Eliminate(s, id, env).state.day == s.day
  {
    hide Bury, EvaluateEnd, RoleOf, Index;
    BurialIsPlain(s, id, env.pick);
  }

  lemma TallyIsPlain(s: State, env: Env)
    requires !s.phase.End?
    ensures Plain(Tally(s, env).events)
    ensures !Tally(s, env).state.phase.End? && Tally(s, env).state.day == s.day
  {
    hide Top, Counts, Eliminate;
    var top := Top(s.players, Counts(s.votes));
    if |top| == 1 {
      EliminationIsPlain(s, top[0], env);
    }
  }

  lemma VoteIsPlain(s: State, sender: PlayerId, target: PlayerId, env: Env)
    requires !s.phase.End?
    ensures Plain(CastVote(s, sender, target, env).events)
    ensures !CastVote(s, sender, target, env).next.phase.End? && CastVote(s, sender, target, env).next.day == s.day
  {
    TallyIsPlain(s.(votes := s.votes[sender := target]), env);
  }

  lemma SubmissionIsPlain(s: State, sender: PlayerId, target: PlayerId)
    ensures Plain(SubmitKillRule(s, sender, target).events)
    ensures Plain(SubmitHealRule(s, sender, target).events)
    ensures Plain(SubmitCheckRule(s, sender, target).events)
    ensures SubmitKillRule(s, sender, target).next.phase == s.phase
    ensures SubmitKillRule(s, sender, target).next.day == s.day
    ensures SubmitHealRule(s, sender, target).next.phase == s.phase
    ensures SubmitHealRule(s, sender, target).next.day == s.day
    ensures SubmitCheckRule(s, sender, target).next.phase == s.phase
    ensures SubmitCheckRule(s, sender, target).next.day == s.day
  {
    hide RoleError, LifeErrors, RoleOf;
  }

  lemma PrefixAnnounces(s: State, t: State, pre: seq<Envelope>, es: seq<Envelope>)
    requires Announces(s, t, es) && OnlySteps(pre)
    ensures Announces(s, t, pre + es)
  {
    SelectConcat(pre, es, IsGameEnded);
    SelectConcat(pre, es, IsNightResult);
    SelectSilent(pre, IsGameEnded);
    SelectSilent(pre, IsNightResult);
  }

  lemma NightTickAnnounces(s: State, now: Time, env: Env)
    requires Inv(s) && s.phase.Night? && SaneEnv(env)
    ensures Announces(s, TickNight(s, now, env).next, TickNight(s, now, env).events)
  {
    var pre, step, deadline := NightTickForm(s, now, env);
    PlainAnnounces(s, s.(nightStep := step, stepDeadline := deadline), pre);
    var s0 := s.(nightStep := NoStep, stepDeadline := ZERO_TIME);
    ResolveNightKeeps(s, s0, env);
    ResolutionAnnounces(s0, env);
    PrefixAnnounces(s, ResolveNight(s0, env).next, pre, ResolveNight(s0, env).events);
  }

  lemma EndingAnnounces(s: State, t: State, e: Envelope)
    requires !s.phase.End? && t.phase.End? && t.endReason.Some? && t.day == s.day
    requires e.event == GameEnded(t.winner, t.endReason.value, t.players)
    ensures Announces(s, t, [e])
  {
    SelectOne(e, IsGameEnded);
    SelectOne(e, IsNightResult);
  }

  lemma HostActionIsPlain(s: State, host: PlayerId, on: bool, env: Env)
    requires !s.phase.End?
    ensures Plain(Pause(s, host, env).events) && Plain(Resume(s, host, env).events) && Plain(Voice(s, host, on).events)
    ensures Pause(s, host, env).next.phase == Resume(s, host, env).next.phase == Voice(s, host, on).next.phase
         == s.phase
    ensures Pause(s, host, env).next.day == Resume(s, host, env).next.day == Voice(s, host, on).next.day == s.day
    ensures
      var o := EndDiscussionRule(s, host, env);
      Plain(o.events) && !o.next.phase.End? && o.next.day == s.day
  {
  }

  lemma IntroActionIsPlain(s: State, id: PlayerId, env: Env)
    requires Indexable(s) && !s.phase.End?
    ensures
      var o := Advance(s, id, env);
      Plain(o.events) && !o.next.phase.End? && o.next.day == s.day
    ensures
      var o := FinishSelf(s, id, env);
      Plain(o.events) && !o.next.phase.End? && o.next.day == s.day
  {
  }

  /** Apart from the host ending the night or the game, no action announces a milestone. */
  lemma ActionIsPlain(s: State, a: Action, env: Env)
    requires Indexable(s) && !s.phase.Lobby? && !s.phase.End? && !a.ForceEndGame? && !a.EndNightEarly?
    ensures Plain(Apply(s, a, env).events)
    ensures !Apply(s, a, env).next.phase.End? && Apply(s, a, env).next.day == s.day
  {
    hide Advance, FinishSelf, SubmitKillRule, SubmitHealRule, SubmitCheckRule, EndDiscussionRule, CastVote, Voice;
    hide Pause, Resume;
    match a {
      case StartGame(_, _) =>
      case AdvanceIntro(host) => IntroActionIsPlain(s, host, env);
      case EndSelfIntro(sender) => IntroActionIsPlain(s, sender, env);
      case SubmitVote(sender, target) => VoteIsPlain(s, sender, target, env);
      case SubmitKill(sender, target) => SubmissionIsPlain(s, sender, target);
      case SubmitHeal(sender, target) => SubmissionIsPlain(s, sender, target);
      case SubmitCheck(sender, target) => SubmissionIsPlain(s, sender, target);
      case EndDiscussionEarly(host) => HostActionIsPlain(s, host, false, env);
      case ToggleVoice(host, on) => HostActionIsPlain(s, host, on, env);
      case PauseGame(host) => HostActionIsPlain(s, host, false, env);
      case ResumeGame(host) => HostActionIsPlain(s, host, false, env);
    }
  }

  lemma ForceEndAnnounces(s: State, host: PlayerId)
    requires !s.phase.End?
    ensures Announces(s, ForceEnd(s, host).next, ForceEnd(s, host).events)
  {
    if host == s.hostId {
      EndingAnnounces(s, ForceEnd(s, host).next, ForceEnd(s, host).events[0]);
    } else {
      PlainAnnounces(s, s, []);
    }
  }

  lemma ActionAnnounces(s: State, a: Action, env: Env)
    requires Inv(s) && SaneEnv(env)
    ensures Announces(s, Apply(s, a, env).next, Apply(s, a, env).events)
  {
    hide Announces, ForceEnd, EndNightRule, Plain, People, Records, ProperIds;
    hide Advance, FinishSelf, SubmitKillRule, SubmitHealRule, SubmitCheckRule, EndDiscussionRule, CastVote, Voice;
    hide Pause, Resume;
    if s.phase.End? {
      PlainAnnounces(s, s, []);
    } else if a.ForceEndGame? {
      ForceEndAnnounces(s, a.host);
    } else if a.EndNightEarly? {
      EndNightAnnounces(s, a.host, env);
    } else {
      ActionIsPlain(s, a, env);
      PlainAnnounces(s, Apply(s, a, env).next, Apply(s, a, env).events);
    }
  }

  lemma EndNightAnnounces(s: State, host: PlayerId, env: Env)
    requires Inv(s) && SaneEnv(env) && !s.phase.End?
    ensures Announces(s, EndNightRule(s, host, env).next, EndNightRule(s, host, env).events)
  {
    if s.phase.Night? && host == s.hostId {
      ResolveNightKeeps(s, s, env);
      ResolutionAnnounces(s, env);
    } else {
      PlainAnnounces(s, s, []);
    }
  }

  lemma TickAnnounces(s: State, now: Time, env: Env)
    requires Inv(s) && SaneEnv(env)
    ensures Announces(s, Tick(s, now, env).next, Tick(s, now, env).events)
  {
    hide Announces, TickIntro, TickDay, TickNight, People, Records, ProperIds;
    var o := Tick(s, now, env);
    NothingIsPlain();
    if s.paused || now <= s.lastTickAt {
      PlainAnnounces(s, s, []);
    } else if s.pendingEnd.Some? && now >= s.pendingEnd.value.deadline {
      EndingAnnounces(s, o.next, o.events[0]);
    } else {
      var s1 := s.(lastTickAt := now);
      match s.phase {
        case Intro => IntroTickAnnounces(s1, now);
        case Day => DayTickAnnounces(s1, now, s.lastTickAt);
        case Night =>
          ActiveTick(s, now);
          NightTickAnnounces(s1, now, env);
        case _ => PlainAnnounces(s, o.next, o.events);
      }
      SameDayAnnounces(s, s1, o.next, o.events);
    }
  }

  /** What a step must announce does not depend on the last tick. */
  lemma SameDayAnnounces(s: State, s1: State, t: State, es: seq<Envelope>)
    requires s1.phase == s.phase && s1.day == s.day
    ensures Announces(s, t, es) <==> Announces(s1, t, es)
  {
  }

  lemma IntroTickAnnounces(s: State, now: Time)
    requires -1 <= s.speakerIdx && s.phase.Intro?
    ensures Announces(s, TickIntro(s, now).next, TickIntro(s, now).events)
  {
    hide Announces, Turns, SpeakerEvents;
    var k := Turns(s.speakerIdx, s.speakerStartedAt, Seconds(s.settings.introSeconds), now, |s.players|);
    TurnsBound(s.speakerIdx, s.speakerStartedAt, Seconds(s.settings.introSeconds), now, |s.players|);
    SpeakerEventsPlain(s.players, s.speakerIdx, k, s.settings.introSeconds);
    PlainAnnounces(s, TickIntro(s, now).next, TickIntro(s, now).events);
  }

  lemma DayTickAnnounces(s: State, now: Time, prev: Time)
    requires s.phase.Day?
    ensures Announces(s, TickDay(s, now, prev).next, TickDay(s, now, prev).events)
  {
    hide Announces, Crossed;
    CrossedPlain(THRESHOLDS, s.deadline, prev, now);
    PlainAnnounces(s, TickDay(s, now, prev).next, TickDay(s, now, prev).events);
  }

  lemma StepAnnounces(s: State, st: Step)
    requires Inv(s) && SaneEnv(st.env)
    ensures Announces(s, Exec(s, st).next, Exec(s, st).events)
  {
    match st {
      case Submit(a, env) => ActionAnnounces(s, a, env);
      case Clock(now, env) => TickAnnounces(s, now, env);
    }
  }

  // ---------------------------------------------------------------- the shape of every run

  lemma SamePeopleThrough(a: seq<Player>, b: seq<Player>, c: seq<Player>)
    requires SamePeople(a, b) && SamePeople(b, c)
    ensures SamePeople(a, c)
  {
    forall i | 0 <= i < |a| ensures a[i].(alive := c[i].alive) == c[i] {
      assert a[i].(alive := b[i].alive) == b[i];
      assert b[i].(alive := c[i].alive) == c[i];
    }
  }

  /**
   Over any run: the same people stay seated with the same roles, nobody returns from
   the dead, the police history only grows, and the day counts the nights resolved.
   */
  lemma {:induction false} RunShape(s: State, steps: seq<Step>)
    requires Inv(s) && Sane(steps)
    ensures SamePeople(s.players, After(s, steps).players)
    ensures forall i :: 0 <= i < |s.players| && After(s, steps).players[i].alive ==> s.players[i].alive
    ensures s.history <= After(s, steps).history
    ensures After(s, steps).day == s.day + |Select(Trace(s, steps), IsNightResult)|
  {
    hide Inv, Exec;
    if steps != [] {
      var front, last := steps[..|steps| - 1], steps[|steps| - 1];
      RunShape(s, front);
      var m := After(s, front);
      InvIndexable(m);
      StepKeeps(m, last);
      StepAnnounces(m, last);
      SamePeopleThrough(s.players, m.players, After(s, steps).players);
      SelectConcat(Trace(s, front), Exec(m, last).events, IsNightResult);
    }
  }

  /**
   GameEnded is emitted at most once in a run: exactly when the run takes the game
   from an active phase to END, and then with the outcome the state records.
   */
  lemma {:induction false} GameEndsOnce(s: State, steps: seq<Step>)
    requires Inv(s) && Sane(steps)
    ensures
      var t := After(s, steps);
      Select(Trace(s, steps), IsGameEnded)
      == if !s.phase.End? && t.phase.End? then [GameEnded(t.winner, t.endReason.value, t.players)] else []
    ensures s.phase.End? ==> After(s, steps) == s.(lastTickAt := After(s, steps).lastTickAt)
  {
    hide Inv, Exec, SamePeople, AtMostOneDeath;
    if steps != [] {
      var front, last := steps[..|steps| - 1], steps[|steps| - 1];
      GameEndsOnce(s, front);
      var m := After(s, front);
      InvIndexable(m);
      StepKeeps(m, last);
      StepAnnounces(m, last);
      SelectConcat(Trace(s, front), Exec(m, last).events, IsGameEnded);
    }
  }

  /** After the end every action fails and every tick is silent. */
  lemma EndIsFinal(s: State, st: Step)
    requires Inv(s) && s.phase.End?
    ensures Exec(s, st).events == []
    ensures st.Submit? ==> Exec(s, st).error == Some(WrongPhase) && Exec(s, st).next == s
    ensures st.Clock? ==> Exec(s, st).error.None? && Exec(s, st).next == s.(lastTickAt := Exec(s, st).next.lastTickAt)
  {
  }

  /** Every state of every game that was started over distinct, non-empty IDs satisfies the invariant. */
  lemma ReachableGame(s0: State, gameId: string, host: PlayerId, roster: seq<Player>, o: Options, env: Env,
                      steps: seq<Step>)
    requires ProperIds(roster) && SaneEnv(env) && Sane(steps)
    requires Start(s0, gameId, host, roster, o, env).error.None?
    ensures Inv(Start(s0, gameId, host, roster, o, env).next)
    ensures
      var s := Start(s0, gameId, host, roster, o, env).next;
      var t := After(s, steps);
      && Ids(t.players) == Ids(roster)
      && t.day == 1 + |Select(Trace(s, steps), IsNightResult)|
      && RightRepresentative(t.players, t.representative)
      && (!t.phase.End? && t.pendingEnd.None? ==> 0 < LiveMafia(t.players) < LiveCitizens(t.players))
  {
    hide Opening, After, Trace, Records, PhaseShape, ValidOptions, Select;
    StartEstablishes(s0, gameId, host, roster, o, env);
    var s := Start(s0, gameId, host, roster, o, env).next;
    RunShape(s, steps);
    var t := After(s, steps);
    forall i | 0 <= i < |roster| ensures Ids(t.players)[i] == Ids(roster)[i] {
      assert s.players[i].(alive := t.players[i].alive) == t.players[i];
    }
  }

  // ---------------------------------------------------------------- atomicity and idempotence

  /** A rejected action changes nothing, in any state whatever. */
  lemma ApplyIsAtomic(s: State, a: Action, env: Env)
    requires Acceptable(s, a)
    ensures Apply(s, a, env).error.Some? ==>
      Apply(s, a, env).next == s && Apply(s, a, env).reply == s && Apply(s, a, env).events == []
  {
    hide Tally, Bury, RoleOf, LifeErrors, RoleError, Resumed, ScheduleEnd, EnterNight, Opening, Assign, Seat;
    hide IntroToDay, DayToVote, BallotError;
  }

  lemma ResolutionStamp(s: State, env: Env)
    requires ResolveNight(s, env).error.None?
    ensures
      var t := ResolveNight(s, env).next;
      t.phase.Day? && t.lastTickAt == env.now && t.paused == s.paused
  {
    hide Drawn, MafiaIds, Kill, EvaluateEnd, Has;
  }

  /** The seconds of the night steps still to come after this one. */
  function SecondsToCome(o: Options, step: NightStep): int
    decreases StepsLeft(step)
  {
    if StepsLeft(step) <= 1 then 0 else StepSeconds(o, NextStep(step)) + SecondsToCome(o, NextStep(step))
  }

  /** When a night that is left alone is over. */
  function NightEnds(s: State): Time { s.stepDeadline + Seconds(SecondsToCome(s.settings, s.nightStep)) }

  lemma {:induction false} SecondsToComePositive(o: Options, step: NightStep)
    ensures SecondsToCome(o, step) >= 0
    decreases StepsLeft(step)
  {
    if StepsLeft(step) > 1 {
      SecondsToComePositive(o, NextStep(step));
    }
  }

  /** A night tick resolves the night exactly when it reaches the end of the last step. */
  lemma {:induction false} NightTickResolvesIff(s: State, now: Time, env: Env)
    requires InStep(s)
    ensures
      var t := TickNight(s, now, env).next;
      if NightEnds(s) <= now then t == ResolveNight(s.(nightStep := NoStep, stepDeadline := ZERO_TIME), env).next
      else t == s.(nightStep := t.nightStep, stepDeadline := t.stepDeadline)
    decreases StepsLeft(s.nightStep)
  {
    hide ResolveNight;
    SecondsToComePositive(s.settings, s.nightStep);
    if s.stepDeadline <= now && !NextStep(s.nightStep).StepResolved? {
      var c := BeginStep(s, NextStep(s.nightStep), s.stepDeadline).state;
      NightTickResolvesIff(c, now, env);
      assert c.(nightStep := NoStep, stepDeadline := ZERO_TIME) == s.(nightStep := NoStep, stepDeadline := ZERO_TIME);
      assert NightEnds(c) == NightEnds(s);
    }
  }

  /** This tick processes a running night up to its end, while the clock still reads an earlier instant. */
  predicate ResolvesAhead(s: State, now: Time, env: Env) {
    && s.phase.Night? && !s.paused && s.lastTickAt < now
    && (s.pendingEnd.None? || now < s.pendingEnd.value.deadline)
    && NightEnds(s) <= now && env.now < now
  }

  lemma NightTickStamp(s: State, now: Time, env: Env)
    requires Inv(s) && s.phase.Night? && SaneEnv(env)
    ensures
      var t := TickNight(s, now, env).next;
      && t.paused == s.paused
      && (if NightEnds(s) <= now then t.phase.Day? && t.lastTickAt == env.now
          else t.phase.Night? && t.lastTickAt == s.lastTickAt && t.pendingEnd == s.pendingEnd)
  {
    hide TickNight, ResolveNight;
    NightTickResolvesIff(s, now, env);
    var s0 := s.(nightStep := NoStep, stepDeadline := ZERO_TIME);
    ResolveNightKeeps(s, s0, env);
    ResolutionStamp(s0, env);
  }

  /**
   Repeating a tick changes nothing and emits nothing, unless the first one resolves a
   night and stamps it with a clock that runs behind the tick: then, and only then, the
   repeat is processed again.
   */
  lemma TickIsIdempotentIff(s: State, now: Time, env: Env, env': Env)
    requires Inv(s) && SaneEnv(env) && SaneEnv(env')
    ensures
      var t := Tick(s, now, env).next;
      Tick(s, now, env).error.None? && Inv(t) &&
      (Tick(t, now, env') == Done(t, []) <==> !ResolvesAhead(s, now, env))
  {
    hide People, Records, ProperIds, TickNight, TickIntro, NightEnds;
    TickKeeps(s, now, env);
    IntroStamp(s.(lastTickAt := now), now);
    var t := Tick(s, now, env).next;
    if !s.paused && s.lastTickAt < now && (s.pendingEnd.None? || now < s.pendingEnd.value.deadline) && s.phase.Night? {
      ActiveTick(s, now);
      NightTickStamp(s.(lastTickAt := now), now, env);
      SameEnd(s, now);
      if ResolvesAhead(s, now, env) {
        RepeatChanges(t, now, env');
      }
    }
  }

  lemma SameEnd(s: State, now: Time)
    ensures NightEnds(s.(lastTickAt := now)) == NightEnds(s)
  {
  }

  lemma IntroStamp(s: State, now: Time)
    requires 0 <= s.speakerIdx && s.lastTickAt == now
    ensures TickIntro(s, now).next.lastTickAt == now && TickIntro(s, now).next.paused == s.paused
  {
    hide SpeakerEvents, Turns;
  }

  lemma RepeatChanges(t: State, now: Time, env: Env)
    requires Inv(t) && !t.paused && t.phase.Day? && t.lastTickAt < now && SaneEnv(env)
    ensures Tick(t, now, env) != Done(t, [])
  {
    assert Tick(t, now, env).next.lastTickAt == now;
  }
}
