/**
 The night's kill target as a client shows it. The reducer never clears it, so it is the
 one field a living mafia viewer may show wrongly; this says exactly when.
 */
module Targets {
  import opened GameTypes
  import opened Roster
  import opened Rules
  import opened Invariants
  import opened Runs
  import opened Replica
  import Ballots

  predicate IsTarget(e: Event) { e.TargetSelected? }

  /** A living mafioso, who is told of every target. */
  predicate Insider(ps: seq<Player>, viewer: PlayerId) { IsAlive(ps, viewer) && RoleOf(ps, viewer).Mafia? }

  /** A call that selects no target: it announces none, and keeps the stored one or drops it. */
  ghost predicate Targetless(s: State, o: Outcome) {
    && Silent(o.events, IsTarget)
    && (o.next.killTarget == s.killTarget || o.next.killTarget.None?)
  }

  // ---------------------------------------------------------------- which calls select a target

  lemma BurialTargetless(s: State, id: PlayerId, pick: Option<nat>)
    ensures Silent(Bury(s, id, pick).events, IsTarget) && Bury(s, id, pick).state.killTarget == s.killTarget
  {
    hide Drawn, MafiaIds, Kill;
  }

  lemma EliminationTargetless(s: State, id: PlayerId, env: Env)
    ensures
      var c := Eliminate(s, id, env);
      Silent(c.events, IsTarget) && (c.state.killTarget == s.killTarget || c.state.killTarget.None?)
  {
    hide Bury, EvaluateEnd, RoleOf, Index;
    BurialTargetless(s, id, env.pick);
  }

  lemma BallotTargetless(s: State, sender: PlayerId, target: PlayerId, env: Env)
    ensures Targetless(s, CastVote(s, sender, target, env))
  {
    hide Eliminate, Ballots.Top, Ballots.Counts, Live, BallotError;
    var s1 := s.(votes := s.votes[sender := target]);
    var top := Ballots.Top(s1.players, Ballots.Counts(s1.votes));
    if |top| == 1 {
      EliminationTargetless(s1, top[0], env);
    }
  }

  lemma ResolutionTargetless(s: State, env: Env)
    ensures Targetless(s, ResolveNight(s, env))
  {
    hide Bury, EvaluateEnd, Index;
    if Victim(s).Some? {
      BurialTargetless(s, Victim(s).value, env.pick);
    }
  }

  lemma IntroTargetless(s: State, id: PlayerId, env: Env)
    requires Indexable(s)
    ensures Targetless(s, Advance(s, id, env)) && Targetless(s, FinishSelf(s, id, env))
  {
  }

  lemma SubmissionTargetless(s: State, sender: PlayerId, target: PlayerId)
    ensures Targetless(s, SubmitHealRule(s, sender, target)) && Targetless(s, SubmitCheckRule(s, sender, target))
  {
    hide RoleError, LifeErrors, RoleOf;
  }

  lemma HostTargetless(s: State, host: PlayerId, on: bool, env: Env)
    ensures Targetless(s, EndDiscussionRule(s, host, env)) && Targetless(s, Voice(s, host, on))
    ensures Targetless(s, ForceEnd(s, host))
  {
  }

  lemma PauseTargetless(s: State, host: PlayerId, env: Env)
    ensures Targetless(s, Pause(s, host, env)) && Targetless(s, Resume(s, host, env))
  {
    hide ActiveDeadline, MovedBy;
  }

  lemma {:induction false} SpeakersTargetless(ps: seq<Player>, i: int, k: nat, secs: int)
    requires k == 0 || -1 <= i < |ps| - k
    ensures Silent(SpeakerEvents(ps, i, k, secs), IsTarget)
  {
    if k > 0 {
      SpeakersTargetless(ps, i, k - 1, secs);
    }
  }

  lemma IntroTickTargetless(s: State, now: Time)
    requires -1 <= s.speakerIdx
    ensures Targetless(s, TickIntro(s, now))
  {
    hide SpeakerEvents, Turns;
    var k := Turns(s.speakerIdx, s.speakerStartedAt, Seconds(s.settings.introSeconds), now, |s.players|);
    TurnsBound(s.speakerIdx, s.speakerStartedAt, Seconds(s.settings.introSeconds), now, |s.players|);
    SpeakersTargetless(s.players, s.speakerIdx, k, s.settings.introSeconds);
  }

  lemma DayTickTargetless(s: State, now: Time, prev: Time)
    ensures Targetless(s, TickDay(s, now, prev))
  {
    hide Crossed;
    CrossedPlain(THRESHOLDS, s.deadline, prev, now);
  }

  lemma NightTickTargetless(s: State, now: Time, env: Env)
    requires InStep(s)
    ensures Targetless(s, TickNight(s, now, env))
  {
    hide TickNight, ResolveNight;
    var pre, step, deadline := NightTickForm(s, now, env);
    ResolutionTargetless(s.(nightStep := NoStep, stepDeadline := ZERO_TIME), env);
  }

  lemma ActionTargetless(s: State, a: Action, env: Env)
    requires Inv(s) && !a.SubmitKill?
    ensures Targetless(s, Apply(s, a, env))
  {
    hide Targetless, Advance, FinishSelf, SubmitHealRule, SubmitCheckRule, EndDiscussionRule, CastVote, Voice, Pause;
    hide Resume, ForceEnd;
    hide ResolveNight, People, Records, ProperIds;
    RejectionTargetless(s);
    if s.phase.End? {
      return;
    }
    match a {
      case StartGame(_, _) =>
      case AdvanceIntro(host) => IntroTargetless(s, host, env);
      case EndSelfIntro(sender) => IntroTargetless(s, sender, env);
      case SubmitHeal(sender, target) => SubmissionTargetless(s, sender, target);
      case SubmitCheck(sender, target) => SubmissionTargetless(s, sender, target);
      case EndNightEarly(_) => ResolutionTargetless(s, env);
      case SubmitVote(sender, target) => BallotTargetless(s, sender, target, env);
      case EndDiscussionEarly(host) => HostTargetless(s, host, false, env);
      case ToggleVoice(host, on) => HostTargetless(s, host, on, env);
      case ForceEndGame(host) => HostTargetless(s, host, false, env);
      case PauseGame(host) => PauseTargetless(s, host, env);
      case ResumeGame(host) => PauseTargetless(s, host, env);
    }
  }

  lemma RejectionTargetless(s: State)
    ensures forall code :: Targetless(s, Rejected(s, code))
  {
  }

  lemma TickTargetless(s: State, now: Time, env: Env)
    requires Inv(s)
    ensures Targetless(s, Tick(s, now, env))
  {
    hide TickIntro, TickDay, TickNight, People, Records, ProperIds;
    var s1 := s.(lastTickAt := now);
    match s.phase {
      case Intro => IntroTickTargetless(s1, now);
      case Day => DayTickTargetless(s1, now, s.lastTickAt);
      case Night => NightTickTargetless(s1, now, env);
      case _ =>
    }
  }

  // ---------------------------------------------------------------- what the client makes of it

  /** Where the engine has a target, an insider's replica has the same one. */
  predicate TargetShown(g: Mirror, s: State, viewer: PlayerId) {
    Insider(s.players, viewer) && s.killTarget.Some? ==> g.killTarget == s.killTarget
  }

  lemma {:induction false} SilentFold(g: Mirror, viewer: PlayerId, es: seq<Envelope>, ps: seq<Player>)
    requires Silent(es, IsTarget)
    ensures Fold(g, viewer, es, ps).killTarget == g.killTarget
  {
    if es != [] {
      SilentFold(g, viewer, es[..|es| - 1], ps);
    }
  }

  lemma InsiderBefore(s: State, t: State, viewer: PlayerId)
    requires Follows(s, t) && Insider(t.players, viewer)
    ensures Insider(s.players, viewer)
  {
    SamePeopleSameIndex(s.players, t.players, viewer);
  }

  /** One call keeps an insider's target right, and gives it one exactly when it announces one. */
  lemma StepShowsTarget(g: Mirror, s: State, viewer: PlayerId, st: Step)
    requires Inv(s) && SaneEnv(st.env) && TargetShown(g, s, viewer)
    ensures
      var o := Exec(s, st);
      var g' := Fold(g, viewer, o.events, o.reply.players);
      && TargetShown(g', o.next, viewer)
      && (Insider(o.next.players, viewer) ==>
        (g'.killTarget.None? <==> g.killTarget.None? && Select(o.events, IsTarget) == []))
  {
    hide Inv, Follows, Apply, Tick, Fold, Reduce, Insider, Select;
    InvIndexable(s);
    StepKeeps(s, st);
    var o := Exec(s, st);
    if Insider(o.next.players, viewer) {
      InsiderBefore(s, o.next, viewer);
    }
    if st.Submit? && st.action.SubmitKill? {
      KillShowsTarget(g, s, viewer, st.action.sender, st.action.target, st.env);
    } else {
      match st {
        case Submit(a, env) => ActionTargetless(s, a, env);
        case Clock(now, env) => TickTargetless(s, now, env);
      }
      SilentFold(g, viewer, o.events, o.reply.players);
      SelectSilent(o.events, IsTarget);
    }
  }

  lemma KillShowsTarget(g: Mirror, s: State, viewer: PlayerId, sender: PlayerId, target: PlayerId, env: Env)
    requires Indexable(s) && TargetShown(g, s, viewer)
    ensures
      var o := Apply(s, SubmitKill(sender, target), env);
      var g' := Fold(g, viewer, o.events, o.reply.players);
      && TargetShown(g', o.next, viewer)
      && (Insider(o.next.players, viewer) ==>
        (g'.killTarget.None? <==> g.killTarget.None? && Select(o.events, IsTarget) == []))
  {
    hide Fold, Select, SubmitKillRule, Insider, Reduce;
    var e := Envelope(TargetSelected(sender, target), LivingMafia);
    if s.phase.End? || SubmitKillRule(s, sender, target).error.Some? {
      ApplyIsAtomic(s, SubmitKill(sender, target), env);
      FoldNone(g, viewer, s.players);
      SelectSilent([], IsTarget);
    } else {
      AcceptedTarget(s, sender, target);
      FoldTarget(g, viewer, e, s.players);
      SelectOne(e, IsTarget);
    }
  }

  lemma AcceptedTarget(s: State, sender: PlayerId, target: PlayerId)
    requires SubmitKillRule(s, sender, target).error.None?
    ensures SubmitKillRule(s, sender, target)
         == Done(s.(killTarget := Some(target)), [Envelope(TargetSelected(sender, target), LivingMafia)])
  {
    hide RoleError, LifeErrors, RoleOf;
  }

  lemma FoldTarget(g: Mirror, viewer: PlayerId, e: Envelope, ps: seq<Player>)
    requires e.event.TargetSelected? && e.audience == LivingMafia
    ensures Fold(g, viewer, [e], ps).killTarget == if Insider(ps, viewer) then Some(e.event.target) else g.killTarget
  {
    hide Fold, IsAlive, RoleOf;
    FoldOne(g, viewer, e, ps);
  }

  /**
   The kill target of a living mafia client, over any run: it is the engine's whenever the
   engine has one, and it is absent exactly while none was ever announced.
   */
  lemma {:induction false} TargetFollows(g: Mirror, s: State, viewer: PlayerId, steps: seq<Step>)
    requires Inv(s) && Sane(steps) && TargetShown(g, s, viewer)
    ensures TargetShown(Follow(g, viewer, s, steps), After(s, steps), viewer)
    ensures Insider(After(s, steps).players, viewer) ==>
      (Follow(g, viewer, s, steps).killTarget.None? <==> g.killTarget.None? && Select(Trace(s, steps), IsTarget) == [])
  {
    hide Inv, Exec, Fold, TargetShown, Insider, Follows, Select;
    if steps == [] {
      SelectSilent([], IsTarget);
    } else {
      var front, st := steps[..|steps| - 1], steps[|steps| - 1];
      var m := After(s, front);
      InvIndexable(m);
      TargetFollows(g, s, viewer, front);
      StepKeeps(m, st);
      StepShowsTarget(Follow(g, viewer, s, front), m, viewer, st);
      SelectConcat(Trace(s, front), Exec(m, st).events, IsTarget);
      if Insider(After(s, steps).players, viewer) {
        InsiderBefore(m, After(s, steps), viewer);
      }
    }
  }

  /**
   So a client without a target shows the engine's target if and only if the engine has
   one or none was ever announced: after a night with a target, every later hour without
   one is shown wrongly.
   */
  lemma TargetMatchesIff(g: Mirror, s: State, viewer: PlayerId, steps: seq<Step>)
    requires Inv(s) && Sane(steps) && g.killTarget.None? && s.killTarget.None?
    requires Insider(After(s, steps).players, viewer)
    ensures Follow(g, viewer, s, steps).killTarget == After(s, steps).killTarget
       <==> After(s, steps).killTarget.Some? || Select(Trace(s, steps), IsTarget) == []
  {
    hide Inv, Follow, After, Trace, Select, Insider;
    TargetFollows(g, s, viewer, steps);
  }
}
