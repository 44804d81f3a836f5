/**
 The timing and the outcome of a night.

 Timing: left to itself, a night announces its steps at instants that depend on the
 entry instant and the configured seconds only, however ticks and submissions are
 interleaved. Outcome: the first accepted kill takes effect unless it meets the first
 accepted heal.
 */
module Nights {
  import opened GameTypes
  import opened Roster
  import opened Rules
  import opened Invariants
  import opened Runs

  // ---------------------------------------------------------------- the night's plan

  function Rank(step: NightStep): nat { 4 - StepsLeft(step) }

  /** Seconds from the start of the night to the end of this step. */
  function Offset(o: Options, step: NightStep): int {
    var a := StepSeconds(o, StepIntro);
    var b := a + StepSeconds(o, StepMafia);
    var c := b + StepSeconds(o, StepPolice);
    match step
    case StepIntro => a
    case StepMafia => b
    case StepPolice => c
    case _ => c + StepSeconds(o, StepDoctor)
  }

  function StepEnd(o: Options, entry: Time, step: NightStep): Time { entry + Seconds(Offset(o, step)) }

  /** The step a night entered at `entry` is in at `now`. */
  function StepAt(o: Options, entry: Time, now: Time): NightStep {
    if now < StepEnd(o, entry, StepIntro) then StepIntro
    else if now < StepEnd(o, entry, StepMafia) then StepMafia
    else if now < StepEnd(o, entry, StepPolice) then StepPolice
    else if now < StepEnd(o, entry, StepDoctor) then StepDoctor
    else StepResolved
  }

  /** The announcements that follow the night's opening, with their deadlines. */
  function Plan(o: Options, entry: Time, day: int): (r: seq<Event>)
    ensures |r| == 3
  {
    [NightStepChanged(StepMafia, day, StepEnd(o, entry, StepMafia)),
     NightStepChanged(StepPolice, day, StepEnd(o, entry, StepPolice)),
     NightStepChanged(StepDoctor, day, StepEnd(o, entry, StepDoctor))]
  }

  /** How many of them are due when the night is in this step. */
  function Due(step: NightStep): (n: nat)
    ensures n <= 3
  {
    if Rank(step) < 3 then Rank(step) else 3
  }

  function PubAll(es: seq<Event>): (r: seq<Envelope>)
    ensures |r| == |es|
  {
    seq(|es|, i requires 0 <= i < |es| => Pub(es[i]))
  }

  predicate IsNightStep(e: Event) { e.NightStepChanged? }

  lemma {:induction false} SelectPubAll(es: seq<Event>)
    requires forall i :: 0 <= i < |es| ==> es[i].NightStepChanged?
    ensures Select(PubAll(es), IsNightStep) == es
  {
    if es != [] {
      SelectPubAll(es[..|es| - 1]);
      assert PubAll(es)[..|es| - 1] == PubAll(es[..|es| - 1]);
    }
  }

  lemma NextStepEnd(o: Options, entry: Time, step: NightStep)
    requires StepsLeft(step) > 1
    ensures StepEnd(o, entry, NextStep(step)) == StepEnd(o, entry, step) + Seconds(StepSeconds(o, NextStep(step)))
    ensures StepEnd(o, entry, step) < StepEnd(o, entry, NextStep(step))
  {
  }

  /** A state on the plan: some step of it, with that step's own deadline. */
  predicate Planned(s: State, entry: Time) {
    InStep(s) && s.stepDeadline == StepEnd(s.settings, entry, s.nightStep)
  }

  function Cleared(s: State): State { s.(nightStep := NoStep, stepDeadline := ZERO_TIME) }

  /** The announcements from the k-th up to the l-th. */
  function Between(es: seq<Event>, k: nat, l: nat): seq<Event> { if k <= l <= |es| then es[k..l] else [] }

  /** Where the plan puts a tick at `now`, and what is due to be announced by then. */
  function Landing(s: State, now: Time, env: Env, entry: Time): Outcome {
    var o := s.settings;
    var step := StepAt(o, entry, now);
    var due := PubAll(Between(Plan(o, entry, s.day), Due(s.nightStep), Due(step)));
    var r := ResolveNight(Cleared(s), env);
    if !step.StepResolved? then Done(s.(nightStep := step, stepDeadline := StepEnd(o, entry, step)), due)
    else if r.error.Some? then r else r.(events := due + r.events)
  }

  lemma PubFirst(es: seq<Event>, k: nat, l: nat)
    requires k < l <= |es|
    ensures PubAll(Between(es, k, l)) == [Pub(es[k])] + PubAll(Between(es, k + 1, l))
  {
    assert es[k..l] == [es[k]] + es[k + 1..l];
  }

  lemma LandingFromNext(s: State, now: Time, env: Env, entry: Time)
    requires Planned(s, entry) && StepsLeft(s.nightStep) > 1
    requires Rank(NextStep(s.nightStep)) <= Rank(StepAt(s.settings, entry, now))
    ensures
      var c := BeginStep(s, NextStep(s.nightStep), s.stepDeadline);
      var r := Landing(c.state, now, env, entry);
      Landing(s, now, env, entry) == if r.error.Some? then r else r.(events := c.events + r.events)
  {
    hide ResolveNight, Plan, StepEnd, StepAt, PubAll, Between;
    var c := BeginStep(s, NextStep(s.nightStep), s.stepDeadline);
    var plan := Plan(s.settings, entry, s.day);
    var k, l := Due(s.nightStep), Due(StepAt(s.settings, entry, now));
    PlannedEvent(s, entry);
    assert Cleared(c.state) == Cleared(s);
    PubFirst(plan, k, l);
    var r := ResolveNight(Cleared(s), env);
    assert c.events + (PubAll(Between(plan, k + 1, l)) + r.events) == PubAll(Between(plan, k, l)) + r.events;
  }

  /** One tick, however late, lands where the plan says and announces what is due. */
  lemma {:induction false} TickFollowsPlan(s: State, now: Time, env: Env, entry: Time)
    requires Planned(s, entry) && Rank(s.nightStep) <= Rank(StepAt(s.settings, entry, now))
    ensures TickNight(s, now, env) == Landing(s, now, env, entry)
    decreases StepsLeft(s.nightStep)
  {
    hide ResolveNight, Plan, Offset;
    StepOf(s.settings, entry, s.nightStep, now);
    if now < s.stepDeadline || NextStep(s.nightStep).StepResolved? {
      var r := ResolveNight(Cleared(s), env);
      assert [] + r.events == r.events;
    } else {
      hide Landing, StepAt;
      NextStepEnd(s.settings, entry, s.nightStep);
      LandingFromNext(s, now, env, entry);
      TickFollowsPlan(BeginStep(s, NextStep(s.nightStep), s.stepDeadline).state, now, env, entry);
    }
  }

  lemma StepOf(o: Options, entry: Time, step: NightStep, now: Time)
    requires StepsLeft(step) > 0 && Rank(step) <= Rank(StepAt(o, entry, now))
    ensures now < StepEnd(o, entry, step) <==> StepAt(o, entry, now) == step
  {
  }

  lemma PlannedEvent(s: State, entry: Time)
    requires Planned(s, entry) && StepsLeft(s.nightStep) > 1
    ensures BeginStep(s, NextStep(s.nightStep), s.stepDeadline).events
         == [Pub(Plan(s.settings, entry, s.day)[Due(s.nightStep)])]
  {
  }

  // ---------------------------------------------------------------- undisturbed nights

  /** Neither a pause nor an order of the host to end the night or the game. */
  predicate Undisturbing(st: Step) {
    st.Submit? ==> !st.action.PauseGame? && !st.action.EndNightEarly? && !st.action.ForceEndGame?
  }

  /** Every state of the run, the first and the last included, is in the night. */
  ghost predicate NightThroughout(s: State, steps: seq<Step>)
    requires Inv(s) && Sane(steps)
  {
    After(s, steps).phase.Night? && (steps != [] ==> NightThroughout(s, steps[..|steps| - 1]))
  }

  predicate SameSeconds(o: Options, o': Options) {
    o.mafiaSeconds == o'.mafiaSeconds && o.policeSeconds == o'.policeSeconds && o.doctorSeconds == o'.doctorSeconds
  }

  /** A running night that is where the plan says at its last tick. */
  predicate OnPlan(s: State, o: Options, entry: Time) {
    && InStep(s) && !s.paused && s.pendingEnd.None? && SameSeconds(s.settings, o)
    && s.nightStep == StepAt(o, entry, s.lastTickAt)
    && s.stepDeadline == StepEnd(o, entry, s.nightStep)
  }

  lemma SameSecondsSamePlan(o: Options, o': Options, entry: Time)
    requires SameSeconds(o, o')
    ensures forall step :: Offset(o, step) == Offset(o', step)
    ensures forall step :: StepEnd(o, entry, step) == StepEnd(o', entry, step)
    ensures forall now :: StepAt(o, entry, now) == StepAt(o', entry, now)
    ensures forall day :: Plan(o, entry, day) == Plan(o', entry, day)
  {
  }

  /** The night's clock is untouched and no step is announced. */
  ghost predicate ClockUntouched(s: State, o: Outcome) {
    && o.next.phase == s.phase && o.next.nightStep == s.nightStep && o.next.stepDeadline == s.stepDeadline
    && o.next.paused == s.paused && o.next.pendingEnd == s.pendingEnd && o.next.lastTickAt == s.lastTickAt
    && o.next.day == s.day && SameSeconds(o.next.settings, s.settings)
    && Silent(o.events, IsNightStep)
  }

  lemma RejectionUntouched(s: State)
    ensures forall code :: ClockUntouched(s, Rejected(s, code))
  {
  }

  lemma SubmissionUntouched(s: State, sender: PlayerId, target: PlayerId)
    ensures ClockUntouched(s, SubmitKillRule(s, sender, target))
    ensures ClockUntouched(s, SubmitHealRule(s, sender, target))
    ensures ClockUntouched(s, SubmitCheckRule(s, sender, target))
  {
    hide RoleError, LifeErrors, RoleOf;
  }

  lemma HostUntouched(s: State, host: PlayerId, on: bool, env: Env)
    ensures ClockUntouched(s, Voice(s, host, on))
    ensures !s.paused ==> ClockUntouched(s, Resume(s, host, env))
  {
    hide Resumed;
  }

  /** Submissions leave the night's clock alone and announce no step. */
  lemma SubmissionKeepsClock(s: State, a: Action, env: Env)
    requires Indexable(s) && s.phase.Night? && !s.paused && Undisturbing(Submit(a, env))
    ensures ClockUntouched(s, Apply(s, a, env))
  {
    hide ClockUntouched, SubmitKillRule, SubmitHealRule, SubmitCheckRule, Voice, Resume;
    RejectionUntouched(s);
    match a {
      case SubmitKill(sender, target) => SubmissionUntouched(s, sender, target);
      case SubmitHeal(sender, target) => SubmissionUntouched(s, sender, target);
      case SubmitCheck(sender, target) => SubmissionUntouched(s, sender, target);
      case ToggleVoice(host, on) => HostUntouched(s, host, on, env);
      case ResumeGame(host) => HostUntouched(s, host, false, env);
      case _ =>
    }
  }

  lemma TickOnPlan(s: State, now: Time, env: Env, o: Options, entry: Time)
    requires Inv(s) && OnPlan(s, o, entry) && SaneEnv(env)
    ensures
      var m := if now > s.lastTickAt then now else s.lastTickAt;
      var step := StepAt(o, entry, m);
      var r := Tick(s, now, env);
      && (if step.StepResolved? then r.next.phase.Day?
          else OnPlan(r.next, o, entry) && r.next.lastTickAt == m && r.next.day == s.day)
      && Select(r.events, IsNightStep) == Between(Plan(o, entry, s.day), Due(s.nightStep), Due(step))
  {
    hide Inv, Tick, Select, Plan, StepEnd, StepAt;
    PlanIsSteps(o, entry, s.day);
    if now <= s.lastTickAt {
      NothingSelected();
      NoLateTick(s, now, env);
      assert Between(Plan(o, entry, s.day), Due(s.nightStep), Due(s.nightStep)) == [];
    } else {
      LateTickOnPlan(s, now, env, o, entry);
    }
  }

  lemma NoLateTick(s: State, now: Time, env: Env)
    requires Inv(s) && now <= s.lastTickAt
    ensures Tick(s, now, env) == Done(s, [])
  {
    hide ProperIds, People, Records;
  }

  lemma LateTickOnPlan(s: State, now: Time, env: Env, o: Options, entry: Time)
    requires Inv(s) && OnPlan(s, o, entry) && SaneEnv(env) && s.lastTickAt < now
    ensures
      var step := StepAt(o, entry, now);
      var r := Tick(s, now, env);
      && (if step.StepResolved? then r.next.phase.Day?
          else OnPlan(r.next, o, entry) && r.next.lastTickAt == now && r.next.day == s.day)
      && Select(r.events, IsNightStep) == Between(Plan(o, entry, s.day), Due(s.nightStep), Due(step))
      && (!step.StepResolved? ==> r.events == PubAll(Between(Plan(o, entry, s.day), Due(s.nightStep), Due(step))))
  {
    hide Inv, TickNight, ResolveNight, Select, Plan, PubAll, StepEnd, StepAt;
    SameSecondsSamePlan(o, s.settings, entry);
    var plan := Plan(o, entry, s.day);
    PlanIsSteps(o, entry, s.day);
    var s1 := s.(lastTickAt := now);
    ActiveTick(s, now);
    LaterRank(o, entry, s.lastTickAt, now);
    TickFollowsPlan(s1, now, env, entry);
    var step := StepAt(o, entry, now);
    var due := plan[Due(s.nightStep)..Due(step)];
    assert forall i :: 0 <= i < |due| ==> due[i].NightStepChanged?;
    SelectPubAll(due);
    StepAtRange(o, entry, now);
    if step.StepResolved? {
      Resolves(s1, env);
      DueThenSilence(due, ResolveNight(Cleared(s1), env).events);
    } else {
      StepEndPositive(o, entry, s.nightStep, step, s.stepDeadline);
    }
  }

  lemma StepAtRange(o: Options, entry: Time, now: Time)
    ensures StepAt(o, entry, now).StepResolved? || StepsLeft(StepAt(o, entry, now)) > 0
  {
  }

  lemma PlanIsSteps(o: Options, entry: Time, day: int)
    ensures forall i :: 0 <= i < 3 ==> Plan(o, entry, day)[i].NightStepChanged?
  {
  }

  lemma NothingSelected()
    ensures Select([], IsNightStep) == []
  {
  }

  lemma DueThenSilence(due: seq<Event>, rest: seq<Envelope>)
    requires (forall i :: 0 <= i < |due| ==> due[i].NightStepChanged?) && Silent(rest, IsNightStep)
    ensures Select(PubAll(due) + rest, IsNightStep) == due
  {
    SelectPubAll(due);
    SelectConcat(PubAll(due), rest, IsNightStep);
    SelectSilent(rest, IsNightStep);
  }

  lemma StepEndPositive(o: Options, entry: Time, a: NightStep, b: NightStep, deadline: Time)
    requires StepsLeft(a) > 0 && StepsLeft(b) > 0 && Rank(a) <= Rank(b)
    requires deadline == StepEnd(o, entry, a) && ZERO_TIME < deadline
    ensures ZERO_TIME < StepEnd(o, entry, b)
  {
  }

  lemma LaterRank(o: Options, entry: Time, a: Time, b: Time)
    requires a <= b
    ensures Rank(StepAt(o, entry, a)) <= Rank(StepAt(o, entry, b))
  {
  }

  lemma Resolves(s: State, env: Env)
    requires Inv(s) && s.phase.Night? && SaneEnv(env)
    ensures
      var r := ResolveNight(Cleared(s), env);
      r.error.None? && r.next.phase.Day? && Silent(r.events, IsNightStep)
  {
    ResolveNightKeeps(s, Cleared(s), env);
    ResolutionIsStepless(Cleared(s), env);
  }

  lemma ResolutionIsStepless(s: State, env: Env)
    ensures Silent(ResolveNight(s, env).events, IsNightStep)
  {
  }

  /** What an undisturbed night looks like after a run: a function of the plan and the latest tick alone. */
  ghost predicate Appears(t: State, es: seq<Envelope>, o: Options, entry: Time, day: int, latest: Time) {
    var step := StepAt(o, entry, latest);
    && Select(es, IsNightStep) == Plan(o, entry, day)[..Due(step)]
    && (if step.StepResolved? then t.phase.Day? else OnPlan(t, o, entry) && t.lastTickAt == latest && t.day == day)
  }

  lemma NightStepAppears(m: State, es: seq<Envelope>, st: Step, o: Options, entry: Time, day: int, latest: Time)
    requires Inv(m) && m.phase.Night? && SaneEnv(st.env) && Undisturbing(st) && Appears(m, es, o, entry, day, latest)
    ensures
      var r := Exec(m, st);
      Appears(r.next, es + r.events, o, entry, day, if st.Clock? && st.now > latest then st.now else latest)
  {
    hide Inv, Tick, Apply;
    var r := Exec(m, st);
    SelectConcat(es, r.events, IsNightStep);
    match st {
      case Submit(a, env) =>
        InvIndexable(m);
        SubmissionKeepsClock(m, a, env);
        SelectSilent(r.events, IsNightStep);
      case Clock(now, env) =>
        TickOnPlan(m, now, env, o, entry);
        LaterRank(o, entry, latest, if now > latest then now else latest);
    }
  }

  /**
   Night timing is independent of deaths and submissions. A night entered at `entry` and
   left to itself announces its steps exactly as planned up to the latest tick, and
   resolves exactly when that tick reaches the end of the plan.
   */
  lemma {:induction false} NightRunsToPlan(s: State, steps: seq<Step>, o: Options, entry: Time)
    requires Inv(s) && Sane(steps)
    requires OnPlan(s, o, entry) && s.nightStep.StepIntro? && s.lastTickAt == entry
    requires forall i :: 0 <= i < |steps| ==> Undisturbing(steps[i])
    requires steps != [] ==> NightThroughout(s, steps[..|steps| - 1])
    ensures Appears(After(s, steps), Trace(s, steps), o, entry, s.day, Latest(entry, steps))
  {
    hide Inv, Exec, Appears, OnPlan, Undisturbing, Follows;
    if steps == [] {
      NightOpens(s, o, entry);
    } else {
      var front, st := steps[..|steps| - 1], steps[|steps| - 1];
      NightRunsToPlan(s, front, o, entry);
      NightStepAppears(After(s, front), Trace(s, front), st, o, entry, s.day, Latest(entry, front));
    }
  }

  lemma NightOpens(s: State, o: Options, entry: Time)
    requires OnPlan(s, o, entry) && s.nightStep.StepIntro? && s.lastTickAt == entry
    ensures Appears(s, [], o, entry, s.day, entry)
  {
  }

  /**
   Two nights of two games, entered at the same instant of the same day with the same
   seconds and ticked to the same latest instant, announce the same steps with the same
   deadlines, whoever is dead in them and whatever was submitted.
   */
  lemma NightsLookAlike(s: State, steps: seq<Step>, s': State, steps': seq<Step>, entry: Time)
    requires Inv(s) && Sane(steps) && Inv(s') && Sane(steps')
    requires OnPlan(s, s.settings, entry) && s.nightStep.StepIntro? && s.lastTickAt == entry
    requires OnPlan(s', s.settings, entry) && s'.nightStep.StepIntro? && s'.lastTickAt == entry
    requires s.day == s'.day
    requires forall i :: 0 <= i < |steps| ==> Undisturbing(steps[i])
    requires forall i :: 0 <= i < |steps'| ==> Undisturbing(steps'[i])
    requires steps != [] ==> NightThroughout(s, steps[..|steps| - 1])
    requires steps' != [] ==> NightThroughout(s', steps'[..|steps'| - 1])
    requires Latest(entry, steps) == Latest(entry, steps')
    ensures Select(Trace(s, steps), IsNightStep) == Select(Trace(s', steps'), IsNightStep)
    ensures After(s, steps).phase == After(s', steps').phase
  {
    hide Inv, Exec, Undisturbing, Follows;
    NightRunsToPlan(s, steps, s.settings, entry);
    NightRunsToPlan(s', steps', s.settings, entry);
  }

  /** Entering a night puts it on the plan that starts at the entry instant. */
  lemma EntryIsOnPlan(s: State, now: Time)
    requires !s.paused && s.pendingEnd.None? && ZERO_TIME < now
    ensures
      var t := EnterNight(s, now).state;
      OnPlan(t, s.settings, now) && t.nightStep.StepIntro? && t.lastTickAt == now
    ensures EnterNight(s, now).events
         == [Pub(PhaseChanged(Night, s.day, ZERO_TIME)), Pub(NightStepChanged(StepIntro, s.day, now + Seconds(20)))]
  {
  }

  /** The plan in seconds after the entry: 20, then the configured or default length of each step. */
  lemma PlanInSeconds(o: Options, entry: Time)
    ensures
      var mafia := if o.mafiaSeconds > 0 then o.mafiaSeconds else 30;
      var police := if o.policeSeconds > 0 then o.policeSeconds else 10;
      var doctor := if o.doctorSeconds > 0 then o.doctorSeconds else 10;
      && StepEnd(o, entry, StepIntro) == entry + Seconds(20)
      && StepEnd(o, entry, StepMafia) == entry + Seconds(20 + mafia)
      && StepEnd(o, entry, StepPolice) == entry + Seconds(20 + mafia + police)
      && StepEnd(o, entry, StepDoctor) == entry + Seconds(20 + mafia + police + doctor)
  {
  }

  // ---------------------------------------------------------------- accepted submissions

  /**
   In a reachable state a kill is accepted exactly from the representative, in the mafia's
   step, once per night, against a living player who is not mafia.
   */
  lemma KillAcceptedIff(s: State, sender: PlayerId, target: PlayerId, env: Env)
    requires Inv(s)
    ensures Apply(s, SubmitKill(sender, target), env).error.None? <==>
      && s.phase.Night? && s.nightStep.StepMafia? && s.killTarget.None?
      && sender == s.representative && sender != NOBODY
      && IsAlive(s.players, target) && !RoleOf(s.players, target).Mafia?
  {
    hide Records, OpenBallot;
    if Has(s.players, sender) {
      assert s.players[Index(s.players, sender)].id != NOBODY;
    }
  }

  lemma HealNeeds(s: State, sender: PlayerId, target: PlayerId, env: Env)
    requires Inv(s)
    ensures Apply(s, SubmitHeal(sender, target), env).error.None? <==>
      && s.phase.Night? && s.nightStep.StepDoctor? && s.healTarget.None?
      && IsAlive(s.players, sender) && RoleOf(s.players, sender).Doctor?
      && IsAlive(s.players, target) && (sender == target ==> s.settings.selfHeal)
  {
    hide Records, OpenBallot, ProperIds, Balanced, RightRepresentative;
  }

  /**
   A check is accepted exactly from a living police officer, in the police's step, about
   another living player, while the history has no record of the current day.
   */
  lemma CheckAcceptedIff(s: State, sender: PlayerId, target: PlayerId, env: Env)
    requires Inv(s)
    ensures Apply(s, SubmitCheck(sender, target), env).error.None? <==>
      && s.phase.Night? && s.nightStep.StepPolice?
      && (forall i :: 0 <= i < |s.history| ==> s.history[i].day != s.day)
      && IsAlive(s.players, sender) && RoleOf(s.players, sender).Police?
      && IsAlive(s.players, target) && sender != target
  {
    hide OpenBallot, ProperIds, Balanced, RightRepresentative, RoleOf;
  }

  // ---------------------------------------------------------------- the outcome of the night

  /** The target this step gets accepted as the night's kill (or heal), if any. */
  function AcceptedKill(s: State, st: Step): Option<PlayerId>
    requires Indexable(s)
  {
    if st.Submit? && st.action.SubmitKill? && Exec(s, st).error.None? then Some(st.action.target) else None
  }

  function AcceptedHeal(s: State, st: Step): Option<PlayerId>
    requires Indexable(s)
  {
    if st.Submit? && st.action.SubmitHeal? && Exec(s, st).error.None? then Some(st.action.target) else None
  }

  /** The first kill accepted in a run. */
  ghost function FirstKill(s: State, steps: seq<Step>): Option<PlayerId>
    requires Inv(s) && Sane(steps)
  {
    if steps == [] then None
    else
      var front := steps[..|steps| - 1];
      if FirstKill(s, front).Some? then FirstKill(s, front) else AcceptedKill(After(s, front), steps[|steps| - 1])
  }

  ghost function FirstHeal(s: State, steps: seq<Step>): Option<PlayerId>
    requires Inv(s) && Sane(steps)
  {
    if steps == [] then None
    else
      var front := steps[..|steps| - 1];
      if FirstHeal(s, front).Some? then FirstHeal(s, front) else AcceptedHeal(After(s, front), steps[|steps| - 1])
  }

  lemma ActionSetsTargets(s: State, a: Action, env: Env)
    requires Inv(s) && s.phase.Night? && Apply(s, a, env).next.phase.Night?
    ensures
      var t := Apply(s, a, env).next;
      && t.killTarget == (if s.killTarget.Some? then s.killTarget else AcceptedKill(s, Submit(a, env)))
      && t.healTarget == (if s.healTarget.Some? then s.healTarget else AcceptedHeal(s, Submit(a, env)))
  {
    hide Inv, SubmitKillRule, SubmitHealRule, SubmitCheckRule, Pause, Resume, ResolveNight, ForceEnd;
    hide NextSpeaker, DayToVote, Tally, LifeError, LifeErrors, StartFromLobby, AcceptedKill, AcceptedHeal;
    InvIndexable(s);
    AcceptedByAction(s, a, env);
    match a {
      case SubmitKill(sender, target) => SubmissionSetsTargets(s, sender, target);
      case SubmitHeal(sender, target) => SubmissionSetsTargets(s, sender, target);
      case SubmitCheck(sender, target) => SubmissionSetsTargets(s, sender, target);
      case StartGame(host, o) => NoSecondStart(s, host, o, env);
      case EndNightEarly(_) => ResolutionPhase(s, env);
      case ForceEndGame(host) => HostKeepsTargets(s, host, env);
      case PauseGame(host) => HostKeepsTargets(s, host, env);
      case ResumeGame(host) => HostKeepsTargets(s, host, env);
      case _ =>
    }
  }

  lemma AcceptedByAction(s: State, a: Action, env: Env)
    requires Indexable(s)
    ensures AcceptedKill(s, Submit(a, env))
         == if a.SubmitKill? && Apply(s, a, env).error.None? then Some(a.target) else None
    ensures AcceptedHeal(s, Submit(a, env))
         == if a.SubmitHeal? && Apply(s, a, env).error.None? then Some(a.target) else None
  {
    hide Apply;
  }

  lemma SubmissionSetsTargets(s: State, sender: PlayerId, target: PlayerId)
    ensures
      var o := SubmitKillRule(s, sender, target);
      o.next.healTarget == s.healTarget && o.next.killTarget == (if o.error.None? then Some(target) else s.killTarget)
      && (o.error.None? ==> s.killTarget.None?)
    ensures
      var o := SubmitHealRule(s, sender, target);
      o.next.killTarget == s.killTarget && o.next.healTarget == (if o.error.None? then Some(target) else s.healTarget)
      && (o.error.None? ==> s.healTarget.None?)
    ensures
      var o := SubmitCheckRule(s, sender, target);
      o.next.killTarget == s.killTarget && o.next.healTarget == s.healTarget
  {
    hide RoleError, LifeErrors, RoleOf;
  }

  lemma HostKeepsTargets(s: State, host: PlayerId, env: Env)
    ensures Pause(s, host, env).next.killTarget == Resume(s, host, env).next.killTarget
         == ForceEnd(s, host).next.killTarget == s.killTarget
    ensures Pause(s, host, env).next.healTarget == Resume(s, host, env).next.healTarget
         == ForceEnd(s, host).next.healTarget == s.healTarget
  {
  }

  lemma ResolutionPhase(s: State, env: Env)
    ensures ResolveNight(s, env).error.None? ==> ResolveNight(s, env).next.phase.Day?
    ensures ResolveNight(s, env).error.Some? ==> ResolveNight(s, env).next == s
  {
  }

  lemma StepSetsTargets(s: State, st: Step)
    requires Inv(s) && s.phase.Night? && SaneEnv(st.env) && Exec(s, st).next.phase.Night?
    ensures
      var t := Exec(s, st).next;
      && t.killTarget == (if s.killTarget.Some? then s.killTarget else AcceptedKill(s, st))
      && t.healTarget == (if s.healTarget.Some? then s.healTarget else AcceptedHeal(s, st))
  {
    hide Apply, Inv;
    match st {
      case Submit(a, env) => ActionSetsTargets(s, a, env);
      case Clock(now, env) => TickKeepsTargets(s, now, env);
    }
  }

  lemma TickKeepsTargets(s: State, now: Time, env: Env)
    requires Inv(s) && s.phase.Night? && SaneEnv(env) && Tick(s, now, env).next.phase.Night?
    ensures
      var t := Tick(s, now, env).next;
      t.killTarget == s.killTarget && t.healTarget == s.healTarget
  {
    hide RightRepresentative, Balanced, Kill;
    if !s.paused && s.lastTickAt < now && (s.pendingEnd.None? || now < s.pendingEnd.value.deadline) {
      ActiveTick(s, now);
      var s1 := s.(lastTickAt := now);
      var pre, step, deadline := NightTickForm(s1, now, env);
      ResolveNightKeeps(s1, s1.(nightStep := NoStep, stepDeadline := ZERO_TIME), env);
    }
  }

  /** During a night the stored targets are the first accepted ones. */
  lemma {:induction false} TargetsAreFirstAccepted(s: State, steps: seq<Step>)
    requires Inv(s) && Sane(steps) && s.killTarget.None? && s.healTarget.None? && NightThroughout(s, steps)
    ensures After(s, steps).killTarget == FirstKill(s, steps) && After(s, steps).healTarget == FirstHeal(s, steps)
  {
    hide Inv, Exec, AcceptedKill, AcceptedHeal;
    if steps != [] {
      var front, st := steps[..|steps| - 1], steps[|steps| - 1];
      TargetsAreFirstAccepted(s, front);
      StepSetsTargets(After(s, front), st);
    }
  }

  // ---------------------------------------------------------------- submission windows

  /** A night that has just been entered and is left to itself for these steps. */
  ghost predicate UndisturbedNight(s: State, steps: seq<Step>, entry: Time)
    requires Inv(s) && Sane(steps)
  {
    && OnPlan(s, s.settings, entry) && s.nightStep.StepIntro? && s.lastTickAt == entry
    && s.killTarget.None? && s.healTarget.None?
    && (forall i :: 0 <= i < |steps| ==> Undisturbing(steps[i]))
    && NightThroughout(s, steps)
  }

  lemma StepByLatestTick(s: State, steps: seq<Step>, entry: Time)
    requires Inv(s) && Sane(steps) && UndisturbedNight(s, steps, entry)
    ensures
      var m := After(s, steps);
      m.phase.Night? && m.nightStep == StepAt(s.settings, entry, Latest(entry, steps))
    ensures After(s, steps).killTarget == FirstKill(s, steps) && After(s, steps).healTarget == FirstHeal(s, steps)
  {
    hide Inv, Exec, Undisturbing, StepAt, StepEnd, Plan;
    NightRunsToPlan(s, steps, s.settings, entry);
    TargetsAreFirstAccepted(s, steps);
  }

  lemma WindowOfStep(o: Options, entry: Time, now: Time)
    ensures StepAt(o, entry, now).StepMafia? <==> StepEnd(o, entry, StepIntro) <= now < StepEnd(o, entry, StepMafia)
    ensures StepAt(o, entry, now).StepPolice? <==> StepEnd(o, entry, StepMafia) <= now < StepEnd(o, entry, StepPolice)
    ensures StepAt(o, entry, now).StepDoctor? <==> StepEnd(o, entry, StepPolice) <= now < StepEnd(o, entry, StepDoctor)
  {
  }

  /**
   When a kill is accepted, in terms of the night so far: its latest tick lies in the
   mafia's window after the entry instant, no kill was accepted earlier that night, and the
   representative names a living player who is not mafia.
   */
  lemma KillWindow(s: State, steps: seq<Step>, entry: Time, sender: PlayerId, target: PlayerId, env: Env)
    requires Inv(s) && Sane(steps) && UndisturbedNight(s, steps, entry)
    ensures
      var m, now := After(s, steps), Latest(entry, steps);
      Apply(m, SubmitKill(sender, target), env).error.None? <==>
        && StepEnd(s.settings, entry, StepIntro) <= now < StepEnd(s.settings, entry, StepMafia)
        && FirstKill(s, steps).None?
        && sender == m.representative && sender != NOBODY
        && IsAlive(m.players, target) && !RoleOf(m.players, target).Mafia?
  {
    hide Inv, Apply, StepAt, StepEnd, UndisturbedNight, IsAlive, RoleOf;
    StepByLatestTick(s, steps, entry);
    WindowOfStep(s.settings, entry, Latest(entry, steps));
    KillAcceptedIff(After(s, steps), sender, target, env);
  }

  /** The same for a heal: the doctor's window, once per night, by a living doctor for a living player. */
  lemma HealWindow(s: State, steps: seq<Step>, entry: Time, sender: PlayerId, target: PlayerId, env: Env)
    requires Inv(s) && Sane(steps) && UndisturbedNight(s, steps, entry)
    ensures
      var m, now := After(s, steps), Latest(entry, steps);
      Apply(m, SubmitHeal(sender, target), env).error.None? <==>
        && StepEnd(s.settings, entry, StepPolice) <= now < StepEnd(s.settings, entry, StepDoctor)
        && FirstHeal(s, steps).None?
        && IsAlive(m.players, sender) && RoleOf(m.players, sender).Doctor?
        && IsAlive(m.players, target) && (sender == target ==> m.settings.selfHeal)
  {
    hide Inv, Apply, StepAt, StepEnd, UndisturbedNight, IsAlive, RoleOf;
    StepByLatestTick(s, steps, entry);
    WindowOfStep(s.settings, entry, Latest(entry, steps));
    HealNeeds(After(s, steps), sender, target, env);
  }

  /** And for a check: the police's window, while the history has no record of the day. */
  lemma CheckWindow(s: State, steps: seq<Step>, entry: Time, sender: PlayerId, target: PlayerId, env: Env)
    requires Inv(s) && Sane(steps) && UndisturbedNight(s, steps, entry)
    ensures
      var m, now := After(s, steps), Latest(entry, steps);
      Apply(m, SubmitCheck(sender, target), env).error.None? <==>
        && StepEnd(s.settings, entry, StepMafia) <= now < StepEnd(s.settings, entry, StepPolice)
        && (forall i :: 0 <= i < |m.history| ==> m.history[i].day != m.day)
        && IsAlive(m.players, sender) && RoleOf(m.players, sender).Police?
        && IsAlive(m.players, target) && sender != target
  {
    hide Inv, Apply, StepAt, StepEnd, UndisturbedNight, IsAlive, RoleOf;
    StepByLatestTick(s, steps, entry);
    WindowOfStep(s.settings, entry, Latest(entry, steps));
    CheckAcceptedIff(After(s, steps), sender, target, env);
  }

  // ---------------------------------------------------------------- the fate of the night

  /** What the first accepted submissions of a night come to. */
  function Fate(kill: Option<PlayerId>, heal: Option<PlayerId>): Event {
    if kill.Some? && heal != kill then DeathAnnounced(kill.value) else PeacefulNight
  }

  function Survivors(ps: seq<Player>, fate: Event): seq<Player> {
    if fate.DeathAnnounced? then Kill(ps, fate.victim) else ps
  }

  /** The resolution of a night in closed form; the representative stays. */
  lemma ResolutionIsFate(s: State, env: Env)
    requires ProperIds(s.players) && LiveTargets(s.players, s.killTarget, s.healTarget)
    requires RightRepresentative(s.players, s.representative)
    ensures
      var fate := Fate(s.killTarget, s.healTarget);
      var m := Morning(s, Survivors(s.players, fate), s.representative, env);
      ResolveNight(s, env)
        == Done(ScheduleEnd(m, env.later), [Pub(PhaseChanged(Day, s.day + 1, m.deadline)), Pub(fate)])
  {
    hide RightRepresentative, ProperIds, Kill, EvaluateEnd, RoleOf;
    var v := Victim(s);
    if v.Some? {
      VictimIsNotRepresentative(s.players, v.value, s.representative);
    }
  }

  lemma ScheduleKeepsPeople(s: State, now: Time)
    ensures
      var t := ScheduleEnd(s, now);
      t.players == s.players && t.representative == s.representative && t.deadline == s.deadline
  {
  }

  lemma FateFacts(s: State, env: Env)
    requires Inv(s) && s.phase.Night?
    ensures
      var o := ResolveNight(s, env);
      var fate := Fate(s.killTarget, s.healTarget);
      && o.error.None?
      && o.events == [Pub(PhaseChanged(Day, s.day + 1, o.next.deadline)), Pub(fate)]
      && o.next.players == Survivors(s.players, fate)
      && o.next.representative == s.representative
      && (fate.DeathAnnounced? ==> IsAlive(s.players, fate.victim) && !RoleOf(s.players, fate.victim).Mafia?)
  {
    hide ResolveNight, RightRepresentative, Kill, ScheduleEnd, ProperIds, IsAlive, RoleOf;
    ResolutionIsFate(s, env);
    ScheduleKeepsPeople(Morning(s, Survivors(s.players, Fate(s.killTarget, s.healTarget)), s.representative, env),
                        env.later);
  }

  lemma SameMorning(s: State, now: Time, ps: seq<Player>, rep: PlayerId, env: Env)
    ensures Morning(Cleared(s), ps, rep, env) == Morning(s, ps, rep, env)
         == Morning(Cleared(s.(lastTickAt := now)), ps, rep, env)
  {
  }

  /** Neither the night's step nor the last tick matters to the resolution. */
  lemma FateIgnoresClock(s: State, now: Time, env: Env)
    requires Inv(s) && s.phase.Night?
    ensures ResolveNight(Cleared(s), env) == ResolveNight(s, env)
    ensures ResolveNight(Cleared(s.(lastTickAt := now)), env) == ResolveNight(s, env)
  {
    hide Inv, ResolveNight, RightRepresentative, ScheduleEnd, ProperIds, LiveTargets, Survivors, Fate, Morning;
    NightTargets(s, s);
    ResolutionIsFate(s, env);
    ResolutionIsFate(Cleared(s), env);
    ResolutionIsFate(Cleared(s.(lastTickAt := now)), env);
    SameMorning(s, now, Survivors(s.players, Fate(s.killTarget, s.healTarget)), s.representative, env);
  }

  lemma VictimIsNotRepresentative(ps: seq<Player>, v: PlayerId, rep: PlayerId)
    requires ProperIds(ps) && RightRepresentative(ps, rep) && IsAlive(ps, v) && !RoleOf(ps, v).Mafia?
    ensures v != rep
  {
    assert ps[Index(ps, v)].id == v;
  }

  lemma EndOfNight(s: State, st: Step) returns (pre: seq<Envelope>)
    requires Inv(s) && s.phase.Night? && SaneEnv(st.env) && Exec(s, st).next.phase.Day?
    ensures OnlySteps(pre)
    ensures
      var r := Exec(s, st);
      var o := ResolveNight(Cleared(s), st.env);
      r.events == pre + o.events && r.next == o.next && o.error.None?
  {
    hide Inv, ResolveNight, TickNight, Fate, Follows;
    InvIndexable(s);
    match st {
      case Submit(a, env) =>
        pre := [];
        ActionEndsNight(s, a, env);
        FateFacts(s, env);
        FateIgnoresClock(s, s.lastTickAt, env);
        assert [] + ResolveNight(s, env).events == ResolveNight(s, env).events;
      case Clock(now, env) =>
        ActiveTick(s, now);
        var step, deadline;
        var s1 := s.(lastTickAt := now);
        NightIsInStep(s1);
        pre, step, deadline := NightTickForm(s1, now, env);
        ResolveNightKeeps(s1, Cleared(s1), env);
        FateFacts(s, env);
        FateIgnoresClock(s, now, env);
    }
  }

  lemma NightIsInStep(s: State)
    requires Inv(s) && s.phase.Night?
    ensures InStep(s)
  {
  }

  lemma ActionEndsNight(s: State, a: Action, env: Env)
    requires Inv(s) && s.phase.Night? && Apply(s, a, env).next.phase.Day?
    ensures a.EndNightEarly? && Apply(s, a, env) == ResolveNight(s, env)
  {
    hide RoleOf, Balanced, RightRepresentative, Index, LifeErrors, RoleError, IsAlive, Tally, ResolveNight;
  }

  /**
   A night ends in one way: the first accepted kill target dies unless it is also the
   first accepted heal target. The victim is a living non-mafia, so the night never
   replaces the representative and never meets an unknown victim.
   */
  lemma NightOutcome(s: State, steps: seq<Step>, st: Step)
    requires Inv(s) && Sane(steps) && s.killTarget.None? && s.healTarget.None? && NightThroughout(s, steps)
    requires SaneEnv(st.env) && Exec(After(s, steps), st).next.phase.Day?
    ensures
      var m := After(s, steps);
      var o := Exec(m, st);
      var fate := Fate(FirstKill(s, steps), FirstHeal(s, steps));
      && o.error.None?
      && Select(o.events, IsNightResult) == [fate]
      && o.next.players == (if fate.DeathAnnounced? then Kill(m.players, fate.victim) else m.players)
      && o.next.representative == m.representative
      && (fate.DeathAnnounced? ==> IsAlive(m.players, fate.victim) && !RoleOf(m.players, fate.victim).Mafia?)
  {
    hide Inv, Exec, ResolveNight, AcceptedKill, AcceptedHeal, IsAlive, RoleOf, Kill;
    var m := After(s, steps);
    TargetsAreFirstAccepted(s, steps);
    StepKeeps(m, st);
    var pre := EndOfNight(m, st);
    FateFacts(m, st.env);
    FateIgnoresClock(m, m.lastTickAt, st.env);
    var o := ResolveNight(Cleared(m), st.env);
    SelectConcat(pre, o.events, IsNightResult);
    SelectSilent(pre, IsNightResult);
    assert o.events == [o.events[0]] + [o.events[1]];
    SelectConcat([o.events[0]], [o.events[1]], IsNightResult);
    SelectOne(o.events[0], IsNightResult);
    SelectOne(o.events[1], IsNightResult);
  }
}
