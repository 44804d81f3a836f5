/**
 What a night sounds like to a viewer who is neither mafia nor police, the public screen
 among them: everything that reaches it is fixed by the entry instant, the configured
 seconds, the ticks and the host's voice switch. Nothing that is submitted shows.
 */
module Bystanders {
  import opened GameTypes
  import opened Roster
  import opened Rules
  import opened Invariants
  import opened Runs
  import opened Nights
  import opened Replica
  import Pausing

  predicate Bystander(ps: seq<Player>, viewer: PlayerId) {
    !RoleOf(ps, viewer).Mafia? && !RoleOf(ps, viewer).Police?
  }

  /** The events of a batch that reach a viewer, in order. */
  function Received(es: seq<Envelope>, viewer: PlayerId, ps: seq<Player>): seq<Event> {
    if es == [] then []
    else
      var front, e := Received(es[..|es| - 1], viewer, ps), es[|es| - 1];
      if Reaches(e, viewer, ps) then front + [e.event] else front
  }

  /** Everything that reaches a viewer over a run. */
  ghost function Heard(viewer: PlayerId, s: State, steps: seq<Step>): seq<Event>
    requires Inv(s) && Sane(steps)
  {
    if steps == [] then []
    else
      var front := steps[..|steps| - 1];
      var o := Exec(After(s, front), steps[|steps| - 1]);
      Heard(viewer, s, front) + Received(o.events, viewer, o.reply.players)
  }

  // ---------------------------------------------------------------- the script of a night

  /** The host switches the voice, with the night's latest tick at `at`. */
  datatype Mark = Mark(at: Time, on: bool)

  predicate Switches(host: PlayerId, st: Step) { st.Submit? && st.action.ToggleVoice? && st.action.host == host }

  function Marks(host: PlayerId, entry: Time, steps: seq<Step>): seq<Mark> {
    if steps == [] then []
    else
      var front, st := steps[..|steps| - 1], steps[|steps| - 1];
      var marks := Marks(host, entry, front);
      if Switches(host, st) then marks + [Mark(Latest(entry, front), st.action.on)] else marks
  }

  function LastMark(entry: Time, marks: seq<Mark>): Time { if marks == [] then entry else marks[|marks| - 1].at }

  /** How many of the night's announcements are due by an instant. */
  function DueBy(o: Options, entry: Time, t: Time): (n: nat)
    ensures n <= 3
  {
    Due(StepAt(o, entry, t))
  }

  /** The announcements due after `a` and by `b`. */
  function Chapter(o: Options, entry: Time, day: int, a: Time, b: Time): seq<Event> {
    Between(Plan(o, entry, day), DueBy(o, entry, a), DueBy(o, entry, b))
  }

  function Prologue(o: Options, entry: Time, day: int, marks: seq<Mark>): seq<Event> {
    if marks == [] then []
    else
      var front, m := marks[..|marks| - 1], marks[|marks| - 1];
      Prologue(o, entry, day, front) + Chapter(o, entry, day, LastMark(entry, front), m.at) + [VoiceToggled(m.on)]
  }

  /** The whole script up to the latest tick. */
  function Script(o: Options, entry: Time, day: int, marks: seq<Mark>, latest: Time): seq<Event> {
    Prologue(o, entry, day, marks) + Chapter(o, entry, day, LastMark(entry, marks), latest)
  }

  lemma ChaptersJoin(o: Options, entry: Time, day: int, a: Time, b: Time, c: Time)
    requires a <= b <= c
    ensures Chapter(o, entry, day, a, c) == Chapter(o, entry, day, a, b) + Chapter(o, entry, day, b, c)
    ensures Chapter(o, entry, day, a, a) == []
  {
    hide Plan, StepAt;
    LaterRank(o, entry, a, b);
    LaterRank(o, entry, b, c);
  }

  lemma ScriptGrows(o: Options, entry: Time, day: int, marks: seq<Mark>, a: Time, b: Time)
    requires LastMark(entry, marks) <= a <= b
    ensures Script(o, entry, day, marks, b) == Script(o, entry, day, marks, a) + Chapter(o, entry, day, a, b)
  {
    hide Chapter;
    ChaptersJoin(o, entry, day, LastMark(entry, marks), a, b);
  }

  lemma ScriptSwitches(o: Options, entry: Time, day: int, marks: seq<Mark>, a: Time, on: bool)
    requires LastMark(entry, marks) <= a
    ensures Script(o, entry, day, marks + [Mark(a, on)], a) == Script(o, entry, day, marks, a) + [VoiceToggled(on)]
  {
    hide Chapter;
    assert (marks + [Mark(a, on)])[..|marks|] == marks;
    ChaptersJoin(o, entry, day, a, a, a);
  }

  lemma {:induction false} MarksAreBehind(host: PlayerId, entry: Time, steps: seq<Step>)
    ensures LastMark(entry, Marks(host, entry, steps)) <= Latest(entry, steps)
  {
    if steps != [] {
      MarksAreBehind(host, entry, steps[..|steps| - 1]);
    }
  }

  // ---------------------------------------------------------------- what one step lets through

  lemma ReceivedNone(viewer: PlayerId, ps: seq<Player>)
    ensures Received([], viewer, ps) == []
  {
  }

  lemma ReceivedOne(e: Envelope, viewer: PlayerId, ps: seq<Player>)
    ensures Received([e], viewer, ps) == if Reaches(e, viewer, ps) then [e.event] else []
  {
    assert [e][..0] == [];
  }

  lemma {:induction false} ReceivedAll(es: seq<Event>, viewer: PlayerId, ps: seq<Player>)
    ensures Received(PubAll(es), viewer, ps) == es
  {
    if es != [] {
      ReceivedAll(es[..|es| - 1], viewer, ps);
      assert PubAll(es)[..|es| - 1] == PubAll(es[..|es| - 1]);
    }
  }

  /** Nothing of a kill, a heal or a check reaches a bystander. */
  lemma SubmissionIsHidden(s: State, viewer: PlayerId, sender: PlayerId, target: PlayerId)
    requires Bystander(s.players, viewer)
    ensures Received(SubmitKillRule(s, sender, target).events, viewer, s.players) == []
    ensures Received(SubmitHealRule(s, sender, target).events, viewer, s.players) == []
    ensures Received(SubmitCheckRule(s, sender, target).events, viewer, s.players) == []
  {
    hide Received, LifeErrors, RoleOf;
    ReceivedNone(viewer, s.players);
    ReceivedOne(Envelope(TargetSelected(sender, target), LivingMafia), viewer, s.players);
    var team := TeamOf(RoleOf(s.players, target));
    ReceivedOne(Envelope(PoliceResult(sender, target, team), Only(sender)), viewer, s.players);
  }

  lemma SubmissionKeepsPlayers(s: State, sender: PlayerId, target: PlayerId)
    ensures SubmitKillRule(s, sender, target).reply.players == s.players
    ensures SubmitHealRule(s, sender, target).reply.players == s.players
    ensures SubmitCheckRule(s, sender, target).reply.players == s.players
  {
    hide RoleError, LifeErrors, RoleOf;
  }

  lemma VoiceIsHeard(s: State, viewer: PlayerId, host: PlayerId, on: bool)
    ensures Received(Voice(s, host, on).events, viewer, s.players)
         == if host == s.hostId then [VoiceToggled(on)] else []
    ensures Voice(s, host, on).reply.players == s.players
  {
    hide Received;
    ReceivedNone(viewer, s.players);
    ReceivedOne(Pub(VoiceToggled(on)), viewer, s.players);
  }

  lemma IdleResume(s: State, host: PlayerId, env: Env)
    requires !s.paused
    ensures Resume(s, host, env).events == []
  {
    hide Resumed;
  }

  lemma ActionHeard(s: State, viewer: PlayerId, a: Action, env: Env)
    requires Indexable(s) && s.phase.Night? && !s.paused && Undisturbing(Submit(a, env)) && Bystander(s.players, viewer)
    ensures
      var o := Apply(s, a, env);
      Received(o.events, viewer, o.reply.players)
        == if Switches(s.hostId, Submit(a, env)) then [VoiceToggled(a.on)] else []
  {
    hide Received, Bystander, SubmitKillRule, SubmitHealRule, SubmitCheckRule, Voice, Resume;
    hide NextSpeaker, DayToVote, Tally, LifeError, LifeErrors, StartFromLobby;
    match a {
      case SubmitKill(x, y) =>
        SubmissionIsHidden(s, viewer, x, y);
        SubmissionKeepsPlayers(s, x, y);
      case SubmitHeal(x, y) =>
        SubmissionIsHidden(s, viewer, x, y);
        SubmissionKeepsPlayers(s, x, y);
      case SubmitCheck(x, y) =>
        SubmissionIsHidden(s, viewer, x, y);
        SubmissionKeepsPlayers(s, x, y);
      case ToggleVoice(host, on) => VoiceIsHeard(s, viewer, host, on);
      case ResumeGame(host) =>
        IdleResume(s, host, env);
        ReceivedNone(viewer, Resume(s, host, env).reply.players);
      case StartGame(host, o) =>
        NoSecondStart(s, host, o, env);
        ReceivedNone(viewer, s.players);
      case _ => ReceivedNone(viewer, s.players);
    }
  }

  lemma TickHeard(s: State, viewer: PlayerId, now: Time, env: Env, o: Options, entry: Time)
    requires Inv(s) && OnPlan(s, o, entry) && SaneEnv(env) && Tick(s, now, env).next.phase.Night?
    ensures
      var r := Tick(s, now, env);
      Received(r.events, viewer, r.reply.players)
      == if s.lastTickAt < now then Chapter(o, entry, s.day, s.lastTickAt, now) else []
  {
    hide Inv, Tick, Received, Plan, StepAt, StepEnd, PubAll;
    var r := Tick(s, now, env);
    if s.lastTickAt < now {
      LateTickOnPlan(s, now, env, o, entry);
      ReceivedAll(Chapter(o, entry, s.day, s.lastTickAt, now), viewer, r.reply.players);
    } else {
      NoLateTick(s, now, env);
      ReceivedNone(viewer, r.reply.players);
    }
  }

  // ---------------------------------------------------------------- the theorem

  lemma StillBystander(s: State, steps: seq<Step>, viewer: PlayerId)
    requires Inv(s) && Sane(steps) && Bystander(s.players, viewer)
    ensures Bystander(After(s, steps).players, viewer)
  {
    hide Inv, After, SamePeople;
    PeopleStay(s, steps);
    SamePeopleSameIndex(s.players, After(s, steps).players, viewer);
  }

  /** Where an undisturbed night is after a run. */
  lemma StillOnPlan(s: State, steps: seq<Step>, entry: Time)
    requires Inv(s) && Sane(steps) && UndisturbedNight(s, steps, entry)
    ensures
      var m := After(s, steps);
      OnPlan(m, s.settings, entry) && m.lastTickAt == Latest(entry, steps) && m.day == s.day && m.phase.Night?
    ensures After(s, steps).hostId == s.hostId
  {
    hide Inv, Exec, Undisturbing, StepAt, StepEnd, Plan;
    NightRunsToPlan(s, steps, s.settings, entry);
    Pausing.SameHost(s, steps);
  }

  lemma StepHeard(m: State, viewer: PlayerId, st: Step, o: Options, entry: Time)
    requires Inv(m) && OnPlan(m, o, entry) && SaneEnv(st.env) && Undisturbing(st) && Bystander(m.players, viewer)
    requires Exec(m, st).next.phase.Night?
    ensures
      var r := Exec(m, st);
      Received(r.events, viewer, r.reply.players)
      == if st.Clock? && m.lastTickAt < st.now then Chapter(o, entry, m.day, m.lastTickAt, st.now)
         else if Switches(m.hostId, st) then [VoiceToggled(st.action.on)]
         else []
  {
    hide Inv, Apply, Tick, Received, Chapter, Bystander, Undisturbing;
    InvIndexable(m);
    match st {
      case Submit(a, env) => ActionHeard(m, viewer, a, env);
      case Clock(now, env) => TickHeard(m, viewer, now, env, o, entry);
    }
  }

  /** A bystander hears the script of the night: it depends on nothing that is submitted. */
  lemma {:induction false} BystanderHearsScript(s: State, steps: seq<Step>, viewer: PlayerId, entry: Time)
    requires Inv(s) && Sane(steps) && UndisturbedNight(s, steps, entry) && Bystander(s.players, viewer)
    ensures Heard(viewer, s, steps)
         == Script(s.settings, entry, s.day, Marks(s.hostId, entry, steps), Latest(entry, steps))
  {
    hide Inv, Exec, Undisturbing, Bystander, OnPlan, Script, Chapter, Received;
    if steps == [] {
      EmptyScript(s.settings, entry, s.day);
    } else {
      var front, st := steps[..|steps| - 1], steps[|steps| - 1];
      var m, marks, a := After(s, front), Marks(s.hostId, entry, front), Latest(entry, front);
      BystanderHearsScript(s, front, viewer, entry);
      StillBystander(s, front, viewer);
      StillOnPlan(s, front, entry);
      MarksAreBehind(s.hostId, entry, front);
      StepHeard(m, viewer, st, s.settings, entry);
      ScriptGrows(s.settings, entry, s.day, marks, a, Latest(entry, steps));
      if Switches(s.hostId, st) {
        ScriptSwitches(s.settings, entry, s.day, marks, a, st.action.on);
      }
      ChaptersJoin(s.settings, entry, s.day, a, a, a);
    }
  }

  lemma EmptyScript(o: Options, entry: Time, day: int)
    ensures Script(o, entry, day, [], entry) == []
  {
    hide Chapter;
    ChaptersJoin(o, entry, day, entry, entry, entry);
  }

  lemma {:induction false} SameScript(o: Options, o': Options, entry: Time, day: int, marks: seq<Mark>)
    requires SameSeconds(o, o')
    ensures Prologue(o, entry, day, marks) == Prologue(o', entry, day, marks)
    ensures forall latest :: Script(o, entry, day, marks, latest) == Script(o', entry, day, marks, latest)
  {
    hide Plan, StepAt;
    SameSecondsSamePlan(o, o', entry);
    if marks != [] {
      SameScript(o, o', entry, day, marks[..|marks| - 1]);
    }
  }

  /**
   Nights sound alike. In two games with the same seconds, over two undisturbed nights that
   were entered at the same instant of the same day and ticked to the same latest instant,
   with the same voice switches at the same ticks, everything that reaches a viewer who is
   neither mafia nor police is the same, in the same order, whoever is dead and whatever is
   submitted.
   */
  lemma NightsSoundAlike(s: State, steps: seq<Step>, s': State, steps': seq<Step>, viewer: PlayerId, entry: Time)
    requires Inv(s) && Sane(steps) && UndisturbedNight(s, steps, entry) && Bystander(s.players, viewer)
    requires Inv(s') && Sane(steps') && UndisturbedNight(s', steps', entry) && Bystander(s'.players, viewer)
    requires s.day == s'.day && SameSeconds(s.settings, s'.settings) && Latest(entry, steps) == Latest(entry, steps')
    requires Marks(s.hostId, entry, steps) == Marks(s'.hostId, entry, steps')
    ensures Heard(viewer, s, steps) == Heard(viewer, s', steps')
  {
    hide Inv, UndisturbedNight, Bystander, Script, Heard;
    BystanderHearsScript(s, steps, viewer, entry);
    BystanderHearsScript(s', steps', viewer, entry);
    SameScript(s.settings, s'.settings, entry, s.day, Marks(s.hostId, entry, steps));
  }
}
