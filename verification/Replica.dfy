/**
 The client's replica of the game: the wire form of an event, the reducer that folds
 it into the client's state, and the proof that the replica follows the engine over
 every run.
 */
module Replica {
  import opened GameTypes
  import opened Roster
  import opened Ballots
  import opened Dealing
  import opened Rules
  import opened Invariants
  import opened Runs
  import Views

  // ---------------------------------------------------------------- the wire

  /** Milliseconds since the epoch, rounded down. */
  function UnixMilli(t: Time): int { t / 1_000_000 }

  /** Instants before the epoch, the zero instant among them, go out as zero. */
  function TimeToMs(ms: int): int { if ms < 0 then 0 else ms }

  function WireMs(t: Time): int { TimeToMs(UnixMilli(t)) }

  /** Times go out in whole milliseconds, rounded down; a second is a thousand of them. */
  lemma WireIsMilliseconds(t: Time, n: nat)
    ensures t < 0 ==> WireMs(t) == 0
    ensures 0 <= t ==> WireMs(t) * 1_000_000 <= t < (WireMs(t) + 1) * 1_000_000
    ensures 0 <= t ==> WireMs(t + Seconds(n)) == WireMs(t) + 1000 * n
    ensures WireMs(ZERO_TIME) == 0
  {
  }

  datatype Payload =
    | GameStartedMsg
    | PhaseChangedMsg(phase: Phase, day: int, deadlineMs: int)
    | RoleRevealedMsg(role: Role, keyword: string)
    | CohortRevealedMsg(mafiaIds: seq<PlayerId>, representative: PlayerId)
    | SpeakerChangedMsg(player: PlayerId)
    | TargetSelectedMsg(target: PlayerId)
    | PoliceResultMsg(target: PlayerId, team: Team)
    | NightStepChangedMsg(step: NightStep, stepDeadlineMs: int)
    | GamePausedMsg(phase: Phase)
    | GameResumedMsg(phase: Phase, deadlineMs: int)
    | DeathAnnouncedMsg(victim: PlayerId)
    | PeacefulNightMsg
    | DiscussionTickMsg(secondsLeft: int)
    | VoteTalliedMsg(counts: map<PlayerId, nat>, eliminated: Option<PlayerId>, recount: bool)
    | EliminatedMsg(player: PlayerId, role: Role)
    | RepresentativeReassignedMsg(newId: PlayerId)
    | GameEndedMsg(winner: Option<Team>, reason: EndReason, roster: seq<Player>)
    | VoiceToggledMsg(on: bool)

  function BuildPayload(e: Event): Payload {
    match e
    case GameStarted(_) => GameStartedMsg
    case PhaseChanged(p, day, t) => PhaseChangedMsg(p, day, WireMs(t))
    case RoleRevealed(_, r, kw) => RoleRevealedMsg(r, kw)
    case CohortRevealed(ids, rep) => CohortRevealedMsg(ids, rep)
    case SpeakerChanged(id, _) => SpeakerChangedMsg(id)
    case TargetSelected(_, t) => TargetSelectedMsg(t)
    case PoliceResult(_, t, team) => PoliceResultMsg(t, team)
    case NightStepChanged(st, _, t) => NightStepChangedMsg(st, WireMs(t))
    case GamePaused(p) => GamePausedMsg(p)
    case GameResumed(p, t) => GameResumedMsg(p, WireMs(t))
    case DeathAnnounced(v) => DeathAnnouncedMsg(v)
    case PeacefulNight => PeacefulNightMsg
    case DiscussionTick(n) => DiscussionTickMsg(n)
    case VoteTallied(c, x, r) => VoteTalliedMsg(c, x, r)
    case Eliminated(id, r) => EliminatedMsg(id, r)
    case RepresentativeReassigned(_, n) => RepresentativeReassignedMsg(n)
    case GameEnded(w, r, ps) => GameEndedMsg(w, r, ps)
    case VoiceToggled(on) => VoiceToggledMsg(on)
  }

  /** Events without an instant lose nothing on the wire that a client is shown. */
  lemma WireKeepsContent(e: Event, f: Event)
    requires
      || e.DeathAnnounced? || e.PeacefulNight? || e.DiscussionTick? || e.VoteTallied? || e.Eliminated?
      || e.GameEnded? || e.VoiceToggled? || e.GamePaused? || e.CohortRevealed?
    requires BuildPayload(e) == BuildPayload(f)
    ensures e == f
  {
  }

  /** Who an envelope is delivered to; the public screen is the viewer without an ID. */
  predicate Reaches(e: Envelope, viewer: PlayerId, ps: seq<Player>) {
    match e.audience
    case Everyone => true
    case Only(p) => p == viewer
    case LivingMafia => IsAlive(ps, viewer) && RoleOf(ps, viewer).Mafia?
  }

  // ---------------------------------------------------------------- the reducer

  /** What a client knows about its own player. */
  datatype Own = Own(role: Role, keyword: string, team: Option<Team>, cohort: seq<PlayerId>)

  const NOTHING_OWN := Own(NoRole, "", None, [])

  /** The game as a client holds it. Deadlines are milliseconds, absent when undefined. */
  datatype Mirror = Mirror(
    phase: Phase,
    day: int,
    players: seq<Player>,
    speakerIdx: int,
    nightStep: NightStep,
    deadline: Option<int>,
    stepDeadline: Option<int>,
    paused: bool,
    representative: PlayerId,
    killTarget: Option<PlayerId>,
    policeChecked: bool,
    history: seq<PoliceRecord>,
    winner: Option<Team>,
    endReason: Option<EndReason>,
    own: Own)

  function Positive(ms: int): Option<int> { if ms > 0 then Some(ms) else None }

  function FindIndex(ps: seq<Player>, id: PlayerId): int { if Has(ps, id) then Index(ps, id) else -1 }

  function MarkDead(ps: seq<Player>, id: PlayerId): (r: seq<Player>)
    ensures |r| == |ps|
    ensures forall i :: 0 <= i < |ps| ==> r[i] == if ps[i].id == id then ps[i].(alive := false) else ps[i]
  {
    seq(|ps|, i requires 0 <= i < |ps| => if ps[i].id == id then ps[i].(alive := false) else ps[i])
  }

  function MarkDeadWithRole(ps: seq<Player>, id: PlayerId, role: Role): (r: seq<Player>)
    ensures |r| == |ps|
    ensures forall i :: 0 <= i < |ps| ==> r[i] == if ps[i].id == id then ps[i].(alive := false, role := role) else ps[i]
  {
    seq(|ps|, i requires 0 <= i < |ps| => if ps[i].id == id then ps[i].(alive := false, role := role) else ps[i])
  }

  /** The reducer's treatment of one event message. */
  function Reduce(g: Mirror, m: Payload): Mirror {
    match m
    case PhaseChangedMsg(p, day, ms) =>
      g.(phase := p, day := day, deadline := Positive(ms), nightStep := NoStep, stepDeadline := None,
         policeChecked := false)
    case RoleRevealedMsg(r, kw) => g.(own := g.own.(role := r, keyword := kw, team := Some(TeamOf(r))))
    case CohortRevealedMsg(ids, rep) => g.(representative := rep, own := g.own.(cohort := ids))
    case SpeakerChangedMsg(id) => g.(speakerIdx := FindIndex(g.players, id))
    case TargetSelectedMsg(t) => g.(killTarget := Some(t))
    case PoliceResultMsg(t, team) => g.(policeChecked := true, history := g.history + [PoliceRecord(g.day, t, team)])
    case NightStepChangedMsg(st, ms) => g.(nightStep := st, stepDeadline := Positive(ms))
    case GamePausedMsg(_) => g.(paused := true)
    case GameResumedMsg(p, ms) =>
      g.(paused := false,
         deadline := if p.Day? && ms > 0 then Some(ms) else g.deadline,
         stepDeadline := if p.Night? && ms > 0 then Some(ms) else g.stepDeadline)
    case DeathAnnouncedMsg(v) => g.(players := MarkDead(g.players, v))
    case EliminatedMsg(id, role) => g.(players := MarkDeadWithRole(g.players, id, role))
    case RepresentativeReassignedMsg(n) => g.(representative := n)
    case GameEndedMsg(w, r, ps) => g.(phase := End, winner := w, endReason := Some(r), players := ps)
    case _ => g
  }

  /** What a viewer makes of a batch of envelopes sent while the engine's players are `ps`. */
  function Fold(g: Mirror, viewer: PlayerId, es: seq<Envelope>, ps: seq<Player>): Mirror {
    if es == [] then g
    else
      var before, e := Fold(g, viewer, es[..|es| - 1], ps), es[|es| - 1];
      if Reaches(e, viewer, ps) then Reduce(before, BuildPayload(e.event)) else before
  }

  // ---------------------------------------------------------------- the simulation relation

  /** A deadline a client would show: positive milliseconds. */
  function Shown(ms: Option<int>): Option<int> { if ms.Some? && ms.value > 0 then ms else None }

  function ShownTime(t: Time): Option<int> { Positive(WireMs(t)) }

  ghost predicate SameFaces(a: seq<Player>, b: seq<Player>) {
    |a| == |b| && forall i :: 0 <= i < |a| ==> a[i].id == b[i].id && a[i].alive == b[i].alive
  }

  ghost predicate SameRoles(a: seq<Player>, b: seq<Player>) {
    |a| == |b| && forall i :: 0 <= i < |a| ==> a[i].role == b[i].role
  }

  /** What only some viewers know. */
  predicate PrivateMatch(g: Mirror, s: State, viewer: PlayerId) {
    && (RoleOf(s.players, viewer).Police? ==> g.history == s.history && g.policeChecked == s.policeChecked)
    && (RoleOf(s.players, viewer).Mafia? && IsAlive(s.players, viewer) ==> g.representative == s.representative)
  }

  predicate TimersMatch(g: Mirror, s: State) {
    && g.nightStep == s.nightStep
    && Shown(g.deadline) == ShownTime(s.deadline)
    && Shown(g.stepDeadline) == ShownTime(s.stepDeadline)
    && g.paused == s.paused
  }

  /** The replica agrees with the engine on everything this viewer is shown; at the end, on every role. */
  ghost predicate Matches(g: Mirror, s: State, viewer: PlayerId) {
    && g.phase == s.phase && g.day == s.day
    && SameFaces(g.players, s.players)
    && g.speakerIdx == s.speakerIdx
    && TimersMatch(g, s)
    && (s.phase.End? ==> g.winner == s.winner && g.endReason == s.endReason && SameRoles(g.players, s.players))
    && PrivateMatch(g, s, viewer)
  }

  // ---------------------------------------------------------------- folding

  lemma {:induction false} FoldConcat(g: Mirror, viewer: PlayerId, a: seq<Envelope>, b: seq<Envelope>, ps: seq<Player>)
    ensures Fold(g, viewer, a + b, ps) == Fold(Fold(g, viewer, a, ps), viewer, b, ps)
  {
    if b == [] {
      assert a + b == a;
    } else {
      FoldConcat(g, viewer, a, b[..|b| - 1], ps);
      assert (a + b)[..|a + b| - 1] == a + b[..|b| - 1];
    }
  }

  lemma FoldOne(g: Mirror, viewer: PlayerId, e: Envelope, ps: seq<Player>)
    ensures Fold(g, viewer, [e], ps) == if Reaches(e, viewer, ps) then Reduce(g, BuildPayload(e.event)) else g
  {
    assert [e][..0] == [];
  }

  lemma FoldTwo(g: Mirror, viewer: PlayerId, e: Event, f: Event, ps: seq<Player>)
    ensures Fold(g, viewer, [Pub(e), Pub(f)], ps) == Reduce(Reduce(g, BuildPayload(e)), BuildPayload(f))
  {
    assert [Pub(e), Pub(f)] == [Pub(e)] + [Pub(f)];
    FoldConcat(g, viewer, [Pub(e)], [Pub(f)], ps);
    FoldOne(g, viewer, Pub(e), ps);
    FoldOne(Reduce(g, BuildPayload(e)), viewer, Pub(f), ps);
  }

  lemma FoldNone(g: Mirror, viewer: PlayerId, ps: seq<Player>)
    ensures Fold(g, viewer, [], ps) == g
  {
  }

  // ---------------------------------------------------------------- deaths

  lemma FacesAfterDeath(a: seq<Player>, b: seq<Player>, id: PlayerId, role: Role)
    requires SameFaces(a, b) && ProperIds(b) && Has(b, id)
    ensures SameFaces(MarkDead(a, id), Kill(b, id))
    ensures SameFaces(MarkDeadWithRole(a, id, role), Kill(b, id))
  {
    var k := Index(b, id);
    forall i | 0 <= i < |b| ensures b[i].id == id <==> i == k {
      if b[i].id == id {
        IndexOfPlayer(b, i);
      }
    }
  }

  lemma DeathKeepsRoles(ps: seq<Player>, id: PlayerId, viewer: PlayerId)
    ensures RoleOf(Kill(ps, id), viewer) == RoleOf(ps, viewer)
    ensures IsAlive(Kill(ps, id), viewer) ==> IsAlive(ps, viewer)
  {
    KillFacts(ps, id);
    SamePeopleSameIndex(ps, Kill(ps, id), viewer);
  }

  /** The replica after the announcement of a death: the engine's state with the player killed. */
  lemma DeathMatches(g: Mirror, s: State, viewer: PlayerId, id: PlayerId, m: Payload)
    requires Matches(g, s, viewer) && ProperIds(s.players) && Has(s.players, id) && !s.phase.End?
    requires m == DeathAnnouncedMsg(id) || (m.EliminatedMsg? && m.player == id)
    ensures Matches(Reduce(g, m), s.(players := Kill(s.players, id)), viewer)
  {
    hide Kill, RoleOf, IsAlive, ProperIds, SameFaces, ShownTime;
    DeathKeepsRoles(s.players, id, viewer);
    FacesAfterDeath(g.players, s.players, id, if m.EliminatedMsg? then m.role else NoRole);
  }

  /** A burial is announced by the death and, to the living mafia, by the new representative. */
  lemma BurialMatches(g: Mirror, s: State, viewer: PlayerId, id: PlayerId, pick: Option<nat>, m: Payload)
    requires Matches(g, s, viewer) && ProperIds(s.players) && Has(s.players, id) && !s.phase.End?
    requires m == DeathAnnouncedMsg(id) || (m.EliminatedMsg? && m.player == id)
    ensures
      var b := Bury(s, id, pick);
      Matches(Fold(Reduce(g, m), viewer, b.events, Kill(s.players, id)), b.state, viewer)
  {
    hide Kill, ProperIds, SameFaces, ShownTime, Reduce, Matches, MafiaIds;
    DeathMatches(g, s, viewer, id, m);
    var g1 := Reduce(g, m);
    var s1 := s.(players := Kill(s.players, id));
    if id == s.representative {
      ReassignMatches(g1, s1, viewer, id, pick);
    } else {
      FoldNone(g1, viewer, Kill(s.players, id));
    }
  }

  lemma ReassignMatches(g: Mirror, s: State, viewer: PlayerId, id: PlayerId, pick: Option<nat>)
    requires Matches(g, s, viewer)
    ensures
      var c := Reassign(s, id, pick);
      Matches(Fold(g, viewer, c.events, s.players), c.state, viewer)
  {
    hide SameFaces, ShownTime, MafiaIds, Drawn;
    var living := MafiaIds(s.players);
    if living == [] {
      FoldNone(g, viewer, s.players);
      NoMafiaLeft(s.players, viewer);
    } else {
      var e := Reassign(s, id, pick).events[0];
      FoldOne(g, viewer, e, s.players);
    }
  }

  lemma NoMafiaLeft(ps: seq<Player>, viewer: PlayerId)
    requires MafiaIds(ps) == []
    ensures !(RoleOf(ps, viewer).Mafia? && IsAlive(ps, viewer))
  {
    if RoleOf(ps, viewer).Mafia? && IsAlive(ps, viewer) {
      SomeLivingMafia(ps, Index(ps, viewer));
    }
  }

  // ---------------------------------------------------------------- transitions

  lemma EnterNightMatches(g: Mirror, s: State, viewer: PlayerId, now: Time)
    requires Matches(g, s, viewer) && !s.phase.End?
    ensures
      var c := EnterNight(s, now);
      Matches(Fold(g, viewer, c.events, c.state.players), c.state, viewer)
  {
    hide SameFaces, RoleOf, IsAlive;
    var c := EnterNight(s, now);
    FoldTwo(g, viewer, PhaseChanged(Night, s.day, ZERO_TIME), c.events[1].event, c.state.players);
  }

  lemma PhaseMatches(g: Mirror, s: State, t: State, viewer: PlayerId)
    requires Matches(g, s, viewer) && t.nightStep.NoStep? && t.stepDeadline == ZERO_TIME && !t.policeChecked
    requires !t.phase.End?
    requires t == s.(phase := t.phase, day := t.day, deadline := t.deadline,
                     nightStep := NoStep, stepDeadline := ZERO_TIME,
                     policeChecked := false, lastTickAt := t.lastTickAt, votes := t.votes, voteRound := t.voteRound,
                     candidates := t.candidates, killTarget := t.killTarget, healTarget := t.healTarget,
                     checkTarget := t.checkTarget, pendingEnd := t.pendingEnd)
    ensures Matches(Reduce(g, BuildPayload(PhaseChanged(t.phase, t.day, t.deadline))), t, viewer)
  {
    hide SameFaces, RoleOf, IsAlive;
  }

  lemma DayToVoteMatches(g: Mirror, s: State, viewer: PlayerId, now: Time)
    requires Matches(g, s, viewer) && Inv(s) && s.phase.Day?
    ensures
      var c := DayToVote(s, now);
      Matches(Fold(g, viewer, c.events, c.state.players), c.state, viewer)
  {
    hide Matches, Reduce, People, Records, ProperIds;
    var c := DayToVote(s, now);
    PhaseMatches(g, s, c.state, viewer);
    FoldOne(g, viewer, c.events[0], c.state.players);
  }

  lemma IntroToDayMatches(g: Mirror, s: State, viewer: PlayerId, now: Time)
    requires Matches(g, s, viewer) && s.stepDeadline == ZERO_TIME
    ensures
      var c := IntroToDay(s, now);
      Matches(Fold(g, viewer, c.events, c.state.players), c.state, viewer)
  {
    hide Matches, Reduce;
    var c := IntroToDay(s, now);
    PhaseMatches(g, s, c.state, viewer);
    FoldOne(g, viewer, c.events[0], c.state.players);
  }

  lemma SpeakerMatches(g: Mirror, s: State, viewer: PlayerId, i: nat, start: Time)
    requires Matches(g, s, viewer) && Distinct(s.players) && i < |s.players|
    ensures Matches(Reduce(g, SpeakerChangedMsg(s.players[i].id)), s.(speakerIdx := i, speakerStartedAt := start),
                    viewer)
  {
    hide RoleOf, IsAlive;
    SameFacesSameIndex(g.players, s.players, i);
  }

  lemma SameFacesSameIndex(a: seq<Player>, b: seq<Player>, i: nat)
    requires SameFaces(a, b) && Distinct(b) && i < |b|
    ensures FindIndex(a, b[i].id) == i
  {
    forall j, k | 0 <= j < k < |a| ensures a[j].id != a[k].id {
      assert b[j].id != b[k].id;
    }
    IndexOfPlayer(a, i);
  }

  lemma NextSpeakerMatches(g: Mirror, s: State, viewer: PlayerId, now: Time)
    requires Matches(g, s, viewer) && Inv(s) && s.phase.Intro?
    ensures
      var o := NextSpeaker(s, now);
      Matches(Fold(g, viewer, o.events, o.reply.players), o.next, viewer)
  {
    hide Matches, Reduce, People, Records, IntroToDay, Fold;
    if s.speakerIdx < |s.players| - 1 {
      var i := s.speakerIdx + 1;
      SpeakerMatches(g, s, viewer, i, now);
      FoldOne(g, viewer, NextSpeaker(s, now).events[0], s.players);
    } else {
      IntroToDayMatches(g, s, viewer, now);
    }
  }

  // ---------------------------------------------------------------- votes

  lemma BuryPlayers(s: State, id: PlayerId, pick: Option<nat>)
    ensures Bury(s, id, pick).state.players == Kill(s.players, id) && Bury(s, id, pick).state.phase == s.phase
  {
  }

  lemma SchedulingMatches(g: Mirror, s: State, viewer: PlayerId, now: Time)
    requires Matches(g, s, viewer)
    ensures Matches(g, ScheduleEnd(s, now), viewer) && ScheduleEnd(s, now).players == s.players
  {
    hide SameFaces, RoleOf, IsAlive, EvaluateEnd;
  }

  lemma EnterNightPlayers(s: State, now: Time)
    ensures EnterNight(s, now).state.players == s.players
  {
  }

  lemma EliminationMatches(g: Mirror, s: State, viewer: PlayerId, id: PlayerId, env: Env)
    requires Matches(g, s, viewer) && ProperIds(s.players) && Has(s.players, id) && !s.phase.End?
    ensures
      var c := Eliminate(s, id, env);
      Matches(Fold(g, viewer, c.events, c.state.players), c.state, viewer)
  {
    hide Matches, Reduce, Fold, Bury, Kill, EnterNight, ScheduleEnd, EvaluateEnd, ProperIds, Reaches;
    var b := Bury(s, id, env.pick);
    var e := Eliminated(id, RoleOf(s.players, id));
    var ps := Kill(s.players, id);
    BuryPlayers(s, id, env.pick);
    BurialMatches(g, s, viewer, id, env.pick, BuildPayload(e));
    PublicOne(g, viewer, e, ps);
    FoldConcat(g, viewer, [Pub(e)], b.events, ps);
    var g1 := Fold(g, viewer, [Pub(e)] + b.events, ps);
    SchedulingMatches(g1, b.state, viewer, env.now);
    EnterNightMatches(g1, b.state, viewer, env.now);
    EnterNightPlayers(b.state, env.now);
    FoldConcat(g, viewer, [Pub(e)] + b.events, EnterNight(b.state, env.now).events, ps);
  }

  lemma PublicOne(g: Mirror, viewer: PlayerId, e: Event, ps: seq<Player>)
    ensures Fold(g, viewer, [Pub(e)], ps) == Reduce(g, BuildPayload(e))
  {
    FoldOne(g, viewer, Pub(e), ps);
  }

  lemma TallyMessageIsInert(g: Mirror, viewer: PlayerId, counts: map<PlayerId, nat>, x: Option<PlayerId>, r: bool,
                            es: seq<Envelope>, ps: seq<Player>)
    ensures Fold(g, viewer, [Pub(VoteTallied(counts, x, r))] + es, ps) == Fold(g, viewer, es, ps)
  {
    FoldConcat(g, viewer, [Pub(VoteTallied(counts, x, r))], es, ps);
    PublicOne(g, viewer, VoteTallied(counts, x, r), ps);
  }

  lemma TallyMatches(g: Mirror, s: State, viewer: PlayerId, env: Env)
    requires Matches(g, s, viewer) && ProperIds(s.players) && (s.phase.Vote? || s.phase.Recount?)
    requires NightClear(s) && s.deadline == ZERO_TIME
    ensures
      var c := Tally(s, env);
      Matches(Fold(g, viewer, c.events, c.state.players), c.state, viewer)
  {
    hide Matches, Reduce, Fold, Eliminate, EnterNight, Top, Counts, ProperIds;
    var counts := Counts(s.votes);
    var top := Top(s.players, counts);
    var c := Tally(s, env);
    if |top| == 1 {
      TopIsSeated(s.players, s.votes);
      EliminationMatches(g, s, viewer, top[0], env);
      TallyMessageIsInert(g, viewer, counts, Some(top[0]), false, Eliminate(s, top[0], env).events, c.state.players);
    } else if |top| > 1 && s.voteRound == 1 {
      PhaseMatches(g, s, c.state, viewer);
      var e := PhaseChanged(Recount, s.day, ZERO_TIME);
      assert c.events == [Pub(VoteTallied(counts, None, true))] + [Pub(e)];
      TallyMessageIsInert(g, viewer, counts, None, true, [Pub(e)], c.state.players);
      PublicOne(g, viewer, e, c.state.players);
    } else {
      EnterNightMatches(g, s, viewer, env.now);
      TallyMessageIsInert(g, viewer, counts, None, false, EnterNight(s, env.now).events, c.state.players);
    }
  }

  lemma VoteMatches(g: Mirror, s: State, viewer: PlayerId, sender: PlayerId, target: PlayerId, env: Env)
    requires Matches(g, s, viewer) && Inv(s)
    ensures
      var o := CastVote(s, sender, target, env);
      Matches(Fold(g, viewer, o.events, o.reply.players), o.next, viewer)
  {
    hide Tally, Fold, SameFaces, Balanced, RightRepresentative, OpenBallot, TrueHistory, ProperIds, Live;
    FoldNone(g, viewer, s.players);
    if BallotError(s, sender, target).None? {
      var s1 := s.(votes := s.votes[sender := target]);
      TallyMatches(g, s1, viewer, env);
    }
  }

  // ---------------------------------------------------------------- nights

  lemma ResolutionMatches(g: Mirror, s: State, viewer: PlayerId, env: Env)
    requires Matches(g, s, viewer) && ProperIds(s.players) && s.phase.Night? && ResolveNight(s, env).error.None?
    ensures
      var o := ResolveNight(s, env);
      Matches(Fold(g, viewer, o.events, o.reply.players), o.next, viewer)
  {
    hide Matches, Reduce, Fold, Bury, Kill, ScheduleEnd, ProperIds, Has;
    var v := Victim(s);
    var o := ResolveNight(s, env);
    var deadline := env.now + Seconds(DAY_INTRO_SECONDS + s.settings.discussionSeconds);
    var dawn := ClearNight(s).(day := s.day + 1, phase := Day, deadline := deadline, lastTickAt := env.now);
    var e := PhaseChanged(Day, s.day + 1, deadline);
    PhaseMatches(g, s, dawn, viewer);
    var g1 := Reduce(g, BuildPayload(e));
    if v.Some? {
      var f := DeathAnnounced(v.value);
      var b, b' := Bury(s, v.value, env.pick), Bury(dawn, v.value, env.pick);
      var ps := Kill(s.players, v.value);
      BurialOfDawn(s, dawn, v.value, env.pick);
      BurialMatches(g1, dawn, viewer, v.value, env.pick, BuildPayload(f));
      BuryPlayers(dawn, v.value, env.pick);
      SchedulingMatches(Fold(Reduce(g1, BuildPayload(f)), viewer, b'.events, ps), b'.state, viewer, env.later);
      FoldTwo(g, viewer, e, f, ps);
      FoldConcat(g, viewer, [Pub(e), Pub(f)], b.events, ps);
    } else {
      SchedulingMatches(g1, dawn, viewer, env.later);
      FoldTwo(g, viewer, e, PeacefulNight, s.players);
      PeaceIsInert(g1);
      assert o.events == [Pub(e), Pub(PeacefulNight)];
    }
  }

  lemma PeaceIsInert(g: Mirror)
    ensures Reduce(g, BuildPayload(PeacefulNight)) == g
  {
  }

  /** Burying before or after the night fields are cleared comes to the same. */
  lemma BurialOfDawn(s: State, dawn: State, id: PlayerId, pick: Option<nat>)
    requires dawn == ClearNight(s).(day := dawn.day, phase := dawn.phase, deadline := dawn.deadline,
                                    lastTickAt := dawn.lastTickAt)
    ensures Bury(dawn, id, pick).events == Bury(s, id, pick).events
    ensures Bury(dawn, id, pick).state
         == ClearNight(Bury(s, id, pick).state).(day := dawn.day, phase := dawn.phase, deadline := dawn.deadline,
                                                 lastTickAt := dawn.lastTickAt)
  {
    hide Bury;
    BurialFrame(s, id, pick);
    BurialFrame(dawn, id, pick);
    SameBurial(s, dawn, id, pick);
  }

  lemma BurialFrame(s: State, id: PlayerId, pick: Option<nat>)
    ensures
      var t := Bury(s, id, pick).state;
      t == s.(players := t.players, representative := t.representative)
  {
    hide Drawn, MafiaIds, Kill;
  }

  /** Who represents the mafia after a death at this table. */
  function Heir(ps: seq<Player>, rep: PlayerId, id: PlayerId, pick: Option<nat>): PlayerId {
    var living := MafiaIds(Kill(ps, id));
    if id != rep then rep else if living == [] then NOBODY else Drawn(living, pick)
  }

  lemma BurialHeir(s: State, id: PlayerId, pick: Option<nat>)
    ensures
      var c, ps, rep := Bury(s, id, pick), s.players, s.representative;
      var heir := Heir(ps, rep, id, pick);
      && c.state.players == Kill(ps, id) && c.state.representative == heir
      && c.events == if id != rep || MafiaIds(Kill(ps, id)) == [] then []
                     else [Envelope(RepresentativeReassigned(id, heir), LivingMafia)]
  {
    hide Drawn, MafiaIds, Kill;
  }

  /** What a burial does depends on the players and the representative only. */
  lemma SameBurial(s: State, t: State, id: PlayerId, pick: Option<nat>)
    requires t.players == s.players && t.representative == s.representative
    ensures
      var b, c := Bury(s, id, pick), Bury(t, id, pick);
      b.events == c.events && b.state.players == c.state.players && b.state.representative == c.state.representative
  {
    hide Bury, Heir, MafiaIds, Kill;
    BurialHeir(s, id, pick);
    BurialHeir(t, id, pick);
  }

  lemma BeginStepMatches(g: Mirror, s: State, viewer: PlayerId, step: NightStep, at: Time, ps: seq<Player>)
    requires Matches(g, s, viewer)
    ensures
      var c := BeginStep(s, step, at);
      Matches(Fold(g, viewer, c.events, ps), c.state, viewer) && c.state.players == s.players
  {
    hide SameFaces, RoleOf, IsAlive;
    PublicOne(g, viewer, BeginStep(s, step, at).events[0].event, ps);
  }

  lemma ClearedMatches(g: Mirror, s: State, viewer: PlayerId, env: Env)
    requires Inv(s) && s.phase.Night? && SaneEnv(env) && Matches(g, s, viewer)
    ensures
      var o := ResolveNight(s.(nightStep := NoStep, stepDeadline := ZERO_TIME), env);
      o.error.None? && Matches(Fold(g, viewer, o.events, o.reply.players), o.next, viewer)
  {
    hide Reduce, Fold, SameFaces, Balanced, RightRepresentative, OpenBallot, TrueHistory, ResolveNight, RoleOf, IsAlive;
    var s0 := s.(nightStep := NoStep, stepDeadline := ZERO_TIME);
    ResolveNightKeeps(s, s0, env);
    var g0 := g.(nightStep := NoStep, stepDeadline := None);
    ResolutionMatches(g0, s0, viewer, env);
    ResolutionForgetsStep(g, g0, viewer, s0, env);
  }

  /** The morning's first message overwrites the replica's night step. */
  lemma ResolutionForgetsStep(g: Mirror, g0: Mirror, viewer: PlayerId, s: State, env: Env)
    requires g0 == g.(nightStep := NoStep, stepDeadline := None)
    requires ResolveNight(s, env).error.None?
    ensures
      var o := ResolveNight(s, env);
      Fold(g, viewer, o.events, o.reply.players) == Fold(g0, viewer, o.events, o.reply.players)
  {
    hide Fold, Bury, ScheduleEnd, Kill, Reaches;
    var o := ResolveNight(s, env);
    var e := o.events[0];
    assert o.events == [e] + o.events[1..];
    FoldConcat(g, viewer, [e], o.events[1..], o.reply.players);
    FoldConcat(g0, viewer, [e], o.events[1..], o.reply.players);
    PublicOne(g, viewer, e.event, o.reply.players);
    PublicOne(g0, viewer, e.event, o.reply.players);
  }

  lemma {:induction false} TickNightMatches(g: Mirror, s: State, viewer: PlayerId, now: Time, env: Env)
    requires Inv(s) && s.phase.Night? && SaneEnv(env) && Matches(g, s, viewer)
    ensures
      var o := TickNight(s, now, env);
      o.error.None? && o.reply == o.next && Matches(Fold(g, viewer, o.events, o.reply.players), o.next, viewer)
    decreases StepsLeft(s.nightStep)
  {
    hide Reduce, Fold, SameFaces, People, Records, ProperIds, ResolveNight, RoleOf, IsAlive, Matches, BeginStep;
    if now < s.stepDeadline {
      FoldNone(g, viewer, s.players);
    } else if NextStep(s.nightStep).StepResolved? {
      ClearedMatches(g, s, viewer, env);
      ReplyIsNext(s.(nightStep := NoStep, stepDeadline := ZERO_TIME), env);
    } else {
      var c := BeginStep(s, NextStep(s.nightStep), s.stepDeadline);
      StepKeepsNight(s);
      var ps := TickNight(c.state, now, env).reply.players;
      BeginStepMatches(g, s, viewer, NextStep(s.nightStep), s.stepDeadline, ps);
      TickNightMatches(Fold(g, viewer, c.events, ps), c.state, viewer, now, env);
      FoldConcat(g, viewer, c.events, TickNight(c.state, now, env).events, ps);
    }
  }

  lemma ReplyIsNext(s: State, env: Env)
    ensures ResolveNight(s, env).reply == ResolveNight(s, env).next
  {
  }

  lemma StepKeepsNight(s: State)
    requires Inv(s) && s.phase.Night? && !NextStep(s.nightStep).StepResolved?
    ensures
      var t := BeginStep(s, NextStep(s.nightStep), s.stepDeadline).state;
      Inv(t) && t.phase.Night? && StepsLeft(t.nightStep) < StepsLeft(s.nightStep)
  {
    hide People, Records, ProperIds;
    var c := BeginStep(s, NextStep(s.nightStep), s.stepDeadline);
    OtherStepKeeps(s, c.state.nightStep, c.state.stepDeadline);
  }

  // ---------------------------------------------------------------- other actions

  lemma KillMatches(g: Mirror, s: State, viewer: PlayerId, sender: PlayerId, target: PlayerId)
    requires Matches(g, s, viewer)
    ensures
      var o := SubmitKillRule(s, sender, target);
      Matches(Fold(g, viewer, o.events, o.reply.players), o.next, viewer)
  {
    hide SameFaces, RoleError, LifeErrors, ShownTime, Fold, RoleOf, IsAlive;
    FoldNone(g, viewer, s.players);
    FoldOne(g, viewer, Envelope(TargetSelected(sender, target), LivingMafia), s.players);
  }

  lemma HealMatches(g: Mirror, s: State, viewer: PlayerId, sender: PlayerId, target: PlayerId)
    requires Matches(g, s, viewer)
    ensures
      var o := SubmitHealRule(s, sender, target);
      Matches(Fold(g, viewer, o.events, o.reply.players), o.next, viewer)
  {
    hide SameFaces, RoleError, LifeErrors, ShownTime, Fold, RoleOf, IsAlive;
    FoldNone(g, viewer, s.players);
  }

  lemma CheckMatches(g: Mirror, s: State, viewer: PlayerId, sender: PlayerId, target: PlayerId)
    requires Matches(g, s, viewer) && OnePolice(s.players)
    ensures
      var o := SubmitCheckRule(s, sender, target);
      Matches(Fold(g, viewer, o.events, o.reply.players), o.next, viewer)
  {
    hide SameFaces, LifeErrors, ShownTime, Fold;
    FoldNone(g, viewer, s.players);
    var team := TeamOf(RoleOf(s.players, target));
    FoldOne(g, viewer, Envelope(PoliceResult(sender, target, team), Only(sender)), s.players);
    if RoleOf(s.players, viewer).Police? && RoleOf(s.players, sender).Police? {
      assert viewer == sender;
    }
  }

  /** The deal makes a single police officer. */
  ghost predicate OnePolice(ps: seq<Player>) {
    forall x, y :: RoleOf(ps, x).Police? && RoleOf(ps, y).Police? ==> x == y
  }

  lemma WireIsMonotone(a: Time, b: Time)
    requires a <= b
    ensures WireMs(a) <= WireMs(b)
  {
  }

  lemma ResumedShown(s: State, now: Time)
    ensures
      var t := Resumed(s, now);
      && (s.phase.Day? ==>
            ShownTime(t.deadline) == if WireMs(t.deadline) > 0 then Some(WireMs(t.deadline)) else ShownTime(s.deadline))
      && (s.phase.Night? ==>
            ShownTime(t.stepDeadline)
            == if WireMs(t.stepDeadline) > 0 then Some(WireMs(t.stepDeadline)) else ShownTime(s.stepDeadline))
  {
    hide WireMs;
    var t := Resumed(s, now);
    WireIsMonotone(s.deadline, t.deadline);
    WireIsMonotone(s.stepDeadline, t.stepDeadline);
  }

  lemma ResumedMatches(g: Mirror, s: State, viewer: PlayerId, now: Time)
    requires Matches(g, s, viewer)
    ensures
      var t := Resumed(s, now);
      Matches(Reduce(g, BuildPayload(GameResumed(s.phase, ActiveDeadline(t)))), t, viewer)
  {
    hide SameFaces, RoleOf, IsAlive, WireMs;
    ResumedShown(s, now);
  }

  lemma ResumeMatches(g: Mirror, s: State, viewer: PlayerId, host: PlayerId, env: Env)
    requires Matches(g, s, viewer)
    ensures
      var o := Resume(s, host, env);
      Matches(Fold(g, viewer, o.events, o.reply.players), o.next, viewer)
  {
    hide Matches, Reduce, Fold, Resumed, ActiveDeadline;
    FoldNone(g, viewer, s.players);
    ResumedMatches(g, s, viewer, env.now);
    var t := Resumed(s, env.now);
    PublicOne(g, viewer, GameResumed(s.phase, ActiveDeadline(t)), t.players);
  }

  lemma PauseMatches(g: Mirror, s: State, viewer: PlayerId, host: PlayerId, env: Env)
    requires Matches(g, s, viewer)
    ensures
      var o := Pause(s, host, env);
      Matches(Fold(g, viewer, o.events, o.reply.players), o.next, viewer)
  {
    hide SameFaces, RoleOf, IsAlive, ShownTime, Fold;
    FoldNone(g, viewer, s.players);
    PublicOne(g, viewer, GamePaused(s.phase), s.players);
  }

  lemma VoiceMatches(g: Mirror, s: State, viewer: PlayerId, host: PlayerId, on: bool)
    requires Matches(g, s, viewer)
    ensures
      var o := Voice(s, host, on);
      Matches(Fold(g, viewer, o.events, o.reply.players), o.next, viewer)
  {
    hide SameFaces, RoleOf, IsAlive, ShownTime, Fold;
    FoldNone(g, viewer, s.players);
    PublicOne(g, viewer, VoiceToggled(on), s.players);
  }

  lemma EndingMatches(g: Mirror, s: State, viewer: PlayerId, reason: EndReason, winner: Option<Team>, ps: seq<Player>)
    requires Matches(g, s, viewer)
    ensures
      var c := EndGame(s, reason, winner);
      Matches(Fold(g, viewer, c.events, ps), c.state, viewer)
  {
    hide RoleOf, IsAlive, ShownTime, Fold;
    PublicOne(g, viewer, GameEnded(winner, reason, s.players), ps);
  }

  lemma ForceEndMatches(g: Mirror, s: State, viewer: PlayerId, host: PlayerId)
    requires Matches(g, s, viewer)
    ensures
      var o := ForceEnd(s, host);
      Matches(Fold(g, viewer, o.events, o.reply.players), o.next, viewer)
  {
    hide RoleOf, IsAlive, ShownTime, Fold, SameFaces, EndGame;
    FoldNone(g, viewer, s.players);
    EndingMatches(g, s.(pendingEnd := None), viewer, HostForceEnd, None, s.players);
    EndGamePlayers(s.(pendingEnd := None), HostForceEnd, None);
  }

  lemma EndGamePlayers(s: State, reason: EndReason, winner: Option<Team>)
    ensures EndGame(s, reason, winner).state.players == s.players
  {
  }

  /** Every action, accepted or rejected, keeps the replica in step. */
  lemma ActionMatches(g: Mirror, s: State, viewer: PlayerId, a: Action, env: Env)
    requires Inv(s) && SaneEnv(env) && OnePolice(s.players) && Matches(g, s, viewer)
    ensures
      var o := Apply(s, a, env);
      Matches(Fold(g, viewer, o.events, o.reply.players), o.next, viewer)
  {
    hide Matches, Fold, People, Records, ProperIds, NextSpeaker, SubmitKillRule, SubmitHealRule, SubmitCheckRule;
    hide CastVote;
    hide Pause, Resume, Voice, ForceEnd, ResolveNight, DayToVote, OnePolice;
    FoldNone(g, viewer, s.players);
    if s.phase.End? {
      return;
    }
    match a {
      case StartGame(_, _) =>
      case AdvanceIntro(_) => if s.phase.Intro? { NextSpeakerMatches(g, s, viewer, env.now); }
      case EndSelfIntro(_) => if s.phase.Intro? { NextSpeakerMatches(g, s, viewer, env.now); }
      case SubmitKill(sender, target) => KillMatches(g, s, viewer, sender, target);
      case SubmitHeal(sender, target) => HealMatches(g, s, viewer, sender, target);
      case SubmitCheck(sender, target) => CheckMatches(g, s, viewer, sender, target);
      case EndNightEarly(_) => if s.phase.Night? { EndNightMatches(g, s, viewer, env); }
      case EndDiscussionEarly(_) => if s.phase.Day? { DayToVoteMatches(g, s, viewer, env.now); }
      case SubmitVote(sender, target) => VoteMatches(g, s, viewer, sender, target, env);
      case ToggleVoice(host, on) => VoiceMatches(g, s, viewer, host, on);
      case ForceEndGame(host) => ForceEndMatches(g, s, viewer, host);
      case PauseGame(host) => PauseMatches(g, s, viewer, host, env);
      case ResumeGame(host) => ResumeMatches(g, s, viewer, host, env);
    }
  }

  lemma EndNightMatches(g: Mirror, s: State, viewer: PlayerId, env: Env)
    requires Inv(s) && s.phase.Night? && SaneEnv(env) && Matches(g, s, viewer)
    ensures
      var o := ResolveNight(s, env);
      Matches(Fold(g, viewer, o.events, o.reply.players), o.next, viewer)
  {
    hide Matches, Fold, ResolveNight;
    ResolveNightKeeps(s, s, env);
    ResolutionMatches(g, s, viewer, env);
  }

  // ---------------------------------------------------------------- ticks

  lemma {:induction false} SpeakersMatch(g: Mirror, s: State, viewer: PlayerId, k: nat, start: Time)
    requires Matches(g, s, viewer) && Distinct(s.players) && 0 <= s.speakerIdx && s.speakerIdx + k < |s.players|
    ensures Matches(Fold(g, viewer, SpeakerEvents(s.players, s.speakerIdx, k, s.settings.introSeconds), s.players),
                    s.(speakerIdx := s.speakerIdx + k, speakerStartedAt := start), viewer)
  {
    hide Reduce, Matches, Distinct;
    if k == 0 {
      SpeakerStampMatches(g, s, viewer, start);
    } else {
      var es := SpeakerEvents(s.players, s.speakerIdx, k - 1, s.settings.introSeconds);
      var e := SpeakerChanged(s.players[s.speakerIdx + k].id, s.settings.introSeconds);
      SpeakersMatch(g, s, viewer, k - 1, start);
      FoldConcat(g, viewer, es, [Pub(e)], s.players);
      var g1 := Fold(g, viewer, es, s.players);
      PublicOne(g1, viewer, e, s.players);
      SpeakerMatches(g1, s.(speakerIdx := s.speakerIdx + (k - 1), speakerStartedAt := start), viewer,
                     s.speakerIdx + k, start);
    }
  }

  lemma SpeakerStampMatches(g: Mirror, s: State, viewer: PlayerId, start: Time)
    requires Matches(g, s, viewer)
    ensures Matches(g, s.(speakerStartedAt := start), viewer)
  {
    hide SameFaces, RoleOf, IsAlive, ShownTime;
  }

  lemma TickIntroMatches(g: Mirror, s: State, viewer: PlayerId, now: Time)
    requires Inv(s) && s.phase.Intro? && Matches(g, s, viewer)
    ensures
      var o := TickIntro(s, now);
      o.reply == o.next && Matches(Fold(g, viewer, o.events, o.reply.players), o.next, viewer)
  {
    hide Fold, Matches, People, Records, SpeakerEvents, Turns, TurnsTime;
    var per := Seconds(s.settings.introSeconds);
    var k := Turns(s.speakerIdx, s.speakerStartedAt, per, now, |s.players|);
    TurnsBound(s.speakerIdx, s.speakerStartedAt, per, now, |s.players|);
    var es := SpeakerEvents(s.players, s.speakerIdx, k, s.settings.introSeconds);
    var s1 := s.(speakerIdx := s.speakerIdx + k, speakerStartedAt := s.speakerStartedAt + TurnsTime(k, per));
    SpeakersMatch(g, s, viewer, k, s.speakerStartedAt + TurnsTime(k, per));
    var g1 := Fold(g, viewer, es, s.players);
    IntroToDayMatches(g1, s1, viewer, now);
    FoldConcat(g, viewer, es, IntroToDay(s1, now).events, s.players);
  }

  lemma {:induction false} RemindersAreInert(g: Mirror, viewer: PlayerId, ths: seq<int>, deadline: Time, prev: Time,
                                             now: Time, ps: seq<Player>)
    ensures Fold(g, viewer, Crossed(ths, deadline, prev, now), ps) == g
  {
    if ths != [] {
      RemindersAreInert(g, viewer, ths[..|ths| - 1], deadline, prev, now, ps);
    }
  }

  lemma TickDayMatches(g: Mirror, s: State, viewer: PlayerId, now: Time, prev: Time)
    requires Inv(s) && s.phase.Day? && Matches(g, s, viewer)
    ensures
      var o := TickDay(s, now, prev);
      o.reply == o.next && Matches(Fold(g, viewer, o.events, o.reply.players), o.next, viewer)
  {
    hide Fold, Matches, Inv, Crossed;
    var ticks := Crossed(THRESHOLDS, s.deadline, prev, now);
    var c := DayToVote(s, now);
    RemindersAreInert(g, viewer, THRESHOLDS, s.deadline, prev, now, s.players);
    DayToVoteMatches(g, s, viewer, now);
    FoldConcat(g, viewer, ticks, c.events, s.players);
  }

  lemma StampMatches(g: Mirror, s: State, viewer: PlayerId, now: Time)
    requires Matches(g, s, viewer)
    ensures Matches(g, s.(lastTickAt := now), viewer)
    ensures Matches(g, s.(lastTickAt := now, pendingEnd := None), viewer)
  {
    hide SameFaces, RoleOf, IsAlive, ShownTime;
  }

  /** Every tick keeps the replica in step, although the ending tick hands back a stale state. */
  lemma TickMatches(g: Mirror, s: State, viewer: PlayerId, now: Time, env: Env)
    requires Inv(s) && SaneEnv(env) && Matches(g, s, viewer)
    ensures
      var o := Tick(s, now, env);
      Matches(Fold(g, viewer, o.events, o.reply.players), o.next, viewer)
  {
    hide Fold, Matches, People, Records, ProperIds, TickIntro, TickDay, TickNight, EndGame;
    FoldNone(g, viewer, s.players);
    StampMatches(g, s, viewer, now);
    if s.paused || now <= s.lastTickAt {
    } else if s.pendingEnd.Some? && now >= s.pendingEnd.value.deadline {
      EndingMatches(g, s.(pendingEnd := None, lastTickAt := now), viewer, s.pendingEnd.value.reason,
                    s.pendingEnd.value.winner, s.players);
    } else {
      ActiveTick(s, now);
      var s1 := s.(lastTickAt := now);
      match s.phase {
        case Intro => TickIntroMatches(g, s1, viewer, now);
        case Day => TickDayMatches(g, s1, viewer, now, s.lastTickAt);
        case Night => TickNightMatches(g, s1, viewer, now, env);
        case _ =>
      }
    }
  }

  // ---------------------------------------------------------------- runs

  /** What a viewer holds after a run, having folded what reached it at every step. */
  ghost function Follow(g: Mirror, viewer: PlayerId, s: State, steps: seq<Step>): Mirror
    requires Inv(s) && Sane(steps)
  {
    if steps == [] then g
    else
      var front := steps[..|steps| - 1];
      var o := Exec(After(s, front), steps[|steps| - 1]);
      Fold(Follow(g, viewer, s, front), viewer, o.events, o.reply.players)
  }

  lemma StepMatches(g: Mirror, s: State, viewer: PlayerId, st: Step)
    requires Inv(s) && SaneEnv(st.env) && OnePolice(s.players) && Matches(g, s, viewer)
    ensures
      var o := Exec(s, st);
      Matches(Fold(g, viewer, o.events, o.reply.players), o.next, viewer)
  {
    hide Fold, Matches, Apply, Tick, OnePolice;
    match st {
      case Submit(a, env) => ActionMatches(g, s, viewer, a, env);
      case Clock(now, env) => TickMatches(g, s, viewer, now, env);
    }
  }

  lemma OnePoliceStays(a: seq<Player>, b: seq<Player>)
    requires SamePeople(a, b) && OnePolice(a)
    ensures OnePolice(b)
  {
    hide RoleOf, SamePeople;
    forall x, y | RoleOf(b, x).Police? && RoleOf(b, y).Police? ensures x == y {
      SamePeopleSameIndex(a, b, x);
      SamePeopleSameIndex(a, b, y);
    }
  }

  /**
   Replica simulation. A client that matches the engine once, such as after a snapshot, and
   folds every event that reaches it, matches the engine after any run whatever: on phase,
   day, alive flags, speaker, night step, both deadlines, the pause flag and the result; and
   on the police history or the representative if the viewer is entitled to them.
   */
  lemma {:induction false} ReplicaFollows(g: Mirror, s: State, viewer: PlayerId, steps: seq<Step>)
    requires Inv(s) && Sane(steps) && OnePolice(s.players) && Matches(g, s, viewer)
    ensures Matches(Follow(g, viewer, s, steps), After(s, steps), viewer)
  {
    hide Inv, Exec, Fold, Matches, OnePolice, SamePeople;
    if steps != [] {
      var front, st := steps[..|steps| - 1], steps[|steps| - 1];
      var m := After(s, front);
      ReplicaFollows(g, s, viewer, front);
      PeopleStay(s, front);
      OnePoliceStays(s.players, m.players);
      StepMatches(Follow(g, viewer, s, front), m, viewer, st);
    }
  }

  lemma PeopleStay(s: State, steps: seq<Step>)
    requires Inv(s) && Sane(steps)
    ensures SamePeople(s.players, After(s, steps).players)
  {
    hide Inv, SamePeople, After, Trace;
    RunShape(s, steps);
  }

  // ---------------------------------------------------------------- where replicas come from

  /** A snapshot message: times arrive as milliseconds, the zero instant as a negative number. */
  function FromSnapshot(s: State, own: Own): Mirror {
    Mirror(s.phase, s.day, s.players, s.speakerIdx, s.nightStep, Some(UnixMilli(s.deadline)),
           Some(UnixMilli(s.stepDeadline)),
           s.paused, s.representative, s.killTarget, s.policeChecked, s.history, s.winner, s.endReason, own)
  }

  /** The snapshot a resuming viewer is sent: its masked view and its own data. */
  function FromView(v: Views.PrivateView): Mirror {
    FromSnapshot(v.state, Own(v.role, v.keyword, v.team, v.cohort))
  }

  /** The masked snapshot that a resuming viewer is sent makes a matching replica, kill target included. */
  lemma SnapshotMatches(s: State, viewer: PlayerId, host: PlayerId)
    requires ProperIds(s.players)
    ensures Matches(FromView(Views.View(s, viewer, host)), s, viewer)
    ensures FromView(Views.View(s, viewer, host)).killTarget == s.killTarget
  {
    hide RoleOf, IsAlive, Views.Masked, ProperIds;
    var rows := Views.Rows(s, viewer);
    forall i | 0 <= i < |rows|
      ensures rows[i].id == s.players[i].id && rows[i].alive == s.players[i].alive
      ensures s.phase.End? ==> rows[i].role == s.players[i].role
    {
      MaskKeepsFace(s, viewer, s.players[i]);
      Views.ViewShowsGrants(s, viewer, i);
    }
    PoliceSeesHistory(s, viewer);
  }

  lemma MaskKeepsFace(s: State, viewer: PlayerId, p: Player)
    ensures Views.Masked(s, viewer, p).id == p.id && Views.Masked(s, viewer, p).alive == p.alive
  {
  }

  lemma PoliceSeesHistory(s: State, viewer: PlayerId)
    requires ProperIds(s.players)
    ensures RoleOf(s.players, viewer).Police? ==> Views.MaskedState(s, viewer).history == s.history
  {
    if Has(s.players, viewer) {
      assert s.players[Index(s.players, viewer)].id != NOBODY;
    }
  }

  /** What a freshly connected client is sent: the unmasked state of a game, or the lobby when there is none. */
  function RoomState(s: State, lobby: State): State { if s.phase.NoPhase? || s.phase.Lobby? then lobby else s }

  /** That snapshot, which no mask is applied to, makes a matching replica for every viewer as well. */
  lemma RoomSnapshotMatches(s: State, lobby: State, viewer: PlayerId)
    requires Inv(s)
    ensures Matches(FromSnapshot(RoomState(s, lobby), NOTHING_OWN), s, viewer)
    ensures FromSnapshot(RoomState(s, lobby), NOTHING_OWN).killTarget == s.killTarget
  {
    hide RoleOf, IsAlive, ProperIds, People, Records;
  }

  /** A client that connects during a game, gets either snapshot and folds what follows, matches from then on. */
  lemma ReplicaFollowsFromSnapshot(s: State, viewer: PlayerId, host: PlayerId, lobby: State, steps: seq<Step>)
    requires Inv(s) && Sane(steps) && OnePolice(s.players)
    ensures Matches(Follow(FromView(Views.View(s, viewer, host)), viewer, s, steps), After(s, steps), viewer)
    ensures Matches(Follow(FromSnapshot(RoomState(s, lobby), NOTHING_OWN), viewer, s, steps), After(s, steps), viewer)
  {
    hide Fold, Matches, OnePolice, FromView, FromSnapshot, RoomState;
    SnapshotMatches(s, viewer, host);
    ReplicaFollows(FromView(Views.View(s, viewer, host)), s, viewer, steps);
    RoomSnapshotMatches(s, lobby, viewer);
    ReplicaFollows(FromSnapshot(RoomState(s, lobby), NOTHING_OWN), s, viewer, steps);
  }

  /** Revelations change nothing but what a client knows about its own player. */
  lemma {:induction false} RevelationsAreOwn(g: Mirror, viewer: PlayerId, es: seq<Envelope>, ps: seq<Player>)
    requires forall i :: 0 <= i < |es| ==> es[i].event.RoleRevealed? || es[i].event.GameStarted?
    ensures Fold(g, viewer, es, ps) == g.(own := Fold(g, viewer, es, ps).own)
  {
    if es != [] {
      RevelationsAreOwn(g, viewer, es[..|es| - 1], ps);
    }
  }

  /** A lobby client with the same roster in the same order matches a game that has just started. */
  lemma OpeningMatches(g: Mirror, s: State, a: Assignment, viewer: PlayerId)
    requires SameFaces(g.players, s.players) && !g.paused && g.history == []
    requires Distinct(s.players) && s.players != [] && a.mafiaIds != [] && a.rep == s.representative
    requires s.phase.Intro? && s.day == 1 && s.speakerIdx == 0 && NightClear(s) && s.deadline == ZERO_TIME
    requires !s.paused && s.history == []
    ensures Matches(Fold(g, viewer, Opening(s, a), s.players), s, viewer)
  {
    hide RoleOf, IsAlive, Fold, SameFaces, Distinct;
    var ps := s.players;
    var first := [Pub(GameStarted(s))] + seq(|ps|, i requires 0 <= i < |ps| => Revelation(ps[i]));
    var second := [Envelope(CohortRevealed(a.mafiaIds, a.rep), LivingMafia)];
    var e, f := PhaseChanged(Intro, 1, ZERO_TIME), SpeakerChanged(ps[0].id, s.settings.introSeconds);
    assert Opening(s, a) == (first + second) + [Pub(e), Pub(f)];
    RevelationsAreOwn(g, viewer, first, ps);
    FoldConcat(g, viewer, first, second, ps);
    FoldOne(Fold(g, viewer, first, ps), viewer, second[0], ps);
    var g1 := Fold(g, viewer, first + second, ps);
    FoldConcat(g, viewer, first + second, [Pub(e), Pub(f)], ps);
    FoldTwo(g1, viewer, e, f, ps);
    SameFacesSameIndex(g.players, ps, 0);
  }

  lemma StartHasOnePolice(s0: State, gameId: string, host: PlayerId, roster: seq<Player>, o: Options, env: Env)
    requires ProperIds(roster) && Start(s0, gameId, host, roster, o, env).error.None?
    ensures OnePolice(Start(s0, gameId, host, roster, o, env).next.players)
  {
    hide ValidOptions, Opening, Shuffle;
    var a := Assign(Ids(roster), o, env.deal).value;
    var ps := Seat(roster, a);
    forall x, y | RoleOf(ps, x).Police? && RoleOf(ps, y).Police? ensures x == y {
      assert ps[Index(ps, x)].role == RoleIn(a.roles, x) && ps[Index(ps, y)].role == RoleIn(a.roles, y);
      DealtOnePolice(Ids(roster), o, env.deal, x, y);
    }
  }

  /**
   The whole life of a replica: a lobby client with the engine's roster folds the opening of
   the game and everything after it, and matches the engine after any run.
   */
  lemma ReplicaFollowsFromStart(g: Mirror, viewer: PlayerId, s0: State, gameId: string, host: PlayerId,
                                roster: seq<Player>, o: Options, env: Env, steps: seq<Step>)
    requires ProperIds(roster) && SaneEnv(env) && Sane(steps) && Start(s0, gameId, host, roster, o, env).error.None?
    requires !g.paused && g.history == [] && SameFaces(g.players, Start(s0, gameId, host, roster, o, env).next.players)
    ensures Inv(Start(s0, gameId, host, roster, o, env).next)
    ensures
      var start := Start(s0, gameId, host, roster, o, env);
      Matches(Follow(Fold(g, viewer, start.events, start.reply.players), viewer, start.next, steps),
              After(start.next, steps), viewer)
  {
    hide Inv, Fold, Matches, SameFaces, OnePolice, Opening, ValidOptions;
    var start := Start(s0, gameId, host, roster, o, env);
    StartEstablishes(s0, gameId, host, roster, o, env);
    StartHasOnePolice(s0, gameId, host, roster, o, env);
    DealIsSound(roster, o, env.deal);
    var a := Assign(Ids(roster), o, env.deal).value;
    OpeningMatches(g, start.next, a, viewer);
    ReplicaFollows(Fold(g, viewer, start.events, start.reply.players), start.next, viewer, steps);
  }

  lemma DealIsSound(roster: seq<Player>, o: Options, deal: Deal)
    requires ProperIds(roster) && Assign(Ids(roster), o, deal).Some?
    ensures
      var a := Assign(Ids(roster), o, deal).value;
      a.mafiaIds != [] && Seat(roster, a) != [] && Distinct(Seat(roster, a))
  {
    var ps := Seat(roster, Assign(Ids(roster), o, deal).value);
    forall i, j | 0 <= i < j < |ps| ensures ps[i].id != ps[j].id {
      assert roster[i].id != roster[j].id;
    }
  }

  /** The night's kill target is the exception: once a client has it, no event message clears it. */
  lemma {:induction false} KillTargetIsNeverCleared(g: Mirror, viewer: PlayerId, es: seq<Envelope>, ps: seq<Player>)
    requires g.killTarget.Some?
    ensures Fold(g, viewer, es, ps).killTarget.Some?
  {
    if es != [] {
      KillTargetIsNeverCleared(g, viewer, es[..|es| - 1], ps);
    }
  }
}
