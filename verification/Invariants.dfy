/**
 What every reachable game state satisfies, how one step may change a state, and
 the proof that every action and every tick respects both.
 */
module Invariants {
  import opened GameTypes
  import opened Roster
  import opened Ballots
  import opened Dealing
  import opened Rules

  // ---------------------------------------------------------------- the invariant

  predicate NightClear(s: State) {
    && s.killTarget.None? && s.healTarget.None? && s.checkTarget.None? && !s.policeChecked
    && s.nightStep.NoStep? && s.stepDeadline == ZERO_TIME
  }

  predicate NoBallots(s: State) { s.votes == map[] && s.candidates == [] }

  /** Which fields are set in which phase. */
  predicate PhaseShape(s: State) {
    match s.phase
    case Intro => s.day == 1 && s.deadline == ZERO_TIME && NightClear(s) && NoBallots(s) && s.voteRound == 0
    case Day => ZERO_TIME < s.deadline && NightClear(s) && NoBallots(s) && s.voteRound == 0
    case Vote => s.deadline == ZERO_TIME && NightClear(s) && s.voteRound == 1 && s.candidates == []
    case Recount => s.deadline == ZERO_TIME && NightClear(s) && s.voteRound == 2
    case Night =>
      && s.deadline == ZERO_TIME && StepsLeft(s.nightStep) > 0 && ZERO_TIME < s.stepDeadline
      && NoBallots(s) && s.voteRound == 0
    case End => s.endReason.Some?
    case _ => false
  }

  predicate EndShape(s: State) {
    && (!s.phase.End? ==> s.endReason.None? && s.winner.None?)
    && (s.pendingEnd.Some? ==>
          && !s.phase.End? && !s.phase.Intro?
          && s.pendingEnd.value.winner.Some?
          && s.pendingEnd.value.reason == if s.pendingEnd.value.winner.value.MafiaTeam? then MafiaWin else CitizenWin)
  }

  /** The night targets are living players, and the kill target is not mafia. */
  predicate LiveTargets(ps: seq<Player>, kill: Option<PlayerId>, heal: Option<PlayerId>) {
    && (kill.Some? ==> IsAlive(ps, kill.value) && !RoleOf(ps, kill.value).Mafia?)
    && (heal.Some? ==> IsAlive(ps, heal.value))
  }

  /** A ballot in progress: living voters, living (or no) targets, and somebody yet to vote. */
  ghost predicate OpenBallot(ps: seq<Player>, votes: map<PlayerId, PlayerId>, candidates: seq<PlayerId>, recount: bool)
  {
    && (forall v :: v in votes ==>
          && IsAlive(ps, v)
          && (votes[v] == NOBODY || (IsAlive(ps, votes[v]) && (recount ==> votes[v] in candidates))))
    && |votes| < Live(ps)
    && (recount ==>
          && |candidates| >= 2
          && (forall k, l :: 0 <= k < l < |candidates| ==> candidates[k] != candidates[l])
          && (forall k :: 0 <= k < |candidates| ==> IsAlive(ps, candidates[k])))
  }

  /** Every recorded investigation is true, at most one per day, and none later than `bound`. */
  ghost predicate TrueHistory(ps: seq<Player>, h: seq<PoliceRecord>, bound: int) {
    && (forall i :: 0 <= i < |h| ==>
          && 1 <= h[i].day <= bound && Has(ps, h[i].target)
          && (h[i].team == MafiaTeam <==> RoleOf(ps, h[i].target).Mafia?))
    && (forall i, j :: 0 <= i < j < |h| ==> h[i].day < h[j].day)
  }

  function HistoryBound(s: State): int {
    if s.phase.End? || (s.phase.Night? && s.policeChecked) then s.day else s.day - 1
  }

  predicate Clocked(s: State) {
    ZERO_TIME < s.lastTickAt && (if s.paused then ZERO_TIME < s.pausedAt else s.pausedAt == ZERO_TIME)
  }

  ghost predicate Table(s: State) {
    && ProperIds(s.players)
    && ValidOptions(s.settings, |s.players|)
    && 1 <= s.day
    && 0 <= s.speakerIdx < |s.players|
  }

  ghost predicate People(s: State) {
    && RightRepresentative(s.players, s.representative)
    && (!s.phase.End? && s.pendingEnd.None? ==> Balanced(s.players))
    && LiveTargets(s.players, s.killTarget, s.healTarget)
    && ((s.phase.Vote? || s.phase.Recount?) && s.pendingEnd.None? ==>
          OpenBallot(s.players, s.votes, s.candidates, s.phase.Recount?))
  }

  ghost predicate Records(s: State) {
    && TrueHistory(s.players, s.history, HistoryBound(s))
    && (s.phase.Night? && s.policeChecked ==> s.history != [] && s.history[|s.history| - 1].day == s.day)
  }

  /** What every state of a started game satisfies. */
  ghost predicate Inv(s: State) {
    Table(s) && PhaseShape(s) && EndShape(s) && Clocked(s) && People(s) && Records(s)
  }

  // ---------------------------------------------------------------- one step

  predicate PhaseMove(a: Phase, b: Phase) {
    a == b || (b.End? && !a.End?) || match a
      case Intro => b.Day?
      case Day => b.Vote?
      case Vote => b.Recount? || b.Night?
      case Recount => b.Night?
      case Night => b.Day?
      case _ => false
  }

  /** A pending end keeps its verdict and is never brought forward. */
  predicate PendingCarried(s: State, t: State) {
    s.pendingEnd.Some? && !t.phase.End? ==>
      && t.pendingEnd.Some?
      && t.pendingEnd.value.reason == s.pendingEnd.value.reason
      && t.pendingEnd.value.winner == s.pendingEnd.value.winner
      && t.pendingEnd.value.deadline >= s.pendingEnd.value.deadline
  }

  /** A verdict appears only as what the count of the living says. */
  predicate VerdictIsCounted(s: State, t: State) {
    s.pendingEnd.None? && t.pendingEnd.Some? ==>
      && EvaluateEnd(t).Some?
      && t.pendingEnd.value.reason == EvaluateEnd(t).value.reason
      && t.pendingEnd.value.winner == Some(EvaluateEnd(t).value.winner)
  }

  /** A game ends by the host's order, or with the verdict that was pending. */
  predicate EndIsEarned(s: State, t: State) {
    !s.phase.End? && t.phase.End? ==>
      && t.players == s.players && t.pendingEnd.None?
      && (|| (t.endReason == Some(HostForceEnd) && t.winner.None?)
          || (&& s.pendingEnd.Some? && t.endReason == Some(s.pendingEnd.value.reason)
              && t.winner == s.pendingEnd.value.winner))
  }

  /** Phase and day advance in order; an ended game is frozen; everything fixed at the start stays fixed. */
  predicate Moves(s: State, t: State) {
    && PhaseMove(s.phase, t.phase)
    && t.day == s.day + (if s.phase.Night? && t.phase.Day? then 1 else 0)
    && t.settings.(voiceOn := s.settings.voiceOn) == s.settings
    && t.hostId == s.hostId && t.gameId == s.gameId && t.startedAt == s.startedAt
    && (s.phase.End? ==> t == s.(lastTickAt := t.lastTickAt))
  }

  /** How one call may change a state. */
  ghost predicate Follows(s: State, t: State) {
    && SamePeople(s.players, t.players)
    && AtMostOneDeath(s.players, t.players)
    && Moves(s, t)
    && s.history <= t.history
    && PendingCarried(s, t)
    && VerdictIsCounted(s, t)
    && EndIsEarned(s, t)
  }

  predicate SaneEnv(env: Env) { ZERO_TIME < env.now <= env.later }

  /** What each call owes: an error changes nothing, a success keeps the invariant. */
  ghost predicate Keeps(s: State, o: Outcome) {
    if o.error.Some? then o.next == s && o.events == [] else Inv(o.next) && Follows(s, o.next)
  }

  // ---------------------------------------------------------------- building blocks

  lemma HistorySurvives(a: seq<Player>, b: seq<Player>, h: seq<PoliceRecord>, bound: int, bound': int)
    requires SamePeople(a, b) && TrueHistory(a, h, bound) && bound <= bound'
    ensures TrueHistory(b, h, bound')
  {
    forall i | 0 <= i < |h| ensures Has(b, h[i].target) && (h[i].team == MafiaTeam <==> RoleOf(b, h[i].target).Mafia?) {
      SamePeopleSameIndex(a, b, h[i].target);
    }
  }

  lemma SamePeopleCount(a: seq<Player>, b: seq<Player>)
    requires SamePeople(a, b)
    ensures |a| == |b|
  {
  }

  /** A burial changes the alive flag of the dead and keeps a right representative. */
  lemma BuryFacts(s: State, id: PlayerId, pick: Option<nat>)
    requires ProperIds(s.players) && RightRepresentative(s.players, s.representative) && Has(s.players, id)
    ensures
      var t := Bury(s, id, pick).state;
      && t == s.(players := Kill(s.players, id), representative := t.representative)
      && SamePeople(s.players, t.players) && AtMostOneDeath(s.players, t.players)
      && ProperIds(t.players)
      && RightRepresentative(t.players, t.representative)
  {
    var ps := Kill(s.players, id);
    KillFacts(s.players, id);
    SamePeopleDistinct(s.players, ps);
    if id == s.representative {
      if MafiaIds(ps) != [] {
        var k := if pick.None? then 0 else pick.value % |MafiaIds(ps)|;
        ListedMafiaIsRight(ps, k);
      }
    } else {
      KillKeepsRepresentative(s.players, id, s.representative);
    }
  }

  lemma UndecidedIsBalanced(s: State)
    ensures !s.phase.End? ==> (EvaluateEnd(s).None? <==> Balanced(s.players))
  {
  }

  /** A step that kills nobody. */
  lemma Still(s: State, t: State)
    requires t.players == s.players && Moves(s, t) && s.history <= t.history
    requires PendingCarried(s, t) && VerdictIsCounted(s, t) && EndIsEarned(s, t)
    ensures Follows(s, t)
  {
  }

  lemma EnterNightKeeps(s: State, now: Time)
    requires Table(s) && EndShape(s) && !s.phase.End? && !s.phase.Intro? && Clocked(s) && ZERO_TIME < now
    requires RightRepresentative(s.players, s.representative)
    requires s.pendingEnd.None? ==> Balanced(s.players)
    requires TrueHistory(s.players, s.history, s.day - 1)
    ensures Inv(EnterNight(s, now).state)
  {
  }

  /** The state after a night, before a decided end is scheduled. */
  function Morning(s: State, players: seq<Player>, rep: PlayerId, env: Env): State {
    ClearNight(s).(players := players, representative := rep, day := s.day + 1, phase := Day,
                   deadline := env.now + Seconds(DAY_INTRO_SECONDS + s.settings.discussionSeconds),
                   lastTickAt := env.now)
  }

  /** A night always resolves: the unknown-victim error cannot happen. */
  lemma NightResolves(s: State, env: Env) returns (players: seq<Player>, rep: PlayerId)
    requires ProperIds(s.players) && LiveTargets(s.players, s.killTarget, s.healTarget)
    requires RightRepresentative(s.players, s.representative)
    ensures players == if Victim(s).Some? then Kill(s.players, Victim(s).value) else s.players
    ensures ResolveNight(s, env).error.None?
    ensures ResolveNight(s, env).next == ScheduleEnd(Morning(s, players, rep, env), env.later)
    ensures SamePeople(s.players, players) && AtMostOneDeath(s.players, players)
    ensures ProperIds(players) && RightRepresentative(players, rep)
  {
    if Victim(s).Some? {
      BuryFacts(s, Victim(s).value, env.pick);
      var b := Bury(s, Victim(s).value, env.pick).state;
      players, rep := b.players, b.representative;
    } else {
      players, rep := s.players, s.representative;
    }
  }

  /** Scheduling a decided end completes the invariant of a state that lacks only its verdict. */
  lemma SchedulingKeeps(m: State, now: Time)
    requires Table(m) && PhaseShape(m) && EndShape(m) && Clocked(m) && Records(m)
    requires RightRepresentative(m.players, m.representative) && LiveTargets(m.players, m.killTarget, m.healTarget)
    requires m.phase.Day? || ((m.phase.Vote? || m.phase.Recount?) && EvaluateEnd(m).Some?)
    ensures Inv(ScheduleEnd(m, now))
  {
    hide ProperIds, RightRepresentative, LiveTargets, TrueHistory, OpenBallot, LiveMafia, LiveCitizens;
    assert EvaluateEnd(m).None? ==> Balanced(m.players);
  }

  lemma MorningKeeps(s: State, players: seq<Player>, rep: PlayerId, env: Env)
    requires Inv(s) && s.phase.Night? && SaneEnv(env)
    requires SamePeople(s.players, players) && AtMostOneDeath(s.players, players)
    requires ProperIds(players) && RightRepresentative(players, rep)
    ensures Inv(ScheduleEnd(Morning(s, players, rep, env), env.later))
  {
    hide ProperIds, RightRepresentative, OpenBallot, Balanced, SamePeople, AtMostOneDeath, TrueHistory, IsAlive;
    var m := Morning(s, players, rep, env);
    SamePeopleCount(s.players, players);
    HistorySurvives(s.players, players, s.history, HistoryBound(s), s.day);
    SchedulingKeeps(m, env.later);
  }

  lemma MorningFollows(s: State, players: seq<Player>, rep: PlayerId, env: Env)
    requires s.phase.Night? && SamePeople(s.players, players) && AtMostOneDeath(s.players, players)
    ensures Follows(s, ScheduleEnd(Morning(s, players, rep, env), env.later))
  {
  }

  /**
   Resolving a night keeps the invariant, whatever step the night is in. `s0` is the
   state itself or, as on the last tick of a night, the state with its step cleared.
   */
  lemma ResolveNightKeeps(s: State, s0: State, env: Env)
    requires Inv(s) && s.phase.Night? && SaneEnv(env)
    requires s0 == s || s0 == s.(nightStep := NoStep, stepDeadline := ZERO_TIME)
    ensures ResolveNight(s0, env).error.None?
    ensures Inv(ResolveNight(s0, env).next) && Follows(s, ResolveNight(s0, env).next)
    ensures ResolveNight(s0, env).next.phase.Day?
  {
    hide Inv, Follows, ResolveNight, ScheduleEnd, SamePeople, AtMostOneDeath, ProperIds, RightRepresentative;
    NightTargets(s, s0);
    var players, rep := NightResolves(s0, env);
    MorningIsDay(s, players, rep, env);
    assert Morning(s0, players, rep, env) == Morning(s, players, rep, env);
    MorningKeeps(s, players, rep, env);
    MorningFollows(s, players, rep, env);
  }

  lemma NightTargets(s: State, s0: State)
    requires Inv(s) && s.phase.Night? && (s0 == s || s0 == s.(nightStep := NoStep, stepDeadline := ZERO_TIME))
    ensures ProperIds(s0.players) && LiveTargets(s0.players, s0.killTarget, s0.healTarget)
    ensures RightRepresentative(s0.players, s0.representative)
  {
  }

  lemma MorningIsDay(s: State, players: seq<Player>, rep: PlayerId, env: Env)
    ensures ScheduleEnd(Morning(s, players, rep, env), env.later).phase.Day?
  {
    hide LiveMafia, LiveCitizens;
  }

  // ---------------------------------------------------------------- voting

  /** With no end pending, the vote is complete exactly when the voters are the living. */
  lemma CompleteIffAllVoted(ps: seq<Player>, votes: map<PlayerId, PlayerId>)
    requires Distinct(ps) && forall v :: v in votes ==> IsAlive(ps, v)
    ensures |votes| >= Live(ps) <==> votes.Keys == LivingIds(ps)
  {
    forall v | v in votes ensures v in LivingIds(ps) {
      AliveIffLivingId(ps, v);
    }
    LiveCountsLivingIds(ps);
    assert votes.Keys <= LivingIds(ps);
    assert |votes| == |votes.Keys|;
    if |votes| >= Live(ps) {
      SubsetFull(votes.Keys, LivingIds(ps));
    }
  }

  lemma SubsetFull<T>(a: set<T>, b: set<T>)
    requires a <= b && |a| >= |b|
    ensures a == b
  {
    assert b == a + (b - a);
    assert |b| == |a| + |b - a|;
  }

  /** A tied first round leaves at least two distinct living candidates. */
  lemma TieMakesCandidates(s: State)
    requires ProperIds(s.players)
    requires forall v :: v in s.votes ==> s.votes[v] == NOBODY || IsAlive(s.players, s.votes[v])
    ensures
      var top := Top(s.players, Counts(s.votes));
      && (forall k, l :: 0 <= k < l < |top| ==> top[k] != top[l])
      && (forall k :: 0 <= k < |top| ==> IsAlive(s.players, top[k]))
  {
    var top := Top(s.players, Counts(s.votes));
    TopInSeatingOrder(s.players, s.votes);
    forall k | 0 <= k < |top| ensures IsAlive(s.players, top[k]) {
      TopIsArgmax(s.players, s.votes, top[k]);
      assert s.players[Index(s.players, top[k])].id != NOBODY;
      ScoreIsCount(s.votes, top[k]);
      var v :| v in s.votes && s.votes[v] == top[k];
    }
  }

  lemma TopIsSeated(ps: seq<Player>, votes: map<PlayerId, PlayerId>)
    requires ProperIds(ps)
    ensures forall k :: 0 <= k < |Top(ps, Counts(votes))| ==> Has(ps, Top(ps, Counts(votes))[k])
  {
    forall k | 0 <= k < |Top(ps, Counts(votes))| ensures Has(ps, Top(ps, Counts(votes))[k]) {
      TopIsArgmax(ps, votes, Top(ps, Counts(votes))[k]);
    }
  }

  /** The state right after a player is voted out, with the completed ballots still in place. */
  predicate VotedOut(s: State, b: State) {
    && (s.phase.Vote? || s.phase.Recount?)
    && b == s.(votes := b.votes, players := b.players, representative := b.representative)
  }

  lemma VotedOutParts(s: State, b: State)
    requires Inv(s) && VotedOut(s, b) && SamePeople(s.players, b.players)
    ensures ValidOptions(b.settings, |b.players|) && 0 <= b.speakerIdx < |b.players| && 1 <= b.day
    ensures PhaseShape(b) && EndShape(b) && Clocked(b)
    ensures LiveTargets(b.players, b.killTarget, b.healTarget)
    ensures TrueHistory(b.players, b.history, b.day - 1)
  {
    HistorySurvives(s.players, b.players, s.history, s.day - 1, s.day - 1);
  }

  lemma VotedOutKeeps(s: State, b: State, now: Time)
    requires Inv(s) && VotedOut(s, b) && SamePeople(s.players, b.players) && ProperIds(b.players) && ZERO_TIME < now
    requires RightRepresentative(b.players, b.representative)
    ensures EvaluateEnd(b).Some? ==> Inv(ScheduleEnd(b, now))
    ensures EvaluateEnd(b).None? ==> Inv(EnterNight(b, now).state)
  {
    hide Inv, EnterNight, Balanced;
    VotedOutParts(s, b);
    UndecidedIsBalanced(b);
    if EvaluateEnd(b).None? {
      EnterNightKeeps(b, now);
    } else {
      SchedulingKeeps(b, now);
    }
  }

  lemma VotedOutFollows(s: State, b: State, now: Time)
    requires VotedOut(s, b) && SamePeople(s.players, b.players) && AtMostOneDeath(s.players, b.players)
    ensures Follows(s, ScheduleEnd(b, now)) && Follows(s, EnterNight(b, now).state)
  {
    hide ScheduleEnd, EnterNight, Follows;
    ScheduledFollows(s, b, now);
    NightFollows(s, b, now);
  }

  lemma ScheduledFollows(s: State, b: State, now: Time)
    requires VotedOut(s, b) && SamePeople(s.players, b.players) && AtMostOneDeath(s.players, b.players)
    ensures Follows(s, ScheduleEnd(b, now))
  {
    hide SamePeople, AtMostOneDeath, LiveMafia, LiveCitizens;
  }

  lemma NightFollows(s: State, b: State, now: Time)
    requires VotedOut(s, b) && SamePeople(s.players, b.players) && AtMostOneDeath(s.players, b.players)
    ensures Follows(s, EnterNight(b, now).state)
  {
    hide SamePeople, AtMostOneDeath, EvaluateEnd;
  }

  lemma EliminateKeeps(s: State, votes: map<PlayerId, PlayerId>, id: PlayerId, env: Env)
    requires Inv(s) && (s.phase.Vote? || s.phase.Recount?) && Has(s.players, id) && SaneEnv(env)
    ensures
      var t := Eliminate(s.(votes := votes), id, env).state;
      Inv(t) && Follows(s, t)
  {
    var s1 := s.(votes := votes);
    BuryFacts(s1, id, env.pick);
    var b := Bury(s1, id, env.pick).state;
    VotedOutKeeps(s, b, env.now);
    VotedOutFollows(s, b, env.now);
  }

  lemma RecountKeeps(s: State, votes: map<PlayerId, PlayerId>)
    requires Inv(s) && s.phase.Vote?
    requires s.pendingEnd.None? ==> forall v :: v in votes ==> votes[v] == NOBODY || IsAlive(s.players, votes[v])
    requires |Top(s.players, Counts(votes))| > 1
    ensures
      var t := s.(phase := Recount, voteRound := 2, candidates := Top(s.players, Counts(votes)), votes := map[]);
      Inv(t) && Follows(s, t)
  {
    var t := s.(phase := Recount, voteRound := 2, candidates := Top(s.players, Counts(votes)), votes := map[]);
    if s.pendingEnd.None? {
      TieMakesCandidates(s.(votes := votes));
    }
    assert Table(t) && PhaseShape(t) && EndShape(t) && Clocked(t) && Records(t);
    Still(s, t);
  }

  /** Counting complete ballots keeps the invariant, whether or not an end is already pending. */
  lemma TallyKeeps(s: State, votes: map<PlayerId, PlayerId>, env: Env)
    requires Inv(s) && (s.phase.Vote? || s.phase.Recount?) && SaneEnv(env)
    requires s.pendingEnd.None? ==> forall v :: v in votes ==> votes[v] == NOBODY || IsAlive(s.players, votes[v])
    ensures
      var t := Tally(s.(votes := votes), env).state;
      Inv(t) && Follows(s, t)
  {
    hide Eliminate, EnterNight, Follows, People, Records, ProperIds, Top, Counts;
    var s1 := s.(votes := votes);
    var top := Top(s1.players, Counts(votes));
    NightAfterVote(s, votes, env);
    if |top| == 1 {
      TopIsElected(s, votes);
      EliminateKeeps(s, votes, top[0], env);
    } else if |top| > 1 && s.voteRound == 1 {
      RecountKeeps(s, votes);
    }
  }

  lemma TopIsElected(s: State, votes: map<PlayerId, PlayerId>)
    requires Inv(s)
    ensures forall k :: 0 <= k < |Top(s.players, Counts(votes))| ==> Has(s.players, Top(s.players, Counts(votes))[k])
  {
    hide People, Records;
    TopIsSeated(s.players, votes);
  }

  lemma NightAfterVote(s: State, votes: map<PlayerId, PlayerId>, env: Env)
    requires Inv(s) && (s.phase.Vote? || s.phase.Recount?) && SaneEnv(env)
    ensures
      var t := EnterNight(s.(votes := votes), env.now).state;
      Inv(t) && Follows(s, t)
  {
    hide Balanced, OpenBallot, RightRepresentative, TrueHistory, ProperIds, EnterNight, Follows;
    var s1 := s.(votes := votes);
    EnterNightKeeps(s1, env.now);
    NobodyDied(s.players);
    NightFollows(s, s1, env.now);
  }

  lemma NobodyDied(ps: seq<Player>)
    ensures SamePeople(ps, ps) && AtMostOneDeath(ps, ps)
  {
  }

  lemma BallotKeeps(s: State, sender: PlayerId, target: PlayerId)
    requires Inv(s) && BallotError(s, sender, target).None? && |s.votes[sender := target]| < Live(s.players)
    ensures
      var t := s.(votes := s.votes[sender := target]);
      Inv(t) && Follows(s, t)
  {
    hide ProperIds, TrueHistory, OpenBallot, RightRepresentative, Balanced, LiveTargets, Follows, Live;
    var t := s.(votes := s.votes[sender := target]);
    if s.pendingEnd.None? {
      BallotGrows(s.players, s.votes, s.candidates, s.phase.Recount?, sender, target);
    }
    Still(s, t);
  }

  lemma BallotGrows(ps: seq<Player>, votes: map<PlayerId, PlayerId>, candidates: seq<PlayerId>, recount: bool,
                    sender: PlayerId, target: PlayerId)
    requires OpenBallot(ps, votes, candidates, recount) && |votes[sender := target]| < Live(ps)
    requires IsAlive(ps, sender)
    requires target == NOBODY || (IsAlive(ps, target) && (recount ==> target in candidates))
    ensures OpenBallot(ps, votes[sender := target], candidates, recount)
  {
  }

  lemma BallotTargetsLive(s: State, sender: PlayerId, target: PlayerId)
    requires Inv(s) && BallotError(s, sender, target).None? && s.pendingEnd.None?
    ensures
      var votes := s.votes[sender := target];
      forall v :: v in votes ==> IsAlive(s.players, v) && (votes[v] == NOBODY || IsAlive(s.players, votes[v]))
  {
  }

  lemma CastVoteKeeps(s: State, sender: PlayerId, target: PlayerId, env: Env)
    requires Inv(s) && SaneEnv(env)
    ensures Keeps(s, CastVote(s, sender, target, env))
  {
    if BallotError(s, sender, target).None? {
      var votes := s.votes[sender := target];
      if |votes| >= Live(s.players) {
        if s.pendingEnd.None? {
          BallotTargetsLive(s, sender, target);
        }
        TallyKeeps(s, votes, env);
      } else {
        BallotKeeps(s, sender, target);
      }
    }
  }

  // ---------------------------------------------------------------- the other actions

  lemma NextSpeakerKeeps(s: State, now: Time)
    requires Inv(s) && s.phase.Intro? && ZERO_TIME < now
    ensures Keeps(s, NextSpeaker(s, now))
  {
    hide People, Records, ProperIds, IntroToDay;
    FirstDayKeeps(s, now);
    OtherSpeakerKeeps(s, s.speakerIdx + 1, now);
  }

  lemma OtherSpeakerKeeps(s: State, i: int, start: Time)
    requires Inv(s) && s.phase.Intro?
    ensures 0 <= i < |s.players| ==>
      var t := s.(speakerIdx := i, speakerStartedAt := start);
      Inv(t) && Follows(s, t)
  {
    hide ProperIds, RightRepresentative, LiveTargets, TrueHistory, OpenBallot, Balanced;
    if 0 <= i < |s.players| {
      Still(s, s.(speakerIdx := i, speakerStartedAt := start));
    }
  }

  lemma FirstDayKeeps(s: State, now: Time)
    requires Inv(s) && s.phase.Intro? && ZERO_TIME < now
    ensures Inv(IntroToDay(s, now).state) && Follows(s, IntroToDay(s, now).state)
  {
    hide ProperIds, RightRepresentative, LiveTargets, TrueHistory, OpenBallot, Balanced;
    Still(s, IntroToDay(s, now).state);
  }

  /** A night submission changes only the night's own fields and the history. */
  lemma SubmissionKeeps(s: State, t: State)
    requires Inv(s) && s.phase.Night?
    requires t == s.(killTarget := t.killTarget, healTarget := t.healTarget, checkTarget := t.checkTarget,
                     policeChecked := t.policeChecked, history := t.history)
    requires LiveTargets(t.players, t.killTarget, t.healTarget) && Records(t) && s.history <= t.history
    ensures Inv(t) && Follows(s, t)
  {
    assert Table(t) && PhaseShape(t) && EndShape(t) && Clocked(t);
    Still(s, t);
  }

  lemma KillKeeps(s: State, sender: PlayerId, target: PlayerId)
    requires Inv(s)
    ensures Keeps(s, SubmitKillRule(s, sender, target))
  {
    hide ProperIds, Balanced, RightRepresentative, OpenBallot, TrueHistory, Follows;
    if SubmitKillRule(s, sender, target).error.None? {
      SubmissionKeeps(s, s.(killTarget := Some(target)));
    }
  }

  lemma HealKeeps(s: State, sender: PlayerId, target: PlayerId)
    requires Inv(s)
    ensures Keeps(s, SubmitHealRule(s, sender, target))
  {
    hide ProperIds, Balanced, RightRepresentative, OpenBallot, TrueHistory, Follows;
    if SubmitHealRule(s, sender, target).error.None? {
      SubmissionKeeps(s, s.(healTarget := Some(target)));
    }
  }

  lemma HistoryGrows(ps: seq<Player>, h: seq<PoliceRecord>, day: int, target: PlayerId)
    requires TrueHistory(ps, h, day - 1) && Has(ps, target) && 1 <= day
    ensures TrueHistory(ps, h + [PoliceRecord(day, target, TeamOf(RoleOf(ps, target)))], day)
  {
  }

  function Checked(s: State, target: PlayerId): State {
    s.(checkTarget := Some(target), policeChecked := true,
       history := s.history + [PoliceRecord(s.day, target, TeamOf(RoleOf(s.players, target)))])
  }

  lemma CheckedKeeps(s: State, target: PlayerId)
    requires Inv(s) && s.phase.Night? && !s.policeChecked && Has(s.players, target)
    ensures Inv(Checked(s, target)) && Follows(s, Checked(s, target))
  {
    HistoryGrows(s.players, s.history, s.day, target);
    SubmissionKeeps(s, Checked(s, target));
  }

  lemma CheckKeeps(s: State, sender: PlayerId, target: PlayerId)
    requires Inv(s)
    ensures Keeps(s, SubmitCheckRule(s, sender, target))
  {
    hide ProperIds, Balanced, RightRepresentative, OpenBallot, TrueHistory, Follows;
    if SubmitCheckRule(s, sender, target).error.None? {
      CheckedKeeps(s, target);
    }
  }

  lemma DayToVoteKeeps(s: State, now: Time)
    requires Inv(s) && s.phase.Day? && ZERO_TIME < now
    ensures Inv(DayToVote(s, now).state) && Follows(s, DayToVote(s, now).state)
  {
    if s.pendingEnd.None? {
      LiveSplits(s.players);
    }
  }

  lemma PauseKeeps(s: State, host: PlayerId, env: Env)
    requires Inv(s) && SaneEnv(env)
    ensures Keeps(s, Pause(s, host, env))
  {
    hide Inv, Follows;
    Still(s, s);
    HaltKeeps(s, env.now);
    EndedIsNotPending(s);
  }

  lemma EndedIsNotPending(s: State)
    requires Inv(s)
    ensures s.phase.End? ==> s.pendingEnd.None?
  {
  }

  lemma HaltKeeps(s: State, at: Time)
    requires Inv(s) && ZERO_TIME < at
    ensures Inv(s.(paused := true, pausedAt := at))
    ensures !s.phase.End? ==> Follows(s, s.(paused := true, pausedAt := at))
  {
    hide ProperIds, TrueHistory, OpenBallot, RightRepresentative, Balanced, LiveTargets, Follows;
    if !s.phase.End? {
      Still(s, s.(paused := true, pausedAt := at));
    }
  }

  lemma ResumedKeeps(s: State, now: Time)
    requires Inv(s) && s.paused && !s.phase.End? && ZERO_TIME < now
    ensures Inv(Resumed(s, now)) && Follows(s, Resumed(s, now))
  {
    var t := Resumed(s, now);
    assert Table(t) && PhaseShape(t) && EndShape(t) && Clocked(t);
    assert People(t);
    assert Records(t);
    Still(s, t);
  }

  lemma ResumeKeeps(s: State, host: PlayerId, env: Env)
    requires Inv(s) && SaneEnv(env) && !s.phase.End?
    ensures Keeps(s, Resume(s, host, env))
  {
    if s.paused {
      ResumedKeeps(s, env.now);
    } else {
      Still(s, s);
    }
  }

  lemma EndKeeps(s: State, reason: EndReason, winner: Option<Team>, last: Time)
    requires Inv(s) && !s.phase.End? && ZERO_TIME < last
    requires (reason.HostForceEnd? && winner.None?)
          || (s.pendingEnd.Some? && reason == s.pendingEnd.value.reason && winner == s.pendingEnd.value.winner)
    ensures
      var t := EndGame(s.(pendingEnd := None, lastTickAt := last), reason, winner).state;
      Inv(t) && Follows(s, t)
  {
    HistorySurvives(s.players, s.players, s.history, HistoryBound(s), s.day);
  }

  lemma IntroActionKeeps(s: State, host: PlayerId, sender: PlayerId, env: Env)
    requires Inv(s) && SaneEnv(env)
    ensures Keeps(s, Advance(s, host, env)) && Keeps(s, FinishSelf(s, sender, env))
  {
    hide People, Records, ProperIds, NextSpeaker, Follows;
    if s.phase.Intro? {
      NextSpeakerKeeps(s, env.now);
    }
  }

  lemma EndNightKeeps(s: State, host: PlayerId, env: Env)
    requires Inv(s) && SaneEnv(env)
    ensures Keeps(s, EndNightRule(s, host, env))
  {
    if s.phase.Night? {
      ResolveNightKeeps(s, s, env);
    }
  }

  lemma EndDiscussionKeeps(s: State, host: PlayerId, env: Env)
    requires Inv(s) && SaneEnv(env)
    ensures Keeps(s, EndDiscussionRule(s, host, env))
  {
    if s.phase.Day? {
      DayToVoteKeeps(s, env.now);
    }
  }

  lemma VoiceSetKeeps(s: State, on: bool)
    requires Inv(s) && !s.phase.End?
    ensures
      var t := s.(settings := s.settings.(voiceOn := on));
      Inv(t) && Follows(s, t)
  {
    hide ProperIds, OpenBallot, TrueHistory, RightRepresentative, Balanced, LiveTargets;
    Still(s, s.(settings := s.settings.(voiceOn := on)));
  }

  lemma VoiceKeeps(s: State, host: PlayerId, on: bool)
    requires Inv(s) && !s.phase.End?
    ensures Keeps(s, Voice(s, host, on))
  {
    VoiceSetKeeps(s, on);
  }

  lemma ForceEndKeeps(s: State, host: PlayerId)
    requires Inv(s) && !s.phase.End?
    ensures Keeps(s, ForceEnd(s, host))
  {
    EndKeeps(s, HostForceEnd, None, s.lastTickAt);
    assert s.(pendingEnd := None, lastTickAt := s.lastTickAt) == s.(pendingEnd := None);
  }

  lemma RejectionKeeps(s: State)
    ensures forall code :: Keeps(s, Rejected(s, code))
  {
  }

  /** Every action, accepted or rejected, respects the invariant and the step relation. */
  lemma ApplyKeeps(s: State, a: Action, env: Env)
    requires Inv(s) && SaneEnv(env)
    ensures Keeps(s, Apply(s, a, env))
  {
    hide Keeps, People, Records, ProperIds;
    hide Advance, FinishSelf, SubmitKillRule, SubmitHealRule, SubmitCheckRule, EndDiscussionRule, CastVote, Voice;
    hide Pause, Resume;
    hide ForceEnd, EndNightRule;
    RejectionKeeps(s);
    if s.phase.End? {
      return;
    }
    match a {
      case StartGame(_, _) =>
      case AdvanceIntro(host) => IntroActionKeeps(s, host, NOBODY, env);
      case EndSelfIntro(sender) => IntroActionKeeps(s, NOBODY, sender, env);
      case SubmitKill(sender, target) => KillKeeps(s, sender, target);
      case SubmitHeal(sender, target) => HealKeeps(s, sender, target);
      case SubmitCheck(sender, target) => CheckKeeps(s, sender, target);
      case EndNightEarly(host) => EndNightKeeps(s, host, env);
      case EndDiscussionEarly(host) => EndDiscussionKeeps(s, host, env);
      case SubmitVote(sender, target) => CastVoteKeeps(s, sender, target, env);
      case ToggleVoice(host, on) => VoiceKeeps(s, host, on);
      case ForceEndGame(host) => ForceEndKeeps(s, host);
      case PauseGame(host) => PauseKeeps(s, host, env);
      case ResumeGame(host) => ResumeKeeps(s, host, env);
    }
  }

  // ---------------------------------------------------------------- ticks

  lemma ActiveTick(s: State, now: Time)
    requires Inv(s) && s.lastTickAt < now
    ensures Inv(s.(lastTickAt := now)) && Follows(s, s.(lastTickAt := now))
  {
    Still(s, s.(lastTickAt := now));
  }

  lemma TickIntroKeeps(s: State, now: Time)
    requires Inv(s) && s.phase.Intro? && ZERO_TIME < now
    ensures Keeps(s, TickIntro(s, now)) && TickIntro(s, now).error.None?
  {
    hide People, Records, ProperIds, IntroToDay, SpeakerEvents, Turns, Follows;
    var per := Seconds(s.settings.introSeconds);
    var k := Turns(s.speakerIdx, s.speakerStartedAt, per, now, |s.players|);
    TurnsBound(s.speakerIdx, s.speakerStartedAt, per, now, |s.players|);
    var s1 := s.(speakerIdx := s.speakerIdx + k, speakerStartedAt := s.speakerStartedAt + TurnsTime(k, per));
    OtherSpeakerKeeps(s, s.speakerIdx + k, s.speakerStartedAt + TurnsTime(k, per));
    FirstDayKeeps(s1, now);
    FollowsTwice(s, s1, IntroToDay(s1, now).state);
  }

  lemma FollowsTwice(s: State, t: State, u: State)
    requires t == s.(speakerIdx := t.speakerIdx, speakerStartedAt := t.speakerStartedAt)
    requires !s.phase.End? && Follows(t, u)
    ensures Follows(s, u)
  {
    hide SamePeople, AtMostOneDeath;
  }

  /** Events that only announce night steps. */
  ghost predicate OnlySteps(es: seq<Envelope>) {
    forall i :: 0 <= i < |es| ==> es[i].event.NightStepChanged?
  }

  /** A night that has not begun its resolution. */
  predicate InStep(s: State) { s.phase.Night? && StepsLeft(s.nightStep) > 0 && ZERO_TIME < s.stepDeadline }

  /**
   A night tick either stays in the night, changing only the step and its deadline, or
   resolves the night from the state it started in with the step cleared.
   */
  lemma {:induction false} NightTickForm(s: State, now: Time, env: Env)
    returns (pre: seq<Envelope>, step: NightStep, deadline: Time)
    requires InStep(s)
    ensures OnlySteps(pre) && StepsLeft(step) > 0 && ZERO_TIME < deadline
    ensures
      var r := ResolveNight(s.(nightStep := NoStep, stepDeadline := ZERO_TIME), env);
      || TickNight(s, now, env) == Done(s.(nightStep := step, stepDeadline := deadline), pre)
      || TickNight(s, now, env) == (if r.error.Some? then r else r.(events := pre + r.events))
    decreases StepsLeft(s.nightStep)
  {
    hide ResolveNight;
    if now < s.stepDeadline {
      pre, step, deadline := [], s.nightStep, s.stepDeadline;
    } else if NextStep(s.nightStep).StepResolved? {
      pre, step, deadline := [], s.nightStep, s.stepDeadline;
      var r := ResolveNight(s.(nightStep := NoStep, stepDeadline := ZERO_TIME), env);
      assert [] + r.events == r.events;
    } else {
      var c := BeginStep(s, NextStep(s.nightStep), s.stepDeadline);
      var tail;
      tail, step, deadline := NightTickForm(c.state, now, env);
      pre := c.events + tail;
      assert c.state.(nightStep := NoStep, stepDeadline := ZERO_TIME)
        == s.(nightStep := NoStep, stepDeadline := ZERO_TIME);
      var r := ResolveNight(s.(nightStep := NoStep, stepDeadline := ZERO_TIME), env);
      assert c.events + (tail + r.events) == pre + r.events;
    }
  }

  lemma OtherStepKeeps(s: State, step: NightStep, deadline: Time)
    requires Inv(s) && s.phase.Night? && StepsLeft(step) > 0 && ZERO_TIME < deadline
    ensures Inv(s.(nightStep := step, stepDeadline := deadline))
    ensures Follows(s, s.(nightStep := step, stepDeadline := deadline))
  {
    Still(s, s.(nightStep := step, stepDeadline := deadline));
  }

  lemma FollowsThrough(s: State, t: State, u: State)
    requires t == s.(nightStep := t.nightStep, stepDeadline := t.stepDeadline, lastTickAt := t.lastTickAt)
    requires !s.phase.End? && Follows(t, u)
    ensures Follows(s, u)
  {
    hide SamePeople, AtMostOneDeath;
  }

  lemma TickNightKeeps(s: State, now: Time, env: Env)
    requires Inv(s) && s.phase.Night? && SaneEnv(env)
    ensures Keeps(s, TickNight(s, now, env)) && TickNight(s, now, env).error.None?
  {
    var pre, step, deadline := NightTickForm(s, now, env);
    OtherStepKeeps(s, step, deadline);
    ResolveNightKeeps(s, s.(nightStep := NoStep, stepDeadline := ZERO_TIME), env);
  }

  lemma FiringKeeps(s: State, now: Time)
    requires Inv(s) && s.pendingEnd.Some? && ZERO_TIME < now
    ensures Keeps(s, FirePendingEnd(s, now)) && FirePendingEnd(s, now).error.None?
  {
    EndKeeps(s, s.pendingEnd.value.reason, s.pendingEnd.value.winner, now);
  }

  lemma TickDayKeeps(s: State, now: Time, prev: Time)
    requires Inv(s) && s.phase.Day? && ZERO_TIME < now
    ensures Keeps(s, TickDay(s, now, prev)) && TickDay(s, now, prev).error.None?
  {
    DayToVoteKeeps(s, now);
    Still(s, s);
  }

  lemma ProcessedTickKeeps(s: State, now: Time, env: Env)
    requires Inv(s) && SaneEnv(env) && !s.paused && s.lastTickAt < now
    requires s.pendingEnd.None? || now < s.pendingEnd.value.deadline
    ensures Inv(Tick(s, now, env).next) && Tick(s, now, env).error.None?
    ensures Follows(s, Tick(s, now, env).next)
  {
    var s1 := s.(lastTickAt := now);
    ActiveTick(s, now);
    match s.phase {
      case Intro =>
        TickIntroKeeps(s1, now);
        FollowsThrough(s, s1, TickIntro(s1, now).next);
      case Day =>
        TickDayKeeps(s1, now, s.lastTickAt);
        FollowsThrough(s, s1, TickDay(s1, now, s.lastTickAt).next);
      case Night =>
        TickNightKeeps(s1, now, env);
        FollowsThrough(s, s1, TickNight(s1, now, env).next);
      case _ =>
    }
  }

  /** Every tick keeps the invariant and never fails: the internal errors are unreachable. */
  lemma TickKeeps(s: State, now: Time, env: Env)
    requires Inv(s) && SaneEnv(env)
    ensures Keeps(s, Tick(s, now, env)) && Tick(s, now, env).error.None?
  {
    if s.paused || now <= s.lastTickAt {
      Still(s, s);
    } else if s.pendingEnd.Some? && now >= s.pendingEnd.value.deadline {
      FiringKeeps(s, now);
    } else {
      ProcessedTickKeeps(s, now, env);
    }
  }

  /** A successful start over distinct, non-empty IDs establishes the invariant. */
  lemma StartEstablishes(s: State, gameId: string, host: PlayerId, roster: seq<Player>, o: Options, env: Env)
    requires ProperIds(roster) && SaneEnv(env)
    requires Start(s, gameId, host, roster, o, env).error.None?
    ensures
      var t := Start(s, gameId, host, roster, o, env).next;
      Inv(t) && t.phase.Intro? && t.day == 1 && LiveMafia(t.players) == o.mafiaCount && Live(t.players) == |roster|
  {
    DealIsBalanced(roster, o, env.deal);
    var a := Assign(Ids(roster), o, env.deal).value;
    SeatedMafia(roster, a);
    var ps := Seat(roster, a);
    forall i, j | 0 <= i < j < |ps| ensures ps[i].id != ps[j].id {
      assert roster[i].id != roster[j].id;
    }
  }
}
