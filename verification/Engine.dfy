/**
 The engine object: one mutable state, changed field by field by the entry points
 `Start`, `Apply` and `Tick` and by the routines they share. Every method is proved
 to leave the state, the reply and the events that the transition rules prescribe, and
 the entry points to keep the invariant of reachable states.
 */
module EngineImpl {
  import opened GameTypes
  import opened Roster
  import opened Ballots
  import opened Dealing
  import R = Rules
  import I = Invariants
  import Runs

  class Engine {
    var state: State

    constructor ()
      ensures state == ZERO_STATE
    {
      state := ZERO_STATE;
    }

    /** Replaces the state by a stored one; only a state without a phase is refused. */
    method Restore(s: State) returns (error: Option<ErrorCode>)
      modifies this
      ensures error.Some? <==> s.phase.NoPhase?
      ensures state == if error.Some? then old(state) else s
    {
      if s.phase.NoPhase? {
        return Some(Validation);
      }
      state := s;
      return None;
    }

    // -------------------------------------------------------------- scans of the player list

    method FindPlayer(id: PlayerId) returns (i: nat)
      ensures i == Index(state.players, id)
    {
      i := 0;
      while i < |state.players|
        invariant i <= |state.players|
        invariant forall j :: 0 <= j < i ==> state.players[j].id != id
      {
        if state.players[i].id == id {
          assert Index(state.players, id) >= i;
          return;
        }
        i := i + 1;
      }
    }

    method LiveCount() returns (n: nat)
      ensures n == Live(state.players)
    {
      n := 0;
      for i := 0 to |state.players|
        invariant n == Live(state.players[..i])
      {
        assert state.players[..i + 1][..i] == state.players[..i];
        if state.players[i].alive {
          n := n + 1;
        }
      }
      assert state.players[..|state.players|] == state.players;
    }

    method LiveMafiaCount() returns (n: nat)
      ensures n == LiveMafia(state.players)
    {
      n := 0;
      for i := 0 to |state.players|
        invariant n == LiveMafia(state.players[..i])
      {
        assert state.players[..i + 1][..i] == state.players[..i];
        if state.players[i].alive && state.players[i].role.Mafia? {
          n := n + 1;
        }
      }
      assert state.players[..|state.players|] == state.players;
    }

    method LiveCitizenSideCount() returns (n: nat)
      ensures n == LiveCitizens(state.players)
    {
      n := 0;
      for i := 0 to |state.players|
        invariant n == LiveCitizens(state.players[..i])
      {
        assert state.players[..i + 1][..i] == state.players[..i];
        if state.players[i].alive && !state.players[i].role.Mafia? {
          n := n + 1;
        }
      }
      assert state.players[..|state.players|] == state.players;
    }

    method LivingMafiaIds() returns (ids: seq<PlayerId>)
      ensures ids == MafiaIds(state.players)
    {
      ids := [];
      for i := 0 to |state.players|
        invariant ids == MafiaIds(state.players[..i])
      {
        assert state.players[..i + 1][..i] == state.players[..i];
        if state.players[i].alive && state.players[i].role.Mafia? {
          ids := ids + [state.players[i].id];
        }
      }
      assert state.players[..|state.players|] == state.players;
    }

    // -------------------------------------------------------------- guards

    method EnsureRole(sender: PlayerId, role: Role) returns (error: Option<ErrorCode>)
      ensures error == R.RoleError(state.players, sender, role)
    {
      var i := FindPlayer(sender);
      if i == |state.players| {
        return Some(UnknownPlayer);
      }
      if state.players[i].role != role {
        return Some(RoleMismatch);
      }
      return None;
    }

    method EnsureAlive(id: PlayerId) returns (error: Option<ErrorCode>)
      ensures error == R.LifeError(state.players, id)
    {
      var i := FindPlayer(id);
      if i == |state.players| {
        return Some(UnknownPlayer);
      }
      if !state.players[i].alive {
        return Some(DeadPlayer);
      }
      return None;
    }

    method EnsureBothAlive(a: PlayerId, b: PlayerId) returns (error: Option<ErrorCode>)
      ensures error == R.LifeErrors(state.players, a, b)
    {
      error := EnsureAlive(a);
      if error.None? {
        error := EnsureAlive(b);
      }
    }

    // -------------------------------------------------------------- game end

    method EvaluateEnd() returns (v: Option<Verdict>)
      ensures v == R.EvaluateEnd(state)
    {
      if state.phase.End? {
        return None;
      }
      var mafia := LiveMafiaCount();
      var citizens := LiveCitizenSideCount();
      if mafia == 0 {
        return Some(Verdict(CitizenWin, CitizenTeam));
      }
      if mafia >= citizens {
        return Some(Verdict(MafiaWin, MafiaTeam));
      }
      return None;
    }

    /** Defers an end by the result buffer; one already pending stands. */
    method ScheduleGameEnd(v: Verdict, now: Time)
      modifies this
      ensures state == old(state).(pendingEnd := state.pendingEnd)
      ensures state.pendingEnd == if old(state).pendingEnd.Some? then old(state).pendingEnd
                                  else Some(PendingEnd(v.reason, Some(v.winner), now + Seconds(RESULT_BUFFER_SECONDS)))
    {
      if state.pendingEnd.Some? {
        return;
      }
      state := state.(pendingEnd := Some(PendingEnd(v.reason, Some(v.winner), now + Seconds(RESULT_BUFFER_SECONDS))));
    }

    method EndGame(reason: EndReason, winner: Option<Team>) returns (events: seq<Envelope>)
      modifies this
      ensures Change(state, events) == R.EndGame(old(state), reason, winner)
    {
      state := state.(phase := End);
      state := state.(endReason := Some(reason));
      state := state.(winner := winner);
      events := [Pub(GameEnded(winner, reason, state.players))];
    }

    method FirePendingEnd(now: Time) returns (reply: State, events: seq<Envelope>, error: Option<ErrorCode>)
      requires state.pendingEnd.Some?
      modifies this
      ensures Outcome(state, reply, events, error) == R.FirePendingEnd(old(state), now)
    {
      var pending := state.pendingEnd.value;
      state := state.(pendingEnd := None);
      state := state.(lastTickAt := now);
      reply := state;
      if pending.winner.None? {
        return reply, [], Some(Validation);
      }
      events := EndGame(pending.reason, pending.winner);
      error := None;
    }

    // -------------------------------------------------------------- night

    method NightStepSeconds(step: NightStep) returns (n: int)
      ensures n == R.StepSeconds(state.settings, step)
    {
      var default := 0;
      match step {
        case StepIntro => return NIGHT_INTRO_SECONDS;
        case StepMafia => n, default := state.settings.mafiaSeconds, 30;
        case StepPolice => n, default := state.settings.policeSeconds, 10;
        case StepDoctor => n, default := state.settings.doctorSeconds, 10;
        case _ => return 0;
      }
      if n <= 0 {
        n := default;
      }
    }

    method BeginNightStep(step: NightStep, at: Time) returns (events: seq<Envelope>)
      modifies this
      ensures Change(state, events) == R.BeginStep(old(state), step, at)
    {
      state := state.(nightStep := step);
      var secs := NightStepSeconds(step);
      var deadline := at + Seconds(secs);
      state := state.(stepDeadline := deadline);
      events := [Pub(NightStepChanged(step, state.day, deadline))];
    }

    method ResetNight()
      modifies this
      ensures state == R.ClearNight(old(state))
    {
      state := state.(killTarget := None);
      state := state.(healTarget := None);
      state := state.(checkTarget := None);
      state := state.(policeChecked := false);
      state := state.(nightStep := NoStep);
      state := state.(stepDeadline := ZERO_TIME);
    }

    method EnterNight(now: Time) returns (events: seq<Envelope>)
      modifies this
      ensures Change(state, events) == R.EnterNight(old(state), now)
    {
      state := state.(phase := Night);
      state := state.(deadline := ZERO_TIME);
      state := state.(votes := map[]);
      state := state.(voteRound := 0);
      state := state.(candidates := []);
      ResetNight();
      state := state.(lastTickAt := now);
      events := [Pub(PhaseChanged(Night, state.day, ZERO_TIME))];
      var more := BeginNightStep(StepIntro, now);
      events := events + more;
    }

    method ReassignRepresentative(oldId: PlayerId, pick: Option<nat>) returns (events: seq<Envelope>)
      modifies this
      ensures Change(state, events) == R.Reassign(old(state), oldId, pick)
    {
      var living := LivingMafiaIds();
      if |living| == 0 {
        state := state.(representative := NOBODY);
        return [];
      }
      if pick.None? {
        state := state.(representative := living[0]);
      } else {
        state := state.(representative := living[pick.value % |living|]);
      }
      events := [Envelope(RepresentativeReassigned(oldId, state.representative), LivingMafia)];
    }

    /** Clears the alive flag at a found position and replaces a dead representative. */
    method MarkDead(i: nat, id: PlayerId, pick: Option<nat>) returns (events: seq<Envelope>)
      requires i == Index(state.players, id) < |state.players|
      modifies this
      ensures Change(state, events) == R.Bury(old(state), id, pick)
    {
      state := state.(players := state.players[i := state.players[i].(alive := false)]);
      events := [];
      if id == state.representative {
        events := ReassignRepresentative(id, pick);
      }
    }

    method ChooseVictim() returns (victim: Option<PlayerId>)
      ensures victim == R.Victim(state)
    {
      victim := None;
      if state.killTarget.Some? {
        var protected := state.healTarget.Some? && state.healTarget.value == state.killTarget.value;
        if !protected {
          victim := state.killTarget;
        }
      }
    }

    method OpenNextDay(now: Time) returns (first: Envelope)
      modifies this
      ensures
        var deadline := now + Seconds(DAY_INTRO_SECONDS + old(state).settings.discussionSeconds);
        && first == Pub(PhaseChanged(Day, old(state).day + 1, deadline))
        && state == R.ClearNight(old(state)).(day := old(state).day + 1, phase := Day, deadline := deadline,
                                              lastTickAt := now)
    {
      ResetNight();
      state := state.(day := state.day + 1);
      state := state.(phase := Day);
      state := state.(deadline := now + Seconds(DAY_INTRO_SECONDS + state.settings.discussionSeconds));
      state := state.(lastTickAt := now);
      first := Pub(PhaseChanged(Day, state.day, state.deadline));
    }

    /** Schedules the end of a game that the count of the living decides. */
    method ScheduleDecidedEnd(now: Time)
      modifies this
      ensures state == R.ScheduleEnd(old(state), now)
    {
      var v := EvaluateEnd();
      if v.Some? {
        ScheduleGameEnd(v.value, now);
      }
    }

    method ResolveNight(env: Env) returns (events: seq<Envelope>, error: Option<ErrorCode>)
      modifies this
      ensures Outcome(state, state, events, error) == R.ResolveNight(old(state), env)
    {
      hide R.Bury, R.ScheduleEnd, R.EvaluateEnd, Index;
      var victim := ChooseVictim();
      var followUp: seq<Envelope> := [Pub(PeacefulNight)];
      if victim.Some? {
        var i := FindPlayer(victim.value);
        if i == |state.players| {
          return [], Some(UnknownPlayer);
        }
        R.BuryKeepsDay(state, victim.value, env.pick);
        var more := MarkDead(i, victim.value, env.pick);
        followUp := [Pub(DeathAnnounced(victim.value))] + more;
      }
      var first := OpenNextDay(env.now);
      ScheduleDecidedEnd(env.later);
      return [first] + followUp, None;
    }

    // -------------------------------------------------------------- intro, day, vote

    method TransitionIntroToDay(now: Time) returns (events: seq<Envelope>)
      modifies this
      ensures Change(state, events) == R.IntroToDay(old(state), now)
    {
      state := state.(phase := Day);
      state := state.(deadline := now + Seconds(state.settings.discussionSeconds));
      state := state.(killTarget := None);
      state := state.(healTarget := None);
      state := state.(checkTarget := None);
      state := state.(policeChecked := false);
      state := state.(nightStep := NoStep);
      state := state.(lastTickAt := now);
      events := [Pub(PhaseChanged(Day, state.day, state.deadline))];
    }

    method TransitionDayToVote(now: Time) returns (events: seq<Envelope>)
      modifies this
      ensures Change(state, events) == R.DayToVote(old(state), now)
    {
      state := state.(phase := Vote);
      state := state.(deadline := ZERO_TIME);
      state := state.(votes := map[]);
      state := state.(voteRound := 1);
      state := state.(candidates := []);
      state := state.(lastTickAt := now);
      events := [Pub(PhaseChanged(Vote, state.day, ZERO_TIME))];
    }

    /** Gives the floor to the next player, from this instant on. */
    method AdvanceSpeaker(at: Time) returns (e: Envelope)
      requires -1 <= state.speakerIdx < |state.players| - 1
      modifies this
      ensures state == old(state).(speakerIdx := old(state).speakerIdx + 1, speakerStartedAt := at)
      ensures e == Pub(SpeakerChanged(state.players[state.speakerIdx].id, state.settings.introSeconds))
    {
      state := state.(speakerIdx := state.speakerIdx + 1);
      state := state.(speakerStartedAt := at);
      e := Pub(SpeakerChanged(state.players[state.speakerIdx].id, state.settings.introSeconds));
    }

    method MoveToNextSpeaker(now: Time) returns (events: seq<Envelope>)
      requires -1 <= state.speakerIdx
      modifies this
      ensures Done(state, events) == R.NextSpeaker(old(state), now)
    {
      if state.speakerIdx < |state.players| - 1 {
        var e := AdvanceSpeaker(now);
        return [e];
      }
      events := TransitionIntroToDay(now);
    }

    /** Counts the ballots one by one, in whatever order the map yields them. */
    method CountVotes() returns (counts: map<PlayerId, nat>)
      ensures counts == Counts(state.votes)
    {
      counts := map[];
      var left := state.votes.Keys;
      ghost var seen: map<PlayerId, PlayerId> := map[];
      assert Counts(seen) == map[];
      while left != {}
        invariant left <= state.votes.Keys
        invariant seen == map v | v in state.votes && v !in left :: state.votes[v]
        invariant counts == Counts(seen)
        decreases left
      {
        var v :| v in left;
        left := left - {v};
        var t := state.votes[v];
        CountsWithOneMore(seen, v, t);
        if t != NOBODY {
          counts := counts[t := (if t in counts then counts[t] else 0) + 1];
        }
        seen := seen[v := t];
      }
      assert seen == state.votes;
    }

    /** Keeps a running maximum and the players that reach it. */
    method FindTop(counts: map<PlayerId, nat>) returns (top: seq<PlayerId>, best: nat)
      ensures top == Top(state.players, counts) && best == Best(state.players, counts)
    {
      top, best := [], 0;
      for i := 0 to |state.players|
        invariant best == Best(state.players[..i], counts)
        invariant top == Top(state.players[..i], counts)
      {
        ghost var front := state.players[..i];
        assert state.players[..i + 1][..i] == front;
        var id := state.players[i].id;
        var c := if id in counts then counts[id] else 0;
        if c > best {
          NoneScoreAbove(front, counts, c);
          best := c;
          top := [id];
        } else if c != 0 && c == best {
          top := top + [id];
        }
      }
      assert state.players[..|state.players|] == state.players;
    }

    method ApplyElimination(id: PlayerId, env: Env) returns (events: seq<Envelope>)
      modifies this
      ensures Change(state, events) == R.Eliminate(old(state), id, env)
    {
      var i := FindPlayer(id);
      if i == |state.players| {
        return [];
      }
      events := [Pub(Eliminated(id, state.players[i].role))];
      var more := MarkDead(i, id, env.pick);
      events := events + more;
      var v := EvaluateEnd();
      if v.Some? {
        ScheduleGameEnd(v.value, env.now);
        return;
      }
      more := EnterNight(env.now);
      events := events + more;
    }

    method RunTally(env: Env) returns (events: seq<Envelope>)
      modifies this
      ensures Change(state, events) == R.Tally(old(state), env)
    {
      var counts := CountVotes();
      var top, best := FindTop(counts);
      TopLength(state.players, counts);
      if best == 0 {
        events := EnterNight(env.now);
        return [Pub(VoteTallied(counts, None, false))] + events;
      }
      if |top| == 1 {
        events := ApplyElimination(top[0], env);
        return [Pub(VoteTallied(counts, Some(top[0]), false))] + events;
      }
      if state.voteRound == 1 {
        state := state.(phase := Recount);
        state := state.(voteRound := 2);
        state := state.(candidates := top);
        state := state.(votes := map[]);
        return [Pub(VoteTallied(counts, None, true)), Pub(PhaseChanged(Recount, state.day, ZERO_TIME))];
      }
      events := EnterNight(env.now);
      return [Pub(VoteTallied(counts, None, false))] + events;
    }

    // -------------------------------------------------------------- role dealing

    method SwapIds(ids: seq<PlayerId>, pair: (nat, nat)) returns (swapped: seq<PlayerId>)
      ensures swapped == Swap(ids, pair)
    {
      var (i, j) := pair;
      swapped := ids;
      if i < |ids| && j < |ids| {
        swapped := ids[i := ids[j]][j := ids[i]];
      }
    }

    /** Copies the IDs and performs the swaps in order. */
    method ShuffleIds(ids: seq<PlayerId>, swaps: seq<(nat, nat)>) returns (shuffled: seq<PlayerId>)
      ensures shuffled == Shuffle(ids, swaps)
    {
      hide Swap;
      shuffled := ids;
      for k := 0 to |swaps|
        invariant shuffled == Shuffle(ids, swaps[..k])
      {
        assert swaps[..k + 1][..k] == swaps[..k];
        shuffled := SwapIds(shuffled, swaps[k]);
      }
      assert swaps[..|swaps|] == swaps;
    }

    /** Hands out roles by index: mafia first, then doctor, police and citizens. */
    method DealByIndex(shuffled: seq<PlayerId>, k: nat) returns (roles: map<PlayerId, Role>)
      requires k + 2 <= |shuffled|
      ensures roles == Roles(shuffled, k, |shuffled|)
    {
      roles := map[];
      var idx := 0;
      while idx < k
        invariant 0 <= idx <= k
        invariant roles == Roles(shuffled, k, idx)
      {
        roles := roles[shuffled[idx] := Mafia];
        idx := idx + 1;
      }
      roles := roles[shuffled[idx] := Doctor];
      idx := idx + 1;
      assert roles == Roles(shuffled, k, idx);
      roles := roles[shuffled[idx] := Police];
      idx := idx + 1;
      while idx < |shuffled|
        invariant k + 2 <= idx <= |shuffled|
        invariant roles == Roles(shuffled, k, idx)
      {
        roles := roles[shuffled[idx] := Citizen];
        idx := idx + 1;
      }
    }

    method AssignRoles(ids: seq<PlayerId>, o: Options, deal: Deal) returns (r: Option<Assignment>)
      ensures r == Assign(ids, o, deal)
    {
      var errs := ValidateOptions(o, |ids|);
      if errs != [] {
        return None;
      }
      var shuffled := ShuffleIds(ids, deal.swaps);
      var roles := DealByIndex(shuffled, o.mafiaCount);
      var mafiaIds := shuffled[..o.mafiaCount];
      if deal.keywords.None? {
        return None;
      }
      var rep := mafiaIds[0];
      if |mafiaIds| > 1 {
        rep := mafiaIds[deal.rep % |mafiaIds|];
      }
      return Some(Assignment(roles, deal.keywords.value, mafiaIds, rep));
    }

    /** Hands every listed player life, a role and the role's keyword. */
    method SeatPlayers(roster: seq<Player>, a: Assignment) returns (seated: seq<Player>)
      ensures seated == Seat(roster, a)
    {
      seated := [];
      for i := 0 to |roster|
        invariant |seated| == i
        invariant forall j :: 0 <= j < i ==> seated[j] == Seat(roster, a)[j]
      {
        var p := roster[i].(alive := true);
        if p.id in a.roles {
          p := p.(role := a.roles[p.id], keyword := KeywordFor(a.keywords, a.roles[p.id]));
        } else {
          p := p.(role := NoRole, keyword := "");
        }
        seated := seated + [p];
      }
    }

    /** The opening announcements: the start, each role to its holder, the cohort, the first speaker. */
    method AnnounceStart(a: Assignment) returns (events: seq<Envelope>)
      requires state.players != []
      ensures events == R.Opening(state, a)
    {
      var ps := state.players;
      events := [Pub(GameStarted(state))];
      for i := 0 to |ps|
        invariant |events| == i + 1 && events[0] == Pub(GameStarted(state))
        invariant forall j :: 0 <= j < i ==> events[j + 1] == R.Revelation(ps[j])
      {
        events := events + [Envelope(RoleRevealed(ps[i].id, ps[i].role, ps[i].keyword), Only(ps[i].id))];
      }
      assert events == [Pub(GameStarted(state))] + seq(|ps|, i requires 0 <= i < |ps| => R.Revelation(ps[i]));
      if |a.mafiaIds| > 0 {
        events := events + [Envelope(CohortRevealed(a.mafiaIds, a.rep), LivingMafia)];
      }
      events := events + [Pub(PhaseChanged(Intro, 1, ZERO_TIME))];
      events := events + [Pub(SpeakerChanged(state.players[0].id, state.settings.introSeconds))];
    }

    // -------------------------------------------------------------- entry point: start

    method Start(gameId: string, host: PlayerId, roster: seq<Player>, o: Options, env: Env)
      returns (reply: State, events: seq<Envelope>, error: Option<ErrorCode>)
      modifies this
      ensures Outcome(state, reply, events, error) == R.Start(old(state), gameId, host, roster, o, env)
      ensures error.None? && ProperIds(roster) && I.SaneEnv(env) ==> I.Inv(state)
    {
      hide I.Inv;
      if R.Start(state, gameId, host, roster, o, env).error.None? && ProperIds(roster) && I.SaneEnv(env) {
        I.StartEstablishes(state, gameId, host, roster, o, env);
      }
      if !state.phase.NoPhase? && !state.phase.Lobby? {
        return state, [], Some(WrongPhase);
      }
      if |roster| < 6 || |roster| > 12 {
        return state, [], Some(Validation);
      }
      if host != NOBODY {
        var found := false;
        for i := 0 to |roster|
          invariant found <==> exists j :: 0 <= j < i && roster[j].id == host
        {
          if roster[i].id == host {
            found := true;
          }
        }
        if !found {
          return state, [], Some(PermissionDenied);
        }
        assert Has(roster, host);
      }
      if !env.deal.seeded {
        return state, [], Some(Validation);
      }
      var a := AssignRoles(Ids(roster), o, env.deal);
      if a.None? {
        return state, [], Some(Validation);
      }
      var seated := SeatPlayers(roster, a.value);
      state := ZERO_STATE.(gameId := gameId, phase := Intro, day := 1, players := seated, hostId := host,
                           settings := o, startedAt := env.now, speakerIdx := 0, speakerStartedAt := env.now,
                           representative := a.value.rep, lastTickAt := env.now);
      events := AnnounceStart(a.value);
      return state, events, None;
    }

    // -------------------------------------------------------------- entry point: actions

    method HandleStartGame(host: PlayerId, o: Options, env: Env)
      returns (events: seq<Envelope>, error: Option<ErrorCode>)
      modifies this
      ensures Outcome(state, state, events, error) == R.StartFromLobby(old(state), host, o, env)
    {
      if !state.phase.Lobby? {
        return [], Some(WrongPhase);
      }
      if host != state.hostId {
        return [], Some(PermissionDenied);
      }
      if !env.deal.seeded {
        return [], Some(Validation);
      }
      var a := AssignRoles(Ids(state.players), o, env.deal);
      if a.None? {
        return [], Some(Validation);
      }
      var seated := SeatPlayers(state.players, a.value);
      state := state.(players := seated);
      state := state.(settings := o);
      state := state.(phase := Intro);
      state := state.(day := 1);
      state := state.(speakerIdx := 0);
      state := state.(speakerStartedAt := env.now);
      state := state.(startedAt := env.now);
      state := state.(representative := a.value.rep);
      state := state.(lastTickAt := env.now);
      events := AnnounceStart(a.value);
      error := None;
    }

    method HandleIntro(a: Action, env: Env) returns (events: seq<Envelope>, error: Option<ErrorCode>)
      requires R.Acceptable(state, a) && (a.AdvanceIntro? || a.EndSelfIntro?)
      modifies this
      ensures Outcome(state, state, events, error)
           == if a.AdvanceIntro? then R.Advance(old(state), a.host, env) else R.FinishSelf(old(state), a.sender, env)
    {
      if !state.phase.Intro? {
        return [], Some(WrongPhase);
      }
      if a.AdvanceIntro? {
        if a.host != state.hostId {
          return [], Some(PermissionDenied);
        }
      } else {
        if state.speakerIdx < 0 || state.speakerIdx >= |state.players| {
          return [], Some(Validation);
        }
        if a.sender != state.players[state.speakerIdx].id {
          return [], Some(PermissionDenied);
        }
      }
      events := MoveToNextSpeaker(env.now);
      error := None;
    }

    method HandleKill(sender: PlayerId, target: PlayerId) returns (events: seq<Envelope>, error: Option<ErrorCode>)
      modifies this
      ensures Outcome(state, state, events, error) == R.SubmitKillRule(old(state), sender, target)
    {
      events := [];
      if !state.phase.Night? || !state.nightStep.StepMafia? {
        return [], Some(WrongPhase);
      }
      error := EnsureRole(sender, Mafia);
      if error.Some? {
        return;
      }
      error := EnsureBothAlive(sender, target);
      if error.Some? {
        return;
      }
      if sender != state.representative {
        return [], Some(NotRepresentative);
      }
      if state.killTarget.Some? {
        return [], Some(AlreadyDone);
      }
      var i := FindPlayer(target);
      if state.players[i].role.Mafia? {
        return [], Some(InvalidTarget);
      }
      state := state.(killTarget := Some(target));
      events := [Envelope(TargetSelected(sender, target), LivingMafia)];
    }

    method HandleHeal(sender: PlayerId, target: PlayerId) returns (events: seq<Envelope>, error: Option<ErrorCode>)
      modifies this
      ensures Outcome(state, state, events, error) == R.SubmitHealRule(old(state), sender, target)
    {
      events := [];
      if !state.phase.Night? || !state.nightStep.StepDoctor? {
        return [], Some(WrongPhase);
      }
      error := EnsureRole(sender, Doctor);
      if error.Some? {
        return;
      }
      error := EnsureBothAlive(sender, target);
      if error.Some? {
        return;
      }
      if sender == target && !state.settings.selfHeal {
        return [], Some(InvalidTarget);
      }
      if state.healTarget.Some? {
        return [], Some(AlreadyDone);
      }
      state := state.(healTarget := Some(target));
    }

    method HandleCheck(sender: PlayerId, target: PlayerId) returns (events: seq<Envelope>, error: Option<ErrorCode>)
      modifies this
      ensures Outcome(state, state, events, error) == R.SubmitCheckRule(old(state), sender, target)
    {
      events := [];
      if !state.phase.Night? || !state.nightStep.StepPolice? {
        return [], Some(WrongPhase);
      }
      error := EnsureRole(sender, Police);
      if error.Some? {
        return;
      }
      error := EnsureBothAlive(sender, target);
      if error.Some? {
        return;
      }
      if sender == target {
        return [], Some(InvalidTarget);
      }
      if state.policeChecked {
        return [], Some(AlreadyDone);
      }
      state := state.(checkTarget := Some(target));
      state := state.(policeChecked := true);
      var i := FindPlayer(target);
      var team := TeamOf(state.players[i].role);
      state := state.(history := state.history + [PoliceRecord(state.day, target, team)]);
      events := [Envelope(PoliceResult(sender, target, team), Only(sender))];
    }

    method HandleEndNight(host: PlayerId, env: Env) returns (events: seq<Envelope>, error: Option<ErrorCode>)
      modifies this
      ensures Outcome(state, state, events, error) == R.EndNightRule(old(state), host, env)
    {
      if !state.phase.Night? {
        return [], Some(WrongPhase);
      }
      if host != state.hostId {
        return [], Some(PermissionDenied);
      }
      events, error := ResolveNight(env);
    }

    method HandleEndDiscussion(host: PlayerId, env: Env) returns (events: seq<Envelope>, error: Option<ErrorCode>)
      modifies this
      ensures Outcome(state, state, events, error) == R.EndDiscussionRule(old(state), host, env)
    {
      if !state.phase.Day? {
        return [], Some(WrongPhase);
      }
      if host != state.hostId {
        return [], Some(PermissionDenied);
      }
      events := TransitionDayToVote(env.now);
      error := None;
    }

    method IsCandidate(id: PlayerId) returns (valid: bool)
      ensures valid <==> id in state.candidates
    {
      valid := false;
      for i := 0 to |state.candidates|
        invariant valid <==> id in state.candidates[..i]
      {
        if state.candidates[i] == id {
          valid := true;
        }
      }
      assert state.candidates[..|state.candidates|] == state.candidates;
    }

    method HandleVote(sender: PlayerId, target: PlayerId, env: Env)
      returns (events: seq<Envelope>, error: Option<ErrorCode>)
      modifies this
      ensures Outcome(state, state, events, error) == R.CastVote(old(state), sender, target, env)
    {
      hide R.Tally, R.LifeError, R.LifeErrors, Live;
      events := [];
      if !state.phase.Vote? && !state.phase.Recount? {
        return [], Some(WrongPhase);
      }
      if target == NOBODY {
        error := EnsureAlive(sender);
        if error.Some? {
          return;
        }
      } else {
        error := EnsureBothAlive(sender, target);
        if error.Some? {
          return;
        }
        if state.phase.Recount? {
          var valid := IsCandidate(target);
          if !valid {
            return [], Some(InvalidTarget);
          }
        }
      }
      state := state.(votes := state.votes[sender := target]);
      var live := LiveCount();
      if |state.votes| >= live {
        events := RunTally(env);
      }
    }

    method HandleVoice(host: PlayerId, on: bool) returns (events: seq<Envelope>, error: Option<ErrorCode>)
      modifies this
      ensures Outcome(state, state, events, error) == R.Voice(old(state), host, on)
    {
      if host != state.hostId {
        return [], Some(PermissionDenied);
      }
      state := state.(settings := state.settings.(voiceOn := on));
      return [Pub(VoiceToggled(on))], None;
    }

    method HandleForceEnd(host: PlayerId) returns (events: seq<Envelope>, error: Option<ErrorCode>)
      modifies this
      ensures Outcome(state, state, events, error) == R.ForceEnd(old(state), host)
    {
      if host != state.hostId {
        return [], Some(PermissionDenied);
      }
      if state.phase.End? {
        return [], Some(WrongPhase);
      }
      state := state.(pendingEnd := None);
      events := EndGame(HostForceEnd, None);
      error := None;
    }

    method HandlePause(host: PlayerId, env: Env) returns (events: seq<Envelope>, error: Option<ErrorCode>)
      modifies this
      ensures Outcome(state, state, events, error) == R.Pause(old(state), host, env)
    {
      if host != state.hostId {
        return [], Some(PermissionDenied);
      }
      if state.pendingEnd.None? {
        if !state.phase.Intro? && !state.phase.Day? && !state.phase.Night? {
          return [], Some(WrongPhase);
        }
        if state.phase.Night? && state.nightStep.StepIntro? {
          return [], Some(WrongPhase);
        }
      }
      if state.paused {
        return [], None;
      }
      state := state.(paused := true);
      state := state.(pausedAt := env.now);
      return [Pub(GamePaused(state.phase))], None;
    }

    /** Moves the timer of the current phase and a pending end forward. */
    method ShiftTimers(shift: nat)
      modifies this
      ensures state == old(state).(
        speakerStartedAt := old(state).speakerStartedAt + (if old(state).phase.Intro? then shift else 0),
        deadline := if old(state).phase.Day? then R.MovedBy(old(state).deadline, shift) else old(state).deadline,
        stepDeadline := if old(state).phase.Night?
                        then R.MovedBy(old(state).stepDeadline, shift) else old(state).stepDeadline,
        pendingEnd := if old(state).pendingEnd.Some?
                      then Some(old(state).pendingEnd.value.(deadline := old(state).pendingEnd.value.deadline + shift))
                      else None)
    {
      match state.phase {
        case Intro =>
          state := state.(speakerStartedAt := state.speakerStartedAt + shift);
        case Day =>
          if state.deadline != ZERO_TIME {
            state := state.(deadline := state.deadline + shift);
          }
        case Night =>
          if state.stepDeadline != ZERO_TIME {
            state := state.(stepDeadline := state.stepDeadline + shift);
          }
        case _ =>
      }
      if state.pendingEnd.Some? {
        var pe := state.pendingEnd.value;
        state := state.(pendingEnd := Some(pe.(deadline := pe.deadline + shift)));
      }
    }

    method HandleResume(host: PlayerId, env: Env) returns (events: seq<Envelope>, error: Option<ErrorCode>)
      modifies this
      ensures Outcome(state, state, events, error) == R.Resume(old(state), host, env)
    {
      if host != state.hostId {
        return [], Some(PermissionDenied);
      }
      if !state.paused {
        return [], None;
      }
      var shift := env.now - state.pausedAt;
      if shift < 0 {
        shift := 0;
      }
      ShiftTimers(shift);
      state := state.(paused := false);
      state := state.(pausedAt := ZERO_TIME);
      state := state.(lastTickAt := env.now);
      var deadline := ZERO_TIME;
      match state.phase {
        case Day => deadline := state.deadline;
        case Night => deadline := state.stepDeadline;
        case _ =>
      }
      return [Pub(GameResumed(state.phase, deadline))], None;
    }

    method Dispatch(a: Action, env: Env) returns (events: seq<Envelope>, error: Option<ErrorCode>)
      requires R.Acceptable(state, a) && !state.phase.End?
      modifies this
      ensures Outcome(state, state, events, error) == R.Apply(old(state), a, env)
    {
      match a {
        case StartGame(host, o) => events, error := HandleStartGame(host, o, env);
        case AdvanceIntro(_) => events, error := HandleIntro(a, env);
        case EndSelfIntro(_) => events, error := HandleIntro(a, env);
        case SubmitKill(sender, target) => events, error := HandleKill(sender, target);
        case SubmitHeal(sender, target) => events, error := HandleHeal(sender, target);
        case SubmitCheck(sender, target) => events, error := HandleCheck(sender, target);
        case EndNightEarly(host) => events, error := HandleEndNight(host, env);
        case EndDiscussionEarly(host) => events, error := HandleEndDiscussion(host, env);
        case SubmitVote(sender, target) => events, error := HandleVote(sender, target, env);
        case ToggleVoice(host, on) => events, error := HandleVoice(host, on);
        case ForceEndGame(host) => events, error := HandleForceEnd(host);
        case PauseGame(host) => events, error := HandlePause(host, env);
        case ResumeGame(host) => events, error := HandleResume(host, env);
      }
    }

    /** One action. From a reachable state it leads to a reachable state, whatever its result. */
    method Apply(a: Action, env: Env) returns (reply: State, events: seq<Envelope>, error: Option<ErrorCode>)
      requires R.Acceptable(state, a)
      modifies this
      ensures Outcome(state, reply, events, error) == R.Apply(old(state), a, env)
      ensures old(I.Inv(state)) && I.SaneEnv(env) ==> I.Inv(state) && I.Follows(old(state), state)
    {
      hide I.Inv, I.Follows;
      if I.Inv(state) && I.SaneEnv(env) {
        Runs.StepKeeps(state, Runs.Submit(a, env));
      }
      if state.phase.End? {
        return state, [], Some(WrongPhase);
      }
      events, error := Dispatch(a, env);
      reply := state;
    }

    // -------------------------------------------------------------- entry point: ticks

    /** Rotates speakers while the current one's time is over and another one is left. */
    method RotateSpeakers(now: Time) returns (events: seq<Envelope>, ghost k: nat)
      requires -1 <= state.speakerIdx || now - state.speakerStartedAt < Seconds(state.settings.introSeconds)
      modifies this
      ensures
        var s := old(state);
        var per := Seconds(s.settings.introSeconds);
        && k == R.Turns(s.speakerIdx, s.speakerStartedAt, per, now, |s.players|)
        && (k == 0 || -1 <= s.speakerIdx < |s.players| - k)
        && state == s.(speakerIdx := s.speakerIdx + k, speakerStartedAt := s.speakerStartedAt + R.TurnsTime(k, per))
        && events == R.SpeakerEvents(s.players, s.speakerIdx, k, s.settings.introSeconds)
    {
      hide R.TurnsTime;
      var per := Seconds(state.settings.introSeconds);
      ghost var s := state;
      events, k := [], 0;
      R.OneMoreTurn(0, per);
      while state.speakerIdx < |state.players| - 1 && now - state.speakerStartedAt >= per
        invariant k == 0 || -1 <= s.speakerIdx < |s.players| - k
        invariant R.Turns(s.speakerIdx, s.speakerStartedAt, per, now, |s.players|)
               == k + R.Turns(state.speakerIdx, state.speakerStartedAt, per, now, |s.players|)
        invariant state == s.(speakerIdx := state.speakerIdx, speakerStartedAt := state.speakerStartedAt)
        invariant state.speakerIdx == s.speakerIdx + k
        invariant state.speakerStartedAt == s.speakerStartedAt + R.TurnsTime(k, per)
        invariant events == R.SpeakerEvents(s.players, s.speakerIdx, k, s.settings.introSeconds)
        decreases |state.players| - state.speakerIdx
      {
        R.OneMoreTurn(k, per);
        var e := AdvanceSpeaker(state.speakerStartedAt + per);
        events := events + [e];
        k := k + 1;
      }
    }

    method TickIntro(now: Time) returns (events: seq<Envelope>)
      requires -1 <= state.speakerIdx || now - state.speakerStartedAt < Seconds(state.settings.introSeconds)
      modifies this
      ensures Done(state, events) == R.TickIntro(old(state), now)
    {
      hide R.IntroToDay, R.TurnsTime, R.Turns, R.SpeakerEvents;
      ghost var k;
      events, k := RotateSpeakers(now);
      if state.speakerIdx >= |state.players| - 1 {
        if now - state.speakerStartedAt >= Seconds(state.settings.introSeconds) {
          var more := TransitionIntroToDay(now);
          events := events + more;
        }
      }
    }

    method TickDay(now: Time, prev: Time) returns (events: seq<Envelope>)
      modifies this
      ensures Done(state, events) == R.TickDay(old(state), now, prev)
    {
      events := [];
      var deadline := state.deadline;
      for i := 0 to |R.THRESHOLDS|
        invariant events == R.Crossed(R.THRESHOLDS[..i], deadline, prev, now)
        invariant state == old(state)
      {
        assert R.THRESHOLDS[..i + 1][..i] == R.THRESHOLDS[..i];
        var th := R.THRESHOLDS[i];
        var instant := deadline - Seconds(th);
        if now >= instant && prev < instant {
          events := events + [Pub(DiscussionTick(th))];
        }
      }
      assert R.THRESHOLDS[..|R.THRESHOLDS|] == R.THRESHOLDS;
      if now >= deadline {
        var more := TransitionDayToVote(now);
        events := events + more;
      }
    }

    /** Runs through every night step that has expired by `now`. */
    method TickNight(now: Time, env: Env) returns (events: seq<Envelope>, error: Option<ErrorCode>)
      modifies this
      ensures Outcome(state, state, events, error) == R.TickNight(old(state), now, env)
    {
      hide R.ResolveNight, R.BeginStep, R.Prefixed;
      events := [];
      R.PrefixedTwice([], [], R.TickNight(state, now, env));
      while true
        invariant R.TickNight(old(state), now, env) == R.Prefixed(events, R.TickNight(state, now, env))
        decreases R.StepsLeft(state.nightStep)
      {
        if state.nightStep.NoStep? || state.stepDeadline == ZERO_TIME || now < state.stepDeadline {
          R.PrefixedDone(events, state);
          return events, None;
        }
        var expired := state.stepDeadline;
        var next := R.NextStep(state.nightStep);
        if next.StepResolved? {
          state := state.(nightStep := NoStep);
          state := state.(stepDeadline := ZERO_TIME);
          R.PrefixedResolution(events, state, env);
          var more;
          more, error := ResolveNight(env);
          if error.Some? {
            return [], error;
          }
          return events + more, None;
        }
        R.PrefixedTwice(events, R.BeginStep(state, next, expired).events,
                        R.TickNight(R.BeginStep(state, next, expired).state, now, env));
        R.BeginAdvances(state, next, expired);
        var more := BeginNightStep(next, expired);
        events := events + more;
      }
    }

    /** One tick. From a reachable state it never fails and leads to a reachable state. */
    method Tick(now: Time, env: Env) returns (reply: State, events: seq<Envelope>, error: Option<ErrorCode>)
      requires R.Tickable(state, now)
      modifies this
      ensures Outcome(state, reply, events, error) == R.Tick(old(state), now, env)
      ensures old(I.Inv(state)) && I.SaneEnv(env) ==> I.Inv(state) && I.Follows(old(state), state) && error.None?
    {
      hide I.Inv, I.Follows;
      if I.Inv(state) && I.SaneEnv(env) {
        Runs.StepKeeps(state, Runs.Clock(now, env));
      }
      if state.paused {
        return state, [], None;
      }
      if now <= state.lastTickAt {
        return state, [], None;
      }
      if state.pendingEnd.Some? && now >= state.pendingEnd.value.deadline {
        reply, events, error := FirePendingEnd(now);
        return;
      }
      var prev := state.lastTickAt;
      state := state.(lastTickAt := now);
      events, error := [], None;
      match state.phase {
        case Intro => events := TickIntro(now);
        case Day => events := TickDay(now, prev);
        case Night => events, error := TickNight(now, env);
        case _ =>
      }
      reply := state;
    }
  }

  /** Somebody leads exactly when the best score is positive. */
  lemma TopLength(ps: seq<Player>, counts: map<PlayerId, nat>)
    ensures Best(ps, counts) > 0 <==> |Top(ps, counts)| > 0
  {
    BestIsMax(ps, counts);
    if Best(ps, counts) > 0 {
      var i :| 0 <= i < |ps| && Score(counts, ps[i].id) == Best(ps, counts);
      ScoringHas(ps, counts, Best(ps, counts), ps[i].id);
    }
  }
}
