/**
 What a ballot does: the vote is counted exactly when the voters are the living, and
 the count is a plurality vote with one recount.
 */
module Voting {
  import opened GameTypes
  import opened Roster
  import opened Ballots
  import opened Rules
  import opened Invariants

  /** `x` has more votes than anybody else at the table, and at least one. */
  ghost predicate SoleLeader(ps: seq<Player>, votes: map<PlayerId, PlayerId>, x: PlayerId) {
    Leads(ps, votes, x) && forall y :: Leads(ps, votes, y) ==> y == x
  }

  /** At least two players share the lead. */
  ghost predicate Tied(ps: seq<Player>, votes: map<PlayerId, PlayerId>) {
    exists x, y :: x != y && Leads(ps, votes, x) && Leads(ps, votes, y)
  }

  lemma ManyLeadersTie(ps: seq<Player>, votes: map<PlayerId, PlayerId>)
    requires ProperIds(ps)
    ensures Tied(ps, votes) <==> |Top(ps, Counts(votes))| > 1
  {
    var top := Top(ps, Counts(votes));
    if |top| > 1 {
      TopInSeatingOrder(ps, votes);
      TopIsArgmax(ps, votes, top[0]);
      TopIsArgmax(ps, votes, top[1]);
      assert top[0] != top[1];
    }
    if Tied(ps, votes) {
      var x, y :| x != y && Leads(ps, votes, x) && Leads(ps, votes, y);
      TopIsArgmax(ps, votes, x);
      TopIsArgmax(ps, votes, y);
    }
  }

  lemma OneLeaderIsSole(ps: seq<Player>, votes: map<PlayerId, PlayerId>)
    requires ProperIds(ps)
    ensures forall x :: SoleLeader(ps, votes, x) <==> Top(ps, Counts(votes)) == [x]
  {
    var top := Top(ps, Counts(votes));
    forall x ensures SoleLeader(ps, votes, x) <==> top == [x] {
      TopIsArgmax(ps, votes, x);
      if SoleLeader(ps, votes, x) {
        ManyLeadersTie(ps, votes);
        assert |top| == 1;
      }
      if top == [x] {
        forall y | Leads(ps, votes, y) ensures y == x {
          TopIsArgmax(ps, votes, y);
        }
      }
    }
  }

  /**
   What counting the ballots `votes` in state `s` must lead to: `t` and `es` are the
   state and the events afterwards. A vote that decides the game stays on the table.
   */
  ghost predicate Plurality(s: State, votes: map<PlayerId, PlayerId>, t: State, es: seq<Envelope>) {
    && es != [] && es[0].event.VoteTallied?
    && var e := es[0].event;
    && (forall id :: id != NOBODY ==> Score(e.counts, id) == CountFor(votes, id))
    && Total(e.counts) + CountFor(votes, NOBODY) == |votes|
    && (forall x :: e.eliminated == Some(x) <==> SoleLeader(s.players, votes, x))
    && t.players == (if e.eliminated.Some? then Kill(s.players, e.eliminated.value) else s.players)
    && (e.recount <==> t.phase.Recount? && s.phase.Vote?)
    && (e.recount <==> s.voteRound == 1 && Tied(s.players, votes))
    && (e.recount ==> t.votes == map[] && forall id :: id in t.candidates <==> Leads(s.players, votes, id))
    && (!e.recount ==> t.phase.Night? || t.pendingEnd.Some?)
    && (!e.recount && !t.phase.Night? ==>
          t.phase == s.phase && t.votes == votes && t.candidates == s.candidates && t.voteRound == s.voteRound)
  }

  /** The phase and the ballots on the table are as they were. */
  predicate SameBallot(s: State, t: State) {
    t.phase == s.phase && t.votes == s.votes && t.candidates == s.candidates && t.voteRound == s.voteRound
  }

  lemma EliminationLeadsOn(s: State, x: PlayerId, env: Env)
    requires ProperIds(s.players) && Has(s.players, x) && !s.phase.End?
    ensures
      var t := Eliminate(s, x, env).state;
      && t.players == Kill(s.players, x)
      && (t.phase.Night? || (t.pendingEnd.Some? && SameBallot(s, t)))
  {
    hide Kill, ProperIds, Bury, EnterNight, EvaluateEnd;
    BuriedPlayers(s, x, env.pick);
    NightFollowsVote(Bury(s, x, env.pick).state, env);
  }

  lemma BuriedPlayers(s: State, id: PlayerId, pick: Option<nat>)
    ensures
      var t := Bury(s, id, pick).state;
      t.players == Kill(s.players, id) && SameBallot(s, t)
  {
    hide Drawn, MafiaIds, Kill;
  }

  /** Counting is a plurality vote: unique leader out, first tie voted again, otherwise nobody. */
  lemma TallyIsPlurality(s: State, env: Env)
    requires ProperIds(s.players) && (s.phase.Vote? || s.phase.Recount?)
    requires s.voteRound == if s.phase.Vote? then 1 else 2
    ensures Plurality(s, s.votes, Tally(s, env).state, Tally(s, env).events)
  {
    hide Leads, Eliminate, EnterNight, Top, CountFor, Counts, Score, Total, SoleLeader, Tied;
    var ps, votes := s.players, s.votes;
    var counts := Counts(votes);
    var top := Top(ps, counts);
    VotesAreConserved(votes);
    forall id | id != NOBODY ensures Score(counts, id) == CountFor(votes, id) {
      ScoreIsCount(votes, id);
    }
    OneLeaderIsSole(ps, votes);
    ManyLeadersTie(ps, votes);
    if |top| == 1 {
      TopIsSeated(ps, votes);
      EliminationLeadsOn(s, top[0], env);
      assert top == [top[0]];
    } else {
      forall id ensures id in top <==> Leads(ps, votes, id) {
        TopIsArgmax(ps, votes, id);
      }
      NightFollowsVote(s, env);
    }
  }

  lemma NightFollowsVote(s: State, env: Env)
    ensures EnterNight(s, env.now).state.phase.Night? && EnterNight(s, env.now).state.players == s.players
  {
  }

  /**
   With no end pending, an accepted ballot is counted exactly when it completes the set of
   living voters; until then it is only recorded.
   */
  lemma BallotIsCountedWhenAllVoted(s: State, sender: PlayerId, target: PlayerId, env: Env)
    requires Inv(s) && s.pendingEnd.None? && SaneEnv(env)
    requires CastVote(s, sender, target, env).error.None?
    ensures
      var o := CastVote(s, sender, target, env);
      var votes := s.votes[sender := target];
      if votes.Keys == LivingIds(s.players) then Plurality(s, votes, o.next, o.events)
      else o.next == s.(votes := votes) && o.events == []
  {
    hide Plurality, Tally;
    var votes := s.votes[sender := target];
    BallotTargetsLive(s, sender, target);
    CompleteIffAllVoted(s.players, votes);
    var s1 := s.(votes := votes);
    TallyIsPlurality(s1, env);
    PluralityIgnoresOldVotes(s, votes, Tally(s1, env).state, Tally(s1, env).events);
  }

  lemma PluralityIgnoresOldVotes(s: State, votes: map<PlayerId, PlayerId>, t: State, es: seq<Envelope>)
    ensures Plurality(s.(votes := votes), votes, t, es) <==> Plurality(s, votes, t, es)
  {
    hide SoleLeader, Tied, Leads, CountFor, Total;
  }
}
