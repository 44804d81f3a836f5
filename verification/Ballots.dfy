/**
 Counting a round of votes. A vote for nobody is an abstention and never counts.
 */
module Ballots {
  import opened GameTypes
  import opened Roster

  function Voters(votes: map<PlayerId, PlayerId>, t: PlayerId): set<PlayerId> {
    set v | v in votes && votes[v] == t
  }

  function CountFor(votes: map<PlayerId, PlayerId>, t: PlayerId): nat { |Voters(votes, t)| }

  function Targets(votes: map<PlayerId, PlayerId>): set<PlayerId> {
    set v | v in votes && votes[v] != NOBODY :: votes[v]
  }

  function Counts(votes: map<PlayerId, PlayerId>): map<PlayerId, nat> {
    map t | t in Targets(votes) :: CountFor(votes, t)
  }

  /** A missing entry counts zero. */
  function Score(counts: map<PlayerId, nat>, id: PlayerId): nat {
    if id in counts then counts[id] else 0
  }

  function Best(ps: seq<Player>, counts: map<PlayerId, nat>): nat {
    if ps == [] then 0
    else
      var b := Best(ps[..|ps| - 1], counts);
      var c := Score(counts, ps[|ps| - 1].id);
      if c > b then c else b
  }

  /** The players whose score is `best`, in seating order. */
  function Scoring(ps: seq<Player>, counts: map<PlayerId, nat>, best: nat): seq<PlayerId> {
    if ps == [] then []
    else
      var front := Scoring(ps[..|ps| - 1], counts, best);
      if Score(counts, ps[|ps| - 1].id) == best then front + [ps[|ps| - 1].id] else front
  }

  /** The leaders of the vote: empty when nobody received a vote. */
  function Top(ps: seq<Player>, counts: map<PlayerId, nat>): seq<PlayerId> {
    if Best(ps, counts) == 0 then [] else Scoring(ps, counts, Best(ps, counts))
  }

  // ---------------------------------------------------------------- what the count means

  lemma ScoreIsCount(votes: map<PlayerId, PlayerId>, id: PlayerId)
    requires id != NOBODY
    ensures Score(Counts(votes), id) == CountFor(votes, id)
    ensures CountFor(votes, id) > 0 <==> exists v :: v in votes && votes[v] == id
  {
    if id !in Targets(votes) {
      assert Voters(votes, id) == {};
    } else {
      var v :| v in votes && votes[v] == id;
      assert v in Voters(votes, id);
    }
    if CountFor(votes, id) > 0 {
      var v :| v in Voters(votes, id);
      assert v in votes && votes[v] == id;
    }
  }

  lemma {:induction false} BestIsMax(ps: seq<Player>, counts: map<PlayerId, nat>)
    ensures forall i :: 0 <= i < |ps| ==> Score(counts, ps[i].id) <= Best(ps, counts)
    ensures Best(ps, counts) > 0 ==> exists i :: 0 <= i < |ps| && Score(counts, ps[i].id) == Best(ps, counts)
  {
    if ps != [] {
      var front, n := ps[..|ps| - 1], |ps| - 1;
      BestIsMax(front, counts);
      assert forall i :: 0 <= i < n ==> front[i] == ps[i];
      if Best(ps, counts) > 0 {
        if Score(counts, ps[n].id) > Best(front, counts) {
          assert Score(counts, ps[n].id) == Best(ps, counts);
        } else {
          var i :| 0 <= i < |front| && Score(counts, front[i].id) == Best(front, counts);
          assert Score(counts, ps[i].id) == Best(ps, counts);
        }
      }
    }
  }

  lemma {:induction false} NoneScoreAbove(ps: seq<Player>, counts: map<PlayerId, nat>, c: nat)
    requires c > Best(ps, counts)
    ensures Scoring(ps, counts, c) == []
  {
    if ps != [] {
      NoneScoreAbove(ps[..|ps| - 1], counts, c);
    }
  }

  lemma FrontIndex(ps: seq<Player>, id: PlayerId)
    requires ps != []
    ensures
      var n := |ps| - 1;
      Index(ps, id) == if Has(ps[..n], id) then Index(ps[..n], id) else if ps[n].id == id then n else |ps|
  {
    var n := |ps| - 1;
    assert forall j :: 0 <= j < n ==> ps[..n][j] == ps[j];
  }

  lemma {:induction false} ScoringHas(ps: seq<Player>, counts: map<PlayerId, nat>, best: nat, id: PlayerId)
    ensures id in Scoring(ps, counts, best) <==> Has(ps, id) && Score(counts, id) == best
  {
    if ps != [] {
      ScoringHas(ps[..|ps| - 1], counts, best, id);
      FrontIndex(ps, id);
    }
  }

  lemma {:induction false} ScoringInOrder(ps: seq<Player>, counts: map<PlayerId, nat>, best: nat, k: nat, l: nat)
    requires Distinct(ps) && k < l < |Scoring(ps, counts, best)|
    ensures Index(ps, Scoring(ps, counts, best)[k]) < Index(ps, Scoring(ps, counts, best)[l]) < |ps|
  {
    var n := |ps| - 1;
    var front := Scoring(ps[..n], counts, best);
    var x, y := Scoring(ps, counts, best)[k], Scoring(ps, counts, best)[l];
    FrontIndex(ps, x);
    FrontIndex(ps, y);
    if l < |front| {
      ScoringInOrder(ps[..n], counts, best, k, l);
    } else {
      ScoringHas(ps[..n], counts, best, x);
      IndexOfPlayer(ps, n);
    }
  }

  /** Whether `id` is one of the players with the most votes, and has any. */
  ghost predicate Leads(ps: seq<Player>, votes: map<PlayerId, PlayerId>, id: PlayerId) {
    && Has(ps, id)
    && CountFor(votes, id) > 0
    && forall i :: 0 <= i < |ps| ==> CountFor(votes, ps[i].id) <= CountFor(votes, id)
  }

  lemma ScoresAreCounts(ps: seq<Player>, votes: map<PlayerId, PlayerId>)
    requires ProperIds(ps)
    ensures forall i :: 0 <= i < |ps| ==> Score(Counts(votes), ps[i].id) == CountFor(votes, ps[i].id)
  {
    forall i | 0 <= i < |ps| ensures Score(Counts(votes), ps[i].id) == CountFor(votes, ps[i].id) {
      ScoreIsCount(votes, ps[i].id);
    }
  }

  /** The leaders are exactly the argmax set of the vote. */
  lemma TopIsArgmax(ps: seq<Player>, votes: map<PlayerId, PlayerId>, id: PlayerId)
    requires ProperIds(ps)
    ensures id in Top(ps, Counts(votes)) <==> Leads(ps, votes, id)
  {
    var counts := Counts(votes);
    ScoresAreCounts(ps, votes);
    BestIsMax(ps, counts);
    ScoringHas(ps, counts, Best(ps, counts), id);
    if Leads(ps, votes, id) {
      assert Score(counts, ps[Index(ps, id)].id) <= Best(ps, counts);
      var i :| 0 <= i < |ps| && Score(counts, ps[i].id) == Best(ps, counts);
      assert CountFor(votes, ps[i].id) <= CountFor(votes, id);
    }
  }

  /** The leaders are listed in seating order without repeats. */
  lemma TopInSeatingOrder(ps: seq<Player>, votes: map<PlayerId, PlayerId>)
    requires ProperIds(ps)
    ensures
      var top := Top(ps, Counts(votes));
      forall k, l :: 0 <= k < l < |top| ==> Index(ps, top[k]) < Index(ps, top[l])
  {
    var counts := Counts(votes);
    var top := Top(ps, counts);
    forall k, l | 0 <= k < l < |top| ensures Index(ps, top[k]) < Index(ps, top[l]) {
      ScoringInOrder(ps, counts, Best(ps, counts), k, l);
    }
  }

  // ---------------------------------------------------------------- conservation

  ghost function Total(counts: map<PlayerId, nat>): nat {
    if counts == map[] then 0
    else
      var t :| t in counts;
      counts[t] + Total(counts - {t})
  }

  lemma {:induction false} TotalPeel(counts: map<PlayerId, nat>, t: PlayerId)
    requires t in counts
    ensures Total(counts) == counts[t] + Total(counts - {t})
    decreases |counts|
  {
    var u :| u in counts && Total(counts) == counts[u] + Total(counts - {u});
    if u != t {
      TotalPeel(counts - {u}, t);
      TotalPeel(counts - {t}, u);
      assert counts - {u} - {t} == counts - {t} - {u};
    }
  }

  lemma CountWithout(votes: map<PlayerId, PlayerId>, v: PlayerId, u: PlayerId)
    requires v in votes
    ensures CountFor(votes, u) == CountFor(votes - {v}, u) + if votes[v] == u then 1 else 0
  {
    var rest := votes - {v};
    if votes[v] == u {
      assert Voters(votes, u) == Voters(rest, u) + {v};
    } else {
      assert Voters(votes, u) == Voters(rest, u);
    }
  }

  lemma TargetsWithout(votes: map<PlayerId, PlayerId>, v: PlayerId)
    requires v in votes
    ensures Targets(votes) - {votes[v]} == Targets(votes - {v}) - {votes[v]}
  {
    var rest := votes - {v};
    forall u | u in Targets(votes) - {votes[v]} ensures u in Targets(rest) {
      var w :| w in votes && votes[w] == u && u != NOBODY;
      assert w in rest && rest[w] == u;
    }
    forall u | u in Targets(rest) ensures u in Targets(votes) {
      var w :| w in rest && rest[w] == u && u != NOBODY;
      assert w in votes && votes[w] == u;
    }
  }

  lemma CountsWithout(votes: map<PlayerId, PlayerId>, v: PlayerId)
    requires v in votes
    ensures Counts(votes) - {votes[v]} == Counts(votes - {v}) - {votes[v]}
  {
    TargetsWithout(votes, v);
    forall u | u in Targets(votes) - {votes[v]} ensures CountFor(votes, u) == CountFor(votes - {v}, u) {
      CountWithout(votes, v, u);
    }
    assert (Counts(votes) - {votes[v]}).Keys == Targets(votes) - {votes[v]};
    assert (Counts(votes - {v}) - {votes[v]}).Keys == Targets(votes - {v}) - {votes[v]};
  }

  /** Counting one more ballot adds one to its target, or nothing for an abstention. */
  lemma CountsWithOneMore(seen: map<PlayerId, PlayerId>, v: PlayerId, t: PlayerId)
    requires v !in seen
    ensures Counts(seen[v := t]) == if t == NOBODY then Counts(seen) else Counts(seen)[t := Score(Counts(seen), t) + 1]
  {
    var votes := seen[v := t];
    assert votes - {v} == seen;
    CountsWithout(votes, v);
    CountWithout(votes, v, t);
    if t == NOBODY {
      assert Counts(votes) - {t} == Counts(votes) && Counts(seen) - {t} == Counts(seen);
    } else {
      ScoreIsCount(seen, t);
      assert votes[v] in Targets(votes);
      var more := Counts(seen)[t := Score(Counts(seen), t) + 1];
      assert Counts(votes)[t] == more[t];
      assert Counts(votes) - {t} == more - {t};
      assert Counts(votes) == (Counts(votes) - {t})[t := more[t]];
    }
  }

  lemma TotalPeelScore(counts: map<PlayerId, nat>, t: PlayerId)
    ensures Total(counts) == Score(counts, t) + Total(counts - {t})
  {
    if t in counts {
      TotalPeel(counts, t);
    } else {
      assert counts - {t} == counts;
    }
  }

  /** No vote is lost: the counts and the abstentions together are all the ballots. */
  lemma {:induction false} VotesAreConserved(votes: map<PlayerId, PlayerId>)
    ensures Total(Counts(votes)) + CountFor(votes, NOBODY) == |votes|
    decreases |votes|
  {
    if votes == map[] {
      assert Counts(votes) == map[] && Voters(votes, NOBODY) == {};
    } else {
      var v :| v in votes;
      var t, rest := votes[v], votes - {v};
      VotesAreConserved(rest);
      CountWithout(votes, v, NOBODY);
      CountsWithout(votes, v);
      TotalPeelScore(Counts(votes), t);
      TotalPeelScore(Counts(rest), t);
      if t != NOBODY {
        CountWithout(votes, v, t);
        ScoreIsCount(votes, t);
        ScoreIsCount(rest, t);
      }
    }
  }
}
