/**
 Reading and changing the list of players: lookup by ID, live counts, the living
 mafia, and death. The functions here are what the loops of the engine compute.
 */
module Roster {
  import opened GameTypes

  ghost predicate Distinct(ps: seq<Player>) {
    forall i, j :: 0 <= i < j < |ps| ==> ps[i].id != ps[j].id
  }

  /** No two players share an ID and no ID is empty. */
  ghost predicate ProperIds(ps: seq<Player>) {
    Distinct(ps) && forall i :: 0 <= i < |ps| ==> ps[i].id != NOBODY
  }

  /** The position of the first player with this ID, or `|ps|` when there is none. */
  function Index(ps: seq<Player>, id: PlayerId): (r: nat)
    ensures r <= |ps|
    ensures r < |ps| ==> ps[r].id == id
    ensures forall j :: 0 <= j < r ==> ps[j].id != id
  {
    if ps == [] then 0 else if ps[0].id == id then 0 else 1 + Index(ps[1..], id)
  }

  predicate Has(ps: seq<Player>, id: PlayerId) { Index(ps, id) < |ps| }

  predicate IsAlive(ps: seq<Player>, id: PlayerId) { Has(ps, id) && ps[Index(ps, id)].alive }

  function RoleOf(ps: seq<Player>, id: PlayerId): Role {
    if Has(ps, id) then ps[Index(ps, id)].role else NoRole
  }

  function Kill(ps: seq<Player>, id: PlayerId): (r: seq<Player>)
    ensures |r| == |ps|
  {
    if Has(ps, id) then ps[Index(ps, id) := ps[Index(ps, id)].(alive := false)] else ps
  }

  function Live(ps: seq<Player>): nat {
    if ps == [] then 0 else Live(ps[..|ps| - 1]) + if ps[|ps| - 1].alive then 1 else 0
  }

  predicate LivingMafioso(p: Player) { p.alive && p.role.Mafia? }

  function LiveMafia(ps: seq<Player>): nat {
    if ps == [] then 0 else LiveMafia(ps[..|ps| - 1]) + if LivingMafioso(ps[|ps| - 1]) then 1 else 0
  }

  function LiveCitizens(ps: seq<Player>): nat {
    if ps == [] then 0
    else LiveCitizens(ps[..|ps| - 1]) + if ps[|ps| - 1].alive && !ps[|ps| - 1].role.Mafia? then 1 else 0
  }

  function MafiaIds(ps: seq<Player>): (r: seq<PlayerId>)
    ensures |r| == LiveMafia(ps)
    ensures forall k :: 0 <= k < |r| ==> exists i :: 0 <= i < |ps| && LivingMafioso(ps[i]) && ps[i].id == r[k]
  {
    if ps == [] then []
    else
      var front := MafiaIds(ps[..|ps| - 1]);
      if LivingMafioso(ps[|ps| - 1]) then front + [ps[|ps| - 1].id] else front
  }

  ghost function LivingIds(ps: seq<Player>): set<PlayerId> {
    set i | 0 <= i < |ps| && ps[i].alive :: ps[i].id
  }

  function Ids(ps: seq<Player>): (r: seq<PlayerId>)
    ensures |r| == |ps| && forall i :: 0 <= i < |ps| ==> r[i] == ps[i].id
  {
    seq(|ps|, i requires 0 <= i < |ps| => ps[i].id)
  }

  /** Mafia are present but outnumbered: neither side has won. */
  predicate Balanced(ps: seq<Player>) { 0 < LiveMafia(ps) < LiveCitizens(ps) }

  /** The representative is a living mafioso, or empty exactly when no mafia lives. */
  predicate RightRepresentative(ps: seq<Player>, rep: PlayerId) {
    if LiveMafia(ps) == 0 then rep == NOBODY else IsAlive(ps, rep) && RoleOf(ps, rep).Mafia?
  }

  /** Same people in the same order: only the alive flags may differ. */
  ghost predicate SamePeople(a: seq<Player>, b: seq<Player>) {
    |a| == |b| && forall i :: 0 <= i < |a| ==> a[i].(alive := b[i].alive) == b[i]
  }

  /** Nobody comes back to life and at most one player dies. */
  ghost predicate AtMostOneDeath(a: seq<Player>, b: seq<Player>) {
    && |a| == |b|
    && (forall i :: 0 <= i < |a| && b[i].alive ==> a[i].alive)
    && (forall i, j :: 0 <= i < |a| && 0 <= j < |a| && a[i].alive && !b[i].alive && a[j].alive && !b[j].alive ==>
          i == j)
  }

  lemma IndexOfPlayer(ps: seq<Player>, i: nat)
    requires Distinct(ps) && i < |ps|
    ensures Index(ps, ps[i].id) == i
  {
    assert Index(ps, ps[i].id) <= i;
  }

  lemma SamePeopleSameIndex(a: seq<Player>, b: seq<Player>, id: PlayerId)
    requires SamePeople(a, b)
    ensures Index(a, id) == Index(b, id) && RoleOf(a, id) == RoleOf(b, id)
  {
    var i, j := Index(a, id), Index(b, id);
    assert i < |a| ==> b[i].id == id;
    assert j < |b| ==> a[j].id == id;
  }

  lemma SamePeopleDistinct(a: seq<Player>, b: seq<Player>)
    requires SamePeople(a, b) && ProperIds(a)
    ensures ProperIds(b)
  {
    forall i, j | 0 <= i < j < |b| ensures b[i].id != b[j].id {
      assert a[i].id == b[i].id && a[j].id == b[j].id;
    }
    forall i | 0 <= i < |b| ensures b[i].id != NOBODY {
      assert a[i].id == b[i].id;
    }
  }

  /** Death changes one alive flag and nothing else. */
  lemma KillFacts(ps: seq<Player>, id: PlayerId)
    ensures SamePeople(ps, Kill(ps, id))
    ensures AtMostOneDeath(ps, Kill(ps, id))
    ensures Has(ps, id) ==> !IsAlive(Kill(ps, id), id)
    ensures forall x :: x != id ==> IsAlive(Kill(ps, id), x) == IsAlive(ps, x)
  {
    forall x ensures Index(Kill(ps, id), x) == Index(ps, x) {
      SamePeopleSameIndex(ps, Kill(ps, id), x);
    }
  }

  lemma {:induction false} SomeLivingMafia(ps: seq<Player>, i: nat)
    requires i < |ps| && LivingMafioso(ps[i])
    ensures LiveMafia(ps) > 0
  {
    if i < |ps| - 1 {
      SomeLivingMafia(ps[..|ps| - 1], i);
    }
  }

  lemma {:induction false} FewerMafia(a: seq<Player>, b: seq<Player>)
    requires SamePeople(a, b) && AtMostOneDeath(a, b)
    ensures LiveMafia(b) <= LiveMafia(a)
  {
    if a != [] {
      FewerMafia(a[..|a| - 1], b[..|b| - 1]);
    }
  }

  /** A death that is not the representative's leaves the representative right. */
  lemma KillKeepsRepresentative(ps: seq<Player>, id: PlayerId, rep: PlayerId)
    requires RightRepresentative(ps, rep) && rep != id
    ensures RightRepresentative(Kill(ps, id), rep)
  {
    var qs := Kill(ps, id);
    KillFacts(ps, id);
    FewerMafia(ps, qs);
    if LiveMafia(ps) > 0 {
      SamePeopleSameIndex(ps, qs, rep);
      SomeLivingMafia(qs, Index(qs, rep));
    }
  }

  /** Every ID listed by `MafiaIds` is a right representative. */
  lemma ListedMafiaIsRight(ps: seq<Player>, k: nat)
    requires Distinct(ps) && k < |MafiaIds(ps)|
    ensures RightRepresentative(ps, MafiaIds(ps)[k])
  {
    var i :| 0 <= i < |ps| && LivingMafioso(ps[i]) && ps[i].id == MafiaIds(ps)[k];
    IndexOfPlayer(ps, i);
  }

  lemma AliveIffLivingId(ps: seq<Player>, id: PlayerId)
    requires Distinct(ps)
    ensures IsAlive(ps, id) <==> id in LivingIds(ps)
  {
    if id in LivingIds(ps) {
      var i :| 0 <= i < |ps| && ps[i].alive && ps[i].id == id;
      IndexOfPlayer(ps, i);
    }
    if IsAlive(ps, id) {
      assert ps[Index(ps, id)].id in LivingIds(ps);
    }
  }

  /** With distinct IDs the live count is the size of the set of living IDs. */
  lemma {:induction false} LiveCountsLivingIds(ps: seq<Player>)
    requires Distinct(ps)
    ensures |LivingIds(ps)| == Live(ps)
  {
    if ps == [] {
      assert LivingIds(ps) == {};
    } else {
      var front, last := ps[..|ps| - 1], ps[|ps| - 1];
      LiveCountsLivingIds(front);
      forall id | id in LivingIds(ps) ensures id in LivingIds(front) || (last.alive && id == last.id) {
        var i :| 0 <= i < |ps| && ps[i].alive && ps[i].id == id;
        if i < |ps| - 1 {
          assert front[i] == ps[i];
        }
      }
      forall id | id in LivingIds(front) ensures id in LivingIds(ps) && id != last.id {
        var i :| 0 <= i < |front| && front[i].alive && front[i].id == id;
        assert ps[i] == front[i];
      }
      if last.alive {
        assert ps[|ps| - 1].id in LivingIds(ps);
        assert LivingIds(ps) == LivingIds(front) + {last.id};
      } else {
        assert LivingIds(ps) == LivingIds(front);
      }
    }
  }

  lemma {:induction false} LiveSplits(ps: seq<Player>)
    ensures Live(ps) == LiveMafia(ps) + LiveCitizens(ps)
  {
    if ps != [] {
      LiveSplits(ps[..|ps| - 1]);
    }
  }

  // ---------------------------------------------------------------- counts as sizes of sets of seats

  ghost function MafiaSeats(ps: seq<Player>): set<int> { set i | 0 <= i < |ps| && ps[i].alive && ps[i].role.Mafia? }

  ghost function CitizenSeats(ps: seq<Player>): set<int> { set i | 0 <= i < |ps| && ps[i].alive && !ps[i].role.Mafia? }

  lemma SeatsWithOneMore(front: seq<Player>, p: Player)
    ensures MafiaSeats(front + [p]) == MafiaSeats(front) + (if LivingMafioso(p) then {|front|} else {})
    ensures CitizenSeats(front + [p]) == CitizenSeats(front) + (if p.alive && !p.role.Mafia? then {|front|} else {})
    ensures |front| !in MafiaSeats(front) && |front| !in CitizenSeats(front)
  {
    var ps, n := front + [p], |front|;
    assert ps[n] == p;
    forall i ensures i in MafiaSeats(ps) <==> i in MafiaSeats(front) || (i == n && LivingMafioso(p)) {
      assert 0 <= i < n ==> ps[i] == front[i];
    }
    forall i ensures i in CitizenSeats(ps) <==> i in CitizenSeats(front) || (i == n && p.alive && !p.role.Mafia?) {
      assert 0 <= i < n ==> ps[i] == front[i];
    }
  }

  /** The two counts are the numbers of living seats on either side. */
  lemma {:induction false} CountsAreSizes(ps: seq<Player>)
    ensures |MafiaSeats(ps)| == LiveMafia(ps) && |CitizenSeats(ps)| == LiveCitizens(ps)
  {
    hide MafiaSeats, CitizenSeats;
    if ps == [] {
      NoSeats();
    } else {
      var front, p := ps[..|ps| - 1], ps[|ps| - 1];
      CountsAreSizes(front);
      SeatsWithOneMore(front, p);
      assert front + [p] == ps;
    }
  }

  lemma NoSeats()
    ensures MafiaSeats([]) == {} && CitizenSeats([]) == {}
  {
  }
}
