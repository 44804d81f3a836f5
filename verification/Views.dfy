/**
 The masked view of a game that is sent to one viewer. The public screen is the viewer
 without an ID.
 */
module Views {
  import opened GameTypes
  import opened Roster

  /** The masked state, and what the viewer is told about itself. */
  datatype PrivateView = PrivateView(
    state: State,
    role: Role,
    keyword: string,
    team: Option<Team>,
    cohort: seq<PlayerId>,
    isHost: bool)

  function Seen(s: State, viewer: PlayerId): Role {
    if viewer != NOBODY then RoleOf(s.players, viewer) else NoRole
  }

  function OwnKeyword(s: State, viewer: PlayerId): string {
    if viewer != NOBODY && Has(s.players, viewer) then s.players[Index(s.players, viewer)].keyword else ""
  }

  /** One row as the viewer gets it. */
  function Masked(s: State, viewer: PlayerId, p: Player): Player {
    var scrubbed := if s.phase.End? then p.role else NoRole;
    var own := if viewer != NOBODY && p.id == viewer then Seen(s, viewer) else scrubbed;
    p.(role := if Seen(s, viewer).Mafia? && RoleOf(s.players, p.id).Mafia? then Mafia else own,
       keyword := if p.id != viewer then "" else if viewer != NOBODY then OwnKeyword(s, viewer) else p.keyword)
  }

  function Cohort(s: State, viewer: PlayerId, n: nat): seq<PlayerId>
    requires n <= |s.players|
  {
    if n == 0 || !Seen(s, viewer).Mafia? then []
    else
      var front := Cohort(s, viewer, n - 1);
      if RoleOf(s.players, s.players[n - 1].id).Mafia? then front + [s.players[n - 1].id] else front
  }

  /** Blanks the roles, unless the game has ended, and every keyword but the viewer's. */
  method Scrub(s: State, viewer: PlayerId) returns (players: seq<Player>)
    ensures |players| == |s.players|
    ensures forall j :: 0 <= j < |players| ==> players[j] == Scrubbed(s, viewer, s.players[j])
  {
    var n := |s.players|;
    players := s.players;
    for i := 0 to n
      invariant |players| == n
      invariant forall j :: i <= j < n ==> players[j] == s.players[j]
      invariant forall j :: 0 <= j < i ==> players[j] == Scrubbed(s, viewer, s.players[j])
    {
      if !s.phase.End? {
        players := players[i := players[i].(role := NoRole)];
      }
      if players[i].id != viewer {
        players := players[i := players[i].(keyword := "")];
      }
    }
  }

  function Scrubbed(s: State, viewer: PlayerId, p: Player): Player {
    p.(role := if s.phase.End? then p.role else NoRole, keyword := if p.id != viewer then "" else p.keyword)
  }

  /** Gives the viewer's own row its role and keyword back. */
  method RestoreOwn(before: seq<Player>, viewer: PlayerId, role: Role, keyword: string) returns (players: seq<Player>)
    ensures |players| == |before|
    ensures forall j :: 0 <= j < |players| ==>
      players[j] == if before[j].id == viewer then before[j].(role := role, keyword := keyword) else before[j]
  {
    players := before;
    for i := 0 to |before|
      invariant |players| == |before|
      invariant forall j :: i <= j < |before| ==> players[j] == before[j]
      invariant forall j :: 0 <= j < i ==>
        players[j] == if before[j].id == viewer then before[j].(role := role, keyword := keyword) else before[j]
    {
      if players[i].id == viewer {
        players := players[i := players[i].(role := role, keyword := keyword)];
      }
    }
  }

  /** Shows a mafia viewer which players are mafia, and lists them. */
  method DiscloseAllies(s: State, viewer: PlayerId, before: seq<Player>)
    returns (players: seq<Player>, cohort: seq<PlayerId>)
    requires Seen(s, viewer).Mafia? && |before| == |s.players|
    requires forall j :: 0 <= j < |before| ==> before[j].id == s.players[j].id
    ensures |players| == |before|
    ensures forall j :: 0 <= j < |players| ==>
      players[j] == if RoleOf(s.players, s.players[j].id).Mafia? then before[j].(role := Mafia) else before[j]
    ensures cohort == Cohort(s, viewer, |s.players|)
  {
    hide RoleOf, Index, Seen;
    var n := |before|;
    players, cohort := before, [];
    for i := 0 to n
      invariant |players| == n
      invariant forall j :: i <= j < n ==> players[j] == before[j]
      invariant forall j :: 0 <= j < i ==>
        players[j] == if RoleOf(s.players, s.players[j].id).Mafia? then before[j].(role := Mafia) else before[j]
      invariant cohort == Cohort(s, viewer, i)
    {
      var original := RoleOf(s.players, players[i].id);
      if original.Mafia? {
        players := players[i := players[i].(role := Mafia)];
        cohort := cohort + [before[i].id];
      }
    }
  }

  function Rows(s: State, viewer: PlayerId): (r: seq<Player>)
    ensures |r| == |s.players| && forall i :: 0 <= i < |s.players| ==> r[i] == Masked(s, viewer, s.players[i])
  {
    seq(|s.players|, i requires 0 <= i < |s.players| => Masked(s, viewer, s.players[i]))
  }

  /** The state as it is sent: other rows are masked and the history goes to the police only; the rest passes. */
  function MaskedState(s: State, viewer: PlayerId): State {
    s.(players := Rows(s, viewer), history := if Seen(s, viewer).Police? then s.history else [])
  }

  function OwnTeam(s: State, viewer: PlayerId): Option<Team> {
    if viewer != NOBODY && Has(s.players, viewer) then Some(TeamOf(RoleOf(s.players, viewer))) else None
  }

  function View(s: State, viewer: PlayerId, host: PlayerId): PrivateView {
    PrivateView(MaskedState(s, viewer), Seen(s, viewer), OwnKeyword(s, viewer), OwnTeam(s, viewer),
                Cohort(s, viewer, |s.players|), viewer == host && viewer != NOBODY)
  }

  /** Builds the view by scrubbing a copy of the players and then giving back what is granted. */
  method BuildPrivateView(s: State, viewer: PlayerId, host: PlayerId) returns (view: PrivateView)
    ensures view == View(s, viewer, host)
  {
    hide RoleOf, Scrubbed, OwnRow, Masked;
    OwnFacts(s, viewer);
    var players := MaskRows(s, viewer);
    var myRole, myKeyword, myTeam := NoRole, "", None;
    if viewer != NOBODY {
      var k := Index(s.players, viewer);
      if k < |s.players| {
        myRole, myKeyword, myTeam := s.players[k].role, s.players[k].keyword, Some(TeamOf(s.players[k].role));
      }
    }
    var history := s.history;
    if !myRole.Police? {
      history := [];
    }
    var cohort := [];
    if myRole.Mafia? {
      players, cohort := DiscloseAllies(s, viewer, players);
    }
    if !myRole.Mafia? {
      NoCohort(s, viewer);
    }
    forall j | 0 <= j < |players| ensures players[j] == Masked(s, viewer, s.players[j]) {
      MaskedInSteps(s, viewer, s.players[j]);
    }
    assert players == Rows(s, viewer);
    view := PrivateView(s.(players := players, history := history), myRole, myKeyword, myTeam, cohort,
                        viewer == host && viewer != NOBODY);
  }

  lemma OwnFacts(s: State, viewer: PlayerId)
    ensures
      var known := viewer != NOBODY && Has(s.players, viewer);
      && Seen(s, viewer) == (if known then s.players[Index(s.players, viewer)].role else NoRole)
      && OwnTeam(s, viewer) == (if known then Some(TeamOf(s.players[Index(s.players, viewer)].role)) else None)
  {
  }

  /** The three passes over a row come to its mask. */
  lemma MaskedInSteps(s: State, viewer: PlayerId, p: Player)
    ensures
      var row := OwnRow(s, viewer, Scrubbed(s, viewer, p));
      Masked(s, viewer, p)
        == (if Seen(s, viewer).Mafia? && RoleOf(s.players, p.id).Mafia? then row.(role := Mafia) else row)
  {
    hide RoleOf, Index, Seen;
  }

  lemma NoCohort(s: State, viewer: PlayerId)
    requires !Seen(s, viewer).Mafia?
    ensures Cohort(s, viewer, |s.players|) == []
  {
  }

  function OwnRow(s: State, viewer: PlayerId, p: Player): Player {
    if viewer != NOBODY && p.id == viewer then p.(role := Seen(s, viewer), keyword := OwnKeyword(s, viewer)) else p
  }

  /** The scrubbed rows, with the viewer's own restored. */
  method MaskRows(s: State, viewer: PlayerId) returns (players: seq<Player>)
    ensures |players| == |s.players|
    ensures forall j :: 0 <= j < |players| ==>
      players[j] == OwnRow(s, viewer, Scrubbed(s, viewer, s.players[j])) && players[j].id == s.players[j].id
  {
    players := Scrub(s, viewer);
    if viewer != NOBODY {
      players := RestoreOwn(players, viewer, Seen(s, viewer), OwnKeyword(s, viewer));
    }
  }

  /** Two games that differ only in what the masking rules withhold from this viewer. */
  ghost predicate SameForViewer(s: State, t: State, viewer: PlayerId) {
    && |s.players| == |t.players| && s.phase == t.phase
    && (forall i :: 0 <= i < |s.players| ==>
          && s.players[i].id == t.players[i].id && s.players[i].name == t.players[i].name
          && s.players[i].alive == t.players[i].alive
          && (viewer != NOBODY && s.players[i].id == viewer ==> s.players[i] == t.players[i])
          && (s.phase.End? ==> s.players[i].role == t.players[i].role))
    && (Seen(s, viewer).Mafia? ==>
          forall i :: 0 <= i < |s.players| ==> (s.players[i].role.Mafia? <==> t.players[i].role.Mafia?))
    && (Seen(s, viewer).Police? ==> s.history == t.history)
  }

  lemma SameIndexForViewer(s: State, t: State, viewer: PlayerId, id: PlayerId)
    requires SameForViewer(s, t, viewer)
    ensures Index(s.players, id) == Index(t.players, id)
  {
    assert Has(s.players, id) ==> t.players[Index(s.players, id)].id == id;
    assert Has(t.players, id) ==> s.players[Index(t.players, id)].id == id;
  }

  lemma SameOwnData(s: State, t: State, viewer: PlayerId)
    requires SameForViewer(s, t, viewer)
    ensures Seen(s, viewer) == Seen(t, viewer) && OwnKeyword(s, viewer) == OwnKeyword(t, viewer)
  {
    SameIndexForViewer(s, t, viewer, viewer);
  }

  lemma SameMafia(s: State, t: State, viewer: PlayerId, i: nat)
    requires SameForViewer(s, t, viewer) && Seen(s, viewer).Mafia? && i < |s.players|
    ensures i < |t.players| && s.players[i].id == t.players[i].id
    ensures RoleOf(s.players, s.players[i].id).Mafia? <==> RoleOf(t.players, t.players[i].id).Mafia?
  {
    SameIndexForViewer(s, t, viewer, s.players[i].id);
  }

  lemma {:induction false} SameCohort(s: State, t: State, viewer: PlayerId, n: nat)
    requires SameForViewer(s, t, viewer) && n <= |s.players| && n <= |t.players|
    ensures Cohort(s, viewer, n) == Cohort(t, viewer, n)
  {
    hide SameForViewer, RoleOf, Seen;
    SameOwnData(s, t, viewer);
    if n > 0 && Seen(s, viewer).Mafia? {
      SameCohort(s, t, viewer, n - 1);
      SameMafia(s, t, viewer, n - 1);
    }
  }

  lemma SameRow(s: State, t: State, viewer: PlayerId, i: nat)
    requires ProperIds(s.players) && SameForViewer(s, t, viewer) && i < |s.players|
    ensures i < |t.players| && Masked(s, viewer, s.players[i]) == Masked(t, viewer, t.players[i])
  {
    SameOwnData(s, t, viewer);
    SameIndexForViewer(s, t, viewer, s.players[i].id);
    assert s.players[i].id == t.players[i].id && s.players[i].id != NOBODY;
  }

  /**
   A view depends only on what the viewer is granted: its own row, the mafia roles if it is
   mafia, the history if it is the police, and all roles once the game has ended. Games that
   differ in nothing else of the players and the history give the very same view.
   */
  lemma ViewDependsOnGrants(s: State, t: State, viewer: PlayerId, host: PlayerId)
    requires ProperIds(s.players) && SameForViewer(s, t, viewer)
    requires t == s.(players := t.players, history := t.history)
    ensures View(s, viewer, host) == View(t, viewer, host)
  {
    hide Masked, SameForViewer, RoleOf;
    SameHistory(s, t, viewer);
    SameOwnData(s, t, viewer);
    SameCohort(s, t, viewer, |s.players|);
    SameIndexForViewer(s, t, viewer, viewer);
    forall i | 0 <= i < |s.players| ensures Rows(s, viewer)[i] == Rows(t, viewer)[i] {
      SameRow(s, t, viewer, i);
    }
    assert Rows(s, viewer) == Rows(t, viewer);
  }

  lemma SameHistory(s: State, t: State, viewer: PlayerId)
    requires SameForViewer(s, t, viewer)
    ensures |s.players| == |t.players| && (Seen(s, viewer).Police? ==> s.history == t.history)
  {
  }

  lemma {:induction false} CohortHas(s: State, viewer: PlayerId, n: nat, id: PlayerId)
    requires ProperIds(s.players) && n <= |s.players|
    ensures id in Cohort(s, viewer, n)
       <==> Seen(s, viewer).Mafia? && Has(s.players, id) && Index(s.players, id) < n && RoleOf(s.players, id).Mafia?
  {
    hide Seen, RoleOf;
    if n > 0 {
      CohortHas(s, viewer, n - 1, id);
      IndexOfPlayer(s.players, n - 1);
    }
  }

  /** A mafia viewer's cohort is exactly the mafia at the table; nobody else has one. */
  lemma CohortIsMafia(s: State, viewer: PlayerId)
    requires ProperIds(s.players)
    ensures forall id :: InCohort(s, id) && Seen(s, viewer).Mafia? <==> id in Cohort(s, viewer, |s.players|)
    ensures InOrder(s.players, Cohort(s, viewer, |s.players|))
  {
    hide Cohort, Seen, RoleOf, InOrder;
    forall id ensures InCohort(s, id) && Seen(s, viewer).Mafia? <==> id in Cohort(s, viewer, |s.players|) {
      CohortHas(s, viewer, |s.players|, id);
    }
    CohortInOrder(s, viewer, |s.players|);
  }

  predicate InCohort(s: State, id: PlayerId) { Has(s.players, id) && RoleOf(s.players, id).Mafia? }

  ghost predicate InOrder(ps: seq<Player>, ids: seq<PlayerId>) {
    forall k, l :: 0 <= k < l < |ids| ==> Index(ps, ids[k]) < Index(ps, ids[l])
  }

  lemma InOrderWithLast(ps: seq<Player>, ids: seq<PlayerId>, id: PlayerId)
    requires InOrder(ps, ids) && forall k :: 0 <= k < |ids| ==> Index(ps, ids[k]) < Index(ps, id)
    ensures InOrder(ps, ids + [id])
  {
    hide Index;
  }

  lemma {:induction false} CohortInOrder(s: State, viewer: PlayerId, n: nat)
    requires ProperIds(s.players) && n <= |s.players|
    ensures InOrder(s.players, Cohort(s, viewer, n))
  {
    hide Seen, RoleOf, InOrder;
    if n > 0 && Seen(s, viewer).Mafia? {
      var front := Cohort(s, viewer, n - 1);
      CohortInOrder(s, viewer, n - 1);
      IndexOfPlayer(s.players, n - 1);
      forall k | 0 <= k < |front| ensures Index(s.players, front[k]) < n - 1 {
        CohortHas(s, viewer, n - 1, front[k]);
      }
      InOrderWithLast(s.players, front, s.players[n - 1].id);
    } else {
      NobodyInOrder(s.players);
    }
  }

  lemma NobodyInOrder(ps: seq<Player>)
    ensures InOrder(ps, [])
  {
  }

  /** And it shows exactly that: no role but these, and no keyword but the viewer's own. */
  lemma ViewShowsGrants(s: State, viewer: PlayerId, i: nat)
    requires ProperIds(s.players) && i < |s.players|
    ensures
      var p := s.players[i];
      var granted := s.phase.End? || p.id == viewer || (Seen(s, viewer).Mafia? && p.role.Mafia?);
      Masked(s, viewer, p)
        == p.(role := if granted then p.role else NoRole, keyword := if p.id == viewer then p.keyword else "")
    ensures s.players[i].id == viewer ==>
      var v := View(s, viewer, viewer);
      && v.isHost && v.role == s.players[i].role && v.keyword == s.players[i].keyword
      && v.team == Some(if s.players[i].role.Mafia? then MafiaTeam else CitizenTeam)
    ensures forall host :: View(s, viewer, host).isHost ==> viewer == host && viewer != NOBODY
  {
    hide Rows, Cohort;
    IndexOfPlayer(s.players, i);
  }
}
