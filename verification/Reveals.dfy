/**
 What a client shows about roles: its own from the opening on, that of a voted-out player
 from the vote on, and everybody's at the end.
 */
module Reveals {
  import opened GameTypes
  import opened Roster
  import opened Dealing
  import opened Rules
  import opened Invariants
  import opened Runs
  import opened Replica
  import opened Bystanders
  import opened Secrets
  import Views
  import Failures

  // ---------------------------------------------------------------- rows

  ghost predicate SameSeats(a: seq<Player>, b: seq<Player>) {
    |a| == |b| && forall i :: 0 <= i < |a| ==> a[i].id == b[i].id
  }

  /** The row of this seat shows the role the table has. */
  predicate Shows(g: Mirror, ps: seq<Player>, i: nat) {
    i < |ps| && i < |g.players| && g.players[i].role == ps[i].role
  }

  ghost predicate VotedOutIn(es: seq<Envelope>, id: PlayerId) {
    exists k :: 0 <= k < |es| && es[k].event.Eliminated? && es[k].event.player == id
  }

  /** Only deaths, votes and the end touch the rows of a client. */
  lemma RowsUntouched(g: Mirror, e: Event)
    requires !e.DeathAnnounced? && !e.Eliminated? && !e.GameEnded?
    ensures Reduce(g, BuildPayload(e)).players == g.players
  {
    hide WireMs, FindIndex;
  }

  lemma DeathKeepsRows(g: Mirror, victim: PlayerId)
    ensures
      var rows := Reduce(g, BuildPayload(DeathAnnounced(victim))).players;
      && |rows| == |g.players|
      && forall i :: 0 <= i < |rows| ==> rows[i].id == g.players[i].id && rows[i].role == g.players[i].role
  {
  }

  lemma VoteRevealsRow(g: Mirror, id: PlayerId, role: Role)
    ensures
      var rows := Reduce(g, BuildPayload(Eliminated(id, role))).players;
      && |rows| == |g.players|
      && forall i :: 0 <= i < |rows| ==>
           rows[i].id == g.players[i].id && rows[i].role == if g.players[i].id == id then role else g.players[i].role
  {
  }

  lemma RosterRow(a: seq<Player>, b: seq<Player>, i: nat)
    requires SamePeople(a, b) && i < |a|
    ensures |a| == |b| && a[i].id == b[i].id && a[i].role == b[i].role
  {
    assert a[i].(alive := b[i].alive) == b[i];
  }

  lemma EndRevealsRows(g: Mirror, e: Event)
    requires e.GameEnded?
    ensures Reduce(g, BuildPayload(e)).players == e.roster
  {
  }

  lemma ReduceKeepsRow(g: Mirror, e: Envelope, ps: seq<Player>, i: nat)
    requires SameSeats(g.players, ps) && Distinct(ps) && Proper(ps, e) && i < |ps|
    ensures SameSeats(Reduce(g, BuildPayload(e.event)).players, ps)
    ensures Shows(g, ps, i) ==> Shows(Reduce(g, BuildPayload(e.event)), ps, i)
    ensures e.event.Eliminated? && e.event.player == ps[i].id ==> Shows(Reduce(g, BuildPayload(e.event)), ps, i)
  {
    hide Reduce, BuildPayload, SamePeople;
    match e.event {
      case DeathAnnounced(v) => DeathKeepsRows(g, v);
      case Eliminated(id, role) =>
        VoteRevealsRow(g, id, role);
        IndexOfPlayer(ps, i);
      case GameEnded(_, _, roster) =>
        EndRevealsRows(g, e.event);
        forall j | 0 <= j < |ps| ensures |ps| == |roster| && ps[j].id == roster[j].id && ps[j].role == roster[j].role {
          RosterRow(ps, roster, j);
        }
        RosterRow(ps, roster, i);
      case _ => RowsUntouched(g, e.event);
    }
  }

  /** A row that is right stays right, and a batch that votes a player out makes that row right. */
  lemma {:induction false} FoldKeepsRow(g: Mirror, viewer: PlayerId, es: seq<Envelope>, now: seq<Player>,
                                        ps: seq<Player>, i: nat)
    requires SameSeats(g.players, ps) && Distinct(ps) && AllProper(ps, es) && i < |ps|
    ensures SameSeats(Fold(g, viewer, es, now).players, ps)
    ensures Shows(g, ps, i) || VotedOutIn(es, ps[i].id) ==> Shows(Fold(g, viewer, es, now), ps, i)
  {
    hide Reduce, Shows, SameSeats, Proper, Distinct;
    if es != [] {
      var front, e := es[..|es| - 1], es[|es| - 1];
      FoldKeepsRow(g, viewer, front, now, ps, i);
      ReduceKeepsRow(Fold(g, viewer, front, now), e, ps, i);
      PublicVerdict(ps, e);
      if VotedOutIn(es, ps[i].id) {
        var k :| 0 <= k < |es| && es[k].event.Eliminated? && es[k].event.player == ps[i].id;
        assert k < |front| ==> front[k] == es[k];
      }
    }
  }

  lemma PublicVerdict(ps: seq<Player>, e: Envelope)
    requires Proper(ps, e)
    ensures e.event.Eliminated? ==> e.audience == Everyone
  {
  }

  lemma RowsAcross(a: seq<Player>, b: seq<Player>, es: seq<Envelope>)
    requires SamePeople(a, b) && AllProper(b, es)
    ensures AllProper(a, es)
  {
    forall k | 0 <= k < |es| ensures Proper(a, es[k]) {
      ProperAcross(a, b, es[k]);
    }
  }

  lemma ProperAcross(a: seq<Player>, b: seq<Player>, e: Envelope)
    requires SamePeople(a, b) && Proper(b, e)
    ensures Proper(a, e)
  {
    hide SamePeople;
    forall id ensures Index(a, id) == Index(b, id) && RoleOf(a, id) == RoleOf(b, id) && |a| == |b| {
      SamePeopleSameIndex(a, b, id);
      SamePeopleCount(a, b);
    }
    if e.event.GameEnded? {
      SamePeopleThrough(a, b, e.event.roster);
    }
  }

  /**
   Over any run: a client with the engine's seats shows the true role of every player who
   was voted out during the run, and goes on showing every role that it showed rightly.
   */
  lemma {:induction false} VotedOutIsRevealed(g: Mirror, s: State, viewer: PlayerId, steps: seq<Step>, i: nat)
    requires Inv(s) && Sane(steps) && SameSeats(g.players, s.players) && i < |s.players|
    ensures SameSeats(Follow(g, viewer, s, steps).players, s.players)
    ensures Shows(g, s.players, i) || VotedOutIn(Trace(s, steps), s.players[i].id) ==>
      Shows(Follow(g, viewer, s, steps), s.players, i)
  {
    hide Inv, Exec, Fold, Shows, SameSeats, AllProper, SamePeople;
    if steps != [] {
      var front, st := steps[..|steps| - 1], steps[|steps| - 1];
      var m := After(s, front);
      VotedOutIsRevealed(g, s, viewer, front, i);
      InvIndexable(m);
      var o := Exec(m, st);
      StepIsProper(m, st);
      PeopleStay(s, front);
      RowsAcross(s.players, m.players, o.events);
      DistinctSeats(s);
      FoldKeepsRow(Follow(g, viewer, s, front), viewer, o.events, o.reply.players, s.players, i);
      VotedOutEarlierOrNow(Trace(s, front), o.events, s.players[i].id);
    }
  }

  lemma DistinctSeats(s: State)
    requires Inv(s)
    ensures Distinct(s.players)
  {
  }

  lemma VotedOutEarlierOrNow(a: seq<Envelope>, b: seq<Envelope>, id: PlayerId)
    ensures VotedOutIn(a + b, id) ==> VotedOutIn(a, id) || VotedOutIn(b, id)
  {
    if VotedOutIn(a + b, id) {
      var k :| 0 <= k < |a + b| && (a + b)[k].event.Eliminated? && (a + b)[k].event.player == id;
      if k < |a| {
        assert a[k] == (a + b)[k];
      } else {
        assert b[k - |a|] == (a + b)[k];
      }
    }
  }

  /** A client fed by events has the engine's very rows at the end, keywords included. */
  lemma FinalRows(g: Mirror, s: State, viewer: PlayerId, st: Step)
    requires Inv(s) && SaneEnv(st.env) && Callable(s, st) && !s.phase.End? && Exec(s, st).next.phase.End?
    ensures Fold(g, viewer, Exec(s, st).events, Exec(s, st).reply.players).players == s.players
  {
    hide Inv, Exec, Fold;
    var o := Exec(s, st);
    EndingIsOneEvent(s, st);
    PublicOne(g, viewer, o.events[0].event, o.reply.players);
  }

  lemma EndingIsOneEvent(s: State, st: Step)
    requires Inv(s) && SaneEnv(st.env) && Callable(s, st) && !s.phase.End? && Exec(s, st).next.phase.End?
    ensures
      var es := Exec(s, st).events;
      |es| == 1 && es == [Pub(es[0].event)] && es[0].event.GameEnded? && es[0].event.roster == s.players
  {
    hide People, Records, ProperIds;
    match st {
      case Submit(a, env) => Failures.ForcedOnly(s, a, env);
      case Clock(now, env) => Failures.FiredOnly(s, now, env);
    }
  }

  // ---------------------------------------------------------------- the opening

  function KeywordOf(ps: seq<Player>, id: PlayerId): string { if Has(ps, id) then ps[Index(ps, id)].keyword else "" }

  lemma {:induction false} RevelationsReceived(ps: seq<Player>, n: nat, viewer: PlayerId, all: seq<Player>)
    requires Distinct(ps) && n <= |ps|
    ensures Received(seq(n, i requires 0 <= i < n => Revelation(ps[i])), viewer, all)
         == if Has(ps, viewer) && Index(ps, viewer) < n
            then [RoleRevealed(viewer, RoleOf(ps, viewer), KeywordOf(ps, viewer))] else []
  {
    var es := seq(n, i requires 0 <= i < n => Revelation(ps[i]));
    if n > 0 {
      RevelationsReceived(ps, n - 1, viewer, all);
      assert es[..n - 1] == seq(n - 1, i requires 0 <= i < n - 1 => Revelation(ps[i]));
      IndexOfPlayer(ps, n - 1);
    }
  }

  lemma {:induction false} ReceivedConcat(a: seq<Envelope>, b: seq<Envelope>, viewer: PlayerId, ps: seq<Player>)
    ensures Received(a + b, viewer, ps) == Received(a, viewer, ps) + Received(b, viewer, ps)
  {
    if b == [] {
      assert a + b == a;
    } else {
      ReceivedConcat(a, b[..|b| - 1], viewer, ps);
      assert (a + b)[..|a + b| - 1] == a + b[..|b| - 1];
    }
  }

  /** What one viewer is told when a game starts. */
  function OpeningFor(s: State, cohort: seq<PlayerId>, viewer: PlayerId): seq<Event>
    requires s.players != []
  {
    var ps := s.players;
    [GameStarted(s)]
    + (if Has(ps, viewer) then [RoleRevealed(viewer, RoleOf(ps, viewer), KeywordOf(ps, viewer))] else [])
    + (if IsAlive(ps, viewer) && RoleOf(ps, viewer).Mafia? then [CohortRevealed(cohort, s.representative)] else [])
    + [PhaseChanged(Intro, 1, ZERO_TIME), SpeakerChanged(ps[0].id, s.settings.introSeconds)]
  }

  lemma OpeningReceived(s: State, a: Assignment, viewer: PlayerId)
    requires Distinct(s.players) && s.players != [] && a.mafiaIds != [] && a.rep == s.representative
    ensures Received(Opening(s, a), viewer, s.players) == OpeningFor(s, a.mafiaIds, viewer)
  {
    hide Received, Distinct, IsAlive, RoleOf, KeywordOf, Has, Index;
    var ps := s.players;
    var told := seq(|ps|, i requires 0 <= i < |ps| => Revelation(ps[i]));
    var first, second := [Pub(GameStarted(s))], [Envelope(CohortRevealed(a.mafiaIds, a.rep), LivingMafia)];
    var e, f := Pub(PhaseChanged(Intro, 1, ZERO_TIME)), Pub(SpeakerChanged(ps[0].id, s.settings.introSeconds));
    assert Opening(s, a) == first + told + second + ([e] + [f]);
    ReceivedConcat(first + told + second, [e] + [f], viewer, ps);
    ReceivedConcat(first + told, second, viewer, ps);
    ReceivedConcat(first, told, viewer, ps);
    ReceivedConcat([e], [f], viewer, ps);
    ReceivedOne(first[0], viewer, ps);
    ReceivedOne(second[0], viewer, ps);
    ReceivedOne(e, viewer, ps);
    ReceivedOne(f, viewer, ps);
    RevelationsReceived(ps, |ps|, viewer, ps);
    SeatBound(ps, viewer);
  }

  lemma SeatBound(ps: seq<Player>, id: PlayerId)
    ensures Has(ps, id) <==> Index(ps, id) < |ps|
  {
  }

  /**
   The opening of a game over distinct IDs tells every viewer its own role and keyword and
   nobody else's, tells the cohort to the mafia alone, and tells everybody who speaks first.
   The cohort is exactly the seated mafia.
   */
  lemma StartTellsEachItsOwn(s0: State, gameId: string, host: PlayerId, roster: seq<Player>, o: Options, env: Env)
    returns (cohort: seq<PlayerId>)
    requires ProperIds(roster) && Start(s0, gameId, host, roster, o, env).error.None?
    ensures
      var start := Start(s0, gameId, host, roster, o, env);
      var s := start.next;
      && s.players != []
      && (forall viewer :: Received(start.events, viewer, s.players) == OpeningFor(s, cohort, viewer))
      && (forall id :: id in cohort <==> Has(s.players, id) && RoleOf(s.players, id).Mafia?)
  {
    hide ValidOptions, Opening, Shuffle, Received, OpeningFor, Roles, RoleOf, Has;
    var a := Assign(Ids(roster), o, env.deal).value;
    var s := Start(s0, gameId, host, roster, o, env).next;
    cohort := a.mafiaIds;
    DealIsSound(roster, o, env.deal);
    forall viewer ensures Received(Opening(s, a), viewer, s.players) == OpeningFor(s, cohort, viewer) {
      OpeningReceived(s, a, viewer);
    }
    forall id ensures id in cohort <==> Has(s.players, id) && RoleOf(s.players, id).Mafia? {
      CohortIsTheMafia(roster, o, env.deal, id);
    }
  }

  // ---------------------------------------------------------------- a client's own data

  /** What the events that reach a client make of its own data. */
  function OwnAfter(own: Own, es: seq<Event>): Own {
    if es == [] then own
    else
      var before, e := OwnAfter(own, es[..|es| - 1]), es[|es| - 1];
      match e
      case RoleRevealed(_, r, kw) =>
        before.(role := r, keyword := kw, team := Some(if r.Mafia? then MafiaTeam else CitizenTeam))
      case CohortRevealed(ids, _) => before.(cohort := ids)
      case _ => before
  }

  lemma ReduceOwn(g: Mirror, e: Event)
    ensures Reduce(g, BuildPayload(e)).own == OwnAfter(g.own, [e])
  {
    hide WireMs, FindIndex, MarkDead, MarkDeadWithRole;
    assert [e][..0] == [];
  }

  lemma {:induction false} FoldOwn(g: Mirror, viewer: PlayerId, es: seq<Envelope>, ps: seq<Player>)
    ensures Fold(g, viewer, es, ps).own == OwnAfter(g.own, Received(es, viewer, ps))
  {
    hide Reduce, Reaches;
    if es != [] {
      var front, e := es[..|es| - 1], es[|es| - 1];
      FoldOwn(g, viewer, front, ps);
      ReduceOwn(Fold(g, viewer, front, ps), e.event);
      var heard := Received(front, viewer, ps);
      assert (heard + [e.event])[..|heard|] == heard;
      assert [e.event][..0] == [];
    }
  }

  /** A client's own data are the table's, and a mafia client has the whole cohort. */
  ghost predicate OwnRight(own: Own, ps: seq<Player>, viewer: PlayerId) {
    && own.role == RoleOf(ps, viewer) && own.keyword == KeywordOf(ps, viewer)
    && (own.team == Some(MafiaTeam) <==> RoleOf(ps, viewer).Mafia?)
    && (RoleOf(ps, viewer).Mafia? ==> forall id :: id in own.cohort <==> Has(ps, id) && RoleOf(ps, id).Mafia?)
  }

  lemma {:induction false} NothingOwn(own: Own, es: seq<Event>)
    requires forall i :: 0 <= i < |es| ==> !es[i].RoleRevealed? && !es[i].CohortRevealed?
    ensures OwnAfter(own, es) == own
  {
    if es != [] {
      NothingOwn(own, es[..|es| - 1]);
    }
  }

  lemma {:induction false} OwnConcat(own: Own, a: seq<Event>, b: seq<Event>)
    ensures OwnAfter(own, a + b) == OwnAfter(OwnAfter(own, a), b)
  {
    if b == [] {
      assert a + b == a;
    } else {
      OwnConcat(own, a, b[..|b| - 1]);
      assert (a + b)[..|a + b| - 1] == a + b[..|b| - 1];
    }
  }

  lemma OwnOne(own: Own, e: Event)
    ensures OwnAfter(own, [e])
         == match e
            case RoleRevealed(_, r, kw) =>
              own.(role := r, keyword := kw, team := Some(if r.Mafia? then MafiaTeam else CitizenTeam))
            case CohortRevealed(ids, _) => own.(cohort := ids)
            case _ => own
  {
    assert [e][..0] == [];
  }

  lemma OpeningOwn(own: Own, s: State, cohort: seq<PlayerId>, viewer: PlayerId)
    requires s.players != [] && IsAlive(s.players, viewer)
    requires forall id :: id in cohort <==> Has(s.players, id) && RoleOf(s.players, id).Mafia?
    ensures OwnRight(OwnAfter(own, OpeningFor(s, cohort, viewer)), s.players, viewer)
  {
    hide OwnAfter, KeywordOf, RoleOf, Index;
    var ps := s.players;
    var a, b := [GameStarted(s)], [RoleRevealed(viewer, RoleOf(ps, viewer), KeywordOf(ps, viewer))];
    var c := if RoleOf(ps, viewer).Mafia? then [CohortRevealed(cohort, s.representative)] else [];
    var d := [PhaseChanged(Intro, 1, ZERO_TIME), SpeakerChanged(ps[0].id, s.settings.introSeconds)];
    assert OpeningFor(s, cohort, viewer) == a + b + c + d;
    OwnConcat(own, a + b + c, d);
    OwnConcat(own, a + b, c);
    OwnConcat(own, a, b);
    NothingOwn(OwnAfter(own, a + b + c), d);
    OwnOne(own, a[0]);
    OwnOne(OwnAfter(own, a), b[0]);
    if c == [] {
      NothingOwn(OwnAfter(own, a + b), c);
    } else {
      OwnOne(OwnAfter(own, a + b), c[0]);
    }
  }

  lemma {:induction false} NoRevelations(es: seq<Envelope>, viewer: PlayerId, ps: seq<Player>, ps0: seq<Player>)
    requires AllProper(ps0, es)
    ensures forall i :: 0 <= i < |Received(es, viewer, ps)| ==>
      !Received(es, viewer, ps)[i].RoleRevealed? && !Received(es, viewer, ps)[i].CohortRevealed?
  {
    if es != [] {
      NoRevelations(es[..|es| - 1], viewer, ps, ps0);
      assert Proper(ps0, es[|es| - 1]);
    }
  }

  /** Nothing after the opening changes what a client knows about its own player. */
  lemma {:induction false} OwnStays(g: Mirror, s: State, viewer: PlayerId, steps: seq<Step>)
    requires Inv(s) && Sane(steps)
    ensures Follow(g, viewer, s, steps).own == g.own
  {
    hide Inv, Exec, Fold, Received, OwnAfter, AllProper;
    if steps != [] {
      var front, st := steps[..|steps| - 1], steps[|steps| - 1];
      var m := After(s, front);
      OwnStays(g, s, viewer, front);
      StepIsProper(m, st);
      var o := Exec(m, st);
      NoRevelations(o.events, viewer, o.reply.players, m.players);
      FoldOwn(Follow(g, viewer, s, front), viewer, o.events, o.reply.players);
      NothingOwn(g.own, Received(o.events, viewer, o.reply.players));
    }
  }

  /** A seated client that folds the opening knows its role, keyword, team and cohort ever after. */
  lemma OwnFollowsFromStart(g: Mirror, viewer: PlayerId, s0: State, gameId: string, host: PlayerId, roster: seq<Player>,
                            o: Options, env: Env, steps: seq<Step>)
    requires ProperIds(roster) && SaneEnv(env) && Sane(steps) && Start(s0, gameId, host, roster, o, env).error.None?
    requires Has(roster, viewer)
    ensures Inv(Start(s0, gameId, host, roster, o, env).next)
    ensures
      var start := Start(s0, gameId, host, roster, o, env);
      var g1 := Fold(g, viewer, start.events, start.reply.players);
      OwnRight(Follow(g1, viewer, start.next, steps).own, start.next.players, viewer)
  {
    hide Inv, Fold, Follow, OwnRight, Received, OpeningFor, Opening, ValidOptions, Shuffle, OwnAfter;
    var start := Start(s0, gameId, host, roster, o, env);
    StartEstablishes(s0, gameId, host, roster, o, env);
    var cohort := StartTellsEachItsOwn(s0, gameId, host, roster, o, env);
    SeatKeepsIndex(roster, Assign(Ids(roster), o, env.deal).value, viewer);
    FoldOwn(g, viewer, start.events, start.reply.players);
    OpeningOwn(g.own, start.next, cohort, viewer);
    OwnStays(Fold(g, viewer, start.events, start.reply.players), start.next, viewer, steps);
  }

  /** So does a client that resumes with its view. */
  lemma OwnFollowsFromView(s: State, viewer: PlayerId, host: PlayerId, steps: seq<Step>)
    requires Inv(s) && Sane(steps) && Has(s.players, viewer)
    ensures OwnRight(Follow(FromView(Views.View(s, viewer, host)), viewer, s, steps).own, s.players, viewer)
  {
    hide Inv, Follow;
    OwnStays(FromView(Views.View(s, viewer, host)), s, viewer, steps);
    ViewIsOwn(s, viewer, host);
  }

  lemma OwnIsSeen(s: State, viewer: PlayerId)
    requires ProperIds(s.players) && Has(s.players, viewer)
    ensures viewer != NOBODY && Views.Seen(s, viewer) == RoleOf(s.players, viewer)
    ensures Views.OwnKeyword(s, viewer) == KeywordOf(s.players, viewer)
    ensures Views.OwnTeam(s, viewer) == Some(if RoleOf(s.players, viewer).Mafia? then MafiaTeam else CitizenTeam)
  {
    assert s.players[Index(s.players, viewer)].id == viewer;
  }

  lemma ViewIsOwn(s: State, viewer: PlayerId, host: PlayerId)
    requires Inv(s) && Has(s.players, viewer)
    ensures OwnRight(FromView(Views.View(s, viewer, host)).own, s.players, viewer)
  {
    hide Inv, Views.Cohort, Views.Rows, RoleOf, Index;
    PeopleOf(s);
    assert s.players[Index(s.players, viewer)].id == viewer;
    Views.OwnFacts(s, viewer);
    OwnIsSeen(s, viewer);
    Views.CohortIsMafia(s, viewer);
  }
}
