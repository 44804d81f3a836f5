/**
 Inputs at which a promise of the code does not hold: concrete games, small enough to
 read. The exact conditions are stated where each promise is discussed.
 */
module Witnesses {
  import opened GameTypes
  import opened Roster
  import opened Rules
  import opened Invariants
  import opened Runs
  import opened Sessions
  import opened Reboots
  import Ballots
  import Cues
  import Replica
  import Targets

  function Seated(id: PlayerId, role: Role, alive: bool): Player { Player(id, id, alive, role, "") }

  /** One mafioso, a doctor, a police officer and three citizens, of whom the last may be dead. */
  const TABLE: seq<Player> := [
    Seated("m", Mafia, true), Seated("d", Doctor, true), Seated("p", Police, true),
    Seated("x", Citizen, true), Seated("y", Citizen, true), Seated("z", Citizen, true)]

  const SHORT_GAME := Options(1, 0, 5, 30, 10, 10, 10, true, true)

  /** A game at this table that nothing has happened in yet. */
  const QUIET := ZERO_STATE.(gameId := "g", phase := Day, day := 1, players := TABLE, hostId := "m",
                             settings := SHORT_GAME,
                             startedAt := 0, deadline := Seconds(50), representative := "m", lastTickAt := Seconds(20))

  function OneIf(b: bool): nat { if b then 1 else 0 }

  lemma CountOneMore(ps: seq<Player>, p: Player)
    ensures LiveMafia(ps + [p]) == LiveMafia(ps) + OneIf(LivingMafioso(p))
    ensures LiveCitizens(ps + [p]) == LiveCitizens(ps) + OneIf(p.alive && !p.role.Mafia?)
    ensures Live(ps + [p]) == Live(ps) + OneIf(p.alive)
  {
    assert (ps + [p])[..|ps|] == ps;
  }

  lemma CountThreeMore(ps: seq<Player>, a: Player, b: Player, c: Player)
    ensures LiveMafia(ps + [a, b, c])
         == LiveMafia(ps) + OneIf(LivingMafioso(a)) + OneIf(LivingMafioso(b)) + OneIf(LivingMafioso(c))
    ensures LiveCitizens(ps + [a, b, c])
         == LiveCitizens(ps) + OneIf(a.alive && !a.role.Mafia?) + OneIf(b.alive && !b.role.Mafia?)
            + OneIf(c.alive && !c.role.Mafia?)
    ensures Live(ps + [a, b, c]) == Live(ps) + OneIf(a.alive) + OneIf(b.alive) + OneIf(c.alive)
  {
    hide LiveMafia, LiveCitizens, Live, LivingMafioso, OneIf;
    CountOneMore(ps, a);
    CountOneMore(ps + [a], b);
    CountOneMore(ps + [a] + [b], c);
    assert ps + [a, b, c] == ps + [a] + [b] + [c];
  }

  /** Counts over a table of six, three at a time. */
  lemma CountSix(ps: seq<Player>)
    requires |ps| == 6
    ensures LiveMafia(ps)
         == LiveMafia(ps[..3]) + OneIf(LivingMafioso(ps[3])) + OneIf(LivingMafioso(ps[4])) + OneIf(LivingMafioso(ps[5]))
    ensures LiveMafia(ps[..3])
         == OneIf(LivingMafioso(ps[0])) + OneIf(LivingMafioso(ps[1])) + OneIf(LivingMafioso(ps[2]))
    ensures Live(ps) == Live(ps[..3]) + OneIf(ps[3].alive) + OneIf(ps[4].alive) + OneIf(ps[5].alive)
    ensures Live(ps[..3]) == OneIf(ps[0].alive) + OneIf(ps[1].alive) + OneIf(ps[2].alive)
    ensures Live(ps) == LiveMafia(ps) + LiveCitizens(ps)
  {
    hide LiveMafia, LiveCitizens, Live, LivingMafioso, OneIf;
    CountNobody();
    CountThreeMore([], ps[0], ps[1], ps[2]);
    assert [] + [ps[0], ps[1], ps[2]] == ps[..3];
    CountThreeMore(ps[..3], ps[3], ps[4], ps[5]);
    assert ps[..3] + [ps[3], ps[4], ps[5]] == ps;
    LiveSplits(ps);
  }

  lemma CountNobody()
    ensures LiveMafia([]) == Live([]) == LiveCitizens([]) == 0
  {
  }

  lemma CountTable()
    ensures ProperIds(TABLE) && LiveMafia(TABLE) == 1 && LiveCitizens(TABLE) == 5
    ensures RightRepresentative(TABLE, "m")
  {
    hide LiveMafia, LiveCitizens, Live;
    CountSix(TABLE);
  }

  const LAST_STEP := QUIET.(phase := Night, deadline := ZERO_TIME, nightStep := StepDoctor,
                            stepDeadline := Seconds(100))

  function At(now: Time): Env { Env(now, now, None, Deal(false, [], 0, None)) }

  lemma LastStepIsReachable()
    ensures Inv(LAST_STEP)
  {
    CountTable();
  }

  /** The morning after the last step, set up at 90 s although the tick was for 100 s. */
  const MORNING := QUIET.(day := 2, deadline := Seconds(125), lastTickAt := Seconds(90))

  lemma FirstTickResolves()
    ensures Tick(LAST_STEP, Seconds(100), At(Seconds(90))).next == MORNING
  {
    hide LiveMafia, LiveCitizens, RightRepresentative, ProperIds;
    CountTable();
  }

  lemma SecondTickSpeaks()
    ensures Tick(MORNING, Seconds(100), At(Seconds(90))).events == [Pub(DiscussionTick(30))]
  {
    assert THRESHOLDS[..2] == [30, 10] && [30, 10][..1] == [30] && [30][..0] == [];
  }

  /**
   A tick is not idempotent: with the clock at 90 s, the tick for 100 s resolves the night
   and stamps the day with 90 s, and the same tick again announces a reminder.
   */
  lemma RepeatedTickSpeaks()
    ensures
      var t := Tick(LAST_STEP, Seconds(100), At(Seconds(90))).next;
      && Inv(LAST_STEP) && t.phase.Day?
      && Tick(t, Seconds(100), At(Seconds(90))).events == [Pub(DiscussionTick(30))]
  {
    hide Inv, Tick;
    LastStepIsReachable();
    FirstTickResolves();
    SecondTickSpeaks();
  }

  // ---------------------------------------------------------------- a stale target

  /** A night in which the mafioso may name a target. */
  const HUNT := QUIET.(phase := Night, deadline := ZERO_TIME, nightStep := StepMafia, stepDeadline := Seconds(100))

  const KILL := Submit(SubmitKill("m", "x"), At(Seconds(30)))

  const END_NIGHT := Submit(EndNightEarly("m"), At(Seconds(31)))

  lemma HuntIsReachable()
    ensures Inv(HUNT)
  {
    hide LiveMafia, LiveCitizens, RightRepresentative;
    CountTable();
  }

  lemma TableFacts()
    ensures RoleError(TABLE, "m", Mafia).None? && LifeErrors(TABLE, "m", "x").None?
    ensures RoleOf(TABLE, "x").Citizen? && Has(TABLE, "x") && Targets.Insider(Kill(TABLE, "x"), "m")
  {
  }

  lemma TargetIsNamed()
    ensures Exec(HUNT, KILL).next == HUNT.(killTarget := Some("x"))
    ensures Exec(HUNT, KILL).events == [Envelope(TargetSelected("m", "x"), LivingMafia)]
  {
    hide RoleError, LifeErrors, RoleOf, TABLE;
    TableFacts();
  }

  lemma NightIsOver()
    ensures
      var t := Exec(HUNT.(killTarget := Some("x")), END_NIGHT).next;
      t.killTarget.None? && Targets.Insider(t.players, "m")
  {
    hide EvaluateEnd, Has, Kill, Targets.Insider, TABLE;
    TableFacts();
  }

  /** The mafioso's client still shows the target of a night that is over. */
  lemma StaleTarget(g: Replica.Mirror)
    requires g.killTarget.None?
    ensures Inv(HUNT) && Sane([KILL, END_NIGHT])
    ensures After(HUNT, [KILL, END_NIGHT]).killTarget.None?
    ensures Replica.Follow(g, "m", HUNT, [KILL, END_NIGHT]).killTarget.Some?
  {
    hide Inv, Exec, Targets.Insider, Replica.Follow, Replica.Fold, Select;
    HuntIsReachable();
    TargetIsNamed();
    NightIsOver();
    InvIndexable(HUNT);
    var steps := [KILL, END_NIGHT];
    assert steps[..1] == [KILL] && steps[..1][..0] == [];
    assert Trace(HUNT, [KILL]) == Exec(HUNT, KILL).events;
    var e := Envelope(TargetSelected("m", "x"), LivingMafia);
    SelectConcat([e], Exec(After(HUNT, [KILL]), END_NIGHT).events, Targets.IsTarget);
    SelectOne(e, Targets.IsTarget);
    Targets.TargetMatchesIff(g, HUNT, "m", steps);
  }

  // ---------------------------------------------------------------- a lost verdict

  /** Two mafia against two after the citizen x is voted out, with the ballots still on the table. */
  const FINAL_FOUR: seq<Player> := [
    Seated("m", Mafia, true), Seated("n", Mafia, true), Seated("d", Doctor, true), Seated("p", Police, true),
    Seated("x", Citizen, false), Seated("y", Citizen, false)]

  const BALLOTS: map<PlayerId, PlayerId> := map["m" := "x", "n" := "x", "p" := "x", "d" := "m", "x" := "m"]

  /** The mafia have won, and the end is due at 25 s. */
  const DECIDED := QUIET.(phase := Vote, day := 2, players := FINAL_FOUR, settings := SHORT_GAME.(mafiaCount := 2),
                          deadline := ZERO_TIME,
                          votes := BALLOTS, voteRound := 1,
                          pendingEnd := Some(PendingEnd(MafiaWin, Some(MafiaTeam), Seconds(25))))

  lemma CountFinalFour()
    ensures ProperIds(FINAL_FOUR) && RightRepresentative(FINAL_FOUR, "m")
    ensures LiveMafia(FINAL_FOUR) == 2 && LiveCitizens(FINAL_FOUR) == 2
  {
    hide LiveMafia, LiveCitizens, Live;
    CountSix(FINAL_FOUR);
  }

  const DECIDED_SESSION := Session(DECIDED, true, Store(Some(DECIDED), map[]), [])

  const DUE := Clock(Seconds(25), At(Seconds(25)))

  lemma DecidedIsCovered()
    ensures Covered(DECIDED_SESSION)
  {
    CountFinalFour();
    SelfAgrees(DECIDED);
  }

  /** The tick that is due, with its result write failing, and then a crash. */
  ghost function CrashAfterFailure(): Session
    requires Callable(DECIDED, DUE)
  {
    Met(Met(DECIDED_SESSION, Call(DUE, Writes(true, false))), Crash)
  }

  /** The mafia win; the result write fails; the reboot resumes a game that has filed nothing. */
  lemma FailedWriteLosesVerdict()
    ensures Covered(DECIDED_SESSION) && Callable(DECIDED, DUE) && Exec(DECIDED, DUE).next.winner == Some(MafiaTeam)
    ensures
      var z := CrashAfterFailure();
      && z.started && z.store.results == map[]
      && z.engine == DECIDED.(pendingEnd := None, lastTickAt := Seconds(25))
  {
    hide Covered, HasTrigger;
    DecidedIsCovered();
    TriggerAt(Exec(DECIDED, DUE).events, 0);
  }

  /** What is left of them when the mafioso m goes instead. */
  const FINAL_THREE := FINAL_FOUR[0 := Seated("m", Mafia, false)]

  lemma CountFinalThree()
    ensures LiveMafia(FINAL_THREE) == 1 && LiveCitizens(FINAL_THREE) == 2
  {
    hide LiveMafia, LiveCitizens, Live;
    CountSix(FINAL_THREE);
  }

  const SECOND_THOUGHTS := BALLOTS["p" := "m"]

  lemma VotersOfSecondThoughts()
    ensures Ballots.CountFor(SECOND_THOUGHTS, "m") == 3 && Ballots.CountFor(SECOND_THOUGHTS, "x") == 2
    ensures forall id :: id != "m" && id != "x" ==> Ballots.CountFor(SECOND_THOUGHTS, id) == 0
  {
    assert Ballots.Voters(SECOND_THOUGHTS, "m") == {"d", "x", "p"};
    assert Ballots.Voters(SECOND_THOUGHTS, "x") == {"m", "n"};
    forall id | id != "m" && id != "x" ensures Ballots.CountFor(SECOND_THOUGHTS, id) == 0 {
      assert Ballots.Voters(SECOND_THOUGHTS, id) == {};
    }
  }

  lemma CountSecondThoughts()
    ensures Ballots.Top(FINAL_FOUR, Ballots.Counts(SECOND_THOUGHTS)) == ["m"]
  {
    hide Ballots.Counts, Ballots.Best, Ballots.Scoring, Ballots.Top, Ballots.CountFor, SECOND_THOUGHTS;
    VotersOfSecondThoughts();
    CountFinalFour();
    OnlyLeader(FINAL_FOUR, SECOND_THOUGHTS, "m");
  }

  lemma OnlyLeader(ps: seq<Player>, votes: map<PlayerId, PlayerId>, id: PlayerId)
    requires ProperIds(ps) && Has(ps, id) && Ballots.CountFor(votes, id) > 0
    requires forall i :: 0 <= i < |ps| && ps[i].id != id ==>
      Ballots.CountFor(votes, ps[i].id) < Ballots.CountFor(votes, id)
    ensures Ballots.Top(ps, Ballots.Counts(votes)) == [id]
  {
    hide Ballots.Counts, Ballots.Best, Ballots.Scoring, Ballots.Top, Ballots.CountFor;
    var top := Ballots.Top(ps, Ballots.Counts(votes));
    Ballots.TopInSeatingOrder(ps, votes);
    assert |top| < 2 || top[0] != top[1];
    Ballots.TopIsArgmax(ps, votes, id);
    forall k | 0 <= k < |top| ensures top[k] == id {
      Ballots.TopIsArgmax(ps, votes, top[k]);
      assert ps[Index(ps, top[k])].id == top[k] && ps[Index(ps, id)].id == id;
    }
    assert Ballots.Leads(ps, votes, id) && id in top;
  }

  /** The game as the reboot resumes it, with the changed ballot. */
  const RECONSIDERED := DECIDED.(pendingEnd := None, lastTickAt := Seconds(25), votes := SECOND_THOUGHTS)

  lemma AliveAtTheEnd()
    ensures LifeErrors(FINAL_FOUR, "p", "m").None? && Live(FINAL_FOUR) == 4
  {
    hide Live, LiveMafia, LiveCitizens;
    CountSix(FINAL_FOUR);
  }

  lemma BallotIsCounted()
    ensures
      var z := DECIDED.(pendingEnd := None, lastTickAt := Seconds(25));
      Apply(z, SubmitVote("p", "m"), At(Seconds(26))).next == Tally(RECONSIDERED, At(Seconds(26))).state
  {
    hide LifeErrors, Live, Tally;
    AliveAtTheEnd();
    assert SECOND_THOUGHTS.Keys == {"m", "n", "p", "d", "x"};
  }

  lemma MafiosoGoes()
    ensures Tally(RECONSIDERED, At(Seconds(26))).state.players == FINAL_THREE
    ensures Tally(RECONSIDERED, At(Seconds(26))).state.phase.Night?
    ensures Tally(RECONSIDERED, At(Seconds(26))).state.pendingEnd.None?
  {
    hide LiveMafia, LiveCitizens, Live, Ballots.Top, Ballots.Counts, MafiaIds, SECOND_THOUGHTS;
    CountFinalThree();
    CountSecondThoughts();
    assert Kill(FINAL_FOUR, "m") == FINAL_THREE;
  }

  /**
   A mafia win that was not written can be overturned: one player changes a ballot of the
   resumed game, the mafioso m goes instead, and the game is open again.
   */
  lemma MafiaWinIsOverturned()
    ensures CrashAfterFailure().engine == DECIDED.(pendingEnd := None, lastTickAt := Seconds(25))
    ensures
      var z := DECIDED.(pendingEnd := None, lastTickAt := Seconds(25));
      var t := Apply(z, SubmitVote("p", "m"), At(Seconds(26))).next;
      t.phase.Night? && t.pendingEnd.None? && Balanced(t.players)
  {
    hide LiveMafia, LiveCitizens, Live, Apply, Tally, CrashAfterFailure, RECONSIDERED;
    FailedWriteLosesVerdict();
    BallotIsCounted();
    MafiosoGoes();
    CountFinalThree();
  }

  // ---------------------------------------------------------------- lost cues

  function Announcements(n: nat): seq<Cues.Message> { seq(n, i => Cues.Announce("bell")) }

  lemma {:induction false} AllAnnouncedOnce(n: nat)
    ensures |Cues.Announced(Announcements(n))| == n
  {
    if n > 0 {
      AllAnnouncedOnce(n - 1);
      assert Announcements(n)[..n - 1] == Announcements(n - 1);
    }
  }

  /** Sixty-five cues between two drains are one too many, and a reset drops the cue before it. */
  lemma CuesAreLost(l: Cues.CueLog, watermark: nat)
    requires Cues.Numbered(l) && Cues.Drained(l, watermark)
    ensures
      var batch := Announcements(65);
      Cues.Fresh(Cues.ReceiveAll(l, batch).cues, watermark) != Cues.Announced(batch)
    ensures
      var batch := [Cues.Announce("bell"), Cues.Reset];
      Cues.Announced(batch) == ["bell"] && Cues.Fresh(Cues.ReceiveAll(l, batch).cues, watermark) == []
  {
    AllAnnouncedOnce(65);
    Cues.DeliveredIffFits(l, watermark, Announcements(65));
    var batch := [Cues.Announce("bell"), Cues.Reset];
    assert batch[..1] == [Cues.Announce("bell")] && batch[..1][..0] == [];
  }
}
