/**
 The session around the engine: which steps are written to the store, what the store
 holds while a game runs, and what a reboot makes of it.

 The store is one optional active snapshot and a map of results by game ID. Whether a
 write succeeds is an input of each step, and what a boot meets is an input of the boot.
 */
module Sessions {
  import opened GameTypes
  import opened Roster
  import opened Ballots
  import opened Rules
  import opened Invariants
  import opened Runs
  import Dealing
  import EngineImpl

  datatype GameResult = GameResult(winner: Option<Team>, reason: EndReason, roster: seq<Player>)

  datatype Store = Store(active: Option<State>, results: map<string, GameResult>)

  /** Which of a step's writes succeed. */
  datatype Writes = Writes(snapshot: bool, result: bool)

  /** What a boot meets: whether the store can be read, set aside if broken, and written. */
  datatype Boot = Boot(loads: bool, archives: bool, result: bool)

  const CLEAN_BOOT := Boot(true, true, true)

  /** Messages of the session itself. */
  datatype Notice = Restored | PersistFailed

  /** What a dispatch hands to every subscriber. */
  datatype Output = System(notice: Notice) | Sent(envelope: Envelope) | Refused(code: ErrorCode)

  /** The value of a session: the engine's state, whether a game is on, the store and the notices to come. */
  datatype Session = Session(engine: State, started: bool, store: Store, queue: seq<Notice>)

  // ---------------------------------------------------------------- what a step writes

  /** Events after which the session saves a snapshot. */
  predicate IsTrigger(e: Event) {
    e.PhaseChanged? || e.DeathAnnounced? || e.Eliminated? || e.GameEnded? || e.RepresentativeReassigned?
  }

  ghost predicate HasTrigger(es: seq<Envelope>) { exists i :: 0 <= i < |es| && IsTrigger(es[i].event) }

  /** The position of the first GameEnded, or the length of the list. */
  function EndIndex(es: seq<Envelope>): (i: nat)
    ensures i <= |es|
    ensures i < |es| ==> es[i].event.GameEnded?
    ensures forall j :: 0 <= j < i ==> !es[j].event.GameEnded?
  {
    if es == [] then 0 else if es[0].event.GameEnded? then 0 else 1 + EndIndex(es[1..])
  }

  /** Saves the snapshot handed back by the engine, then files the result of an ended game. */
  ghost function Persisted(x: Session, reply: State, es: seq<Envelope>, w: Writes): Session {
    var saved := if HasTrigger(es) && w.snapshot then x.store.(active := Some(reply)) else x.store;
    if EndIndex(es) == |es| then x.(store := saved, queue := [])
    else if w.result then
      var e := es[EndIndex(es)].event;
      Session(x.engine, false,
              Store(None, saved.results[x.engine.gameId := GameResult(e.outcome, e.reason, e.roster)]), [])
    else x.(store := saved, queue := [PersistFailed])
  }

  /** The notices waiting, the events in order, and a report of a failed snapshot. */
  ghost function Dispatched(queue: seq<Notice>, es: seq<Envelope>, w: Writes): seq<Output> {
    seq(|queue|, i requires 0 <= i < |queue| => System(queue[i]))
    + seq(|es|, i requires 0 <= i < |es| => Sent(es[i]))
    + if HasTrigger(es) && !w.snapshot then [System(PersistFailed)] else []
  }

  /** The events among the outputs, in order. */
  function SentIn(outs: seq<Output>): seq<Envelope> {
    if outs == [] then []
    else
      var front, out := SentIn(outs[..|outs| - 1]), outs[|outs| - 1];
      if out.Sent? then front + [out.envelope] else front
  }

  function NoticesIn(outs: seq<Output>): seq<Notice> {
    if outs == [] then []
    else
      var front, out := NoticesIn(outs[..|outs| - 1]), outs[|outs| - 1];
      if out.System? then front + [out.notice] else front
  }

  lemma {:induction false} OutputsConcat(a: seq<Output>, b: seq<Output>)
    ensures SentIn(a + b) == SentIn(a) + SentIn(b) && NoticesIn(a + b) == NoticesIn(a) + NoticesIn(b)
  {
    if b == [] {
      assert a + b == a;
    } else {
      OutputsConcat(a, b[..|b| - 1]);
      assert (a + b)[..|a + b| - 1] == a + b[..|b| - 1];
    }
  }

  lemma {:induction false} AllSent(es: seq<Envelope>)
    ensures
      var outs := seq(|es|, i requires 0 <= i < |es| => Sent(es[i]));
      SentIn(outs) == es && NoticesIn(outs) == []
  {
    if es != [] {
      var front := es[..|es| - 1];
      AllSent(front);
      assert seq(|es|, i requires 0 <= i < |es| => Sent(es[i]))[..|es| - 1]
          == seq(|front|, i requires 0 <= i < |front| => Sent(front[i]));
    }
  }

  lemma {:induction false} AllSystem(ns: seq<Notice>)
    ensures
      var outs := seq(|ns|, i requires 0 <= i < |ns| => System(ns[i]));
      SentIn(outs) == [] && NoticesIn(outs) == ns
  {
    if ns != [] {
      var front := ns[..|ns| - 1];
      AllSystem(front);
      assert seq(|ns|, i requires 0 <= i < |ns| => System(ns[i]))[..|ns| - 1]
          == seq(|front|, i requires 0 <= i < |front| => System(front[i]));
    }
  }

  /** A dispatch hands over every event once and in order, every waiting notice, and a report of a failed snapshot. */
  lemma DispatchedOnce(queue: seq<Notice>, es: seq<Envelope>, w: Writes)
    ensures SentIn(Dispatched(queue, es, w)) == es
    ensures NoticesIn(Dispatched(queue, es, w)) == queue + if HasTrigger(es) && !w.snapshot then [PersistFailed] else []
  {
    hide SentIn, NoticesIn, HasTrigger;
    var first := seq(|queue|, i requires 0 <= i < |queue| => System(queue[i]));
    var second := seq(|es|, i requires 0 <= i < |es| => Sent(es[i]));
    var failures := if HasTrigger(es) && !w.snapshot then [PersistFailed] else [];
    var third := seq(|failures|, i requires 0 <= i < |failures| => System(failures[i]));
    assert Dispatched(queue, es, w) == first + second + third;
    OutputsConcat(first + second, third);
    OutputsConcat(first, second);
    AllSystem(queue);
    AllSent(es);
    AllSystem(failures);
  }

  /** One step of a running session: an action or a tick, with the outcome of its writes. */
  ghost function SessionStep(x: Session, st: Step, w: Writes): Session
    requires x.started ==> Callable(x.engine, st)
  {
    if !x.started then x
    else
      var o := Exec(x.engine, st);
      if o.error.Some? || (st.Clock? && o.events == []) then x.(engine := o.next)
      else Persisted(x.(engine := o.next), o.reply, o.events, w)
  }

  predicate IsActivePhase(p: Phase) { !p.Lobby? && !p.End? && !p.NoPhase? }

  function ResultOf(s: State): GameResult {
    GameResult(s.winner, if s.endReason.Some? then s.endReason.value else HostForceEnd, s.players)
  }

  function Closed(x: Session, w: Writes): Session {
    if x.started && w.snapshot then x.(store := x.store.(active := Some(x.engine))) else x
  }

  /** The store cannot be read, or holds a state that the engine refuses. */
  predicate Broken(store: Store, boot: Boot) {
    !boot.loads || (store.active.Some? && store.active.value.phase.NoPhase?)
  }

  /**
   A reboot: restore the active snapshot, and file the result of one that had already
   ended. A broken store is set aside, results and all.
   */
  function Rebooted(store: Store, boot: Boot): Session {
    if Broken(store, boot) then
      Session(ZERO_STATE, false, if boot.archives then Store(None, map[]) else store, [])
    else if store.active.None? then Session(ZERO_STATE, false, store, [])
    else
      var s := store.active.value;
      if s.phase.End? then
        var filed := Store(None, store.results[s.gameId := ResultOf(s)]);
        Session(s, false, if boot.result then filed else store, [Restored])
      else Session(s, IsActivePhase(s.phase), store, [Restored])
  }

  // ---------------------------------------------------------------- the session object


  class SessionManager {
    const engine: EngineImpl.Engine
    var started: bool
    var active: Option<State>
    var results: map<string, GameResult>
    var systemMsg: seq<Notice>

    /** The session's value; the engine is a separate object it owns. */
    ghost function Value(): Session
      reads this, engine
    {
      Session(engine.state, started, Store(active, results), systemMsg)
    }

    method ShouldPersist(es: seq<Envelope>) returns (r: bool)
      ensures r <==> HasTrigger(es)
    {
      r := false;
      for i := 0 to |es|
        invariant !r && forall j :: 0 <= j < i ==> !IsTrigger(es[j].event)
      {
        match es[i].event {
          case PhaseChanged(_, _, _) => return true;
          case DeathAnnounced(_) => return true;
          case Eliminated(_, _) => return true;
          case GameEnded(_, _, _) => return true;
          case RepresentativeReassigned(_, _) => return true;
          case _ =>
        }
      }
    }

    method FindGameEnded(es: seq<Envelope>) returns (i: nat)
      ensures i == EndIndex(es)
    {
      i := 0;
      while i < |es|
        invariant i <= |es|
        invariant forall j :: 0 <= j < i ==> !es[j].event.GameEnded?
      {
        if es[i].event.GameEnded? {
          assert EndIndex(es) >= i;
          return;
        }
        i := i + 1;
      }
    }

    /** The notices that were queued, then the events. */
    method Collect(es: seq<Envelope>) returns (outs: seq<Output>)
      modifies this`systemMsg
      ensures systemMsg == []
      ensures outs == seq(|old(systemMsg)|, i requires 0 <= i < |old(systemMsg)| => System(old(systemMsg)[i]))
                      + seq(|es|, i requires 0 <= i < |es| => Sent(es[i]))
    {
      outs := [];
      for i := 0 to |systemMsg|
        invariant systemMsg == old(systemMsg)
        invariant |outs| == i && forall j :: 0 <= j < i ==> outs[j] == System(systemMsg[j])
      {
        outs := outs + [System(systemMsg[i])];
      }
      ghost var n := |outs|;
      systemMsg := [];
      for i := 0 to |es|
        invariant systemMsg == []
        invariant |outs| == n + i && forall j :: 0 <= j < n ==> outs[j] == System(old(systemMsg)[j])
        invariant forall j :: 0 <= j < i ==> outs[n + j] == Sent(es[j])
      {
        outs := outs + [Sent(es[i])];
      }
    }

    method PersistAndDispatch(reply: State, es: seq<Envelope>, w: Writes) returns (outs: seq<Output>)
      modifies this
      ensures Value() == Persisted(old(Value()), reply, es, w)
      ensures engine.state == old(engine.state)
      ensures outs == Dispatched(old(systemMsg), es, w)
    {
      outs := Collect(es);
      var save := ShouldPersist(es);
      if save {
        if w.snapshot {
          active := Some(reply);
        } else {
          outs := outs + [System(PersistFailed)];
        }
      }
      var i := FindGameEnded(es);
      if i < |es| {
        var e := es[i].event;
        if w.result {
          results := results[engine.state.gameId := GameResult(e.outcome, e.reason, e.roster)];
          active := None;
          started := false;
        } else {
          systemMsg := systemMsg + [PersistFailed];
        }
      }
    }

    method SubmitAction(a: Action, env: Env, w: Writes) returns (outs: seq<Output>, error: Option<ErrorCode>)
      requires started ==> Acceptable(engine.state, a)
      modifies this, engine
      ensures Value() == SessionStep(old(Value()), Submit(a, env), w)
      ensures error == if old(started) then Apply(old(engine.state), a, env).error else Some(WrongPhase)
      ensures outs == if !old(started) then [] else if error.Some? then [Refused(error.value)]
                      else Dispatched(old(systemMsg), Apply(old(engine.state), a, env).events, w)
    {
      if !started {
        return [], Some(WrongPhase);
      }
      ghost var x := Value();
      var reply, events;
      reply, events, error := engine.Apply(a, env);
      assert Outcome(engine.state, reply, events, error) == Exec(x.engine, Submit(a, env));
      if error.Some? {
        return [Refused(error.value)], error;
      }
      outs := PersistAndDispatch(reply, events, w);
    }

    /** A tick that fails or emits nothing is not dispatched, so queued notices wait. */
    method Tick(now: Time, env: Env, w: Writes) returns (outs: seq<Output>)
      requires started ==> Tickable(engine.state, now)
      modifies this, engine
      ensures Value() == SessionStep(old(Value()), Clock(now, env), w)
      ensures outs == if !old(started) then []
                      else
                        var o := Rules.Tick(old(engine.state), now, env);
                        if o.error.Some? || o.events == [] then [] else Dispatched(old(systemMsg), o.events, w)
    {
      outs := [];
      if !started {
        return;
      }
      ghost var x := Value();
      var reply, events, error := engine.Tick(now, env);
      assert Outcome(engine.state, reply, events, error) == Exec(x.engine, Clock(now, env));
      if error.Some? || |events| == 0 {
        return;
      }
      outs := PersistAndDispatch(reply, events, w);
    }

    /** An orderly shutdown saves a running game as it is. */
    method Close(w: Writes)
      modifies this`active
      ensures Value() == Closed(old(Value()), w)
    {
      if started && w.snapshot {
        active := Some(engine.state);
      }
    }

    /** A session over what a store holds, not booted yet. */
    constructor (store: Store)
      ensures Value() == Session(ZERO_STATE, false, store, [])
      ensures fresh(engine)
    {
      engine := new EngineImpl.Engine();
      active, results := store.active, store.results;
      started, systemMsg := false, [];
    }

    /** Sets a broken store aside; the session starts empty, or not at all. */
    method Archive(boot: Boot) returns (failed: bool)
      modifies this`active, this`results
      ensures failed == !boot.archives
      ensures Store(active, results) == if failed then old(Store(active, results)) else Store(None, map[])
    {
      if boot.archives {
        active, results := None, map[];
      }
      return !boot.archives;
    }

    /** Takes up the active snapshot, if any; fails only if a broken store cannot be set aside. */
    method BootRestore(boot: Boot) returns (failed: bool)
      requires engine.state == ZERO_STATE && !started && systemMsg == []
      modifies this, engine
      ensures Value() == Rebooted(old(Store(active, results)), boot)
      ensures failed <==> Broken(old(Store(active, results)), boot) && !boot.archives
    {
      if !boot.loads {
        failed := Archive(boot);
        return;
      }
      if active.None? {
        return false;
      }
      var s := active.value;
      var error := engine.Restore(s);
      if error.Some? {
        failed := Archive(boot);
        return;
      }
      started := IsActivePhase(s.phase);
      if s.phase.End? {
        if boot.result {
          results := results[s.gameId := ResultOf(s)];
          active := None;
        }
        started := false;
      }
      systemMsg := systemMsg + [Restored];
      return false;
    }
  }

  // ---------------------------------------------------------------- the store covers progress

  function VerdictOf(s: State): Option<Verdict> {
    if s.pendingEnd.Some? && s.pendingEnd.value.winner.Some?
    then Some(Verdict(s.pendingEnd.value.reason, s.pendingEnd.value.winner.value)) else None
  }

  /**
   Agreement on all progress: phase, day, players, representative, pending verdict, result,
   vote round and candidates, and everything fixed at the start. What is left open is what
   a crash may lose: the timers, the pause, the speaker, the night's submissions and its
   step, the police history, the ballots and the voice switch.
   */
  predicate Agrees(a: State, b: State) {
    && a.phase == b.phase && a.day == b.day && a.players == b.players && a.representative == b.representative
    && a.voteRound == b.voteRound && a.candidates == b.candidates
    && a.winner == b.winner && a.endReason == b.endReason
    && a.gameId == b.gameId && a.hostId == b.hostId && a.startedAt == b.startedAt
    && a.settings.(voiceOn := b.settings.voiceOn) == b.settings
    && VerdictOf(a) == VerdictOf(b) && (a.pendingEnd.Some? <==> b.pendingEnd.Some?)
  }

  lemma TriggerAt(es: seq<Envelope>, i: nat)
    requires i < |es| && IsTrigger(es[i].event)
    ensures HasTrigger(es)
  {
  }

  lemma TallyTriggers(s: State, env: Env)
    requires ProperIds(s.players)
    ensures HasTrigger(Tally(s, env).events)
  {
    hide Top, Counts, Bury, ScheduleEnd, EnterNight, HasTrigger;
    var top := Top(s.players, Counts(s.votes));
    EnterNightTriggers(s, env.now);
    if |top| == 1 {
      TopIsSeated(s.players, s.votes);
    }
    TriggerAt(Tally(s, env).events, 1);
  }

  lemma EnterNightTriggers(s: State, now: Time)
    ensures EnterNight(s, now).events != [] && IsTrigger(EnterNight(s, now).events[0].event)
  {
  }

  /** A call owes the store a trigger unless it leaves all progress as it was. */
  ghost predicate Reported(s: State, o: Outcome) { HasTrigger(o.events) || Agrees(s, o.next) }

  lemma RejectionReported(s: State)
    ensures forall code :: Reported(s, Rejected(s, code))
  {
  }

  lemma VoteReported(s: State, sender: PlayerId, target: PlayerId, env: Env)
    requires ProperIds(s.players)
    ensures Reported(s, CastVote(s, sender, target, env))
  {
    hide Tally, HasTrigger, ProperIds, Live, BallotError;
    TallyTriggers(s.(votes := s.votes[sender := target]), env);
  }

  lemma ResolutionReported(s: State, env: Env)
    ensures Reported(s, ResolveNight(s, env))
  {
    hide Bury, ScheduleEnd, Has, HasTrigger;
    if ResolveNight(s, env).error.None? {
      TriggerAt(ResolveNight(s, env).events, 0);
    }
  }

  lemma IntroReported(s: State, id: PlayerId, env: Env)
    requires Indexable(s)
    ensures Reported(s, Advance(s, id, env)) && Reported(s, FinishSelf(s, id, env))
  {
    hide NextSpeaker, Reported;
    RejectionReported(s);
    if s.phase.Intro? {
      SpeakerReported(s, env.now);
    }
  }

  lemma SpeakerReported(s: State, now: Time)
    requires -1 <= s.speakerIdx
    ensures Reported(s, NextSpeaker(s, now))
  {
    hide HasTrigger;
    if s.speakerIdx >= |s.players| - 1 {
      TriggerAt(NextSpeaker(s, now).events, 0);
    }
  }

  lemma SubmissionAgrees(s: State, x: PlayerId, y: PlayerId)
    ensures Agrees(s, SubmitKillRule(s, x, y).next) && Agrees(s, SubmitHealRule(s, x, y).next)
    ensures Agrees(s, SubmitCheckRule(s, x, y).next)
  {
    hide RoleError, LifeErrors, RoleOf;
  }

  lemma VoiceAgrees(s: State, host: PlayerId, on: bool)
    ensures Agrees(s, Voice(s, host, on).next)
  {
  }

  lemma PauseAgrees(s: State, host: PlayerId, env: Env)
    ensures Agrees(s, Pause(s, host, env).next)
  {
  }

  lemma ResumeAgrees(s: State, host: PlayerId, env: Env)
    ensures Agrees(s, Resume(s, host, env).next)
  {
  }

  lemma HostReported(s: State, host: PlayerId, env: Env)
    ensures Reported(s, EndDiscussionRule(s, host, env)) && Reported(s, ForceEnd(s, host))
  {
    hide HasTrigger;
    if s.phase.Day? && host == s.hostId {
      TriggerAt(EndDiscussionRule(s, host, env).events, 0);
    }
    if !s.phase.End? && host == s.hostId {
      TriggerAt(ForceEnd(s, host).events, 0);
    }
  }

  lemma ActionReported(s: State, a: Action, env: Env)
    requires Indexable(s) && !s.phase.Lobby? && ProperIds(s.players)
    ensures Reported(s, Apply(s, a, env))
  {
    hide HasTrigger, Agrees, ProperIds, SubmitKillRule, SubmitHealRule, SubmitCheckRule, CastVote;
    hide Pause, Resume, Voice, ResolveNight, Advance, FinishSelf, EndDiscussionRule, ForceEnd, StartFromLobby;
    RejectionReported(s);
    match a {
      case StartGame(host, o) => NoSecondStart(s, host, o, env);
      case AdvanceIntro(host) => IntroReported(s, host, env);
      case EndSelfIntro(sender) => IntroReported(s, sender, env);
      case SubmitKill(x, y) => SubmissionAgrees(s, x, y);
      case SubmitHeal(x, y) => SubmissionAgrees(s, x, y);
      case SubmitCheck(x, y) => SubmissionAgrees(s, x, y);
      case EndNightEarly(_) => ResolutionReported(s, env);
      case SubmitVote(x, y) => VoteReported(s, x, y, env);
      case EndDiscussionEarly(host) => HostReported(s, host, env);
      case ForceEndGame(host) => HostReported(s, host, env);
      case ToggleVoice(host, on) => VoiceAgrees(s, host, on);
      case PauseGame(host) => PauseAgrees(s, host, env);
      case ResumeGame(host) => ResumeAgrees(s, host, env);
    }
  }

  lemma NightTickReported(s: State, now: Time, env: Env)
    requires InStep(s)
    ensures Reported(s, TickNight(s, now, env))
  {
    hide HasTrigger, ResolveNight, TickNight;
    var pre, step, deadline := NightTickForm(s, now, env);
    var r := ResolveNight(s.(nightStep := NoStep, stepDeadline := ZERO_TIME), env);
    FirstIsTrigger(s.(nightStep := NoStep, stepDeadline := ZERO_TIME), env);
    if r.error.None? {
      TriggerAt(pre + r.events, |pre|);
    }
  }

  lemma FirstIsTrigger(s: State, env: Env)
    ensures
      var r := ResolveNight(s, env);
      if r.error.None? then r.events != [] && IsTrigger(r.events[0].event) else r.next == s
  {
    hide Bury, ScheduleEnd, Has;
  }

  lemma DayTickReported(s: State, now: Time, prev: Time)
    ensures Reported(s, TickDay(s, now, prev))
  {
    hide HasTrigger, Crossed;
    if now >= s.deadline {
      TriggerAt(TickDay(s, now, prev).events, |TickDay(s, now, prev).events| - 1);
    }
  }

  lemma IntroTickReported(s: State, now: Time)
    requires -1 <= s.speakerIdx
    ensures Reported(s, TickIntro(s, now))
  {
    hide HasTrigger, SpeakerEvents, Turns;
    if TickIntro(s, now).next.phase != s.phase {
      TriggerAt(TickIntro(s, now).events, |TickIntro(s, now).events| - 1);
    }
  }

  lemma TickReported(s: State, now: Time, env: Env)
    requires Inv(s)
    ensures Reported(s, Tick(s, now, env))
  {
    hide HasTrigger, People, Records, ProperIds, TickNight, TickDay, TickIntro;
    var s1 := s.(lastTickAt := now);
    if s.pendingEnd.Some? && now >= s.pendingEnd.value.deadline && !s.paused && s.lastTickAt < now {
      TriggerAt(Tick(s, now, env).events, 0);
    }
    match s.phase {
      case Intro => IntroTickReported(s1, now);
      case Day => DayTickReported(s1, now, s.lastTickAt);
      case Night => NightTickReported(s1, now, env);
      case _ =>
    }
  }

  lemma StepTriggers(s: State, st: Step)
    requires Inv(s) && SaneEnv(st.env)
    ensures !HasTrigger(Exec(s, st).events) ==> Agrees(s, Exec(s, st).next)
  {
    hide HasTrigger, Apply, Tick, Inv, ProperIds;
    InvIndexable(s);
    ReachableIds(s);
    match st {
      case Submit(a, env) => ActionReported(s, a, env);
      case Clock(now, env) => TickReported(s, now, env);
    }
  }

  lemma ReachableIds(s: State)
    requires Inv(s)
    ensures ProperIds(s.players)
  {
  }

  /** A pending win of the citizens means that no mafia lives. */
  predicate Earned(s: State) {
    s.pendingEnd.Some? && s.pendingEnd.value.winner == Some(CitizenTeam) ==> LiveMafia(s.players) == 0
  }

  ghost predicate HasFiled(store: Store, s: State) {
    s.gameId in store.results && store.results[s.gameId] == ResultOf(s)
  }

  /** What the session and its store satisfy while every write succeeds. */
  ghost predicate Covered(x: Session) {
    if x.started then
      && Inv(x.engine) && Earned(x.engine) && !x.engine.phase.End?
      && x.store.active.Some? && Inv(x.store.active.value) && Agrees(x.store.active.value, x.engine)
    else
      x.store.active.None? && (x.engine.phase.End? ==> Inv(x.engine) && HasFiled(x.store, x.engine))
  }

  lemma EarnedStays(s: State, t: State)
    requires Inv(s) && Inv(t) && Earned(s) && Follows(s, t)
    ensures Earned(t)
  {
    hide ProperIds, People, Records, PhaseShape;
    FewerMafia(s.players, t.players);
  }

  lemma ReplyIsNextUnlessEnding(s: State, st: Step)
    requires Inv(s) && SaneEnv(st.env) && !(!s.phase.End? && Exec(s, st).next.phase.End?)
    ensures Exec(s, st).reply == Exec(s, st).next
  {
    hide People, Records, ProperIds, TickIntro, TickNight, TickDay, CastVote, ResolveNight, NextSpeaker;
    hide SubmitKillRule, SubmitHealRule, SubmitCheckRule, Voice, Pause, Resume;
    match st {
      case Submit(a, env) => ActionReply(s, a, env);
      case Clock(now, env) =>
        if s.phase.Night? && !s.paused && s.lastTickAt < now {
          ActiveTick(s, now);
          NightReply(s.(lastTickAt := now), now, env);
        } else {
          DayReply(s.(lastTickAt := now), now, s.lastTickAt);
        }
    }
  }

  lemma ActionReply(s: State, a: Action, env: Env)
    requires Acceptable(s, a)
    ensures Apply(s, a, env).reply == Apply(s, a, env).next
  {
    hide People, Records, ProperIds, LifeErrors, RoleError, BallotError, Tally, Bury, RoleOf;
  }

  lemma DayReply(s: State, now: Time, prev: Time)
    requires 0 <= s.speakerIdx
    ensures TickDay(s, now, prev).reply == TickDay(s, now, prev).next
    ensures TickIntro(s, now).reply == TickIntro(s, now).next
  {
    hide Crossed, SpeakerEvents, Turns;
  }

  lemma NightReply(s: State, now: Time, env: Env)
    requires InStep(s)
    ensures TickNight(s, now, env).reply == TickNight(s, now, env).next
  {
    hide TickNight;
    var pre, step, deadline := NightTickForm(s, now, env);
  }

  lemma EndIndexFound(es: seq<Envelope>)
    ensures EndIndex(es) < |es| <==> Select(es, IsGameEnded) != []
    ensures |Select(es, IsGameEnded)| == 1 ==> es[EndIndex(es)].event == Select(es, IsGameEnded)[0]
  {
    var i := EndIndex(es);
    if i == |es| {
      SelectSilent(es, IsGameEnded);
    } else {
      assert es == (es[..i] + [es[i]]) + es[i + 1..];
      SelectConcat(es[..i] + [es[i]], es[i + 1..], IsGameEnded);
      SelectConcat(es[..i], [es[i]], IsGameEnded);
      SelectSilent(es[..i], IsGameEnded);
      SelectOne(es[i], IsGameEnded);
    }
  }

  lemma AgreesThrough(a: State, b: State, c: State)
    requires Agrees(a, b) && Agrees(b, c)
    ensures Agrees(a, c)
  {
  }

  /** One step with successful writes keeps the store covering the game. */
  lemma StepStaysCovered(x: Session, st: Step)
    requires Covered(x) && SaneEnv(st.env)
    ensures Covered(SessionStep(x, st, Writes(true, true)))
  {
    hide Inv, Exec, Select, HasTrigger, Follows, Agrees, Earned;
    if !x.started {
      return;
    }
    InvIndexable(x.engine);
    var o := Exec(x.engine, st);
    StepKeeps(x.engine, st);
    EarnedStays(x.engine, o.next);
    StepAnnounces(x.engine, st);
    StepTriggers(x.engine, st);
    EndIndexFound(o.events);
    SameGame(x.engine, o.next);
    NothingTriggers();
    if o.next.phase.End? {
      EndingIsFiled(x, st);
    } else {
      ReplyIsNextUnlessEnding(x.engine, st);
      SelfAgrees(o.next);
      if !HasTrigger(o.events) {
        AgreesThrough(x.store.active.value, x.engine, o.next);
      }
      ErrorAgrees(x.engine, st);
    }
  }

  lemma NothingTriggers()
    ensures !HasTrigger([])
  {
  }

  lemma SelfAgrees(s: State)
    ensures Agrees(s, s)
  {
  }

  lemma ErrorAgrees(s: State, st: Step)
    requires Inv(s) && SaneEnv(st.env)
    ensures Exec(s, st).error.Some? ==> Exec(s, st).next == s && !HasTrigger(Exec(s, st).events)
  {
    hide Inv, Exec;
    StepKeeps(s, st);
  }

  lemma SameGame(s: State, t: State)
    requires Follows(s, t)
    ensures s.gameId == t.gameId
  {
  }

  lemma EndingIsFiled(x: Session, st: Step)
    requires Inv(x.engine) && !x.engine.phase.End? && x.started && SaneEnv(st.env)
    requires Exec(x.engine, st).next.phase.End?
    ensures Inv(Exec(x.engine, st).next)
    ensures
      var o := Exec(x.engine, st);
      var y := SessionStep(x, st, Writes(true, true));
      !y.started && y.engine == o.next && y.store.active.None? && HasFiled(y.store, o.next)
  {
    hide Exec, Select, HasTrigger, Follows;
    StepKeeps(x.engine, st);
    StepAnnounces(x.engine, st);
    EndIndexFound(Exec(x.engine, st).events);
  }

  /** Starting a game with successful writes files its first snapshot. */
  lemma StartIsCovered(s0: State, gameId: string, host: PlayerId, roster: seq<Player>, o: Options, env: Env,
                       store: Store, queue: seq<Notice>)
    requires ProperIds(roster) && SaneEnv(env) && Start(s0, gameId, host, roster, o, env).error.None?
    ensures
      var r := Start(s0, gameId, host, roster, o, env);
      Covered(Persisted(Session(r.next, true, store, queue), r.reply, r.events, Writes(true, true)))
  {
    hide Inv, Agrees, Start, HasTrigger;
    var r := Start(s0, gameId, host, roster, o, env);
    StartEstablishes(s0, gameId, host, roster, o, env);
    StartIsOpen(s0, gameId, host, roster, o, env);
    SelfAgrees(r.next);
  }

  lemma OpeningTriggers(s: State, a: Dealing.Assignment)
    requires s.players != []
    ensures HasTrigger(Opening(s, a)) && EndIndex(Opening(s, a)) == |Opening(s, a)|
  {
    hide HasTrigger;
    var es := Opening(s, a);
    TriggerAt(es, |es| - 2);
    assert forall i :: 0 <= i < |es| ==> !es[i].event.GameEnded?;
  }

  lemma StartIsOpen(s0: State, gameId: string, host: PlayerId, roster: seq<Player>, o: Options, env: Env)
    requires Start(s0, gameId, host, roster, o, env).error.None?
    ensures
      var r := Start(s0, gameId, host, roster, o, env);
      && r.reply == r.next && r.next.pendingEnd.None?
      && HasTrigger(r.events) && EndIndex(r.events) == |r.events|
  {
    hide Opening, HasTrigger, Dealing.ValidOptions, Dealing.Roles, Dealing.Shuffle, Has;
    var r := Start(s0, gameId, host, roster, o, env);
    OpeningTriggers(r.next, Dealing.Assign(Ids(roster), o, env.deal).value);
  }
}
