/**
 The timers of the intro and the discussion: catch-up of the speaker rotation in
 closed form, and which discussion reminders are announced over a whole day.
 */
module Timers {
  import opened GameTypes
  import opened Roster
  import opened Rules
  import opened Invariants
  import opened Runs

  // ---------------------------------------------------------------- intro

  /** Whole turns of length `per` that fit between `start` and `now`. */
  function FullTurns(start: Time, per: int, now: Time): nat
    requires per > 0
  {
    if now < start then 0 else
      assert (now - start) / per >= 0 by { DivNonNegative(now - start, per); }
      (now - start) / per
  }

  lemma DivNonNegative(e: int, per: int)
    requires e >= 0 && per > 0
    ensures e / per >= 0
  {
  }

  lemma DivStep(e: int, per: int)
    requires per > 0 && e >= per
    ensures e / per == (e - per) / per + 1
  {
    var q, r := (e - per) / per, (e - per) % per;
    assert e == per * (q + 1) + r;
    DivUnique(e, per, q + 1, r);
  }

  lemma DivUnique(e: int, per: int, q: int, r: int)
    requires per > 0 && e == per * q + r && 0 <= r < per
    ensures e / per == q
  {
    var q', r' := e / per, e % per;
    assert per * (q - q') == r' - r;
    if q > q' {
      MulAtLeast(per, q - q');
    } else if q < q' {
      assert per * (q' - q) == r - r';
      MulAtLeast(per, q' - q);
    }
  }

  lemma MulAtLeast(per: int, k: int)
    requires per > 0 && k >= 1
    ensures per * k >= per
  {
  }

  lemma DivCompare(e: int, per: int, k: nat)
    requires per > 0 && e >= 0
    ensures e / per >= k <==> e >= per * k
  {
    var q, r := e / per, e % per;
    assert e == per * q + r;
    if q >= k {
      assert per * q >= per * k;
    } else {
      assert per * (q + 1) <= per * k;
    }
  }

  /** The rotation loop in closed form. */
  lemma {:induction false} TurnsClosedForm(idx: int, start: Time, per: int, now: Time, n: nat)
    requires per > 0 && idx < n
    ensures Turns(idx, start, per, now, n)
         == if n - 1 - idx < FullTurns(start, per, now) then n - 1 - idx else FullTurns(start, per, now)
    decreases n - idx
  {
    if idx < n - 1 {
      if now - start < per {
        if now >= start {
          DivUnique(now - start, per, 0, now - start);
        }
      } else {
        DivStep(now - start, per);
        TurnsClosedForm(idx + 1, start + per, per, now, n);
      }
    }
  }

  lemma LastTurnOver(e: int, per: int, k: nat, f: nat)
    requires per > 0 && e >= 0 && f == e / per
    ensures e - (if k < f then k else f) * per >= per && k <= (if k < f then k else f) <==> e >= per * (k + 1)
  {
    DivCompare(e, per, k + 1);
    if f <= k {
      assert e - f * per == e % per;
    } else {
      assert e - k * per >= per;
    }
  }

  /**
   One intro tick, however late: with `k` the whole turns elapsed, the speaker moves on by
   `k` seats but not past the last one, the start stamp advances by the turns taken, one
   event is emitted per rotation, and DAY begins exactly when everybody's turn is over.
   */
  lemma IntroCatchUp(s: State, now: Time, env: Env)
    requires Inv(s) && s.phase.Intro? && !s.paused && s.lastTickAt < now
    ensures s.settings.introSeconds > 0
    ensures
      var per := Seconds(s.settings.introSeconds);
      var n, i0 := |s.players|, s.speakerIdx;
      var turns := FullTurns(s.speakerStartedAt, per, now);
      var k := if n - 1 - i0 < turns then n - 1 - i0 else turns;
      var o := Tick(s, now, env);
      && o.next.speakerIdx == i0 + k
      && o.next.speakerStartedAt == s.speakerStartedAt + k * per
      && k <= |o.events|
      && (forall j :: 0 <= j < k ==>
            o.events[j] == Pub(SpeakerChanged(s.players[i0 + 1 + j].id, s.settings.introSeconds)))
      && (o.next.phase.Day? <==> now - s.speakerStartedAt >= per * (n - i0))
      && (!o.next.phase.Day? ==> o.next.phase.Intro? && |o.events| == k)
      && (o.next.phase.Day? ==>
            && |o.events| == k + 1
            && o.events[k] == Pub(PhaseChanged(Day, 1, now + Seconds(s.settings.discussionSeconds))))
  {
    hide ProperIds, People, Records, SpeakerEvents, Turns;
    var per := Seconds(s.settings.introSeconds);
    var n, i0 := |s.players|, s.speakerIdx;
    var e := now - s.speakerStartedAt;
    var turns := FullTurns(s.speakerStartedAt, per, now);
    var k := if n - 1 - i0 < turns then n - 1 - i0 else turns;
    TurnsClosedForm(i0, s.speakerStartedAt, per, now, n);
    TurnsBound(i0, s.speakerStartedAt, per, now, n);
    SpeakerEventsLength(s.players, i0, k, s.settings.introSeconds);
    if e >= 0 {
      LastTurnOver(e, per, n - 1 - i0, turns);
    } else {
      MulAtLeast(per, n - i0);
    }
  }

  lemma {:induction false} SpeakerEventsLength(ps: seq<Player>, i: nat, k: nat, secs: int)
    requires k == 0 || i + k < |ps|
    ensures |SpeakerEvents(ps, i, k, secs)| == k
    ensures forall j :: 0 <= j < k ==> SpeakerEvents(ps, i, k, secs)[j] == Pub(SpeakerChanged(ps[i + 1 + j].id, secs))
  {
    if k > 0 {
      SpeakerEventsLength(ps, i, k - 1, secs);
    }
  }

  // ---------------------------------------------------------------- discussion reminders

  predicate IsReminder(e: Event) { e.DiscussionTick? }

  function Reminder(th: int, deadline: Time, prev: Time, now: Time): seq<Event> {
    if prev < deadline - Seconds(th) <= now then [DiscussionTick(th)] else []
  }

  /** The reminders whose instant lies in (prev, now]. */
  function Reminders(deadline: Time, prev: Time, now: Time): seq<Event> {
    Reminder(30, deadline, prev, now) + Reminder(10, deadline, prev, now) + Reminder(0, deadline, prev, now)
  }

  lemma SelectCrossedStep(ths: seq<int>, th: int, deadline: Time, prev: Time, now: Time)
    ensures Select(Crossed(ths + [th], deadline, prev, now), IsReminder)
         == Select(Crossed(ths, deadline, prev, now), IsReminder) + Reminder(th, deadline, prev, now)
  {
    var es := Crossed(ths, deadline, prev, now);
    assert (ths + [th])[..|ths|] == ths;
    if Crosses(th, deadline, prev, now) {
      SelectConcat(es, [Pub(DiscussionTick(th))], IsReminder);
      SelectOne(Pub(DiscussionTick(th)), IsReminder);
    }
  }

  lemma NothingCrossed(deadline: Time, prev: Time, now: Time)
    ensures Select(Crossed([], deadline, prev, now), IsReminder) == []
  {
  }

  lemma SelectCrossed(deadline: Time, prev: Time, now: Time)
    ensures Select(Crossed(THRESHOLDS, deadline, prev, now), IsReminder) == Reminders(deadline, prev, now)
  {
    hide Select, Crossed, Reminder;
    assert [] + [30] == [30] && [30] + [10] == [30, 10] && [30, 10] + [0] == THRESHOLDS;
    NothingCrossed(deadline, prev, now);
    SelectCrossedStep([], 30, deadline, prev, now);
    SelectCrossedStep([30], 10, deadline, prev, now);
    SelectCrossedStep([30, 10], 0, deadline, prev, now);
  }

  lemma RemindersSplit(deadline: Time, a: Time, b: Time, c: Time)
    requires a <= b <= c
    ensures Reminders(deadline, a, b) + Reminders(deadline, b, c) == Reminders(deadline, a, c)
  {
  }

  ghost predicate Descending(es: seq<Event>) {
    && (forall i :: 0 <= i < |es| ==> es[i].DiscussionTick? && es[i].secondsLeft in {30, 10, 0})
    && (forall i, j :: 0 <= i < j < |es| ==> es[i].secondsLeft > es[j].secondsLeft)
  }

  lemma RemindersDescend(deadline: Time, prev: Time, now: Time)
    ensures Descending(Reminders(deadline, prev, now))
    ensures forall i :: 0 <= i < |Reminders(deadline, prev, now)| ==>
      Crosses(Reminders(deadline, prev, now)[i].secondsLeft, deadline, prev, now)
  {
  }

  // ---------------------------------------------------------------- steps of a day

  /** Every state of the run, the first and the last included, is in the discussion. */
  ghost predicate DayThroughout(s: State, steps: seq<Step>)
    requires Inv(s) && Sane(steps)
  {
    After(s, steps).phase.Day? && (steps != [] ==> DayThroughout(s, steps[..|steps| - 1]))
  }

  lemma VoteIsUnreminding(s: State, sender: PlayerId, target: PlayerId, env: Env)
    requires s.phase.Day?
    ensures CastVote(s, sender, target, env) == Rejected(s, WrongPhase)
  {
  }

  /** An action during the discussion touches its clock only by pausing and resuming. */
  lemma DayAction(s: State, a: Action, env: Env)
    requires Inv(s) && s.phase.Day?
    ensures
      var o := Apply(s, a, env);
      && Silent(o.events, IsReminder)
      && (o.next.phase.Day? ==>
            || (&& o.next.deadline == s.deadline && o.next.lastTickAt == s.lastTickAt
                && o.next.paused == s.paused && o.next.pausedAt == s.pausedAt)
            || (a.PauseGame? && !s.paused && o.next == s.(paused := true, pausedAt := env.now))
            || (a.ResumeGame? && s.paused && o.next == Resumed(s, env.now)))
  {
    hide People, Records, ProperIds, RoleOf, IsAlive, Tally, Resumed, ResolveNight;
    if a.SubmitVote? {
      VoteIsUnreminding(s, a.sender, a.target, env);
    }
  }

  /** A tick during the discussion announces the reminders it crosses and keeps the deadline. */
  lemma DayTick(s: State, now: Time, env: Env)
    requires Inv(s) && s.phase.Day?
    ensures
      var o := Tick(s, now, env);
      var on := !s.paused && s.lastTickAt < now && (s.pendingEnd.None? || now < s.pendingEnd.value.deadline);
      && Select(o.events, IsReminder) == (if on then Reminders(s.deadline, s.lastTickAt, now) else [])
      && (o.next.phase.Day? ==> o.next == if on then s.(lastTickAt := now) else s)
      && (o.next.phase.Vote? ==> on && s.deadline <= now)
      && (on ==> !o.next.phase.End?)
  {
    hide People, Records, ProperIds, THRESHOLDS;
    var o := Tick(s, now, env);
    if s.paused || now <= s.lastTickAt {
    } else if s.pendingEnd.Some? && now >= s.pendingEnd.value.deadline {
      SelectOne(o.events[0], IsReminder);
    } else {
      var ticks := Crossed(THRESHOLDS, s.deadline, s.lastTickAt, now);
      SelectCrossed(s.deadline, s.lastTickAt, now);
      if now >= s.deadline {
        var e := Pub(PhaseChanged(Vote, s.day, ZERO_TIME));
        assert o.events == ticks + [e];
        SelectConcat(ticks, [e], IsReminder);
        SelectOne(e, IsReminder);
      }
    }
  }

  // ---------------------------------------------------------------- an unpaused discussion

  lemma UnpausedDayStep(s: State, st: Step)
    requires Inv(s) && s.phase.Day? && !s.paused && SaneEnv(st.env) && !(st.Submit? && st.action.PauseGame?)
    requires !Exec(s, st).next.phase.End?
    ensures
      var o := Exec(s, st);
      var m := if st.Clock? && st.now > s.lastTickAt then st.now else s.lastTickAt;
      && Select(o.events, IsReminder) == Reminders(s.deadline, s.lastTickAt, m)
      && (o.next.phase.Day? ==> o.next.deadline == s.deadline && o.next.lastTickAt == m && !o.next.paused)
  {
    hide Inv, Apply, Tick;
    match st {
      case Submit(a, env) =>
        DayAction(s, a, env);
        SelectSilent(Apply(s, a, env).events, IsReminder);
      case Clock(now, env) =>
        DayTick(s, now, env);
        LateFiringEnds(s, now, env);
    }
  }

  lemma LateFiringEnds(s: State, now: Time, env: Env)
    requires Inv(s)
    ensures !s.paused && s.lastTickAt < now && s.pendingEnd.Some? && s.pendingEnd.value.deadline <= now ==>
      Tick(s, now, env).next.phase.End?
  {
  }

  /**
   In a discussion without pauses, the reminders announced are exactly those whose instant
   lies after the first state's last tick and not after the run's latest tick. So each
   comes exactly once if the discussion starts before its instant and ticks past it.
   */
  lemma {:induction false} UnpausedReminders(s: State, steps: seq<Step>)
    requires Inv(s) && Sane(steps) && s.phase.Day? && !s.paused
    requires forall i :: 0 <= i < |steps| ==> !(steps[i].Submit? && steps[i].action.PauseGame?)
    requires steps != [] ==> DayThroughout(s, steps[..|steps| - 1])
    requires !After(s, steps).phase.End?
    ensures Select(Trace(s, steps), IsReminder) == Reminders(s.deadline, s.lastTickAt, Latest(s.lastTickAt, steps))
    ensures After(s, steps).phase.Day? ==>
      && After(s, steps).deadline == s.deadline && !After(s, steps).paused
      && After(s, steps).lastTickAt == Latest(s.lastTickAt, steps)
  {
    hide Inv, Exec, Reminders;
    if steps == [] {
      NoReminders(s.deadline, s.lastTickAt);
    } else {
      var front, st := steps[..|steps| - 1], steps[|steps| - 1];
      var m := After(s, front);
      UnpausedReminders(s, front);
      UnpausedDayStep(m, st);
      SelectConcat(Trace(s, front), Exec(m, st).events, IsReminder);
      LatestGrows(s.lastTickAt, front);
      RemindersSplit(s.deadline, s.lastTickAt, m.lastTickAt, Latest(s.lastTickAt, steps));
    }
  }

  lemma NoReminders(deadline: Time, now: Time)
    ensures Reminders(deadline, now, now) == []
  {
  }

  // ---------------------------------------------------------------- any discussion

  /** The clock reading after a run that started at `c`. */
  function Reading(c: Time, steps: seq<Step>): Time {
    if steps == [] then c else steps[|steps| - 1].env.later
  }

  /** The clock never runs backwards and is never behind a tick. */
  predicate InOrder(c: Time, steps: seq<Step>) {
    steps != [] ==>
      var st := steps[|steps| - 1];
      && InOrder(c, steps[..|steps| - 1])
      && Reading(c, steps[..|steps| - 1]) <= st.env.now
      && (st.Clock? ==> st.now <= st.env.now)
  }

  predicate ClockCovers(s: State, c: Time) { s.lastTickAt <= c && (s.paused ==> s.pausedAt <= c) }

  /** Every announced reminder's instant is past, also once a pause has shifted the deadline. */
  ghost predicate Spent(es: seq<Event>, s: State) {
    forall i :: 0 <= i < |es| ==>
      && es[i].DiscussionTick?
      && s.deadline - Seconds(es[i].secondsLeft) <= s.lastTickAt
      && (s.paused ==> s.deadline - Seconds(es[i].secondsLeft) <= s.pausedAt)
  }

  lemma DescendFurther(es: seq<Event>, s: State, now: Time)
    requires Descending(es) && Spent(es, s)
    ensures Descending(es + Reminders(s.deadline, s.lastTickAt, now))
    ensures !s.paused && s.lastTickAt <= now ==>
      Spent(es + Reminders(s.deadline, s.lastTickAt, now), s.(lastTickAt := now))
  {
    hide Reminders;
    var more := Reminders(s.deadline, s.lastTickAt, now);
    RemindersDescend(s.deadline, s.lastTickAt, now);
    forall i, j | 0 <= i < |es| && 0 <= j < |more| ensures es[i].secondsLeft > more[j].secondsLeft {
      assert Crosses(more[j].secondsLeft, s.deadline, s.lastTickAt, now);
    }
  }

  lemma SpentAfterResume(es: seq<Event>, s: State, now: Time)
    requires Spent(es, s) && s.phase.Day? && s.paused && s.pausedAt <= now
    ensures Spent(es, Resumed(s, now))
  {
  }

  lemma DayStep(s: State, st: Step, es: seq<Event>, c: Time)
    requires Inv(s) && s.phase.Day? && SaneEnv(st.env) && Descending(es) && Spent(es, s)
    requires ClockCovers(s, c) && c <= st.env.now && (st.Clock? ==> st.now <= st.env.now)
    ensures
      var o := Exec(s, st);
      && Descending(es + Select(o.events, IsReminder))
      && (o.next.phase.Day? ==> Spent(es + Select(o.events, IsReminder), o.next) && ClockCovers(o.next, st.env.later))
  {
    hide Inv, Apply, Tick, Descending, Reminders;
    assert es + [] == es;
    match st {
      case Submit(a, env) =>
        DayAction(s, a, env);
        SelectSilent(Apply(s, a, env).events, IsReminder);
        if a.ResumeGame? && s.paused {
          SpentAfterResume(es, s, env.now);
        }
      case Clock(now, env) =>
        DayTick(s, now, env);
        DescendFurther(es, s, now);
    }
  }

  /**
   Over one discussion, however it is paused and resumed, the reminders come in strictly
   decreasing order, so each of 30, 10 and 0 is announced at most once.
   */
  lemma {:induction false} RemindersOncePerDay(s: State, steps: seq<Step>, c: Time)
    requires Inv(s) && Sane(steps) && s.phase.Day? && ClockCovers(s, c) && InOrder(c, steps)
    requires steps != [] ==> DayThroughout(s, steps[..|steps| - 1])
    ensures Descending(Select(Trace(s, steps), IsReminder))
    ensures After(s, steps).phase.Day? ==>
      Spent(Select(Trace(s, steps), IsReminder), After(s, steps)) && ClockCovers(After(s, steps), Reading(c, steps))
  {
    hide Inv, Exec, Descending, Spent, ClockCovers;
    if steps == [] {
      NothingSpent(s);
    } else {
      var front, st := steps[..|steps| - 1], steps[|steps| - 1];
      var m := After(s, front);
      RemindersOncePerDay(s, front, c);
      DayStep(m, st, Select(Trace(s, front), IsReminder), Reading(c, front));
      SelectConcat(Trace(s, front), Exec(m, st).events, IsReminder);
    }
  }

  lemma NothingSpent(s: State)
    ensures Descending([]) && Spent([], s)
  {
  }
}
