/**
 The audio cue log of the client. Announcements append numbered cues to a log of at
 most 64 entries; an effect drains the log past a watermark. Several announcements may
 arrive between two drains.
 */
module Cues {

  const LOG_CAP: nat := 64

  datatype Cue = Cue(audioId: string, number: nat)

  /** The log and the number of the last cue ever appended. */
  datatype CueLog = CueLog(cues: seq<Cue>, last: nat)

  /** What reaches the reducer: an announcement, a reset (logout or room closed), or anything else. */
  datatype Message = Announce(audioId: string) | Reset | Other

  function Receive(l: CueLog, m: Message): CueLog {
    match m
    case Announce(id) =>
      if id == "" then l
      else
        var entry := Cue(id, l.last + 1);
        CueLog(if |l.cues| >= LOG_CAP then l.cues[|l.cues| - LOG_CAP + 1..] + [entry] else l.cues + [entry], l.last + 1)
    case Reset => CueLog([], l.last)
    case Other => l
  }

  function ReceiveAll(l: CueLog, batch: seq<Message>): CueLog {
    if batch == [] then l else Receive(ReceiveAll(l, batch[..|batch| - 1]), batch[|batch| - 1])
  }

  /** The log holds at most 64 cues, numbered consecutively up to the last number given. */
  predicate Numbered(l: CueLog) {
    |l.cues| <= 64 && |l.cues| <= l.last
    && forall i :: 0 <= i < |l.cues| ==> l.cues[i].number == l.last - |l.cues| + 1 + i
  }

  lemma {:induction false} LogStaysNumbered(l: CueLog, batch: seq<Message>)
    requires Numbered(l)
    ensures Numbered(ReceiveAll(l, batch)) && l.last <= ReceiveAll(l, batch).last
  {
    if batch != [] {
      LogStaysNumbered(l, batch[..|batch| - 1]);
    }
  }

  // ---------------------------------------------------------------- the drain

  /** The audio of the cues past the watermark. */
  function Fresh(cues: seq<Cue>, watermark: nat): seq<string> {
    if cues == [] then []
    else
      var front, cue := Fresh(cues[..|cues| - 1], watermark), cues[|cues| - 1];
      if cue.number <= watermark then front else front + [cue.audioId]
  }

  /** The effect that plays new cues; it remembers the last number it has handed over. */
  class Drain {
    var watermark: nat

    constructor ()
      ensures watermark == 0
    {
      watermark := 0;
    }

    method Run(l: CueLog) returns (played: seq<string>)
      requires Numbered(l)
      modifies this
      ensures played == Fresh(l.cues, old(watermark))
      ensures watermark == if l.cues != [] && old(watermark) < l.last then l.last else old(watermark)
    {
      played := [];
      if |l.cues| == 0 {
        return;
      }
      var advanced := watermark;
      for i := 0 to |l.cues|
        invariant played == Fresh(l.cues[..i], watermark)
        invariant advanced == if i > 0 && watermark < l.cues[i - 1].number then l.cues[i - 1].number else watermark
        invariant watermark == old(watermark)
      {
        assert l.cues[..i + 1][..i] == l.cues[..i];
        if l.cues[i].number > watermark {
          played := played + [l.cues[i].audioId];
          advanced := l.cues[i].number;
        }
      }
      assert l.cues[..|l.cues|] == l.cues;
      watermark := advanced;
    }
  }

  // ---------------------------------------------------------------- exactly once

  /** Every cue announced in a batch, in order. */
  function Announced(batch: seq<Message>): seq<string> {
    if batch == [] then []
    else
      var front, m := Announced(batch[..|batch| - 1]), batch[|batch| - 1];
      if m.Announce? && m.audioId != "" then front + [m.audioId] else front
  }

  /** Those announced after the last reset of the batch. */
  function SinceReset(batch: seq<Message>): seq<string> {
    if batch == [] then []
    else
      var front, m := SinceReset(batch[..|batch| - 1]), batch[|batch| - 1];
      if m.Reset? then [] else if m.Announce? && m.audioId != "" then front + [m.audioId] else front
  }

  predicate HasReset(batch: seq<Message>) { Reset in batch }

  function LastOnes(s: seq<string>, n: nat): seq<string> { if |s| <= n then s else s[|s| - n..] }

  function Audio(cues: seq<Cue>): (r: seq<string>)
    ensures |r| == |cues| && forall i :: 0 <= i < |cues| ==> r[i] == cues[i].audioId
  {
    seq(|cues|, i requires 0 <= i < |cues| => cues[i].audioId)
  }

  /** What the log holds after a batch. */
  lemma {:induction false} LogContents(l: CueLog, batch: seq<Message>)
    requires Numbered(l)
    ensures
      var old' := if HasReset(batch) then [] else Audio(l.cues);
      var l' := ReceiveAll(l, batch);
      && Audio(l'.cues) == LastOnes(old' + SinceReset(batch), LOG_CAP)
      && l'.last == l.last + |Announced(batch)|
      && |SinceReset(batch)| <= |Announced(batch)|
      && (!HasReset(batch) ==> SinceReset(batch) == Announced(batch))
  {
    if batch != [] {
      var front, m := batch[..|batch| - 1], batch[|batch| - 1];
      LogContents(l, front);
      LogStaysNumbered(l, front);
      assert HasReset(batch) <==> HasReset(front) || m.Reset?;
      if m.Announce? && m.audioId != "" {
        var before := if HasReset(front) then [] else Audio(l.cues);
        AppendToLog(ReceiveAll(l, front), before + SinceReset(front), m.audioId);
        assert before + SinceReset(batch) == (before + SinceReset(front)) + [m.audioId];
      }
    }
  }

  lemma AppendToLog(l: CueLog, all: seq<string>, id: string)
    requires Audio(l.cues) == LastOnes(all, LOG_CAP) && id != ""
    ensures Audio(Receive(l, Announce(id)).cues) == LastOnes(all + [id], LOG_CAP)
  {
  }

  lemma LastOnesMore(s: seq<string>, x: string, k: nat)
    ensures LastOnes(s + [x], k + 1) == LastOnes(s, k) + [x]
  {
  }

  lemma {:induction false} FreshCues(cues: seq<Cue>, first: nat, watermark: nat)
    requires forall i :: 0 <= i < |cues| ==> cues[i].number == first + i
    ensures Fresh(cues, watermark)
         == LastOnes(Audio(cues), if first + |cues| <= watermark + 1 then 0 else first + |cues| - 1 - watermark)
  {
    hide LastOnes;
    if cues == [] {
      EmptyLastOnes(if first <= watermark + 1 then 0 else first - 1 - watermark);
    } else {
      var front, n := cues[..|cues| - 1], first + |cues| - 1;
      FreshCues(front, first, watermark);
      assert Audio(cues) == Audio(front) + [cues[|cues| - 1].audioId];
      if n > watermark {
        LastOnesMore(Audio(front), cues[|cues| - 1].audioId, n - watermark - 1);
      } else {
        NoLastOnes(Audio(front));
        NoLastOnes(Audio(cues));
      }
    }
  }

  lemma EmptyLastOnes(k: nat)
    ensures LastOnes([], k) == []
  {
  }

  lemma NoLastOnes(s: seq<string>)
    ensures LastOnes(s, 0) == []
  {
  }

  /** Every cue in the log has been handed over. The watermark lags behind only an emptied log. */
  predicate Drained(l: CueLog, watermark: nat) {
    watermark <= l.last && (l.cues != [] ==> watermark == l.last)
  }

  /**
   What one drain hands over, exactly: with everything in the log already drained, the
   last 64 at most of the cues announced since the batch's last reset, in order.
   */
  lemma DrainHandsOver(l: CueLog, watermark: nat, batch: seq<Message>)
    requires Numbered(l) && Drained(l, watermark)
    ensures
      var l' := ReceiveAll(l, batch);
      Numbered(l') && Fresh(l'.cues, watermark) == LastOnes(SinceReset(batch), 64)
  {
    var l' := ReceiveAll(l, batch);
    LogStaysNumbered(l, batch);
    LogContents(l, batch);
    var first := l'.last - |l'.cues| + 1;
    FreshCues(l'.cues, first, watermark);
    var before := if HasReset(batch) then [] else Audio(l.cues);
    LastOfLast(before, SinceReset(batch), l'.last - watermark);
  }

  lemma LastOfLast(before: seq<string>, new': seq<string>, k: nat)
    requires |new'| <= k && (before != [] ==> |new'| == k)
    ensures LastOnes(LastOnes(before + new', LOG_CAP), k) == LastOnes(new', LOG_CAP)
  {
  }

  predicate IsCue(m: Message) { m.Announce? && m.audioId != "" }

  /** At most 64 cues, none of them followed by a reset in the same batch. */
  ghost predicate Fits(batch: seq<Message>) {
    && |Announced(batch)| <= 64
    && ResetsComeFirst(batch)
  }

  ghost predicate ResetsComeFirst(batch: seq<Message>) {
    forall i, j :: 0 <= i < j < |batch| && batch[j].Reset? ==> !IsCue(batch[i])
  }

  ghost predicate NoCues(batch: seq<Message>) { forall i :: 0 <= i < |batch| ==> !IsCue(batch[i]) }

  lemma ResetsAfterOneMore(front: seq<Message>, m: Message)
    ensures ResetsComeFirst(front + [m]) <==> (if m.Reset? then NoCues(front) else ResetsComeFirst(front))
    ensures NoCues(front + [m]) <==> NoCues(front) && !IsCue(m)
  {
    var batch, n := front + [m], |front|;
    assert batch[n] == m && forall i :: 0 <= i < n ==> batch[i] == front[i];
    if ResetsComeFirst(batch) && m.Reset? {
      assert forall i :: 0 <= i < n ==> !IsCue(batch[i]);
    }
    if NoCues(batch) {
      assert forall i :: 0 <= i < n ==> !IsCue(batch[i]);
    }
    if ResetsComeFirst(batch) {
      assert forall i, j :: 0 <= i < j < n && batch[j].Reset? ==> !IsCue(batch[i]);
    }
  }

  lemma {:induction false} SilentBatch(batch: seq<Message>)
    ensures Announced(batch) == [] <==> NoCues(batch)
  {
    if batch != [] {
      var front, m := batch[..|batch| - 1], batch[|batch| - 1];
      SilentBatch(front);
      ResetsAfterOneMore(front, m);
      assert front + [m] == batch;
    }
  }

  lemma SameWithOneMore(a: seq<string>, b: seq<string>, x: string)
    ensures a + [x] == b + [x] <==> a == b
  {
    if a + [x] == b + [x] {
      assert a == (a + [x])[..|a|];
    }
  }

  /** What one more message does to the cues announced and to those since the last reset. */
  lemma WithOneMore(front: seq<Message>, m: Message)
    ensures Announced(front + [m]) == if IsCue(m) then Announced(front) + [m.audioId] else Announced(front)
    ensures SinceReset(front + [m])
         == if m.Reset? then [] else if IsCue(m) then SinceReset(front) + [m.audioId] else SinceReset(front)
  {
    assert (front + [m])[..|front|] == front;
  }

  /** No cue is dropped by a reset exactly when no reset follows a cue. */
  lemma {:induction false} NothingDroppedIff(batch: seq<Message>)
    ensures SinceReset(batch) == Announced(batch) <==> ResetsComeFirst(batch)
  {
    hide SinceReset, Announced, ResetsComeFirst, NoCues;
    if batch == [] {
      EmptyBatch();
    } else {
      var front, m := batch[..|batch| - 1], batch[|batch| - 1];
      assert front + [m] == batch;
      NothingDroppedIff(front);
      SilentBatch(front);
      ResetsAfterOneMore(front, m);
      WithOneMore(front, m);
      if IsCue(m) {
        SameWithOneMore(SinceReset(front), Announced(front), m.audioId);
      }
    }
  }

  lemma EmptyBatch()
    ensures SinceReset([]) == [] && Announced([]) == [] && ResetsComeFirst([])
  {
  }

  /**
   A batch is delivered completely if and only if it fits: at most 64 cues, none of them
   followed by a reset in the same batch.
   */
  lemma DeliveredIffFits(l: CueLog, watermark: nat, batch: seq<Message>)
    requires Numbered(l) && Drained(l, watermark)
    ensures Fresh(ReceiveAll(l, batch).cues, watermark) == Announced(batch) <==> Fits(batch)
  {
    NothingDroppedIff(batch);
    DrainHandsOver(l, watermark, batch);
    LogContents(l, batch);
    var since := SinceReset(batch);
    if LastOnes(since, LOG_CAP) == Announced(batch) {
      assert |LastOnes(since, LOG_CAP)| <= |since| <= |Announced(batch)|;
    }
  }

  // ---------------------------------------------------------------- any batching

  /** The log after several batches, each followed by a drain. */
  function LogAfter(l: CueLog, batches: seq<seq<Message>>): CueLog {
    if batches == [] then l else ReceiveAll(LogAfter(l, batches[..|batches| - 1]), batches[|batches| - 1])
  }

  /** The watermark after those drains. */
  function WatermarkAfter(l: CueLog, w: nat, batches: seq<seq<Message>>): nat {
    if batches == [] then w
    else
      var w', l' := WatermarkAfter(l, w, batches[..|batches| - 1]), LogAfter(l, batches);
      if l'.cues != [] && w' < l'.last then l'.last else w'
  }

  /** Everything those drains hand over. */
  function PlayedAfter(l: CueLog, w: nat, batches: seq<seq<Message>>): seq<string> {
    if batches == [] then []
    else
      PlayedAfter(l, w, batches[..|batches| - 1])
      + Fresh(LogAfter(l, batches).cues, WatermarkAfter(l, w, batches[..|batches| - 1]))
  }

  function AllAnnounced(batches: seq<seq<Message>>): seq<string> {
    if batches == [] then [] else AllAnnounced(batches[..|batches| - 1]) + Announced(batches[|batches| - 1])
  }

  /** What is left of each batch after its own drain: at most 64 cues, and none before a reset. */
  function AllHeard(batches: seq<seq<Message>>): seq<string> {
    if batches == [] then []
    else AllHeard(batches[..|batches| - 1]) + LastOnes(SinceReset(batches[|batches| - 1]), 64)
  }

  lemma DrainKeepsDrained(l: CueLog, watermark: nat, batch: seq<Message>)
    requires Numbered(l) && Drained(l, watermark)
    ensures
      var l' := ReceiveAll(l, batch);
      Drained(l', if l'.cues != [] && watermark < l'.last then l'.last else watermark)
  {
    LogStaysNumbered(l, batch);
  }

  /**
   Under any batching whatever, the drains together hand over, in order and each once, the
   last 64 at most of the cues that each batch announces after its last reset.
   */
  lemma {:induction false} DrainsHandOver(l: CueLog, watermark: nat, batches: seq<seq<Message>>)
    requires Numbered(l) && Drained(l, watermark)
    ensures Numbered(LogAfter(l, batches)) && Drained(LogAfter(l, batches), WatermarkAfter(l, watermark, batches))
    ensures PlayedAfter(l, watermark, batches) == AllHeard(batches)
  {
    if batches != [] {
      var front, batch := batches[..|batches| - 1], batches[|batches| - 1];
      DrainsHandOver(l, watermark, front);
      var m, w := LogAfter(l, front), WatermarkAfter(l, watermark, front);
      DrainHandsOver(m, w, batch);
      DrainKeepsDrained(m, w, batch);
    }
  }

  lemma {:induction false} FittingBatchesAreHeard(batches: seq<seq<Message>>)
    requires forall i :: 0 <= i < |batches| ==> Fits(batches[i])
    ensures AllHeard(batches) == AllAnnounced(batches)
  {
    if batches != [] {
      FittingBatchesAreHeard(batches[..|batches| - 1]);
      assert Fits(batches[|batches| - 1]);
      NothingDroppedIff(batches[|batches| - 1]);
    }
  }

  /** Under any batching into batches that fit, every cue is handed over exactly once and in order. */
  lemma EveryCueOnce(l: CueLog, watermark: nat, batches: seq<seq<Message>>)
    requires Numbered(l) && Drained(l, watermark) && forall i :: 0 <= i < |batches| ==> Fits(batches[i])
    ensures PlayedAfter(l, watermark, batches) == AllAnnounced(batches)
  {
    DrainsHandOver(l, watermark, batches);
    FittingBatchesAreHeard(batches);
  }
}
