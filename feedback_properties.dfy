/**
 * What the feedback task promises of a trial, a block and a session, stated
 * over the specification functions of FeedbackTask (which the methods of
 * FeedbackSession are proved to follow).
 */
module FeedbackProperties {
  import opened Wrappers
  import opened FeedbackTask

  // ---------------------------------------------------------------------
  // One trial
  // ---------------------------------------------------------------------

  /** How many times trigger t is sent in a run of events. */
  function Sent(events: seq<Event>, t: TriggerType): nat {
    if events == [] then 0
    else Sent(events[..|events| - 1], t) + (if events[|events| - 1] == Send(t) then 1 else 0)
  }

  lemma {:induction false} SentAppend(a: seq<Event>, b: seq<Event>, t: TriggerType)
    ensures Sent(a + b, t) == Sent(a, t) + Sent(b, t)
    decreases |b|
  {
    if b == [] {
      assert a + b == a;
    } else {
      assert (a + b)[..|a + b| - 1] == a + b[..|b| - 1];
      SentAppend(a, b[..|b| - 1], t);
    }
  }

  lemma SentOne(e: Event, t: TriggerType)
    ensures Sent([e], t) == if e == Send(t) then 1 else 0
  {
    assert [e][..0] == [];
  }

  lemma SentCons(e: Event, rest: seq<Event>, t: TriggerType)
    ensures Sent([e] + rest, t) == (if e == Send(t) then 1 else 0) + Sent(rest, t)
  {
    SentAppend([e], rest, t);
    SentOne(e, t);
  }

  /** How often each trigger occurs in the calls of one trial, given what the trial sends. */
  lemma SentInTrialEvents(rt: Option<real>, record: TrialRecord, cue: Option<TriggerType>, t: TriggerType)
    ensures Sent(TrialEvents(rt, record, cue), t)
              == (if t in {Fixation, StarStart, StarEnd} then 1 else 0)
                 + (if rt.Some? && t == Reaction then 1 else 0)
                 + (if t == FeedbackTrigger(record.feedback) then 1 else 0)
                 + (if cue == Some(t) then 1 else 0)
  {
    var opening := [OpenTrial, Send(Fixation), Send(StarStart), Send(StarEnd)];
    var reaction := if rt.Some? then [Send(Reaction)] else [];
    var shown := [Send(FeedbackTrigger(record.feedback))];
    var speed := if cue.Some? then [Send(cue.value)] else [];
    var closing := [SaveBeh(record), CloseTrial(record.acc)];
    assert TrialEvents(rt, record, cue) == opening + reaction + shown + speed + closing;
    SentAppend(opening + reaction + shown + speed, closing, t);
    SentAppend(opening + reaction + shown, speed, t);
    SentAppend(opening + reaction, shown, t);
    SentAppend(opening, reaction, t);
    assert opening == [OpenTrial] + ([Send(Fixation)] + ([Send(StarStart)] + [Send(StarEnd)]));
    SentCons(OpenTrial, [Send(Fixation)] + ([Send(StarStart)] + [Send(StarEnd)]), t);
    SentCons(Send(Fixation), [Send(StarStart)] + [Send(StarEnd)], t);
    SentCons(Send(StarStart), [Send(StarEnd)], t);
    SentOne(Send(StarEnd), t);
    assert closing == [SaveBeh(record)] + [CloseTrial(record.acc)];
    SentCons(SaveBeh(record), [CloseTrial(record.acc)], t);
    SentOne(CloseTrial(record.acc), t);
    SentOne(Send(FeedbackTrigger(record.feedback)), t);
    if rt.Some? {
      SentOne(Send(Reaction), t);
    }
    if cue.Some? {
      SentOne(Send(cue.value), t);
    }
  }

  /**
   * The calls of one trial, in order: open_trial; fixation, star start and
   * star end; the reaction trigger exactly when a key was pressed; then
   * exactly one feedback trigger, the one of the feedback shown; then a speed cue only when
   * speed feedback is on and the feedback shown is negative, "too slow" on a
   * miss or a late press and "too fast" otherwise; then the one log append
   * and close_trial with the trial's accuracy.
   */
  lemma TrialEventOrder(allowedError: int, slot: Slot, rt: Option<real>)
    ensures var r := RunTrial(allowedError, slot, rt);
            var record := r.records[0];
            var n := |r.events|;
            var fb := if rt.Some? then 5 else 4;
            var cued := slot.speedFeedback && record.feedback == Neg;
            && n >= 7
            && r.events[..4] == [OpenTrial, Send(Fixation), Send(StarStart), Send(StarEnd)]
            && r.events[n - 2] == SaveBeh(record)
            && r.events[n - 1] == CloseTrial(record.acc)
            && (forall i :: 0 < i < n - 2 ==> r.events[i].Send?)
            && (rt.Some? ==> r.events[4] == Send(Reaction))
            && r.events[fb] == Send(FeedbackTrigger(record.feedback))
            && n == fb + (if cued then 4 else 3)
            && (cued ==> r.events[fb + 1] == Send(if rt.None? || rt.value > TARGET then TooSlow else TooFast))
            && Saved(r.events) == [record]
            && Sent(r.events, Fixation) == 1 && Sent(r.events, StarStart) == 1 && Sent(r.events, StarEnd) == 1
            && Sent(r.events, Reaction) == (if rt.Some? then 1 else 0)
            && (forall f :: Sent(r.events, FeedbackTrigger(f)) == if f == record.feedback then 1 else 0)
            && Sent(r.events, TooSlow)
                 == (if slot.speedFeedback && record.feedback == Neg && (rt.None? || rt.value > TARGET) then 1 else 0)
            && Sent(r.events, TooFast)
                 == (if slot.speedFeedback && record.feedback == Neg && rt.Some? && rt.value <= TARGET then 1 else 0)
            && Sent(r.events, BlockStart) == 0
  {
    var r := RunTrial(allowedError, slot, rt);
    var record := r.records[0];
    var cue := SpeedCue(slot.speedFeedback, record.feedback, rt);
    assert r.events == TrialEvents(rt, record, cue);
    TrialSaved(allowedError, slot, rt);
    SentInTrialEvents(rt, record, cue, Fixation);
    SentInTrialEvents(rt, record, cue, StarStart);
    SentInTrialEvents(rt, record, cue, StarEnd);
    SentInTrialEvents(rt, record, cue, Reaction);
    SentInTrialEvents(rt, record, cue, TooSlow);
    SentInTrialEvents(rt, record, cue, TooFast);
    SentInTrialEvents(rt, record, cue, BlockStart);
    forall f: Feedback
      ensures Sent(r.events, FeedbackTrigger(f)) == if f == record.feedback then 1 else 0
    {
      SentInTrialEvents(rt, record, cue, FeedbackTrigger(f));
    }
  }

  /** A neutral trial never shows a speed cue, whatever the speed-feedback flag. */
  lemma NoSpeedCueWhenNeutral(allowedError: int, slot: Slot, rt: Option<real>)
    requires slot.neutral
    ensures var r := RunTrial(allowedError, slot, rt);
            Sent(r.events, TooSlow) == 0 && Sent(r.events, TooFast) == 0
  {
    TrialEventOrder(allowedError, slot, rt);
  }

  /**
   * The neutral override only changes what is shown: accuracy, the row's
   * tolerance and the tolerance left behind are those of the same trial run
   * without it, and the row differs from that trial's row only in its feedback.
   */
  lemma NeutralOnlyChangesDisplay(allowedError: int, slot: Slot, rt: Option<real>)
    ensures var neutral := RunTrial(allowedError, slot.(neutral := true), rt);
            var plain := RunTrial(allowedError, slot.(neutral := false), rt);
            && neutral.records[0].feedback == Neu
            && plain.records[0].feedback != Neu
            && neutral.records[0] == plain.records[0].(feedback := Neu)
            && neutral.allowedError == plain.allowedError
  {
  }

  /** Once the tolerance is negative no press is on time: an answered trial widens it again. */
  lemma NegativeToleranceRejects(allowedError: int, slot: Slot, rt: real)
    requires allowedError < 0
    ensures !OnTime(rt, allowedError)
    ensures var r := RunTrial(allowedError, slot, Some(rt));
            r.records[0].acc == 0 && r.allowedError == allowedError + STEP
  {
    assert Abs(rt - TARGET) >= 0.0;
  }

  /** At tolerance 100 a press 1.05 s after the star is on time: positive, and the tolerance tightens to 90. */
  lemma OnTimeScenario(slot: Slot)
    requires !slot.neutral
    ensures var r := RunTrial(100, slot, Some(1.05));
            r.records[0].feedback == Pos && r.records[0].acc == 1 && r.allowedError == 90
            && Sent(r.events, FeedbackPos) == 1 && Sent(r.events, TooSlow) == 0 && Sent(r.events, TooFast) == 0
  {
    TrialEventOrder(100, slot, Some(1.05));
  }

  /** At tolerance 100 a press after 1.2 s is late: negative, the tolerance widens to 110, and the cue is "too slow". */
  lemma LateScenario(slot: Slot)
    requires !slot.neutral && slot.speedFeedback
    ensures var r := RunTrial(100, slot, Some(1.2));
            r.records[0].feedback == Neg && r.records[0].acc == 0 && r.allowedError == 110
            && Sent(r.events, TooSlow) == 1 && Sent(r.events, TooFast) == 0
  {
    TrialEventOrder(100, slot, Some(1.2));
  }

  /** At tolerance 100 a press after 0.8 s is early: negative, the tolerance widens to 110, and the cue is "too fast". */
  lemma EarlyScenario(slot: Slot)
    requires !slot.neutral && slot.speedFeedback
    ensures var r := RunTrial(100, slot, Some(0.8));
            r.records[0].feedback == Neg && r.records[0].acc == 0 && r.allowedError == 110
            && Sent(r.events, TooSlow) == 0 && Sent(r.events, TooFast) == 1
  {
    TrialEventOrder(100, slot, Some(0.8));
  }

  /**
   * A press exactly at the target while the tolerance is negative is
   * negative feedback with the "too fast" cue: the cue tests rt > TARGET, not rt < TARGET.
   */
  lemma TargetPressTooFast(allowedError: int, slot: Slot)
    requires allowedError < 0 && !slot.neutral && slot.speedFeedback
    ensures var r := RunTrial(allowedError, slot, Some(TARGET));
            r.records[0].feedback == Neg && Sent(r.events, TooFast) == 1 && Sent(r.events, TooSlow) == 0
  {
    NegativeToleranceRejects(allowedError, slot, TARGET);
    TrialEventOrder(allowedError, slot, Some(TARGET));
  }

  // ---------------------------------------------------------------------
  // Tolerance chains
  // ---------------------------------------------------------------------

  /** The tolerance in force before row i: `start` for the first row, else what row i - 1 left behind. */
  function ToleranceBefore(start: int, records: seq<TrialRecord>, i: nat): int
    requires i <= |records|
  {
    if i == 0 then start else ToleranceAfter(records[i - 1])
  }

  /** Each row records the tolerance in force before it, and `end` is the tolerance the last row leaves. */
  predicate Chained(start: int, records: seq<TrialRecord>, end: int) {
    && (forall i :: 0 <= i < |records| ==> records[i].allowedError == ToleranceBefore(start, records, i))
    && end == ToleranceBefore(start, records, |records|)
  }

  // ---------------------------------------------------------------------
  // The tolerance grid
  // ---------------------------------------------------------------------

  /** A tolerance the experiment can reach from 100 in steps of 10: a multiple of STEP, never below -STEP. */
  predicate OnGrid(e: int) {
    e % STEP == 0 && e >= -STEP
  }

  /** A consistent row whose tolerance is on the grid leaves a tolerance on the grid. */
  lemma StepOnGrid(r: TrialRecord)
    requires Consistent(r) && OnGrid(r.allowedError)
    ensures OnGrid(ToleranceAfter(r))
  {
    if r.acc == 1 {
      assert Abs(r.rt.value - TARGET) >= 0.0;
      assert r.allowedError >= 0;
    }
  }

  lemma {:induction false} OnGridAt(start: int, records: seq<TrialRecord>, end: int, i: nat)
    requires OnGrid(start) && Chained(start, records, end)
    requires forall j :: 0 <= j < |records| ==> Consistent(records[j])
    requires i < |records|
    ensures OnGrid(records[i].allowedError)
    decreases i
  {
    assert records[i].allowedError == ToleranceBefore(start, records, i);
    if i > 0 {
      OnGridAt(start, records, end, i - 1);
      StepOnGrid(records[i - 1]);
    }
  }

  /**
   * Starting on the grid and moving by the rows' accuracies, every row and the
   * tolerance left behind stay on the grid: multiples of 10, never below -10.
   */
  lemma ToleranceOnGrid(start: int, records: seq<TrialRecord>, end: int)
    requires OnGrid(start) && Chained(start, records, end)
    requires forall j :: 0 <= j < |records| ==> Consistent(records[j])
    ensures forall i :: 0 <= i < |records| ==> OnGrid(records[i].allowedError)
    ensures OnGrid(end)
  {
    forall i | 0 <= i < |records|
      ensures OnGrid(records[i].allowedError)
    {
      OnGridAt(start, records, end, i);
    }
    if records != [] {
      StepOnGrid(records[|records| - 1]);
    }
  }

  lemma ChainedSnoc(start: int, records: seq<TrialRecord>, mid: int, r: TrialRecord)
    requires Chained(start, records, mid) && r.allowedError == mid
    ensures Chained(start, records + [r], ToleranceAfter(r))
  {
    var all := records + [r];
    forall i | 0 <= i < |all|
      ensures all[i].allowedError == ToleranceBefore(start, all, i)
    {
      if i < |records| {
        assert records[i].allowedError == ToleranceBefore(start, records, i);
      } else {
        assert mid == ToleranceBefore(start, records, |records|);
      }
    }
  }

  /** Two stretches chain into one when the second starts from the tolerance the first leaves behind. */
  lemma ChainedAppend(start: int, a: seq<TrialRecord>, mid: int, b: seq<TrialRecord>, end: int)
    requires Chained(start, a, mid) && Chained(mid, b, end)
    ensures Chained(start, a + b, end)
  {
    var all := a + b;
    forall i | 0 <= i < |all|
      ensures all[i].allowedError == ToleranceBefore(start, all, i)
    {
      if i < |a| {
        assert a[i].allowedError == ToleranceBefore(start, a, i);
      } else {
        assert b[i - |a|].allowedError == ToleranceBefore(mid, b, i - |a|);
      }
    }
    if b == [] {
      assert all == a;
    } else {
      assert all[|all| - 1] == b[|b| - 1];
    }
  }

  // ---------------------------------------------------------------------
  // One block
  // ---------------------------------------------------------------------

  /**
   * A block of |rts| trials logs one row per trial, in trial order: trial t's
   * row carries the block's number and type, trial number t and trial t's
   * response; it is neutral exactly when t is in `neutral`; and each row
   * records the tolerance its predecessor left behind, from allowedError on.
   */
  lemma {:induction false} BlockShape(allowedError: int, blockNum: int, blockType: string, speedFeedback: bool,
                                      neutral: set<int>, rts: seq<Option<real>>)
    ensures var r := RunBlock(allowedError, blockNum, blockType, speedFeedback, neutral, rts);
            && |r.records| == |rts|
            && (forall t :: 0 <= t < |rts| ==>
                  Fits(r.records[t], Slot(blockNum, t, blockType, speedFeedback, t in neutral), rts[t]))
            && Chained(allowedError, r.records, r.allowedError)
    decreases |rts|
  {
    if rts == [] {
    } else {
      var last := |rts| - 1;
      var done := RunBlock(allowedError, blockNum, blockType, speedFeedback, neutral, rts[..last]);
      var trial := RunTrial(done.allowedError, Slot(blockNum, last, blockType, speedFeedback, last in neutral), rts[last]);
      BlockShape(allowedError, blockNum, blockType, speedFeedback, neutral, rts[..last]);
      ChainedSnoc(allowedError, done.records, done.allowedError, trial.records[0]);
      assert trial.records == [trial.records[0]];
      var r := RunBlock(allowedError, blockNum, blockType, speedFeedback, neutral, rts);
      assert r.records == done.records + [trial.records[0]];
      forall t | 0 <= t < |rts|
        ensures Fits(r.records[t], Slot(blockNum, t, blockType, speedFeedback, t in neutral), rts[t])
      {
        if t < last {
          assert r.records[t] == done.records[t];
          assert rts[..last][t] == rts[t];
        }
      }
    }
  }

  /** The neutral rows of a block are exactly the sampled indices. */
  lemma NeutralTrials(allowedError: int, blockNum: int, blockType: string, speedFeedback: bool,
                      neutral: set<int>, rts: seq<Option<real>>)
    requires forall t :: t in neutral ==> 0 <= t < |rts|
    ensures var r := RunBlock(allowedError, blockNum, blockType, speedFeedback, neutral, rts);
            (set t | 0 <= t < |r.records| && r.records[t].feedback == Neu) == neutral
  {
    BlockShape(allowedError, blockNum, blockType, speedFeedback, neutral, rts);
  }

  /** A block sends no block-start trigger of its own. */
  lemma {:induction false} BlockSendsNoBlockStart(allowedError: int, blockNum: int, blockType: string,
                                                  speedFeedback: bool, neutral: set<int>, rts: seq<Option<real>>)
    ensures Sent(RunBlock(allowedError, blockNum, blockType, speedFeedback, neutral, rts).events, BlockStart) == 0
    decreases |rts|
  {
    if rts != [] {
      var last := |rts| - 1;
      var done := RunBlock(allowedError, blockNum, blockType, speedFeedback, neutral, rts[..last]);
      var slot := Slot(blockNum, last, blockType, speedFeedback, last in neutral);
      BlockSendsNoBlockStart(allowedError, blockNum, blockType, speedFeedback, neutral, rts[..last]);
      TrialEventOrder(done.allowedError, slot, rts[last]);
      SentAppend(done.events, RunTrial(done.allowedError, slot, rts[last]).events, BlockStart);
    }
  }

  // ---------------------------------------------------------------------
  // Runs of experimental blocks
  // ---------------------------------------------------------------------

  /**
   * Block b of a run is block number b + 1, of type types[b], with the
   * neutral set and responses of index b, started from the tolerance the
   * blocks before it left behind.
   */
  lemma {:induction false} ExperimentBlockAt(start: int, types: seq<string>, speedFeedback: bool,
                                             neutralSets: seq<set<int>>, rts: seq<seq<Option<real>>>, m: nat, b: nat)
    requires m <= |types| && m <= |neutralSets| && m <= |rts| && b < m
    ensures var blocks := ExperimentBlocks(start, types, speedFeedback, neutralSets, rts, m);
            && blocks[..b] == ExperimentBlocks(start, types, speedFeedback, neutralSets, rts, b)
            && blocks[b] == RunBlock(EndTolerance(start, blocks[..b]), b + 1, types[b], speedFeedback,
                                     neutralSets[b], rts[b])
    decreases m
  {
    var blocks := ExperimentBlocks(start, types, speedFeedback, neutralSets, rts, m);
    var done := ExperimentBlocks(start, types, speedFeedback, neutralSets, rts, m - 1);
    assert blocks[..m - 1] == done;
    if b < m - 1 {
      ExperimentBlockAt(start, types, speedFeedback, neutralSets, rts, m - 1, b);
      assert blocks[..b] == done[..b];
    }
  }

  /** Every row of a flattened run is a row of one of its blocks. */
  lemma {:induction false} FlattenMember(start: int, blocks: seq<Segment>, i: nat)
    requires i < |Flatten(start, blocks).records|
    ensures exists b, t :: 0 <= b < |blocks| && 0 <= t < |blocks[b].records|
                           && Flatten(start, blocks).records[i] == blocks[b].records[t]
    decreases |blocks|
  {
    var last := |blocks| - 1;
    var front := blocks[..last];
    var done := Flatten(start, front);
    var f := Flatten(start, blocks);
    assert f.records == done.records + blocks[last].records;
    if i < |done.records| {
      FlattenMember(start, front, i);
      var b, t :| 0 <= b < |front| && 0 <= t < |front[b].records| && done.records[i] == front[b].records[t];
      assert f.records[i] == blocks[b].records[t];
    } else {
      assert f.records[i] == blocks[last].records[i - |done.records|];
    }
  }

  /** A run whose every block chains from the previous block's end chains as a whole. */
  lemma {:induction false} FlattenChained(start: int, blocks: seq<Segment>)
    requires forall b :: 0 <= b < |blocks| ==>
               Chained(EndTolerance(start, blocks[..b]), blocks[b].records, blocks[b].allowedError)
    ensures Chained(start, Flatten(start, blocks).records, EndTolerance(start, blocks))
    decreases |blocks|
  {
    if blocks != [] {
      var last := |blocks| - 1;
      forall b | 0 <= b < last
        ensures Chained(EndTolerance(start, blocks[..last][..b]), blocks[..last][b].records, blocks[..last][b].allowedError)
      {
        assert blocks[..last][..b] == blocks[..b];
      }
      FlattenChained(start, blocks[..last]);
      ChainedAppend(start, Flatten(start, blocks[..last]).records, EndTolerance(start, blocks[..last]),
                    blocks[last].records, blocks[last].allowedError);
    }
  }

  /** The calls of a run save its rows, and it sends one block-start trigger per block. */
  lemma {:induction false} FlattenSaved(start: int, blocks: seq<Segment>)
    requires forall b :: 0 <= b < |blocks| ==> Saved(blocks[b].events) == blocks[b].records
    requires forall b :: 0 <= b < |blocks| ==> Sent(blocks[b].events, BlockStart) == 0
    ensures Saved(Flatten(start, blocks).events) == Flatten(start, blocks).records
    ensures Sent(Flatten(start, blocks).events, BlockStart) == |blocks|
    decreases |blocks|
  {
    if blocks != [] {
      var last := |blocks| - 1;
      var done := Flatten(start, blocks[..last]);
      FlattenSaved(start, blocks[..last]);
      SavedAppend(done.events + [Send(BlockStart)], blocks[last].events);
      SavedAppend(done.events, [Send(BlockStart)]);
      SavedNone([Send(BlockStart)]);
      SentAppend(done.events + [Send(BlockStart)], blocks[last].events, BlockStart);
      SentAppend(done.events, [Send(BlockStart)], BlockStart);
      SentOne(Send(BlockStart), BlockStart);
    }
  }

  // ---------------------------------------------------------------------
  // The session
  // ---------------------------------------------------------------------

  /**
   * The training block is block 0 of type "training": one row per training
   * response, numbered from 0, none neutral, chained from the initial tolerance.
   */
  lemma TrainingShape(trainRts: seq<Option<real>>)
    ensures var r := TrainingBlock(trainRts);
            && |r.records| == |trainRts|
            && (forall t :: 0 <= t < |trainRts| ==>
                  && r.records[t].blockNum == 0 && r.records[t].trialNum == t
                  && r.records[t].blockType == TRAINING && r.records[t].feedback != Neu
                  && r.records[t].rt == trainRts[t] && Consistent(r.records[t]))
            && Chained(INITIAL_ALLOWED_ERROR, r.records, r.allowedError)
  {
    BlockShape(INITIAL_ALLOWED_ERROR, 0, TRAINING, true, {}, trainRts);
  }

  /**
   * Experimental block b (index b, block number b + 1) logs one row per
   * response of its block, numbered from 0, of type BlockTypes(order)[b],
   * neutral exactly at the sampled indices, and starts from the tolerance
   * the previous experimental block left behind (the reset value for the first).
   */
  lemma SessionBlockAt(cfg: Config, order: seq<string>, neutralSets: seq<set<int>>,
                       blockRts: seq<seq<Option<real>>>, b: nat)
    requires |neutralSets| == |blockRts| == REPETITIONS * |order|
    requires b < REPETITIONS * |order|
    ensures var blocks := SessionBlocks(cfg, order, neutralSets, blockRts);
            var blk := blocks[b];
            && |blk.records| == |blockRts[b]|
            && (forall t :: 0 <= t < |blockRts[b]| ==>
                  && blk.records[t].blockNum == b + 1 && blk.records[t].trialNum == t
                  && blk.records[t].blockType == BlockTypes(order)[b]
                  && (blk.records[t].feedback == Neu <==> t in neutralSets[b])
                  && blk.records[t].rt == blockRts[b][t] && Consistent(blk.records[t]))
            && Chained(if b == 0 then INITIAL_ALLOWED_ERROR else blocks[b - 1].allowedError, blk.records, blk.allowedError)
  {
    var types := BlockTypes(order);
    var blocks := SessionBlocks(cfg, order, neutralSets, blockRts);
    ExperimentBlockAt(INITIAL_ALLOWED_ERROR, types, cfg.speedFeedback, neutralSets, blockRts, |types|, b);
    var start := EndTolerance(INITIAL_ALLOWED_ERROR, blocks[..b]);
    assert start == if b == 0 then INITIAL_ALLOWED_ERROR else blocks[b - 1].allowedError;
    BlockShape(start, b + 1, types[b], cfg.speedFeedback, neutralSets[b], blockRts[b]);
  }

  /**
   * When the neutral indices of a block are what sampling N_neutral of the
   * N_trials indices yields, the block has exactly N_neutral neutral rows.
   */
  lemma NeutralCount(cfg: Config, order: seq<string>, neutralSets: seq<set<int>>,
                     blockRts: seq<seq<Option<real>>>, b: nat)
    requires |neutralSets| == |blockRts| == REPETITIONS * |order|
    requires b < REPETITIONS * |order|
    requires |blockRts[b]| == cfg.nTrialsPerBlock
    requires forall t :: t in neutralSets[b] ==> 0 <= t < cfg.nTrialsPerBlock
    requires |neutralSets[b]| == cfg.nNeutralTrialsPerBlock
    ensures var blk := SessionBlocks(cfg, order, neutralSets, blockRts)[b];
            |set t | 0 <= t < |blk.records| && blk.records[t].feedback == Neu| == cfg.nNeutralTrialsPerBlock
  {
    var types := BlockTypes(order);
    var blocks := SessionBlocks(cfg, order, neutralSets, blockRts);
    ExperimentBlockAt(INITIAL_ALLOWED_ERROR, types, cfg.speedFeedback, neutralSets, blockRts, |types|, b);
    NeutralTrials(EndTolerance(INITIAL_ALLOWED_ERROR, blocks[..b]), b + 1, types[b], cfg.speedFeedback,
                  neutralSets[b], blockRts[b]);
  }

  /** Experimental block b saves its rows and sends no block-start trigger of its own. */
  lemma SessionBlockLogged(cfg: Config, order: seq<string>, neutralSets: seq<set<int>>,
                           blockRts: seq<seq<Option<real>>>, b: nat)
    requires |neutralSets| == |blockRts| == REPETITIONS * |order|
    requires b < REPETITIONS * |order|
    ensures var blk := SessionBlocks(cfg, order, neutralSets, blockRts)[b];
            Saved(blk.events) == blk.records && Sent(blk.events, BlockStart) == 0
  {
    var types := BlockTypes(order);
    var blocks := SessionBlocks(cfg, order, neutralSets, blockRts);
    ExperimentBlockAt(INITIAL_ALLOWED_ERROR, types, cfg.speedFeedback, neutralSets, blockRts, |types|, b);
    var start := EndTolerance(INITIAL_ALLOWED_ERROR, blocks[..b]);
    BlockSaved(start, b + 1, types[b], cfg.speedFeedback, neutralSets[b], blockRts[b]);
    BlockSendsNoBlockStart(start, b + 1, types[b], cfg.speedFeedback, neutralSets[b], blockRts[b]);
  }

  /**
   * A session completes unless sampling fails, which happens exactly when an
   * experimental block is due and more neutral trials are asked for than a
   * block has. Either way the log begins with the training rows and the calls
   * save exactly the logged rows; a stopped session logs the training block
   * only, with the tolerance already reset, and a completed one sends one
   * block-start trigger per experimental block.
   */
  lemma SessionLog(cfg: Config, order: seq<string>, neutralSets: seq<set<int>>,
                   trainRts: seq<Option<real>>, blockRts: seq<seq<Option<real>>>)
    requires |neutralSets| == |blockRts| == REPETITIONS * |order|
    ensures var run := Session(cfg, order, neutralSets, trainRts, blockRts);
            var training := TrainingBlock(trainRts);
            && (run.completed <==> |order| == 0 || cfg.nNeutralTrialsPerBlock <= cfg.nTrialsPerBlock)
            && training.records <= run.log.records
            && (!run.completed ==> run.log.records == training.records
                                   && run.log.allowedError == INITIAL_ALLOWED_ERROR)
            && Saved(run.log.events) == run.log.records
            && Sent(run.log.events, BlockStart) == (if run.completed then REPETITIONS * |order| else 0)
  {
    var training := TrainingBlock(trainRts);
    BlockSaved(INITIAL_ALLOWED_ERROR, 0, TRAINING, true, {}, trainRts);
    BlockSendsNoBlockStart(INITIAL_ALLOWED_ERROR, 0, TRAINING, true, {}, trainRts);
    if !(|order| > 0 && SampleFails(cfg)) {
      var blocks := SessionBlocks(cfg, order, neutralSets, blockRts);
      var flat := Flatten(INITIAL_ALLOWED_ERROR, blocks);
      forall b | 0 <= b < |blocks|
        ensures Saved(blocks[b].events) == blocks[b].records && Sent(blocks[b].events, BlockStart) == 0
      {
        SessionBlockLogged(cfg, order, neutralSets, blockRts, b);
      }
      FlattenSaved(INITIAL_ALLOWED_ERROR, blocks);
      SavedAppend(training.events, flat.events);
      SentAppend(training.events, flat.events, BlockStart);
    }
  }

  /** Every block type is one of the feedback types of the order. */
  lemma BlockTypeIn(order: seq<string>, b: nat)
    requires b < |BlockTypes(order)|
    ensures BlockTypes(order)[b] in order
  {
    var types := BlockTypes(order);
    if b < |order| {
      assert types[b] == order[b];
    } else if b < |order| + |order| {
      assert types[b] == order[b - |order|];
    } else {
      assert types[b] == order[b - |order| - |order|];
    }
  }

  /** Every experimental row is consistent, numbered 1..REPETITIONS * |order| and of a type in order. */
  lemma ExperimentRow(cfg: Config, order: seq<string>, neutralSets: seq<set<int>>,
                      blockRts: seq<seq<Option<real>>>, i: nat)
    requires |neutralSets| == |blockRts| == REPETITIONS * |order|
    requires i < |Flatten(INITIAL_ALLOWED_ERROR, SessionBlocks(cfg, order, neutralSets, blockRts)).records|
    ensures var rec := Flatten(INITIAL_ALLOWED_ERROR, SessionBlocks(cfg, order, neutralSets, blockRts)).records[i];
            && 1 <= rec.blockNum <= REPETITIONS * |order|
            && rec.blockType in order
            && Consistent(rec)
  {
    var blocks := SessionBlocks(cfg, order, neutralSets, blockRts);
    FlattenMember(INITIAL_ALLOWED_ERROR, blocks, i);
    var b, t :| 0 <= b < |blocks| && 0 <= t < |blocks[b].records|
                && Flatten(INITIAL_ALLOWED_ERROR, blocks).records[i] == blocks[b].records[t];
    SessionBlockAt(cfg, order, neutralSets, blockRts, b);
    BlockTypeIn(order, b);
  }

  /**
   * The rows of a session: first the training rows, block 0 of type
   * "training" and never neutral; then the experimental rows, numbered
   * 1..REPETITIONS * |order|, each of a feedback type taken from order.
   */
  lemma SessionLabels(cfg: Config, order: seq<string>, neutralSets: seq<set<int>>,
                      trainRts: seq<Option<real>>, blockRts: seq<seq<Option<real>>>)
    requires |neutralSets| == |blockRts| == REPETITIONS * |order|
    ensures var records := Session(cfg, order, neutralSets, trainRts, blockRts).log.records;
            var n := |trainRts|;
            && n <= |records|
            && (forall i :: 0 <= i < n ==>
                  records[i].blockNum == 0 && records[i].blockType == TRAINING && records[i].feedback != Neu)
            && (forall i :: n <= i < |records| ==>
                  1 <= records[i].blockNum <= REPETITIONS * |order| && records[i].blockType in order)
  {
    var training := TrainingBlock(trainRts);
    var run := Session(cfg, order, neutralSets, trainRts, blockRts);
    TrainingShape(trainRts);
    if !(|order| > 0 && SampleFails(cfg)) {
      var flat := Flatten(INITIAL_ALLOWED_ERROR, SessionBlocks(cfg, order, neutralSets, blockRts));
      assert run.log.records == training.records + flat.records;
      forall i | |trainRts| <= i < |run.log.records|
        ensures 1 <= run.log.records[i].blockNum <= REPETITIONS * |order| && run.log.records[i].blockType in order
      {
        ExperimentRow(cfg, order, neutralSets, blockRts, i - |trainRts|);
      }
    }
  }

  /** Experimental block b runs from the tolerance the blocks before it left behind. */
  lemma SessionBlockChained(cfg: Config, order: seq<string>, neutralSets: seq<set<int>>,
                            blockRts: seq<seq<Option<real>>>, b: nat)
    requires |neutralSets| == |blockRts| == REPETITIONS * |order|
    requires b < REPETITIONS * |order|
    ensures var blocks := SessionBlocks(cfg, order, neutralSets, blockRts);
            Chained(EndTolerance(INITIAL_ALLOWED_ERROR, blocks[..b]), blocks[b].records, blocks[b].allowedError)
  {
    var types := BlockTypes(order);
    var blocks := SessionBlocks(cfg, order, neutralSets, blockRts);
    ExperimentBlockAt(INITIAL_ALLOWED_ERROR, types, cfg.speedFeedback, neutralSets, blockRts, |types|, b);
    BlockShape(EndTolerance(INITIAL_ALLOWED_ERROR, blocks[..b]), b + 1, types[b], cfg.speedFeedback,
               neutralSets[b], blockRts[b]);
  }

  /**
   * The experimental blocks carry the tolerance from block to block starting
   * from the reset value, and every tolerance they record or leave is on the grid.
   */
  lemma ExperimentTolerance(cfg: Config, order: seq<string>, neutralSets: seq<set<int>>,
                            blockRts: seq<seq<Option<real>>>)
    requires |neutralSets| == |blockRts| == REPETITIONS * |order|
    ensures var flat := Flatten(INITIAL_ALLOWED_ERROR, SessionBlocks(cfg, order, neutralSets, blockRts));
            && Chained(INITIAL_ALLOWED_ERROR, flat.records, flat.allowedError)
            && (forall i :: 0 <= i < |flat.records| ==> OnGrid(flat.records[i].allowedError))
            && OnGrid(flat.allowedError)
  {
    var blocks := SessionBlocks(cfg, order, neutralSets, blockRts);
    var flat := Flatten(INITIAL_ALLOWED_ERROR, blocks);
    forall b | 0 <= b < |blocks|
      ensures Chained(EndTolerance(INITIAL_ALLOWED_ERROR, blocks[..b]), blocks[b].records, blocks[b].allowedError)
    {
      SessionBlockChained(cfg, order, neutralSets, blockRts, b);
    }
    FlattenChained(INITIAL_ALLOWED_ERROR, blocks);
    forall i | 0 <= i < |flat.records|
      ensures Consistent(flat.records[i])
    {
      ExperimentRow(cfg, order, neutralSets, blockRts, i);
    }
    ToleranceOnGrid(INITIAL_ALLOWED_ERROR, flat.records, flat.allowedError);
  }

  /**
   * The tolerance of a session: the training block runs from 100; the
   * experimental rows run from 100 again (the reset), carried from block to
   * block; and every recorded tolerance, like the one left at the end, is a
   * multiple of 10 no lower than -10.
   */
  lemma SessionTolerance(cfg: Config, order: seq<string>, neutralSets: seq<set<int>>,
                         trainRts: seq<Option<real>>, blockRts: seq<seq<Option<real>>>)
    requires |neutralSets| == |blockRts| == REPETITIONS * |order|
    ensures var run := Session(cfg, order, neutralSets, trainRts, blockRts);
            var training := TrainingBlock(trainRts);
            && Chained(INITIAL_ALLOWED_ERROR, training.records, training.allowedError)
            && |training.records| <= |run.log.records|
            && Chained(INITIAL_ALLOWED_ERROR, run.log.records[|training.records|..], run.log.allowedError)
            && (forall i :: 0 <= i < |run.log.records| ==> OnGrid(run.log.records[i].allowedError))
            && OnGrid(run.log.allowedError)
  {
    var training := TrainingBlock(trainRts);
    var run := Session(cfg, order, neutralSets, trainRts, blockRts);
    TrainingShape(trainRts);
    ToleranceOnGrid(INITIAL_ALLOWED_ERROR, training.records, training.allowedError);
    if |order| > 0 && SampleFails(cfg) {
      assert run.log.records[|training.records|..] == [];
    } else {
      var flat := Flatten(INITIAL_ALLOWED_ERROR, SessionBlocks(cfg, order, neutralSets, blockRts));
      ExperimentTolerance(cfg, order, neutralSets, blockRts);
      assert run.log.records == training.records + flat.records;
      assert run.log.records[|training.records|..] == flat.records;
      forall i | 0 <= i < |run.log.records|
        ensures OnGrid(run.log.records[i].allowedError)
      {
        if i >= |training.records| {
          assert run.log.records[i] == flat.records[i - |training.records|];
        }
      }
    }
  }
}
