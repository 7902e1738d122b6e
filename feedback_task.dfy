/**
 * The adaptive trial controller of the reaction-time feedback task and the
 * session driver that runs it (feedback_task/feedback_task.py).
 *
 * A trial shows a fixation dot and a star; the participant presses the
 * response key aiming for TARGET seconds after the star appears (the trial
 * clock is reset on the screen flip that shows the star). A press
 * within the session tolerance (allowed_error, in milliseconds) is positive
 * feedback and tightens the tolerance by STEP; a late or early press is
 * negative feedback and widens it by STEP; no press is negative feedback and
 * leaves it alone. Timing, key presses and random choices are inputs here.
 */
module FeedbackTask {
  import opened Wrappers

  /** The interval, in seconds after the star appears, the participant aims for. */
  const TARGET: real := 1.0
  /** The tolerance, in milliseconds, at the start of training and again before the experimental blocks. */
  const INITIAL_ALLOWED_ERROR: int := 100
  /** How far, in milliseconds, one answered trial moves the tolerance. */
  const STEP: int := 10
  /** How many times each feedback type is run as an experimental block. */
  const REPETITIONS: nat := 3
  /** The block type of the training block, whose block number is 0. */
  const TRAINING: string := "training"

  datatype Feedback = Pos | Neg | Neu

  /** The trigger names the experiment sends to the EEG recording. */
  datatype TriggerType =
    | Fixation | StarStart | StarEnd | Reaction
    | FeedbackPos | FeedbackNeg | FeedbackNeu
    | TooSlow | TooFast
    | BlockStart

  /** One call on the trigger handler or on the data saver, in the order they happen. */
  datatype Event =
    | OpenTrial
    | Send(trigger: TriggerType)
    | SaveBeh(record: TrialRecord)
    | CloseTrial(acc: int)

  /** A row of the behavioural log; rt == None is the "-" of a trial without a press. */
  datatype TrialRecord = TrialRecord(
    blockNum: int, trialNum: int, rt: Option<real>, allowedError: int,
    blockType: string, feedback: Feedback, acc: int)

  /** A key name and its time stamp, in seconds since the star appeared (the star's display time included). */
  datatype KeyPress = KeyPress(key: string, time: real)

  /** What waiting for the response key returns: None when the wait times out. */
  type Keys = Option<seq<KeyPress>>

  /** The configuration entries the controller and the driver read. */
  datatype Config = Config(
    nTrainTrials: nat, nTrialsPerBlock: nat, nNeutralTrialsPerBlock: nat,
    speedFeedback: bool, responseKey: string)

  /** Where a trial sits in the session and how it is run. */
  datatype Slot = Slot(blockNum: int, trialNum: int, blockType: string, speedFeedback: bool, neutral: bool)

  /** What a stretch of the session adds: events, log rows, and the tolerance it leaves behind. */
  datatype Segment = Segment(events: seq<Event>, records: seq<TrialRecord>, allowedError: int)

  /** A whole session: what it logged, and whether it got through every block. */
  datatype SessionRun = SessionRun(log: Segment, completed: bool)

  /** The verdict on a response before the neutral override: feedback, accuracy, new tolerance. */
  datatype Verdict = Verdict(feedback: Feedback, acc: int, allowedError: int)

  function Abs(x: real): real { if x < 0.0 then -x else x }

  /** A response is on time when it lands within allowedError milliseconds of TARGET, bounds included. */
  predicate OnTime(rt: real, allowedError: int) {
    Abs(rt - TARGET) <= allowedError as real / 1000.0
  }

  /** What the trial asserts of the wait's result: exactly one press, of the response key. */
  predicate SingleResponse(keys: Keys, responseKey: string) {
    keys.Some? ==> |keys.value| == 1 && keys.value[0].key == responseKey
  }

  /** The time of the first press, None when the wait timed out (an empty list never passes SingleResponse). */
  function ReactionTime(keys: Keys): Option<real> {
    if keys.None? || |keys.value| == 0 then None else Some(keys.value[0].time)
  }

  /** The reaction times of one block's trials. */
  function ReactionTimes(keys: seq<Keys>): (rts: seq<Option<real>>)
    ensures |rts| == |keys|
    ensures forall i :: 0 <= i < |keys| ==> rts[i] == ReactionTime(keys[i])
  {
    seq(|keys|, i requires 0 <= i < |keys| => ReactionTime(keys[i]))
  }

  /** The reaction times of several blocks' trials. */
  function BlockReactionTimes(keys: seq<seq<Keys>>): (rts: seq<seq<Option<real>>>)
    ensures |rts| == |keys|
    ensures forall b :: 0 <= b < |keys| ==> rts[b] == ReactionTimes(keys[b])
  {
    seq(|keys|, b requires 0 <= b < |keys| => ReactionTimes(keys[b]))
  }

  /** The timing classification of a response, before the neutral override. */
  function Classify(rt: Option<real>, allowedError: int): Verdict {
    if rt.None? then Verdict(Neg, -1, allowedError)
    else if OnTime(rt.value, allowedError) then Verdict(Pos, 1, allowedError - STEP)
    else Verdict(Neg, 0, allowedError + STEP)
  }

  function FeedbackTrigger(f: Feedback): TriggerType {
    match f
    case Pos => FeedbackPos
    case Neg => FeedbackNeg
    case Neu => FeedbackNeu
  }

  /** The speed cue that follows the feedback, if any. */
  function SpeedCue(speedFeedback: bool, shown: Feedback, rt: Option<real>): Option<TriggerType> {
    if speedFeedback && shown == Neg then
      Some(if rt.None? || rt.value > TARGET then TooSlow else TooFast)
    else None
  }

  /** The calls one trial makes, in order. */
  function TrialEvents(rt: Option<real>, record: TrialRecord, cue: Option<TriggerType>): seq<Event> {
    [OpenTrial, Send(Fixation), Send(StarStart), Send(StarEnd)]
    + (if rt.Some? then [Send(Reaction)] else [])
    + [Send(FeedbackTrigger(record.feedback))]
    + (if cue.Some? then [Send(cue.value)] else [])
    + [SaveBeh(record), CloseTrial(record.acc)]
  }

  /** The tolerance a trial leaves behind, read off its log row. */
  function ToleranceAfter(r: TrialRecord): int {
    if r.acc == 1 then r.allowedError - STEP
    else if r.acc == 0 then r.allowedError + STEP
    else r.allowedError
  }

  /** A log row whose accuracy agrees with its reaction time and the tolerance it records. */
  predicate Consistent(r: TrialRecord) {
    && (r.acc == -1 <==> r.rt.None?)
    && (r.acc == 1 <==> r.rt.Some? && OnTime(r.rt.value, r.allowedError))
    && (r.acc == 0 <==> r.rt.Some? && !OnTime(r.rt.value, r.allowedError))
  }

  /** A log row written for the trial in `slot` whose response time was `rt`. */
  predicate Fits(r: TrialRecord, slot: Slot, rt: Option<real>) {
    && r.blockNum == slot.blockNum && r.trialNum == slot.trialNum && r.blockType == slot.blockType
    && r.rt == rt
    && (r.feedback == Neu <==> slot.neutral)
    && Consistent(r)
  }

  /** The records appended to the behavioural log by a run of events. */
  function Saved(events: seq<Event>): seq<TrialRecord> {
    if events == [] then []
    else
      var e := events[|events| - 1];
      Saved(events[..|events| - 1]) + (if e.SaveBeh? then [e.record] else [])
  }

  lemma {:induction false} SavedAppend(a: seq<Event>, b: seq<Event>)
    ensures Saved(a + b) == Saved(a) + Saved(b)
    decreases |b|
  {
    if b == [] {
      assert a + b == a;
    } else {
      assert (a + b)[..|a + b| - 1] == a + b[..|b| - 1];
      SavedAppend(a, b[..|b| - 1]);
    }
  }

  lemma {:induction false} SavedNone(events: seq<Event>)
    requires forall i :: 0 <= i < |events| ==> !events[i].SaveBeh?
    ensures Saved(events) == []
    decreases |events|
  {
    if events != [] {
      SavedNone(events[..|events| - 1]);
    }
  }

  lemma SavedTrialEvents(rt: Option<real>, record: TrialRecord, cue: Option<TriggerType>)
    ensures Saved(TrialEvents(rt, record, cue)) == [record]
  {
    var head := [OpenTrial, Send(Fixation), Send(StarStart), Send(StarEnd)]
      + (if rt.Some? then [Send(Reaction)] else [])
      + [Send(FeedbackTrigger(record.feedback))]
      + (if cue.Some? then [Send(cue.value)] else []);
    var tail := [SaveBeh(record), CloseTrial(record.acc)];
    assert TrialEvents(rt, record, cue) == head + tail;
    SavedNone(head);
    SavedAppend(head, tail);
    assert tail[..1] == [SaveBeh(record)];
    assert [SaveBeh(record)][..0] == [];
    assert Saved([SaveBeh(record)]) == [record];
    assert Saved(tail) == [record];
  }

  /**
   * One trial run from tolerance allowedError: classification, the neutral
   * override, the speed cue, the calls made and the row logged.
   */
  function RunTrial(allowedError: int, slot: Slot, rt: Option<real>): (r: Segment)
    ensures |r.records| == 1 && Fits(r.records[0], slot, rt)
    ensures r.records[0].allowedError == allowedError
    ensures rt.None? ==>
      r.records[0].acc == -1 && r.allowedError == allowedError
      && (slot.neutral || r.records[0].feedback == Neg)
    ensures rt.Some? && OnTime(rt.value, allowedError) ==>
      r.records[0].acc == 1 && r.allowedError == allowedError - STEP
      && (slot.neutral || r.records[0].feedback == Pos)
    ensures rt.Some? && !OnTime(rt.value, allowedError) ==>
      r.records[0].acc == 0 && r.allowedError == allowedError + STEP
      && (slot.neutral || r.records[0].feedback == Neg)
    ensures r.allowedError == ToleranceAfter(r.records[0])
  {
    var verdict := Classify(rt, allowedError);
    var shown := if slot.neutral then Neu else verdict.feedback;
    var record := TrialRecord(slot.blockNum, slot.trialNum, rt, allowedError, slot.blockType, shown, verdict.acc);
    var cue := SpeedCue(slot.speedFeedback, shown, rt);
    Segment(TrialEvents(rt, record, cue), [record], verdict.allowedError)
  }

  /** A trial's calls save exactly its log row. */
  lemma TrialSaved(allowedError: int, slot: Slot, rt: Option<real>)
    ensures var r := RunTrial(allowedError, slot, rt); Saved(r.events) == r.records
  {
    var verdict := Classify(rt, allowedError);
    var shown := if slot.neutral then Neu else verdict.feedback;
    var record := TrialRecord(slot.blockNum, slot.trialNum, rt, allowedError, slot.blockType, shown, verdict.acc);
    SavedTrialEvents(rt, record, SpeedCue(slot.speedFeedback, shown, rt));
  }

  function Then(a: Segment, b: Segment): Segment {
    Segment(a.events + b.events, a.records + b.records, b.allowedError)
  }

  lemma ThenAppends(events: seq<Event>, records: seq<TrialRecord>, a: Segment, b: Segment)
    ensures events + a.events + b.events == events + Then(a, b).events
    ensures records + a.records + b.records == records + Then(a, b).records
  {
  }

  /** One block of trials numbered 0..|rts|-1, trial t neutral iff t is in `neutral`. */
  function RunBlock(allowedError: int, blockNum: int, blockType: string, speedFeedback: bool,
                    neutral: set<int>, rts: seq<Option<real>>): (r: Segment)
    decreases |rts|
  {
    if rts == [] then Segment([], [], allowedError)
    else
      var last := |rts| - 1;
      var done := RunBlock(allowedError, blockNum, blockType, speedFeedback, neutral, rts[..last]);
      Then(done, RunTrial(done.allowedError, Slot(blockNum, last, blockType, speedFeedback, last in neutral), rts[last]))
  }

  /** Running the first t + 1 trials of a block is running the first t and then trial t. */
  lemma RunBlockStep(allowedError: int, blockNum: int, blockType: string, speedFeedback: bool,
                     neutral: set<int>, rts: seq<Option<real>>, t: nat)
    requires t < |rts|
    ensures var done := RunBlock(allowedError, blockNum, blockType, speedFeedback, neutral, rts[..t]);
            RunBlock(allowedError, blockNum, blockType, speedFeedback, neutral, rts[..t + 1])
            == Then(done, RunTrial(done.allowedError, Slot(blockNum, t, blockType, speedFeedback, t in neutral), rts[t]))
  {
    assert rts[..t + 1][..t] == rts[..t];
  }

  /** The log of a block holds the records its calls saved. */
  lemma {:induction false} BlockSaved(allowedError: int, blockNum: int, blockType: string, speedFeedback: bool,
                                      neutral: set<int>, rts: seq<Option<real>>)
    ensures var r := RunBlock(allowedError, blockNum, blockType, speedFeedback, neutral, rts);
            Saved(r.events) == r.records
    decreases |rts|
  {
    if rts != [] {
      var last := |rts| - 1;
      var done := RunBlock(allowedError, blockNum, blockType, speedFeedback, neutral, rts[..last]);
      var trial := RunTrial(done.allowedError, Slot(blockNum, last, blockType, speedFeedback, last in neutral), rts[last]);
      BlockSaved(allowedError, blockNum, blockType, speedFeedback, neutral, rts[..last]);
      TrialSaved(done.allowedError, Slot(blockNum, last, blockType, speedFeedback, last in neutral), rts[last]);
      SavedAppend(done.events, trial.events);
    }
  }

  /** The block types of the experimental blocks in running order: the shuffled order, REPETITIONS times. */
  function BlockTypes(order: seq<string>): (types: seq<string>)
    ensures |types| == REPETITIONS * |order|
  {
    order + order + order
  }

  /** The number of experimental blocks run before repetition rep of the order. */
  function RepetitionStart(order: seq<string>, rep: nat): (n: nat)
  {
    if rep == 0 then 0 else RepetitionStart(order, rep - 1) + |order|
  }

  /** After the last repetition every experimental block has run. */
  lemma RepetitionsEnd(order: seq<string>)
    ensures RepetitionStart(order, REPETITIONS) == |BlockTypes(order)|
  {
    assert RepetitionStart(order, 1) == |order|;
    assert RepetitionStart(order, 2) == |order| + |order|;
  }

  /** Repetition rep of the block types is blockOrder itself. */
  lemma BlockTypesRepetition(order: seq<string>, rep: nat)
    requires rep < REPETITIONS
    ensures RepetitionStart(order, rep) + |order| <= |BlockTypes(order)|
    ensures BlockTypes(order)[RepetitionStart(order, rep)..RepetitionStart(order, rep) + |order|] == order
  {
    var types := BlockTypes(order);
    if rep == 0 {
      assert types[..|order|] == order;
    } else if rep == 1 {
      assert types[|order|..|order| + |order|] == order;
    } else {
      assert RepetitionStart(order, rep) == |order| + |order|;
      assert types[|order| + |order|..] == order;
    }
  }

  /** The tolerance a run of blocks leaves behind. */
  function EndTolerance(start: int, blocks: seq<Segment>): int {
    if blocks == [] then start else blocks[|blocks| - 1].allowedError
  }

  /**
   * The first m experimental blocks: block b has number b + 1 and type
   * types[b], and starts from the tolerance block b - 1 left behind.
   */
  function ExperimentBlocks(start: int, types: seq<string>, speedFeedback: bool, neutralSets: seq<set<int>>,
                            rts: seq<seq<Option<real>>>, m: nat): (blocks: seq<Segment>)
    requires m <= |types| && m <= |neutralSets| && m <= |rts|
    ensures |blocks| == m
    decreases m
  {
    if m == 0 then []
    else
      var done := ExperimentBlocks(start, types, speedFeedback, neutralSets, rts, m - 1);
      done + [RunBlock(EndTolerance(start, done), m, types[m - 1], speedFeedback, neutralSets[m - 1], rts[m - 1])]
  }

  /** A run of experimental blocks as one stretch of the session, each block opened by a block-start trigger. */
  function Flatten(start: int, blocks: seq<Segment>): (r: Segment)
    ensures r.allowedError == EndTolerance(start, blocks)
  {
    if blocks == [] then Segment([], [], start)
    else
      var done := Flatten(start, blocks[..|blocks| - 1]);
      var b := blocks[|blocks| - 1];
      Segment(done.events + [Send(BlockStart)] + b.events, done.records + b.records, b.allowedError)
  }

  /** Running one more experimental block appends it, after a block-start trigger, to the flattened run. */
  lemma ExperimentStep(start: int, types: seq<string>, speedFeedback: bool, neutralSets: seq<set<int>>,
                       rts: seq<seq<Option<real>>>, m: nat)
    requires m < |types| && m < |neutralSets| && m < |rts|
    ensures var done := ExperimentBlocks(start, types, speedFeedback, neutralSets, rts, m);
            var block := RunBlock(EndTolerance(start, done), m + 1, types[m], speedFeedback, neutralSets[m], rts[m]);
            var flat := Flatten(start, done);
            Flatten(start, ExperimentBlocks(start, types, speedFeedback, neutralSets, rts, m + 1))
              == Segment(flat.events + [Send(BlockStart)] + block.events, flat.records + block.records, block.allowedError)
  {
    var next := ExperimentBlocks(start, types, speedFeedback, neutralSets, rts, m + 1);
    assert next[..m] == ExperimentBlocks(start, types, speedFeedback, neutralSets, rts, m);
  }

  lemma BlockAppends(events: seq<Event>, records: seq<TrialRecord>, training: Segment, flat: Segment, block: Segment)
    ensures events + (training.events + flat.events) + ([Send(BlockStart)] + block.events)
            == events + Then(training, Segment(flat.events + [Send(BlockStart)] + block.events,
                                               flat.records + block.records, block.allowedError)).events
    ensures records + (training.records + flat.records) + block.records
            == records + Then(training, Segment(flat.events + [Send(BlockStart)] + block.events,
                                                flat.records + block.records, block.allowedError)).records
  {
  }

  /** The training block: block 0, speed feedback on, no neutral trials, from the initial tolerance. */
  function TrainingBlock(rts: seq<Option<real>>): Segment {
    RunBlock(INITIAL_ALLOWED_ERROR, 0, TRAINING, true, {}, rts)
  }

  /** Whether sampling the neutral trial indices of a block raises: more asked for than there are trials. */
  predicate SampleFails(cfg: Config) {
    cfg.nNeutralTrialsPerBlock > cfg.nTrialsPerBlock
  }

  /** The experimental blocks of a session whose sampling does not fail. */
  function SessionBlocks(cfg: Config, order: seq<string>, neutralSets: seq<set<int>>,
                         blockRts: seq<seq<Option<real>>>): (blocks: seq<Segment>)
    requires |neutralSets| == |blockRts| == REPETITIONS * |order|
  {
    ExperimentBlocks(INITIAL_ALLOWED_ERROR, BlockTypes(order), cfg.speedFeedback, neutralSets, blockRts,
                     REPETITIONS * |order|)
  }

  /**
   * A whole session: training, the tolerance reset, then the experimental
   * blocks; it stops at the first block when sampling the neutral trials fails.
   */
  function Session(cfg: Config, order: seq<string>, neutralSets: seq<set<int>>,
                   trainRts: seq<Option<real>>, blockRts: seq<seq<Option<real>>>): SessionRun
    requires |neutralSets| == |blockRts| == REPETITIONS * |order|
  {
    var training := TrainingBlock(trainRts);
    if |order| > 0 && SampleFails(cfg) then
      SessionRun(Segment(training.events, training.records, INITIAL_ALLOWED_ERROR), false)
    else
      SessionRun(Then(training, Flatten(INITIAL_ALLOWED_ERROR, SessionBlocks(cfg, order, neutralSets, blockRts))), true)
  }

  /** Before the first experimental block the session log is the training block's, at the reset tolerance. */
  lemma NoBlocks(training: Segment, types: seq<string>, speedFeedback: bool, neutralSets: seq<set<int>>,
                 blockRts: seq<seq<Option<real>>>)
    ensures Then(training, Flatten(INITIAL_ALLOWED_ERROR,
              ExperimentBlocks(INITIAL_ALLOWED_ERROR, types, speedFeedback, neutralSets, blockRts, 0)))
            == Segment(training.events, training.records, INITIAL_ALLOWED_ERROR)
  {
    assert training.events + [] == training.events;
    assert training.records + [] == training.records;
  }

  lemma SessionStopped(cfg: Config, order: seq<string>, neutralSets: seq<set<int>>,
                        trainRts: seq<Option<real>>, blockRts: seq<seq<Option<real>>>)
    requires |neutralSets| == |blockRts| == REPETITIONS * |order|
    requires |order| > 0 && SampleFails(cfg)
    ensures var training := TrainingBlock(trainRts);
            Session(cfg, order, neutralSets, trainRts, blockRts)
              == SessionRun(Segment(training.events, training.records, INITIAL_ALLOWED_ERROR), false)
  {
  }

  lemma SessionCompleted(cfg: Config, order: seq<string>, neutralSets: seq<set<int>>,
                          trainRts: seq<Option<real>>, blockRts: seq<seq<Option<real>>>)
    requires |neutralSets| == |blockRts| == REPETITIONS * |order|
    requires !(|order| > 0 && SampleFails(cfg))
    ensures Session(cfg, order, neutralSets, trainRts, blockRts)
              == SessionRun(Then(TrainingBlock(trainRts), Flatten(INITIAL_ALLOWED_ERROR,
                   ExperimentBlocks(INITIAL_ALLOWED_ERROR, BlockTypes(order), cfg.speedFeedback, neutralSets, blockRts,
                                    REPETITIONS * |order|))), true)
  {
  }

  /** The state the trial closure shares with the session: tolerance, calls made, behavioural log. */
  class FeedbackSession {
    /** allowed_error, in milliseconds. */
    var allowedError: int
    /** Every call on the trigger handler and on the data saver, in order. */
    var events: seq<Event>
    /** data_saver.beh */
    var beh: seq<TrialRecord>

    /** The state is the one at (events0, beh0) followed by the stretch s. */
    ghost predicate Logged(events0: seq<Event>, beh0: seq<TrialRecord>, s: Segment)
      reads this
    {
      events == events0 + s.events && beh == beh0 + s.records && allowedError == s.allowedError
    }

    constructor ()
      ensures events == [] && beh == [] && allowedError == INITIAL_ALLOWED_ERROR
    {
      allowedError := INITIAL_ALLOWED_ERROR;
      events := [];
      beh := [];
    }

    /** The opening of a trial: fixation, star, and the wait for a press (the phases before classification). */
    method Present(keys: Keys, responseKey: string) returns (rt: Option<real>)
      requires SingleResponse(keys, responseKey)
      modifies this`events
      ensures rt == ReactionTime(keys)
      ensures events == old(events) + [OpenTrial, Send(Fixation), Send(StarStart), Send(StarEnd)]
                        + (if rt.Some? then [Send(Reaction)] else [])
    {
      events := events + [OpenTrial];
      events := events + [Send(Fixation)];
      events := events + [Send(StarStart)];
      events := events + [Send(StarEnd)];
      rt := None;
      if keys.Some? {
        rt := Some(keys.value[0].time);
        events := events + [Send(Reaction)];
      }
    }

    /** The feedback trigger, then the speed cue when speed feedback is on and the feedback shown is negative. */
    method ShowFeedback(feedback: Feedback, rt: Option<real>, speedFeedback: bool)
      modifies this`events
      ensures var cue := SpeedCue(speedFeedback, feedback, rt);
              events == old(events) + [Send(FeedbackTrigger(feedback))] + (if cue.Some? then [Send(cue.value)] else [])
    {
      events := events + [Send(FeedbackTrigger(feedback))];
      if speedFeedback && feedback == Neg {
        var cue := if rt.None? || rt.value > TARGET then TooSlow else TooFast;
        events := events + [Send(cue)];
      }
    }

    /**
     * One trial (trial()). The block number, trial number and block type are
     * what the trial reads from the session; the tolerance it updates in place.
     */
    method Trial(blockNum: int, trialNum: int, blockType: string, speedFeedback: bool,
                 neutralFeedback: bool, keys: Keys, responseKey: string)
      requires SingleResponse(keys, responseKey)
      modifies this
      ensures Logged(old(events), old(beh),
                     RunTrial(old(allowedError), Slot(blockNum, trialNum, blockType, speedFeedback, neutralFeedback),
                              ReactionTime(keys)))
    {
      ghost var events0 := events;
      var pre := allowedError;
      var rt := Present(keys, responseKey);
      var feedback: Feedback;
      var acc: int;
      if rt.None? {
        feedback, acc := Neg, -1;
      } else if OnTime(rt.value, allowedError) {
        feedback, acc := Pos, 1;
        allowedError := allowedError - STEP;
      } else {
        feedback, acc := Neg, 0;
        allowedError := allowedError + STEP;
      }
      if neutralFeedback {
        feedback := Neu;
      }
      ShowFeedback(feedback, rt, speedFeedback);
      var record := TrialRecord(blockNum, trialNum, rt, pre, blockType, feedback, acc);
      beh := beh + [record];
      events := events + [SaveBeh(record)];
      events := events + [CloseTrial(acc)];
      ghost var cue := SpeedCue(speedFeedback, feedback, rt);
      ghost var r := RunTrial(pre, Slot(blockNum, trialNum, blockType, speedFeedback, neutralFeedback), rt);
      assert r == Segment(TrialEvents(rt, record, cue), [record], allowedError);
      assert events == events0 + TrialEvents(rt, record, cue);
    }

    /** One block's loop over trial numbers 0..nTrials-1. */
    method RunTrials(blockNum: int, blockType: string, speedFeedback: bool, neutral: set<int>,
                     nTrials: nat, keys: seq<Keys>, responseKey: string)
      requires |keys| == nTrials
      requires forall i :: 0 <= i < |keys| ==> SingleResponse(keys[i], responseKey)
      modifies this
      ensures Logged(old(events), old(beh),
                     RunBlock(old(allowedError), blockNum, blockType, speedFeedback, neutral,
                              ReactionTimes(keys)))
    {
      ghost var rts := ReactionTimes(keys);
      for trialNum := 0 to nTrials
        invariant Logged(old(events), old(beh),
                         RunBlock(old(allowedError), blockNum, blockType, speedFeedback, neutral, rts[..trialNum]))
      {
        ghost var done := RunBlock(old(allowedError), blockNum, blockType, speedFeedback, neutral, rts[..trialNum]);
        Trial(blockNum, trialNum, blockType, speedFeedback, trialNum in neutral, keys[trialNum], responseKey);
        ghost var trial := RunTrial(done.allowedError, Slot(blockNum, trialNum, blockType, speedFeedback, trialNum in neutral), rts[trialNum]);
        RunBlockStep(old(allowedError), blockNum, blockType, speedFeedback, neutral, rts, trialNum);
        ThenAppends(old(events), old(beh), done, trial);
      }
      assert rts[..nTrials] == rts;
    }

    /** The training block, run from the initial tolerance, which is then reset for the experimental blocks. */
    method RunTraining(cfg: Config, trainingKeys: seq<Keys>)
      requires |trainingKeys| == cfg.nTrainTrials
      requires forall i :: 0 <= i < |trainingKeys| ==> SingleResponse(trainingKeys[i], cfg.responseKey)
      modifies this
      ensures var training := TrainingBlock(ReactionTimes(trainingKeys));
              Logged(old(events), old(beh), Segment(training.events, training.records, INITIAL_ALLOWED_ERROR))
    {
      allowedError := INITIAL_ALLOWED_ERROR;
      RunTrials(0, TRAINING, true, {}, cfg.nTrainTrials, trainingKeys, cfg.responseKey);
      allowedError := INITIAL_ALLOWED_ERROR;
    }

    /** One experimental block: the block-start trigger, then its trials. */
    method ExperimentBlock(blockNum: int, blockType: string, speedFeedback: bool, neutral: set<int>,
                           keys: seq<Keys>, responseKey: string)
      requires forall i :: 0 <= i < |keys| ==> SingleResponse(keys[i], responseKey)
      modifies this
      ensures var block := RunBlock(old(allowedError), blockNum, blockType, speedFeedback, neutral,
                                    ReactionTimes(keys));
              Logged(old(events), old(beh), Segment([Send(BlockStart)] + block.events, block.records, block.allowedError))
    {
      events := events + [Send(BlockStart)];
      RunTrials(blockNum, blockType, speedFeedback, neutral, |keys|, keys, responseKey);
    }

    /**
     * Experimental block blockNum, once its neutral trials are drawn: the
     * session log grows from the first done = blockNum - 1 blocks to the first blockNum.
     */
    method NextBlock(cfg: Config, blockOrder: seq<string>, neutralSets: seq<set<int>>, blockKeys: seq<seq<Keys>>,
                     ghost events0: seq<Event>, ghost beh0: seq<TrialRecord>, ghost training: Segment,
                     ghost done: nat, blockNum: nat, blockType: string)
      requires blockNum == done + 1
      requires done < |neutralSets| == |blockKeys| == REPETITIONS * |blockOrder|
      requires blockType == BlockTypes(blockOrder)[done]
      requires forall b, i :: 0 <= b < |blockKeys| && 0 <= i < |blockKeys[b]| ==>
                 SingleResponse(blockKeys[b][i], cfg.responseKey)
      requires Logged(events0, beh0, Then(training, Flatten(INITIAL_ALLOWED_ERROR,
                 ExperimentBlocks(INITIAL_ALLOWED_ERROR, BlockTypes(blockOrder), cfg.speedFeedback, neutralSets,
                                  BlockReactionTimes(blockKeys), done))))
      modifies this
      ensures Logged(events0, beh0, Then(training, Flatten(INITIAL_ALLOWED_ERROR,
                ExperimentBlocks(INITIAL_ALLOWED_ERROR, BlockTypes(blockOrder), cfg.speedFeedback, neutralSets,
                                 BlockReactionTimes(blockKeys), blockNum))))
    {
      ghost var rts := BlockReactionTimes(blockKeys);
      ghost var types := BlockTypes(blockOrder);
      ghost var blocks := ExperimentBlocks(INITIAL_ALLOWED_ERROR, types, cfg.speedFeedback, neutralSets, rts, done);
      ghost var flat := Flatten(INITIAL_ALLOWED_ERROR, blocks);
      ghost var block := RunBlock(EndTolerance(INITIAL_ALLOWED_ERROR, blocks), done + 1, types[done], cfg.speedFeedback,
                                  neutralSets[done], rts[done]);
      var neutral := neutralSets[blockNum - 1];
      assert block == RunBlock(allowedError, blockNum, blockType, cfg.speedFeedback, neutral,
                               ReactionTimes(blockKeys[blockNum - 1]));
      ExperimentBlock(blockNum, blockType, cfg.speedFeedback, neutral, blockKeys[blockNum - 1], cfg.responseKey);
      ExperimentStep(INITIAL_ALLOWED_ERROR, types, cfg.speedFeedback, neutralSets, rts, done);
      BlockAppends(events0, beh0, training, flat, block);
    }

    /**
     * One pass over blockOrder: block numbers blockNum0 + 1 onwards. Returns
     * false, with nothing logged, when sampling the first block's neutral
     * trials fails; sampling cannot fail later, as its arguments do not change.
     */
    method RunRepetition(cfg: Config, blockOrder: seq<string>, neutralSets: seq<set<int>>, blockKeys: seq<seq<Keys>>,
                         ghost events0: seq<Event>, ghost beh0: seq<TrialRecord>, ghost training: Segment,
                         rep: nat, blockNum0: nat) returns (ok: bool, blockNum: nat)
      requires |neutralSets| == |blockKeys| == REPETITIONS * |blockOrder|
      requires rep < REPETITIONS && blockNum0 == RepetitionStart(blockOrder, rep) <= |blockKeys|
      requires forall b, i :: 0 <= b < |blockKeys| && 0 <= i < |blockKeys[b]| ==>
                 SingleResponse(blockKeys[b][i], cfg.responseKey)
      requires SampleFails(cfg) ==> blockNum0 == 0
      requires Logged(events0, beh0, Then(training, Flatten(INITIAL_ALLOWED_ERROR,
                 ExperimentBlocks(INITIAL_ALLOWED_ERROR, BlockTypes(blockOrder), cfg.speedFeedback, neutralSets,
                                  BlockReactionTimes(blockKeys), blockNum0))))
      modifies this
      ensures ok <==> !(|blockOrder| > 0 && SampleFails(cfg))
      ensures !ok ==> events == old(events) && beh == old(beh) && allowedError == old(allowedError)
      ensures ok ==> blockNum == RepetitionStart(blockOrder, rep + 1) <= |blockKeys|
      ensures ok ==> Logged(events0, beh0, Then(training, Flatten(INITIAL_ALLOWED_ERROR,
                ExperimentBlocks(INITIAL_ALLOWED_ERROR, BlockTypes(blockOrder), cfg.speedFeedback, neutralSets,
                                 BlockReactionTimes(blockKeys), blockNum))))
    {
      ghost var rts := BlockReactionTimes(blockKeys);
      ghost var types := BlockTypes(blockOrder);
      BlockTypesRepetition(blockOrder, rep);
      blockNum := blockNum0;
      for j := 0 to |blockOrder|
        invariant blockNum == blockNum0 + j
        invariant SampleFails(cfg) ==> blockNum == 0
        invariant Logged(events0, beh0, Then(training, Flatten(INITIAL_ALLOWED_ERROR,
                    ExperimentBlocks(INITIAL_ALLOWED_ERROR, types, cfg.speedFeedback, neutralSets, rts, blockNum))))
      {
        assert types[blockNum0..blockNum0 + |blockOrder|][j] == types[blockNum];
        var blockType := blockOrder[j];
        ghost var done := blockNum;
        blockNum := blockNum + 1;
        if SampleFails(cfg) {
          return false, blockNum;
        }
        NextBlock(cfg, blockOrder, neutralSets, blockKeys, events0, beh0, training, done, blockNum, blockType);
      }
      ok := true;
    }

    /**
     * The experimental part: every feedback type of blockOrder REPETITIONS
     * times, each block opened by a block-start trigger, logged after the
     * training segment. Returns false, having logged nothing, when sampling
     * the neutral trials fails.
     */
    method RunExperiment(cfg: Config, blockOrder: seq<string>, neutralSets: seq<set<int>>, blockKeys: seq<seq<Keys>>,
                         ghost events0: seq<Event>, ghost beh0: seq<TrialRecord>, ghost training: Segment)
      returns (completed: bool)
      requires |neutralSets| == |blockKeys| == REPETITIONS * |blockOrder|
      requires forall b, i :: 0 <= b < |blockKeys| && 0 <= i < |blockKeys[b]| ==>
                 SingleResponse(blockKeys[b][i], cfg.responseKey)
      requires Logged(events0, beh0, Segment(training.events, training.records, INITIAL_ALLOWED_ERROR))
      modifies this
      ensures completed <==> !(|blockOrder| > 0 && SampleFails(cfg))
      ensures !completed ==> Logged(events0, beh0, Segment(training.events, training.records, INITIAL_ALLOWED_ERROR))
      ensures completed ==> Logged(events0, beh0, Then(training, Flatten(INITIAL_ALLOWED_ERROR,
                ExperimentBlocks(INITIAL_ALLOWED_ERROR, BlockTypes(blockOrder), cfg.speedFeedback, neutralSets,
                                 BlockReactionTimes(blockKeys), REPETITIONS * |blockOrder|))))
    {
      var blockNum: nat := 0;
      NoBlocks(training, BlockTypes(blockOrder), cfg.speedFeedback, neutralSets, BlockReactionTimes(blockKeys));
      for rep := 0 to REPETITIONS
        invariant blockNum == RepetitionStart(blockOrder, rep) <= |blockKeys|
        invariant SampleFails(cfg) ==> blockNum == 0
        invariant Logged(events0, beh0, Then(training, Flatten(INITIAL_ALLOWED_ERROR,
                    ExperimentBlocks(INITIAL_ALLOWED_ERROR, BlockTypes(blockOrder), cfg.speedFeedback, neutralSets,
                                     BlockReactionTimes(blockKeys), blockNum))))
      {
        var ok;
        ok, blockNum := RunRepetition(cfg, blockOrder, neutralSets, blockKeys, events0, beh0, training, rep, blockNum);
        if !ok {
          NoBlocks(training, BlockTypes(blockOrder), cfg.speedFeedback, neutralSets, BlockReactionTimes(blockKeys));
          return false;
        }
      }
      RepetitionsEnd(blockOrder);
      completed := true;
    }

    /**
     * The session: the training block, the tolerance reset, then the
     * experimental blocks. Returns false when sampling the neutral trials fails.
     */
    method RunSession(cfg: Config, blockOrder: seq<string>, neutralSets: seq<set<int>>,
                      trainingKeys: seq<Keys>, blockKeys: seq<seq<Keys>>) returns (completed: bool)
      requires |trainingKeys| == cfg.nTrainTrials
      requires |neutralSets| == |blockKeys| == REPETITIONS * |blockOrder|
      requires forall b :: 0 <= b < |blockKeys| ==> |blockKeys[b]| == cfg.nTrialsPerBlock
      requires forall i :: 0 <= i < |trainingKeys| ==> SingleResponse(trainingKeys[i], cfg.responseKey)
      requires forall b, i :: 0 <= b < |blockKeys| && 0 <= i < |blockKeys[b]| ==>
                 SingleResponse(blockKeys[b][i], cfg.responseKey)
      modifies this
      ensures var run := Session(cfg, blockOrder, neutralSets, ReactionTimes(trainingKeys),
                                 BlockReactionTimes(blockKeys));
              completed == run.completed && Logged(old(events), old(beh), run.log)
    {
      ghost var events0, beh0 := events, beh;
      ghost var training := TrainingBlock(ReactionTimes(trainingKeys));
      RunTraining(cfg, trainingKeys);
      completed := RunExperiment(cfg, blockOrder, neutralSets, blockKeys, events0, beh0, training);
      if !completed {
        SessionStopped(cfg, blockOrder, neutralSets, ReactionTimes(trainingKeys), BlockReactionTimes(blockKeys));
      } else {
        SessionCompleted(cfg, blockOrder, neutralSets, ReactionTimes(trainingKeys), BlockReactionTimes(blockKeys));
      }
    }
  }
}
