# Reaction-time feedback task: trial controller, session driver and offline filter

This project models, in Dafny, the core of an EEG experiment in which a participant presses a key
aiming for one second after a star appears, and receives feedback on each attempt. The trial clock
is reset on the screen flip that shows the star, so the star's display time is part of the
reaction time.

- **Trial controller** (`feedback_task/feedback_task.py`, `trial()`): one trial sends the fixation,
  star-start and star-end triggers, waits for the response key, and classifies the press against a
  session tolerance `allowed_error` (milliseconds).
  - A press with |rt − 1| ≤ allowed_error/1000 is positive (acc 1) and tightens the tolerance by 10.
  - A press outside the window is negative (acc 0) and widens it by 10.
  - No press is negative (acc −1) and leaves the tolerance alone.
  - A trial flagged neutral then shows neutral feedback instead.
  - With speed feedback on and negative feedback shown, a "too slow" or "too fast" cue follows.
  - The trial appends its row to the behavioural log (`data_saver.beh`) and closes with its accuracy.
- **Session driver** (same file, lines 272-305):
  - a training block (block 0, type "training", speed feedback on) from tolerance 100;
  - the tolerance is reset to 100;
  - then three passes over the shuffled feedback-type order, one experimental block per type,
    numbered from 1;
  - each block draws its neutral trial indices, sends a block-start trigger and runs its trials.
- **Offline filter** (`behavioral_analysis/response_stats.py`): picks the behavioural file with the
  latest ctime (`os.path.getctime`: the inode-change time on Unix, the creation time on Windows),
  keeping the latest in listing order on ties, then keeps the rows whose `block_type` is
  `"experiment"`.

Modules:

- `Wrappers` (`wrappers.dfy`): `Option` and `Result`.
- `FeedbackTask` (`feedback_task.dfy`):
  - Specification functions: `RunTrial`, `RunBlock`, `ExperimentBlocks`, `Flatten`, `Session`.
  - The class `FeedbackSession`: its fields are the tolerance, the trace of calls on the trigger
    handler and data saver (`events`), and the log (`beh`).
  - The class's methods do what the Python does, step by step. Each is proved to leave exactly the
    state its specification function describes.
- `FeedbackProperties` (`feedback_properties.dfy`): what a trial, a block and a session promise,
  proved over those functions.
- `ResponseStats` (`response_stats.dfy`): file selection and row filter.

Modelling choices:

- A reaction time is `Option<real>`: `None` is the `"-"` of a trial without a press.
- Reals are exact, so the window test is exact rational arithmetic.
- Key presses, the neutral index sets, the shuffled block order and the file listing are inputs.
- `random.sample(range(n), k)` raises exactly when k > n. That failure (`SampleFails`) stops the
  session before the first experimental block's block-start trigger; the model returns
  `completed == false` there.

Behaviours of the code worth knowing:

- A neutral trial still applies the timing classification to the tolerance and to `acc`. Only the
  displayed feedback changes (`NeutralOnlyChangesDisplay`).
- The speed cue tests `rt > 1` for "too slow" and uses "too fast" otherwise, so a press exactly at
  1 s that is judged negative (possible only once the tolerance is negative) gets "too fast"
  (`TargetPressTooFast`).
- The tolerance has no explicit floor. It never drops below −10, because once it is negative no
  press is on time (`NegativeToleranceRejects`, `SessionTolerance`).
- The experiment program itself writes `block_type` as `"training"` or as a feedback-type name, never as
  `"experiment"` (a feedback type named `"experiment"` is not a key of the stimulus table, so such a
  block would raise at line 225 before logging its first row). The filter is modelled as written, whatever rows it is given.

## Model

| member | source | states |
|---|---|---|
| FeedbackTask.RunTrial | feedback_task/feedback_task.py:151-267 | one log row for the slot with the response time; the row records the tolerance before the trial; no press: acc −1, tolerance unchanged; on-time press: acc 1, tolerance −10; other press: acc 0, tolerance +10; feedback Neu iff the trial is neutral, otherwise Neg/Pos by the same case; the tolerance left is the one the row's accuracy implies |
| FeedbackTask.TrialSaved | feedback_task/feedback_task.py:262-264 | the calls of one trial append exactly its row to the behavioural log |
| FeedbackTask.BlockSaved | feedback_task/feedback_task.py:276-277 | the calls of a block append exactly the block's rows, in trial order |
| FeedbackTask.BlockTypesRepetition | feedback_task/feedback_task.py:282-283 | proof helper keeping the loop counters in step: the block types of repetition rep, for rep < 3, are the shuffled order itself |
| FeedbackTask.RepetitionsEnd | feedback_task/feedback_task.py:282-283 | proof helper keeping the loop counters in step: after three passes over the order the block counter equals 3·\|order\| |
| FeedbackTask.FeedbackSession.Present | feedback_task/feedback_task.py:154-206 | open_trial, then the fixation, star-start and star-end triggers, then the reaction trigger exactly when a key was pressed; returns the press time |
| FeedbackTask.FeedbackSession.ShowFeedback | feedback_task/feedback_task.py:224-260 | sends the trigger of the feedback shown, then the speed cue when speed feedback is on and the feedback is negative |
| FeedbackTask.FeedbackSession.Trial | feedback_task/feedback_task.py:151-267 | the tolerance, the call trace and the behavioural log afterwards are those of RunTrial from the tolerance before |
| FeedbackTask.FeedbackSession.RunTrials | feedback_task/feedback_task.py:300-304 | running trials 0..n−1 leaves the state RunBlock describes |
| FeedbackTask.FeedbackSession.RunTraining | feedback_task/feedback_task.py:272-281 | the training block is block 0 of type "training" with speed feedback and no neutral trials, run from 100; afterwards the tolerance is 100 again |
| FeedbackTask.FeedbackSession.ExperimentBlock | feedback_task/feedback_task.py:296-304 | one block-start trigger, then the block's trials from the current tolerance |
| FeedbackTask.FeedbackSession.NextBlock | feedback_task/feedback_task.py:284-304 | the log of the first done blocks grows to that of the first done+1 blocks |
| FeedbackTask.FeedbackSession.RunRepetition | feedback_task/feedback_task.py:283-304 | one pass over the order: fails, having logged nothing, iff a block is due and sampling raises; otherwise appends the pass's blocks |
| FeedbackTask.FeedbackSession.RunExperiment | feedback_task/feedback_task.py:282-304 | three passes: completes iff no sampling failure, logging all 3·\|order\| blocks; otherwise leaves the training log |
| FeedbackTask.FeedbackSession.RunSession | feedback_task/feedback_task.py:272-305 | the whole session: completion flag and final state are those of Session for the given responses |
| FeedbackProperties.SentInTrialEvents | feedback_task/feedback_task.py:155-264 | how many times each trigger is sent in one trial's calls |
| FeedbackProperties.TrialEventOrder | feedback_task/feedback_task.py:154-264 | a trial's calls open with open_trial and the three presentation triggers, and end with the log append and close_trial(acc), with only triggers in between; in order: the reaction trigger (at position 4) iff a press, then the trigger of the feedback shown, then the speed cue iff speed feedback is on and the feedback shown is negative, too slow on a miss or a press after 1 s and too fast otherwise; so open_trial, the log append and close_trial each occur once; exactly one feedback trigger, of the feedback shown; "too slow" iff speed feedback, feedback shown negative, and no press or a press after 1 s; "too fast" iff speed feedback, negative, and a press at or before 1 s; no block-start trigger |
| FeedbackProperties.NoSpeedCueWhenNeutral | feedback_task/feedback_task.py:221-222 | a neutral trial never shows a speed cue |
| FeedbackProperties.NeutralOnlyChangesDisplay | feedback_task/feedback_task.py:208-222 | the neutral override changes only the feedback shown: the row equals the unflagged trial's row with feedback Neu, and the tolerance left is the same |
| FeedbackProperties.NegativeToleranceRejects | feedback_task/feedback_task.py:212-219 | with a negative tolerance no press is on time, so every answered trial widens the tolerance |
| FeedbackProperties.OnTimeScenario | feedback_task/feedback_task.py:212-215 | at tolerance 100 a press at 1.05 s is positive, tolerance 90, no speed cue |
| FeedbackProperties.LateScenario | feedback_task/feedback_task.py:216-219 | at tolerance 100 a press at 1.2 s is negative, tolerance 110, "too slow" |
| FeedbackProperties.EarlyScenario | feedback_task/feedback_task.py:244-249 | at tolerance 100 a press at 0.8 s is negative, tolerance 110, "too fast" |
| FeedbackProperties.TargetPressTooFast | feedback_task/feedback_task.py:244-249 | a press exactly at 1 s judged negative gets "too fast" |
| FeedbackProperties.StepOnGrid | feedback_task/feedback_task.py:208-219 | a consistent trial from a tolerance that is a multiple of 10 and at least −10 leaves such a tolerance |
| FeedbackProperties.ToleranceOnGrid | feedback_task/feedback_task.py:208-219 | along a chain of consistent rows from such a tolerance, every recorded tolerance and the final one stay on that grid |
| FeedbackProperties.ChainedAppend | feedback_task/feedback_task.py:152 | two tolerance chains joined end to start form one chain, since the tolerance is carried from trial to trial |
| FeedbackProperties.BlockShape | feedback_task/feedback_task.py:156-162 | a block has one row per trial; row t carries the block number and type, trial number t and trial t's response; it is neutral iff t is drawn, is consistent, and records the tolerance its predecessor left |
| FeedbackProperties.NeutralTrials | feedback_task/feedback_task.py:302-303 | when every drawn index is a trial number, the neutral rows of a block are exactly the drawn indices |
| FeedbackProperties.BlockSendsNoBlockStart | feedback_task/feedback_task.py:151-267 | trials send no block-start trigger |
| FeedbackProperties.FlattenChained | feedback_task/feedback_task.py:281-304 | blocks each chained from the tolerance the previous one left form one chain across the run |
| FeedbackProperties.FlattenSaved | feedback_task/feedback_task.py:296-304 | a run of blocks saves all its rows and sends one block-start trigger per block |
| FeedbackProperties.TrainingShape | feedback_task/feedback_task.py:272-277 | training rows: block 0, type "training", trial numbers 0.., never neutral, chained from 100 |
| FeedbackProperties.SessionBlockAt | feedback_task/feedback_task.py:282-304 | experimental block b: number b+1, type from repetition b of the order, trial numbers 0.., neutral iff drawn, chained from the previous block's final tolerance or from 100 |
| FeedbackProperties.NeutralCount | feedback_task/feedback_task.py:290-293 | when the drawn indices are k distinct trial numbers, the block has exactly k neutral rows |
| FeedbackProperties.SessionLog | feedback_task/feedback_task.py:272-305 | completes iff there are no experimental blocks or k ≤ n; the log starts with the training rows; the calls save exactly the logged rows; a stopped session holds only training, at tolerance 100; a completed one sends 3·\|order\| block-start triggers |
| FeedbackProperties.SessionLabels | feedback_task/feedback_task.py:273-285 | the training rows come first, block 0 of type "training", never neutral; every later row has block number 1..3·\|order\| and a type from the order |
| FeedbackProperties.ExperimentTolerance | feedback_task/feedback_task.py:281-304 | the experimental rows form one chain from 100, and every tolerance in it is on the grid |
| FeedbackProperties.SessionTolerance | feedback_task/feedback_task.py:275-281 | training is chained from 100; the experimental rows are chained from 100 again after the reset; every recorded and the final tolerance are multiples of 10, at least −10 |
| ResponseStats.SortByCtime | behavioral_analysis/response_stats.py:21 | sorting keeps the length and the multiset of files |
| ResponseStats.SortSorted | behavioral_analysis/response_stats.py:21 | the sorted listing is ordered by ctime |
| ResponseStats.NewestIndex | behavioral_analysis/response_stats.py:21-22 | the index of a file no older than any other and strictly newer than every file after it |
| ResponseStats.SortLastIsNewest | behavioral_analysis/response_stats.py:21-22 | the last file after the stable sort is that newest file, the latest in listing order on ties |
| ResponseStats.MostRecentFile | behavioral_analysis/response_stats.py:21-22 | fails, with NoFiles, iff the listing is empty; otherwise returns a listed file whose ctime is maximal and no later file has the same ctime |
| ResponseStats.KeepExperiment | behavioral_analysis/response_stats.py:42 | every kept row is an experiment row, and the kept rows are a sub-multiset of the input |
| ResponseStats.ExperimentIndices | behavioral_analysis/response_stats.py:42 | the ascending positions of exactly the experiment rows |
| ResponseStats.KeepExperimentOrder | behavioral_analysis/response_stats.py:42 | the k-th kept row is the row at the k-th experiment position: original order kept, no experiment row dropped |
| ResponseStats.KeepExperimentCount | behavioral_analysis/response_stats.py:42 | the number of kept rows is the number of experiment rows in the input |
| ResponseStats.ExperimentRows | behavioral_analysis/response_stats.py:42 | fails with a missing-column error iff some row lacks "block_type"; otherwise the filtered rows |

## Left out

- Rendering, waiting and clocks: `win.flip`, `setAutoDraw`, `core.wait` and the star timing. The clock reading of a press is an input (its time stamp).
- The inter-trial interval `random.uniform(ITI_min, ITI_max)` and the `iti_time` column. The interval only delays, and its value is not otherwise used.
- Randomness: the shuffle of the block order and the neutral index sets are inputs. Only the failure of `random.sample` is modelled.
- The trigger hardware setup (lines 86-100) and `get_trigger_name`. A trigger is modelled by its type, and `prepare_trigger` followed by `send_trigger` by one `Send` event.
- Stimulus loading and the feedback stimulus table (lines 102-145), and which picture is shown. The lookups `feedback[block_type]` (line 225) and `config["Feedback_explanations"][block_type]` (line 286) are assumed to succeed: every configured feedback type is taken to be a key of both tables. Nothing in the code checks this; a type missing from either raises KeyError (at line 225 after open_trial, the presentation triggers and the tolerance update, with no close_trial), and that failure is not modelled.
- `show_info` screens (greeting, post-training, new-block and end texts), `logging` and `data_saver.check_exit`. The escape key ending the session is not modelled.
- The Python `assert`s on the wait result (lines 200-201) are a precondition (`SingleResponse`), not an error path.
- Persisting the log to disk, and the commented-out code after line 305.
- In response_stats.py: the glob, `os.path.getctime`, opening the file, CSV parsing, the prints and the unused plotting imports. The listing is a sequence of (path, ctime) pairs, and the rows are maps from column to optional value.
- ResponseStats.SortByCtime: `files.sort` sorts the list in place; the model sorts the sequence as a value. Only the file picked afterwards is observable.
- Floating point: times and the window test use exact reals, so rounding at the window edge is not modelled.
- Configuration counts are natural numbers. Negative counts, where `range` would be empty, are not modelled.
- The session loop of lines 282-304 is split, for proof size, into RunRepetition, NextBlock and ExperimentBlock. Together they perform the same steps in the same order.
