# Squircle task: a verified model of the session logic

The squircle task has three Vizard scripts that run a spatial-memory experiment.
Participants learn where four objects (cone, beachball, plant, pumpkin) stand in
two virtual arenas, a circle and a square.

- **Training** (`CONMEM6_TRAIN.py`) runs six training runs. Each run is in the
  arena that the subject's and the run's parity assign. The first two runs start
  with collect-only trials. Every run then has sixteen replace trials, each
  followed by a feedback image and a collect trial.
- **Free exploration** (`CONMEM6_FREE.py`) is two explorations, one per arena.
  Each is announced by a start message. A closing message ends the session.
- **Test** (`CONMEM6_TEST.py`) is the fMRI test run.
  - It builds a trial plan: context blocks, with objects chosen least-used-first
    from one usage counter.
  - It waits for the scanner trigger.
  - It runs replace trials in the circle, the square and the ambiguous
    "squircle" until the run time is used up.
  - Every squircle trial is scored against both location sets.
  - The run ends with a feedback image for the mean error.

The model describes what each script does as a sequence of observable steps
(module `Events`):

- screens shown;
- navigation phases entered;
- tracking files opened;
- marker lines written to the tracking file;
- `Abort`, an abnormal stop of the script.

Random draws, the measured errors and the elapsed times are parameters. Markers
and prompts carry the object and context indices that their text is rendered
from.

The modules are:

| Module | Contents |
|---|---|
| `Base` | Shared helpers: `Option` and a counting function. |
| `Decimal` | Decimal rendering and parsing of numbers in file names. |
| `Counterbalance` | Arena assignment (`ContextGen`), the arena label of the start message, and the training log's name. |
| `Scoring` | Horizontal-plane error, feedback levels, squircle choice and the mean. |
| `Events` | The step vocabulary and its record functions (`Writes`, `Opened`, `Messages`), plus the cut of a trace at its first failure (`UpToAbort`). |
| `TestPlan` | The test script's plan builder. It is imperative, over the one counter array that three names share. |
| `TestRun` | The test script's trial loop and end of run. |
| `Training` | The training session: plan construction and the run and session loops. |
| `FreeExploration` | The free-exploration session. |

Where the design description and the code disagree, the model follows the code.

- **An error exactly on a threshold.** The design text gives every error a
  level. In the code every comparison is strict, so an error of exactly 3, 5, 7
  or 9 gets no level. The script then fails on the unbound variable. The model
  stops the trace with `Abort` there.
- **Where the run time is measured from.** The test script measures it from the
  launch of the script, not from the trigger. The assignment to `startTime`
  inside `WaitForTrig` only binds a local name (`CONMEM6_TEST.py:357`). Elapsed
  times are therefore given as "time since launch at the end of each trial".
- **Indentation in `Replace`.** In the test script, the line
  `CONMEM6_TEST.py:326`, which draws the random heading, is indented with eight
  spaces, while the rest of `Replace` is indented with two tabs. Python reads
  that as a dedent to a level that does not exist and rejects the file with an
  indentation error, so the script as written cannot load. The model takes the
  line as part of `Replace`'s body: a random heading, then `setEuler` at
  `:327`. The heading itself only places the participant (see "Teleports").
- **A mean with no errors.** When no circle or square trial was performed, the
  end-of-run mean is not a number. No feedback branch matches it, and the script
  fails (`Abort`).

## Model

| member | source | states |
|---|---|---|
| Counterbalance.ContextGen | CONMEM6_TRAIN.py:86-98 | The context is the circle (1) or the square (2), and it is the circle exactly when the run number and the subject number have the same parity |
| Counterbalance.ContextAlternates | CONMEM6_FREE.py:70-81 | For one subject, consecutive runs are in different arenas, and runs two apart are in the same arena |
| Counterbalance.ContextFlipsWithSubject | CONMEM6_TRAIN.py:88-97 | In the same run, two subjects get different arenas exactly when their parities differ |
| Counterbalance.ArenaLabel | CONMEM6_TRAIN.py:329-333 | The arena number announced in a run's start message is 1 or 2, and it is 1 exactly for odd runs, whoever the subject |
| Counterbalance.ArenaLabelOrdersArenas | CONMEM6_TRAIN.py:329-333 | The announced arena number does not depend on the subject. It is 1 exactly when the run is in the arena of run 1, and it equals the context id only for odd subjects |
| Counterbalance.ArenaLabelDiffersFromContext | CONMEM6_TRAIN.py:329-333 | A concrete run (run 2, subject 4) where the announced arena number (2) is not the actual context (1) |
| Counterbalance.TrainLogFileName | CONMEM6_TRAIN.py:99 | The training log's name is the data path, 'TRAIN_tracking_', the subject and '_', then the context digit, and it ends in '.txt' |
| Counterbalance.TrainLogFileNameRun | CONMEM6_TRAIN.py:99 | The run number can be parsed back from the digits between the context separator and the extension |
| Counterbalance.TrainLogFileNamesDistinct | CONMEM6_TRAIN.py:99-108 | Two different runs of one subject never name the same training log |
| Decimal.NatToString | CONMEM6_TRAIN.py:99 | The decimal rendering of a number is non-empty and all digits, and it has one digit exactly when the number is below 10 |
| Decimal.IntToString | CONMEM6_TEST.py:55 | The rendering of an integer is non-empty and starts with a minus sign exactly when the integer is negative |
| Decimal.ParseNatToString | CONMEM6_TRAIN.py:99 | Parsing the decimal rendering of a number gives the number back |
| Decimal.IntToStringInjective | CONMEM6_TEST.py:55 | Different integers have different renderings |
| Scoring.SquaredError | CONMEM6_TEST.py:269-271 | The squared error is never negative |
| Scoring.ErrorIgnoresHeight | CONMEM6_TEST.py:269-271 | The height component of either position never changes the error |
| Scoring.ErrorOrder | CONMEM6_TEST.py:269-271 | Comparing two errors measured from the same response is the same as comparing the squared horizontal distances, in both directions |
| Scoring.ErrorUnique | CONMEM6_TEST.py:269-271 | The error is determined by the two positions |
| Scoring.ErrorExample | CONMEM6_TEST.py:269-271 | A 3-4-5 triangle in the horizontal plane gives an error of 5, whatever the heights |
| Scoring.ExceededThresholds | CONMEM6_TEST.py:296 | The count of thresholds an error strictly exceeds is the sum of the four comparisons with 3, 5, 7 and 9 |
| Scoring.Feedback | CONMEM6_TEST.py:296-306 | There is no level exactly when the error equals one of the four thresholds. Otherwise the level is in 1..5 and equals one plus the number of thresholds the error exceeds |
| Scoring.FeedbackMonotone | CONMEM6_TRAIN.py:279-290 | A larger error never earns a smaller level |
| Scoring.FeedbackExamples | CONMEM6_TRAIN.py:279-290 | 2.9 earns level 1, 5.5 earns 3 and 9.1 earns 5; 3.0 and 9.0 earn none |
| Scoring.SquircleChoice | CONMEM6_TEST.py:451-454 | The reported interpretation is always 1 or 2 (which one is stated by SquircleChoiceNearer) |
| Scoring.SquircleChoiceNearer | CONMEM6_TEST.py:451-454 | Interpretation 1 is reported exactly when the response is strictly nearer the first location set, so a tie reports 2. The reported error is the smaller of the two |
| Scoring.Mean | CONMEM6_TEST.py:461 | The mean of no errors is undefined. Otherwise the mean times the count is the sum |
| Scoring.MeanBounds | CONMEM6_TEST.py:461 | The mean lies between any lower and upper bound of the errors |
| Events.ContextName | CONMEM6_TEST.py:415-420 | A context is named 'squircle' exactly when it is neither 1 (circle) nor 2 (square) |
| Events.ContextNamesDistinct | CONMEM6_TEST.py:415-420 | Contexts 1, 2 and 3 have three different names ('circle', 'square', 'squircle'), so a marker's name determines its context |
| Events.ObjectNamesDistinct | CONMEM6_TEST.py:72 | The four object names are pairwise different, so a marker's name determines its object |
| TestPlan.Flatten | CONMEM6_TEST.py:375-380 | Every entry of the context list comes from one of the drawn blocks (its length and range are stated by FlattenLength and FlattenContexts) |
| TestPlan.FlattenLength | CONMEM6_TEST.py:375-380 | With N blocks, the context list has 2 entries per even block and 3 per odd block: 2·⌈N/2⌉ + 3·⌊N/2⌋ |
| TestPlan.FlattenContexts | CONMEM6_TEST.py:376-380 | Every context in the list is 1, 2 or 3 |
| TestPlan.PickLeastUsed | CONMEM6_TEST.py:385-388 | The chosen object is the tie-break's choice among those with the minimal count. Its count rises by exactly one and no other count changes |
| TestPlan.AllocateBlock | CONMEM6_TEST.py:382-402 | One object is appended per block entry, whichever of the three aliased names the entry selects. The list stays a least-used-first allocation, and the shared counter holds its counts |
| TestPlan.BuildPlan | CONMEM6_TEST.py:369-402 | The context list is the blocks in draw order. There is one object per context entry, and the object list is the least-used-first allocation from a zero counter |
| TestPlan.Pick | CONMEM6_TEST.py:385-387 | The pick from a counter is a valid index of the counter; that it has the minimal count is PickIsLeastUsed |
| TestPlan.Greedy | CONMEM6_TEST.py:382-402 | Defines a least-used-first allocation: each emitted object is the pick from the counts of the objects emitted before it (no contract of its own; its properties are GreedyUnique, GreedyBalanced and GreedyChoosesLeastUsed) |
| TestPlan.PickIsLeastUsed | CONMEM6_TEST.py:385-387 | The picked object has the smallest count |
| TestPlan.GreedyUnique | CONMEM6_TEST.py:382-402 | Given the same tie-break draws, the object list is determined |
| TestPlan.GreedyBalanced | CONMEM6_TEST.py:372-400 | After every emission the largest and smallest counts differ by at most one, and the counts add up to the number of emissions |
| TestPlan.GreedyChoosesLeastUsed | CONMEM6_TEST.py:385-400 | Just before each emission, the emitted object was used no more often than any other object |
| TestPlan.PlanProperties | CONMEM6_TEST.py:369-402 | The whole plan: its length, every context in 1..3 and every object in 0..3, each object least used when chosen, and every prefix balanced |
| TestRun.TestLogFileName | CONMEM6_TEST.py:55 | The test log's name starts with the data path, 'TEST_tracking_', the subject and '_', and ends in '.txt' |
| TestRun.TestLogFileNamesDistinct | CONMEM6_TEST.py:55 | Two runs of one subject never name the same test log |
| TestRun.TestLogFileNameParts | CONMEM6_TEST.py:55 | The test log's name is the data path, 'TEST_tracking_', the subject and '_', then the run number, and it ends in '.txt' |
| TestRun.LocationSetsMirrored | CONMEM6_TEST.py:73 | The square location set is the circle set with x negated (mirrored across x = 0) |
| TestRun.ReplacedMarker | CONMEM6_TEST.py:436-455 | The result marker is the squircle form exactly for context 3, and it names the trial's object |
| TestRun.ReplacedErrorIsOwnContext | CONMEM6_TEST.py:424-442 | A circle or square trial logs the error against the object's location in its own context |
| TestRun.SquircleMarkerChoice | CONMEM6_TEST.py:443-455 | A squircle marker carries both raw errors. It reports 1 exactly when the response is strictly nearer location set 1, and 2 exactly when it is at least as near set 2 |
| TestRun.TrialEvents | CONMEM6_TEST.py:413-455 | A trial is four steps; what it writes is stated by TrialWrites, and that it never fails by TrialsNoAbort |
| TestRun.TrialWrites | CONMEM6_TEST.py:429-455 | A trial writes its start marker and then its result marker, and nothing else |
| TestRun.TrialsNoAbort | CONMEM6_TEST.py:411-457 | The trials themselves never stop the script |
| TestRun.RecordedErrors | CONMEM6_TEST.py:436-442 | After k trials at most k errors are kept (squircle trials keep none) |
| TestRun.TrialsMarkers | CONMEM6_TEST.py:428-455 | Trial i writes 'Start replace, <context>' at line 2i and its result marker at line 2i+1 |
| TestRun.RecordedErrorsAreLogged | CONMEM6_TEST.py:439-442 | The errors kept for the mean are exactly the errors in the circle and square result markers, in order |
| TestRun.FirstOver | CONMEM6_TEST.py:460 | It finds the first trial at or after a start index that ends with the run time used up. It finds none exactly when every such trial ends in time |
| TestRun.Performed | CONMEM6_TEST.py:411-462 | The trials performed are those up to and including the first that ends past the run length. Every earlier trial ended in time |
| TestRun.EndOfRun | CONMEM6_TEST.py:459-462 | The run ends in failure exactly when there is no error to average or the mean lies on a threshold. Otherwise it shows a feedback image of level 1..5, and that level is the one the mean of the kept errors earns |
| TestRun.EndOfRunShowsMeanLevel | CONMEM6_TEST.py:459-462 | The end of a run shows the feedback image of a given level exactly when the kept errors have a mean and that mean earns that level |
| TestRun.AccurateRunEarnsBestLevel | CONMEM6_TEST.py:297-298 | A run whose kept errors are all below 3 earns image 1 |
| TestRun.RunEnd | CONMEM6_TEST.py:459-462 | A run ends with nothing exactly when all trials were performed and none ended past the run length |
| TestRun.FirstOverIs | CONMEM6_TEST.py:460 | The first late trial is found where it is |
| TestRun.RunEndsAfter | CONMEM6_TEST.py:457-462 | If trial k is the first to end past the run length, exactly k+1 trials are performed, followed by the end of the run |
| TestRun.RunCompletes | CONMEM6_TEST.py:411-462 | If no trial ends past the run length, all trials are performed and no feedback is shown |
| TestRun.TrialsStep | CONMEM6_TEST.py:411-457 | One more trial adds its own events, plus its error for a circle or square trial |
| TestRun.ReplaceTrial | CONMEM6_TEST.py:413-457 | One trial performs the prompt, start marker, replace phase and result marker, and keeps its error only for a circle or square trial |
| TestRun.FinishRun | CONMEM6_TEST.py:461-462 | It performs the end of the run: the feedback image of the mean (by EndOfRunShowsMeanLevel), or a failure |
| TestRun.PlanFeedsRun | CONMEM6_TEST.py:369-412 | The context list and object list that the plan builder produces meet the trial loop's precondition: equal lengths, contexts 1..3 and objects 0..3 |
| TestRun.RunTest | CONMEM6_TEST.py:405-462 | It opens the log, waits for the trigger and runs trials, checking the time only after each completed trial. The kept errors are those of the performed circle and square trials |
| TestRun.TestRunWrites | CONMEM6_TEST.py:428-455 | A run writes exactly two markers per performed trial |
| TestRun.TestRunAbortLast | CONMEM6_TEST.py:459-462 | A run that fails does so once, as its last step |
| TestRun.StopsAfterFirstLateTrial | CONMEM6_TEST.py:460-462 | Concrete runs: the run stops after the first late trial, a run late in trial 1 still performs it, and a run never late performs every trial |
| TestRun.TwoTrialRunExample | CONMEM6_TEST.py:436-442 | Both errors of a circle and a square trial are kept |
| TestRun.TwoTrialFeedbackExample | CONMEM6_TEST.py:461-462 | The mean 5.6 of 4.9 and 6.3 earns image 3 |
| TestRun.SquircleOnlyRunExample | CONMEM6_TEST.py:443-461 | A run whose only trial is a squircle trial keeps no error and fails for want of a mean |
| Training.PermutationCount | CONMEM6_TRAIN.py:444 | Each object appears exactly once in a permutation draw |
| Training.Prepended | CONMEM6_TRAIN.py:442-444 | Defines the plan built by putting each new draw in front (no contract of its own; its properties are PrependedLength, PrependedCounts, PrependedBlock and PrependedBlockPermutation) |
| Training.DrawPlan | CONMEM6_TRAIN.py:442-444 | Building the plan by putting each new draw in front of the plan so far gives the last draw first |
| Training.PrependedLength | CONMEM6_TRAIN.py:442-444 | The plan has four entries per draw |
| Training.PrependedCounts | CONMEM6_TRAIN.py:442-444 | Every object appears exactly once per draw, and nothing but the four objects appears |
| Training.PrependedBlock | CONMEM6_TRAIN.py:442-444 | Aligned block b of the plan is the draw made b draws before the last |
| Training.PrependedBlockPermutation | CONMEM6_TRAIN.py:442-444 | Every aligned block of four is a permutation of the four objects |
| Training.InitialCollects | CONMEM6_TRAIN.py:429-439 | It performs the collect-only trials in plan order |
| Training.ReplaceOutcome | CONMEM6_TRAIN.py:459-469 | After the replace phase, the trial stops at once (a single failure step) exactly when its error lies on a threshold; otherwise it has six steps, does not begin with a failure, and its second step shows the feedback image of the error's level; its markers are stated by ReplaceOutcomeMarkers |
| Training.ReplaceTrialEvents | CONMEM6_TRAIN.py:454-469 | A replace trial is four steps when its error lies on a threshold (it fails) and nine otherwise, the fifth showing the feedback image of the error's level; its markers are stated by ReplaceTrialMarkers |
| Training.ReplaceTrialFeedback | CONMEM6_TRAIN.py:459-469 | A replace trial whose error earns a level writes its result marker and then shows the feedback image of that level |
| Training.ReplaceTrial | CONMEM6_TRAIN.py:450-469 | It performs one replace trial as the script does, and reports failure exactly when the error lies on a threshold |
| Training.ReplaceTrials | CONMEM6_TRAIN.py:447-469 | It performs the replace trials in plan order and stops at the first error on a threshold. It reports failure exactly when it stopped |
| Training.TrainingRun | CONMEM6_TRAIN.py:416-473 | One run: open its log, announce the arena, run the collect-only trials of runs 1 and 2, run the replace trials, then show 'Good job!'. It stops at the first failure and reports failure exactly when it stopped |
| Training.RunTraining | CONMEM6_TRAIN.py:414-476 | The session: six runs, then 'Good job!' and 'Training Complete', cut at the first failure |
| Training.ReplaceTrialMarkers | CONMEM6_TRAIN.py:454-469 | A replace trial writes 'Start replace', 'Replaced <object>, <error>', 'Start collect' and 'Collected <object>' in order. If its error lies on a threshold, it writes only 'Start replace' and fails |
| Training.ReplaceEventsPrefix | CONMEM6_TRAIN.py:448-469 | The events of fewer replace trials are an initial segment of those of more |
| Training.ReplaceMarkers | CONMEM6_TRAIN.py:454-469 | While no error lies on a threshold, trial i writes its four markers at lines 4i to 4i+3 |
| Training.ReplaceFails | CONMEM6_TRAIN.py:459-464 | The replace trials fail exactly when one of their errors lies on a threshold |
| Training.ReplaceNoInitialCollect | CONMEM6_TRAIN.py:454-469 | Replace trials never write a 'Collected Initial' marker |
| Training.InitialMarkers | CONMEM6_TRAIN.py:429-439 | Collect-only trial i writes 'Start collect' at line 2i and '<object> Collected Initial' at line 2i+1 |
| Training.RunWrites | CONMEM6_TRAIN.py:416-473 | A run's markers are those of its collect-only trials followed by those of its replace trials |
| Training.InitialOnlyEarly | CONMEM6_TRAIN.py:424 | A run writes a 'Collected Initial' marker exactly when its run number is below 3 |
| Training.EarlyInitialPlan | CONMEM6_TRAIN.py:424-439 | Runs 1 and 2 have eight collect-only trials, two per object, each writing 'Start collect' and then '<object> Collected Initial' |
| Training.RunFails | CONMEM6_TRAIN.py:448-469 | A run fails exactly when one of its replace errors lies on a threshold |
| Training.RunContext | CONMEM6_TRAIN.py:418-437 | Every phase of a run is entered in the arena the counterbalancing assigns to that run |
| Training.RunOpened | CONMEM6_TRAIN.py:99-108 | A run opens exactly one tracking file: its own |
| Training.RunMessages | CONMEM6_TRAIN.py:421 | Outside its trials a run shows its start message with the arena label, then 'Good job!' |
| Training.RunsFail | CONMEM6_TRAIN.py:416-473 | The first k runs fail exactly when one of their replace errors lies on a threshold |
| Training.RunsOpened | CONMEM6_TRAIN.py:416-418 | The first k runs open the logs of runs 1 to k, in order |
| Training.RunsMessages | CONMEM6_TRAIN.py:416-473 | The first k runs show each run's start message and 'Good job!', in run order |
| Training.SessionCompletes | CONMEM6_TRAIN.py:414-476 | A session with no error on a threshold performs all six runs and ends with 'Training Complete' |
| Training.SessionOpened | CONMEM6_TRAIN.py:416-418 | Without a failure, the session opens the tracking files of runs 1 to 6 in turn |
| Training.SessionMessages | CONMEM6_TRAIN.py:416-475 | Without a failure, the session shows each run's start message and 'Good job!', then 'Good job!' once more and 'Training Complete' |
| Training.SessionFails | CONMEM6_TRAIN.py:459-464 | A session fails exactly when some replace error lies on a threshold |
| Training.SessionStopsAtFailure | CONMEM6_TRAIN.py:459-476 | A failing session stops at the failing trial. The failure is its last step and occurs once, and 'Training Complete' is never shown |
| FreeExploration.StartRun | CONMEM6_FREE.py:252-290 | An opening step shows one message, the start message with the run's arena number. A closing step begins with 'Good job!' and has two steps exactly when closeMess is set |
| FreeExploration.ClosingOnlyWhenAsked | CONMEM6_FREE.py:270-290 | The closing message is shown exactly when the step is not an opening and closeMess is set, and it comes right after 'Good job!' |
| FreeExploration.OpeningIgnoresClose | CONMEM6_FREE.py:252-269 | An opening step shows one start message, whatever closeMess says |
| FreeExploration.Experiment | CONMEM6_FREE.py:311-320 | The session loop performs the two runs, then the closing step |
| FreeExploration.ExploreRunsAt | CONMEM6_FREE.py:313-317 | Run r+1 is its start message at step 2r, followed by one exploration in that run's arena |
| FreeExploration.FreeSessionSteps | CONMEM6_FREE.py:311-320 | The session has exactly six steps: two start messages (arena numbers 1 and 2) each followed by an exploration, then 'Good job!' and the closing message |
| FreeExploration.FreeContextsAlternate | CONMEM6_FREE.py:72-81 | The two explorations take place in different arenas, so every subject explores both |
| FreeExploration.FreeSessionMessages | CONMEM6_FREE.py:254-290 | The session shows 'Arena 1', 'Arena 2', 'Good job!' and the closing message, in this order |
| FreeExploration.FreeSessionUnrecorded | CONMEM6_FREE.py:311-320 | The free-exploration session opens no tracking file and writes no marker |

## Left out

- **Rendering and the toolkit.** Scenes, textures, trees, boundaries, lighting,
  text styling, the keyboard camera and the 360° rotation animation of the test
  replace phase are rendering and foreign toolkit calls. Each navigation phase is
  a single `Enter` step.
- **Waiting.** Proximity sensors, key waits, the inter-trial interval and its
  random jitter, and the cooperative task scheduler are event plumbing. Their
  order is modelled; their timing is not.
- **Teleports.** The random teleport positions and headings only place the
  participant.
- **File handling.**
  - Opening, appending and the "file already exists" check are not modelled. A
    log is identified by its run (`LogFile`), and its name is given by
    `TestLogFileName` / `TrainLogFileName`.
  - The test script checks once, before its first trial. The training script
    checks at the start of every run, so it can also quit between runs, after
    the earlier runs have written their logs. The model assumes every name is
    fresh.
  - `TrainLogFileNamesDistinct` and `TestLogFileNamesDistinct` show that a
    session never collides with itself.
- **Samples.** The 20 Hz `getData` position samples in the tracking file are a
  timer callback with float formatting.
- **Numerics.**
  - Floating point, `numpy.sqrt` and `pol2cart` are not modelled. The error is
    any non-negative real whose square is the squared horizontal distance
    (`Scoring.IsError`). Numbers are reals with exact arithmetic.
  - The comparisons are those of the scripts.
  - `TestRun.RunLength` is exactly 484.5 seconds. The script computes
    `8.075*60` in binary floating point, which gives 484.49999999999994. An
    elapsed time in (484.49999999999994, 484.5] therefore ends the run in the
    script but not in the model.
- **Printing.** The training script's printout of each run's mean error goes to
  the console, not to the participant or the log.
- **Random draws.** The permutation draws, the tie-breaking index, the measured
  errors and the elapsed times are parameters. The preconditions are that each
  draw is a permutation of the right size and each tie-break lies below the
  number of candidates.
- **Training errors.** The training script measures each replace trial's error
  against the run's own location set (`CONMEM6_TRAIN.py:420`, `:459`). In the
  model that error is a free parameter. Unlike the test run's `ContextError`,
  nothing ties it to the run's context.
- **Marker text.** The decimal rendering of floats (`str(error)`) and of the
  marker and prompt texts is not modelled. Markers keep the context and object
  indices and the numeric values. `ContextNamesDistinct` and
  `ObjectNamesDistinct` show that nothing is lost.
- **Subject input.** The subject number is an integer. The test script puts
  the typed input into the file name as it was typed. The model assumes it was
  typed as the integer's canonical decimal rendering (no leading zeros or
  spaces).
- **The trigger screen.** In the model, the test run's "waiting for T" screen
  and the trigger are one step. Elapsed times are measured from the launch of
  the script.
- **The trace cut.** A failure (an error exactly on a threshold, or a test mean
  that is not a number) is modelled as the last step, `Abort`. What the toolkit
  does after the uncaught error is not modelled.
- **Arena contents.** The free-exploration `ContextGen` also shows and hides the
  arena's trees and boundaries. Only the returned context is modelled.
- **Trace lemmas and permutations.** Most trace lemmas require only that each
  draw has the right size (`SizedDraws`), not that it is a permutation. They
  therefore hold for more inputs than the scripts produce. The permutation facts
  are in `PrependedCounts`, `PrependedBlockPermutation` and `EarlyInitialPlan`.
