/**
 * The test run of the fMRI test script: after the trigger, one replace trial
 * per entry of the plan, each logged by a start and a result marker, until the
 * first trial that finishes with the run time used up; then the mean error of
 * the circle and square trials is turned into a feedback image.
 */
module TestRun {
  import opened Base
  import opened Decimal
  import opened Scoring
  import opened Events
  import TestPlan

  /** Length of a scan run in seconds (8.075 minutes). */
  const RunLength: real := 484.5

  /** Output directory of the test script. */
  const TestDataPath := "..\\Data\\TestingData\\"

  function TestLogPrefix(subject: int): string
  {
    TestDataPath + "TEST_tracking_" + IntToString(subject) + "_"
  }

  /** The tracking file of one test run: path, subject, run. */
  function TestLogFileName(subject: int, runNum: int): (name: string)
    ensures |name| > |TestLogPrefix(subject)| + 4
    ensures name[..|TestLogPrefix(subject)|] == TestLogPrefix(subject)
    ensures name[|name| - 4..] == ".txt"
  {
    TestLogPrefix(subject) + IntToString(runNum) + ".txt"
  }

  /** The run number stands, rendered in decimal, between the subject's prefix and the extension. */
  lemma TestLogFileNameParts(subject: int, runNum: int)
    ensures var name := TestLogFileName(subject, runNum);
            && |name| == |TestLogPrefix(subject)| + |IntToString(runNum)| + 4
            && name[..|TestLogPrefix(subject)|] == TestLogPrefix(subject)
            && name[|TestLogPrefix(subject)|..|name| - 4] == IntToString(runNum)
            && name[|name| - 4..] == ".txt"
  {
  }

  /** Two runs of one subject never write the same file. */
  lemma TestLogFileNamesDistinct(subject: int, run1: int, run2: int)
    requires run1 != run2
    ensures TestLogFileName(subject, run1) != TestLogFileName(subject, run2)
  {
    TestLogFileNameParts(subject, run1);
    TestLogFileNameParts(subject, run2);
    if TestLogFileName(subject, run1) == TestLogFileName(subject, run2) {
      IntToStringInjective(run1, run2);
    }
  }

  /** Where each object stands: location set 1 (circle) and location set 2 (square). */
  const TestObjectLocs: seq<seq<Pos>> :=
    [[Pos(-4.0, 0.07, 9.0), Pos(2.0, 0.29, 5.0), Pos(-7.0, 0.07, -4.0), Pos(10.0, 0.05, -5.0)],
     [Pos(4.0, 0.07, 9.0), Pos(-2.0, 0.29, 5.0), Pos(7.0, 0.07, -4.0), Pos(-10.0, 0.05, -5.0)]]

  /** The second location set is the first with x negated (mirrored across x = 0). */
  lemma LocationSetsMirrored(o: nat)
    requires o < ObjectCount
    ensures TestObjectLocs[1][o] == TestObjectLocs[0][o].(x := -TestObjectLocs[0][o].x)
  {
  }

  /** The two errors of one response: against the object's location in set 1 and in set 2. */
  datatype Measured = Measured(error1: real, error2: real)

  /** `m` holds the errors of the response position `response` for object `obj`. */
  ghost predicate MeasuredFrom(m: Measured, obj: nat, response: Pos)
    requires obj < ObjectCount
  {
    IsError(m.error1, TestObjectLocs[0][obj], response) && IsError(m.error2, TestObjectLocs[1][obj], response)
  }

  /** The error a circle or square trial logs and keeps: the one against its own context's location set. */
  function ContextError(context: int, m: Measured): real
    requires context == 1 || context == 2
  {
    if context == 1 then m.error1 else m.error2
  }

  /** The result marker of a trial. */
  function ReplacedMarker(context: int, obj: nat, m: Measured): (marker: Marker)
    requires 1 <= context <= 3 && obj < ObjectCount
    ensures marker.ReplacedSquircle? <==> context == 3
    ensures marker.ReplacedIn? <==> context != 3
    ensures marker.obj == obj
  {
    if context != 3 then ReplacedIn(context, obj, ContextError(context, m))
    else ReplacedSquircle(obj, SquircleChoice(m.error1, m.error2), m.error1, m.error2)
  }

  /**
   * In a circle or square trial the logged error is the horizontal distance from
   * the response to the object's location in that same context.
   */
  lemma ReplacedErrorIsOwnContext(context: int, obj: nat, m: Measured, response: Pos)
    requires (context == 1 || context == 2) && obj < ObjectCount && MeasuredFrom(m, obj, response)
    ensures var marker := ReplacedMarker(context, obj, m);
            marker.context == context
            && IsError(marker.error, TestObjectLocs[context - 1][obj], response)
  {
  }

  /**
   * A squircle trial logs both raw errors and reports interpretation 1 exactly
   * when the response is strictly nearer the object's location in set 1.
   */
  lemma {:induction false} SquircleMarkerChoice(obj: nat, m: Measured, response: Pos)
    requires obj < ObjectCount && MeasuredFrom(m, obj, response)
    ensures var marker := ReplacedMarker(3, obj, m);
            && marker.error1 == m.error1 && marker.error2 == m.error2
            && (marker.choice == 1 <==>
                SquaredError(TestObjectLocs[0][obj], response) < SquaredError(TestObjectLocs[1][obj], response))
            && (marker.choice == 2 <==>
                SquaredError(TestObjectLocs[1][obj], response) <= SquaredError(TestObjectLocs[0][obj], response))
  {
    SquircleChoiceNearer(m.error1, TestObjectLocs[0][obj], m.error2, TestObjectLocs[1][obj], response);
  }

  /** The events of one trial: prompt, start marker, replace phase, result marker. */
  function TrialEvents(context: int, obj: nat, m: Measured): (events: seq<Event>)
    requires 1 <= context <= 3 && obj < ObjectCount
    ensures |events| == 4
  {
    [Show(ReplacePrompt(obj)), Write(StartReplaceIn(context)),
     Enter(ReplacePhase(context)), Write(ReplacedMarker(context, obj, m))]
  }

  /** A trial writes its start marker and then its result marker, and no other line. */
  lemma TrialWrites(context: int, obj: nat, m: Measured)
    requires 1 <= context <= 3 && obj < ObjectCount
    ensures Writes(TrialEvents(context, obj, m)) == [StartReplaceIn(context), ReplacedMarker(context, obj, m)]
  {
    var events := TrialEvents(context, obj, m);
    WritesFour(events[0], events[1], events[2], events[3]);
  }

  /** The plan and the measured responses line up and hold contexts 1..3 and objects 0..3. */
  predicate ValidTrials(contexts: seq<int>, trials: seq<nat>, measured: seq<Measured>)
  {
    |trials| == |contexts| && |measured| == |contexts|
    && forall i :: 0 <= i < |contexts| ==> 1 <= contexts[i] <= 3 && trials[i] < ObjectCount
  }

  /** The events of the first `k` trials. */
  function TrialsEvents(contexts: seq<int>, trials: seq<nat>, measured: seq<Measured>, k: nat): seq<Event>
    requires ValidTrials(contexts, trials, measured) && k <= |contexts|
  {
    if k == 0 then []
    else TrialsEvents(contexts, trials, measured, k - 1) + TrialEvents(contexts[k - 1], trials[k - 1], measured[k - 1])
  }

  /** Trials never stop the script: a failure can only come at the end of the run. */
  lemma {:induction false} TrialsNoAbort(contexts: seq<int>, trials: seq<nat>, measured: seq<Measured>, k: nat)
    requires ValidTrials(contexts, trials, measured) && k <= |contexts|
    ensures Abort !in TrialsEvents(contexts, trials, measured, k)
  {
    if k > 0 {
      TrialsNoAbort(contexts, trials, measured, k - 1);
      var last := TrialEvents(contexts[k - 1], trials[k - 1], measured[k - 1]);
      assert Abort !in last;
    }
  }

  /** The errors kept for the mean after the first `k` trials: squircle trials keep none. */
  function RecordedErrors(contexts: seq<int>, measured: seq<Measured>, k: nat): (errors: seq<real>)
    requires |measured| == |contexts| && k <= |contexts|
    requires forall i :: 0 <= i < |contexts| ==> 1 <= contexts[i] <= 3
    ensures |errors| <= k
  {
    if k == 0 then []
    else
      RecordedErrors(contexts, measured, k - 1)
      + (if contexts[k - 1] != 3 then [ContextError(contexts[k - 1], measured[k - 1])] else [])
  }

  /** The error a circle or square result marker carries. */
  function ErrorOf(marker: Marker): seq<real>
  {
    if marker.ReplacedIn? then [marker.error] else []
  }

  /** The errors of the circle and square result markers, in order. */
  function LoggedErrors(markers: seq<Marker>): seq<real>
  {
    if markers == [] then [] else LoggedErrors(markers[..|markers| - 1]) + ErrorOf(markers[|markers| - 1])
  }

  lemma LoggedErrorsPair(a: Marker, b: Marker)
    ensures LoggedErrors([a, b]) == ErrorOf(a) + ErrorOf(b)
  {
    assert LoggedErrors([a]) == ErrorOf(a) by {
      assert [a][..0] == [];
    }
    assert [a, b][..1] == [a];
  }

  lemma {:induction false} LoggedErrorsConcat(a: seq<Marker>, b: seq<Marker>)
    ensures LoggedErrors(a + b) == LoggedErrors(a) + LoggedErrors(b)
  {
    if b == [] {
      assert a + b == a;
    } else {
      var front := b[..|b| - 1];
      assert LoggedErrors(a + front) == LoggedErrors(a) + LoggedErrors(front) by {
        LoggedErrorsConcat(a, front);
      }
      assert (a + b)[..|a + b| - 1] == a + front;
      assert (a + b)[|a + b| - 1] == b[|b| - 1];
    }
  }

  /** The marker lines of the first `k` trials: a start marker and a result marker each. */
  function TrialsLines(contexts: seq<int>, trials: seq<nat>, measured: seq<Measured>, k: nat): (lines: seq<Marker>)
    requires ValidTrials(contexts, trials, measured) && k <= |contexts|
    ensures |lines| == 2 * k
  {
    if k == 0 then []
    else
      TrialsLines(contexts, trials, measured, k - 1)
      + [StartReplaceIn(contexts[k - 1]), ReplacedMarker(contexts[k - 1], trials[k - 1], measured[k - 1])]
  }

  /** The trials write exactly their marker lines. */
  lemma {:induction false} TrialsWriteLines(contexts: seq<int>, trials: seq<nat>, measured: seq<Measured>, k: nat)
    requires ValidTrials(contexts, trials, measured) && k <= |contexts|
    ensures Writes(TrialsEvents(contexts, trials, measured, k)) == TrialsLines(contexts, trials, measured, k)
  {
    if k > 0 {
      var prev := TrialsEvents(contexts, trials, measured, k - 1);
      var last := TrialEvents(contexts[k - 1], trials[k - 1], measured[k - 1]);
      assert Writes(prev) == TrialsLines(contexts, trials, measured, k - 1) by {
        TrialsWriteLines(contexts, trials, measured, k - 1);
      }
      assert Writes(prev + last) == Writes(prev) + Writes(last) by {
        WritesConcat(prev, last);
      }
      TrialWrites(contexts[k - 1], trials[k - 1], measured[k - 1]);
    }
  }

  /** Trial `i` has its start marker at position `2i` and its result marker right after it. */
  lemma {:induction false} TrialsLinesPaired(contexts: seq<int>, trials: seq<nat>, measured: seq<Measured>, k: nat)
    requires ValidTrials(contexts, trials, measured) && k <= |contexts|
    ensures var lines := TrialsLines(contexts, trials, measured, k);
            forall i :: 0 <= i < k ==>
              lines[2 * i] == StartReplaceIn(contexts[i])
              && lines[2 * i + 1] == ReplacedMarker(contexts[i], trials[i], measured[i])
  {
    if k > 0 {
      TrialsLinesPaired(contexts, trials, measured, k - 1);
      var before := TrialsLines(contexts, trials, measured, k - 1);
      var lines := TrialsLines(contexts, trials, measured, k);
      forall i | 0 <= i < k
        ensures lines[2 * i] == StartReplaceIn(contexts[i])
        ensures lines[2 * i + 1] == ReplacedMarker(contexts[i], trials[i], measured[i])
      {
        if i < k - 1 {
          assert lines[2 * i] == before[2 * i] && lines[2 * i + 1] == before[2 * i + 1];
        }
      }
    }
  }

  /**
   * The markers of the first `k` trials come in pairs: trial `i` writes its
   * start marker at position `2i` and its result marker right after it.
   */
  lemma TrialsMarkers(contexts: seq<int>, trials: seq<nat>, measured: seq<Measured>, k: nat)
    requires ValidTrials(contexts, trials, measured) && k <= |contexts|
    ensures var lines := Writes(TrialsEvents(contexts, trials, measured, k));
            && |lines| == 2 * k
            && forall i :: 0 <= i < k ==>
                 lines[2 * i] == StartReplaceIn(contexts[i])
                 && lines[2 * i + 1] == ReplacedMarker(contexts[i], trials[i], measured[i])
  {
    TrialsWriteLines(contexts, trials, measured, k);
    TrialsLinesPaired(contexts, trials, measured, k);
  }

  /** The errors kept for the mean are exactly the errors in the circle and square result markers. */
  lemma {:induction false} RecordedErrorsInLines(contexts: seq<int>, trials: seq<nat>, measured: seq<Measured>, k: nat)
    requires ValidTrials(contexts, trials, measured) && k <= |contexts|
    ensures LoggedErrors(TrialsLines(contexts, trials, measured, k)) == RecordedErrors(contexts, measured, k)
  {
    if k > 0 {
      var before := TrialsLines(contexts, trials, measured, k - 1);
      var start := StartReplaceIn(contexts[k - 1]);
      var m := ReplacedMarker(contexts[k - 1], trials[k - 1], measured[k - 1]);
      assert LoggedErrors(before) == RecordedErrors(contexts, measured, k - 1) by {
        RecordedErrorsInLines(contexts, trials, measured, k - 1);
      }
      assert LoggedErrors([start, m]) == ErrorOf(m) by {
        LoggedErrorsPair(start, m);
        assert ErrorOf(start) == [];
      }
      assert LoggedErrors(before + [start, m]) == LoggedErrors(before) + LoggedErrors([start, m]) by {
        LoggedErrorsConcat(before, [start, m]);
      }
    }
  }

  /** The errors kept for the mean are exactly the errors in the circle and square result markers. */
  lemma RecordedErrorsAreLogged(contexts: seq<int>, trials: seq<nat>, measured: seq<Measured>, k: nat)
    requires ValidTrials(contexts, trials, measured) && k <= |contexts|
    ensures LoggedErrors(Writes(TrialsEvents(contexts, trials, measured, k))) == RecordedErrors(contexts, measured, k)
  {
    TrialsWriteLines(contexts, trials, measured, k);
    RecordedErrorsInLines(contexts, trials, measured, k);
  }

  /** The index of the first trial at or after `from` that ends with the run time used up. */
  function FirstOver(elapsed: seq<real>, from: nat): (r: Option<nat>)
    requires from <= |elapsed|
    ensures r.Some? ==> from <= r.value < |elapsed| && elapsed[r.value] >= RunLength
    ensures r.Some? ==> forall j :: from <= j < r.value ==> elapsed[j] < RunLength
    ensures r.None? <==> forall j :: from <= j < |elapsed| ==> elapsed[j] < RunLength
    decreases |elapsed| - from
  {
    if from == |elapsed| then None
    else if elapsed[from] >= RunLength then Some(from)
    else FirstOver(elapsed, from + 1)
  }

  /**
   * How many trials a run performs, given the time since launch at the end of
   * each trial: up to and including the first that ends at or past the run
   * length, or all of them.
   */
  function Performed(elapsed: seq<real>): (n: nat)
    ensures n <= |elapsed|
    ensures forall j :: 0 <= j < n - 1 ==> elapsed[j] < RunLength
    ensures n < |elapsed| ==> 0 < n && elapsed[n - 1] >= RunLength
  {
    match FirstOver(elapsed, 0)
    case None => |elapsed|
    case Some(i) => i + 1
  }

  /**
   * The end of a run: the mean of the kept errors and its feedback image. The
   * script stops on a failure when there is no mean (no circle or square trial
   * was performed) or when the mean lies exactly on a threshold.
   */
  function EndOfRun(errors: seq<real>): (events: seq<Event>)
    ensures |events| == 1
    ensures events == [Abort] <==> errors == [] || Mean(errors).value in Thresholds
    ensures events[0].Show? ==> events[0].screen.Smile? && 1 <= events[0].screen.level <= 5
    ensures events[0].Show? ==> Mean(errors).Some? && Feedback(Mean(errors).value) == Some(events[0].screen.level)
  {
    match Mean(errors)
    case None => [Abort]
    case Some(avg) =>
      match Feedback(avg)
      case None => [Abort]
      case Some(level) => [Show(Smile(level))]
  }

  /**
   * The image shown at the end of a run is the feedback image of the mean of
   * the kept errors, and no other.
   */
  lemma EndOfRunShowsMeanLevel(errors: seq<real>, level: nat)
    ensures EndOfRun(errors) == [Show(Smile(level))]
        <==> Mean(errors).Some? && Feedback(Mean(errors).value) == Some(level)
  {
  }

  /** A run whose kept errors are all below the first threshold earns the best image. */
  lemma AccurateRunEarnsBestLevel(errors: seq<real>, hi: real)
    requires errors != [] && hi < Thresholds[0]
    requires forall i :: 0 <= i < |errors| ==> 0.0 <= errors[i] <= hi
    ensures EndOfRun(errors) == [Show(Smile(1))]
  {
    MeanBounds(errors, 0.0, hi);
  }

  /** Opening the tracking file and waiting for the scanner's trigger. */
  function Opening(subject: int, runNum: int): seq<Event>
  {
    [OpenLog(TestLog(subject, runNum)), Show(WaitingForTrigger(runNum))]
  }

  /** How a run ends: with the feedback image or a failure once the time is up, or with nothing when it is never up. */
  function RunEnd(contexts: seq<int>, measured: seq<Measured>, elapsed: seq<real>): (end: seq<Event>)
    requires |measured| == |contexts| && |elapsed| == |contexts|
    requires forall i :: 0 <= i < |contexts| ==> 1 <= contexts[i] <= 3
    ensures |end| <= 1
    ensures end == [] <==> Performed(elapsed) == |elapsed| && FirstOver(elapsed, 0).None?
  {
    match FirstOver(elapsed, 0)
    case None => []
    case Some(i) => EndOfRun(RecordedErrors(contexts, measured, i + 1))
  }

  /** The events of a test run, from opening the tracking file to the end of the run, if reached. */
  function TestRunTrace(subject: int, runNum: int, contexts: seq<int>, trials: seq<nat>,
                        measured: seq<Measured>, elapsed: seq<real>): seq<Event>
    requires ValidTrials(contexts, trials, measured) && |elapsed| == |contexts|
  {
    Opening(subject, runNum) + TrialsEvents(contexts, trials, measured, Performed(elapsed))
    + RunEnd(contexts, measured, elapsed)
  }

  /** `k` is the first index at or after `from` whose trial ends with the run time used up. */
  lemma {:induction false} FirstOverIs(elapsed: seq<real>, from: nat, k: nat)
    requires from <= k < |elapsed| && elapsed[k] >= RunLength
    requires forall j :: from <= j < k ==> elapsed[j] < RunLength
    ensures FirstOver(elapsed, from) == Some(k)
    decreases k - from
  {
    if from < k {
      FirstOverIs(elapsed, from + 1, k);
    }
  }

  /** A run whose trial `k` is the first to end past the run length performs `k + 1` trials and then ends. */
  lemma RunEndsAfter(subject: int, runNum: int, contexts: seq<int>, trials: seq<nat>,
                     measured: seq<Measured>, elapsed: seq<real>, k: nat)
    requires ValidTrials(contexts, trials, measured) && |elapsed| == |contexts|
    requires k < |elapsed| && elapsed[k] >= RunLength
    requires forall j :: 0 <= j < k ==> elapsed[j] < RunLength
    ensures Performed(elapsed) == k + 1
    ensures TestRunTrace(subject, runNum, contexts, trials, measured, elapsed)
         == Opening(subject, runNum) + TrialsEvents(contexts, trials, measured, k + 1)
            + EndOfRun(RecordedErrors(contexts, measured, k + 1))
  {
    FirstOverIs(elapsed, 0, k);
  }

  /** A run none of whose trials ends past the run length performs them all. */
  lemma RunCompletes(subject: int, runNum: int, contexts: seq<int>, trials: seq<nat>,
                     measured: seq<Measured>, elapsed: seq<real>)
    requires ValidTrials(contexts, trials, measured) && |elapsed| == |contexts|
    requires forall j :: 0 <= j < |elapsed| ==> elapsed[j] < RunLength
    ensures Performed(elapsed) == |elapsed|
    ensures TestRunTrace(subject, runNum, contexts, trials, measured, elapsed)
         == Opening(subject, runNum) + TrialsEvents(contexts, trials, measured, |contexts|)
  {
    assert FirstOver(elapsed, 0).None?;
  }

  /** One more trial adds its events and, for a circle or square trial, its error. */
  lemma TrialsStep(contexts: seq<int>, trials: seq<nat>, measured: seq<Measured>, k: nat)
    requires ValidTrials(contexts, trials, measured) && k < |contexts|
    ensures TrialsEvents(contexts, trials, measured, k + 1)
         == TrialsEvents(contexts, trials, measured, k) + TrialEvents(contexts[k], trials[k], measured[k])
    ensures RecordedErrors(contexts, measured, k + 1)
         == RecordedErrors(contexts, measured, k)
            + if contexts[k] != 3 then [ContextError(contexts[k], measured[k])] else []
  {
  }

  /**
   * One trial as the script performs it: the events it causes and the error it
   * keeps. This is the body of `RunTest`'s loop; `TrialEvents` and
   * `ContextError` are the specification it is proved against.
   */
  method ReplaceTrial(context: int, obj: nat, m: Measured) returns (events: seq<Event>, kept: seq<real>)
    requires 1 <= context <= 3 && obj < ObjectCount
    ensures events == TrialEvents(context, obj, m)
    ensures kept == if context != 3 then [ContextError(context, m)] else []
  {
    var result;
    if context != 3 {
      var error := if context == 1 then m.error1 else m.error2;
      result := ReplacedIn(context, obj, error);
      kept := [error];
    } else if m.error1 < m.error2 {
      result := ReplacedSquircle(obj, 1, m.error1, m.error2);
      kept := [];
    } else {
      result := ReplacedSquircle(obj, 2, m.error1, m.error2);
      kept := [];
    }
    events := [Show(ReplacePrompt(obj)), Write(StartReplaceIn(context)), Enter(ReplacePhase(context))];
    events := events + [Write(result)];
  }

  /**
   * The end of the run as the script performs it: the mean, then the image or
   * a failure. This is the stop branch of `RunTest`; `EndOfRun` is its
   * specification.
   */
  method FinishRun(errors: seq<real>) returns (events: seq<Event>)
    ensures events == EndOfRun(errors)
  {
    var avg := Mean(errors);
    if avg.None? {
      events := [Abort];
    } else {
      var level := Feedback(avg.value);
      if level.None? {
        events := [Abort];
      } else {
        events := [Show(Smile(level.value))];
      }
    }
  }

  /**
   * The plan the script builds is a valid input for its trial loop: every
   * context entry is 1, 2 or 3 and every object is one of the four.
   */
  lemma PlanFeedsRun(perms: seq<seq<int>>, tieBreak: (nat, nat) -> nat, trials: seq<nat>, measured: seq<Measured>)
    requires TestPlan.ValidBlocks(perms) && TestPlan.ValidTieBreak(tieBreak)
    requires |trials| == |TestPlan.Flatten(perms)| && TestPlan.Greedy(trials, tieBreak)
    requires |measured| == |trials|
    ensures ValidTrials(TestPlan.Flatten(perms), trials, measured)
  {
    TestPlan.PlanProperties(perms, tieBreak, trials);
  }

  /**
   * The trial loop as the script runs it: prompt, start marker, replace phase,
   * result marker, and, only once a trial is complete, the check of the run
   * time, which ends the run with the feedback image.
   */
  method RunTest(subject: int, runNum: int, contexts: seq<int>, trials: seq<nat>,
                 measured: seq<Measured>, elapsed: seq<real>)
    returns (trace: seq<Event>, replaceError: seq<real>)
    requires ValidTrials(contexts, trials, measured) && |elapsed| == |contexts|
    ensures trace == TestRunTrace(subject, runNum, contexts, trials, measured, elapsed)
    ensures replaceError == RecordedErrors(contexts, measured, Performed(elapsed))
  {
    var opening := Opening(subject, runNum);
    trace := opening;
    replaceError := [];
    var count := 0;
    while count < |trials|
      invariant count <= |trials|
      invariant forall j :: 0 <= j < count ==> elapsed[j] < RunLength
      invariant trace == opening + TrialsEvents(contexts, trials, measured, count)
      invariant replaceError == RecordedErrors(contexts, measured, count)
    {
      var events, kept := ReplaceTrial(contexts[count], trials[count], measured[count]);
      trace := trace + events;
      replaceError := replaceError + kept;
      assert trace == opening + TrialsEvents(contexts, trials, measured, count + 1)
          && replaceError == RecordedErrors(contexts, measured, count + 1) by {
        TrialsStep(contexts, trials, measured, count);
      }
      count := count + 1;
      if elapsed[count - 1] >= RunLength {
        RunEndsAfter(subject, runNum, contexts, trials, measured, elapsed, count - 1);
        var last := FinishRun(replaceError);
        trace := trace + last;
        return;
      }
    }
    RunCompletes(subject, runNum, contexts, trials, measured, elapsed);
  }

  /** A run writes two markers per performed trial and nothing else. */
  lemma TestRunWrites(subject: int, runNum: int, contexts: seq<int>, trials: seq<nat>,
                      measured: seq<Measured>, elapsed: seq<real>)
    requires ValidTrials(contexts, trials, measured) && |elapsed| == |contexts|
    ensures |Writes(TestRunTrace(subject, runNum, contexts, trials, measured, elapsed))| == 2 * Performed(elapsed)
  {
    var opening := Opening(subject, runNum);
    var n := Performed(elapsed);
    var body := TrialsEvents(contexts, trials, measured, n);
    var end := RunEnd(contexts, measured, elapsed);
    assert Writes(opening) == [] by {
      PairRecords(opening[0], opening[1]);
    }
    assert Writes(end) == [] by {
      if end != [] {
        assert end == [end[0]];
        SingleRecords(end[0]);
      }
    }
    assert Writes(opening + body) == Writes(body) by {
      WritesConcat(opening, body);
    }
    assert Writes(opening + body + end) == Writes(opening + body) by {
      WritesConcat(opening + body, end);
    }
    TrialsMarkers(contexts, trials, measured, n);
  }

  /** A run stops on a failure only at its very end. */
  lemma TestRunAbortLast(subject: int, runNum: int, contexts: seq<int>, trials: seq<nat>,
                         measured: seq<Measured>, elapsed: seq<real>)
    requires ValidTrials(contexts, trials, measured) && |elapsed| == |contexts|
    requires Abort in TestRunTrace(subject, runNum, contexts, trials, measured, elapsed)
    ensures var trace := TestRunTrace(subject, runNum, contexts, trials, measured, elapsed);
            trace[|trace| - 1] == Abort && Abort !in trace[..|trace| - 1]
  {
    var opening := Opening(subject, runNum);
    var body := TrialsEvents(contexts, trials, measured, Performed(elapsed));
    var end := RunEnd(contexts, measured, elapsed);
    assert Abort !in opening + body by {
      TrialsNoAbort(contexts, trials, measured, Performed(elapsed));
    }
    AbortOnlyAtEnd(opening + body, end);
  }

  /**
   * A run stops after the first trial that ends past the run length even when
   * more trials remain, and a run that uses the time up in its first trial
   * still performs that trial.
   */
  lemma StopsAfterFirstLateTrial()
    ensures Performed([100.0, 484.5, 490.0]) == 2
    ensures Performed([500.0, 501.0]) == 1
    ensures Performed([10.0, 20.0]) == 2
  {
    assert FirstOver([100.0, 484.5, 490.0], 1) == Some(1);
    assert FirstOver([10.0, 20.0], 1) == None;
  }

  /**
   * A circle trial with error 4.9 and a square trial with error 6.3, the second
   * ending past the run length: both are performed and both errors are kept.
   */
  lemma TwoTrialRunExample()
    ensures Performed([300.0, 490.0]) == 2
    ensures RecordedErrors([1, 2], [Measured(4.9, 1.0), Measured(2.0, 6.3)], 2) == [4.9, 6.3]
  {
    assert FirstOver([300.0, 490.0], 1) == Some(1);
  }

  /** The mean 5.6 of those two errors earns image 3. */
  lemma TwoTrialFeedbackExample()
    ensures EndOfRun([4.9, 6.3]) == [Show(Smile(3))]
  {
    assert Sum([4.9, 6.3]) == 11.2 by {
      assert [4.9, 6.3][..1] == [4.9];
      assert [4.9][..0] == [];
    }
    assert Mean([4.9, 6.3]) == Some(5.6);
  }

  /** A run whose only performed trial is a squircle trial keeps no error and fails for want of a mean. */
  lemma SquircleOnlyRunExample()
    ensures RecordedErrors([3], [Measured(1.0, 2.0)], 1) == [] && EndOfRun([]) == [Abort]
  {
  }
}
