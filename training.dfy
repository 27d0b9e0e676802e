/**
 * The behavioural training session: six runs, each in the arena the
 * counterbalancing assigns; the first two runs start with collect-only trials,
 * and every run then has four replace/collect trials per object, each scored
 * with a feedback image before the object is collected.
 */
module Training {
  import opened Base
  import opened Scoring
  import opened Counterbalance
  import opened Events

  const Runs := 6
  const TrialsPerObject := 4
  const InitialCollectPerObject := 2

  /** A random ordering of the four objects, as one permutation draw yields it. */
  predicate IsPermutation(p: seq<nat>)
  {
    multiset(p) == multiset{0, 1, 2, 3}
  }

  lemma PermutationFacts(p: seq<nat>)
    requires IsPermutation(p)
    ensures |p| == ObjectCount
    ensures forall i :: 0 <= i < |p| ==> p[i] < ObjectCount
  {
    assert |p| == |multiset(p)|;
    forall i | 0 <= i < |p|
      ensures p[i] < ObjectCount
    {
      assert p[i] in multiset(p);
    }
  }

  /** Each object appears exactly once in a permutation. */
  lemma PermutationCount(p: seq<nat>, o: nat)
    requires IsPermutation(p) && o < ObjectCount
    ensures multiset(p)[o] == 1
  {
    assert o == 0 || o == 1 || o == 2 || o == 3;
  }

  predicate AllPermutations(perms: seq<seq<nat>>)
  {
    forall i :: 0 <= i < |perms| ==> IsPermutation(perms[i])
  }

  /** Every draw has four entries, as a permutation of the four objects does. */
  predicate FourEach(perms: seq<seq<nat>>)
  {
    forall i :: 0 <= i < |perms| ==> |perms[i]| == ObjectCount
  }

  lemma PermutationsFourEach(perms: seq<seq<nat>>)
    requires AllPermutations(perms)
    ensures FourEach(perms)
  {
    forall i | 0 <= i < |perms|
      ensures |perms[i]| == ObjectCount
    {
      PermutationFacts(perms[i]);
    }
  }

  /**
   * The plan the scripts build by putting each new draw in front of the
   * plan so far: the last draw comes first.
   */
  function Prepended(perms: seq<seq<nat>>): (plan: seq<nat>)
  {
    if perms == [] then [] else perms[|perms| - 1] + Prepended(perms[..|perms| - 1])
  }

  /** The plan as the scripts build it, one draw at a time. */
  method DrawPlan(perms: seq<seq<nat>>) returns (plan: seq<nat>)
    ensures plan == Prepended(perms)
  {
    plan := [];
    for n := 0 to |perms|
      invariant plan == Prepended(perms[..n])
    {
      assert perms[..n + 1][..n] == perms[..n];
      plan := perms[n] + plan;
    }
    assert perms[..|perms|] == perms;
  }

  /** Four entries per draw. */
  lemma {:induction false} PrependedLength(perms: seq<seq<nat>>)
    requires FourEach(perms)
    ensures |Prepended(perms)| == ObjectCount * |perms|
  {
    if perms != [] {
      PrependedLength(perms[..|perms| - 1]);
    }
  }

  /** Every object appears once per draw, and nothing else appears. */
  lemma {:induction false} PrependedCounts(perms: seq<seq<nat>>)
    requires AllPermutations(perms)
    ensures forall o: nat :: o < ObjectCount ==> multiset(Prepended(perms))[o] == |perms|
    ensures forall x :: x in Prepended(perms) ==> x < ObjectCount
  {
    if perms != [] {
      var init := perms[..|perms| - 1];
      PrependedCounts(init);
      PermutationFacts(perms[|perms| - 1]);
      var last := perms[|perms| - 1];
      assert multiset(Prepended(perms)) == multiset(last) + multiset(Prepended(init));
      forall o: nat | o < ObjectCount
        ensures multiset(Prepended(perms))[o] == |perms|
      {
        PermutationCount(last, o);
      }
      forall x | x in Prepended(perms)
        ensures x < ObjectCount
      {
        assert x in perms[|perms| - 1] || x in Prepended(init);
      }
    }
  }

  /** The `b`-th aligned block of four is the draw made `b` draws before the last. */
  lemma {:induction false} PrependedBlock(perms: seq<seq<nat>>, b: nat)
    requires FourEach(perms) && b < |perms|
    ensures |Prepended(perms)| == ObjectCount * |perms|
    ensures Prepended(perms)[ObjectCount * b..ObjectCount * b + ObjectCount] == perms[|perms| - 1 - b]
  {
    PrependedLength(perms);
    var init, last := perms[..|perms| - 1], perms[|perms| - 1];
    assert Prepended(perms) == last + Prepended(init);
    if b > 0 {
      assert FourEach(init);
      PrependedBlock(init, b - 1);
      assert Prepended(perms)[ObjectCount * b..ObjectCount * b + ObjectCount]
          == Prepended(init)[ObjectCount * (b - 1)..ObjectCount * (b - 1) + ObjectCount];
      assert init[|init| - 1 - (b - 1)] == perms[|perms| - 1 - b];
    }
  }

  /** Every aligned block of four in the plan orders the four objects. */
  lemma PrependedBlockPermutation(perms: seq<seq<nat>>, b: nat)
    requires AllPermutations(perms) && b < |perms|
    ensures |Prepended(perms)| == ObjectCount * |perms|
    ensures IsPermutation(Prepended(perms)[ObjectCount * b..ObjectCount * b + ObjectCount])
  {
    PermutationsFourEach(perms);
    PrependedBlock(perms, b);
  }

  /** What one run consumes of the random draws: the collect-only and replace permutations and the error of each replace trial. */
  datatype RunDraws = RunDraws(initialPerms: seq<seq<nat>>, replacePerms: seq<seq<nat>>, errors: seq<real>)

  /** The number and size of the draws a run makes; this is all the shape of a run depends on. */
  predicate SizedDraws(d: RunDraws)
  {
    |d.initialPerms| == InitialCollectPerObject && FourEach(d.initialPerms)
    && |d.replacePerms| == TrialsPerObject && FourEach(d.replacePerms)
    && |d.errors| == ObjectCount * TrialsPerObject
  }

  /** The draws of a run as the scripts make them: every ordering is a permutation of the four objects. */
  predicate ValidDraws(d: RunDraws)
  {
    SizedDraws(d) && AllPermutations(d.initialPerms) && AllPermutations(d.replacePerms)
  }

  /** The events a trial can cause: prompts and images, phases, marker lines, and a failure. */
  predicate InTrial(e: Event)
  {
    e.Write? || e.Enter? || e == Abort
    || (e.Show? && (e.screen.ReplacePrompt? || e.screen.CollectPrompt? || e.screen.Smile?))
  }

  /** One collect-only trial: prompt, start marker, collect phase, collected marker. */
  function InitialCollectEvents(context: int, obj: nat): seq<Event>
  {
    [Show(CollectPrompt(obj)), Write(StartCollect), Enter(CollectPhase(context, obj)), Write(CollectedInitial(obj))]
  }

  /** The first `k` collect-only trials of a run. */
  function InitialEvents(context: int, plan: seq<nat>, k: nat): seq<Event>
    requires k <= |plan|
  {
    if k == 0 then [] else InitialEvents(context, plan, k - 1) + InitialCollectEvents(context, plan[k - 1])
  }

  /** The start of a replace trial: prompt, start marker, replace phase. */
  function ReplaceStart(context: int, obj: nat): seq<Event>
  {
    [Show(ReplacePrompt(obj)), Write(StartReplace), Enter(ReplacePhase(context))]
  }

  /**
   * The end of a replace trial: when the error earns a level, the result
   * marker, the feedback image, and the collect prompt, start marker, collect
   * phase and collected marker. An error exactly on a threshold earns no level
   * and the script stops there.
   */
  function ReplaceOutcome(context: int, obj: nat, error: real): (outcome: seq<Event>)
    ensures |outcome| == if error in Thresholds then 1 else 6
    ensures outcome[0] == Abort <==> error in Thresholds
    ensures error !in Thresholds ==> outcome[1] == Show(Smile(Feedback(error).value))
  {
    match Feedback(error)
    case None => [Abort]
    case Some(level) =>
      [Write(Replaced(obj, error)), Show(Smile(level)), Show(CollectPrompt(obj)), Write(StartCollect),
       Enter(CollectPhase(context, obj)), Write(Collected(obj))]
  }

  /** One replace trial. */
  function ReplaceTrialEvents(context: int, obj: nat, error: real): (events: seq<Event>)
    ensures |events| == if error in Thresholds then 4 else 9
  {
    ReplaceStart(context, obj) + ReplaceOutcome(context, obj, error)
  }

  /** The first `k` replace trials of a run. */
  function ReplaceEvents(context: int, plan: seq<nat>, errors: seq<real>, k: nat): seq<Event>
    requires |errors| == |plan| && k <= |plan|
  {
    if k == 0 then []
    else ReplaceEvents(context, plan, errors, k - 1) + ReplaceTrialEvents(context, plan[k - 1], errors[k - 1])
  }

  /** Opening the run's tracking file, then the start message with the arena label. */
  function RunOpening(subject: int, runNum: int): seq<Event>
  {
    [OpenLog(TrainLog(subject, runNum)), Show(StartTraining(ArenaLabel(runNum)))]
  }

  /** The collect-only trials of a run: only the first two runs have them. */
  function RunInitial(subject: int, runNum: int, d: RunDraws): seq<Event>
  {
    var plan := if runNum < 3 then Prepended(d.initialPerms) else [];
    InitialEvents(ContextGen(runNum, subject), plan, |plan|)
  }

  /** The replace trials of a run. */
  function RunReplace(subject: int, runNum: int, d: RunDraws): seq<Event>
    requires SizedDraws(d)
  {
    var plan := Prepended(d.replacePerms);
    PrependedLength(d.replacePerms);
    ReplaceEvents(ContextGen(runNum, subject), plan, d.errors, |plan|)
  }

  /** A whole run, ended by the 'Good job!' message. */
  function RunEvents(subject: int, runNum: int, d: RunDraws): seq<Event>
    requires SizedDraws(d)
  {
    RunOpening(subject, runNum) + RunInitial(subject, runNum, d) + RunReplace(subject, runNum, d) + [Show(GoodJob)]
  }

  predicate SizedSession(draws: seq<RunDraws>)
  {
    |draws| == Runs && forall r :: 0 <= r < |draws| ==> SizedDraws(draws[r])
  }

  predicate ValidSession(draws: seq<RunDraws>)
  {
    |draws| == Runs && forall r :: 0 <= r < |draws| ==> ValidDraws(draws[r])
  }

  /** The first `k` runs; run `r + 1` uses the draws `draws[r]`. */
  function RunsEvents(subject: int, draws: seq<RunDraws>, k: nat): seq<Event>
    requires SizedSession(draws) && k <= Runs
  {
    if k == 0 then [] else RunsEvents(subject, draws, k - 1) + RunEvents(subject, k, draws[k - 1])
  }

  /** All six runs, then 'Good job!' once more and the closing message, had nothing failed. */
  function SessionEvents(subject: int, draws: seq<RunDraws>): seq<Event>
    requires SizedSession(draws)
  {
    RunsEvents(subject, draws, Runs) + [Show(GoodJob), Show(TrainingComplete)]
  }

  /** What a training session does: the session up to the first failure. */
  function TrainingTrace(subject: int, draws: seq<RunDraws>): seq<Event>
    requires SizedSession(draws)
  {
    UpToAbort(SessionEvents(subject, draws))
  }

  /** Collect-only trials never fail and cause only trial events. */
  lemma {:induction false} InitialInTrial(context: int, plan: seq<nat>, k: nat)
    requires k <= |plan|
    ensures forall i :: 0 <= i < |InitialEvents(context, plan, k)| ==>
              InTrial(InitialEvents(context, plan, k)[i]) && InitialEvents(context, plan, k)[i] != Abort
  {
    if k > 0 {
      InitialInTrial(context, plan, k - 1);
    }
  }

  /** Replace trials cause only trial events. */
  lemma {:induction false} ReplaceInTrial(context: int, plan: seq<nat>, errors: seq<real>, k: nat)
    requires |errors| == |plan| && k <= |plan|
    ensures forall i :: 0 <= i < |ReplaceEvents(context, plan, errors, k)| ==> InTrial(ReplaceEvents(context, plan, errors, k)[i])
  {
    if k > 0 {
      ReplaceInTrial(context, plan, errors, k - 1);
    }
  }

  /** The events of fewer replace trials are an initial segment of those of more. */
  lemma {:induction false} ReplaceEventsPrefix(context: int, plan: seq<nat>, errors: seq<real>, k: nat, n: nat)
    requires |errors| == |plan| && k <= n <= |plan|
    ensures IsPrefix(ReplaceEvents(context, plan, errors, k), ReplaceEvents(context, plan, errors, n))
  {
    if k < n {
      ReplaceEventsPrefix(context, plan, errors, k, n - 1);
      PrefixOfConcat(ReplaceEvents(context, plan, errors, n - 1), ReplaceTrialEvents(context, plan[n - 1], errors[n - 1]));
      PrefixTransitive(ReplaceEvents(context, plan, errors, k), ReplaceEvents(context, plan, errors, n - 1),
                       ReplaceEvents(context, plan, errors, n));
    }
  }

  /** The events of fewer runs are an initial segment of those of more. */
  lemma {:induction false} RunsEventsPrefix(subject: int, draws: seq<RunDraws>, k: nat, n: nat)
    requires SizedSession(draws) && k <= n <= Runs
    ensures IsPrefix(RunsEvents(subject, draws, k), RunsEvents(subject, draws, n))
  {
    if k < n {
      RunsEventsPrefix(subject, draws, k, n - 1);
      PrefixOfConcat(RunsEvents(subject, draws, n - 1), RunEvents(subject, n, draws[n - 1]));
      PrefixTransitive(RunsEvents(subject, draws, k), RunsEvents(subject, draws, n - 1), RunsEvents(subject, draws, n));
    }
  }

  /** One more replace trial: its start, then its outcome. */
  lemma ReplaceEventsStep(context: int, plan: seq<nat>, errors: seq<real>, k: nat)
    requires |errors| == |plan| && k < |plan|
    ensures ReplaceEvents(context, plan, errors, k + 1)
         == ReplaceEvents(context, plan, errors, k) + ReplaceStart(context, plan[k]) + ReplaceOutcome(context, plan[k], errors[k])
  {
    var prev, start, outcome := ReplaceEvents(context, plan, errors, k), ReplaceStart(context, plan[k]), ReplaceOutcome(context, plan[k], errors[k]);
    assert prev + (start + outcome) == prev + start + outcome;
  }

  /** The collect-only trials as the script performs them, in plan order. */
  method InitialCollects(context: int, plan: seq<nat>) returns (events: seq<Event>)
    ensures events == InitialEvents(context, plan, |plan|)
  {
    events := [];
    for k := 0 to |plan|
      invariant events == InitialEvents(context, plan, k)
    {
      var nn := plan[k];
      events := events + [Show(CollectPrompt(nn)), Write(StartCollect), Enter(CollectPhase(context, nn)), Write(CollectedInitial(nn))];
    }
  }

  /**
   * One replace trial as the script performs it: prompt, 'Start replace', the
   * replace phase, then the scoring of the error; `failed` tells whether the
   * error earned no level, which stops the script. This is the body of
   * `ReplaceTrials`' loop; `ReplaceTrialEvents` is its specification.
   */
  method ReplaceTrial(context: int, obj: nat, error: real) returns (trial: seq<Event>, failed: bool)
    ensures trial == ReplaceTrialEvents(context, obj, error)
    ensures failed <==> error in Thresholds
  {
    trial := [Show(ReplacePrompt(obj)), Write(StartReplace), Enter(ReplacePhase(context))];
    var level := Feedback(error);
    if level.None? {
      trial := trial + [Abort];
      failed := true;
      return;
    }
    trial := trial + [Write(Replaced(obj, error)), Show(Smile(level.value)), Show(CollectPrompt(obj)), Write(StartCollect)];
    trial := trial + [Enter(CollectPhase(context, obj)), Write(Collected(obj))];
    failed := false;
  }

  /**
   * The replace trials as the script performs them, in plan order, stopping
   * at the first error that earns no feedback level; `failed` tells whether it did.
   */
  method ReplaceTrials(context: int, plan: seq<nat>, errors: seq<real>) returns (events: seq<Event>, failed: bool)
    requires |errors| == |plan|
    ensures events == UpToAbort(ReplaceEvents(context, plan, errors, |plan|))
    ensures failed <==> Abort in events
  {
    events := [];
    for k := 0 to |plan|
      invariant events == ReplaceEvents(context, plan, errors, k) && Abort !in events
    {
      var trial, stop := ReplaceTrial(context, plan[k], errors[k]);
      ghost var started := events + ReplaceStart(context, plan[k]);
      assert events + trial == ReplaceEvents(context, plan, errors, k + 1) by {
        ReplaceEventsStep(context, plan, errors, k);
      }
      if stop {
        assert events + trial == started + [Abort] by {
          assert ReplaceOutcome(context, plan[k], errors[k]) == [Abort];
        }
        assert Abort !in started by {
          ReplaceStartMarkers(context, plan[k]);
        }
        events := events + trial;
        UpToAbortStopsAt(started, events);
        ReplaceEventsPrefix(context, plan, errors, k + 1, |plan|);
        UpToAbortExtends(events, ReplaceEvents(context, plan, errors, |plan|));
        failed := true;
        return;
      }
      assert Abort !in trial by {
        ReplaceTrialMarkers(context, plan[k], errors[k]);
      }
      events := events + trial;
    }
    UpToAbortNoAbort(events);
    failed := false;
  }

  /**
   * One run as the script performs it: open the tracking file, announce the
   * arena, the collect-only trials of the first two runs, the replace trials,
   * and 'Good job!', unless a trial failed.
   */
  method TrainingRun(subject: int, runNum: int, d: RunDraws) returns (events: seq<Event>, failed: bool)
    requires ValidDraws(d)
    ensures events == UpToAbort(RunEvents(subject, runNum, d))
    ensures failed <==> Abort in events
  {
    var context := ContextGen(runNum, subject);
    events := [OpenLog(TrainLog(subject, runNum)), Show(StartTraining(ArenaLabel(runNum)))];
    var initial: seq<nat> := [];
    if runNum < 3 {
      initial := DrawPlan(d.initialPerms);
    }
    var collects := InitialCollects(context, initial);
    assert collects == RunInitial(subject, runNum, d);
    InitialInTrial(context, initial, |initial|);
    events := events + collects;
    ghost var before := events;
    assert Abort !in before;
    var plan := DrawPlan(d.replacePerms);
    PrependedLength(d.replacePerms);
    var trials;
    trials, failed := ReplaceTrials(context, plan, d.errors);
    ghost var replace := RunReplace(subject, runNum, d);
    assert trials == UpToAbort(replace);
    UpToAbortAround(before, replace, [Show(GoodJob)]);
    UpToAbortKeepsAbort(replace);
    events := events + trials;
    if failed {
      return;
    }
    events := events + [Show(GoodJob)];
  }

  /** The whole session as the script performs it, stopping at the first failure. */
  method RunTraining(subject: int, draws: seq<RunDraws>) returns (trace: seq<Event>)
    requires ValidSession(draws)
    ensures trace == TrainingTrace(subject, draws)
  {
    trace := [];
    for r := 0 to Runs
      invariant trace == RunsEvents(subject, draws, r) && Abort !in trace
    {
      var events, failed := TrainingRun(subject, r + 1, draws[r]);
      ghost var before := trace;
      ghost var run := RunEvents(subject, r + 1, draws[r]);
      trace := trace + events;
      UpToAbortKeepsAbort(run);
      UpToAbortAfter(before, run);
      assert RunsEvents(subject, draws, r + 1) == before + run;
      if failed {
        RunsEventsPrefix(subject, draws, r + 1, Runs);
        PrefixOfConcat(RunsEvents(subject, draws, Runs), [Show(GoodJob), Show(TrainingComplete)]);
        PrefixTransitive(RunsEvents(subject, draws, r + 1), RunsEvents(subject, draws, Runs), SessionEvents(subject, draws));
        UpToAbortExtends(RunsEvents(subject, draws, r + 1), SessionEvents(subject, draws));
        UpToAbortNoAbort(before);
        return;
      }
      UpToAbortNoAbort(run);
    }
    trace := trace + [Show(GoodJob), Show(TrainingComplete)];
    UpToAbortNoAbort(trace);
  }

  /**
   * A replace trial that does not fail shows, right after its result marker,
   * the feedback image of its error's level.
   */
  lemma ReplaceTrialFeedback(context: int, obj: nat, error: real)
    requires error !in Thresholds
    ensures var events := ReplaceTrialEvents(context, obj, error);
            && |events| == 9 && events[3] == Write(Replaced(obj, error))
            && events[4] == Show(Smile(Feedback(error).value))
  {
  }

  /**
   * A replace trial writes 'Start replace', 'Replaced', 'Start collect' and
   * 'Collected', in this order, or only 'Start replace' when its error lies on
   * a threshold, in which case it is the trial that fails.
   */
  lemma ReplaceTrialMarkers(context: int, obj: nat, error: real)
    ensures Writes(ReplaceTrialEvents(context, obj, error))
         == if error !in Thresholds then [StartReplace, Replaced(obj, error), StartCollect, Collected(obj)]
            else [StartReplace]
    ensures Abort in ReplaceTrialEvents(context, obj, error) <==> error in Thresholds
  {
    ReplaceStartMarkers(context, obj);
    ReplaceOutcomeMarkers(context, obj, error);
    WritesConcat(ReplaceStart(context, obj), ReplaceOutcome(context, obj, error));
  }

  lemma ReplaceStartMarkers(context: int, obj: nat)
    ensures Writes(ReplaceStart(context, obj)) == [StartReplace]
    ensures Abort !in ReplaceStart(context, obj)
  {
    var a, b, c := Show(ReplacePrompt(obj)), Write(StartReplace), Enter(ReplacePhase(context));
    assert ReplaceStart(context, obj) == [a, b] + [c];
    assert Writes([a, b]) == [StartReplace] by {
      PairRecords(a, b);
    }
    assert Writes([c]) == [] by {
      SingleRecords(c);
    }
    WritesConcat([a, b], [c]);
  }

  lemma ReplaceOutcomeMarkers(context: int, obj: nat, error: real)
    ensures Writes(ReplaceOutcome(context, obj, error))
         == if error !in Thresholds then [Replaced(obj, error), StartCollect, Collected(obj)] else []
    ensures Abort in ReplaceOutcome(context, obj, error) <==> error in Thresholds
  {
    match Feedback(error)
    case None =>
      SingleRecords(Abort);
    case Some(level) =>
      var a, b := Write(Replaced(obj, error)), Show(Smile(level));
      var tail := [Show(CollectPrompt(obj)), Write(StartCollect), Enter(CollectPhase(context, obj)), Write(Collected(obj))];
      assert ReplaceOutcome(context, obj, error) == [a, b] + tail;
      assert Writes([a, b]) == [Replaced(obj, error)] by {
        PairRecords(a, b);
      }
      assert Writes(tail) == [StartCollect, Collected(obj)] by {
        WritesFour(tail[0], tail[1], tail[2], tail[3]);
      }
      WritesConcat([a, b], tail);
  }

  /** The marker lines of the first `k` replace trials when none of them fails. */
  function ReplaceLines(plan: seq<nat>, errors: seq<real>, k: nat): (lines: seq<Marker>)
    requires |errors| == |plan| && k <= |plan|
    ensures |lines| == 4 * k
  {
    if k == 0 then []
    else ReplaceLines(plan, errors, k - 1) + [StartReplace, Replaced(plan[k - 1], errors[k - 1]), StartCollect, Collected(plan[k - 1])]
  }

  /** While no error lies on a threshold, the replace trials write their marker lines. */
  lemma {:induction false} ReplaceWriteLines(context: int, plan: seq<nat>, errors: seq<real>, k: nat)
    requires |errors| == |plan| && k <= |plan|
    requires forall i :: 0 <= i < k ==> errors[i] !in Thresholds
    ensures Writes(ReplaceEvents(context, plan, errors, k)) == ReplaceLines(plan, errors, k)
  {
    if k > 0 {
      var prev := ReplaceEvents(context, plan, errors, k - 1);
      var last := ReplaceTrialEvents(context, plan[k - 1], errors[k - 1]);
      assert Writes(prev) == ReplaceLines(plan, errors, k - 1) by {
        ReplaceWriteLines(context, plan, errors, k - 1);
      }
      assert Writes(last) == [StartReplace, Replaced(plan[k - 1], errors[k - 1]), StartCollect, Collected(plan[k - 1])] by {
        ReplaceTrialMarkers(context, plan[k - 1], errors[k - 1]);
      }
      WritesConcat(prev, last);
    }
  }

  /** Trial `i`'s four marker lines stand at positions `4i` to `4i + 3`. */
  lemma {:induction false} ReplaceLinesAt(plan: seq<nat>, errors: seq<real>, k: nat)
    requires |errors| == |plan| && k <= |plan|
    ensures var lines := ReplaceLines(plan, errors, k);
            forall i :: 0 <= i < k ==>
              lines[4 * i] == StartReplace && lines[4 * i + 1] == Replaced(plan[i], errors[i])
              && lines[4 * i + 2] == StartCollect && lines[4 * i + 3] == Collected(plan[i])
  {
    if k > 0 {
      ReplaceLinesAt(plan, errors, k - 1);
      var before := ReplaceLines(plan, errors, k - 1);
      var lines := ReplaceLines(plan, errors, k);
      forall i | 0 <= i < k
        ensures lines[4 * i] == StartReplace && lines[4 * i + 1] == Replaced(plan[i], errors[i])
        ensures lines[4 * i + 2] == StartCollect && lines[4 * i + 3] == Collected(plan[i])
      {
        if i < k - 1 {
          assert lines[4 * i] == before[4 * i] && lines[4 * i + 1] == before[4 * i + 1];
          assert lines[4 * i + 2] == before[4 * i + 2] && lines[4 * i + 3] == before[4 * i + 3];
        }
      }
    }
  }

  /**
   * While no error lies on a threshold, the replace trials write four markers
   * each: trial `i` writes 'Start replace', 'Replaced <object>, <error>',
   * 'Start collect' and 'Collected <object>' at positions `4i` to `4i + 3`.
   */
  lemma ReplaceMarkers(context: int, plan: seq<nat>, errors: seq<real>, k: nat)
    requires |errors| == |plan| && k <= |plan|
    requires forall i :: 0 <= i < k ==> errors[i] !in Thresholds
    ensures var lines := Writes(ReplaceEvents(context, plan, errors, k));
            && |lines| == 4 * k
            && forall i :: 0 <= i < k ==>
                 lines[4 * i] == StartReplace && lines[4 * i + 1] == Replaced(plan[i], errors[i])
                 && lines[4 * i + 2] == StartCollect && lines[4 * i + 3] == Collected(plan[i])
  {
    ReplaceWriteLines(context, plan, errors, k);
    ReplaceLinesAt(plan, errors, k);
  }

  /** The replace trials fail exactly when one of their errors lies on a threshold. */
  lemma {:induction false} ReplaceFails(context: int, plan: seq<nat>, errors: seq<real>, k: nat)
    requires |errors| == |plan| && k <= |plan|
    ensures Abort in ReplaceEvents(context, plan, errors, k) <==> exists i :: 0 <= i < k && errors[i] in Thresholds
  {
    if k > 0 {
      var prev := ReplaceEvents(context, plan, errors, k - 1);
      var last := ReplaceTrialEvents(context, plan[k - 1], errors[k - 1]);
      assert Abort in prev <==> exists i :: 0 <= i < k - 1 && errors[i] in Thresholds by {
        ReplaceFails(context, plan, errors, k - 1);
      }
      assert Abort in last <==> errors[k - 1] in Thresholds by {
        ReplaceTrialMarkers(context, plan[k - 1], errors[k - 1]);
      }
      assert ReplaceEvents(context, plan, errors, k) == prev + last;
    }
  }

  /** Replace trials never write a 'Collected Initial' marker. */
  lemma {:induction false} ReplaceNoInitialCollect(context: int, plan: seq<nat>, errors: seq<real>, k: nat)
    requires |errors| == |plan| && k <= |plan|
    ensures forall m :: m in Writes(ReplaceEvents(context, plan, errors, k)) ==> !m.CollectedInitial?
  {
    if k > 0 {
      var prev := ReplaceEvents(context, plan, errors, k - 1);
      var last := ReplaceTrialEvents(context, plan[k - 1], errors[k - 1]);
      assert forall m :: m in Writes(prev) ==> !m.CollectedInitial? by {
        ReplaceNoInitialCollect(context, plan, errors, k - 1);
      }
      assert forall m :: m in Writes(last) ==> !m.CollectedInitial? by {
        ReplaceTrialMarkers(context, plan[k - 1], errors[k - 1]);
      }
      assert Writes(prev + last) == Writes(prev) + Writes(last) by {
        WritesConcat(prev, last);
      }
    }
  }

  /** The marker lines of the first `k` collect-only trials. */
  function InitialLines(plan: seq<nat>, k: nat): (lines: seq<Marker>)
    requires k <= |plan|
    ensures |lines| == 2 * k
  {
    if k == 0 then [] else InitialLines(plan, k - 1) + [StartCollect, CollectedInitial(plan[k - 1])]
  }

  /** The collect-only trials write their marker lines. */
  lemma {:induction false} InitialWriteLines(context: int, plan: seq<nat>, k: nat)
    requires k <= |plan|
    ensures Writes(InitialEvents(context, plan, k)) == InitialLines(plan, k)
  {
    if k > 0 {
      var prev := InitialEvents(context, plan, k - 1);
      var last := InitialCollectEvents(context, plan[k - 1]);
      assert Writes(prev) == InitialLines(plan, k - 1) by {
        InitialWriteLines(context, plan, k - 1);
      }
      assert Writes(last) == [StartCollect, CollectedInitial(plan[k - 1])] by {
        WritesFour(last[0], last[1], last[2], last[3]);
      }
      WritesConcat(prev, last);
    }
  }

  /** Trial `i`'s two marker lines stand at positions `2i` and `2i + 1`. */
  lemma {:induction false} InitialLinesAt(plan: seq<nat>, k: nat)
    requires k <= |plan|
    ensures var lines := InitialLines(plan, k);
            forall i :: 0 <= i < k ==> lines[2 * i] == StartCollect && lines[2 * i + 1] == CollectedInitial(plan[i])
  {
    if k > 0 {
      InitialLinesAt(plan, k - 1);
      var before := InitialLines(plan, k - 1);
      var lines := InitialLines(plan, k);
      forall i | 0 <= i < k
        ensures lines[2 * i] == StartCollect && lines[2 * i + 1] == CollectedInitial(plan[i])
      {
        if i < k - 1 {
          assert lines[2 * i] == before[2 * i] && lines[2 * i + 1] == before[2 * i + 1];
        }
      }
    }
  }

  /**
   * Each collect-only trial writes 'Start collect' and then '<object> Collected
   * Initial': trial `i` at positions `2i` and `2i + 1`.
   */
  lemma InitialMarkers(context: int, plan: seq<nat>, k: nat)
    requires k <= |plan|
    ensures var lines := Writes(InitialEvents(context, plan, k));
            && |lines| == 2 * k
            && forall i :: 0 <= i < k ==> lines[2 * i] == StartCollect && lines[2 * i + 1] == CollectedInitial(plan[i])
  {
    InitialWriteLines(context, plan, k);
    InitialLinesAt(plan, k);
  }

  /** The run's opening and closing steps write nothing, so a run's markers are its trials' markers. */
  lemma RunWrites(subject: int, runNum: int, d: RunDraws)
    requires SizedDraws(d)
    ensures Writes(RunEvents(subject, runNum, d)) == Writes(RunInitial(subject, runNum, d)) + Writes(RunReplace(subject, runNum, d))
  {
    var opening, initial, replace := RunOpening(subject, runNum), RunInitial(subject, runNum, d), RunReplace(subject, runNum, d);
    var closing := [Show(GoodJob)];
    assert Writes(opening) == [] && Writes(closing) == [] by {
      OpeningRecords(subject, runNum);
      SingleRecords(Show(GoodJob));
    }
    WritesWithin(opening, initial, replace, closing);
  }

  /** Only the first two runs write 'Collected Initial' markers. */
  lemma InitialOnlyEarly(subject: int, runNum: int, d: RunDraws)
    requires SizedDraws(d)
    ensures (exists m :: m in Writes(RunEvents(subject, runNum, d)) && m.CollectedInitial?) <==> runNum < 3
  {
    var context := ContextGen(runNum, subject);
    var lines := Writes(RunEvents(subject, runNum, d));
    var initialLines, replaceLines := Writes(RunInitial(subject, runNum, d)), Writes(RunReplace(subject, runNum, d));
    assert lines == initialLines + replaceLines by {
      RunWrites(subject, runNum, d);
    }
    assert forall m :: m in replaceLines ==> !m.CollectedInitial? by {
      PrependedLength(d.replacePerms);
      ReplaceNoInitialCollect(context, Prepended(d.replacePerms), d.errors, ObjectCount * TrialsPerObject);
    }
    var plan := if runNum < 3 then Prepended(d.initialPerms) else [];
    assert initialLines == InitialLines(plan, |plan|) by {
      InitialWriteLines(context, plan, |plan|);
    }
    if runNum < 3 {
      PrependedLength(d.initialPerms);
      assert initialLines[1] == CollectedInitial(plan[0]) by {
        InitialLinesAt(plan, |plan|);
      }
      assert initialLines[1] in lines;
    }
  }

  /**
   * The collect-only trials of the first two runs: two per object, each
   * writing 'Start collect' and then '<object> Collected Initial'.
   */
  lemma EarlyInitialPlan(subject: int, runNum: int, d: RunDraws)
    requires ValidDraws(d) && runNum < 3
    ensures var lines, plan := Writes(RunInitial(subject, runNum, d)), Prepended(d.initialPerms);
            && |plan| == ObjectCount * InitialCollectPerObject && |lines| == 2 * |plan|
            && (forall o: nat :: o < ObjectCount ==> Count(plan, o) == InitialCollectPerObject)
            && forall i :: 0 <= i < |plan| ==> lines[2 * i] == StartCollect && lines[2 * i + 1] == CollectedInitial(plan[i])
  {
    var plan := Prepended(d.initialPerms);
    PrependedLength(d.initialPerms);
    PrependedCounts(d.initialPerms);
    InitialMarkers(ContextGen(runNum, subject), plan, |plan|);
  }

  /** One of the run's replace trials has an error that lies on a threshold. */
  predicate ThresholdError(d: RunDraws)
  {
    exists i :: 0 <= i < |d.errors| && d.errors[i] in Thresholds
  }

  /** A run fails exactly when the error of one of its replace trials lies on a threshold. */
  lemma RunFails(subject: int, runNum: int, d: RunDraws)
    requires SizedDraws(d)
    ensures Abort in RunEvents(subject, runNum, d) <==> ThresholdError(d)
  {
    var context := ContextGen(runNum, subject);
    var plan := Prepended(d.replacePerms);
    PrependedLength(d.replacePerms);
    ReplaceFails(context, plan, d.errors, |plan|);
    var initialPlan := if runNum < 3 then Prepended(d.initialPerms) else [];
    InitialInTrial(context, initialPlan, |initialPlan|);
    var opening, initial, replace := RunOpening(subject, runNum), RunInitial(subject, runNum, d), RunReplace(subject, runNum, d);
    assert RunEvents(subject, runNum, d) == opening + initial + replace + [Show(GoodJob)];
    assert Abort !in initial;
  }

  /** Every phase of a run is entered in the arena the counterbalancing assigns to that run. */
  lemma RunContext(subject: int, runNum: int, d: RunDraws)
    requires SizedDraws(d)
    ensures forall e :: e in RunEvents(subject, runNum, d) && e.Enter? ==> e.phase.context == ContextGen(runNum, subject)
  {
    var context := ContextGen(runNum, subject);
    var plan := Prepended(d.replacePerms);
    PrependedLength(d.replacePerms);
    ReplaceContext(context, plan, d.errors, |plan|);
    var initialPlan := if runNum < 3 then Prepended(d.initialPerms) else [];
    InitialContext(context, initialPlan, |initialPlan|);
    var opening, initial, replace := RunOpening(subject, runNum), RunInitial(subject, runNum, d), RunReplace(subject, runNum, d);
    assert RunEvents(subject, runNum, d) == opening + initial + replace + [Show(GoodJob)];
  }

  lemma {:induction false} InitialContext(context: int, plan: seq<nat>, k: nat)
    requires k <= |plan|
    ensures forall e :: e in InitialEvents(context, plan, k) && e.Enter? ==> e.phase.context == context
  {
    if k > 0 {
      InitialContext(context, plan, k - 1);
    }
  }

  lemma {:induction false} ReplaceContext(context: int, plan: seq<nat>, errors: seq<real>, k: nat)
    requires |errors| == |plan| && k <= |plan|
    ensures forall e :: e in ReplaceEvents(context, plan, errors, k) && e.Enter? ==> e.phase.context == context
  {
    if k > 0 {
      ReplaceContext(context, plan, errors, k - 1);
      var start, outcome := ReplaceStart(context, plan[k - 1]), ReplaceOutcome(context, plan[k - 1], errors[k - 1]);
      assert ReplaceEvents(context, plan, errors, k) == ReplaceEvents(context, plan, errors, k - 1) + start + outcome;
    }
  }

  /** No replace trial of the session has an error that lies on a threshold. */
  predicate NoThresholdError(draws: seq<RunDraws>)
  {
    forall r :: 0 <= r < |draws| ==> !ThresholdError(draws[r])
  }

  /** Outside its trials a run opens one tracking file: its own. */
  lemma RunOpened(subject: int, runNum: int, d: RunDraws)
    requires SizedDraws(d)
    ensures Opened(RunEvents(subject, runNum, d)) == [TrainLog(subject, runNum)]
  {
    var context := ContextGen(runNum, subject);
    var opening, initial, replace := RunOpening(subject, runNum), RunInitial(subject, runNum, d), RunReplace(subject, runNum, d);
    var closing := [Show(GoodJob)];
    assert Opened(initial) == [] by {
      var initialPlan := if runNum < 3 then Prepended(d.initialPerms) else [];
      InitialInTrial(context, initialPlan, |initialPlan|);
      QuietSteps(initial);
    }
    assert Opened(replace) == [] by {
      var plan := Prepended(d.replacePerms);
      PrependedLength(d.replacePerms);
      ReplaceInTrial(context, plan, d.errors, |plan|);
      QuietSteps(replace);
    }
    assert Opened(opening) == [TrainLog(subject, runNum)] && Opened(closing) == [] by {
      OpeningRecords(subject, runNum);
      SingleRecords(Show(GoodJob));
    }
    OpenedOutside(opening, initial, replace, closing);
    assert [TrainLog(subject, runNum)] + [] == [TrainLog(subject, runNum)];
  }

  /** Outside its trials a run shows two messages: the start message with the arena label, and 'Good job!'. */
  lemma RunMessages(subject: int, runNum: int, d: RunDraws)
    requires SizedDraws(d)
    ensures Messages(RunEvents(subject, runNum, d)) == [StartTraining(ArenaLabel(runNum)), GoodJob]
  {
    var context := ContextGen(runNum, subject);
    var opening, initial, replace := RunOpening(subject, runNum), RunInitial(subject, runNum, d), RunReplace(subject, runNum, d);
    var closing := [Show(GoodJob)];
    assert Messages(initial) == [] by {
      var initialPlan := if runNum < 3 then Prepended(d.initialPerms) else [];
      InitialInTrial(context, initialPlan, |initialPlan|);
      QuietSteps(initial);
    }
    assert Messages(replace) == [] by {
      var plan := Prepended(d.replacePerms);
      PrependedLength(d.replacePerms);
      ReplaceInTrial(context, plan, d.errors, |plan|);
      QuietSteps(replace);
    }
    FrameMessages(subject, runNum);
    MessagesOutside(opening, initial, replace, closing);
  }

  /** The messages of a run's opening and closing steps. */
  lemma FrameMessages(subject: int, runNum: int)
    ensures Messages(RunOpening(subject, runNum)) + Messages([Show(GoodJob)]) == [StartTraining(ArenaLabel(runNum)), GoodJob]
  {
    OpeningRecords(subject, runNum);
    SingleRecords(Show(GoodJob));
  }

  lemma OpeningRecords(subject: int, runNum: int)
    ensures Writes(RunOpening(subject, runNum)) == []
    ensures Opened(RunOpening(subject, runNum)) == [TrainLog(subject, runNum)]
    ensures Messages(RunOpening(subject, runNum)) == [StartTraining(ArenaLabel(runNum))]
  {
    var opening := RunOpening(subject, runNum);
    PairRecords(opening[0], opening[1]);
  }

  /** The first `k` runs fail exactly when one of their replace errors lies on a threshold. */
  lemma {:induction false} RunsFail(subject: int, draws: seq<RunDraws>, k: nat)
    requires SizedSession(draws) && k <= Runs
    ensures Abort in RunsEvents(subject, draws, k) <==> exists r :: 0 <= r < k && ThresholdError(draws[r])
  {
    if k > 0 {
      var prev, run := RunsEvents(subject, draws, k - 1), RunEvents(subject, k, draws[k - 1]);
      assert Abort in prev <==> exists r :: 0 <= r < k - 1 && ThresholdError(draws[r]) by {
        RunsFail(subject, draws, k - 1);
      }
      assert Abort in run <==> ThresholdError(draws[k - 1]) by {
        RunFails(subject, k, draws[k - 1]);
      }
      assert RunsEvents(subject, draws, k) == prev + run;
    }
  }

  /** The tracking files of runs 1 to `k`, in order. */
  function TrainingFiles(subject: int, k: nat): seq<LogFile>
  {
    if k == 0 then [] else TrainingFiles(subject, k - 1) + [TrainLog(subject, k)]
  }

  lemma {:induction false} TrainingFilesAt(subject: int, k: nat)
    ensures |TrainingFiles(subject, k)| == k
    ensures forall r :: 0 <= r < k ==> TrainingFiles(subject, k)[r] == TrainLog(subject, r + 1)
  {
    if k > 0 {
      TrainingFilesAt(subject, k - 1);
    }
  }

  /** For each of runs 1 to `k`, its start message with its arena label and then 'Good job!'. */
  function TrainingMessages(k: nat): seq<Screen>
  {
    if k == 0 then [] else TrainingMessages(k - 1) + [StartTraining(ArenaLabel(k)), GoodJob]
  }

  lemma {:induction false} TrainingMessagesAt(k: nat)
    ensures |TrainingMessages(k)| == 2 * k
    ensures forall r :: 0 <= r < k ==> TrainingMessages(k)[2 * r] == StartTraining(ArenaLabel(r + 1))
    ensures forall r :: 0 <= r < k ==> TrainingMessages(k)[2 * r + 1] == GoodJob
  {
    if k > 0 {
      TrainingMessagesAt(k - 1);
      var before := TrainingMessages(k - 1);
      forall r | 0 <= r < k - 1
        ensures TrainingMessages(k)[2 * r] == before[2 * r] && TrainingMessages(k)[2 * r + 1] == before[2 * r + 1]
      {
      }
    }
  }

  /** The runs alone never show the closing message. */
  lemma {:induction false} TrainingMessagesNotComplete(k: nat)
    ensures TrainingComplete !in TrainingMessages(k)
  {
    if k > 0 {
      TrainingMessagesNotComplete(k - 1);
    }
  }

  /** The closing steps of a session: 'Good job!' and then 'Training Complete'. */
  lemma ClosingRecords()
    ensures Opened([Show(GoodJob), Show(TrainingComplete)]) == []
    ensures Messages([Show(GoodJob), Show(TrainingComplete)]) == [GoodJob, TrainingComplete]
  {
    PairRecords(Show(GoodJob), Show(TrainingComplete));
  }

  /** The first `k` runs open the tracking files of runs 1 to `k`, in order. */
  lemma {:induction false} RunsOpened(subject: int, draws: seq<RunDraws>, k: nat)
    requires SizedSession(draws) && k <= Runs
    ensures Opened(RunsEvents(subject, draws, k)) == TrainingFiles(subject, k)
  {
    if k > 0 {
      RunsOpened(subject, draws, k - 1);
      RunOpened(subject, k, draws[k - 1]);
      OpenedConcat(RunsEvents(subject, draws, k - 1), RunEvents(subject, k, draws[k - 1]));
    }
  }

  /** The first `k` runs show, for each run, its start message with its arena label and then 'Good job!'. */
  lemma {:induction false} RunsMessages(subject: int, draws: seq<RunDraws>, k: nat)
    requires SizedSession(draws) && k <= Runs
    ensures Messages(RunsEvents(subject, draws, k)) == TrainingMessages(k)
  {
    if k > 0 {
      RunsMessages(subject, draws, k - 1);
      RunMessages(subject, k, draws[k - 1]);
      MessagesConcat(RunsEvents(subject, draws, k - 1), RunEvents(subject, k, draws[k - 1]));
    }
  }

  /**
   * A session without an error on a threshold performs all six runs and ends
   * with the 'Training Complete' message.
   */
  lemma SessionCompletes(subject: int, draws: seq<RunDraws>)
    requires SizedSession(draws) && NoThresholdError(draws)
    ensures TrainingTrace(subject, draws) == SessionEvents(subject, draws)
    ensures var trace := TrainingTrace(subject, draws);
            Abort !in trace && |trace| >= 2 && trace[|trace| - 2] == Show(GoodJob) && trace[|trace| - 1] == Show(TrainingComplete)
  {
    var runs := RunsEvents(subject, draws, Runs);
    assert Abort !in runs by {
      RunsFail(subject, draws, Runs);
    }
    var session := SessionEvents(subject, draws);
    assert session == runs + [Show(GoodJob), Show(TrainingComplete)];
    UpToAbortNoAbort(session);
  }

  /** Without a failure the session opens the tracking file of each run, in turn. */
  lemma SessionOpened(subject: int, draws: seq<RunDraws>)
    requires SizedSession(draws) && NoThresholdError(draws)
    ensures Opened(TrainingTrace(subject, draws)) == TrainingFiles(subject, Runs)
  {
    SessionCompletes(subject, draws);
    var runs, closing := RunsEvents(subject, draws, |draws|), [Show(GoodJob), Show(TrainingComplete)];
    assert TrainingTrace(subject, draws) == runs + closing;
    ClosingRecords();
    RunsOpened(subject, draws, |draws|);
    OpenedConcat(runs, closing);
    assert TrainingFiles(subject, |draws|) + [] == TrainingFiles(subject, |draws|);
  }

  /**
   * Without a failure the session shows each run's start message and 'Good
   * job!', then 'Good job!' once more and the 'Training Complete' message.
   */
  lemma SessionMessages(subject: int, draws: seq<RunDraws>)
    requires SizedSession(draws) && NoThresholdError(draws)
    ensures var shown := Messages(TrainingTrace(subject, draws));
            && |shown| == 2 * Runs + 2
            && (forall r :: 0 <= r < Runs ==> shown[2 * r] == StartTraining(ArenaLabel(r + 1)) && shown[2 * r + 1] == GoodJob)
            && shown[2 * Runs] == GoodJob && shown[2 * Runs + 1] == TrainingComplete
  {
    var n := |draws|;
    var runs, closing := RunsEvents(subject, draws, n), [Show(GoodJob), Show(TrainingComplete)];
    var expected := TrainingMessages(n);
    var shown := Messages(runs + closing);
    assert shown == expected + [GoodJob, TrainingComplete] by {
      ClosingRecords();
      RunsMessages(subject, draws, n);
      MessagesConcat(runs, closing);
    }
    TrainingMessagesAt(n);
    forall r | 0 <= r < n
      ensures shown[2 * r] == StartTraining(ArenaLabel(r + 1)) && shown[2 * r + 1] == GoodJob
    {
      assert shown[2 * r] == expected[2 * r] && shown[2 * r + 1] == expected[2 * r + 1];
    }
    SessionCompletes(subject, draws);
    assert TrainingTrace(subject, draws) == runs + closing;
  }

  /** A session fails exactly when some replace error lies on a threshold. */
  lemma SessionFails(subject: int, draws: seq<RunDraws>)
    requires SizedSession(draws)
    ensures Abort in TrainingTrace(subject, draws) <==> !NoThresholdError(draws)
  {
    var runs, session := RunsEvents(subject, draws, |draws|), SessionEvents(subject, draws);
    assert Abort in session <==> Abort in runs by {
      assert session == runs + [Show(GoodJob), Show(TrainingComplete)];
    }
    assert Abort in runs <==> !NoThresholdError(draws) by {
      RunsFail(subject, draws, |draws|);
    }
    UpToAbortKeepsAbort(session);
  }

  /**
   * A session that fails stops at the failing trial: the failure is its last
   * step and happens once, and the 'Training Complete' message is never shown.
   */
  lemma SessionStopsAtFailure(subject: int, draws: seq<RunDraws>)
    requires SizedSession(draws) && Abort in TrainingTrace(subject, draws)
    ensures var trace := TrainingTrace(subject, draws);
            && trace[|trace| - 1] == Abort && Abort !in trace[..|trace| - 1]
            && TrainingComplete !in Messages(trace)
  {
    var runs, session := RunsEvents(subject, draws, |draws|), SessionEvents(subject, draws);
    var closing := [Show(GoodJob), Show(TrainingComplete)];
    assert session == runs + closing;
    UpToAbortEndsAtAbort(session);
    assert Abort in runs by {
      UpToAbortKeepsAbort(session);
    }
    var done := UpToAbort(runs);
    assert UpToAbort(session) == done by {
      PrefixOfConcat(runs, closing);
      UpToAbortExtends(runs, session);
    }
    assert TrainingComplete !in Messages(done) by {
      MessagesPrefix(done, runs);
      RunsMessages(subject, draws, |draws|);
      TrainingMessagesNotComplete(|draws|);
      assert Messages(done) == Messages(runs)[..|Messages(done)|];
    }
  }
}
