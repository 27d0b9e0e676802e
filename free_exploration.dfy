/**
 * The free-exploration script: two runs, each announced by a start message
 * with the arena number and followed by one exploration of the arena the
 * counterbalancing assigns, then 'Good job!' and the closing message. No
 * tracking file is written.
 */
module FreeExploration {
  import opened Counterbalance
  import opened Events

  const FreeRuns := 2

  /**
   * The messages of one call of the instruction step: with `openMess` the start
   * message with the run's arena number (`closeMess` is then ignored);
   * otherwise 'Good job!' and, with `closeMess`, the closing message after it.
   */
  function StartRun(runNum: int, openMess: bool, closeMess: bool): (events: seq<Event>)
    ensures |events| == if !openMess && closeMess then 2 else 1
    ensures events[0] == Show(GoodJob) <==> !openMess
    ensures openMess ==> events[0] == Show(StartExploration(ArenaLabel(runNum)))
  {
    if openMess then [Show(StartExploration(ArenaLabel(runNum)))]
    else [Show(GoodJob)] + (if closeMess then [Show(ExplorationComplete)] else [])
  }

  /** The closing message is shown exactly when the step closes the session instead of opening a run. */
  lemma ClosingOnlyWhenAsked(runNum: int, openMess: bool, closeMess: bool)
    ensures Show(ExplorationComplete) in StartRun(runNum, openMess, closeMess) <==> !openMess && closeMess
    ensures !openMess ==> StartRun(runNum, openMess, closeMess)[0] == Show(GoodJob)
    ensures !openMess && closeMess ==> StartRun(runNum, openMess, closeMess) == [Show(GoodJob), Show(ExplorationComplete)]
  {
  }

  /** An opening step shows one message, the same whatever `closeMess` says. */
  lemma OpeningIgnoresClose(runNum: int, close1: bool, close2: bool)
    ensures StartRun(runNum, true, close1) == StartRun(runNum, true, close2)
    ensures |StartRun(runNum, true, close1)| == 1 && StartRun(runNum, true, close1)[0].screen.StartExploration?
  {
  }

  /** One run: the start message, then an exploration ended by the participant's key press. */
  function ExploreRun(subject: int, runNum: int): seq<Event>
  {
    StartRun(runNum, true, false) + [Enter(ExplorePhase(ContextGen(runNum, subject)))]
  }

  /** The first `k` runs. */
  function ExploreRuns(subject: int, k: nat): (trace: seq<Event>)
    ensures |trace| == 2 * k
  {
    if k == 0 then [] else ExploreRuns(subject, k - 1) + ExploreRun(subject, k)
  }

  /** The whole session: the runs, then 'Good job!' and the closing message. */
  function FreeSession(subject: int): seq<Event>
  {
    ExploreRuns(subject, FreeRuns) + StartRun(FreeRuns, false, true)
  }

  /** The session as the script performs it. */
  method Experiment(subject: int) returns (trace: seq<Event>)
    ensures trace == FreeSession(subject)
  {
    trace := [];
    var runNum := 0;
    for r := 0 to FreeRuns
      invariant trace == ExploreRuns(subject, r)
      invariant runNum == r
    {
      runNum := r + 1;
      var context := ContextGen(runNum, subject);
      trace := trace + StartRun(runNum, true, false) + [Enter(ExplorePhase(context))];
    }
    trace := trace + StartRun(runNum, false, true);
  }

  /** Run `r + 1` is its start message at position `2r` and its exploration right after it. */
  lemma {:induction false} ExploreRunsAt(subject: int, k: nat)
    ensures var trace := ExploreRuns(subject, k);
            forall r :: 0 <= r < k ==>
              trace[2 * r] == Show(StartExploration(ArenaLabel(r + 1)))
              && trace[2 * r + 1] == Enter(ExplorePhase(ContextGen(r + 1, subject)))
  {
    if k > 0 {
      ExploreRunsAt(subject, k - 1);
      var before := ExploreRuns(subject, k - 1);
      var trace := ExploreRuns(subject, k);
      forall r | 0 <= r < k - 1
        ensures trace[2 * r] == before[2 * r] && trace[2 * r + 1] == before[2 * r + 1]
      {
      }
    }
  }

  /**
   * The session is six steps: for runs 1 and 2 the start message with arena
   * number 1 and 2 and an exploration of the run's arena, then 'Good job!' and
   * the closing message.
   */
  lemma FreeSessionSteps(subject: int)
    ensures FreeSession(subject)
         == [Show(StartExploration(1)), Enter(ExplorePhase(ContextGen(1, subject))),
             Show(StartExploration(2)), Enter(ExplorePhase(ContextGen(2, subject))),
             Show(GoodJob), Show(ExplorationComplete)]
  {
    ExploreRunsAt(subject, FreeRuns);
  }

  /** The two explorations take place in different arenas, so each subject explores both. */
  lemma FreeContextsAlternate(subject: int)
    ensures var trace := FreeSession(subject);
            && trace[1].Enter? && trace[1].phase.ExplorePhase?
            && trace[3].Enter? && trace[3].phase.ExplorePhase?
            && trace[1].phase.context != trace[3].phase.context
            && {trace[1].phase.context, trace[3].phase.context} == {Circle, Square}
  {
    FreeSessionSteps(subject);
    ContextAlternates(1, subject);
  }

  /** The start messages of runs 1 to `k`, in order. */
  function ExplorationMessages(k: nat): seq<Screen>
  {
    if k == 0 then [] else ExplorationMessages(k - 1) + [StartExploration(ArenaLabel(k))]
  }

  /** A run shows its start message and nothing else between its steps. */
  lemma ExploreRunMessages(subject: int, runNum: int)
    ensures Messages(ExploreRun(subject, runNum)) == [StartExploration(ArenaLabel(runNum))]
  {
    var run := ExploreRun(subject, runNum);
    assert run == [run[0], run[1]];
    PairRecords(run[0], run[1]);
  }

  /** Runs 1 to `k` show their start messages, in order. */
  lemma {:induction false} ExploreRunsMessages(subject: int, k: nat)
    ensures Messages(ExploreRuns(subject, k)) == ExplorationMessages(k)
  {
    if k > 0 {
      var prev, run := ExploreRuns(subject, k - 1), ExploreRun(subject, k);
      assert Messages(prev) == ExplorationMessages(k - 1) by {
        ExploreRunsMessages(subject, k - 1);
      }
      assert Messages(run) == [StartExploration(ArenaLabel(k))] by {
        ExploreRunMessages(subject, k);
      }
      assert Messages(prev + run) == Messages(prev) + Messages(run) by {
        MessagesConcat(prev, run);
      }
    }
  }

  /** The closing message comes once, last, right after 'Good job!'. */
  lemma FreeSessionMessages(subject: int)
    ensures var shown := Messages(FreeSession(subject));
            && |shown| == 4
            && shown[0] == StartExploration(1) && shown[1] == StartExploration(2)
            && shown[2] == GoodJob && shown[3] == ExplorationComplete
  {
    var runs, closing := ExploreRuns(subject, FreeRuns), StartRun(FreeRuns, false, true);
    assert Messages(runs) == ExplorationMessages(FreeRuns) by {
      ExploreRunsMessages(subject, FreeRuns);
    }
    assert Messages(closing) == [GoodJob, ExplorationComplete] by {
      PairRecords(Show(GoodJob), Show(ExplorationComplete));
    }
    MessagesConcat(runs, closing);
  }

  /** The session opens no tracking file and writes no marker. */
  lemma FreeSessionUnrecorded(subject: int)
    ensures Opened(FreeSession(subject)) == [] && Writes(FreeSession(subject)) == []
  {
    FreeSessionSteps(subject);
    UnrecordedSteps(FreeSession(subject));
  }
}
