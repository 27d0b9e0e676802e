/**
 * What a session does, as a sequence of observable steps: screens shown to the
 * participant, navigation phases entered, tracking files opened, marker lines
 * written to the tracking file, and an abnormal stop of the script.
 */
module Events {

  /** The four test objects, indexed 0..3 as in the scripts; markers and prompts carry the index. */
  const ObjectNames: seq<string> := ["cone", "beachball", "plant", "pumpkin"]
  const ObjectCount := 4

  /** The name a context has in the markers: 1 is the circle, 2 the square, anything else the squircle. */
  function ContextName(context: int): (name: string)
    ensures name == "squircle" <==> context != 1 && context != 2
  {
    if context == 1 then "circle" else if context == 2 then "square" else "squircle"
  }

  /** The three contexts have three different names, so a marker's name tells its context. */
  lemma ContextNamesDistinct(c1: int, c2: int)
    requires 1 <= c1 <= 3 && 1 <= c2 <= 3
    ensures ContextName(c1) == ContextName(c2) <==> c1 == c2
  {
    if c1 != c2 {
      assert |ContextName(1)| == 6 && |ContextName(3)| == 8;
      assert ContextName(1)[1] != ContextName(2)[1];
    }
  }

  /** The four objects have four different names, so a marker's name tells its object. */
  lemma ObjectNamesDistinct(o1: nat, o2: nat)
    requires o1 < ObjectCount && o2 < ObjectCount
    ensures ObjectNames[o1] == ObjectNames[o2] <==> o1 == o2
  {
    if o1 != o2 {
      assert ObjectNames[0][0] == 'c' && ObjectNames[1][0] == 'b';
      assert ObjectNames[2][0] == 'p' && ObjectNames[3][0] == 'p' && ObjectNames[2][1] != ObjectNames[3][1];
    }
  }

  /**
   * Marker lines of the tracking file (the periodic position samples are not
   * modelled). A context is written by its name (`ContextName`), an object by
   * its name (`ObjectNames`); the marker keeps the index the name is taken
   * from, and numeric fields stay numbers, as their decimal rendering is not
   * modelled.
   */
  datatype Marker =
    | StartReplaceIn(context: int)                     // "Start replace, <context>"
    | ReplacedIn(context: int, obj: nat, error: real)  // "Replaced <context>, <object>, <error>"
    | ReplacedSquircle(obj: nat, choice: nat, error1: real, error2: real)
                                                       // "Replaced squircle, <object>, <choice>, <error1>, <error2>"
    | StartReplace                                     // "Start replace"
    | Replaced(obj: nat, error: real)                  // "Replaced <object>, <error>"
    | StartCollect                                     // "Start collect"
    | CollectedInitial(obj: nat)                       // "<object> Collected Initial"
    | Collected(obj: nat)                              // "Collected <object>"

  /** Screens of text or images shown between phases. */
  datatype Screen =
    | WaitingForTrigger(runNum: int)     // "Run <n>, waiting for T"
    | StartTraining(arena: int)          // "Press t to start training in Arena <n>"
    | StartExploration(arena: int)       // "Press t to start exploration of Arena <n>"
    | ReplacePrompt(obj: nat)            // "Replace <object>"
    | CollectPrompt(obj: nat)            // "Collect <object>"
    | Smile(level: nat)                  // feedback image smile<level>
    | GoodJob                            // "Good job!"
    | TrainingComplete                   // "Training Complete. Please get experimenter"
    | ExplorationComplete                // "Free Exploration Complete. Please get experimenter"

  /** Navigation phases, each ended by a key press or by reaching the object. */
  datatype Phase =
    | ReplacePhase(context: int)
    | CollectPhase(context: int, obj: nat)
    | ExplorePhase(context: int)

  /**
   * A tracking file, identified by the run it records; its name on disk is
   * `TestLogFileName(subject, runNum)` or `TrainLogFileName(subject, runNum)`.
   */
  datatype LogFile =
    | TestLog(subject: int, runNum: int)
    | TrainLog(subject: int, runNum: int)

  datatype Event =
    | Show(screen: Screen)
    | Enter(phase: Phase)
    | OpenLog(file: LogFile)
    | Write(marker: Marker)
    | Abort                              // the script stops on a runtime error

  /** The marker line an event writes, if any. */
  function LineOf(e: Event): seq<Marker>
  {
    if e.Write? then [e.marker] else []
  }

  /** The marker lines among the events, in order: what the tracking files receive. */
  function Writes(trace: seq<Event>): (lines: seq<Marker>)
    ensures |lines| <= |trace|
  {
    if trace == [] then [] else Writes(trace[..|trace| - 1]) + LineOf(trace[|trace| - 1])
  }

  lemma {:induction false} WritesConcat(a: seq<Event>, b: seq<Event>)
    ensures Writes(a + b) == Writes(a) + Writes(b)
  {
    if b != [] {
      WritesConcat(a, b[..|b| - 1]);
      assert (a + b)[..|a + b| - 1] == a + b[..|b| - 1];
      assert (a + b)[|a + b| - 1] == b[|b| - 1];
    } else {
      assert a + b == a;
    }
  }

  lemma WritesCons(e: Event, rest: seq<Event>)
    ensures Writes([e] + rest) == LineOf(e) + Writes(rest)
  {
    WritesConcat([e], rest);
    assert [e][..0] == [];
  }

  lemma WritesFour(a: Event, b: Event, c: Event, d: Event)
    ensures Writes([a, b, c, d]) == LineOf(a) + LineOf(b) + LineOf(c) + LineOf(d)
  {
    assert Writes([a]) == LineOf(a) by {
      assert [a][..0] == [];
    }
    assert Writes([a, b]) == LineOf(a) + LineOf(b) by {
      assert [a, b][..1] == [a];
    }
    assert Writes([a, b, c]) == LineOf(a) + LineOf(b) + LineOf(c) by {
      assert [a, b, c][..2] == [a, b];
    }
    assert [a, b, c, d][..3] == [a, b, c];
  }

  /** The tracking file an event opens, if any. */
  function FileOf(e: Event): seq<LogFile>
  {
    if e.OpenLog? then [e.file] else []
  }

  /** The tracking files opened, in order. */
  function Opened(trace: seq<Event>): (files: seq<LogFile>)
    ensures |files| <= |trace|
  {
    if trace == [] then [] else Opened(trace[..|trace| - 1]) + FileOf(trace[|trace| - 1])
  }

  lemma {:induction false} OpenedConcat(a: seq<Event>, b: seq<Event>)
    ensures Opened(a + b) == Opened(a) + Opened(b)
  {
    if b != [] {
      OpenedConcat(a, b[..|b| - 1]);
      assert (a + b)[..|a + b| - 1] == a + b[..|b| - 1];
      assert (a + b)[|a + b| - 1] == b[|b| - 1];
    } else {
      assert a + b == a;
    }
  }

  /** Screens that belong to a trial (prompts and feedback) rather than to the run around it. */
  predicate TrialScreen(s: Screen)
  {
    s.ReplacePrompt? || s.CollectPrompt? || s.Smile?
  }

  /** The message an event shows between trials, if any. */
  function MessageOf(e: Event): seq<Screen>
  {
    if e.Show? && !TrialScreen(e.screen) then [e.screen] else []
  }

  /** The messages shown between trials (start, 'Good job!', closing), in order. */
  function Messages(trace: seq<Event>): (shown: seq<Screen>)
    ensures |shown| <= |trace|
  {
    if trace == [] then [] else Messages(trace[..|trace| - 1]) + MessageOf(trace[|trace| - 1])
  }

  lemma {:induction false} MessagesConcat(a: seq<Event>, b: seq<Event>)
    ensures Messages(a + b) == Messages(a) + Messages(b)
  {
    if b != [] {
      MessagesConcat(a, b[..|b| - 1]);
      assert (a + b)[..|a + b| - 1] == a + b[..|b| - 1];
      assert (a + b)[|a + b| - 1] == b[|b| - 1];
    } else {
      assert a + b == a;
    }
  }

  /** Steps that open no file and show no message leave both records empty. */
  lemma {:induction false} QuietSteps(trace: seq<Event>)
    requires forall i :: 0 <= i < |trace| ==> FileOf(trace[i]) == [] && MessageOf(trace[i]) == []
    ensures Opened(trace) == [] && Messages(trace) == []
  {
    if trace != [] {
      QuietSteps(trace[..|trace| - 1]);
    }
  }

  /** Steps that open no file and write no line leave both records empty. */
  lemma {:induction false} UnrecordedSteps(trace: seq<Event>)
    requires forall i :: 0 <= i < |trace| ==> FileOf(trace[i]) == [] && LineOf(trace[i]) == []
    ensures Opened(trace) == [] && Writes(trace) == []
  {
    if trace != [] {
      UnrecordedSteps(trace[..|trace| - 1]);
    }
  }

  /** Four consecutive parts whose first and last write nothing write what the middle two write. */
  lemma WritesWithin(a: seq<Event>, b: seq<Event>, c: seq<Event>, d: seq<Event>)
    requires Writes(a) == [] && Writes(d) == []
    ensures Writes(a + b + c + d) == Writes(b) + Writes(c)
  {
    var ab, abc := a + b, a + b + c;
    assert Writes(ab) == Writes(b) by {
      WritesConcat(a, b);
    }
    assert Writes(abc) == Writes(b) + Writes(c) by {
      WritesConcat(ab, c);
    }
    assert Writes(abc + d) == Writes(abc) by {
      WritesConcat(abc, d);
    }
  }

  /** Four consecutive parts whose middle two open no file open what the first and last open. */
  lemma OpenedOutside(a: seq<Event>, b: seq<Event>, c: seq<Event>, d: seq<Event>)
    requires Opened(b) == [] && Opened(c) == []
    ensures Opened(a + b + c + d) == Opened(a) + Opened(d)
  {
    var ab, abc := a + b, a + b + c;
    assert Opened(ab) == Opened(a) by {
      OpenedConcat(a, b);
    }
    assert Opened(abc) == Opened(a) by {
      OpenedConcat(ab, c);
    }
    OpenedConcat(abc, d);
  }

  /** Four consecutive parts whose middle two show no message show what the first and last show. */
  lemma MessagesOutside(a: seq<Event>, b: seq<Event>, c: seq<Event>, d: seq<Event>)
    requires Messages(b) == [] && Messages(c) == []
    ensures Messages(a + b + c + d) == Messages(a) + Messages(d)
  {
    var ab, abc := a + b, a + b + c;
    assert Messages(ab) == Messages(a) by {
      MessagesConcat(a, b);
    }
    assert Messages(abc) == Messages(a) by {
      MessagesConcat(ab, c);
    }
    MessagesConcat(abc, d);
  }

  /** An initial segment of the events shows an initial segment of the messages. */
  lemma MessagesPrefix(a: seq<Event>, b: seq<Event>)
    requires IsPrefix(a, b)
    ensures IsPrefix(Messages(a), Messages(b))
  {
    var rest := b[|a|..];
    assert b == a + rest;
    MessagesConcat(a, rest);
    PrefixOfConcat(Messages(a), Messages(rest));
  }

  lemma SingleRecords(e: Event)
    ensures Writes([e]) == LineOf(e) && Opened([e]) == FileOf(e) && Messages([e]) == MessageOf(e)
  {
    assert [e][..0] == [];
  }

  /** The records of two steps. */
  lemma PairRecords(a: Event, b: Event)
    ensures Writes([a, b]) == LineOf(a) + LineOf(b)
    ensures Opened([a, b]) == FileOf(a) + FileOf(b)
    ensures Messages([a, b]) == MessageOf(a) + MessageOf(b)
  {
    assert [a, b][..1] == [a];
    assert [a][..0] == [];
  }

  /** `a` is an initial segment of `b`. */
  predicate IsPrefix<T(==)>(a: seq<T>, b: seq<T>)
  {
    |a| <= |b| && b[..|a|] == a
  }

  /** The events up to and including the first `Abort`: what actually happens when a step fails. */
  function UpToAbort(trace: seq<Event>): (done: seq<Event>)
    ensures IsPrefix(done, trace)
  {
    if trace == [] then []
    else if trace[0] == Abort then [Abort]
    else [trace[0]] + UpToAbort(trace[1..])
  }

  lemma {:induction false} UpToAbortNoAbort(trace: seq<Event>)
    requires Abort !in trace
    ensures UpToAbort(trace) == trace
  {
    if trace != [] {
      UpToAbortNoAbort(trace[1..]);
    }
  }

  /** A segment free of `Abort` followed by `Abort` is where every longer run stops. */
  lemma {:induction false} UpToAbortStopsAt(done: seq<Event>, trace: seq<Event>)
    requires IsPrefix(done + [Abort], trace) && Abort !in done
    ensures UpToAbort(trace) == done + [Abort]
  {
    if done == [] {
      assert trace[0] == Abort;
    } else {
      assert trace[0] == done[0];
      assert IsPrefix(done[1..] + [Abort], trace[1..]) by {
        assert trace[1..][..|done[1..] + [Abort]|] == trace[..|done + [Abort]|][1..];
      }
      UpToAbortStopsAt(done[1..], trace[1..]);
      assert done == [done[0]] + done[1..];
    }
  }

  /** Events before any failure pass through unchanged. */
  lemma {:induction false} UpToAbortAfter(a: seq<Event>, b: seq<Event>)
    requires Abort !in a
    ensures UpToAbort(a + b) == a + UpToAbort(b)
  {
    if a != [] {
      assert (a + b)[0] == a[0] && (a + b)[1..] == a[1..] + b;
      UpToAbortAfter(a[1..], b);
      assert a == [a[0]] + a[1..];
    } else {
      assert a + b == b;
    }
  }

  /** A failure-free start, a middle part that may fail, and a failure-free end that happens only if it did not. */
  lemma UpToAbortAround(before: seq<Event>, middle: seq<Event>, after: seq<Event>)
    requires Abort !in before && Abort !in after
    ensures UpToAbort(before + middle + after) == before + UpToAbort(middle) + (if Abort in middle then [] else after)
    ensures Abort in UpToAbort(before + middle + after) <==> Abort in middle
  {
    assert before + middle + after == before + (middle + after);
    UpToAbortAfter(before, middle + after);
    UpToAbortKeepsAbort(middle);
    if Abort in middle {
      PrefixOfConcat(middle, after);
      UpToAbortExtends(middle, middle + after);
    } else {
      UpToAbortNoAbort(middle);
      UpToAbortNoAbort(middle + after);
    }
  }

  /** Once a failure has happened, nothing that would have come after it matters. */
  lemma {:induction false} UpToAbortExtends(done: seq<Event>, trace: seq<Event>)
    requires IsPrefix(done, trace) && Abort in done
    ensures UpToAbort(trace) == UpToAbort(done)
  {
    assert trace[0] == done[0];
    if done[0] != Abort {
      assert Abort in done[1..] by {
        var i :| 0 <= i < |done| && done[i] == Abort;
        assert done[1..][i - 1] == Abort;
      }
      assert IsPrefix(done[1..], trace[1..]) by {
        assert trace[1..][..|done[1..]|] == trace[..|done|][1..];
      }
      UpToAbortExtends(done[1..], trace[1..]);
    }
  }

  /** The events up to the first failure hold a failure exactly when the whole sequence does. */
  lemma {:induction false} UpToAbortKeepsAbort(trace: seq<Event>)
    ensures Abort in UpToAbort(trace) <==> Abort in trace
  {
    if trace != [] && trace[0] != Abort {
      UpToAbortKeepsAbort(trace[1..]);
      assert trace == [trace[0]] + trace[1..];
      assert UpToAbort(trace) == [trace[0]] + UpToAbort(trace[1..]);
    }
  }

  /** When a failure happens, the events up to it end with it and hold it only once. */
  lemma {:induction false} UpToAbortEndsAtAbort(trace: seq<Event>)
    requires Abort in trace
    ensures var done := UpToAbort(trace);
            |done| > 0 && done[|done| - 1] == Abort && Abort !in done[..|done| - 1]
  {
    if trace[0] != Abort {
      assert Abort in trace[1..] by {
        assert trace == [trace[0]] + trace[1..];
      }
      UpToAbortEndsAtAbort(trace[1..]);
      var rest := UpToAbort(trace[1..]);
      var done := [trace[0]] + rest;
      assert UpToAbort(trace) == done;
      assert done[..|done| - 1] == [trace[0]] + rest[..|rest| - 1];
    }
  }

  /** A failure-free front followed by at most one step fails, if at all, in that last step. */
  lemma AbortOnlyAtEnd(front: seq<Event>, end: seq<Event>)
    requires Abort !in front && |end| <= 1 && Abort in front + end
    ensures var trace := front + end;
            trace[|trace| - 1] == Abort && Abort !in trace[..|trace| - 1]
  {
    assert end == [Abort];
    assert (front + end)[..|front|] == front;
  }

  lemma PrefixOfConcat<T>(a: seq<T>, b: seq<T>)
    ensures IsPrefix(a, a + b)
  {
    assert (a + b)[..|a|] == a;
  }

  lemma PrefixConcat<T>(a: seq<T>, b: seq<T>, c: seq<T>)
    requires IsPrefix(b, c)
    ensures IsPrefix(a + b, a + c)
  {
    assert (a + c)[..|a + b|] == a + c[..|b|];
  }

  lemma PrefixTransitive<T>(a: seq<T>, b: seq<T>, c: seq<T>)
    requires IsPrefix(a, b) && IsPrefix(b, c)
    ensures IsPrefix(a, c)
  {
    assert c[..|a|] == c[..|b|][..|a|];
  }
}
