/**
 * Counterbalancing of the two training arenas across runs and subjects, the
 * arena number announced at the start of a run, and the training log's name.
 */
module Counterbalance {
  import opened Decimal

  const Circle := 1
  const Square := 2

  /**
   * The context of run `runNum` for subject `subject`: the circle (1) when the
   * run and the subject have the same parity, the square (2) otherwise.
   * Parity is `% 2`, which agrees with the scripts' floor modulo for every sign.
   */
  function ContextGen(runNum: int, subject: int): (context: int)
    ensures context == Circle || context == Square
    ensures context == Circle <==> runNum % 2 == subject % 2
  {
    if runNum % 2 == 0 then
      if subject % 2 == 0 then Circle else Square
    else
      if subject % 2 == 0 then Square else Circle
  }

  /** Consecutive runs of one subject are in different arenas. */
  lemma ContextAlternates(runNum: int, subject: int)
    ensures ContextGen(runNum, subject) != ContextGen(runNum + 1, subject)
    ensures ContextGen(runNum, subject) == ContextGen(runNum + 2, subject)
  {
  }

  /** Subjects of opposite parity see opposite arenas in the same run. */
  lemma ContextFlipsWithSubject(runNum: int, subject1: int, subject2: int)
    ensures ContextGen(runNum, subject1) != ContextGen(runNum, subject2) <==> subject1 % 2 != subject2 % 2
  {
  }

  /** The arena number printed in a run's start message: 2 for even runs, 1 for odd runs. */
  function ArenaLabel(runNum: int): (arena: int)
    ensures arena == 1 || arena == 2
    ensures arena == 1 <==> runNum % 2 == 1
  {
    if runNum % 2 == 0 then 2 else 1
  }

  /**
   * The announced arena number ignores the subject: it numbers the arenas in
   * the order the subject first meets them (1 = the arena of run 1), so it
   * equals the context id only for odd subjects.
   */
  lemma ArenaLabelOrdersArenas(runNum: int, subject: int)
    ensures ArenaLabel(runNum) == 1 <==> ContextGen(runNum, subject) == ContextGen(1, subject)
    ensures ArenaLabel(runNum) == ContextGen(runNum, subject) <==> subject % 2 == 1
  {
  }

  /** A run where the announced arena and the actual context differ. */
  lemma ArenaLabelDiffersFromContext()
    ensures ArenaLabel(2) == 2 && ContextGen(2, 4) == Circle
  {
  }

  /** Output directory of the training script. */
  const TrainDataPath := "..\\Data\\TrainingData\\"

  /** Everything in a training log's name before the context digit. */
  function TrainLogPrefix(subject: int): string
  {
    TrainDataPath + "TRAIN_tracking_" + IntToString(subject) + "_"
  }

  /** The tracking file of one training run: path, subject, context, run. */
  function TrainLogFileName(subject: int, runNum: nat): (name: string)
    ensures |name| > |TrainLogPrefix(subject)| + 6
    ensures name[..|TrainLogPrefix(subject)|] == TrainLogPrefix(subject)
    ensures name[|TrainLogPrefix(subject)|] == Digit(ContextGen(runNum, subject))
    ensures name[|TrainLogPrefix(subject)| + 1] == '_'
    ensures name[|name| - 4..] == ".txt"
  {
    TrainLogPrefix(subject) + NatToString(ContextGen(runNum, subject)) + "_" + NatToString(runNum) + ".txt"
  }

  /**
   * The run number can be read back from the name: it is the digits between the
   * second separator after the subject and the extension.
   */
  lemma {:induction false} TrainLogFileNameRun(subject: int, runNum: nat)
    ensures var name := TrainLogFileName(subject, runNum);
            var digits := name[|TrainLogPrefix(subject)| + 2..|name| - 4];
            (forall i :: 0 <= i < |digits| ==> IsDigit(digits[i])) && ParseNat(digits) == runNum
  {
    var p := TrainLogPrefix(subject);
    var c := NatToString(ContextGen(runNum, subject));
    var r := NatToString(runNum);
    var name := TrainLogFileName(subject, runNum);
    assert |c| == 1;
    assert name == p + c + "_" + r + ".txt";
    assert name[|p| + 2..|name| - 4] == r;
    ParseNatToString(runNum);
  }

  /** No two runs of one subject write the same file, so a session never trips over its own logs. */
  lemma {:induction false} TrainLogFileNamesDistinct(subject: int, run1: nat, run2: nat)
    requires run1 != run2
    ensures TrainLogFileName(subject, run1) != TrainLogFileName(subject, run2)
  {
    TrainLogFileNameRun(subject, run1);
    TrainLogFileNameRun(subject, run2);
  }
}
