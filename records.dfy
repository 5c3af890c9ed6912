/** The quiz history (frontend/src/App.jsx, `handleQuizCalculate`): each
    Calculate scores the current answers and appends one record to the log.
    The log is a plain sequence value; the clock is the `ts` parameter. */
module Records {
  import opened Scoring

  /** One saved quiz result. */
  datatype QuizRecord = QuizRecord(ts: string, name: string, inputs: QuizInputs, scores: EcoScores)

  /** `[...records, rec]`: the log with `rec` at its end and nothing else changed. */
  function AppendRecord(log: seq<QuizRecord>, rec: QuizRecord): (r: seq<QuizRecord>)
    ensures |r| == |log| + 1
    ensures r[..|log|] == log
    ensures r[|log|] == rec
  {
    log + [rec]
  }

  /** `name || '-'`: the name as typed, or a dash when it was left empty. */
  function DisplayName(name: string): (r: string)
    ensures r != ""
    ensures name != "" ==> r == name
    ensures name == "" ==> r == "-"
  {
    if name == "" then "-" else name
  }

  /** What one Calculate leaves behind: the shown scores, the new log and
      whether the confetti fires. */
  datatype Calculation = Calculation(scores: EcoScores, records: seq<QuizRecord>, confetti: bool)

  /** `handleQuizCalculate` with the current time `ts`. */
  function Calculate(log: seq<QuizRecord>, inputs: QuizInputs, ts: string): (c: Calculation)
    ensures c.scores == Scores(inputs)
    ensures c.confetti <==> 100 <= c.scores.eco
  {
    var scores := Scores(inputs);
    Calculation(scores, AppendRecord(log, QuizRecord(ts, DisplayName(inputs.name), inputs, scores)), 100 <= scores.eco)
  }

  /** Calculate adds exactly one record, at the end, holding the time, the
      displayed name, the answers and their scores; earlier records are kept. */
  lemma CalculateAppendsOne(log: seq<QuizRecord>, inputs: QuizInputs, ts: string)
    ensures var c := Calculate(log, inputs, ts);
      |c.records| == |log| + 1 && c.records[..|log|] == log &&
      c.records[|log|] == QuizRecord(ts, DisplayName(inputs.name), inputs, Scores(inputs))
  {
  }

  /** Calculations only ever extend the log: after any sequence of them the
      earlier log is a prefix of the later one. */
  lemma {:induction false} CalculationsExtendLog(log: seq<QuizRecord>, answers: seq<QuizInputs>, times: seq<string>)
    requires |answers| == |times|
    ensures |Replay(log, answers, times)| == |log| + |answers|
    ensures Replay(log, answers, times)[..|log|] == log
    decreases |answers|
  {
    if |answers| > 0 {
      var next := Calculate(log, answers[0], times[0]).records;
      CalculationsExtendLog(next, answers[1..], times[1..]);
      assert Replay(log, answers, times)[..|log|] == Replay(log, answers, times)[..|next|][..|log|];
    }
  }

  /** The log after calculating each of `answers` in turn, at the matching `times`. */
  function Replay(log: seq<QuizRecord>, answers: seq<QuizInputs>, times: seq<string>): seq<QuizRecord>
    requires |answers| == |times|
    decreases |answers|
  {
    if |answers| == 0 then log
    else Replay(Calculate(log, answers[0], times[0]).records, answers[1..], times[1..])
  }

  /** The confetti fires exactly when the unrounded total reaches 99.5, and that
      happens exactly with full water and waste marks and at least 39.5 energy. */
  lemma ConfettiThreshold(log: seq<QuizRecord>, inputs: QuizInputs, ts: string)
    ensures var s := Scores(inputs);
      Calculate(log, inputs, ts).confetti <==> 99.5 <= s.water + s.energy + s.waste
    ensures var s := Scores(inputs);
      Calculate(log, inputs, ts).confetti <==> s.water == 40.0 && s.waste == 20.0 && 39.5 <= s.energy
  {
    WaterLevels(inputs);
    WasteLevels(inputs);
  }

  /** Full energy marks are not needed for the confetti: three LED bulbs give
      39.5 energy, and 40 + 39.5 + 20 rounds to 100. */
  lemma ConfettiBelowFullEnergy()
    ensures var i := QuizInputs("", 5.0, false, 3.0, 3.0, 2.0, 1.0, true, true);
      Scores(i).energy == 39.5 && Calculate([], i, "").confetti
  {
    var i := QuizInputs("", 5.0, false, 3.0, 3.0, 2.0, 1.0, true, true);
    WaterLevels(i);
    WasteLevels(i);
  }
}
