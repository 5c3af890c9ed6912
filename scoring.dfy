/** The eco-score calculator of the quiz page (frontend/src/App.jsx,
    `computeScores`): eight lifestyle answers give a water, an energy and a
    waste sub-score, each clamped to its range, and a rounded composite.

    Quiz numbers are JavaScript numbers and are modelled as (finite) reals;
    `num_led * 1.5` makes the energy score a multiple of 0.5 for whole inputs. */
module Scoring {

  /** The quiz form (`quizInputs`). */
  datatype QuizInputs = QuizInputs(
    name: string,
    showerMin: real,
    usesBucket: bool,
    hoursDevices: real,
    numLed: real,
    acHours: real,
    disposableCount: real,
    usesReusable: bool,
    recycles: bool)

  /** The result of `computeScores`. */
  datatype EcoScores = EcoScores(water: real, energy: real, waste: real, eco: int)

  /** The form's initial values, which the Reset button restores. `ac_hours`
      and `disposable_count` have no form control and keep these values. */
  const DefaultInputs := QuizInputs("", 10.0, false, 6.0, 5.0, 1.0, 2.0, false, false)

  // ---------------------------------------------------------------------
  // Specification: the score as tier bonuses added to a base, then clamped
  // ---------------------------------------------------------------------

  /** JavaScript's `Math.round`: the nearest integer, halves rounded up. */
  function Round(x: real): (r: int)
    ensures r as real - 0.5 <= x < r as real + 0.5
  {
    (x + 0.5).Floor
  }

  /** `x` forced into [0, hi]. */
  function Clamp(x: real, hi: real): (r: real)
    requires 0.0 <= hi
    ensures 0.0 <= r <= hi
    ensures 0.0 <= x <= hi ==> r == x
    ensures x < 0.0 ==> r == 0.0
    ensures hi < x ==> r == hi
  {
    if x < 0.0 then 0.0 else if hi < x then hi else x
  }

  function FlagBonus(flag: bool, points: real): real
  {
    if flag then points else 0.0
  }

  /** Shower minutes: up to 5 earns 20, up to 10 earns 10, up to 15 nothing, more costs 10. */
  function ShowerBonus(minutes: real): real
  {
    if minutes <= 5.0 then 20.0
    else if minutes <= 10.0 then 10.0
    else if minutes <= 15.0 then 0.0
    else -10.0
  }

  /** One and a half points per LED bulb, but never more than 10. */
  function LedBonus(bulbs: real): (r: real)
    ensures r <= 10.0
    ensures r <= 1.5 * bulbs
    ensures r == 10.0 || r == 1.5 * bulbs
    ensures 0.0 <= bulbs ==> 0.0 <= r
  {
    if bulbs * 1.5 < 10.0 then bulbs * 1.5 else 10.0
  }

  /** Device hours: up to 3 earns 10, up to 6 earns 5, more costs 5. */
  function DeviceBonus(hours: real): real
  {
    if hours <= 3.0 then 10.0 else if hours <= 6.0 then 5.0 else -5.0
  }

  /** Air-conditioning hours: up to 2 earns 5, up to 5 nothing, more costs 5. */
  function AcBonus(hours: real): real
  {
    if hours <= 2.0 then 5.0 else if hours <= 5.0 then 0.0 else -5.0
  }

  /** Disposables: up to 1 earns 5, up to 3 nothing, more costs 5. */
  function DisposableBonus(count: real): real
  {
    if count <= 1.0 then 5.0 else if count <= 3.0 then 0.0 else -5.0
  }

  function RawWater(i: QuizInputs): real
  {
    30.0 + FlagBonus(i.usesBucket, 10.0) + ShowerBonus(i.showerMin)
  }

  function RawEnergy(i: QuizInputs): real
  {
    20.0 + LedBonus(i.numLed) + DeviceBonus(i.hoursDevices) + AcBonus(i.acHours)
  }

  function RawWaste(i: QuizInputs): real
  {
    10.0 + FlagBonus(i.usesReusable, 5.0) + FlagBonus(i.recycles, 5.0) + DisposableBonus(i.disposableCount)
  }

  /** The scores the quiz assigns to `i`: every sub-score within its range
      and the composite the rounded sum, hence within [0, 100]. */
  function Scores(i: QuizInputs): (s: EcoScores)
    ensures 0.0 <= s.water <= 40.0
    ensures 0.0 <= s.energy <= 40.0
    ensures 0.0 <= s.waste <= 20.0
    ensures s.eco == Round(s.water + s.energy + s.waste)
    ensures 0 <= s.eco <= 100
  {
    var water := Clamp(RawWater(i), 40.0);
    var energy := Clamp(RawEnergy(i), 40.0);
    var waste := Clamp(RawWaste(i), 20.0);
    EcoScores(water, energy, waste, Round(water + energy + waste))
  }

  // ---------------------------------------------------------------------
  // The calculator as the page runs it
  // ---------------------------------------------------------------------

  function Min(a: real, b: real): real { if a <= b then a else b }
  function Max(a: real, b: real): real { if a >= b then a else b }

  /** `computeScores`: accumulates each sub-score in a local, clamps it with
      `Math.max(0, Math.min(hi, x))` and rounds the sum. */
  method ComputeScores(inputs: QuizInputs) returns (s: EcoScores)
    ensures s == Scores(inputs)
  {
    var water := 30.0;
    if inputs.usesBucket { water := water + 10.0; }
    if inputs.showerMin <= 5.0 { water := water + 20.0; }
    else if inputs.showerMin <= 10.0 { water := water + 10.0; }
    else if inputs.showerMin <= 15.0 { water := water + 0.0; }
    else { water := water - 10.0; }
    water := Max(0.0, Min(40.0, water));
    assert water == Clamp(RawWater(inputs), 40.0);

    var energy := 20.0 + Min(inputs.numLed * 1.5, 10.0);
    if inputs.hoursDevices <= 3.0 { energy := energy + 10.0; }
    else if inputs.hoursDevices <= 6.0 { energy := energy + 5.0; }
    else { energy := energy - 5.0; }
    if inputs.acHours <= 2.0 { energy := energy + 5.0; }
    else if inputs.acHours <= 5.0 { energy := energy + 0.0; }
    else { energy := energy - 5.0; }
    energy := Max(0.0, Min(40.0, energy));
    assert energy == Clamp(RawEnergy(inputs), 40.0);

    var waste := 10.0;
    if inputs.usesReusable { waste := waste + 5.0; }
    if inputs.recycles { waste := waste + 5.0; }
    if inputs.disposableCount <= 1.0 { waste := waste + 5.0; }
    else if inputs.disposableCount <= 3.0 { waste := waste + 0.0; }
    else { waste := waste - 5.0; }
    waste := Max(0.0, Min(20.0, waste));
    assert waste == Clamp(RawWaste(inputs), 20.0);

    s := EcoScores(water, energy, waste, Round(water + energy + waste));
  }

  // ---------------------------------------------------------------------
  // Properties of the scores
  // ---------------------------------------------------------------------

  /** Water takes only the values 20, 30 and 40: it is 20 exactly for showers
      over 15 minutes without a bucket, 40 exactly for showers up to 10 minutes
      or up to 15 with a bucket, and a shower of at most 5 minutes alone gives 40. */
  lemma WaterLevels(i: QuizInputs)
    ensures Scores(i).water == 20.0 || Scores(i).water == 30.0 || Scores(i).water == 40.0
    ensures Scores(i).water == 20.0 <==> !i.usesBucket && 15.0 < i.showerMin
    ensures Scores(i).water == 40.0 <==> i.showerMin <= 10.0 || (i.usesBucket && i.showerMin <= 15.0)
    ensures i.showerMin <= 5.0 ==> Scores(i).water == 40.0
  {
  }

  /** Waste takes only the values 5, 10, 15 and 20. */
  lemma WasteLevels(i: QuizInputs)
    ensures Scores(i).waste == 5.0 || Scores(i).waste == 10.0 || Scores(i).waste == 15.0 || Scores(i).waste == 20.0
    ensures Scores(i).waste == 5.0 <==> !i.usesReusable && !i.recycles && 3.0 < i.disposableCount
  {
  }

  /** Energy before the clamp is at most 45, and reaches 40 only with at least
      5 points from the LED bulbs or more; its LED part never exceeds 10. */
  lemma EnergyCeiling(i: QuizInputs)
    ensures RawEnergy(i) <= 45.0
    ensures Scores(i).energy == 40.0 <==> 40.0 <= RawEnergy(i)
    ensures RawEnergy(i) - LedBonus(i.numLed) <= 35.0
  {
  }

  /** Each sub-score reads only its own answers. */
  lemma SubScoresIndependent(i: QuizInputs, j: QuizInputs)
    ensures i.showerMin == j.showerMin && i.usesBucket == j.usesBucket
      ==> Scores(i).water == Scores(j).water
    ensures i.numLed == j.numLed && i.hoursDevices == j.hoursDevices && i.acHours == j.acHours
      ==> Scores(i).energy == Scores(j).energy
    ensures i.usesReusable == j.usesReusable && i.recycles == j.recycles && i.disposableCount == j.disposableCount
      ==> Scores(i).waste == Scores(j).waste
    ensures i.name != j.name && i == j.(name := i.name) ==> Scores(i) == Scores(j)
  {
  }

  /** `better` answers every question at least as well as `worse`. */
  predicate AtLeastAsGreen(better: QuizInputs, worse: QuizInputs)
  {
    better.showerMin <= worse.showerMin && (worse.usesBucket ==> better.usesBucket) &&
    better.hoursDevices <= worse.hoursDevices && worse.numLed <= better.numLed &&
    better.acHours <= worse.acHours && better.disposableCount <= worse.disposableCount &&
    (worse.usesReusable ==> better.usesReusable) && (worse.recycles ==> better.recycles)
  }

  lemma RoundMonotone(x: real, y: real)
    requires x <= y
    ensures Round(x) <= Round(y)
  {
  }

  /** Greener answers never lower any sub-score nor the eco score. */
  lemma ScoresMonotone(better: QuizInputs, worse: QuizInputs)
    requires AtLeastAsGreen(better, worse)
    ensures Scores(worse).water <= Scores(better).water
    ensures Scores(worse).energy <= Scores(better).energy
    ensures Scores(worse).waste <= Scores(better).waste
    ensures Scores(worse).eco <= Scores(better).eco
  {
    var b, w := Scores(better), Scores(worse);
    RoundMonotone(w.water + w.energy + w.waste, b.water + b.energy + b.waste);
  }

  /** The greenest answers give full marks everywhere. */
  lemma BestAnswers()
    ensures Scores(QuizInputs("", 5.0, true, 3.0, 5.0, 2.0, 1.0, true, true)) == EcoScores(40.0, 40.0, 20.0, 100)
  {
  }

  /** Answers in the worst tier of every question, with no LED bulbs (long
      showers without a bucket, heavy device and AC use, many disposables, no
      reusables, no recycling) score 20/10/5 and 35 overall. */
  lemma PoorAnswers(i: QuizInputs)
    requires 15.0 < i.showerMin && !i.usesBucket
    requires i.numLed == 0.0 && 6.0 < i.hoursDevices && 5.0 < i.acHours
    requires 3.0 < i.disposableCount && !i.usesReusable && !i.recycles
    ensures Scores(i) == EcoScores(20.0, 10.0, 5.0, 35)
  {
    assert RawWater(i) == 20.0;
    assert RawEnergy(i) == 10.0;
    assert RawWaste(i) == 5.0;
    RoundWhole(Clamp(RawWater(i), 40.0) + Clamp(RawEnergy(i), 40.0) + Clamp(RawWaste(i), 20.0), 35);
  }

  /** A number equal to a whole number rounds to that number. */
  lemma RoundWhole(x: real, n: int)
    requires x == n as real
    ensures Round(x) == n
  {
  }

  /** The untouched form scores 40 + 37.5 + 10 = 87.5, shown as 88. */
  lemma DefaultScores()
    ensures Scores(DefaultInputs) == EcoScores(40.0, 37.5, 10.0, 88)
  {
  }
}
