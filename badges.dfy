/** The achievement badges of the quiz page (frontend/src/App.jsx,
    `renderBadges`): three independent rules over the current answers, shown
    in a fixed order. Only the list the page builds is modelled. */
module Badges {
  import opened Scoring

  datatype Badge = WaterSaver | EnergyNinja | WasteWarrior
  {
    function Title(): string
    {
      match this
      case WaterSaver => "Water Saver"
      case EnergyNinja => "Energy Ninja"
      case WasteWarrior => "Waste Warrior"
    }

    function Subtitle(): string
    {
      match this
      case WaterSaver => "Showers under 5 min"
      case EnergyNinja => "Devices <=3 hrs & AC <=2 hrs"
      case WasteWarrior => "Uses reusable bottle & recycles"
    }

    function Icon(): string
    {
      match this
      case WaterSaver => "\U{1F4A7}"
      case EnergyNinja => "\U{26A1}"
      case WasteWarrior => "\U{1F5D1}\U{FE0F}"
    }

    /** Position of the badge on the page. */
    function Rank(): (r: nat)
      ensures r <= 2
    {
      match this
      case WaterSaver => 0
      case EnergyNinja => 1
      case WasteWarrior => 2
    }
  }

  /** The rule that awards badge `b` for answers `i`. */
  predicate Earns(b: Badge, i: QuizInputs)
  {
    match b
    case WaterSaver => i.showerMin <= 5.0
    case EnergyNinja => i.hoursDevices <= 3.0 && i.acHours <= 2.0
    case WasteWarrior => i.usesReusable && i.recycles
  }

  /** The badge list of `renderBadges`, pushed one rule at a time: exactly the
      earned badges, each once, in page order. */
  method EarnedBadges(inputs: QuizInputs) returns (badges: seq<Badge>)
    ensures badges == Earned(AllBadges, inputs)
    ensures forall b :: b in badges <==> Earns(b, inputs)
    ensures forall k :: 0 < k < |badges| ==> badges[k - 1].Rank() < badges[k].Rank()
    ensures |badges| <= 3
  {
    badges := [];
    if inputs.showerMin <= 5.0 {
      badges := badges + [WaterSaver];
    }
    assert badges == Pick(WaterSaver, inputs);
    if inputs.hoursDevices <= 3.0 && inputs.acHours <= 2.0 {
      badges := badges + [EnergyNinja];
    }
    assert badges == Pick(WaterSaver, inputs) + Pick(EnergyNinja, inputs);
    if inputs.usesReusable && inputs.recycles {
      badges := badges + [WasteWarrior];
    }
    assert badges == Earned(AllBadges, inputs) by {
      EarnedAll(inputs);
    }
    EarnedBadgesShape(inputs);
    // The list is in strictly increasing page order, so it has at most three badges.
    RankedListIsShort(badges);
  }

  /** A list ordered by strictly increasing rank holds each badge at most once
      and so has at most three entries. */
  lemma {:induction false} RankedListIsShort(badges: seq<Badge>)
    requires forall k :: 0 < k < |badges| ==> badges[k - 1].Rank() < badges[k].Rank()
    ensures forall k :: 0 <= k < |badges| ==> k <= badges[k].Rank()
    ensures |badges| <= 3
  {
    if |badges| > 0 {
      var n := |badges| - 1;
      var front := badges[..n];
      assert forall k :: 0 <= k < n ==> front[k] == badges[k];
      RankedListIsShort(front);
      assert n > 0 ==> n - 1 <= badges[n - 1].Rank() < badges[n].Rank();
    }
  }

  /** The badges in page order. */
  const AllBadges: seq<Badge> := [WaterSaver, EnergyNinja, WasteWarrior]

  /** The candidates whose rule `i` satisfies, in the candidates' order. */
  function Earned(candidates: seq<Badge>, i: QuizInputs): (r: seq<Badge>)
    ensures |r| <= |candidates|
    decreases |candidates|
  {
    if |candidates| == 0 then []
    else (if Earns(candidates[0], i) then [candidates[0]] else []) + Earned(candidates[1..], i)
  }

  /** `[b]` when `b` is earned, otherwise nothing. */
  function Pick(b: Badge, i: QuizInputs): seq<Badge>
  {
    if Earns(b, i) then [b] else []
  }

  /** The filter over all badges checks each rule in page order. */
  lemma EarnedAll(i: QuizInputs)
    ensures Earned(AllBadges, i) == Pick(WaterSaver, i) + Pick(EnergyNinja, i) + Pick(WasteWarrior, i)
  {
    assert AllBadges[1..][1..][1..] == [];
  }

  /** A badge is earned from a list exactly when it is in the list and its rule holds. */
  lemma {:induction false} EarnedMembers(candidates: seq<Badge>, i: QuizInputs, b: Badge)
    ensures b in Earned(candidates, i) <==> b in candidates && Earns(b, i)
    decreases |candidates|
  {
    if |candidates| > 0 {
      EarnedMembers(candidates[1..], i, b);
      assert candidates == [candidates[0]] + candidates[1..];
    }
  }

  /** Filtering a ranked list keeps it ranked. */
  lemma {:induction false} EarnedRanked(candidates: seq<Badge>, i: QuizInputs)
    requires forall j, k :: 0 <= j < k < |candidates| ==> candidates[j].Rank() < candidates[k].Rank()
    ensures forall j, k :: 0 <= j < k < |Earned(candidates, i)| ==>
      Earned(candidates, i)[j].Rank() < Earned(candidates, i)[k].Rank()
    decreases |candidates|
  {
    if |candidates| > 0 {
      var rest := candidates[1..];
      EarnedRanked(rest, i);
      forall b | b in Earned(rest, i) ensures candidates[0].Rank() < b.Rank() {
        EarnedMembers(rest, i, b);
      }
    }
  }

  /** The page's list is the reference filter over all badges: exactly the
      earned badges, each once, in page order, and at most three. */
  lemma EarnedBadgesShape(i: QuizInputs)
    ensures forall b :: b in Earned(AllBadges, i) <==> Earns(b, i)
    ensures forall j, k :: 0 <= j < k < |Earned(AllBadges, i)| ==>
      Earned(AllBadges, i)[j].Rank() < Earned(AllBadges, i)[k].Rank()
    ensures |Earned(AllBadges, i)| <= 3
  {
    forall b ensures b in Earned(AllBadges, i) <==> Earns(b, i) {
      EarnedMembers(AllBadges, i, b);
      assert AllBadges[b.Rank()] == b;
    }
    EarnedRanked(AllBadges, i);
  }

  // ---------------------------------------------------------------------
  // Badges and scores
  // ---------------------------------------------------------------------

  /** Water Saver means full water marks. */
  lemma WaterSaverScore(i: QuizInputs)
    requires Earns(WaterSaver, i)
    ensures Scores(i).water == 40.0
  {
    WaterLevels(i);
  }

  /** Energy Ninja guarantees at least 35 energy points whenever the number
      of LED bulbs is not negative. */
  lemma EnergyNinjaScore(i: QuizInputs)
    requires Earns(EnergyNinja, i)
    requires 0.0 <= i.numLed
    ensures 35.0 <= Scores(i).energy
  {
  }

  /** A negative bulb count, which the number field accepts when typed in,
      lowers the energy of an Energy Ninja below 35. */
  lemma EnergyNinjaWithNegativeBulbs()
    ensures var i := DefaultInputs.(hoursDevices := 3.0, acHours := 2.0, numLed := -10.0);
      Earns(EnergyNinja, i) && Scores(i).energy == 20.0
  {
  }

  /** Waste Warrior guarantees at least 15 waste points. */
  lemma WasteWarriorScore(i: QuizInputs)
    requires Earns(WasteWarrior, i)
    ensures 15.0 <= Scores(i).waste
  {
  }

  /** The untouched form earns no badge. */
  lemma DefaultEarnsNothing(b: Badge)
    ensures !Earns(b, DefaultInputs)
  {
  }
}
