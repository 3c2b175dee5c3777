/** The figures the dashboard (src/components/Dashboard.jsx) derives from
    today's totals, the profile and the seven-day trend before drawing them:
    percentages and widths clamped to their bounds, and the net calories. */
module Dashboard {
  import opened Numeric
  import opened Ledger
  import opened Wrappers

  // ---------------------------------------------------------------------------
  // Today's calories

  /** `Donut`: the share of the target consumed, in whole percent, held to
      [0, 100]. A zero target is excluded: the program then divides by
      zero. */
  function DonutPct(value: real, max: real): (pct: int)
    requires max != 0.0
    ensures 0 <= pct <= 100
    ensures Round(value / max * 100.0) <= 0 ==> pct == 0
    ensures Round(value / max * 100.0) >= 100 ==> pct == 100
    ensures 0 <= Round(value / max * 100.0) <= 100 ==> pct == Round(value / max * 100.0)
  {
    MaxInt(0, MinInt(100, Round(value / max * 100.0)))
  }

  /** Against a positive target, eating more never shows a smaller share. */
  lemma DonutMonotone(v1: real, v2: real, max: real)
    requires 0.0 < max && v1 <= v2
    ensures DonutPct(v1, max) <= DonutPct(v2, max)
  {
    assert v1 / max * 100.0 <= v2 / max * 100.0;
    RoundMonotone(v1 / max * 100.0, v2 / max * 100.0);
  }

  /** Reaching a positive target fills the ring; nothing eaten leaves it
      empty. */
  lemma DonutBounds(value: real, max: real)
    requires 0.0 < max
    ensures value >= max ==> DonutPct(value, max) == 100
    ensures DonutPct(0.0, max) == 0
  {
    if value >= max {
      assert value / max * 100.0 >= 100.0;
      RoundMonotone(100.0, value / max * 100.0);
      RoundInt(100);
    }
    RoundInt(0);
  }

  /** `netCalories`: consumed less burned, never below zero. */
  function NetCalories(totals: Totals): (net: real)
    ensures net >= 0.0
    ensures net >= totals.food.calories - totals.burned
    ensures net == 0.0 || net == totals.food.calories - totals.burned
  {
    Max(0.0, totals.food.calories - totals.burned)
  }

  /** The "Net" figure: the rounded net calories, again held at zero or
      more. */
  function NetDisplay(totals: Totals): (n: int)
    ensures n >= 0
  {
    MaxInt(0, Round(NetCalories(totals)))
  }

  /** Since the net calories are already at least zero, the second clamp
      never changes the figure: it is the rounded net. */
  lemma NetDisplayIsRoundedNet(totals: Totals)
    ensures NetDisplay(totals) == Round(NetCalories(totals))
  {
    RoundMonotone(0.0, NetCalories(totals));
    RoundInt(0);
  }

  /** A day without workouts nets exactly what was eaten, when that is at
      least zero. */
  lemma NetWithoutWorkouts(day: seq<FoodEntry>)
    requires FoodTotal(day).calories >= 0.0
    ensures NetCalories(Totals(FoodTotal(day), Burned([]))) == FoodTotal(day).calories
  {
  }

  /** The width of the consumed bar, in percent of the target: at most 100.
      A zero target is excluded, as for the ring. */
  function ConsumedBarWidth(consumed: real, targetCalories: int): (w: real)
    requires targetCalories != 0
    ensures w <= 100.0
    ensures consumed / targetCalories as real * 100.0 <= 100.0 ==> w == consumed / targetCalories as real * 100.0
    ensures consumed / targetCalories as real * 100.0 >= 100.0 ==> w == 100.0
  {
    Min(100.0, consumed / targetCalories as real * 100.0)
  }

  // ---------------------------------------------------------------------------
  // Protein

  /** `proteinPct`: protein eaten as a whole percentage of the target; the
      divisor is at least 1, so a zero or negative target cannot divide by
      zero. */
  function ProteinPct(protein: real, target: real): (pct: int)
    ensures target >= 1.0 ==>
      protein / target * 100.0 - 1.0 / 2.0 < pct as real <= protein / target * 100.0 + 1.0 / 2.0
    ensures target < 1.0 ==>
      protein * 100.0 - 1.0 / 2.0 < pct as real <= protein * 100.0 + 1.0 / 2.0
  {
    Round(protein / Max(1.0, target) * 100.0)
  }

  /** "Protein progress": the percentage held to [0, 100]. */
  function ProteinProgress(pct: int): (r: int)
    ensures 0 <= r <= 100
    ensures 0 <= pct <= 100 ==> r == pct
    ensures pct < 0 ==> r == 0
    ensures pct > 100 ==> r == 100
  {
    MinInt(100, MaxInt(0, pct))
  }

  /** Meeting the protein target shows full progress. */
  lemma ProteinTargetMet(protein: real, target: real)
    requires 1.0 <= target <= protein
    ensures ProteinProgress(ProteinPct(protein, target)) == 100
  {
    assert protein / target >= 1.0;
    RoundMonotone(100.0, protein / target * 100.0);
    RoundInt(100);
  }

  // ---------------------------------------------------------------------------
  // Weekly trend

  /** The width of one day's bar in the weekly trend, in percent of the
      target: at most 100, the divisor at least 1. */
  function TrendBarWidth(consumed: real, targetCalories: int): (w: real)
    ensures w <= 100.0
    ensures consumed / Max(1.0, targetCalories as real) * 100.0 <= 100.0 ==>
      w == consumed / Max(1.0, targetCalories as real) * 100.0
    ensures consumed / Max(1.0, targetCalories as real) * 100.0 >= 100.0 ==> w == 100.0
    ensures targetCalories < 1 ==> w == Min(100.0, consumed * 100.0)
  {
    Min(100.0, consumed / Max(1.0, targetCalories as real) * 100.0)
  }

  /** For a positive target the trend bar and today's consumed bar agree. */
  lemma TrendBarMatchesConsumedBar(consumed: real, targetCalories: int)
    requires targetCalories >= 1
    ensures TrendBarWidth(consumed, targetCalories) == ConsumedBarWidth(consumed, targetCalories)
  {
  }

  /** The values the sparkline plots: each day's net calories, never below
      zero. */
  function SparkValues(trend: seq<TrendPoint>): (vs: seq<real>)
    ensures |vs| == |trend|
    ensures forall i :: 0 <= i < |vs| ==> vs[i] >= 0.0 && vs[i] >= trend[i].consumed - trend[i].burned
    ensures forall i :: 0 <= i < |vs| ==> vs[i] == 0.0 || vs[i] == trend[i].consumed - trend[i].burned
  {
    seq(|trend|, i requires 0 <= i < |trend| => Max(0.0, trend[i].consumed - trend[i].burned))
  }

  /** `Math.max(1, ...values)`: the sparkline's scale. */
  function SparkMax(vs: seq<real>): (m: real)
    ensures m >= 1.0
    ensures forall i :: 0 <= i < |vs| ==> vs[i] <= m
    ensures m == 1.0 || exists i :: 0 <= i < |vs| && vs[i] == m
  {
    if vs == [] then 1.0 else Max(SparkMax(vs[..|vs| - 1]), vs[|vs| - 1])
  }

  /** Every plotted value, divided by the scale, lies in [0, 1], so each
      point stays within the drawing's height. */
  lemma SparkPointsInRange(trend: seq<TrendPoint>, i: nat)
    requires i < |trend|
    ensures var vs := SparkValues(trend);
      0.0 <= vs[i] / SparkMax(vs) <= 1.0
  {
    var vs := SparkValues(trend);
    ScaledInRange(vs[i], SparkMax(vs));
  }

  lemma ScaledInRange(v: real, m: real)
    requires 0.0 <= v <= m && 0.0 < m
    ensures 0.0 <= v / m <= 1.0
  {
  }

  // ---------------------------------------------------------------------------
  // Macro cards

  /** `MacroCard`: the percentage of the target, at most 100, or none when
      the card has no target or its target is zero (the program tests the
      target for truthiness). */
  function MacroCardPct(value: real, target: Option<real>): (pct: Option<int>)
    ensures pct.None? <==> target.None? || target.value == 0.0
    ensures pct.Some? ==> pct.value <= 100
    ensures pct.Some? && Round(value / target.value * 100.0) <= 100 ==>
      pct.value == Round(value / target.value * 100.0)
    ensures pct.Some? && Round(value / target.value * 100.0) >= 100 ==> pct.value == 100
  {
    if target.None? || target.value == 0.0 then None
    else Some(MinInt(100, Round(value / target.value * 100.0)))
  }

  /** The card's bar width: the percentage, or a full bar without one. */
  function MacroBarWidth(pct: Option<int>): (w: int)
    ensures pct.None? ==> w == 100
    ensures pct.Some? ==> w == pct.value
  {
    if pct.Some? then pct.value else 100
  }

  /** The protein card and the protein progress agree for a target of at
      least 1 and non-negative protein. */
  lemma ProteinCardMatchesProgress(protein: real, target: real)
    requires target >= 1.0 && protein >= 0.0
    ensures MacroCardPct(protein, Some(target)) == Some(ProteinProgress(ProteinPct(protein, target)))
  {
    assert protein / target * 100.0 >= 0.0;
    RoundMonotone(0.0, protein / target * 100.0);
    RoundInt(0);
  }
}
