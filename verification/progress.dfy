/** The progress rule shared by the jar allocations
    (src/hooks/useFinanceCalculations.ts:81, 94) and the progress bar
    (src/components/ProgressBar.jsx:4-24): a percentage of a budget used,
    capped at 100, with 0 when there is no positive budget. */
module Progress {

  function Min(a: real, b: real): real
  {
    if a <= b then a else b
  }

  /** `max > 0 ? Math.min((current / max) * 100, 100) : 0`. */
  function CappedPercent(current: real, max: real): (p: real)
    ensures max <= 0.0 ==> p == 0.0
    ensures current >= 0.0 ==> 0.0 <= p <= 100.0
    ensures max > 0.0 ==> (p == 100.0 <==> current >= max)
    ensures max > 0.0 && current < max ==> p * max == current * 100.0
  {
    if max > 0.0 then
      QuotientFacts(current, max);
      Min((current / max) * 100.0, 100.0)
    else 0.0
  }

  lemma QuotientFacts(current: real, max: real)
    requires max > 0.0
    ensures (current / max) * 100.0 >= 100.0 <==> current >= max
    ensures current >= 0.0 ==> (current / max) * 100.0 >= 0.0
    ensures (current / max) * 100.0 * max == current * 100.0
  {
    var q := current / max;
    assert q * max == current;
    assert q >= 1.0 <==> q * max >= max;
  }

  /** `Math.round`: the nearest integer, halves rounded up. */
  function Round(x: real): (n: int)
    ensures x - 0.5 < n as real <= x + 0.5
  {
    (x + 0.5).Floor
  }

  /** The status text in the bar's header. */
  datatype Status = NoBudget | OverBudget | PercentUsed(rounded: int)

  /** What the bar shows for `current` spent against `max`. */
  datatype ProgressBarView = ProgressBarView(
    percentage: real,
    remaining: real,
    isOverBudget: bool,
    status: Status,
    footerAmount: real,
    footerLabel: string)

  function ProgressBar(current: real, max: real): (v: ProgressBarView)
    ensures v.percentage == CappedPercent(current, max)
    ensures v.remaining == max - current
    ensures v.isOverBudget <==> current > max
    ensures v.status == NoBudget <==> max <= 0.0
    ensures v.status == OverBudget <==> max > 0.0 && current > max
    ensures v.status.PercentUsed? ==> v.status.rounded == Round(v.percentage)
    ensures v.status.PercentUsed? && current >= 0.0 ==> 0 <= v.status.rounded <= 100
    ensures v.footerAmount >= 0.0 && (v.footerAmount == max - current || v.footerAmount == current - max)
    ensures v.footerLabel == (if current > max then "over" else "left")
  {
    var percentage := CappedPercent(current, max);
    var remaining := max - current;
    var isOverBudget := remaining < 0.0;
    ProgressBarView(
      percentage,
      remaining,
      isOverBudget,
      if max > 0.0 then (if isOverBudget then OverBudget else PercentUsed(Round(percentage))) else NoBudget,
      if remaining < 0.0 then -remaining else remaining,
      if isOverBudget then "over" else "left")
  }
}
