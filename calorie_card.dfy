/**
 * The per-day card: from a day's target, its consumption and its fasting flag it derives
 * the progress-bar fill, the progress-bar colour, the status line and the status colour.
 *
 * Targets and consumption are integers. The fill `Math.min(consumed / target, 1)` is computed
 * with exact rationals, and the cases where the JavaScript division has no finite value
 * (a zero target) are spelled out: a positive numerator gives `Infinity` and hence a fill of
 * 1, a negative one `-Infinity`, and `0 / 0` gives `NaN`; the last two compare false with
 * every number.
 */
module CalorieCard {

  /** The value of `Math.min(consumed / target, 1)`. */
  datatype Progress = Finite(value: real) | NegInfinity | NaN

  /** `p >= x` under JavaScript's number comparison. */
  predicate AtLeast(p: Progress, x: real) {
    p.Finite? && p.value >= x
  }

  function Min1(x: real): real {
    if x <= 1.0 then x else 1.0
  }

  lemma QuotientAtLeast(c: real, t: real, x: real)
    requires t > 0.0
    ensures c / t >= x <==> c >= x * t
  {
    var q := c / t;
    assert q * t == c;
    if q >= x {
      assert q * t >= x * t;
    } else {
      assert q * t < x * t;
    }
  }

  /** The progress-bar fill. */
  function ProgressOf(target: int, consumed: int): (p: Progress)
    ensures p.Finite? ==> p.value <= 1.0
    ensures target != 0 ==> p.Finite?
    ensures target > 0 && consumed >= 0 ==> 0.0 <= p.value && (p.value == 1.0 <==> consumed >= target)
    ensures target > 0 ==> (AtLeast(p, 0.8) <==> 4 * target <= 5 * consumed)
    ensures target == 0 ==>
      (p.NaN? <==> consumed == 0) && (p.NegInfinity? <==> consumed < 0) && (p == Finite(1.0) <==> consumed > 0)
  {
    if target != 0 then
      var q := consumed as real / target as real;
      assert target > 0 ==> (q >= 1.0 <==> consumed >= target) && (q >= 0.8 <==> 4 * target <= 5 * consumed) by {
        if target > 0 {
          QuotientAtLeast(consumed as real, target as real, 1.0);
          QuotientAtLeast(consumed as real, target as real, 0.8);
        }
      }
      Finite(Min1(q))
    else if consumed > 0 then Finite(1.0)
    else if consumed < 0 then NegInfinity
    else NaN
  }

  /** The status line of the card; `Remaining(n)` is rendered as `n` followed by " remaining". */
  datatype Status = Fasting | OverTarget | TargetReached | Remaining(kcal: int)

  function StatusOf(target: int, consumed: int, isFasting: bool): (st: Status)
    ensures st.Fasting? <==> isFasting
    ensures !isFasting ==> (st.OverTarget? <==> consumed > target)
    ensures !isFasting ==> (st.TargetReached? <==> consumed == target)
    ensures !isFasting ==> (st.Remaining? <==> consumed < target)
    ensures st.Remaining? ==> st.kcal > 0 && st.kcal == target - consumed
  {
    var remaining := target - consumed;
    if isFasting then Fasting
    else if consumed > target then OverTarget
    else if remaining <= 0 then TargetReached
    else Remaining(remaining)
  }

  /** Decimal digits of a natural number, as a template literal renders an integer. */
  function DecimalString(n: nat): (s: string)
    ensures |s| >= 1
    ensures forall i :: 0 <= i < |s| ==> '0' <= s[i] <= '9'
    ensures |s| > 1 ==> s[0] != '0'
  {
    if n < 10 then [('0' as int + n) as char]
    else DecimalString(n / 10) + [('0' as int + n % 10) as char]
  }

  /** Reads a string of decimal digits back; the partner of `DecimalString`. */
  function DecimalValue(s: string): nat
    requires forall i :: 0 <= i < |s| ==> '0' <= s[i] <= '9'
  {
    if s == [] then 0
    else 10 * DecimalValue(s[..|s| - 1]) + (s[|s| - 1] as int - '0' as int)
  }

  /** Rendering a number and reading it back gives the number: no digit is lost or added. */
  lemma {:induction false} DecimalRoundTrip(n: nat)
    ensures DecimalValue(DecimalString(n)) == n
  {
    var s := DecimalString(n);
    if n >= 10 {
      DecimalRoundTrip(n / 10);
      assert s[..|s| - 1] == DecimalString(n / 10);
    }
  }

  /** The text of the status line. */
  function StatusText(st: Status): (text: string)
    ensures st.Remaining? && st.kcal > 0 ==>
      && |text| > 10 && text[|text| - 10..] == " remaining"
      && (forall i :: 0 <= i < |text| - 10 ==> '0' <= text[i] <= '9')
      && DecimalValue(text[..|text| - 10]) == st.kcal
  {
    match st
    case Fasting => "Fasting"
    case OverTarget => "Over Target"
    case TargetReached => "Target Reached"
    case Remaining(n) =>
      var t := (if n >= 0 then DecimalString(n) else "-" + DecimalString(-n)) + " remaining";
      assert n > 0 ==> t[..|t| - 10] == DecimalString(n) && DecimalValue(DecimalString(n)) == n by {
        if n > 0 {
          DecimalRoundTrip(n);
        }
      }
      t
  }

  /** Distinct statuses read differently, so the line always tells the case apart. */
  lemma StatusTextInjective(a: Status, b: Status)
    requires a.Remaining? ==> a.kcal > 0
    requires b.Remaining? ==> b.kcal > 0
    requires StatusText(a) == StatusText(b)
    ensures a == b
  {
    if a.Remaining? && b.Remaining? {
      var sa := DecimalString(a.kcal);
      var sb := DecimalString(b.kcal);
      assert sa == StatusText(a)[..|StatusText(a)| - 10];
      assert sb == StatusText(b)[..|StatusText(b)| - 10];
      DecimalRoundTrip(a.kcal);
      DecimalRoundTrip(b.kcal);
    }
  }

  /** The Tailwind class of the progress bar. */
  function ProgressColor(target: int, consumed: int, isFasting: bool): (c: string)
    ensures c in ["bg-blue-500", "bg-red-500", "bg-yellow-500", "bg-green-500"]
  {
    if isFasting then "bg-blue-500"
    else if consumed > target then "bg-red-500"
    else if AtLeast(ProgressOf(target, consumed), 0.8) then "bg-yellow-500"
    else "bg-green-500"
  }

  /** The Tailwind class of the status line. */
  function StatusColor(target: int, consumed: int, isFasting: bool): (c: string)
    ensures c in ["text-blue-600", "text-red-600", "text-green-600", "text-gray-600"]
  {
    var remaining := target - consumed;
    if isFasting then "text-blue-600"
    else if consumed > target then "text-red-600"
    else if remaining <= 0 then "text-green-600"
    else "text-gray-600"
  }

  /** The colour each status is shown in. */
  function ColorOfStatus(st: Status): string {
    match st
    case Fasting => "text-blue-600"
    case OverTarget => "text-red-600"
    case TargetReached => "text-green-600"
    case Remaining(_) => "text-gray-600"
  }

  /** The status colour is decided by the status alone: blue fasting, red over, green reached, grey otherwise. */
  lemma StatusColorMatchesText(target: int, consumed: int, isFasting: bool)
    ensures StatusColor(target, consumed, isFasting) == ColorOfStatus(StatusOf(target, consumed, isFasting))
  {
  }

  /** The bar turns red exactly when the status line says "Over Target". */
  lemma ProgressRedIffOver(target: int, consumed: int, isFasting: bool)
    ensures ProgressColor(target, consumed, isFasting) == "bg-red-500"
            <==> StatusOf(target, consumed, isFasting) == OverTarget
  {
  }

  /**
   * With a positive target, a day that is not a fast day shows a yellow bar exactly when it
   * has consumed at least 80% of the target without going over.
   */
  lemma ProgressYellowIffNearTarget(target: int, consumed: int, isFasting: bool)
    requires target > 0 && !isFasting
    ensures ProgressColor(target, consumed, isFasting) == "bg-yellow-500"
            <==> 4 * target <= 5 * consumed && consumed <= target
  {
  }

  /**
   * The bar's branch order: blue exactly on fast days; a day neither fasting, nor over target,
   * nor at 80% of it shows green, whatever the sign of the target.
   */
  lemma ProgressBlueAndGreen(target: int, consumed: int, isFasting: bool)
    ensures ProgressColor(target, consumed, isFasting) == "bg-blue-500" <==> isFasting
    ensures ProgressColor(target, consumed, isFasting) == "bg-green-500"
            <==> !isFasting && consumed <= target && !AtLeast(ProgressOf(target, consumed), 0.8)
  {
  }

  /**
   * With a zero target and nothing consumed the fill is `NaN`: the bar is green and the status
   * says the target is reached.
   */
  lemma ZeroTargetCard()
    ensures ProgressOf(0, 0) == NaN
    ensures ProgressColor(0, 0, false) == "bg-green-500"
    ensures StatusOf(0, 0, false) == TargetReached
  {
  }
}
