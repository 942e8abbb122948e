/** Small value types shared by every screen of the quest. */
module Common {

  /** A value that may be absent: the `T | null` states of the components. */
  datatype Option<+T> = None | Some(value: T)

  /**
   * An exact ratio `num / den`. The components compute progress bars as
   * floating-point percentages; the model keeps the ratio itself, so
   * "percentage <= 100" reads `num <= den` and "percentage == 100" reads
   * `num == den`.
   */
  datatype Fraction = Fraction(num: nat, den: nat) {
    /** 0 < num / den <= 1, i.e. a percentage in (0, 100]. */
    predicate InUnitInterval() {
      0 < num <= den
    }

    /** num / den == 1, i.e. a percentage of exactly 100. */
    predicate IsWhole() {
      0 < den && num == den
    }
  }

  function Max(a: int, b: int): int {
    if a >= b then a else b
  }

  function Min(a: int, b: int): int {
    if a <= b then a else b
  }

  /**
   * The JavaScript lookup `hints[n - 1] || ''`: the n-th hint (counting
   * from 1) when there is one, and the empty string for every other n,
   * including 0 and negative counters.
   */
  function HintAt(hints: seq<string>, n: int): (r: string)
    ensures 1 <= n <= |hints| ==> r == hints[n - 1]
    ensures !(1 <= n <= |hints|) ==> r == ""
    ensures (forall i :: 0 <= i < |hints| ==> hints[i] != "") ==> (r != "" <==> 1 <= n <= |hints|)
  {
    if 1 <= n <= |hints| then hints[n - 1] else ""
  }

  /** `a < b` as rationals, by cross-multiplication. */
  predicate Below(a: Fraction, b: Fraction) {
    a.num * b.den < b.num * a.den
  }

  /**
   * The tutorial progress bar `(currentStep + 1) / steps.length * 100` on a
   * step that has data: it lies in (0, 100] and reaches 100 exactly on the
   * last step.
   */
  function StepProgress(step: nat, count: nat): (p: Fraction)
    requires step < count
    ensures p.InUnitInterval()
    ensures p.IsWhole() <==> step == count - 1
  {
    Fraction(step + 1, count)
  }

  /** A later step always shows a strictly fuller progress bar. */
  lemma StepProgressIncreasing(s1: nat, s2: nat, count: nat)
    requires s1 < s2 < count
    ensures Below(StepProgress(s1, count), StepProgress(s2, count))
  {
  }
}
