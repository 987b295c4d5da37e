/** Small shared definitions: an Option type, integer helpers and the party-round count. */
module Common {

  datatype Option<T> = None | Some(value: T)

  function Min(a: int, b: int): int { if a <= b then a else b }

  function Max(a: int, b: int): int { if a >= b then a else b }

  function Min3(a: int, b: int, c: int): int { Min(Min(a, b), c) }

  /** Sum of a sequence of integers. */
  function Sum(s: seq<int>): int
  {
    if s == [] then 0 else Sum(s[..|s| - 1]) + s[|s| - 1]
  }

  /** A sum of values in [lo, hi] lies between n * lo and n * hi. */
  lemma {:induction false} SumBounds(s: seq<int>, lo: int, hi: int)
    requires forall j :: 0 <= j < |s| ==> lo <= s[j] <= hi
    ensures |s| * lo <= Sum(s) <= |s| * hi
  {
    if s != [] {
      SumBounds(s[..|s| - 1], lo, hi);
      assert |s| * lo == (|s| - 1) * lo + lo;
      assert |s| * hi == (|s| - 1) * hi + hi;
    }
  }

  /**
   * How many times a party-forming loop guarded by "at least one tank, one
   * healer and three DPS" runs, when each round takes 1, 1 and 3 of them.
   * This is the loop read one iteration at a time.
   */
  function Rounds(t: int, h: int, d: int): nat
    decreases Max(t, 0)
  {
    if t >= 1 && h >= 1 && d >= 3 then 1 + Rounds(t - 1, h - 1, d - 3) else 0
  }

  /** The round count in closed form: min(T, H, D div 3), and none for negative counts. */
  lemma {:induction false} RoundsIsMin(t: int, h: int, d: int)
    ensures Rounds(t, h, d) == Max(0, Min3(t, h, d / 3))
    decreases Max(t, 0)
  {
    if t >= 1 && h >= 1 && d >= 3 {
      assert (d - 3) / 3 == d / 3 - 1;
      RoundsIsMin(t - 1, h - 1, d - 3);
    } else {
      assert d < 3 ==> d / 3 <= 0;
    }
  }

  /** After the last round at least one of the three guards is false, and each round kept them all true. */
  lemma {:induction false} RoundsExhaust(t: int, h: int, d: int, j: nat)
    requires j <= Rounds(t, h, d)
    ensures j < Rounds(t, h, d) ==> t - j >= 1 && h - j >= 1 && d - 3 * j >= 3
    ensures j == Rounds(t, h, d) ==> !(t - j >= 1 && h - j >= 1 && d - 3 * j >= 3)
    decreases j
  {
    if j > 0 {
      RoundsExhaust(t - 1, h - 1, d - 3, j - 1);
    }
  }
}
