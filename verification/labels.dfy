/**
 * Player labels such as "Tank-3": a role name, a hyphen and the player's
 * number written in decimal, as Java's string concatenation with an int does.
 */
module Labels {

  predicate IsDigit(c: char) { '0' <= c <= '9' }

  function DigitChar(n: nat): (c: char)
    requires n < 10
    ensures IsDigit(c) && c as int - '0' as int == n
  {
    ('0' as int + n) as char
  }

  /** Decimal digits of `n`, most significant first, without leading zeros. */
  function Decimal(n: nat): (s: string)
    ensures 1 <= |s|
    ensures forall i :: 0 <= i < |s| ==> IsDigit(s[i])
    ensures |s| > 1 ==> s[0] != '0'
  {
    if n < 10 then [DigitChar(n)] else Decimal(n / 10) + [DigitChar(n % 10)]
  }

  /** Reads a string of decimal digits back as a number. */
  function ParseDecimal(s: string): nat
    requires forall i :: 0 <= i < |s| ==> IsDigit(s[i])
  {
    if s == [] then 0
    else
      assert IsDigit(s[|s| - 1]);
      10 * ParseDecimal(s[..|s| - 1]) + (s[|s| - 1] as int - '0' as int)
  }

  /** Reading the rendering of a number gives the number back. */
  lemma {:induction false} ParseDecimalInverts(n: nat)
    ensures ParseDecimal(Decimal(n)) == n
  {
    var s := Decimal(n);
    if n >= 10 {
      assert s[..|s| - 1] == Decimal(n / 10);
      ParseDecimalInverts(n / 10);
    } else {
      assert s[..|s| - 1] == [];
    }
  }

  /** The label of the `n`th player of a role: "Tank-" + n. */
  function Label(role: string, n: nat): string
  {
    role + "-" + Decimal(n)
  }

  /** Two labels of one role are equal only when their numbers are. */
  lemma LabelInjective(role: string, a: nat, b: nat)
    ensures Label(role, a) == Label(role, b) <==> a == b
  {
    if Label(role, a) == Label(role, b) {
      assert Label(role, a)[|role| + 1..] == Decimal(a);
      assert Label(role, b)[|role| + 1..] == Decimal(b);
      ParseDecimalInverts(a);
      ParseDecimalInverts(b);
    }
  }
}
