/** Polynomials with real coefficients, stored highest degree first,
    evaluated by Horner's scheme and rendered as text. */
module Polynomial {
  import opened Wrappers
  import opened Preconditions

  /** `coeffs[0]` is the coefficient of `x^(|coeffs| - 1)`, the last one is
      the constant term. */
  datatype Polynomial = Polynomial(coeffs: seq<real>) {
    /** What `Of` guarantees: at least one coefficient, and a non-zero leading one. */
    predicate Valid() {
      |coeffs| >= 1 && coeffs[0] != 0.0
    }

    function Degree(): int {
      |coeffs| - 1
    }
  }

  /** `Polynomial.of(coefficientN, coefficients...)`: fails on a zero leading
      coefficient; otherwise the degree is the number of trailing arguments. */
  function Of(coefficientN: real, coefficients: seq<real>): (r: Result<Polynomial>)
    ensures r.Success? <==> coefficientN != 0.0
    ensures r.Failure? ==> r.error == IllegalArgument
    ensures r.Success? ==> r.value.Valid() && r.value.Degree() == |coefficients|
    ensures r.Success? ==> r.value.coeffs[0] == coefficientN && r.value.coeffs[1..] == coefficients
  {
    var leadingNonZero := CheckArgument(coefficientN != 0.0);
    :- leadingNonZero;
    Success(Polynomial([coefficientN] + coefficients))
  }

  function Pow(x: real, n: nat): real {
    if n == 0 then 1.0 else x * Pow(x, n - 1)
  }

  /** The reference meaning of a coefficient list: `Σ cs[i] * x^(|cs| - 1 - i)`. */
  function PowerSum(cs: seq<real>, x: real): real {
    if |cs| == 0 then 0.0 else cs[0] * Pow(x, |cs| - 1) + PowerSum(cs[1..], x)
  }

  /** Horner's scheme as the loop of `Polynomial.at` computes it: the value
      after the first `|cs|` coefficients is the previous value times `x` plus
      the next coefficient. */
  function Horner(cs: seq<real>, x: real): real
    requires |cs| >= 1
  {
    if |cs| == 1 then cs[0] else Horner(cs[..|cs| - 1], x) * x + cs[|cs| - 1]
  }

  /** `Polynomial.at`: the value of the polynomial at `x`. */
  function At(p: Polynomial, x: real): (r: real)
    requires p.Valid()
    ensures r == PowerSum(p.coeffs, x)
  {
    HornerIsPowerSum(p.coeffs, x);
    Horner(p.coeffs, x)
  }

  /** Appending a coefficient multiplies the previous sum by `x`. */
  lemma {:induction false} PowerSumSnoc(cs: seq<real>, c: real, x: real)
    ensures PowerSum(cs + [c], x) == PowerSum(cs, x) * x + c
  {
    if |cs| == 0 {
      assert PowerSum([c], x) == c * Pow(x, 0) + PowerSum([], x);
    } else {
      var rest := cs[1..];
      assert (cs + [c])[1..] == rest + [c];
      PowerSumSnoc(rest, c, x);
      SnocStep(PowerSum(cs, x), PowerSum(cs + [c], x), cs[0], Pow(x, |cs| - 1), Pow(x, |cs|),
               PowerSum(rest, x), PowerSum(rest + [c], x), x, c);
    }
  }

  /** The inductive step of `PowerSumSnoc`, as plain arithmetic. */
  lemma SnocStep(sum: real, sumSnoc: real, a: real, p: real, pNext: real, s: real, sSnoc: real, x: real, c: real)
    requires sum == a * p + s && pNext == x * p
    requires sSnoc == s * x + c && sumSnoc == a * pNext + sSnoc
    ensures sumSnoc == sum * x + c
  {
    Regroup(a, p, s, x, c);
  }

  lemma Regroup(a: real, p: real, s: real, x: real, c: real)
    ensures a * (x * p) + (s * x + c) == (a * p + s) * x + c
  {
  }

  /** Horner's scheme computes the power sum. */
  lemma {:induction false} HornerIsPowerSum(cs: seq<real>, x: real)
    requires |cs| >= 1
    ensures Horner(cs, x) == PowerSum(cs, x)
  {
    if |cs| == 1 {
      assert PowerSum(cs, x) == cs[0] * Pow(x, 0) + PowerSum(cs[1..], x);
    } else {
      var init := cs[..|cs| - 1];
      HornerIsPowerSum(init, x);
      assert init + [cs[|cs| - 1]] == cs;
      PowerSumSnoc(init, cs[|cs| - 1], x);
    }
  }

  /** A constant polynomial evaluates to its coefficient everywhere. */
  lemma ConstantPolynomial(c: real, x: real)
    requires c != 0.0
    ensures Of(c, []).Success? && At(Of(c, []).value, x) == c
  {
    assert PowerSum([c], x) == c * Pow(x, 0) + PowerSum([], x);
  }

  // ----- Text rendering -----

  function DigitChar(d: nat): char
    requires d < 10
  {
    "0123456789"[d]
  }

  /** Decimal text of a natural number, as `StringBuilder.append(int)` writes it. */
  function NatToString(n: nat): string
  {
    if n < 10 then [DigitChar(n)] else NatToString(n / 10) + [DigitChar(n % 10)]
  }

  /** The text of the term of exponent `k >= 1`, under the rendering rules: a
      non-leading zero term is omitted; a coefficient of ±1 is written as its
      sign alone; a positive non-leading term carries an explicit `+`; any
      other coefficient is written by `fmt`, which supplies a minus sign. The
      variable is `x` for exponent 1 and `x^k` above it. */
  function TermText(c: real, k: nat, leading: bool, fmt: real -> string): string {
    if !leading && c == 0.0 then ""
    else
      var unit := c == 1.0 || c == -1.0;
      var sign := if c < 0.0 && unit then "-" else if c > 0.0 && !leading then "+" else "";
      var coefficient := if unit then "" else fmt(c);
      if k == 1 then sign + coefficient + "x" else sign + coefficient + "x^" + NatToString(k)
  }

  /** The constant term's text: omitted when zero, `+` before a positive one. */
  function ConstantText(c: real, fmt: real -> string): string {
    if c < 0.0 then fmt(c) else if c > 0.0 then "+" + fmt(c) else ""
  }

  /** The texts of the first `i` non-constant terms, in order. */
  function Terms(cs: seq<real>, i: nat, fmt: real -> string): string
    requires i < |cs|
  {
    if i == 0 then "" else Terms(cs, i - 1, fmt) + TermText(cs[i - 1], |cs| - i, i == 1, fmt)
  }

  /** The rendering of a polynomial, term by term. */
  function Render(p: Polynomial, fmt: real -> string): string
    requires p.Valid()
  {
    var n := |p.coeffs|;
    if n == 1 then fmt(p.coeffs[0])
    else Terms(p.coeffs, n - 1, fmt) + ConstantText(p.coeffs[n - 1], fmt)
  }

  /** `Polynomial.toString`, with Rigel's loop; `fmt` stands for
      `StringBuilder.append(double)`. */
  method ToString(p: Polynomial, fmt: real -> string) returns (s: string)
    requires p.Valid()
    ensures s == Render(p, fmt)
  {
    var coeffs := p.coeffs;
    var tableSize := |coeffs|;
    if tableSize == 1 {
      s := fmt(coeffs[0]);
    } else {
      s := NonConstantTerms(coeffs, fmt);
      var t := ConstantTermText(coeffs[tableSize - 1], fmt);
      s := s + t;
    }
  }

  /** The loop of `toString` over every coefficient but the constant one. */
  method NonConstantTerms(coeffs: seq<real>, fmt: real -> string) returns (s: string)
    requires |coeffs| >= 2
    ensures s == Terms(coeffs, |coeffs| - 1, fmt)
  {
    var tableSize := |coeffs|;
    s := "";
    var i := 0;
    while i < tableSize - 1
      invariant 0 <= i <= tableSize - 1
      invariant s == Terms(coeffs, i, fmt)
    {
      var t := TermTextAt(coeffs, i, fmt);
      TermsStep(coeffs, i, fmt);
      s := s + t;
      i := i + 1;
    }
  }

  /** The text of the term of index `i`, by the leading-term branches for
      `i == 0` and the other-term branches after it. */
  method TermTextAt(coeffs: seq<real>, i: nat, fmt: real -> string) returns (t: string)
    requires i + 1 < |coeffs|
    ensures t == TermText(coeffs[i], |coeffs| - 1 - i, i == 0, fmt)
  {
    if i == 0 {
      t := LeadingTermText(coeffs[0], |coeffs| - 1, fmt);
    } else {
      t := OtherTermText(coeffs[i], |coeffs| - 1 - i, fmt);
    }
  }

  lemma TermsStep(cs: seq<real>, i: nat, fmt: real -> string)
    requires i + 1 < |cs|
    ensures Terms(cs, i + 1, fmt) == Terms(cs, i, fmt) + TermText(cs[i], |cs| - 1 - i, i == 0, fmt)
  {
  }

  /** The branches of `toString` for the constant term. */
  method ConstantTermText(c: real, fmt: real -> string) returns (t: string)
    ensures t == ConstantText(c, fmt)
  {
    t := "";
    if c < 0.0 {
      t := fmt(c);
    } else if c > 0.0 {
      t := "+" + fmt(c);
    }
  }

  /** The branches of `toString` for the leading term. */
  method LeadingTermText(c: real, e: nat, fmt: real -> string) returns (t: string)
    requires e >= 1
    ensures t == TermText(c, e, true, fmt)
  {
    if e == 1 {
      if c == 1.0 {
        t := "x";
      } else if c == -1.0 {
        t := "-x";
      } else {
        t := fmt(c) + "x";
      }
    } else {
      if c == 1.0 {
        t := "x^" + NatToString(e);
      } else if c == -1.0 {
        t := "-x^" + NatToString(e);
      } else {
        t := fmt(c) + "x^" + NatToString(e);
      }
    }
  }

  /** The branches of `toString` for a non-leading, non-constant term. */
  method OtherTermText(c: real, e: nat, fmt: real -> string) returns (t: string)
    requires e >= 1
    ensures t == TermText(c, e, false, fmt)
  {
    t := "";
    if c != 0.0 {
      if e == 1 {
        if c < 0.0 {
          if c == -1.0 {
            t := "-x";
          } else {
            t := fmt(c) + "x";
          }
        } else {
          if c == 1.0 {
            t := "+x";
          } else {
            t := "+" + fmt(c) + "x";
          }
        }
      } else if e > 1 {
        if c < 0.0 {
          if c == -1.0 {
            t := "-x^" + NatToString(e);
          } else {
            t := fmt(c) + "x^" + NatToString(e);
          }
        } else {
          if c == 1.0 {
            t := "+x^" + NatToString(e);
          } else {
            t := "+" + fmt(c) + "x^" + NatToString(e);
          }
        }
      }
    }
  }

  /** Zero non-leading coefficients and a zero constant term leave no text:
      a monomial renders as its leading term alone. */
  lemma {:induction false} RenderMonomial(c: real, zeros: seq<real>, fmt: real -> string)
    requires c != 0.0 && |zeros| >= 1
    requires forall j :: 0 <= j < |zeros| ==> zeros[j] == 0.0
    ensures Render(Polynomial([c] + zeros), fmt) == TermText(c, |zeros|, true, fmt)
  {
    var cs := [c] + zeros;
    var n := |cs|;
    assert forall j :: 1 <= j < n ==> cs[j] == zeros[j - 1];
    assert Render(Polynomial(cs), fmt) == Terms(cs, n - 1, fmt) + ConstantText(cs[n - 1], fmt);
    TermsOfZeros(cs, n - 1, fmt);
    var terms := Terms(cs, n - 1, fmt);
    assert ConstantText(cs[n - 1], fmt) == "";
    assert terms + "" == terms;
  }

  lemma {:induction false} TermsOfZeros(cs: seq<real>, i: nat, fmt: real -> string)
    requires 1 <= i < |cs|
    requires forall j :: 1 <= j < |cs| ==> cs[j] == 0.0
    ensures Terms(cs, i, fmt) == TermText(cs[0], |cs| - 1, true, fmt)
  {
    if i > 1 {
      TermsOfZeros(cs, i - 1, fmt);
      var before := Terms(cs, i - 1, fmt);
      assert TermText(cs[i - 1], |cs| - i, false, fmt) == "";
      assert before + "" == before;
    }
  }

  /** Unit coefficients are written as a bare sign: `x^2 - x` renders as
      "x^2-x" whatever the number format. */
  lemma RenderUnitCoefficients(fmt: real -> string)
    ensures Render(Polynomial([1.0, -1.0, 0.0]), fmt) == "x^2-x"
    ensures Render(Polynomial([-1.0, 0.0, 1.0, 0.0]), fmt) == "-x^3+x"
  {
    assert NatToString(2) == "2";
    assert NatToString(3) == "3";
  }
}
