/**
 * The Mines payout coefficient: after opening `revealed` safe cells on a board
 * of 25 cells holding `bombs` mines, the stake is multiplied by the product
 * of (25 - i) / (25 - bombs - i) over the revealed cells, rounded to cents.
 * The mine count is not validated, so a zero denominator is possible; the
 * division then raises, which is the `None` result here.
 */
module Mines {
  import opened Wrappers
  import opened Money

  const Cells: int := 25

  /** The denominator of the i-th factor is not zero. */
  predicate NonZeroDenominator(bombs: int, i: int)
  {
    Cells - bombs - i != 0
  }

  /** Every factor up to the k-th can be computed. */
  predicate Defined(bombs: int, k: int)
  {
    forall i :: 0 <= i < k ==> NonZeroDenominator(bombs, i)
  }

  /** The i-th factor: the ratio of remaining cells to remaining safe cells. */
  function Factor(bombs: int, i: int): real
    requires NonZeroDenominator(bombs, i)
  {
    (Cells - i) as real / (Cells - bombs - i) as real
  }

  /** The unrounded coefficient after k openings. */
  function Product(bombs: int, k: int): real
    requires Defined(bombs, k)
    decreases k
  {
    if k <= 0 then 1.0 else Product(bombs, k - 1) * Factor(bombs, k - 1)
  }

  /** `get_mines_coefficient`: `None` when a factor divides by zero. */
  method Coefficient(bombs: int, revealed: int) returns (r: Option<real>)
    ensures r.Some? <==> Defined(bombs, revealed)
    ensures r.Some? ==> r.value == Round2(Product(bombs, revealed))
  {
    var coeff := 1.0;
    var i := 0;
    while i < revealed
      invariant 0 <= i <= (if revealed >= 0 then revealed else 0)
      invariant Defined(bombs, i) && coeff == Product(bombs, i)
    {
      if Cells - bombs - i == 0 {
        assert !NonZeroDenominator(bombs, i);
        return None;
      }
      coeff := coeff * Factor(bombs, i);
      i := i + 1;
    }
    if revealed <= 0 {
      assert Product(bombs, revealed) == 1.0 == Product(bombs, 0);
    } else {
      assert i == revealed;
    }
    assert coeff == Product(bombs, revealed);
    r := Some(Round2(coeff));
  }

  lemma QuotientAtLeastOne(n: real, d: real)
    requires n >= d > 0.0
    ensures n / d >= 1.0
  {
    assert (n / d) * d == n;
  }

  lemma ProductGrows(p: real, f: real)
    requires p >= 1.0 && f >= 1.0
    ensures p * f >= p
  {
    assert p * f - p == p * (f - 1.0);
  }

  /**
   * On a board where the revealed cells fit among the safe ones, every factor
   * is defined and at least 1, so the coefficient is at least 1 and never
   * falls as more cells are revealed.
   */
  lemma {:induction false} ProductAtLeastOne(bombs: int, k: int)
    requires 0 <= bombs && k <= Cells - bombs
    ensures Defined(bombs, k)
    ensures Product(bombs, k) >= 1.0
    ensures k >= 1 ==> Product(bombs, k) >= Product(bombs, k - 1)
    decreases k
  {
    if k > 0 {
      ProductAtLeastOne(bombs, k - 1);
      FactorAtLeastOne(bombs, k - 1);
      DefinedExtends(bombs, k);
      ProductGrows(Product(bombs, k - 1), Factor(bombs, k - 1));
    }
  }

  /** A factor whose cell still fits among the safe ones is defined and at least 1. */
  lemma FactorAtLeastOne(bombs: int, i: int)
    requires 0 <= bombs && i < Cells - bombs
    ensures NonZeroDenominator(bombs, i) && Factor(bombs, i) >= 1.0
  {
    QuotientAtLeastOne((Cells - i) as real, (Cells - bombs - i) as real);
  }

  lemma DefinedExtends(bombs: int, k: int)
    requires k > 0 && Defined(bombs, k - 1) && NonZeroDenominator(bombs, k - 1)
    ensures Defined(bombs, k)
  {
  }

  /** The rounded coefficient of a playable board is at least 1 and grows with each revealed cell. */
  lemma CoefficientAtLeastOne(bombs: int, k: int)
    requires 0 <= bombs && 1 <= k <= Cells - bombs
    ensures Round2(Product(bombs, k)) >= 1.0
    ensures Round2(Product(bombs, k)) >= Round2(Product(bombs, k - 1))
  {
    ProductAtLeastOne(bombs, k);
    Round2AtLeast(Product(bombs, k), 1.0);
    Round2Monotonic(Product(bombs, k - 1), Product(bombs, k));
  }

  /** Without mines every factor is 1: opening cells never raises the coefficient. */
  lemma {:induction false} NoBombsNoGain(k: int)
    requires k <= Cells
    ensures Defined(0, k) && Product(0, k) == 1.0
    decreases k
  {
    if k > 0 {
      NoBombsNoGain(k - 1);
      assert NonZeroDenominator(0, k - 1);
      assert Defined(0, k) by {
        forall i | 0 <= i < k
          ensures NonZeroDenominator(0, i)
        {
        }
      }
      SelfQuotient((Cells - (k - 1)) as real);
      assert Factor(0, k - 1) == 1.0;
    }
  }

  lemma SelfQuotient(x: real)
    requires x != 0.0
    ensures x / x == 1.0
  {
  }

  /** A board of 25 mines, or more mines than the revealed cells leave room for, divides by zero. */
  lemma OverfullBoardFails(bombs: int, k: int)
    requires 0 <= Cells - bombs < k
    ensures !Defined(bombs, k)
  {
    assert !NonZeroDenominator(bombs, Cells - bombs);
  }
}
