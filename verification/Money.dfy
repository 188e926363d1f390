/** app/domain/money.py: one rounding rule, half away from zero, to exactly two decimal places. */
module Money {

  /** The number of cents that money() keeps of an amount. */
  function Cents(amount: real): int {
    if amount >= 0.0 then (amount * 100.0 + 0.5).Floor else -((-amount * 100.0 + 0.5).Floor)
  }

  function Amount(cents: int): real {
    cents as real / 100.0
  }

  function SumAmounts(cents: seq<int>): real {
    if cents == [] then 0.0 else SumAmounts(cents[..|cents| - 1]) + Amount(cents[|cents| - 1])
  }

  function SumCents(cents: seq<int>): int {
    if cents == [] then 0 else SumCents(cents[..|cents| - 1]) + cents[|cents| - 1]
  }

  /** The result is a nearest cent, ties go away from zero, and the sign does not matter. */
  lemma CentsIsNearest(amount: real)
    ensures -0.5 <= amount * 100.0 - Cents(amount) as real <= 0.5
    ensures amount * 100.0 - Cents(amount) as real == 0.5 ==> amount < 0.0
    ensures amount * 100.0 - Cents(amount) as real == -0.5 ==> amount > 0.0
    ensures Cents(-amount) == -Cents(amount)
  {}

  /** Prices carry whole cents, so rounding their sum changes nothing. */
  lemma {:induction false} TotalIsExact(cents: seq<int>)
    ensures SumAmounts(cents) == Amount(SumCents(cents))
    ensures Cents(SumAmounts(cents)) == SumCents(cents)
  {
    if cents != [] {
      TotalIsExact(cents[..|cents| - 1]);
    }
    assert Amount(SumCents(cents)) * 100.0 == SumCents(cents) as real;
  }
}
