/**
 Aggregation of the fills of one execution report
 (src/roq/deribit/gateway/order_entry.cpp:578-611). Quantities and prices are reals.
 */
module Fills {
  import opened Words

  datatype LiquidityInd = Undefined | AddedLiquidity | RemovedLiquidity | OtherLiquidity

  datatype Fill = Fill(quantity: real, price: real, liquidityInd: LiquidityInd)

  // Quantity and price

  function Quantity(fills: seq<Fill>): real {
    if fills == [] then 0.0 else Quantity(fills[..|fills| - 1]) + fills[|fills| - 1].quantity
  }

  function Value(fills: seq<Fill>): real {
    if fills == [] then 0.0 else
      Value(fills[..|fills| - 1]) + fills[|fills| - 1].quantity * fills[|fills| - 1].price
  }

  /** No price stands for NaN. */
  method ComputeLastTraded(lastQuantity: real, lastPrice: Option<real>, fills: seq<Fill>)
    returns (quantity: real, price: Option<real>)
    ensures fills == [] ==> quantity == lastQuantity && price == lastPrice
    ensures fills != [] ==> quantity == Quantity(fills)
    ensures fills != [] ==> (price.None? <==> Quantity(fills) == 0.0)
    ensures fills != [] && price.Some? ==> IsAverage(price.value, fills)
  {
    if fills == [] {
      return lastQuantity, lastPrice;
    }
    var sumQuantity, sumQuantityPrice := 0.0, 0.0;
    for i := 0 to |fills|
      invariant sumQuantity == Quantity(fills[..i]) && sumQuantityPrice == Value(fills[..i])
    {
      assert fills[..i + 1][..i] == fills[..i];
      sumQuantity := sumQuantity + fills[i].quantity;
      sumQuantityPrice := sumQuantityPrice + fills[i].quantity * fills[i].price;
    }
    assert fills[..|fills|] == fills;
    quantity := sumQuantity;
    price := if sumQuantity == 0.0 then None else Some(sumQuantityPrice / sumQuantity);
  }

  /** The totals of a report's parts add up. */
  lemma {:induction false} TotalsAdd(a: seq<Fill>, b: seq<Fill>)
    ensures Quantity(a + b) == Quantity(a) + Quantity(b)
    ensures Value(a + b) == Value(a) + Value(b)
  {
    if b == [] {
      assert a + b == a;
    } else {
      var n := |b| - 1;
      assert (a + b)[..|a| + n] == a + b[..n];
      TotalsAdd(a, b[..n]);
    }
  }

  lemma TotalsOfOne(f: Fill)
    ensures Quantity([f]) == f.quantity && Value([f]) == f.quantity * f.price
  {
    assert [f][..0] == [];
  }

  /** The order of the fills does not matter. */
  lemma {:induction false} TotalsIgnoreOrder(a: seq<Fill>, b: seq<Fill>)
    requires multiset(a) == multiset(b)
    ensures Quantity(a) == Quantity(b) && Value(a) == Value(b)
    decreases |a|
  {
    hide Quantity, Value;
    if a == [] {
      assert |multiset(b)| == 0;
    } else {
      assert a[0] in multiset(b);
      var k := IndexOf(b, a[0]);
      var restA, restB := a[..0] + a[1..], b[..k] + b[k + 1..];
      Without(a, 0);
      Without(b, k);
      TotalsIgnoreOrder(restA, restB);
      TotalsWithout(a, 0);
      TotalsWithout(b, k);
    }
  }

  lemma TotalsWithout(a: seq<Fill>, k: nat)
    requires k < |a|
    ensures var rest := a[..k] + a[k + 1..];
            && Quantity(a) == Quantity(rest) + a[k].quantity
            && Value(a) == Value(rest) + a[k].quantity * a[k].price
  {
    hide Quantity, Value;
    assert a == (a[..k] + [a[k]]) + a[k + 1..];
    TotalsAdd(a[..k] + [a[k]], a[k + 1..]);
    TotalsAdd(a[..k], [a[k]]);
    TotalsOfOne(a[k]);
    TotalsAdd(a[..k], a[k + 1..]);
  }

  lemma Without(a: seq<Fill>, k: nat)
    requires k < |a|
    ensures multiset(a[..k] + a[k + 1..]) == multiset(a) - multiset{a[k]}
  {
    assert a == a[..k] + [a[k]] + a[k + 1..];
  }

  function IndexOf(b: seq<Fill>, f: Fill): (k: nat)
    requires f in b
    ensures k < |b| && b[k] == f
  {
    if b[0] == f then 0 else 1 + IndexOf(b[1..], f)
  }

  /** With positive quantities the average lies between any bounds of the prices. */
  lemma {:induction false} ValueIsBounded(fills: seq<Fill>, low: real, high: real)
    requires forall f :: f in fills ==> f.quantity > 0.0 && low <= f.price <= high
    ensures low * Quantity(fills) <= Value(fills) <= high * Quantity(fills)
    ensures fills != [] ==> Quantity(fills) > 0.0
  {
    if fills != [] {
      var n := |fills| - 1;
      var f := fills[n];
      ValueIsBounded(fills[..n], low, high);
      Scale(f.quantity, low, f.price);
      Scale(f.quantity, f.price, high);
      if n == 0 {
        assert Quantity(fills[..n]) == 0.0;
      }
    }
  }

  lemma Scale(q: real, x: real, y: real)
    requires q > 0.0 && x <= y
    ensures x * q <= q * y
  {
  }

  predicate IsAverage(average: real, fills: seq<Fill>) {
    average * Quantity(fills) == Value(fills)
  }

  lemma {:induction false} AverageLiesBetween(fills: seq<Fill>, low: real, high: real, average: real)
    requires fills != [] && IsAverage(average, fills)
    requires forall f :: f in fills ==> f.quantity > 0.0 && low <= f.price <= high
    ensures low <= average <= high
  {
    ValueIsBounded(fills, low, high);
    if average < low {
      ScaleStrictly(Quantity(fills), average, low);
    }
    if high < average {
      ScaleStrictly(Quantity(fills), high, average);
    }
  }

  lemma ScaleStrictly(q: real, x: real, y: real)
    requires q > 0.0 && x < y
    ensures x * q < y * q
  {
  }

  /** Permuted fills have the same average, which is unique. */
  lemma {:induction false} AverageIsUnique(a: seq<Fill>, b: seq<Fill>, x: real, y: real)
    requires multiset(a) == multiset(b) && Quantity(a) != 0.0
    requires IsAverage(x, a) && IsAverage(y, b)
    ensures x == y
  {
    TotalsIgnoreOrder(a, b);
    Cancel(Quantity(a), Quantity(b), Value(a), x, y);
  }

  lemma Cancel(p: real, q: real, v: real, x: real, y: real)
    requires p == q != 0.0 && x * p == v && y * q == v
    ensures x == y
  {
    assert (x - y) * q == 0.0;
  }

  // Liquidity indicator

  function Defined(fills: seq<Fill>): set<LiquidityInd> {
    set f | f in fills && f.liquidityInd != Undefined :: f.liquidityInd
  }

  /** The indicator all defined ones agree on; none if they differ or there are none. */
  method FindLiquidityInd(fills: seq<Fill>) returns (result: LiquidityInd)
    ensures forall l :: l != Undefined ==> (result == l <==> Defined(fills) == {l})
  {
    result := Undefined;
    var found := false;
    for i := 0 to |fills|
      invariant found <==> result != Undefined
      invariant Defined(fills[..i]) == if found then {result} else {}
    {
      var l := fills[i].liquidityInd;
      assert fills[..i + 1] == fills[..i] + [fills[i]];
      assert Defined(fills[..i + 1]) == Defined(fills[..i]) + if l != Undefined then {l} else {};
      if l != Undefined {
        if !found {
          result := l;
          found := true;
        } else if l != result {
          assert {result, l} <= Defined(fills);
          result := Undefined;
          break;
        }
      }
    }
    assert fills[..|fills|] == fills;
  }
}
