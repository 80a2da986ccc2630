/** The computed properties of `PortfolioViewModel` (Stocks/ViewModel/PortfolioViewModel.swift):
    folds over the holdings list. `vm.currentValue` is `CurrentValue(vm.holdings)`, and so on. */
module Metrics {
  import opened Model

  /** Market value of one position. */
  function Worth(h: Holding): real {
    h.ltp * h.quantity as real
  }

  /** Cost basis of one position. */
  function Cost(h: Holding): real {
    h.avgPrice * h.quantity as real
  }

  /** Value of one position at the previous close. */
  function CloseWorth(h: Holding): real {
    h.close * h.quantity as real
  }

  /** Today's change of one position. */
  function DayChange(h: Holding): real {
    (h.ltp - h.close) * h.quantity as real
  }

  /** `hs.reduce(0.0) { $0 + term($1) }`: the left fold, last element added last. */
  function Sum(hs: seq<Holding>, term: Holding -> real): real
    decreases |hs|
  {
    if hs == [] then 0.0 else Sum(hs[..|hs| - 1], term) + term(hs[|hs| - 1])
  }

  function CurrentValue(hs: seq<Holding>): real {
    Sum(hs, Worth)
  }

  function TotalInvestment(hs: seq<Holding>): real {
    Sum(hs, Cost)
  }

  function TotalPNL(hs: seq<Holding>): real {
    CurrentValue(hs) - TotalInvestment(hs)
  }

  function TodaysPNL(hs: seq<Holding>): real {
    Sum(hs, DayChange)
  }

  /** With no holdings every figure is zero. */
  lemma EmptyPortfolioIsZero()
    ensures CurrentValue([]) == 0.0 && TotalInvestment([]) == 0.0
    ensures TotalPNL([]) == 0.0 && TodaysPNL([]) == 0.0
  {
  }

  /** The fold distributes over concatenation: figures of a list are the sums of its parts. */
  lemma {:induction false} SumAppend(a: seq<Holding>, b: seq<Holding>, term: Holding -> real)
    ensures Sum(a + b, term) == Sum(a, term) + Sum(b, term)
    decreases |b|
  {
    if b == [] {
      assert a + b == a;
    } else {
      var n := |b| - 1;
      assert (a + b)[..|a + b| - 1] == a + b[..n];
      SumAppend(a, b[..n], term);
    }
  }

  /** The fold of a pointwise difference is the difference of the folds. */
  lemma {:induction false} SumOfDifference(hs: seq<Holding>, f: Holding -> real, g: Holding -> real, d: Holding -> real)
    requires forall h :: d(h) == f(h) - g(h)
    ensures Sum(hs, d) == Sum(hs, f) - Sum(hs, g)
    decreases |hs|
  {
    if hs != [] {
      SumOfDifference(hs[..|hs| - 1], f, g, d);
    }
  }

  /** Positions bought at zero cost contribute nothing to the investment. */
  lemma {:induction false} ZeroCostMeansNoInvestment(hs: seq<Holding>)
    requires forall i :: 0 <= i < |hs| ==> hs[i].avgPrice == 0.0
    ensures TotalInvestment(hs) == 0.0
    decreases |hs|
  {
    if hs != [] {
      ZeroCostMeansNoInvestment(hs[..|hs| - 1]);
    }
  }

  /** Today's P&L is the current value less the value at the previous close. */
  lemma {:induction false} TodaysPNLAgainstClose(hs: seq<Holding>)
    ensures TodaysPNL(hs) == CurrentValue(hs) - Sum(hs, CloseWorth)
  {
    forall h: Holding ensures DayChange(h) == Worth(h) - CloseWorth(h) {
    }
    SumOfDifference(hs, Worth, CloseWorth, DayChange);
  }

  /** Adding one holding adds exactly its own contribution to every figure. */
  lemma AppendOne(hs: seq<Holding>, h: Holding)
    ensures CurrentValue(hs + [h]) == CurrentValue(hs) + Worth(h)
    ensures TotalInvestment(hs + [h]) == TotalInvestment(hs) + Cost(h)
    ensures TotalPNL(hs + [h]) == TotalPNL(hs) + (h.ltp - h.avgPrice) * h.quantity as real
    ensures TodaysPNL(hs + [h]) == TodaysPNL(hs) + DayChange(h)
  {
  }

  /** The figures of the unit tests: two positions, a zero-cost position and a loss. */
  lemma TwoHoldingsExample()
    ensures var hs := [Holding("AAA", 2, 150.0, 120.0, 140.0), Holding("BBB", 1, 50.0, 40.0, 45.0)];
            && CurrentValue(hs) == 350.0 && TotalInvestment(hs) == 280.0
            && TotalPNL(hs) == 70.0 && TodaysPNL(hs) == 25.0
  {
    var aaa, bbb := Holding("AAA", 2, 150.0, 120.0, 140.0), Holding("BBB", 1, 50.0, 40.0, 45.0);
    AppendOne([], aaa);
    AppendOne([aaa], bbb);
    assert [] + [aaa] == [aaa] && [aaa] + [bbb] == [aaa, bbb];
  }

  lemma ZeroInvestmentExample()
    ensures var hs := [Holding("FREE", 5, 120.0, 0.0, 100.0)];
            && CurrentValue(hs) == 600.0 && TotalInvestment(hs) == 0.0
            && TotalPNL(hs) == 600.0 && TodaysPNL(hs) == 100.0
  {
  }

  lemma LossExample()
    ensures var hs := [Holding("LOSS", 2, 50.0, 100.0, 90.0)];
            && TotalPNL(hs) == -100.0 && TodaysPNL(hs) == -80.0
  {
  }
}
