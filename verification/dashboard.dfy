/**
 * The merchant dashboard's figures (components/Dashboard.tsx): four sums
 * over the transactions and the total CO2 expression. Each sum is the
 * left-to-right `reduce` starting from 0, written here by recursion on the
 * last transaction.
 */
module Dashboard {
  import opened Types
  import App
  import Pos

  datatype Stats = Stats(totalSales: real, carbonSaved: real, customerOffset: real, merchantMatch: real)

  function TotalSales(ts: seq<Transaction>): real {
    if |ts| == 0 then 0.0 else TotalSales(ts[..|ts| - 1]) + ts[|ts| - 1].total
  }

  function CarbonSaved(ts: seq<Transaction>): real {
    if |ts| == 0 then 0.0 else CarbonSaved(ts[..|ts| - 1]) + ts[|ts| - 1].ecoImpactSaved
  }

  function CustomerOffset(ts: seq<Transaction>): real {
    if |ts| == 0 then 0.0 else CustomerOffset(ts[..|ts| - 1]) + ts[|ts| - 1].carbonOffsetContribution
  }

  /** The transactions the merchant matched, in order. */
  function Matched(ts: seq<Transaction>): seq<Transaction> {
    if |ts| == 0 then []
    else Matched(ts[..|ts| - 1]) + (if ts[|ts| - 1].isMatched then [ts[|ts| - 1]] else [])
  }

  /** `stats`: the four headline figures of the dashboard. */
  function StatsOf(ts: seq<Transaction>): Stats {
    Stats(TotalSales(ts), CarbonSaved(ts), CustomerOffset(ts), CustomerOffset(Matched(ts)))
  }

  /** The Total CO2 Impact card: `carbonSaved + customerOffset * 5`. */
  function TotalCo2(s: Stats): real {
    s.carbonSaved + s.customerOffset * 5.0
  }

  /** With no transactions every figure is zero. */
  lemma NoTransactionsNoFigures()
    ensures StatsOf([]) == Stats(0.0, 0.0, 0.0, 0.0) && TotalCo2(StatsOf([])) == 0.0
  {
  }

  /** Each sum grows by the new transaction's own field; the match grows only for a matched one. */
  lemma StatsAfterAppend(ts: seq<Transaction>, t: Transaction)
    ensures var before, after := StatsOf(ts), StatsOf(ts + [t]);
      after.totalSales == before.totalSales + t.total &&
      after.carbonSaved == before.carbonSaved + t.ecoImpactSaved &&
      after.customerOffset == before.customerOffset + t.carbonOffsetContribution &&
      after.merchantMatch == before.merchantMatch + (if t.isMatched then t.carbonOffsetContribution else 0.0)
  {
    assert (ts + [t])[..|ts|] == ts;
    var m := Matched(ts);
    if t.isMatched {
      assert Matched(ts + [t]) == m + [t];
      assert (m + [t])[..|m|] == m;
    } else {
      assert Matched(ts + [t]) == m + [];
      assert m + [] == m;
    }
  }

  /** The merchant match never exceeds the customer offsets when no contribution is negative. */
  lemma {:induction false} MatchAtMostOffset(ts: seq<Transaction>)
    requires forall i :: 0 <= i < |ts| ==> ts[i].carbonOffsetContribution >= 0.0
    ensures 0.0 <= StatsOf(ts).merchantMatch <= StatsOf(ts).customerOffset
  {
    if |ts| > 0 {
      var init := ts[..|ts| - 1];
      assert ts == init + [ts[|ts| - 1]];
      MatchAtMostOffset(init);
      StatsAfterAppend(init, ts[|ts| - 1]);
    }
  }

  /** When every transaction is matched, the match equals the customer offsets. */
  lemma {:induction false} AllMatchedMatchesOffset(ts: seq<Transaction>)
    requires forall i :: 0 <= i < |ts| ==> ts[i].isMatched
    ensures StatsOf(ts).merchantMatch == StatsOf(ts).customerOffset
  {
    if |ts| > 0 {
      var init := ts[..|ts| - 1];
      assert ts == init + [ts[|ts| - 1]];
      AllMatchedMatchesOffset(init);
      StatsAfterAppend(init, ts[|ts| - 1]);
    }
  }

  /**
   * A sale recorded by the till raises revenue by the sale total, the
   * offsets and the match by 1.00 each, and the total CO2 impact by the
   * sale's eco figure plus 5.
   */
  lemma RecordedSaleRaisesFigures(ts: seq<Transaction>, id: string, lines: seq<Pos.SaleLine>, products: seq<Product>)
    ensures var before, after := StatsOf(ts), StatsOf(ts + [App.NewTransaction(id, lines, products)]);
      after.totalSales == before.totalSales + App.SaleTotal(lines) &&
      after.customerOffset == before.customerOffset + 1.0 &&
      after.merchantMatch == before.merchantMatch + 1.0 &&
      TotalCo2(after) == TotalCo2(before) + App.SaleEcoImpact(lines, products) + 5.0
  {
    StatsAfterAppend(ts, App.NewTransaction(id, lines, products));
  }
}
