/**
 * The dashboard page: a load-error notice when the joined frame is empty,
 * otherwise four key figures, the two charts and the raw table.
 */
module Dashboard {
  import opened Frame
  import opened Analysis

  /** The four key figures shown above the charts. */
  datatype Kpis = Kpis(totalRevenue: int, avgConsumption: real, unpaidBills: nat, unpaidAmount: int)

  /** What the page shows for a frame. */
  datatype Page =
    | LoadError
    | Report(kpis: Kpis, monthly: seq<MonthTotal>, top: seq<Total>, table: seq<Row>)

  /** `df[df['paid'] == 'Unpaid']`: every unpaid row, as often as the frame holds it, in frame order. */
  function UnpaidRows(rows: seq<Row>): (u: seq<Row>)
    ensures |u| <= |rows|
    ensures forall r :: r in u <==> r in rows && r.paid == UnpaidLabel
  {
    if rows == [] then []
    else (if rows[0].paid == UnpaidLabel then [rows[0]] else []) + UnpaidRows(rows[1..])
  }

  /** The rows the unpaid filter drops, each as often as the frame holds it. */
  function OtherRows(rows: seq<Row>): (o: seq<Row>)
    ensures forall r :: r in o <==> r in rows && r.paid != UnpaidLabel
  {
    if rows == [] then []
    else (if rows[0].paid != UnpaidLabel then [rows[0]] else []) + OtherRows(rows[1..])
  }

  /** The key figures of a non-empty frame. */
  function ComputeKpis(rows: seq<Row>): (k: Kpis)
    requires rows != []
    ensures k.unpaidBills <= |rows|
    ensures k.avgConsumption * |rows| as real == SumConsumed(rows) as real
  {
    Kpis(
      SumAmount(rows),
      SumConsumed(rows) as real / |rows| as real,
      |UnpaidRows(rows)|,
      SumAmount(UnpaidRows(rows)))
  }

  /** The page: the figures and charts are computed only when the frame has rows. */
  function RenderPage(rows: seq<Row>): (p: Page)
    ensures p.LoadError? <==> rows == []
    ensures p.Report? ==> p.table == rows && |p.top| <= DefaultTopN && p.kpis.unpaidBills <= |rows|
  {
    if rows == [] then LoadError
    else Report(ComputeKpis(rows), MonthlyConsumption(rows), TopTenConsumers(rows), rows)
  }

  /** The revenue figure is the sum of every customer's total, as the top-N chart groups them. */
  lemma RevenueIsSumOfCustomerTotals(rows: seq<Row>)
    requires rows != []
    ensures ComputeKpis(rows).totalRevenue == SumTotals(GroupTotals(rows))
  {
    GroupTotalsConserve(rows);
  }

  /** The filter keeps every unpaid row as many times as the frame holds it, and no other row. */
  lemma {:induction false} UnpaidRowsCount(rows: seq<Row>, r: Row)
    ensures multiset(UnpaidRows(rows))[r] == if r.paid == UnpaidLabel then multiset(rows)[r] else 0
  {
    if rows != [] {
      var x, tail := rows[0], rows[1..];
      UnpaidRowsCount(tail, r);
      assert rows == [x] + tail;
      if x.paid == UnpaidLabel {
        assert UnpaidRows(rows) == [x] + UnpaidRows(tail);
      } else {
        assert UnpaidRows(rows) == UnpaidRows(tail);
      }
    }
  }

  /** The complement keeps every row not marked unpaid as many times as the frame holds it, and no other row. */
  lemma {:induction false} OtherRowsCount(rows: seq<Row>, r: Row)
    ensures multiset(OtherRows(rows))[r] == if r.paid != UnpaidLabel then multiset(rows)[r] else 0
  {
    if rows != [] {
      var x, tail := rows[0], rows[1..];
      OtherRowsCount(tail, r);
      assert rows == [x] + tail;
      if x.paid != UnpaidLabel {
        assert OtherRows(rows) == [x] + OtherRows(tail);
      } else {
        assert OtherRows(rows) == OtherRows(tail);
      }
    }
  }

  /** The unpaid and the other rows split the frame: counts and amounts add up to the whole. */
  lemma {:induction false} UnpaidSplit(rows: seq<Row>)
    ensures |UnpaidRows(rows)| + |OtherRows(rows)| == |rows|
    ensures SumAmount(UnpaidRows(rows)) + SumAmount(OtherRows(rows)) == SumAmount(rows)
  {
    if rows != [] {
      UnpaidSplit(rows[1..]);
      var u, o := UnpaidRows(rows[1..]), OtherRows(rows[1..]);
      if rows[0].paid == UnpaidLabel {
        assert UnpaidRows(rows) == [rows[0]] + u;
        assert OtherRows(rows) == o;
      } else {
        assert UnpaidRows(rows) == u;
        assert OtherRows(rows) == [rows[0]] + o;
      }
    }
  }

  /** With no negative amounts, the unpaid amount lies between 0 and the total revenue. */
  lemma UnpaidAmountBounded(rows: seq<Row>)
    requires rows != []
    requires forall r :: r in rows ==> r.amount >= 0
    ensures 0 <= ComputeKpis(rows).unpaidAmount <= ComputeKpis(rows).totalRevenue
  {
    UnpaidSplit(rows);
    assert forall r :: r in OtherRows(rows) ==> r.amount >= 0;
  }

  /** No bill is unpaid exactly when the count is 0; all are unpaid exactly when it is the row count. */
  lemma {:induction false} UnpaidCountExtremes(rows: seq<Row>)
    ensures |UnpaidRows(rows)| == 0 <==> forall r :: r in rows ==> r.paid != UnpaidLabel
    ensures |UnpaidRows(rows)| == |rows| <==> forall r :: r in rows ==> r.paid == UnpaidLabel
  {
    if rows != [] {
      UnpaidCountExtremes(rows[1..]);
      assert forall r :: r in rows <==> r == rows[0] || r in rows[1..];
    }
  }

  /** `n` copies of `x` added up. */
  function Scale(n: nat, x: real): real {
    if n == 0 then 0.0 else Scale(n - 1, x) + x
  }

  lemma {:induction false} ScaleIsProduct(n: nat, x: real)
    ensures Scale(n, x) == (n as real) * x
  {
    if n > 0 {
      ScaleIsProduct(n - 1, x);
      MulSucc((n - 1) as real, x);
    }
  }

  lemma MulSucc(m: real, x: real)
    ensures (m + 1.0) * x == m * x + x
  {
  }

  lemma MulLess(a: real, b: real, n: real)
    requires a < b && n > 0.0
    ensures n * a < n * b
  {
  }

  /** Consumption summed over a frame whose rows all lie in `[lo, hi]`. */
  lemma {:induction false} SumConsumedBounds(rows: seq<Row>, lo: real, hi: real)
    requires forall r :: r in rows ==> lo <= r.consumed as real <= hi
    ensures Scale(|rows|, lo) <= SumConsumed(rows) as real <= Scale(|rows|, hi)
  {
    if rows != [] {
      assert forall r :: r in rows[1..] ==> r in rows;
      assert rows[0] in rows;
      SumConsumedBounds(rows[1..], lo, hi);
    }
  }

  /** The average consumption lies within any bounds that every row's consumption lies within. */
  lemma AverageWithinBounds(rows: seq<Row>, lo: int, hi: int)
    requires rows != []
    requires forall r :: r in rows ==> lo <= r.consumed <= hi
    ensures lo as real <= ComputeKpis(rows).avgConsumption <= hi as real
  {
    var n := |rows|;
    SumConsumedBounds(rows, lo as real, hi as real);
    ScaleIsProduct(n, lo as real);
    ScaleIsProduct(n, hi as real);
    QuotientBounds(SumConsumed(rows) as real, n as real, lo as real, hi as real);
  }

  /** A quotient lies between two bounds when the dividend lies between the bounds times the divisor. */
  lemma QuotientBounds(s: real, n: real, lo: real, hi: real)
    requires n > 0.0 && n * lo <= s <= n * hi
    ensures lo <= s / n <= hi
  {
    var q := s / n;
    assert q * n == s;
    if q < lo {
      MulLess(q, lo, n);
    }
    if q > hi {
      MulLess(hi, q, n);
    }
  }
}
