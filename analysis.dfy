/**
 * The data shaping behind the two dashboard charts: the top customers by
 * total billed amount, and total consumption per calendar month.
 */
module Analysis {
  import opened Calendar
  import opened Frame

  // ---------------------------------------------------------------------------
  // Top-N customers: df.groupby('name')['amount'].sum().nlargest(n).sort_values()

  /** A customer name and the sum of the amounts billed under it. */
  datatype Total = Total(name: string, amount: int)

  const DefaultTopN := 10

  function Names(rows: seq<Row>): set<string> {
    set r | r in rows :: r.name
  }

  /** Sum of `amount` over the rows of one name. */
  function NameTotal(rows: seq<Row>, name: string): int {
    if rows == [] then 0
    else (if rows[0].name == name then rows[0].amount else 0) + NameTotal(rows[1..], name)
  }

  predicate NamesDistinct(ts: seq<Total>) {
    forall i, j :: 0 <= i < j < |ts| ==> ts[i].name != ts[j].name
  }

  /** Each name of the rows once. */
  function DistinctNames(rows: seq<Row>): (ns: seq<string>)
    ensures Distinct(ns)
    ensures forall n :: n in ns <==> n in Names(rows)
  {
    if rows == [] then []
    else
      var rest := DistinctNames(rows[1..]);
      assert forall r :: r in rows <==> r == rows[0] || r in rows[1..];
      if rows[0].name in rest then rest else [rows[0].name] + rest
  }

  /** The group-by: one total per distinct name. */
  function GroupTotals(rows: seq<Row>): (gs: seq<Total>)
    ensures NamesDistinct(gs)
    ensures |gs| == |Names(rows)|
    ensures forall i :: 0 <= i < |gs| ==> gs[i].name in Names(rows) && gs[i].amount == NameTotal(rows, gs[i].name)
    ensures forall n :: n in Names(rows) ==> Total(n, NameTotal(rows, n)) in gs
  {
    var ns := DistinctNames(rows);
    DistinctCard(ns, Names(rows));
    var gs := TotalsOf(rows, ns);
    assert forall n :: n in Names(rows) ==> exists i :: 0 <= i < |ns| && ns[i] == n && gs[i] == Total(n, NameTotal(rows, n));
    gs
  }

  /** The total of each name of `ns`, in the order of `ns`. */
  function TotalsOf(rows: seq<Row>, ns: seq<string>): (gs: seq<Total>)
    ensures |gs| == |ns|
    ensures forall i :: 0 <= i < |ns| ==> gs[i] == Total(ns[i], NameTotal(rows, ns[i]))
  {
    if ns == [] then [] else [Total(ns[0], NameTotal(rows, ns[0]))] + TotalsOf(rows, ns[1..])
  }

  function SumTotals(ts: seq<Total>): int {
    if ts == [] then 0 else ts[0].amount + SumTotals(ts[1..])
  }

  /** Occurrences of `x` in `ns`, each weighted by `a`. */
  function Hits(ns: seq<string>, x: string, a: int): int {
    if ns == [] then 0 else (if ns[0] == x then a else 0) + Hits(ns[1..], x, a)
  }

  predicate Distinct(ns: seq<string>) {
    forall i, j :: 0 <= i < j < |ns| ==> ns[i] != ns[j]
  }

  /** In a list without repetitions a name occurs once or not at all. */
  lemma {:induction false} HitsOnce(ns: seq<string>, x: string, a: int)
    requires Distinct(ns)
    ensures Hits(ns, x, a) == if x in ns then a else 0
  {
    if ns != [] {
      assert Distinct(ns[1..]) by {
        forall i, j | 0 <= i < j < |ns[1..]| ensures ns[1..][i] != ns[1..][j] {
          assert ns[1..][i] == ns[i + 1] && ns[1..][j] == ns[j + 1];
        }
      }
      HitsOnce(ns[1..], x, a);
      forall k | 0 <= k < |ns[1..]| ensures ns[1..][k] != ns[0] {
        assert ns[1..][k] == ns[k + 1];
      }
      assert x in ns <==> x == ns[0] || x in ns[1..];
    }
  }

  /** Summing the totals of the names `ns` splits off the first row. */
  lemma {:induction false} TotalsOfFirst(rows: seq<Row>, ns: seq<string>)
    requires rows != []
    ensures SumTotals(TotalsOf(rows, ns)) == Hits(ns, rows[0].name, rows[0].amount) + SumTotals(TotalsOf(rows[1..], ns))
  {
    if ns != [] {
      TotalsOfFirst(rows, ns[1..]);
    }
  }

  lemma {:induction false} TotalsOfNoRows(ns: seq<string>)
    ensures SumTotals(TotalsOf([], ns)) == 0
  {
    if ns != [] {
      TotalsOfNoRows(ns[1..]);
    }
  }

  /** Totals over a list of distinct names that covers every row add up to the whole amount. */
  lemma {:induction false} TotalsOfConserve(rows: seq<Row>, ns: seq<string>)
    requires Distinct(ns)
    requires forall r :: r in rows ==> r.name in ns
    ensures SumTotals(TotalsOf(rows, ns)) == SumAmount(rows)
  {
    if rows == [] {
      TotalsOfNoRows(ns);
    } else {
      assert rows[0] in rows;
      assert forall r :: r in rows[1..] ==> r in rows;
      TotalsOfFirst(rows, ns);
      HitsOnce(ns, rows[0].name, rows[0].amount);
      TotalsOfConserve(rows[1..], ns);
    }
  }

  /** The group-by loses no amount and counts none twice: the totals add up to the sum of all amounts. */
  lemma GroupTotalsConserve(rows: seq<Row>)
    ensures SumTotals(GroupTotals(rows)) == SumAmount(rows)
  {
    var ns := DistinctNames(rows);
    assert forall r :: r in rows ==> r.name in Names(rows);
    TotalsOfConserve(rows, ns);
  }

  /** A sequence without repetitions has as many elements as its set. */
  lemma {:induction false} DistinctCard(ns: seq<string>, s: set<string>)
    requires Distinct(ns)
    requires forall n :: n in ns <==> n in s
    ensures |ns| == |s|
    decreases |ns|
  {
    if ns != [] {
      var rest := ns[1..];
      assert forall n :: n in rest <==> n in s - {ns[0]};
      DistinctCard(rest, s - {ns[0]});
    } else {
      assert s == {};
    }
  }

  /** Position of a largest total. */
  function ArgMax(gs: seq<Total>): (m: nat)
    requires gs != []
    ensures m < |gs|
    ensures forall j :: 0 <= j < |gs| ==> gs[j].amount <= gs[m].amount
  {
    if |gs| == 1 then 0
    else
      var m := ArgMax(gs[1..]);
      if gs[0].amount >= gs[m + 1].amount then 0 else m + 1
  }

  function RemoveAt(gs: seq<Total>, m: nat): (r: seq<Total>)
    requires m < |gs|
    ensures |r| == |gs| - 1
    ensures forall k :: 0 <= k < |r| ==> r[k] == gs[if k < m then k else k + 1]
    ensures multiset{gs[m]} + multiset(r) == multiset(gs)
  {
    assert gs == gs[..m] + [gs[m]] + gs[m + 1..];
    gs[..m] + gs[m + 1..]
  }

  /**
   * `nlargest(n)`: the `n` largest totals, largest first, chosen by repeated
   * selection of a maximum. Which of several equal totals is chosen is left open.
   */
  function Largest(gs: seq<Total>, n: nat): (r: seq<Total>)
    ensures |r| == if n < |gs| then n else |gs|
    ensures forall y :: y in r ==> y in gs
    decreases n
  {
    if n == 0 || gs == [] then []
    else
      var m := ArgMax(gs);
      [gs[m]] + Largest(RemoveAt(gs, m), n - 1)
  }

  /** The totals `Largest` leaves behind. */
  function Leftover(gs: seq<Total>, n: nat): (r: seq<Total>)
    ensures |r| == if n < |gs| then |gs| - n else 0
    ensures forall y :: y in r ==> y in gs
    decreases n
  {
    if n == 0 || gs == [] then gs
    else Leftover(RemoveAt(gs, ArgMax(gs)), n - 1)
  }

  predicate Descending(ts: seq<Total>) {
    forall i, j :: 0 <= i < j < |ts| ==> ts[j].amount <= ts[i].amount
  }

  predicate Ascending(ts: seq<Total>) {
    forall i, j :: 0 <= i < j < |ts| ==> ts[i].amount <= ts[j].amount
  }

  /** The selection comes out largest first. */
  lemma {:induction false} LargestDescending(gs: seq<Total>, n: nat)
    ensures Descending(Largest(gs, n))
    decreases n
  {
    if n > 0 && gs != [] {
      var m := ArgMax(gs);
      var rest := RemoveAt(gs, m);
      var tail := Largest(rest, n - 1);
      LargestDescending(rest, n - 1);
      var r := Largest(gs, n);
      assert r == [gs[m]] + tail;
      forall i, j | 0 <= i < j < |r| ensures r[j].amount <= r[i].amount {
        if i == 0 {
          assert r[j] in gs;
          var k :| 0 <= k < |gs| && gs[k] == r[j];
        } else {
          assert r[i] == tail[i - 1] && r[j] == tail[j - 1];
        }
      }
    }
  }

  /** Every input total is selected or left over, and nothing else is either. */
  lemma {:induction false} LargestSplit(gs: seq<Total>, n: nat, x: Total)
    ensures x in gs <==> x in Largest(gs, n) || x in Leftover(gs, n)
    decreases n
  {
    if n > 0 && gs != [] && x in gs {
      var m := ArgMax(gs);
      var rest := RemoveAt(gs, m);
      if x == gs[m] {
        assert Largest(gs, n)[0] == x;
      } else {
        RemoveAtKeeps(gs, m, x);
        LargestSplit(rest, n - 1, x);
        assert Largest(gs, n) == [gs[m]] + Largest(rest, n - 1);
      }
    }
  }

  /** Removing the total at `m` keeps every other total. */
  lemma RemoveAtKeeps(gs: seq<Total>, m: nat, x: Total)
    requires m < |gs| && x in gs && x != gs[m]
    ensures x in RemoveAt(gs, m)
  {
    var k :| 0 <= k < |gs| && gs[k] == x;
    assert x == RemoveAt(gs, m)[if k < m then k else k - 1];
  }

  /** A total of `gs` is no larger than the one `ArgMax` picks. */
  lemma ArgMaxAbove(gs: seq<Total>, y: Total)
    requires y in gs
    ensures y.amount <= gs[ArgMax(gs)].amount
  {
    var k :| 0 <= k < |gs| && gs[k] == y;
  }

  /** A total still present after `RemoveAt` was present before. */
  lemma RemoveAtMember(gs: seq<Total>, m: nat, y: Total)
    requires m < |gs| && y in RemoveAt(gs, m)
    ensures y in gs
  {
    var r := RemoveAt(gs, m);
    var k :| 0 <= k < |r| && r[k] == y;
    assert y == gs[if k < m then k else k + 1];
  }

  /** Every left-over total is at most every selected total. */
  predicate Below(left: seq<Total>, sel: seq<Total>) {
    forall i, j :: 0 <= i < |left| && 0 <= j < |sel| ==> left[i].amount <= sel[j].amount
  }

  /** No total left over exceeds any total selected. */
  lemma {:induction false} LeftoverBelowSelected(gs: seq<Total>, n: nat)
    ensures Below(Leftover(gs, n), Largest(gs, n))
    decreases n
  {
    if n > 0 && gs != [] {
      var m := ArgMax(gs);
      var rest := RemoveAt(gs, m);
      var tail, left := Largest(rest, n - 1), Leftover(rest, n - 1);
      LeftoverBelowSelected(rest, n - 1);
      var r := [gs[m]] + tail;
      assert Largest(gs, n) == r;
      assert Leftover(gs, n) == left;
      forall i, j | 0 <= i < |left| && 0 <= j < |r| ensures left[i].amount <= r[j].amount {
        if j == 0 {
          assert left[i] in left;
          RemoveAtMember(gs, m, left[i]);
          ArgMaxAbove(gs, left[i]);
        } else {
          assert r[j] == tail[j - 1];
        }
      }
    }
  }

  /** Selecting from totals with distinct names gives totals with distinct names. */
  lemma {:induction false} LargestDistinct(gs: seq<Total>, n: nat)
    requires NamesDistinct(gs)
    ensures NamesDistinct(Largest(gs, n))
    decreases n
  {
    if n > 0 && gs != [] {
      var m := ArgMax(gs);
      var rest := RemoveAt(gs, m);
      var tail := Largest(rest, n - 1);
      assert Largest(gs, n) == [gs[m]] + tail;
      RemoveAtDistinct(gs, m);
      LargestDistinct(rest, n - 1);
      ConsDistinct(gs[m], tail);
    }
  }

  /** Removing a total from totals with distinct names leaves distinct names, none of them the removed one. */
  lemma RemoveAtDistinct(gs: seq<Total>, m: nat)
    requires m < |gs| && NamesDistinct(gs)
    ensures NamesDistinct(RemoveAt(gs, m))
    ensures forall y :: y in RemoveAt(gs, m) ==> y.name != gs[m].name
  {
    var rest := RemoveAt(gs, m);
    forall i, j | 0 <= i < j < |rest| ensures rest[i].name != rest[j].name {
      assert rest[i] == gs[if i < m then i else i + 1];
      assert rest[j] == gs[if j < m then j else j + 1];
    }
    forall y | y in rest ensures y.name != gs[m].name {
      var k :| 0 <= k < |rest| && rest[k] == y;
      assert y == gs[if k < m then k else k + 1];
    }
  }

  lemma ConsDistinct(x: Total, tail: seq<Total>)
    requires NamesDistinct(tail)
    requires forall y :: y in tail ==> y.name != x.name
    ensures NamesDistinct([x] + tail)
  {
    var r := [x] + tail;
    forall i, j | 0 <= i < j < |r| ensures r[i].name != r[j].name {
      if i == 0 {
        assert r[j] in tail;
      } else {
        assert r[i] == tail[i - 1] && r[j] == tail[j - 1];
      }
    }
  }

  function Reverse(ts: seq<Total>): (r: seq<Total>)
    ensures |r| == |ts|
    ensures forall i :: 0 <= i < |ts| ==> r[i] == ts[|ts| - 1 - i]
  {
    if ts == [] then [] else Reverse(ts[1..]) + [ts[0]]
  }

  /** `.sort_values(ascending=True)` of a list already sorted largest first. */
  lemma ReverseDescending(ts: seq<Total>)
    requires Descending(ts)
    ensures Ascending(Reverse(ts))
  {
    var r := Reverse(ts);
    forall i, j | 0 <= i < j < |r| ensures r[i].amount <= r[j].amount {
      assert r[i] == ts[|ts| - 1 - i] && r[j] == ts[|ts| - 1 - j];
    }
  }

  /** The top-`topN` customers by total billed amount, in ascending order of that total. */
  function TopConsumers(rows: seq<Row>, topN: nat): (top: seq<Total>)
    ensures |top| <= topN
  {
    Reverse(Largest(GroupTotals(rows), topN))
  }

  /** Reversal keeps names distinct. */
  lemma ReverseDistinct(ts: seq<Total>)
    requires NamesDistinct(ts)
    ensures NamesDistinct(Reverse(ts))
  {
    var r := Reverse(ts);
    forall i, j | 0 <= i < j < |r| ensures r[i].name != r[j].name {
      assert r[i] == ts[|ts| - 1 - i] && r[j] == ts[|ts| - 1 - j];
    }
  }

  /** The top-N chart shows min(topN, number of distinct names) entries, one per name. */
  lemma TopConsumersSize(rows: seq<Row>, topN: nat)
    ensures |TopConsumers(rows, topN)| == if topN < |Names(rows)| then topN else |Names(rows)|
    ensures NamesDistinct(TopConsumers(rows, topN))
  {
    var gs := GroupTotals(rows);
    var top := Largest(gs, topN);
    LargestDistinct(gs, topN);
    ReverseDistinct(top);
  }

  /** A total of the group-by is a name of the rows with the sum of its amounts. */
  lemma GroupTotalsMember(rows: seq<Row>, t: Total)
    requires t in GroupTotals(rows)
    ensures t.name in Names(rows) && t.amount == NameTotal(rows, t.name)
  {
    var gs := GroupTotals(rows);
    var k :| 0 <= k < |gs| && gs[k] == t;
  }

  /** Reversal keeps the same totals. */
  lemma ReverseMember(ts: seq<Total>, t: Total)
    ensures t in Reverse(ts) <==> t in ts
  {
    var r := Reverse(ts);
    if t in r {
      var i :| 0 <= i < |r| && r[i] == t;
      assert t == ts[|ts| - 1 - i];
    }
    if t in ts {
      var i :| 0 <= i < |ts| && ts[i] == t;
      assert t == r[|ts| - 1 - i];
    }
  }

  /** Each entry is a name of the data with the sum of the amounts billed under that name. */
  lemma TopConsumersTotals(rows: seq<Row>, topN: nat)
    ensures forall t :: t in TopConsumers(rows, topN) ==> t.name in Names(rows) && t.amount == NameTotal(rows, t.name)
  {
    var gs := GroupTotals(rows);
    var top := Largest(gs, topN);
    forall t | t in TopConsumers(rows, topN) ensures t.name in Names(rows) && t.amount == NameTotal(rows, t.name) {
      ReverseMember(top, t);
      GroupTotalsMember(rows, t);
    }
  }

  /** The entries come smallest total first. */
  lemma TopConsumersAscending(rows: seq<Row>, topN: nat)
    ensures Ascending(TopConsumers(rows, topN))
  {
    LargestDescending(GroupTotals(rows), topN);
    ReverseDescending(Largest(GroupTotals(rows), topN));
  }

  /** No name left out of the chart has a larger total than any name in it. */
  lemma TopConsumersCutoff(rows: seq<Row>, topN: nat, name: string)
    requires name in Names(rows)
    requires forall t :: t in TopConsumers(rows, topN) ==> t.name != name
    ensures forall t :: t in TopConsumers(rows, topN) ==> NameTotal(rows, name) <= t.amount
  {
    var gs := GroupTotals(rows);
    var top := Largest(gs, topN);
    var left := Leftover(gs, topN);
    var x := Total(name, NameTotal(rows, name));
    assert x in gs;
    ReverseMember(top, x);
    LargestSplit(gs, topN, x);
    assert x in left;
    var i :| 0 <= i < |left| && left[i] == x;
    LeftoverBelowSelected(gs, topN);
    forall t | t in TopConsumers(rows, topN) ensures NameTotal(rows, name) <= t.amount {
      ReverseMember(top, t);
      var j :| 0 <= j < |top| && top[j] == t;
    }
  }

  /** The dashboard's chart uses the default of 10 customers. */
  function TopTenConsumers(rows: seq<Row>): (r: seq<Total>)
    ensures |r| <= DefaultTopN
  {
    TopConsumers(rows, DefaultTopN)
  }

  // ---------------------------------------------------------------------------
  // Monthly consumption: df.set_index('billdate').resample('ME')['consumed'].sum()

  /** A calendar month and the units consumed on bills dated in it. */
  datatype MonthTotal = MonthTotal(year: int, month: int, consumed: int)

  /** A bill reduced to what the resample reads: the month bucket of its date and its units. */
  datatype Keyed = Keyed(key: int, consumed: int)

  /** The month bucket of a day number, as a consecutive month count. */
  function MonthKey(d: nat): int {
    var dt := FromDayNumber(d);
    MonthIndex(dt.year, dt.month)
  }

  function KeyRows(rows: seq<Row>): seq<Keyed> {
    seq(|rows|, i requires 0 <= i < |rows| => Keyed(MonthKey(rows[i].billdate), rows[i].consumed))
  }

  /** Units consumed on the rows dated in month `month` of year `year`. */
  function MonthSum(rows: seq<Row>, year: int, month: int): int {
    if rows == [] then 0
    else
      var dt := FromDayNumber(rows[0].billdate);
      (if dt.year == year && dt.month == month then rows[0].consumed else 0) + MonthSum(rows[1..], year, month)
  }

  /** Two bills of the same calendar month share a bucket; bills of different months never do. */
  lemma SameBucketIffSameMonth(d1: nat, d2: nat)
    ensures MonthKey(d1) == MonthKey(d2) <==>
      (FromDayNumber(d1).year == FromDayNumber(d2).year && FromDayNumber(d1).month == FromDayNumber(d2).month)
  {
  }

  /** The bucket of month `m` of year `y` holds the consumption of that month. */
  lemma {:induction false} KeySumIsMonthSum(rows: seq<Row>, y: int, m: int)
    requires 1 <= m <= 12
    ensures KeySum(KeyRows(rows), MonthIndex(y, m)) == MonthSum(rows, y, m)
  {
    if rows != [] {
      assert KeyRows(rows)[1..] == KeyRows(rows[1..]);
      KeySumIsMonthSum(rows[1..], y, m);
    }
  }

  /** Keying the rows keeps their units. */
  lemma {:induction false} KeyRowsConsumed(rows: seq<Row>)
    ensures SumKeyed(KeyRows(rows)) == SumConsumed(rows)
  {
    if rows != [] {
      assert KeyRows(rows)[1..] == KeyRows(rows[1..]);
      KeyRowsConsumed(rows[1..]);
    }
  }

  function MinKey(ks: seq<Keyed>): (k: int)
    requires ks != []
    ensures forall i :: 0 <= i < |ks| ==> k <= ks[i].key
    ensures exists i :: 0 <= i < |ks| && k == ks[i].key
  {
    if |ks| == 1 then ks[0].key
    else
      var k := MinKey(ks[1..]);
      if ks[0].key <= k then ks[0].key
      else
        var j :| 0 <= j < |ks[1..]| && k == ks[1..][j].key;
        assert ks[j + 1].key == k;
        k
  }

  function MaxKey(ks: seq<Keyed>): (k: int)
    requires ks != []
    ensures forall i :: 0 <= i < |ks| ==> ks[i].key <= k
    ensures exists i :: 0 <= i < |ks| && k == ks[i].key
  {
    if |ks| == 1 then ks[0].key
    else
      var k := MaxKey(ks[1..]);
      if ks[0].key >= k then ks[0].key
      else
        var j :| 0 <= j < |ks[1..]| && k == ks[1..][j].key;
        assert ks[j + 1].key == k;
        k
  }

  /** Units of the keyed rows in bucket `key`. */
  function KeySum(ks: seq<Keyed>, key: int): int {
    if ks == [] then 0
    else (if ks[0].key == key then ks[0].consumed else 0) + KeySum(ks[1..], key)
  }

  function SumKeyed(ks: seq<Keyed>): int {
    if ks == [] then 0 else ks[0].consumed + SumKeyed(ks[1..])
  }

  /** `count` consecutive month buckets starting at bucket `lo`. */
  function Buckets(ks: seq<Keyed>, lo: int, count: nat): (ms: seq<MonthTotal>)
    ensures |ms| == count
    ensures forall i :: 0 <= i < count ==>
      MonthIndex(ms[i].year, ms[i].month) == lo + i && 1 <= ms[i].month <= 12 && ms[i].consumed == KeySum(ks, lo + i)
  {
    if count == 0 then []
    else
      var key := lo + count - 1;
      Buckets(ks, lo, count - 1) + [MonthTotal(key / 12, key % 12 + 1, KeySum(ks, key))]
  }

  /** The monthly series: every month from the first to the last bill month, oldest first. */
  function MonthlyConsumption(rows: seq<Row>): (ms: seq<MonthTotal>)
    ensures ms == [] <==> rows == []
  {
    Resample(KeyRows(rows))
  }

  /** Month buckets from the least to the greatest key present. */
  function Resample(ks: seq<Keyed>): seq<MonthTotal> {
    if ks == [] then [] else Buckets(ks, MinKey(ks), MaxKey(ks) - MinKey(ks) + 1)
  }

  function SumMonthly(ms: seq<MonthTotal>): int {
    if ms == [] then 0 else SumMonthly(ms[..|ms| - 1]) + ms[|ms| - 1].consumed
  }

  /** The sum over `count` buckets is the sum over the first `count - 1` plus the last bucket. */
  lemma BucketsLast(ks: seq<Keyed>, lo: int, count: nat)
    requires count > 0
    ensures SumMonthly(Buckets(ks, lo, count)) == SumMonthly(Buckets(ks, lo, count - 1)) + KeySum(ks, lo + count - 1)
  {
    assert Buckets(ks, lo, count)[..count - 1] == Buckets(ks, lo, count - 1);
  }

  /** Taking away the first row takes its units out of exactly the bucket of its month, if that bucket is in range. */
  lemma {:induction false} BucketsDropFirst(ks: seq<Keyed>, lo: int, count: nat)
    requires ks != []
    ensures SumMonthly(Buckets(ks, lo, count))
      == SumMonthly(Buckets(ks[1..], lo, count)) + (if lo <= ks[0].key < lo + count then ks[0].consumed else 0)
  {
    if count > 0 {
      BucketsDropFirst(ks, lo, count - 1);
      BucketsLast(ks, lo, count);
      BucketsLast(ks[1..], lo, count);
    }
  }

  lemma {:induction false} EmptyBuckets(lo: int, count: nat)
    ensures SumMonthly(Buckets([], lo, count)) == 0
  {
    if count > 0 {
      EmptyBuckets(lo, count - 1);
      BucketsLast([], lo, count);
    }
  }

  /** When every key lies in the range, the buckets together hold all the units. */
  lemma {:induction false} BucketsConserve(ks: seq<Keyed>, lo: int, count: nat)
    requires forall i :: 0 <= i < |ks| ==> lo <= ks[i].key < lo + count
    ensures SumMonthly(Buckets(ks, lo, count)) == SumKeyed(ks)
  {
    if ks == [] {
      EmptyBuckets(lo, count);
    } else {
      BucketsDropFirst(ks, lo, count);
      BucketsConserve(ks[1..], lo, count);
    }
  }

  /** The buckets hold all the units of the keyed rows. */
  lemma ResampleConserve(ks: seq<Keyed>)
    ensures SumMonthly(Resample(ks)) == SumKeyed(ks)
  {
    if ks != [] {
      BucketsConserve(ks, MinKey(ks), MaxKey(ks) - MinKey(ks) + 1);
    }
  }

  /** The series runs through consecutive calendar months, oldest first. */
  lemma MonthlyConsecutive(rows: seq<Row>)
    ensures var ms := MonthlyConsumption(rows);
      (forall i :: 0 <= i < |ms| ==> 1 <= ms[i].month <= 12)
      && (forall i :: 0 < i < |ms| ==> MonthIndex(ms[i].year, ms[i].month) == MonthIndex(ms[i - 1].year, ms[i - 1].month) + 1)
  {
  }

  /** Each month's value is the units consumed on the bills dated in that month. */
  lemma MonthlyTotals(rows: seq<Row>)
    ensures var ms := MonthlyConsumption(rows);
      forall i :: 0 <= i < |ms| ==> ms[i].consumed == MonthSum(rows, ms[i].year, ms[i].month)
  {
    var ks := KeyRows(rows);
    var ms := Resample(ks);
    forall i | 0 <= i < |ms| ensures ms[i].consumed == MonthSum(rows, ms[i].year, ms[i].month) {
      assert ms[i].consumed == KeySum(ks, MonthIndex(ms[i].year, ms[i].month));
      KeySumIsMonthSum(rows, ms[i].year, ms[i].month);
    }
  }

  /** Every bill is counted in the bucket of its own calendar month, which lies within the series. */
  lemma RowHasBucket(rows: seq<Row>, j: int)
    requires 0 <= j < |rows|
    ensures var ms := MonthlyConsumption(rows);
      var dt := FromDayNumber(rows[j].billdate);
      var i := MonthKey(rows[j].billdate) - MonthIndex(ms[0].year, ms[0].month);
      ms != [] && 0 <= i < |ms| && ms[i].year == dt.year && ms[i].month == dt.month
  {
    var ks := KeyRows(rows);
    var lo := MinKey(ks);
    var ms := Buckets(ks, lo, MaxKey(ks) - lo + 1);
    assert ks[j].key == MonthKey(rows[j].billdate);
    var i := ks[j].key - lo;
    assert MonthIndex(ms[i].year, ms[i].month) == MonthKey(rows[j].billdate);
  }

  /** The first and the last bucket are each the month of some bill. */
  lemma MonthlyEnds(rows: seq<Row>)
    ensures var ms := MonthlyConsumption(rows);
      ms != [] ==>
        (exists j :: 0 <= j < |rows| && MonthKey(rows[j].billdate) == MonthIndex(ms[0].year, ms[0].month))
        && (exists j :: 0 <= j < |rows| && MonthKey(rows[j].billdate) == MonthIndex(ms[|ms| - 1].year, ms[|ms| - 1].month))
  {
    var ks := KeyRows(rows);
    if ks != [] {
      var lo, hi := MinKey(ks), MaxKey(ks);
      var ms := Buckets(ks, lo, hi - lo + 1);
      var a :| 0 <= a < |ks| && lo == ks[a].key;
      var b :| 0 <= b < |ks| && hi == ks[b].key;
      assert MonthKey(rows[a].billdate) == MonthIndex(ms[0].year, ms[0].month);
      assert MonthKey(rows[b].billdate) == MonthIndex(ms[|ms| - 1].year, ms[|ms| - 1].month);
    }
  }

  /** A month in which no bill is dated shows 0. */
  lemma {:induction false} EmptyMonthIsZero(rows: seq<Row>, year: int, month: int)
    requires forall r :: r in rows ==> FromDayNumber(r.billdate).year != year || FromDayNumber(r.billdate).month != month
    ensures MonthSum(rows, year, month) == 0
  {
    if rows != [] {
      assert rows[0] in rows;
      assert forall r :: r in rows[1..] ==> r in rows;
      EmptyMonthIsZero(rows[1..], year, month);
    }
  }

  /** The monthly values add up to the total consumption of all the bills. */
  lemma MonthlyConserve(rows: seq<Row>)
    ensures SumMonthly(MonthlyConsumption(rows)) == SumConsumed(rows)
  {
    KeyRowsConsumed(rows);
    ResampleConserve(KeyRows(rows));
  }
}
