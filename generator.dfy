/**
 * The mock-data generator: 50 customers with deterministic identifiers and,
 * per customer, 24 monthly bills whose meter readings continue from one bill
 * to the next, whose consumption follows a seasonal band and whose amount
 * follows a three-tier tariff.
 *
 * Every random draw is a parameter. A draw of `random.randint(lo, hi)` is a
 * raw natural number reduced into `[lo, hi]` (RandInt); every value of the
 * interval is reachable (RandIntCovers), so the model admits exactly the
 * outcomes randint can produce. The paid-status draw is the chosen status
 * itself, and the fake identity of a customer (name, address, email, phone)
 * is an opaque record.
 */
module Generator {
  import opened Calendar
  import opened Text

  const CustomerCount := 50
  const BillsPerCustomer := 24
  /** Days between consecutive bills, and from a bill to its due date. */
  const BillInterval := 30
  const DueOffset := 15

  datatype PaidStatus = Paid | Unpaid

  /** The text stored for a status: the two labels are distinct, so the label determines the status. */
  function StatusLabel(p: PaidStatus): (text: string)
    ensures text == "Paid" <==> p == Paid
    ensures text == "Unpaid" <==> p == Unpaid
  {
    match p
    case Paid => "Paid"
    case Unpaid => "Unpaid"
  }

  /** What the fake-data library returned for one customer. */
  datatype Identity = Identity(name: string, address: string, email: string, phone: string)

  /** The draws made for one customer's meter: the initial reading, one consumption draw and one status per month. */
  datatype MeterDraws = MeterDraws(initialDraw: nat, consumptionDraws: seq<nat>, statuses: seq<PaidStatus>)

  datatype Customer = Customer(cid: string, name: string, address: string, email: string, phone: string, meterno: string)

  /** Dates are day numbers counted from 2023-01-01. */
  datatype Bill = Bill(
    meterno: string,
    billdate: nat,
    currentUnits: int,
    previousUnits: int,
    consumed: int,
    amount: int,
    duedate: nat,
    paid: PaidStatus)

  /** `random.randint(lo, hi)` fed with the raw draw `raw`. */
  function RandInt(lo: int, hi: int, raw: nat): (v: int)
    requires lo <= hi
    ensures lo <= v <= hi
  {
    lo + raw % (hi - lo + 1)
  }

  /** Every value randint may return is produced by some raw draw. */
  lemma RandIntCovers(lo: int, hi: int, v: int)
    requires lo <= v <= hi
    ensures RandInt(lo, hi, v - lo) == v
  {
  }

  // ---------------------------------------------------------------------------
  // Tariff

  /** Price per unit: strict thresholds at 200 and 400 consumed units. */
  function Rate(consumed: int): (rate: int)
    ensures rate == 4 <==> consumed < 200
    ensures rate == 6 <==> 200 <= consumed < 400
    ensures rate == 8 <==> 400 <= consumed
  {
    if consumed < 200 then 4 else if consumed < 400 then 6 else 8
  }

  /** The bill amount: the consumption priced at its tier's rate, so between the lowest and the highest rate. */
  function Amount(consumed: int): (a: int)
    ensures consumed >= 0 ==> 4 * consumed <= a <= 8 * consumed
  {
    Rate(consumed) * consumed
  }

  /** The four boundary readings land in the tiers 4, 6, 6 and 8. */
  lemma TierBoundaries()
    ensures Rate(199) == 4 && Amount(199) == 796
    ensures Rate(200) == 6 && Amount(200) == 1200
    ensures Rate(399) == 6 && Amount(399) == 2394
    ensures Rate(400) == 8 && Amount(400) == 3200
  {
  }

  /** Consuming more never costs less: the amount rises strictly with consumption, across the tier steps too. */
  lemma AmountStrictlyIncreasing(a: int, b: int)
    requires a < b
    ensures Amount(a) < Amount(b)
  {
  }

  // ---------------------------------------------------------------------------
  // Seasons and the bill schedule

  /** Calendar months 3..6 are the high-usage season. */
  predicate IsSummer(monthOfYear: int) {
    3 <= monthOfYear <= 6
  }

  /** The consumption drawn for a bill dated in `monthOfYear`. */
  function SeasonalConsumption(monthOfYear: int, raw: nat): (c: int)
    ensures IsSummer(monthOfYear) ==> 250 <= c <= 700
    ensures !IsSummer(monthOfYear) ==> 100 <= c <= 400
  {
    if IsSummer(monthOfYear) then RandInt(250, 700, raw) else RandInt(100, 400, raw)
  }

  /** Bill `k` is dated 30·k days after 2023-01-01. */
  function BillDay(k: nat): nat {
    BillInterval * k
  }

  /** The due date is 15 days after the bill date. */
  function DueDay(k: nat): nat {
    BillDay(k) + DueOffset
  }

  /** The month starts that decide which bills of the two generated years fall in the season. */
  lemma MonthStartsOf2023And2024()
    ensures MonthStart(2023, 3) == 59 && MonthStart(2023, 7) == 181
    ensures MonthStart(2024, 1) == 365 && MonthStart(2024, 3) == 425
    ensures MonthStart(2024, 7) == 547 && MonthStart(2025, 1) == 731
  {
    YearLengthIsLeap(2023);
    YearLengthIsLeap(2024);
    assert DaysBeforeYear(2024) == 365;
    assert DaysBeforeYear(2025) == 731;
  }

  /** A day of 2023 or 2024 is in the season exactly when it lies in March..June of its year. */
  lemma SummerDays(d: nat)
    requires d < 731
    ensures IsSummer(MonthOfYear(d)) <==> (59 <= d < 181 || 425 <= d < 547)
  {
    MonthStartsOf2023And2024();
    var dt := FromDayNumber(d);
    DayNumberRoundTrip(d);
    if dt.year >= 2025 {
      MonthStartMonotone(2024, 12, dt.year, dt.month);
      assert false;
    }
    var y := dt.year;
    if dt.month < 3 {
      MonthStartMonotone(y, dt.month, y, 3);
    } else if dt.month <= 6 {
      if dt.month > 3 { MonthStartMonotone(y, 3, y, dt.month); }
      if dt.month < 6 { MonthStartMonotone(y, dt.month, y, 7); }
      else { NextMonthStart(y, 6); }
    } else {
      if dt.month > 7 { MonthStartMonotone(y, 7, y, dt.month); }
      if dt.month < 12 { MonthStartMonotone(y, dt.month, y + 1, 1); }
      else { NextMonthStart(y, 12); }
    }
    if y == 2023 {
      NextMonthStart(2023, 12);
    }
  }

  /** Of the 24 bills, those numbered 2..6 and 15..18 are dated in the season. */
  lemma SummerBills(k: nat)
    requires k < BillsPerCustomer
    ensures IsSummer(MonthOfYear(BillDay(k))) <==> (2 <= k <= 6 || 15 <= k <= 18)
  {
    SummerDays(BillDay(k));
  }

  // ---------------------------------------------------------------------------
  // Customers

  /** The identifier of the `i`-th customer. */
  function CustomerId(i: nat): string {
    "CUST" + NatToString(1001 + i)
  }

  /** The meter number of the `i`-th customer. */
  function MeterNo(i: nat): string {
    "MTR" + NatToString(5001 + i)
  }

  /** A customer identifier is "CUST" followed by decimal digits that read back as 1001 + i. */
  lemma CustomerIdDigits(i: nat)
    ensures |CustomerId(i)| > 4 && CustomerId(i)[..4] == "CUST"
    ensures AllDigits(CustomerId(i)[4..]) && ParseDecimal(CustomerId(i)[4..]) == 1001 + i
  {
    var digits := NatToString(1001 + i);
    ParseNatToString(1001 + i);
    assert CustomerId(i)[4..] == digits;
  }

  /** A meter number is "MTR" followed by decimal digits that read back as 5001 + i. */
  lemma MeterNoDigits(i: nat)
    ensures |MeterNo(i)| > 3 && MeterNo(i)[..3] == "MTR"
    ensures AllDigits(MeterNo(i)[3..]) && ParseDecimal(MeterNo(i)[3..]) == 5001 + i
  {
    var digits := NatToString(5001 + i);
    ParseNatToString(5001 + i);
    assert MeterNo(i)[3..] == digits;
  }

  /** The `i`-th customer built from the `i`-th fake identity. */
  function MakeCustomer(i: nat, id: Identity): Customer {
    Customer(CustomerId(i), id.name, ReplaceNewlines(id.address), id.email, id.phone, MeterNo(i))
  }

  function Customers(ids: seq<Identity>): seq<Customer> {
    seq(|ids|, i requires 0 <= i < |ids| => MakeCustomer(i, ids[i]))
  }

  /** The first and last identifiers and meter numbers of the 50 customers. */
  lemma CustomerIdRange()
    ensures CustomerId(0) == "CUST1001" && CustomerId(CustomerCount - 1) == "CUST1050"
  {
    assert NatToString(100) == "100";
    assert NatToString(105) == "105";
    assert NatToString(1050) == "1050";
  }

  lemma MeterNoRange()
    ensures MeterNo(0) == "MTR5001" && MeterNo(CustomerCount - 1) == "MTR5050"
  {
    assert NatToString(500) == "500";
    assert NatToString(505) == "505";
    assert NatToString(5050) == "5050";
  }

  /** No two customers share an identifier or a meter number: the digits after the prefix parse to different numbers. */
  lemma IdentifiersDistinct(i: nat, j: nat)
    requires i != j
    ensures CustomerId(i) != CustomerId(j)
    ensures MeterNo(i) != MeterNo(j)
  {
    CustomerIdDigits(i);
    CustomerIdDigits(j);
    MeterNoDigits(i);
    MeterNoDigits(j);
  }

  // ---------------------------------------------------------------------------
  // Bills

  predicate WellFormed(md: MeterDraws) {
    |md.consumptionDraws| == BillsPerCustomer && |md.statuses| == BillsPerCustomer
  }

  /** The consumption of bill `k` of a meter. */
  function Consumption(md: MeterDraws, k: nat): int
    requires k < |md.consumptionDraws|
  {
    SeasonalConsumption(MonthOfYear(BillDay(k)), md.consumptionDraws[k])
  }

  /** The meter reading before bill `k`: the initial reading plus all consumption billed so far. */
  function Reading(md: MeterDraws, k: nat): (units: int)
    requires k <= |md.consumptionDraws|
    ensures 1000 + 100 * k <= units <= 2000 + 700 * k
  {
    if k == 0 then RandInt(1000, 2000, md.initialDraw) else Reading(md, k - 1) + Consumption(md, k - 1)
  }

  /** Meter readings strictly increase from bill to bill. */
  lemma {:induction false} ReadingIncreasing(md: MeterDraws, j: nat, k: nat)
    requires j < k <= |md.consumptionDraws|
    ensures Reading(md, j) < Reading(md, k)
    decreases k
  {
    if j < k - 1 {
      ReadingIncreasing(md, j, k - 1);
    }
  }

  /** The bill for month `k` of a meter whose reading before the bill is `previous`. */
  function MakeBill(meterno: string, k: nat, previous: int, consumed: int, paid: PaidStatus): Bill {
    Bill(meterno, BillDay(k), previous + consumed, previous, consumed, Amount(consumed), DueDay(k), paid)
  }

  /** Bill `k` of the meter `meterno`. */
  function BillOf(meterno: string, md: MeterDraws, k: nat): Bill
    requires WellFormed(md) && k < BillsPerCustomer
  {
    MakeBill(meterno, k, Reading(md, k), Consumption(md, k), md.statuses[k])
  }

  /** The 24 bills of the meter `meterno`. */
  function CustomerBills(meterno: string, md: MeterDraws): seq<Bill>
    requires WellFormed(md)
  {
    seq(BillsPerCustomer, k requires 0 <= k < BillsPerCustomer => BillOf(meterno, md, k))
  }

  /** The customers' bill lists joined end to end. */
  function Flatten<T>(groups: seq<seq<T>>): seq<T> {
    if groups == [] then [] else Flatten(groups[..|groups| - 1]) + groups[|groups| - 1]
  }

  /** With groups of 24, element `24·i + k` of the joined list is element `k` of group `i`. */
  lemma {:induction false} FlattenAt<T>(groups: seq<seq<T>>, i: nat, k: nat)
    requires forall g :: 0 <= g < |groups| ==> |groups[g]| == 24
    requires i < |groups| && k < 24
    ensures |Flatten(groups)| == 24 * |groups|
    ensures Flatten(groups)[24 * i + k] == groups[i][k]
    decreases |groups|
  {
    var n := |groups| - 1;
    var pre := groups[..n];
    FlattenLength(groups);
    FlattenLength(pre);
    if i < n {
      FlattenAt(pre, i, k);
    }
  }

  lemma {:induction false} FlattenLength<T>(groups: seq<seq<T>>)
    requires forall g :: 0 <= g < |groups| ==> |groups[g]| == 24
    ensures |Flatten(groups)| == 24 * |groups|
    decreases |groups|
  {
    if groups != [] {
      FlattenLength(groups[..|groups| - 1]);
    }
  }

  /** One list of 24 bills per customer, in customer order, each on that customer's meter. */
  function BillGroups(customers: seq<Customer>, meters: seq<MeterDraws>): (groups: seq<seq<Bill>>)
    requires |customers| == |meters| && forall i :: 0 <= i < |meters| ==> WellFormed(meters[i])
    ensures |groups| == |meters| && forall g :: 0 <= g < |groups| ==> |groups[g]| == 24
  {
    seq(|meters|, i requires 0 <= i < |meters| => CustomerBills(customers[i].meterno, meters[i]))
  }

  /** The bills of all customers, customer after customer. */
  function AllBills(customers: seq<Customer>, meters: seq<MeterDraws>): (bills: seq<Bill>)
    requires |customers| == |meters| && forall i :: 0 <= i < |meters| ==> WellFormed(meters[i])
    ensures |bills| == BillsPerCustomer * |meters|
  {
    FlattenLength(BillGroups(customers, meters));
    Flatten(BillGroups(customers, meters))
  }

  /** Bill `24·i + k` of the whole list is bill `k` of customer `i`. */
  lemma AllBillsAt(customers: seq<Customer>, meters: seq<MeterDraws>, i: nat, k: nat)
    requires |customers| == |meters| && forall c :: 0 <= c < |meters| ==> WellFormed(meters[c])
    requires i < |meters| && k < BillsPerCustomer
    ensures |AllBills(customers, meters)| == 24 * |meters|
    ensures AllBills(customers, meters)[24 * i + k] == BillOf(customers[i].meterno, meters[i], k)
  {
    FlattenAt(BillGroups(customers, meters), i, k);
  }

  /** Facts about one generated bill, as the generator promises them. */
  ghost predicate BillFacts(b: Bill, k: nat) {
    && b.consumed == b.currentUnits - b.previousUnits
    && b.consumed > 0
    && b.amount == Rate(b.consumed) * b.consumed
    && b.billdate == BillDay(k)
    && b.duedate == DueDay(k)
    && (IsSummer(MonthOfYear(b.billdate)) ==> 250 <= b.consumed <= 700)
    && (!IsSummer(MonthOfYear(b.billdate)) ==> 100 <= b.consumed <= 400)
  }

  /**
   * Every generated bill: readings, amount, dates and consumption band agree,
   * the bill is on its customer's meter, and a customer's first bill starts
   * from a reading in [1000, 2000].
   */
  lemma GeneratedBill(customers: seq<Customer>, meters: seq<MeterDraws>, j: nat)
    requires |customers| == |meters| && forall c :: 0 <= c < |meters| ==> WellFormed(meters[c])
    requires j < 24 * |meters|
    ensures |AllBills(customers, meters)| == 24 * |meters|
    ensures BillFacts(AllBills(customers, meters)[j], j % 24)
    ensures AllBills(customers, meters)[j].meterno == customers[j / 24].meterno
    ensures AllBills(customers, meters)[j].paid == meters[j / 24].statuses[j % 24]
    ensures j % 24 == 0 ==> 1000 <= AllBills(customers, meters)[j].previousUnits <= 2000
  {
    var i, k := j / 24, j % 24;
    assert 24 * i + k == j;
    AllBillsAt(customers, meters, i, k);
  }

  /** The meter reading carries over: within a customer, each bill starts where the previous one ended. */
  lemma Continuity(customers: seq<Customer>, meters: seq<MeterDraws>, j: nat)
    requires |customers| == |meters| && forall c :: 0 <= c < |meters| ==> WellFormed(meters[c])
    requires j + 1 < 24 * |meters| && j % 24 != 23
    ensures |AllBills(customers, meters)| == 24 * |meters|
    ensures AllBills(customers, meters)[j + 1].previousUnits == AllBills(customers, meters)[j].currentUnits
  {
    var i, k := j / 24, j % 24;
    assert 24 * i + k == j && 24 * i + (k + 1) == j + 1;
    AllBillsAt(customers, meters, i, k);
    AllBillsAt(customers, meters, i, k + 1);
  }

  /** Over a customer's 24 bills the meter readings strictly increase. */
  lemma ReadingsIncrease(customers: seq<Customer>, meters: seq<MeterDraws>, i: nat, j: nat, k: nat)
    requires |customers| == |meters| && forall c :: 0 <= c < |meters| ==> WellFormed(meters[c])
    requires i < |meters| && j < k < BillsPerCustomer
    ensures |AllBills(customers, meters)| == 24 * |meters|
    ensures AllBills(customers, meters)[24 * i + j].currentUnits <= AllBills(customers, meters)[24 * i + k].previousUnits
    ensures AllBills(customers, meters)[24 * i + j].previousUnits < AllBills(customers, meters)[24 * i + k].previousUnits
  {
    AllBillsAt(customers, meters, i, j);
    AllBillsAt(customers, meters, i, k);
    ReadingIncreasing(meters[i], j, k);
    if j + 1 < k {
      ReadingIncreasing(meters[i], j + 1, k);
    }
  }

  lemma CustomersSnoc(ids: seq<Identity>, i: nat)
    requires i < |ids|
    ensures Customers(ids[..i + 1]) == Customers(ids[..i]) + [MakeCustomer(i, ids[i])]
  {
    var a, b := Customers(ids[..i + 1]), Customers(ids[..i]) + [MakeCustomer(i, ids[i])];
    assert |a| == |b|;
    forall k | 0 <= k < |a| ensures a[k] == b[k] {
      if k < i {
        assert ids[..i + 1][k] == ids[..i][k];
      }
    }
  }

  /** Extending a prefix of `b` by its next element. */
  lemma PrefixSnoc<T>(a: seq<T>, b: seq<T>, k: nat, x: T)
    requires k < |b| && b[k] == x
    ensures (a + b[..k]) + [x] == a + b[..k + 1]
  {
    assert b[..k + 1] == b[..k] + [x];
  }

  /** One step of the monthly loop: the bill it appends, and the reading it carries to the next month. */
  lemma BillStep(meterno: string, md: MeterDraws, k: nat, previous: int, consumed: int)
    requires WellFormed(md) && k < BillsPerCustomer
    requires previous == Reading(md, k) && consumed == Consumption(md, k)
    ensures CustomerBills(meterno, md)[k]
      == Bill(meterno, BillInterval * k, previous + consumed, previous, consumed, Amount(consumed), BillInterval * k + DueOffset, md.statuses[k])
    ensures Reading(md, k + 1) == previous + consumed
  {
  }

  lemma FlattenSnoc<T>(groups: seq<seq<T>>, c: nat)
    requires c < |groups|
    ensures Flatten(groups[..c + 1]) == Flatten(groups[..c]) + groups[c]
  {
    assert groups[..c + 1][..c] == groups[..c];
  }

  // ---------------------------------------------------------------------------
  // The generator

  /** The customer list: identifiers `CUST1001..`, meters `MTR5001..`, fake details with line breaks flattened. */
  method GenerateCustomers(ids: seq<Identity>) returns (customers: seq<Customer>)
    requires |ids| == CustomerCount
    ensures customers == Customers(ids)
  {
    customers := [];
    var i := 0;
    while i < CustomerCount
      invariant 0 <= i <= CustomerCount
      invariant customers == Customers(ids[..i])
    {
      var id := ids[i];
      var customer := Customer(CustomerId(i), id.name, ReplaceNewlines(id.address), id.email, id.phone, MeterNo(i));
      assert customer == MakeCustomer(i, ids[i]);
      CustomersSnoc(ids, i);
      customers := customers + [customer];
      i := i + 1;
    }
    assert ids[..i] == ids;
  }

  /**
   * Customer by customer, the 24 monthly bills of that customer's meter,
   * carrying the meter reading from each bill to the next.
   */
  method GenerateBills(customers: seq<Customer>, meters: seq<MeterDraws>) returns (bills: seq<Bill>)
    requires |customers| == |meters|
    requires forall i :: 0 <= i < |meters| ==> WellFormed(meters[i])
    ensures bills == AllBills(customers, meters)
  {
    bills := [];
    var c := 0;
    while c < |customers|
      invariant 0 <= c <= |customers|
      invariant bills == Flatten(BillGroups(customers, meters)[..c])
    {
      var meterno := customers[c].meterno;
      var md := meters[c];
      ghost var bills' := bills;
      var previous := RandInt(1000, 2000, md.initialDraw);
      var month := 0;
      while month < BillsPerCustomer
        invariant 0 <= month <= BillsPerCustomer
        invariant previous == Reading(md, month)
        invariant bills == bills' + CustomerBills(meterno, md)[..month]
      {
        var billDate := BillInterval * month;
        var monthOfYear := MonthOfYear(billDate);
        var consumed;
        if 3 <= monthOfYear <= 6 {
          consumed := RandInt(250, 700, md.consumptionDraws[month]);
        } else {
          consumed := RandInt(100, 400, md.consumptionDraws[month]);
        }
        var current := previous + consumed;
        var amount;
        if consumed < 200 {
          amount := 4 * consumed;
        } else if consumed < 400 {
          amount := 6 * consumed;
        } else {
          amount := 8 * consumed;
        }
        var dueDate := billDate + DueOffset;
        var bill := Bill(meterno, billDate, current, previous, consumed, amount, dueDate, md.statuses[month]);
        assert consumed == Consumption(md, month);
        assert amount == Amount(consumed);
        BillStep(meterno, md, month, previous, consumed);
        PrefixSnoc(bills', CustomerBills(meterno, md), month, bill);
        bills := bills + [bill];
        previous := current;
        month := month + 1;
      }
      assert CustomerBills(meterno, md)[..month] == CustomerBills(meterno, md);
      FlattenSnoc(BillGroups(customers, meters), c);
      c := c + 1;
    }
    assert BillGroups(customers, meters)[..c] == BillGroups(customers, meters);
  }

  /** The generator: first the 50 customers, then their 24 bills each. */
  method GenerateData(ids: seq<Identity>, meters: seq<MeterDraws>) returns (customers: seq<Customer>, bills: seq<Bill>)
    requires |ids| == CustomerCount && |meters| == CustomerCount
    requires forall i :: 0 <= i < |meters| ==> WellFormed(meters[i])
    ensures customers == Customers(ids)
    ensures bills == AllBills(customers, meters)
    ensures |customers| == 50 && |bills| == 1200
    ensures customers[0].cid == "CUST1001" && customers[49].cid == "CUST1050"
    ensures customers[0].meterno == "MTR5001" && customers[49].meterno == "MTR5050"
    ensures forall i, j :: 0 <= i < j < |customers| ==>
      customers[i].cid != customers[j].cid && customers[i].meterno != customers[j].meterno
    ensures forall j :: 0 <= j < |bills| ==> bills[j].meterno == customers[j / 24].meterno
  {
    customers := GenerateCustomers(ids);
    bills := GenerateBills(customers, meters);
    FlattenLength(BillGroups(customers, meters));
    CustomerIdRange();
    MeterNoRange();
    forall i, j | 0 <= i < j < |customers|
      ensures customers[i].cid != customers[j].cid && customers[i].meterno != customers[j].meterno
    {
      IdentifiersDistinct(i, j);
    }
    forall j | 0 <= j < |bills|
      ensures bills[j].meterno == customers[j / 24].meterno
    {
      var i, k := j / 24, j % 24;
      assert 24 * i + k == j;
      AllBillsAt(customers, meters, i, k);
    }
  }
}
