/**
 * The joined bill rows every analysis reads: one row per bill, with the
 * owning customer's name repeated. Dates are day numbers from 2023-01-01,
 * money and units are integers.
 */
module Frame {

  datatype Row = Row(name: string, meterno: string, billdate: nat, consumed: int, amount: int, paid: string)

  /** The label the dashboard filters on. */
  const UnpaidLabel := "Unpaid"

  /** `df['amount'].sum()`: the amounts of all rows added up; no negative amount gives no negative sum. */
  function SumAmount(rows: seq<Row>): (s: int)
    ensures (forall r :: r in rows ==> r.amount >= 0) ==> s >= 0
  {
    if rows == [] then 0
    else
      assert forall r :: r in rows[1..] ==> r in rows;
      rows[0].amount + SumAmount(rows[1..])
  }

  /** `df['consumed'].sum()`: the units of all rows added up. */
  function SumConsumed(rows: seq<Row>): int {
    if rows == [] then 0 else rows[0].consumed + SumConsumed(rows[1..])
  }
}
