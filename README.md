# Electricity dashboard: a verified model

This project models the logic of a small electricity-billing dashboard.

- **Data generator.** A script fills a database with 50 fake customers. Each customer gets 24 monthly bills with a tiered tariff, a seasonal consumption band, and a meter reading carried from one bill to the next.
- **Analysis module.** It turns the joined customer-and-bill rows into two chart series:
  - the total billed amount of the top ten customers, smallest first;
  - the units consumed per calendar month, oldest month first.
- **Dashboard page.** It shows a load error when there is no data. Otherwise it shows four key figures (total revenue, average consumption, number of unpaid bills, unpaid amount), the two charts and the raw table.

The model is written in Dafny. It has six modules, one file each:

- `Calendar` (calendar.dfy): the Gregorian calendar on day numbers counted from 2023-01-01. It converts day numbers to dates and back, both ways.
- `Text` (text.dfy): decimal rendering of the numeric parts of identifiers, and the line-break replacement applied to addresses.
- `Generator` (generator.dfy): the generator.
  - The two loops are methods, `GenerateCustomers` and `GenerateBills`. Each loop is proved against specification functions (`Customers`, `AllBills`).
  - The random draws and the fake identities are parameters.
  - The lemmas state the tariff, the date schedule, the season bands, reading continuity and identifier uniqueness.
- `Frame` (frame.dfy): a row of the joined table that the analyses read, and the column sums.
- `Analysis` (analysis.dfy): the top-N chart series and the monthly series, as pure functions with their properties.
- `Dashboard` (dashboard.dfy): the empty-data guard and the four key figures.

Representation choices:

- Dates are day numbers (`nat`, day 0 = 2023-01-01).
- Money and units are integers. The average is a `real` quotient.
- A random draw `raw` is reduced into `[lo, hi]` as `lo + raw % (hi - lo + 1)`. Every value of the range is reachable (`RandIntCovers`), so the model covers exactly the outcomes of `random.randint(lo, hi)`.

## Model

| member | source | states |
|---|---|---|
| Calendar.DaysInMonth | generate_data.py:55-58 | A month has 28 to 31 days. February has 29 days exactly in leap years and 28 otherwise. April, June, September and November have 30, and the other months 31 |
| Calendar.YearLengthIsLeap | generate_data.py:55 | A year has 366 days if it is a leap year and 365 otherwise, so 2024 has 366 |
| Calendar.FromDayNumber | generate_data.py:55 | The date reached by adding a number of days to 2023-01-01 is a valid calendar date |
| Calendar.MonthOfYear | generate_data.py:58 | The calendar month of a bill date lies in 1..12 |
| Calendar.DayNumberRoundTrip | generate_data.py:55 | Converting a day number to a date and back gives the same day number |
| Calendar.DateRoundTrip | generate_data.py:55 | Converting any valid date on or after 2023-01-01 to a day number and back gives the same date |
| Calendar.MonthStartMonotone | generate_data.py:55 | A later month starts no earlier than the day after the end of an earlier month |
| Calendar.DayInMonth | generate_data.py:58 | A day number inside a month's span is dated in that month, with the matching day of month |
| Text.NatToString | generate_data.py:32 | The rendering of a number is a non-empty string of decimal digits without a leading zero |
| Text.ParseNatToString | generate_data.py:32 | Parsing the rendering of a number gives the number back |
| Text.NatToStringInjective | generate_data.py:32-37 | Different numbers render as different strings |
| Text.ReplaceNewlines | generate_data.py:34 | The result has no line break, and each line break adds one character to the length |
| Text.ReplaceNewlinesLineBreak | generate_data.py:34 | A line break becomes ", "; with the two lemmas below this fixes the result for every address |
| Text.ReplaceNewlinesKeepsSingleLine | generate_data.py:34 | An address without line breaks is stored unchanged |
| Text.ReplaceNewlinesConcat | generate_data.py:34 | Each part of an address is replaced independently of the rest |
| Generator.StatusLabel | generate_data.py:76 | The stored text is "Paid" exactly for a paid bill and "Unpaid" exactly for an unpaid one |
| Generator.RandInt | generate_data.py:52 | A drawn integer lies in the inclusive range [lo, hi] |
| Generator.RandIntCovers | generate_data.py:52 | Every value of [lo, hi] is produced by some draw |
| Generator.TierBoundaries | generate_data.py:67-72 | Consumptions 199, 200, 399 and 400 get rates 4, 6, 6 and 8, with amounts 796, 1200, 2394 and 3200 |
| Generator.AmountStrictlyIncreasing | generate_data.py:67-72 | A larger consumption always gives a larger amount, across the tier thresholds too |
| Generator.Rate | generate_data.py:67-72 | The rate is 4 exactly below 200 units, 6 exactly from 200 to 399, and 8 exactly from 400 on |
| Generator.Amount | generate_data.py:67-72 | The amount is the consumption times its tier's rate, so for a non-negative consumption it lies between 4 and 8 times the consumption |
| Generator.SeasonalConsumption | generate_data.py:58-62 | Consumption lies in [250, 700] for a bill dated in March to June, and in [100, 400] otherwise |
| Generator.MonthStartsOf2023And2024 | generate_data.py:55 | The first days of March and July of 2023 and 2024 and of January 2024 and 2025 are days 59, 181, 425, 547, 365 and 731 |
| Generator.SummerDays | generate_data.py:55-59 | A day of 2023 or 2024 falls in March to June exactly when it is day 59..180 or day 425..546 |
| Generator.SummerBills | generate_data.py:54-59 | Of the 24 bills, exactly those numbered 2..6 and 15..18 are dated in March to June |
| Generator.CustomerId | generate_data.py:32 | The identifier of customer i is "CUST" followed by the decimal digits of 1001 + i |
| Generator.MeterNo | generate_data.py:37 | The meter number of customer i is "MTR" followed by the decimal digits of 5001 + i |
| Generator.CustomerIdDigits | generate_data.py:32 | An identifier starts with "CUST", and the rest is decimal digits that read back as 1001 + i |
| Generator.MeterNoDigits | generate_data.py:37 | A meter number starts with "MTR", and the rest is decimal digits that read back as 5001 + i |
| Generator.CustomerIdRange | generate_data.py:30-32 | The customer identifiers run from CUST1001 to CUST1050 |
| Generator.MeterNoRange | generate_data.py:30-37 | The meter numbers run from MTR5001 to MTR5050 |
| Generator.IdentifiersDistinct | generate_data.py:30-37 | Two different customers never share an identifier or a meter number, because their digits read back as different numbers |
| Generator.Reading | generate_data.py:52-80 | The reading before bill k is the initial reading plus the consumption of bills 0..k−1, and lies between 1000 + 100·k and 2000 + 700·k |
| Generator.ReadingIncreasing | generate_data.py:64-80 | A meter's reading strictly increases from bill to bill |
| Generator.AllBills | generate_data.py:49-80 | The bill list is the 24 bills of each customer, customer after customer, so it has 24 bills per customer |
| Generator.AllBillsAt | generate_data.py:49-54 | The bill list has 24 bills per customer, and bill 24·i + k is bill k of customer i |
| Generator.GeneratedBill | generate_data.py:49-79 | For every generated bill: consumed = current − previous > 0, and amount = rate × consumed. The bill date is 30·k days after 2023-01-01 and the due date is 15 days later. Consumption is in its season band. The bill is on its customer's meter and carries its drawn status. The first reading of a customer is in [1000, 2000] |
| Generator.Continuity | generate_data.py:64-80 | Within a customer, each bill's previous reading is the preceding bill's current reading |
| Generator.ReadingsIncrease | generate_data.py:64-80 | Within a customer, readings strictly increase over the 24 bills |
| Generator.BillStep | generate_data.py:55-80 | One month of the loop appends that month's bill and carries current = previous + consumed forward |
| Generator.GenerateCustomers | generate_data.py:29-39 | The customer loop builds exactly the 50 customers of the specification |
| Generator.GenerateBills | generate_data.py:49-80 | The nested bill loops build exactly the bills of every customer, customer after customer, with the reading carried over |
| Generator.GenerateData | generate_data.py:28-80 | The generator creates 50 customers and 1200 bills. Identifiers run CUST1001..CUST1050 and meters MTR5001..MTR5050, all pairwise distinct. Every bill is on the meter of its customer |
| Analysis.DistinctNames | analysis.py:69 | Lists each customer name of the rows exactly once |
| Analysis.GroupTotals | analysis.py:69 | Group-by name: one entry per distinct name, each holding the sum of that name's amounts |
| Analysis.GroupTotalsConserve | analysis.py:69 | The group totals add up to the sum of all amounts |
| Analysis.ArgMax | analysis.py:69 | Picks the position of a largest total |
| Analysis.Largest | analysis.py:69 | Selects min(n, size) totals, all taken from the input |
| Analysis.Leftover | analysis.py:69 | Leaves size − n totals (none when n ≥ size), all taken from the input |
| Analysis.LargestDescending | analysis.py:69 | The selection comes out largest first |
| Analysis.LargestSplit | analysis.py:69 | A total of the input is either selected or left over, and nothing else is either |
| Analysis.LeftoverBelowSelected | analysis.py:69 | No left-over total exceeds any selected total |
| Analysis.LargestDistinct | analysis.py:69 | Selecting from totals with distinct names keeps the names distinct |
| Analysis.Reverse | analysis.py:69 | Reversal keeps the length and maps position i to position size − 1 − i |
| Analysis.ReverseDescending | analysis.py:69 | Reversing a largest-first list sorts it ascending |
| Analysis.TopConsumers | analysis.py:69 | The chart series: group by name, take the top_n largest totals, reverse them to ascending order; it has at most top_n entries |
| Analysis.TopConsumersSize | analysis.py:62-69 | The top-N series has min(top_n, number of distinct names) entries, one per distinct name |
| Analysis.TopConsumersTotals | analysis.py:69 | Each entry is a customer name of the data with the sum of the amounts billed under that name |
| Analysis.TopConsumersAscending | analysis.py:69 | The entries are sorted by ascending total |
| Analysis.TopConsumersCutoff | analysis.py:69 | A name left out of the series has a total no larger than any total in it |
| Analysis.TopTenConsumers | analysis.py:62-69 | The default chart shows at most 10 customers |
| Analysis.SameBucketIffSameMonth | analysis.py:49 | Two bill dates fall in the same month bucket exactly when they have the same calendar year and month |
| Analysis.KeySumIsMonthSum | analysis.py:49 | The bucket of a year and month holds the units consumed on the bills dated in that month |
| Analysis.MinKey | analysis.py:49 | The earliest bill month is no later than any bill's month and is the month of some bill |
| Analysis.MaxKey | analysis.py:49 | The latest bill month is no earlier than any bill's month and is the month of some bill |
| Analysis.Buckets | analysis.py:49 | Bucket i is the calendar month i months after the first, and holds the units of that month |
| Analysis.BucketsConserve | analysis.py:49 | When every bill lies in the range, the buckets together hold all the units |
| Analysis.ResampleConserve | analysis.py:49 | Resampling keyed rows loses no units |
| Analysis.MonthlyConsumption | analysis.py:49 | The monthly series: one bucket per calendar month from the first to the last bill month. It is empty exactly when there are no bills |
| Analysis.MonthlyConsecutive | analysis.py:49 | The series runs through consecutive calendar months, oldest first |
| Analysis.MonthlyTotals | analysis.py:49 | Each month's value is the units consumed on the bills dated in that month |
| Analysis.RowHasBucket | analysis.py:49 | Every bill's month lies within the series, at the position of that month |
| Analysis.MonthlyEnds | analysis.py:49 | The first and last months of the series are months of some bill |
| Analysis.EmptyMonthIsZero | analysis.py:49 | A month in which no bill is dated shows 0 |
| Analysis.MonthlyConserve | analysis.py:49 | The monthly values add up to the total consumption of all bills |
| Frame.SumAmount | dashboard.py:29 | The amounts of all rows added up; with no negative amount the sum is not negative |
| Frame.SumConsumed | dashboard.py:30 | The units of all rows added up |
| Dashboard.UnpaidRows | dashboard.py:31-32 | The unpaid filter keeps exactly the rows marked "Unpaid" and no more rows than the frame has |
| Dashboard.OtherRows | dashboard.py:31-32 | The complement of the filter holds exactly the rows not marked "Unpaid" |
| Dashboard.UnpaidRowsCount | dashboard.py:31-32 | The filter holds every row marked "Unpaid" exactly as many times as the frame does, and no other row, so the unpaid count is the number of rows marked "Unpaid" |
| Dashboard.OtherRowsCount | dashboard.py:31-32 | The complement holds every other row exactly as many times as the frame does, and no unpaid row |
| Dashboard.ComputeKpis | dashboard.py:29-32 | The unpaid count is at most the row count. The average consumption times the row count is the total consumption |
| Dashboard.RenderPage | dashboard.py:23-59 | The page is the load error exactly when the frame is empty. Otherwise it shows the whole frame as the table and at most 10 top customers, and the unpaid count is at most the row count |
| Dashboard.RevenueIsSumOfCustomerTotals | dashboard.py:29 | Total revenue equals the sum of the per-customer totals of the top-N grouping |
| Dashboard.UnpaidSplit | dashboard.py:31-32 | Unpaid and other rows split the frame: their counts and amounts add up to the whole |
| Dashboard.UnpaidAmountBounded | dashboard.py:29-32 | With non-negative amounts, the unpaid amount is between 0 and the total revenue |
| Dashboard.UnpaidCountExtremes | dashboard.py:31 | The unpaid count is 0 exactly when no bill is unpaid, and equals the row count exactly when every bill is unpaid |
| Dashboard.SumConsumedBounds | dashboard.py:30 | If every row's consumption lies in [lo, hi], the total lies between n·lo and n·hi |
| Dashboard.AverageWithinBounds | dashboard.py:30 | If every row's consumption lies in [lo, hi], the average consumption does too |

## Left out

- Database access is not modelled: connecting, truncating the tables, the foreign-key switch, `executemany`, commit and close. The model returns the generated customer and bill lists instead.
- The random distributions are not modelled, including the 90 % / 10 % paid probability. Draws are parameters; each bill's status is an input `PaidStatus`.
- Names, addresses, e-mails and phone numbers from the fake-data library are opaque strings. Only the line-break replacement of the address is modelled.
- The analysis module's database fetch and its SQL join of bills to customers on the meter number are not modelled; the joined frame is the input of the analyses. The fallback to an empty frame on a connection error appears only as an empty input.
- Charts, styling, bar labels, the page layout, caching and number formatting are presentation, and are not modelled.
- Floating-point sums and means, and the two-decimal storage of amounts, are not modelled. Integers and a real quotient are used instead.
- The address and e-mail columns of the joined frame are not read by any modelled analysis, so `Frame.Row` omits them.
- Dates before 2023-01-01 have no day number. Every generated bill is dated on or after it.
- Analysis.TopConsumers: when customers have equal totals, the model does not fix which of them is selected at the cut-off, nor their order. Both may differ from what pandas' `nlargest` and `sort_values` choose. For example, with rows for Bob (100) and Alice (100) and top_n = 1, pandas keeps Alice, because `groupby` sorts the names; the model keeps Bob.
- Analysis.GroupTotals: the entries are in an unspecified order rather than sorted by name. Only the selection and its ascending order matter downstream.
- Analysis.MonthlyConsumption: each bucket is labelled by (year, month) rather than by the month-end timestamp pandas uses.
- Two customers with the same name fall into one group, as with pandas' `groupby`. The model keeps this behaviour.
- Analysis.LargestSplit: states the selection and the left-over part as a split of the set of totals, plus their lengths. It does not state a multiset partition, so duplicate entries are not tracked by this lemma. Group totals have distinct names, so duplicates cannot occur there.
