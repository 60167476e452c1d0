# eyws cost report, modelled in Dafny

eyws is a command-line helper for AWS. Its one piece of real logic is the cost report behind
`eyws list-costs` and `eyws email-costs`. `get_costs` does the following:

- It works out the report's date range from `--days` or `--months` and today's date.
- It reads the linked-account directory (`get_account_names`).
- It pages through the Cost Explorer `get_cost_and_usage` API, following `NextPageToken`.
- It sorts the billing periods newest first.
- For every period, it feeds each non-zero group into a `PeriodicCosts` accumulator. A group's
  amount is rounded half-up to cents. Its account id is replaced by the account's description.

The accumulator keeps:

- a running total;
- a per-account total;
- per-account lists of `(service, cost, unit)` in insertion order.

These lists are finally replaced by `(account, costs)` pairs sorted by account.

The model also covers the two pure helpers of instance creation:

- the EBS block-device mapping;
- the `Name` tag suffix rule.

The same pipeline appears twice, in `eyws/parser.py` (the installed entry point) and in the older
`eyws.py`. The two behave identically (they differ only in an unused exception name and in commented-out prints), so one model covers both. The table cites
`eyws/parser.py`; the matching spans of `eyws.py` are:

- `Dates.ResolveRange`: `eyws.py:438-450`
- `AccountDirectory.GetAccountNames`: `eyws.py:535-539`
- `CostFetcher.GroupBy`: `eyws.py:455-462`
- `CostFetcher.FetchAll`: `eyws.py:464-485`
- `CostFetcher.SortPeriods`: `eyws.py:488-492`
- `PeriodCosts.PeriodicCosts.AddCost`: `eyws.py:606-612`
- `CostReport.GetCosts`: `eyws.py:437-523`
- `Instances.CreateNewBlockDeviceMapping`: `eyws.py:256-271`

Modules:

| file | module | models |
|---|---|---|
| `common.dfy` | `Common` | `Option`, `Result`, the exceptions the pipeline can raise, and a first-failure fold over outcomes |
| `strings.dfy` | `Strings` | code-point string order (Python's `<` on `str`), decimal digit strings, `str(n)` and zero padding |
| `money.dfy` | `Money` | `Decimal(text)` for plain decimal text; `quantize(Decimal(".01"), ROUND_HALF_UP)` |
| `dates.dfy` | `Dates` | proleptic Gregorian dates in years 1..9999; the `--days`/`--months` start date; `strftime("%Y-%m-%d")`, `strptime(…, "%Y-%m-%d")` and the `"%B %Y"` label |
| `account_directory.dfy` | `AccountDirectory` | `get_account_names` |
| `cost_fetcher.dfy` | `CostFetcher` | the group-by list, the `NextPageToken` loop, and the guarded descending sort of the periods |
| `periodic_costs.dfy` | `PeriodCosts` | `ServiceUsageCost`, and `PeriodicCosts` as a class with its `add_cost` and the final `sorted(...items())` |
| `cost_report.dfy` | `CostReport` | the period label, the per-group step, the per-period and whole-report loops, and `get_costs` end to end |
| `instances.dfy` | `Instances` | `create_new_block_device_mapping` and the `Name` tag rule of `create_instances` |

The imperative parts of the source are imperative in the model:

- `PeriodicCosts` is a class whose methods update its fields.
- The paging loop, the account-map loop, the period and group loops, and the tag loop are `while` loops.
- The period sort is an in-place insertion sort over an `array`.

Each method is proved against a specification function. Properties of that function are then proved as lemmas:

- the account totals are sums;
- the lists keep insertion order;
- the sort is a stable descending permutation;
- a zero group changes nothing.

Amounts are exact: a parsed amount is an integer coefficient and a scale, and a quantized amount is
an integer number of cents.

Behaviour of the code that a reader might not expect:

- `--months` of 0 or a negative number is not rejected. It behaves like `--months 1`.
- `--days` is never checked. A negative value moves the start date into the future.
- The sort falls back to "leave unsorted" when a period has no `TimePeriod.Start`. The label
  step reads that key right after, so the whole report then fails
  (`CostReport.MissingStartFailsReport`). An unsorted report is never produced.
- `--ebs-delete` is a text option, so `--ebs-delete False` still deletes the volume
  (`Instances.DeleteFlagIsText`).

## Model

| member | source | states |
|---|---|---|
| Dates.ResolveRange | eyws/parser.py:541-553 | The report range always ends today and starts on a real date. The only failure is the date leaving years 1..9999, which is Python's OverflowError/ValueError. |
| Dates.DaysModeRange | eyws/parser.py:541-542 | With a non-zero `--days N`, start is exactly N days before today (after it for negative N). This fails exactly when that day falls outside 0001-01-01..9999-12-31. |
| Dates.MonthModeRange | eyws/parser.py:543-549 | Without `--days` (or with 0), start is the 1st of a month and strictly before today. For `--months` > 1 it is months−1 months back. Otherwise it is the current month, or the previous one when today is the 1st. Failure is possible only when stepping back leaves year 1. |
| Dates.AddDays | eyws/parser.py:542 | `now - relativedelta(days=k)` on the calendar: when the result exists, its day number differs from the input's by exactly k. |
| Dates.AddDaysFailsOnlyOutOfRange | eyws/parser.py:542 | Day arithmetic fails iff the target day number lies outside the representable calendar. |
| Dates.FirstOfMonthsBefore | eyws/parser.py:544-549 | Start moved back k months from the 1st: it is a valid 1st of the month exactly k months earlier. It fails iff that month's year is outside 1..9999. |
| Dates.ParseIsoDate | eyws/parser.py:602 | `strptime("%Y-%m-%d")` succeeds only on a real calendar date. Any rejection is a ValueError naming the text. |
| Dates.ParseIsoDateParts | eyws/parser.py:602 | Field forms accepted: four year digits; month 1-12 with or without a leading zero; day 1-31 with a leading zero, a leading space or neither. The date parses iff the fields form a valid calendar date. |
| Dates.FormatIsoDate | eyws/parser.py:552-553 | `strftime("%Y-%m-%d")`: the year unpadded, then month and day as two digits each. It has no contract of its own; `Dates.ParseFormatIsoDate` states that `strptime` reads the text back. |
| Dates.ParseFormatIsoDate | eyws/parser.py:552-553 | For years from 1000 on, `strftime("%Y-%m-%d")` text parses back to the same date. |
| Dates.OneDigitMonth | eyws/parser.py:602 | "2024-2-29" is accepted as 29 February 2024. |
| Dates.SpacePaddedDay | eyws/parser.py:602 | "2024-02- 9" is accepted as 9 February 2024. |
| Dates.CalendarChecked | eyws/parser.py:602 | "2023-02-29" is rejected: the date is checked against the calendar, not only the field ranges. |
| Dates.MonthYearLabel | eyws/parser.py:602 | `strftime("%B %Y")`: the English month name, a space, the year. It has no contract of its own; `Dates.MonthYearLabelInjective` states that it tells months apart. |
| Dates.MonthYearLabelInjective | eyws/parser.py:602 | Two "%B %Y" labels are equal only for the same month of the same year. |
| Money.ParseAmount | eyws/parser.py:609 | `Decimal(Amount)` either yields a decimal or fails with the offending text (InvalidOperation). |
| Money.ParseUnsigned | eyws/parser.py:609 | Unsigned digit text with `scale` fraction digits parses to exactly that coefficient and scale, trailing zeros included. |
| Money.ParseNegative | eyws/parser.py:609 | A leading `-` negates the coefficient and keeps the scale. |
| Money.ParseFormatRoundTrip | eyws/parser.py:609 | Every decimal's plain text reads back as the same decimal. |
| Money.Quantize | eyws/parser.py:618 | A result is the half-up cents value of the amount and fits in 28 digits. Failure happens only when every half-up cents value needs more than 28 digits (InvalidOperation). |
| Money.RoundToCentsIsHalfUp | eyws/parser.py:618 | The cents computed are at most half a cent from the amount, and an exact half goes away from zero. |
| Money.HalfUpCentsUnique | eyws/parser.py:618 | At most one cents value meets the half-up rule, so the rounded value is fully determined. |
| Money.QuantizeExactWithinTwoPlaces | eyws/parser.py:618 | An amount with at most two decimals is not changed by rounding. |
| Money.QuantizeIdempotent | eyws/parser.py:618 | Quantizing an amount that is already in cents gives the same cents. |
| Money.TinyNonzeroBecomesZeroCents | eyws/parser.py:611-618 | A non-zero amount under half a cent passes the zero test and is stored as 0.00. |
| Money.HalfCentRoundsAwayFromZero | eyws/parser.py:618 | 0.005 becomes 0.01 and -0.005 becomes -0.01. |
| Money.TiesAreNotBankers | eyws/parser.py:618 | 0.125 becomes 0.13 and 12.005 becomes 12.01: ties round up, not to even. |
| AccountDirectory.GetAccountNames | eyws/parser.py:636-640 | The map has a key for exactly the listed ids. Each id maps to the description of its last entry. |
| AccountDirectory.LastDescriptionIsLastEntry | eyws/parser.py:637-638 | "Last description" is absent iff no entry has the id. Otherwise it belongs to an entry with that id that no later entry with that id follows. |
| CostFetcher.GroupBy | eyws/parser.py:558-565 | LINKED_ACCOUNT comes first. SERVICE is present iff `--ignore-service-usage` is off. |
| CostFetcher.FetchAll | eyws/parser.py:567-588 | Every call uses the same period, MONTHLY, BlendedCost and the group-by. The first call carries no token and each later one the previous answer's token. Calls continue exactly while a non-empty token comes back. The periods are the in-order concatenation of the answered pages' `ResultsByTime`. |
| CostFetcher.SortDescendingIsStableSort | eyws/parser.py:592 | The reference sort orders starts descending, is a permutation, and keeps the relative order of records with equal starts. |
| CostFetcher.SortPeriods | eyws/parser.py:591-595 | The in-place sort leaves the array equal to the reference sort when every record has a start. Otherwise it leaves the array exactly as collected. |
| CostFetcher.InsertAt | eyws/parser.py:592 | A record is inserted right after the last record whose start is not earlier than its own. Every record after that place starts earlier, which is what keeps equal starts in arrival order. |
| CostFetcher.InsertLast | eyws/parser.py:592 | One insertion step: the prefix becomes the stable descending insertion of the next record, and the rest of the array is untouched. |
| PeriodCosts.PeriodicCosts.constructor | eyws/parser.py:710-714 | A new accumulator has the given period, no lists, a total of 0 and no account totals. |
| PeriodCosts.PeriodicCosts.AddCost | eyws/parser.py:716-722 | `total` grows by the cost. The account's total is created or increased by it. Only that account's list gets the `(service, cost, unit)` tuple appended. The invariant tying all fields to the costs added so far is kept. |
| PeriodCosts.AccountTotalsAreSums | eyws/parser.py:718-722 | After any sequence of additions, the account totals have a key exactly for the accounts seen. Each value is the sum of that account's costs. |
| PeriodCosts.AsTuple | eyws/parser.py:704-705 | `as_tuple()`: the cost's service name, cents and unit, in that order. It has no contract of its own; `PeriodCosts.ListsKeepInsertionOrder` states which tuples each list holds. |
| PeriodCosts.ListsKeepInsertionOrder | eyws/parser.py:717 | After any sequence of additions there is a list per account seen. It holds that account's tuples in the order they were added. |
| PeriodCosts.SubtotalsAddUpToTotal | eyws/parser.py:718-722 | Over any list of distinct accounts covering every account seen, the per-account totals add up to `total`. |
| PeriodCosts.SortedItems | eyws/parser.py:621 | `sorted(d.items())` yields one pair per key, with the key's own value, keys strictly ascending. |
| PeriodCosts.SortedItemsUnique | eyws/parser.py:621 | Only one sequence meets that description, so the sorted pairs are determined by the map. |
| PeriodCosts.PeriodicCosts.SortByAccount | eyws/parser.py:621 | The lists become (account, costs) pairs sorted by account. The pairs hold exactly the lists built so far, and the accumulator's invariant still holds. |
| CostReport.PeriodLabel | eyws/parser.py:602-603 | In days mode the label is the raw start text. Otherwise it is "Month YYYY" of the parsed start, or the parse's ValueError. A missing start is a KeyError. |
| CostReport.MonthLabelsTellPeriodsApart | eyws/parser.py:602-603 | Periods of different months get different month labels. |
| CostReport.GroupCost | eyws/parser.py:609-618 | One group's step of the loop. It has no contract of its own; `CostReport.GroupCostSpec` states it. |
| CostReport.GroupCostSpec | eyws/parser.py:609-618 | A group is skipped iff its raw amount is exactly zero. A kept cost carries the account's description, the service `Keys[1]` (or none when ignored), the half-up cents and the unit. The failure cases are: unparseable amount; missing key; unknown account id (KeyError); oversize amount. |
| CostReport.KeptCosts | eyws/parser.py:607-619 | The costs a period keeps, or the first group's error. It has no contract of its own; `CostReport.KeptCostsMatchNonzeroGroups` and `CostReport.KeptCostsFirstError` state it. |
| CostReport.KeptCostsMatchNonzeroGroups | eyws/parser.py:607-619 | When a period succeeds, its costs are exactly its non-zero groups in order, each converted as above. |
| CostReport.KeptCostsFirstError | eyws/parser.py:607-619 | When a period fails, the error is the first failing group's, and every earlier group succeeded. |
| CostReport.ZeroGroupChangesNothing | eyws/parser.py:611 | Inserting a zero-amount group anywhere leaves the period's outcome unchanged. |
| CostReport.SummarizePeriod | eyws/parser.py:602-622 | One period's label and kept costs, or the first error of the two. It has no contract of its own; `CostReport.ReportIsPerPeriod` and `CostReport.BuildPeriod` state what it yields. |
| CostReport.Report | eyws/parser.py:598-624 | A successful report has one summary per period. |
| CostReport.ReportIsPerPeriod | eyws/parser.py:600-622 | The report succeeds iff every period does. Summary i is then period i's, in the sorted order. |
| CostReport.MissingStartFailsReport | eyws/parser.py:591-603 | A period without `TimePeriod.Start` makes the whole report fail, whatever the sort fallback did. |
| CostReport.AddGroups | eyws/parser.py:607-619 | The group loop adds to the accumulator exactly the kept costs of the period. It stops with the first group's error, and the accumulator's invariant is kept. |
| CostReport.BuildPeriod | eyws/parser.py:602-622 | One period's accumulator holds the summary: label, total, account totals and sorted per-account lists of the kept costs. Otherwise the period's error is returned. |
| CostReport.BuildReport | eyws/parser.py:598-624 | The period loop returns one fresh accumulator per period, each holding that period's summary, or the first error. |
| CostReport.SortAndBuild | eyws/parser.py:590-624 | The collected periods are sorted as `SortPeriods` states, and then summarised. |
| CostReport.GetCosts | eyws/parser.py:540-624 | End to end. A range failure is the DateOutOfRange error with no call made. Otherwise: the queries sent (range as ISO text), continuing exactly while a token comes back; the account map; and then either PagesExhausted when the pages run out with a token pending, or the periods equal to the sorted concatenation of the answered pages. The report succeeds iff the range, the paging and every period do. It then has one accumulator per period holding its summary; otherwise the error is the first period's that failed. |
| Instances.CreateNewBlockDeviceMapping | eyws/parser.py:350-365 | Exactly one mapping is returned. Its name, size and type are copied from the options, and DeleteOnTermination is the truth value of the option. `Iops` is present iff the volume type is not "gp2", and then it is `--iops`. |
| Instances.DefaultMapping | eyws/parser.py:37-41 | With default options the mapping is /dev/sda1, 8 GB, gp2, delete on termination, no IOPS. |
| Instances.DeleteFlagIsText | eyws/parser.py:107-109 | A given `--ebs-delete` value switches deletion off only when it is empty. "False" and "0" keep it on. |
| Instances.TagValue | eyws/parser.py:316 | The tag is the bare name for a single instance. Otherwise it is the name, a '-', and then more text. |
| Instances.TagValuesDistinct | eyws/parser.py:308-317 | Instances launched together never get the same Name tag. |
| Instances.NameTags | eyws/parser.py:308-317 | No tags when the name is absent or empty. Otherwise there is one tag per instance, in order, with the name suffixed by `-i` unless only one instance was launched. All values are distinct. |

## Left out

- All I/O is left out: boto3 clients, SMTP, jinja templates, `prettify` printing, the `time.sleep` before tagging, and the other EC2 actions. The two API answers `get_costs` reads are inputs. The account directory is a sequence of `(Value, description)` entries, and the billing API is a sequence of pages, page i being the answer to call i. A page sequence that runs out while a token is still pending stands for the API not answering (`PagesExhausted`).
- `datetime.now()` is an input (`today`). The time of day is dropped, because only the date is ever printed.
- `get_costs` reads the clock up to three times (for the start, for the first-of-month test and for the end). The model reads it once, so a run that crosses midnight, where `start` and `end` come from different days, is not modelled.
- Python's `datetime` range (years 1..9999) is modelled; leaving it is the single `DateOutOfRange` error.
- `strftime("%B %Y")` uses a fixed English month table. Other locales are not modelled.
- `strptime` digits are ASCII only. Python also accepts other Unicode decimal digits; that is not modelled.
- `Money.ParseAmount` accepts plain decimal text only, an optional sign followed by digits with at most one point. Exponents, `NaN`/`Infinity`, surrounding whitespace and underscores are not modelled. The Cost Explorer API does not send them.
- `PeriodicCosts.total` and the account totals add cents exactly. The 28-digit context rounding of Decimal addition is not modelled. It would need sums beyond 10^26 dollars.
- The name tags are the `create_tags` requests as data. The rest of `create_instances` is not part of this model (key pairs, security groups, `run_instances`, waiters and docker provisioning).
- `eyws/ssh.py`, `eyws/docker.py`, `setup.py`, argument parsing and `split_emails` are not part of this model.
- `Dates.ParseFormatIsoDate`: stated for years 1000..9999 only. glibc prints years below 1000 without zero padding, and `strptime` then rejects the text. The report never reaches such years.
- `CostReport.Report`: its own ensures states only the length. Per-period content is stated by `CostReport.ReportIsPerPeriod`.
