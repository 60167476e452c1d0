/**
 * `get_costs`: from the options and today's date to the list of PeriodicCosts the report
 * shows -- the date range, the account directory, the paginated billing query, the sort by
 * period start and the aggregation of every period's groups.
 */
module CostReport {
  import opened Common
  import opened Money
  import opened Dates
  import opened AccountDirectory
  import opened CostFetcher
  import opened PeriodCosts

  // ---------------------------------------------------------------- one period's label

  /**
   * The period's name: its Start text verbatim in days mode, its "%B %Y" rendering otherwise.
   * Both read the Start, so a record without one raises KeyError.
   */
  function PeriodLabel(record: PeriodRecord, daysMode: bool): (r: Result<string>)
    ensures record.start.None? ==> r == Failure(MissingPeriodStart)
    ensures record.start.Some? && daysMode ==> r == Success(record.start.value)
    ensures record.start.Some? && !daysMode ==>
      (r.Success? <==> ParseIsoDate(record.start.value).Success?)
      && (r.Success? ==> r.value == MonthYearLabel(ParseIsoDate(record.start.value).value))
      && (r.Failure? ==> r.error == MalformedDate(record.start.value))
  {
    match record.start
    case None => Failure(MissingPeriodStart)
    case Some(text) =>
      if daysMode then Success(text)
      else
        var date :- ParseIsoDate(text);
        Success(MonthYearLabel(date))
  }

  /**
   * The API writes a period's Start the way strftime does; in month mode two periods of
   * different months then get different labels.
   */
  lemma MonthLabelsTellPeriodsApart(d1: Date, d2: Date, g1: seq<Group>, g2: seq<Group>)
    requires ValidDate(d1) && ValidDate(d2) && d1.year >= 1000 && d2.year >= 1000
    requires d1.year != d2.year || d1.month != d2.month
    ensures PeriodLabel(PeriodRecord(Some(FormatIsoDate(d1)), g1), false).Success?
    ensures PeriodLabel(PeriodRecord(Some(FormatIsoDate(d2)), g2), false).Success?
    ensures PeriodLabel(PeriodRecord(Some(FormatIsoDate(d1)), g1), false).value
         != PeriodLabel(PeriodRecord(Some(FormatIsoDate(d2)), g2), false).value
  {
    ParseFormatIsoDate(d1);
    ParseFormatIsoDate(d2);
    if MonthYearLabel(d1) == MonthYearLabel(d2) {
      MonthYearLabelInjective(d1, d2);
    }
  }

  // ---------------------------------------------------------------- one group

  /** `value != 0` for the group's amount; text that is not a number raises first. */
  predicate NonzeroAmount(g: Group)
  {
    ParseAmount(g.amount).Success? && !IsZero(ParseAmount(g.amount).value)
  }

  /** What a kept cost says about the group it came from. */
  predicate CostFromGroup(c: ServiceUsageCost, g: Group, accounts: map<string, string>, ignoreServiceUsage: bool)
  {
    && NonzeroAmount(g)
    && |g.keys| >= 1 && g.keys[0] in accounts && c.account == accounts[g.keys[0]]
    && (if ignoreServiceUsage then c.serviceName == None
        else |g.keys| >= 2 && c.serviceName == Some(g.keys[1]))
    && c.unit == g.unit
    && IsHalfUpCents(ParseAmount(g.amount).value, c.cost)
  }

  /**
   * The body of the loop over a period's groups: parse the amount; skip it when it is zero;
   * otherwise look up the account's name, take the service unless service usage is ignored,
   * and round the amount to cents.
   */
  function GroupCost(g: Group, accounts: map<string, string>, ignoreServiceUsage: bool)
    : Result<Option<ServiceUsageCost>>
  {
    var value :- ParseAmount(g.amount);
    if IsZero(value) then Success(None)
    else if |g.keys| == 0 then Failure(MissingGroupKey)
    else if g.keys[0] !in accounts then Failure(UnknownAccount(g.keys[0]))
    else if !ignoreServiceUsage && |g.keys| < 2 then Failure(MissingGroupKey)
    else
      var service := if ignoreServiceUsage then None else Some(g.keys[1]);
      var cents :- Quantize(value);
      Success(Some(ServiceUsageCost(accounts[g.keys[0]], service, cents, g.unit)))
  }

  /**
   * A group is skipped exactly when its amount is zero; a kept cost carries the account's
   * name, the service, the unit and the amount rounded half-up to cents; a group fails on
   * malformed text, on a missing key or unknown account, or on an amount too large to round.
   */
  lemma GroupCostSpec(g: Group, accounts: map<string, string>, ignore: bool)
    ensures var r := GroupCost(g, accounts, ignore);
      && (r.Success? && r.value.Some? ==> CostFromGroup(r.value.value, g, accounts, ignore))
      && (r.Success? && r.value.None? <==> ParseAmount(g.amount).Success? && IsZero(ParseAmount(g.amount).value))
      && (ParseAmount(g.amount).Failure? ==> r == Failure(MalformedAmount(g.amount)))
      && (ParseAmount(g.amount).Success? && !IsZero(ParseAmount(g.amount).value) ==>
          && (|g.keys| == 0 ==> r == Failure(MissingGroupKey))
          && (|g.keys| >= 1 && g.keys[0] !in accounts ==> r == Failure(UnknownAccount(g.keys[0]))))
      && (r.Failure? && ParseAmount(g.amount).Success? ==>
          || |g.keys| == 0 || g.keys[0] !in accounts
          || (!ignore && |g.keys| < 2)
          || forall q :: IsHalfUpCents(ParseAmount(g.amount).value, q) ==> Abs(q) >= CoefficientLimit)
  {
  }

  /** The outcome of every group of a period, in order. */
  function Outcomes(groups: seq<Group>, accounts: map<string, string>, ignore: bool)
    : seq<Result<Option<ServiceUsageCost>>>
  {
    Map(groups, GroupStep(accounts, ignore))
  }

  /** The loop body as a step over one group. */
  function GroupStep(accounts: map<string, string>, ignore: bool): Group -> Result<Option<ServiceUsageCost>>
  {
    g => GroupCost(g, accounts, ignore)
  }

  /** The costs a period keeps, in group order; the first group that raises ends it. */
  function KeptCosts(groups: seq<Group>, accounts: map<string, string>, ignore: bool)
    : Result<seq<ServiceUsageCost>>
  {
    var kept :- Sequence(Outcomes(groups, accounts, ignore));
    Success(Somes(kept))
  }

  /** The groups whose amount is a non-zero number. */
  function NonzeroGroups(groups: seq<Group>): seq<Group>
  {
    Filter(groups, NonzeroAmount)
  }

  /** One group's outcome, seen from its parts: kept iff non-zero, and then converted as stated. */
  lemma GroupOutcome(g: Group, accounts: map<string, string>, ignore: bool, k: Option<ServiceUsageCost>)
    requires GroupCost(g, accounts, ignore) == Success(k)
    ensures k.Some? <==> NonzeroAmount(g)
    ensures k.Some? ==> CostFromGroup(k.value, g, accounts, ignore)
  {
    GroupCostSpec(g, accounts, ignore);
  }

  /** A period's costs match, one for one and in order, its groups with a non-zero amount. */
  lemma KeptCostsMatchNonzeroGroups(groups: seq<Group>, accounts: map<string, string>, ignore: bool)
    requires KeptCosts(groups, accounts, ignore).Success?
    ensures var cs := KeptCosts(groups, accounts, ignore).value;
      && |cs| == |NonzeroGroups(groups)|
      && forall i :: 0 <= i < |cs| ==> CostFromGroup(cs[i], NonzeroGroups(groups)[i], accounts, ignore)
  {
    var outs := Outcomes(groups, accounts, ignore);
    SequenceSucceeds(outs);
    var kept := Sequence(outs).value;
    forall i | 0 <= i < |groups|
      ensures kept[i].Some? <==> NonzeroAmount(groups[i])
      ensures kept[i].Some? ==> CostFromGroup(kept[i].value, groups[i], accounts, ignore)
    {
      assert outs[i] == GroupCost(groups[i], accounts, ignore);
      GroupOutcome(groups[i], accounts, ignore, kept[i]);
    }
    SomesMatchFilter(groups, kept, NonzeroAmount, (c, g) => CostFromGroup(c, g, accounts, ignore));
  }

  /** The error a period reports is that of its first group that fails. */
  lemma KeptCostsFirstError(groups: seq<Group>, accounts: map<string, string>, ignore: bool)
    requires KeptCosts(groups, accounts, ignore).Failure?
    ensures exists i :: (0 <= i < |groups|
      && GroupCost(groups[i], accounts, ignore) == Failure(KeptCosts(groups, accounts, ignore).error)
      && forall j :: 0 <= j < i ==> GroupCost(groups[j], accounts, ignore).Success?)
  {
    var outs := Outcomes(groups, accounts, ignore);
    SequenceFirstError(outs);
    var i :| 0 <= i < |outs| && outs[i] == Failure(Sequence(outs).error)
      && forall j :: 0 <= j < i ==> outs[j].Success?;
    assert outs[i] == GroupCost(groups[i], accounts, ignore);
    assert forall j :: 0 <= j < i ==> outs[j] == GroupCost(groups[j], accounts, ignore);
  }

  /**
   * A group whose amount is zero is skipped before anything else about it is read: adding it
   * anywhere changes nothing, even when its keys name no known account.
   */
  lemma ZeroGroupChangesNothing(xs: seq<Group>, g: Group, ys: seq<Group>, accounts: map<string, string>, ignore: bool)
    requires ParseAmount(g.amount).Success? && IsZero(ParseAmount(g.amount).value)
    ensures KeptCosts(xs + [g] + ys, accounts, ignore) == KeptCosts(xs + ys, accounts, ignore)
  {
    var f := GroupStep(accounts, ignore);
    var ox, oy := Map(xs, f), Map(ys, f);
    assert Map([g], f) == [Success(None)];
    MapConcat(xs, [g], f);
    MapConcat(xs + [g], ys, f);
    MapConcat(xs, ys, f);
    assert Outcomes(xs + [g] + ys, accounts, ignore) == ox + [Success(None)] + oy;
    assert Outcomes(xs + ys, accounts, ignore) == ox + oy;
    SequenceSkipsNone(ox, oy);
  }

  // ---------------------------------------------------------------- one period, all periods

  /** What one period of the report holds: its label and its kept costs. */
  datatype PeriodSummary = PeriodSummary(name: string, costs: seq<ServiceUsageCost>)

  function SummarizePeriod(record: PeriodRecord, accounts: map<string, string>, opts: CostOptions)
    : Result<PeriodSummary>
  {
    var name :- PeriodLabel(record, DaysMode(opts));
    var costs :- KeptCosts(record.groups, accounts, opts.ignoreServiceUsage);
    Success(PeriodSummary(name, costs))
  }

  function Summaries(records: seq<PeriodRecord>, accounts: map<string, string>, opts: CostOptions)
    : seq<Result<PeriodSummary>>
  {
    Map(records, r => SummarizePeriod(r, accounts, opts))
  }

  /** All periods in order; the first period that raises ends the report. */
  function Report(records: seq<PeriodRecord>, accounts: map<string, string>, opts: CostOptions)
    : (r: Result<seq<PeriodSummary>>)
    ensures r.Success? ==> |r.value| == |records|
  {
    SequenceSucceeds(Summaries(records, accounts, opts));
    Sequence(Summaries(records, accounts, opts))
  }

  /** A report lists each period's summary at the period's position, and fails if one fails. */
  lemma ReportIsPerPeriod(records: seq<PeriodRecord>, accounts: map<string, string>, opts: CostOptions)
    ensures Report(records, accounts, opts).Success? <==>
      forall i :: 0 <= i < |records| ==> SummarizePeriod(records[i], accounts, opts).Success?
    ensures Report(records, accounts, opts).Success? ==>
      |Report(records, accounts, opts).value| == |records|
      && forall i :: 0 <= i < |records| ==>
        SummarizePeriod(records[i], accounts, opts) == Success(Report(records, accounts, opts).value[i])
  {
    var outs := Summaries(records, accounts, opts);
    SequenceSucceeds(outs);
    assert forall i :: 0 <= i < |records| ==> outs[i] == SummarizePeriod(records[i], accounts, opts);
  }

  /**
   * A single record without a Start fails the whole report: the sort skips such a list, but
   * the aggregation still reads every record's Start.
   */
  lemma MissingStartFailsReport(records: seq<PeriodRecord>, accounts: map<string, string>, opts: CostOptions, k: nat)
    requires k < |records| && records[k].start.None?
    ensures Report(records, accounts, opts).Failure?
  {
    ReportIsPerPeriod(records, accounts, opts);
    assert SummarizePeriod(records[k], accounts, opts).Failure?;
  }

  // ---------------------------------------------------------------- building the PeriodicCosts objects

  /** `o` is the frozen PeriodicCosts object for `s`. */
  ghost predicate Holds(o: PeriodicCosts, s: PeriodSummary)
    reads o
  {
    o.Valid() && o.period == s.name && o.added == s.costs && o.accountServiceUsage.SortedByAccount?
  }

  /** The outcomes of the first `i` groups succeed with `kept`. */
  ghost predicate KeptSoFar(groups: seq<Group>, i: nat, accounts: map<string, string>, ignore: bool,
                            kept: seq<Option<ServiceUsageCost>>)
    requires i <= |groups|
  {
    Sequence(Outcomes(groups, accounts, ignore)[..i]) == Success(kept)
  }

  lemma KeptSoFarStep(groups: seq<Group>, i: nat, accounts: map<string, string>, ignore: bool,
                      kept: seq<Option<ServiceUsageCost>>)
    requires i < |groups| && KeptSoFar(groups, i, accounts, ignore, kept)
    requires GroupCost(groups[i], accounts, ignore).Success?
    ensures var o := GroupCost(groups[i], accounts, ignore).value;
      && KeptSoFar(groups, i + 1, accounts, ignore, kept + [o])
      && Somes(kept + [o]) == Somes(kept) + (if o.Some? then [o.value] else [])
  {
    var outs := Outcomes(groups, accounts, ignore);
    var o := GroupCost(groups[i], accounts, ignore).value;
    assert outs[i] == GroupCost(groups[i], accounts, ignore);
    SequencePrefixStep(outs, i, kept);
    assert (kept + [o])[..|kept|] == kept;
  }

  lemma KeptSoFarFails(groups: seq<Group>, i: nat, accounts: map<string, string>, ignore: bool,
                       kept: seq<Option<ServiceUsageCost>>)
    requires i < |groups| && KeptSoFar(groups, i, accounts, ignore, kept)
    requires GroupCost(groups[i], accounts, ignore).Failure?
    ensures KeptCosts(groups, accounts, ignore) == Failure(GroupCost(groups[i], accounts, ignore).error)
  {
    var outs := Outcomes(groups, accounts, ignore);
    SequenceSucceeds(outs[..i]);
    assert forall j :: 0 <= j < i ==> outs[j] == outs[..i][j];
    SequenceFailsAt(outs, i);
  }

  lemma KeptSoFarDone(groups: seq<Group>, accounts: map<string, string>, ignore: bool,
                      kept: seq<Option<ServiceUsageCost>>)
    requires KeptSoFar(groups, |groups|, accounts, ignore, kept)
    ensures KeptCosts(groups, accounts, ignore) == Success(Somes(kept))
  {
    var outs := Outcomes(groups, accounts, ignore);
    assert outs[..|groups|] == outs;
  }

  /**
   * The loop over a period's groups: adds each kept cost to `costs`, stopping at the first
   * group that raises.
   */
  method AddGroups(costs: PeriodicCosts, groups: seq<Group>, accounts: map<string, string>, ignore: bool)
    returns (failure: Option<Error>)
    requires costs.Valid() && costs.accountServiceUsage.ByAccount? && costs.added == []
    modifies costs
    ensures costs.Valid() && costs.accountServiceUsage.ByAccount?
    ensures failure.None? <==> KeptCosts(groups, accounts, ignore).Success?
    ensures failure.None? ==> costs.added == KeptCosts(groups, accounts, ignore).value
    ensures failure.Some? ==> failure.value == KeptCosts(groups, accounts, ignore).error
  {
    ghost var kept: seq<Option<ServiceUsageCost>> := [];
    var i := 0;
    while i < |groups|
      invariant 0 <= i <= |groups|
      invariant costs.Valid() && costs.accountServiceUsage.ByAccount?
      invariant KeptSoFar(groups, i, accounts, ignore, kept) && costs.added == Somes(kept)
    {
      var outcome := GroupCost(groups[i], accounts, ignore);
      if outcome.Failure? {
        KeptSoFarFails(groups, i, accounts, ignore, kept);
        return Some(outcome.error);
      }
      KeptSoFarStep(groups, i, accounts, ignore, kept);
      if outcome.value.Some? {
        costs.AddCost(outcome.value.value);
      }
      kept := kept + [outcome.value];
      i := i + 1;
    }
    KeptSoFarDone(groups, accounts, ignore, kept);
    return None;
  }

  /** One iteration of the loop over periods: label, add every kept cost, sort by account. */
  method BuildPeriod(record: PeriodRecord, accounts: map<string, string>, opts: CostOptions)
    returns (r: Result<PeriodicCosts>)
    ensures r.Success? <==> SummarizePeriod(record, accounts, opts).Success?
    ensures r.Success? ==> fresh(r.value) && Holds(r.value, SummarizePeriod(record, accounts, opts).value)
    ensures r.Failure? ==> r.error == SummarizePeriod(record, accounts, opts).error
  {
    var name := PeriodLabel(record, DaysMode(opts));
    if name.Failure? {
      return Failure(name.error);
    }
    var costs := new PeriodicCosts(name.value);
    var failure := AddGroups(costs, record.groups, accounts, opts.ignoreServiceUsage);
    if failure.Some? {
      return Failure(failure.value);
    }
    costs.SortByAccount();
    return Success(costs);
  }

  /** The first `i` periods summarize to `done`. */
  ghost predicate ReportSoFar(records: seq<PeriodRecord>, i: nat, accounts: map<string, string>, opts: CostOptions,
                              done: seq<PeriodSummary>)
    requires i <= |records|
  {
    Sequence(Summaries(records, accounts, opts)[..i]) == Success(done)
  }

  lemma ReportSoFarStep(records: seq<PeriodRecord>, i: nat, accounts: map<string, string>, opts: CostOptions,
                        done: seq<PeriodSummary>)
    requires i < |records| && ReportSoFar(records, i, accounts, opts, done)
    requires SummarizePeriod(records[i], accounts, opts).Success?
    ensures ReportSoFar(records, i + 1, accounts, opts, done + [SummarizePeriod(records[i], accounts, opts).value])
  {
    var outs := Summaries(records, accounts, opts);
    assert outs[i] == SummarizePeriod(records[i], accounts, opts);
    SequencePrefixStep(outs, i, done);
  }

  lemma ReportSoFarFails(records: seq<PeriodRecord>, i: nat, accounts: map<string, string>, opts: CostOptions,
                         done: seq<PeriodSummary>)
    requires i < |records| && ReportSoFar(records, i, accounts, opts, done)
    requires SummarizePeriod(records[i], accounts, opts).Failure?
    ensures Report(records, accounts, opts) == Failure(SummarizePeriod(records[i], accounts, opts).error)
  {
    var outs := Summaries(records, accounts, opts);
    SequenceSucceeds(outs[..i]);
    assert forall j :: 0 <= j < i ==> outs[j] == outs[..i][j];
    SequenceFailsAt(outs, i);
  }

  lemma ReportSoFarDone(records: seq<PeriodRecord>, accounts: map<string, string>, opts: CostOptions,
                        done: seq<PeriodSummary>)
    requires ReportSoFar(records, |records|, accounts, opts, done)
    ensures Report(records, accounts, opts) == Success(done)
  {
    assert Summaries(records, accounts, opts)[..|records|] == Summaries(records, accounts, opts);
  }

  /** The loop over the sorted periods. */
  method BuildReport(records: seq<PeriodRecord>, accounts: map<string, string>, opts: CostOptions)
    returns (r: Result<seq<PeriodicCosts>>)
    ensures r.Success? <==> Report(records, accounts, opts).Success?
    ensures r.Success? ==> |r.value| == |records| && |Report(records, accounts, opts).value| == |records|
    ensures r.Success? ==> forall i :: 0 <= i < |records| ==>
      fresh(r.value[i]) && Holds(r.value[i], Report(records, accounts, opts).value[i])
    ensures r.Failure? ==> r.error == Report(records, accounts, opts).error
  {
    var built: seq<PeriodicCosts> := [];
    ghost var done: seq<PeriodSummary> := [];
    var i := 0;
    while i < |records|
      invariant 0 <= i <= |records| && |built| == i && |done| == i
      invariant ReportSoFar(records, i, accounts, opts, done)
      invariant forall k :: 0 <= k < i ==> fresh(built[k]) && Holds(built[k], done[k])
    {
      var period := BuildPeriod(records[i], accounts, opts);
      if period.Failure? {
        ReportSoFarFails(records, i, accounts, opts, done);
        return Failure(period.error);
      }
      ReportSoFarStep(records, i, accounts, opts, done);
      built := built + [period.value];
      done := done + [SummarizePeriod(records[i], accounts, opts).value];
      i := i + 1;
    }
    ReportSoFarDone(records, accounts, opts, done);
    return Success(built);
  }

  // ---------------------------------------------------------------- get_costs

  /**
   * The whole pipeline. Today's date, the directory listing and the billing API's pages are
   * inputs; `queries` are the `get_cost_and_usage` calls made. `accounts` and `records` name the
   * account map that was built and the records in the order they were aggregated.
   */
  method GetCosts(opts: CostOptions, today: Date, directory: seq<DimensionValue>, pages: seq<Page>)
    returns (report: Result<seq<PeriodicCosts>>, queries: seq<CostQuery>,
             ghost accounts: map<string, string>, ghost records: seq<PeriodRecord>)
    requires ValidDate(today)
    ensures ResolveRange(opts, today).Failure? ==> report == Failure(DateOutOfRange) && queries == []
    ensures ResolveRange(opts, today).Success? ==>
      var period := TimePeriod(FormatIsoDate(ResolveRange(opts, today).value.start), FormatIsoDate(today));
      && 1 <= |queries| <= |pages| + 1
      && (forall i :: 0 <= i < |queries| ==>
           i <= |pages| && queries[i] == QueryAt(period, GroupBy(opts.ignoreServiceUsage), pages, i))
      && (forall i :: 0 <= i < |queries| - 1 ==> i < |pages| && HasMore(pages[i]))
    ensures ResolveRange(opts, today).Success? ==>
      && accounts.Keys == Ids(directory)
      && forall id :: id in accounts ==> LastDescription(directory, id) == Some(accounts[id])
    ensures ResolveRange(opts, today).Success? && |queries| == |pages| + 1 ==>
      && report == Failure(PagesExhausted)
      && forall i :: 0 <= i < |pages| ==> HasMore(pages[i])
    ensures ResolveRange(opts, today).Success? && |queries| <= |pages| ==>
      && !HasMore(pages[|queries| - 1])
      && records == SortedPeriods(Concat(pages[..|queries|]))
      && (report.Success? <==> Report(records, accounts, opts).Success?)
      && (report.Failure? ==> report.error == Report(records, accounts, opts).error)
    ensures report.Success? ==>
      && ResolveRange(opts, today).Success?
      && |queries| <= |pages|
      && |report.value| == |records|
      && forall i :: 0 <= i < |records| ==>
        fresh(report.value[i]) && Holds(report.value[i], Report(records, accounts, opts).value[i])
  {
    var range := ResolveRange(opts, today);
    if range.Failure? {
      return Failure(DateOutOfRange), [], map[], [];
    }
    var start, end := FormatIsoDate(range.value.start), FormatIsoDate(today);
    var names := GetAccountNames(directory);
    accounts := names;
    var fetched;
    fetched, queries := FetchAll(TimePeriod(start, end), GroupBy(opts.ignoreServiceUsage), pages);
    if fetched.Failure? {
      return Failure(fetched.error), queries, accounts, [];
    }
    report, records := SortAndBuild(fetched.value, names, opts);
  }

  /** The sort of the collected periods, then the loop over them. */
  method SortAndBuild(periods: seq<PeriodRecord>, accounts: map<string, string>, opts: CostOptions)
    returns (report: Result<seq<PeriodicCosts>>, ghost records: seq<PeriodRecord>)
    ensures records == SortedPeriods(periods)
    ensures report.Success? <==> Report(records, accounts, opts).Success?
    ensures report.Success? ==> |report.value| == |records| && forall i :: 0 <= i < |records| ==>
      fresh(report.value[i]) && Holds(report.value[i], Report(records, accounts, opts).value[i])
    ensures report.Failure? ==> report.error == Report(records, accounts, opts).error
  {
    var a := new PeriodRecord[|periods|](k requires 0 <= k < |periods| => periods[k]);
    assert a[..] == periods;
    SortPeriods(a);
    var sorted := a[..];
    records := sorted;
    report := BuildReport(sorted, accounts, opts);
  }
}
