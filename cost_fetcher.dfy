/**
 * The billing half of `get_costs`: the requests sent to the cost API, the loop that follows
 * `NextPageToken` and stitches `ResultsByTime` together, and the descending sort by period start.
 */
module CostFetcher {
  import opened Common
  import opened Strings

  // ---------------------------------------------------------------- billing API data

  /** One entry of a period's `Groups`: `Keys`, and `Metrics.BlendedCost.Amount`/`Unit`. */
  datatype Group = Group(keys: seq<string>, amount: string, unit: string)

  /** One entry of `ResultsByTime`; `start` is `TimePeriod.Start`, None when the key is missing. */
  datatype PeriodRecord = PeriodRecord(start: Option<string>, groups: seq<Group>)

  /** One response of `get_cost_and_usage`. */
  datatype Page = Page(resultsByTime: seq<PeriodRecord>, nextPageToken: Option<string>)

  datatype Dimension = LinkedAccount | Service

  /** The `TimePeriod` argument: the start and end dates as "%Y-%m-%d" text. */
  datatype TimePeriod = TimePeriod(start: string, end: string)

  /** The arguments of one `get_cost_and_usage` call. */
  datatype CostQuery = CostQuery(
    timePeriod: TimePeriod,
    granularity: string,
    metrics: seq<string>,
    groupBy: seq<Dimension>,
    nextPageToken: Option<string>)

  const Granularity := "MONTHLY"
  const CostMetric := "BlendedCost"

  /** LINKED_ACCOUNT always, then SERVICE unless `--ignore-service-usage` is set. */
  function GroupBy(ignoreServiceUsage: bool): (g: seq<Dimension>)
    ensures |g| >= 1 && g[0] == LinkedAccount
    ensures Service in g <==> !ignoreServiceUsage
  {
    if ignoreServiceUsage then [LinkedAccount] else [LinkedAccount, Service]
  }

  /** `if not token: break` -- the loop goes on only after a non-empty token. */
  predicate HasMore(p: Page)
  {
    p.nextPageToken.Some? && p.nextPageToken.value != ""
  }

  /** The in-order concatenation of the pages' `ResultsByTime`. */
  function Concat(pages: seq<Page>): seq<PeriodRecord>
  {
    if pages == [] then [] else Concat(pages[..|pages| - 1]) + pages[|pages| - 1].resultsByTime
  }

  /** The query of the call after `calls` earlier ones; each later call carries the previous token. */
  function QueryAt(period: TimePeriod, groupBy: seq<Dimension>, pages: seq<Page>, calls: nat): CostQuery
    requires calls <= |pages|
  {
    CostQuery(period, Granularity, [CostMetric], groupBy,
      if calls == 0 then None else pages[calls - 1].nextPageToken)
  }

  /**
   * The pagination loop. Page i of `pages` is the API's answer to call i. The loop makes
   * calls until an answer has no (or an empty) `NextPageToken`; `periods` is then the
   * concatenation of every answer's `ResultsByTime`. Should `pages` run out while a token
   * is still pending, the API has stopped answering: PagesExhausted.
   */
  method FetchAll(period: TimePeriod, groupBy: seq<Dimension>, pages: seq<Page>)
    returns (periods: Result<seq<PeriodRecord>>, queries: seq<CostQuery>)
    ensures 1 <= |queries| <= |pages| + 1
    ensures forall i :: 0 <= i < |queries| ==> i <= |pages| && queries[i] == QueryAt(period, groupBy, pages, i)
    ensures forall i :: 0 <= i < |queries| - 1 ==> HasMore(pages[i])
    ensures periods.Success? ==> |queries| <= |pages| && !HasMore(pages[|queries| - 1])
    ensures periods.Success? ==> periods.value == Concat(pages[..|queries|])
    ensures periods.Failure? ==> periods.error == PagesExhausted
    ensures periods.Failure? ==> |queries| == |pages| + 1 && forall i :: 0 <= i < |pages| ==> HasMore(pages[i])
  {
    var collected: seq<PeriodRecord> := [];
    var token: Option<string> := None;
    var calls := 0;
    queries := [];
    while true
      invariant calls <= |pages|
      invariant |queries| == calls
      invariant forall i :: 0 <= i < calls ==> queries[i] == QueryAt(period, groupBy, pages, i)
      invariant forall i :: 0 <= i < calls ==> HasMore(pages[i])
      invariant token == (if calls == 0 then None else pages[calls - 1].nextPageToken)
      invariant collected == Concat(pages[..calls])
      decreases |pages| - calls
    {
      queries := queries + [CostQuery(period, Granularity, [CostMetric], groupBy, token)];
      if calls == |pages| {
        periods := Failure(PagesExhausted);
        return;
      }
      var response := pages[calls];
      assert pages[..calls + 1][..calls] == pages[..calls];
      collected := collected + response.resultsByTime;
      token := response.nextPageToken;
      calls := calls + 1;
      if !(token.Some? && token.value != "") {
        periods := Success(collected);
        return;
      }
    }
  }

  // ---------------------------------------------------------------- periods.sort(key=Start, reverse=True)

  predicate AllHaveStart(s: seq<PeriodRecord>)
  {
    forall i :: 0 <= i < |s| ==> s[i].start.Some?
  }

  /** Descending by `TimePeriod.Start` under Python's `str` order. */
  predicate SortedDescending(s: seq<PeriodRecord>)
    requires AllHaveStart(s)
  {
    forall i, j :: 0 <= i < j < |s| ==> LessEq(s[j].start.value, s[i].start.value)
  }

  /**
   * Places `x` into a descending sequence: after every element whose start is not smaller,
   * so that `x` follows the equal keys already there.
   */
  function InsertDescending(x: PeriodRecord, s: seq<PeriodRecord>): (r: seq<PeriodRecord>)
    requires x.start.Some? && AllHaveStart(s)
    ensures |r| == |s| + 1 && AllHaveStart(r)
  {
    if s == [] || LessEq(x.start.value, s[|s| - 1].start.value) then s + [x]
    else InsertDescending(x, s[..|s| - 1]) + [s[|s| - 1]]
  }

  /** The stable descending sort by start, by insertion from the left. */
  function SortDescending(s: seq<PeriodRecord>): (r: seq<PeriodRecord>)
    requires AllHaveStart(s)
    ensures |r| == |s| && AllHaveStart(r)
  {
    if s == [] then [] else InsertDescending(s[|s| - 1], SortDescending(s[..|s| - 1]))
  }

  /** The records whose start is `key`, in their order. */
  function WithStart(s: seq<PeriodRecord>, key: string): seq<PeriodRecord>
  {
    if s == [] then []
    else WithStart(s[..|s| - 1], key) + (if s[|s| - 1].start == Some(key) then [s[|s| - 1]] else [])
  }

  lemma {:induction false} WithStartAppend(a: seq<PeriodRecord>, b: seq<PeriodRecord>, key: string)
    ensures WithStart(a + b, key) == WithStart(a, key) + WithStart(b, key)
  {
    if b == [] {
      assert a + b == a;
    } else {
      assert (a + b)[..|a + b| - 1] == a + b[..|b| - 1];
      WithStartAppend(a, b[..|b| - 1], key);
    }
  }

  lemma {:induction false} InsertPermutes(x: PeriodRecord, s: seq<PeriodRecord>)
    requires x.start.Some? && AllHaveStart(s)
    ensures multiset(InsertDescending(x, s)) == multiset(s) + multiset{x}
  {
    if !(s == [] || LessEq(x.start.value, s[|s| - 1].start.value)) {
      var init := s[..|s| - 1];
      assert s == init + [s[|s| - 1]];
      InsertPermutes(x, init);
    }
  }

  lemma {:induction false} InsertSorted(x: PeriodRecord, s: seq<PeriodRecord>)
    requires x.start.Some? && AllHaveStart(s) && SortedDescending(s)
    ensures SortedDescending(InsertDescending(x, s))
  {
    if s == [] || LessEq(x.start.value, s[|s| - 1].start.value) {
      forall i, j | 0 <= i < j < |s| + 1 ensures LessEq((s + [x])[j].start.value, (s + [x])[i].start.value) {
        if j == |s| && i < |s| - 1 {
          LessEqTransitive(x.start.value, s[|s| - 1].start.value, s[i].start.value);
        }
      }
    } else {
      var init, last := s[..|s| - 1], s[|s| - 1];
      assert s == init + [last];
      InsertSorted(x, init);
      InsertPermutes(x, init);
      var inserted := InsertDescending(x, init);
      LessEqTotal(x.start.value, last.start.value);
      // x is above last, and so is every element of init: last may follow all of them
      forall k | 0 <= k < |inserted| ensures LessEq(last.start.value, inserted[k].start.value) {
        assert inserted[k] in multiset(init) + multiset{x};
        if inserted[k] != x {
          var m :| 0 <= m < |init| && init[m] == inserted[k];
          assert LessEq(s[|s| - 1].start.value, s[m].start.value);
        }
      }
      var r := inserted + [last];
      assert forall k :: 0 <= k < |inserted| ==> r[k] == inserted[k];
    }
  }

  lemma {:induction false} InsertStable(x: PeriodRecord, s: seq<PeriodRecord>, key: string)
    requires x.start.Some? && AllHaveStart(s)
    ensures WithStart(InsertDescending(x, s), key)
      == WithStart(s, key) + (if x.start == Some(key) then [x] else [])
  {
    if s == [] || LessEq(x.start.value, s[|s| - 1].start.value) {
      assert (s + [x])[..|s|] == s;
    } else {
      var init, last := s[..|s| - 1], s[|s| - 1];
      InsertStable(x, init, key);
      var r := InsertDescending(x, init) + [last];
      assert r[..|r| - 1] == InsertDescending(x, init);
      // x is strictly above last, so at most one of them carries `key`
      if x.start == last.start {
        LessEqReflexive(x.start.value);
      }
    }
  }

  /**
   * SortDescending is what Python's stable `sort(key=..., reverse=True)` returns: descending,
   * a permutation of its input, and for every start value the records carrying it keep their
   * input order.
   */
  lemma {:induction false} SortDescendingIsStableSort(s: seq<PeriodRecord>)
    requires AllHaveStart(s)
    ensures SortedDescending(SortDescending(s))
    ensures multiset(SortDescending(s)) == multiset(s)
    ensures forall key :: WithStart(SortDescending(s), key) == WithStart(s, key)
  {
    if s != [] {
      var init := s[..|s| - 1];
      assert s == init + [s[|s| - 1]];
      SortDescendingIsStableSort(init);
      InsertSorted(s[|s| - 1], SortDescending(init));
      InsertPermutes(s[|s| - 1], SortDescending(init));
      forall key ensures WithStart(SortDescending(s), key) == WithStart(s, key) {
        InsertStable(s[|s| - 1], SortDescending(init), key);
        WithStartAppend(init, [s[|s| - 1]], key);
      }
    }
  }

  /** What the sort leaves behind: sorted if every record has a start, otherwise untouched. */
  function SortedPeriods(s: seq<PeriodRecord>): seq<PeriodRecord>
  {
    if AllHaveStart(s) then SortDescending(s) else s
  }

  /**
   * `periods.sort(key=lambda json: json["TimePeriod"]["Start"], reverse=True)` inside
   * `try/except KeyError`: Python computes every key before moving anything, so a record
   * without a start leaves the list exactly as collected.
   */
  method SortPeriods(a: array<PeriodRecord>)
    modifies a
    ensures a[..] == SortedPeriods(old(a[..]))
  {
    if !(forall k :: 0 <= k < a.Length ==> a[k].start.Some?) {
      return;
    }
    ghost var input := a[..];
    var i := 0;
    while i < a.Length
      invariant 0 <= i <= a.Length
      invariant AllHaveStart(input[..i])
      invariant a[..i] == SortDescending(input[..i])
      invariant a[i..] == input[i..]
    {
      assert input[..i + 1][..i] == input[..i] && input[i] == a[i];
      InsertLast(a, i);
      i := i + 1;
    }
    assert input[..a.Length] == input;
  }

  /** One step of insertion sort: moves a[i] down into the descending prefix a[..i]. */
  method InsertLast(a: array<PeriodRecord>, i: nat)
    requires i < a.Length && AllHaveStart(a[..i + 1])
    modifies a
    ensures a[..i + 1] == InsertDescending(old(a[i]), old(a[..i]))
    ensures a[i + 1..] == old(a[i + 1..])
  {
    var x := a[i];
    assert x == a[..i + 1][i];
    ghost var sorted := a[..i];
    assert AllHaveStart(sorted) by {
      assert forall k :: 0 <= k < i ==> sorted[k] == a[..i + 1][k];
    }
    var j := ShiftUp(a, i, x.start.value);
    a[j] := x;
    ShiftedIn(a, i, sorted, x, j);
    InsertAt(x, sorted, j);
  }

  /**
   * Moves every element of a[..i] whose start is earlier than `key`, from the end down to the
   * first that is not, one place up, and returns the hole that leaves.
   */
  method ShiftUp(a: array<PeriodRecord>, i: nat, key: string) returns (j: nat)
    requires i < a.Length && AllHaveStart(a[..i])
    modifies a
    ensures j <= i
    ensures forall k :: 0 <= k < j ==> a[k] == old(a[k])
    ensures forall k :: j < k <= i ==> a[k] == old(a[k - 1])
    ensures forall k :: i < k < a.Length ==> a[k] == old(a[k])
    ensures forall k :: j <= k < i ==> old(a[k]).start.Some? && !LessEq(key, old(a[k]).start.value)
    ensures j == 0 || (old(a[j - 1]).start.Some? && LessEq(key, old(a[j - 1]).start.value))
  {
    ghost var sorted := a[..i];
    j := i;
    while j > 0 && !LessEq(key, a[j - 1].start.value)
      invariant 0 <= j <= i
      invariant forall k :: 0 <= k < j ==> a[k] == sorted[k]
      invariant forall k :: j < k <= i ==> a[k] == sorted[k - 1]
      invariant forall k :: i < k < a.Length ==> a[k] == old(a[k])
      invariant forall k :: j <= k < i ==> !LessEq(key, sorted[k].start.value)
    {
      assert a[j - 1] == sorted[j - 1];
      a[j] := a[j - 1];
      j := j - 1;
    }
  }

  /** An array whose prefix is `s` with `x` placed at `j` and the rest shifted up one. */
  lemma ShiftedIn(a: array<PeriodRecord>, i: nat, s: seq<PeriodRecord>, x: PeriodRecord, j: nat)
    requires i < a.Length && |s| == i && j <= i
    requires forall k :: 0 <= k < j ==> a[k] == s[k]
    requires a[j] == x
    requires forall k :: j < k <= i ==> a[k] == s[k - 1]
    ensures a[..i + 1] == s[..j] + [x] + s[j..]
  {
    var t := s[..j] + [x] + s[j..];
    assert forall k :: 0 <= k <= i ==> a[..i + 1][k] == t[k];
  }

  /**
   * `x` lands right after the last record whose start is not earlier than its own; every
   * record after that place starts earlier.
   */
  lemma {:induction false} InsertAt(x: PeriodRecord, s: seq<PeriodRecord>, j: nat)
    requires x.start.Some? && AllHaveStart(s) && j <= |s|
    requires forall k :: j <= k < |s| ==> !LessEq(x.start.value, s[k].start.value)
    requires j == 0 || LessEq(x.start.value, s[j - 1].start.value)
    ensures InsertDescending(x, s) == s[..j] + [x] + s[j..]
  {
    if |s| == j {
      assert s[..j] == s && s[j..] == [];
    } else {
      var init := s[..|s| - 1];
      assert init[..j] == s[..j];
      assert AllHaveStart(init);
      InsertAt(x, init, j);
      assert s[j..] == init[j..] + [s[|s| - 1]];
    }
  }
}
