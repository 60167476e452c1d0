/**
 * `ServiceUsageCost` and `PeriodicCosts`: one period's costs, accumulated cost by cost into a
 * running total, per-account subtotals and per-account lists, then frozen into a list of
 * (account, costs) pairs sorted by account.
 */
module PeriodCosts {
  import opened Common
  import opened Strings

  /** One kept cost; `cost` is already quantized, in cents. */
  datatype ServiceUsageCost = ServiceUsageCost(account: string, serviceName: Option<string>, cost: int, unit: string)

  /** `ServiceUsageCost.as_tuple()`: (service_name, cost, unit). */
  datatype CostTuple = CostTuple(serviceName: Option<string>, cost: int, unit: string)

  function AsTuple(c: ServiceUsageCost): CostTuple
  {
    CostTuple(c.serviceName, c.cost, c.unit)
  }

  /**
   * `account_service_usage`: a defaultdict of lists while costs are added, and the list
   * `sorted(items())` once the period is complete.
   */
  datatype UsageTable =
    | ByAccount(lists: map<string, seq<CostTuple>>)
    | SortedByAccount(pairs: seq<(string, seq<CostTuple>)>)

  // ---------------------------------------------------------------- what a run of add_cost builds

  /** The sum of the costs. */
  function Total(costs: seq<ServiceUsageCost>): int
  {
    if costs == [] then 0 else Total(costs[..|costs| - 1]) + costs[|costs| - 1].cost
  }

  /** The costs charged to `account`, in the order they were added. */
  function CostsOf(costs: seq<ServiceUsageCost>, account: string): seq<ServiceUsageCost>
  {
    if costs == [] then []
    else
      var last := costs[|costs| - 1];
      CostsOf(costs[..|costs| - 1], account) + (if last.account == account then [last] else [])
  }

  function Accounts(costs: seq<ServiceUsageCost>): set<string>
  {
    set i | 0 <= i < |costs| :: costs[i].account
  }

  /** `account_total` after adding `costs` one by one. */
  function AccountTotals(costs: seq<ServiceUsageCost>): map<string, int>
  {
    if costs == [] then map[]
    else
      var before := AccountTotals(costs[..|costs| - 1]);
      var c := costs[|costs| - 1];
      before[c.account := if c.account !in before then c.cost else before[c.account] + c.cost]
  }

  /** `account_service_usage` (as a dict) after adding `costs` one by one. */
  function Lists(costs: seq<ServiceUsageCost>): map<string, seq<CostTuple>>
  {
    if costs == [] then map[]
    else
      var before := Lists(costs[..|costs| - 1]);
      var c := costs[|costs| - 1];
      before[c.account := (if c.account in before then before[c.account] else []) + [AsTuple(c)]]
  }

  function Tuples(costs: seq<ServiceUsageCost>): seq<CostTuple>
  {
    if costs == [] then [] else Tuples(costs[..|costs| - 1]) + [AsTuple(costs[|costs| - 1])]
  }

  lemma AccountsOfPrefix(costs: seq<ServiceUsageCost>)
    requires costs != []
    ensures Accounts(costs) == Accounts(costs[..|costs| - 1]) + {costs[|costs| - 1].account}
  {
    var init := costs[..|costs| - 1];
    forall a | a in Accounts(costs) ensures a in Accounts(init) + {costs[|costs| - 1].account} {
      var i :| 0 <= i < |costs| && costs[i].account == a;
      if i < |init| {
        assert init[i].account == a;
      }
    }
    forall a | a in Accounts(init) ensures a in Accounts(costs) {
      var i :| 0 <= i < |init| && init[i].account == a;
      assert costs[i].account == a;
    }
  }

  /** The last cost extends its own account's list and leaves the other accounts' lists alone. */
  lemma CostsOfLast(costs: seq<ServiceUsageCost>, a: string)
    requires costs != []
    ensures var init, c := costs[..|costs| - 1], costs[|costs| - 1];
      && (c.account == a ==> CostsOf(costs, a) == CostsOf(init, a) + [c]
                             && Total(CostsOf(costs, a)) == Total(CostsOf(init, a)) + c.cost
                             && Tuples(CostsOf(costs, a)) == Tuples(CostsOf(init, a)) + [AsTuple(c)])
      && (c.account != a ==> CostsOf(costs, a) == CostsOf(init, a))
  {
    var prior := CostsOf(costs[..|costs| - 1], a);
    assert (prior + [costs[|costs| - 1]])[..|prior|] == prior;
  }

  lemma {:induction false} CostsOfUnseen(costs: seq<ServiceUsageCost>, a: string)
    requires a !in Accounts(costs)
    ensures CostsOf(costs, a) == []
  {
    if costs != [] {
      AccountsOfPrefix(costs);
      CostsOfUnseen(costs[..|costs| - 1], a);
    }
  }

  lemma {:induction false} AccountTotalOf(costs: seq<ServiceUsageCost>, a: string)
    ensures a in AccountTotals(costs) <==> a in Accounts(costs)
    ensures a in AccountTotals(costs) ==> AccountTotals(costs)[a] == Total(CostsOf(costs, a))
  {
    if costs != [] {
      var init := costs[..|costs| - 1];
      AccountTotalOf(init, a);
      AccountsOfPrefix(costs);
      CostsOfLast(costs, a);
      if a !in Accounts(init) {
        CostsOfUnseen(init, a);
      }
    }
  }

  /**
   * After any sequence of add_cost calls, `account_total` has a key exactly for each account
   * seen, and its value for an account is the sum of that account's costs.
   */
  lemma AccountTotalsAreSums(costs: seq<ServiceUsageCost>)
    ensures AccountTotals(costs).Keys == Accounts(costs)
    ensures forall a :: a in AccountTotals(costs) ==> AccountTotals(costs)[a] == Total(CostsOf(costs, a))
  {
    forall a ensures (a in AccountTotals(costs) <==> a in Accounts(costs))
      && (a in AccountTotals(costs) ==> AccountTotals(costs)[a] == Total(CostsOf(costs, a)))
    {
      AccountTotalOf(costs, a);
    }
  }

  lemma {:induction false} ListOf(costs: seq<ServiceUsageCost>, a: string)
    ensures a in Lists(costs) <==> a in Accounts(costs)
    ensures a in Lists(costs) ==> Lists(costs)[a] == Tuples(CostsOf(costs, a))
  {
    if costs != [] {
      var init := costs[..|costs| - 1];
      ListOf(init, a);
      AccountsOfPrefix(costs);
      CostsOfLast(costs, a);
      if a !in Accounts(init) {
        CostsOfUnseen(init, a);
      }
    }
  }

  /**
   * After any sequence of add_cost calls, each account's list holds the (service, cost, unit)
   * tuples of that account's costs, in insertion order.
   */
  lemma ListsKeepInsertionOrder(costs: seq<ServiceUsageCost>)
    ensures Lists(costs).Keys == Accounts(costs)
    ensures forall a :: a in Lists(costs) ==> Lists(costs)[a] == Tuples(CostsOf(costs, a))
  {
    forall a ensures (a in Lists(costs) <==> a in Accounts(costs))
      && (a in Lists(costs) ==> Lists(costs)[a] == Tuples(CostsOf(costs, a)))
    {
      ListOf(costs, a);
    }
  }

  // ---------------------------------------------------------------- sorted(account_service_usage.items())

  /** The pairs list every key of `m` once, with its value, in strictly ascending key order. */
  ghost predicate IsSortedItems<V>(pairs: seq<(string, V)>, m: map<string, V>)
  {
    && (forall i, j :: 0 <= i < j < |pairs| ==> Less(pairs[i].0, pairs[j].0))
    && (forall i :: 0 <= i < |pairs| ==> pairs[i].0 in m && m[pairs[i].0] == pairs[i].1)
    && (forall k :: k in m ==> exists i :: 0 <= i < |pairs| && pairs[i].0 == k)
  }

  /** A finite non-empty set of strings has a least element. */
  lemma {:induction false} LeastExists(s: set<string>)
    requires s != {}
    ensures exists k :: k in s && forall x :: x in s ==> LessEq(k, x)
  {
    var y :| y in s;
    if s == {y} {
      LessEqReflexive(y);
    } else {
      LeastExists(s - {y});
      var k :| k in s - {y} && forall x :: x in s - {y} ==> LessEq(k, x);
      LessEqTotal(k, y);
      if LessEq(k, y) {
        assert forall x :: x in s ==> LessEq(k, x);
      } else {
        forall x | x in s ensures LessEq(y, x) {
          if x != y {
            LessEqTransitive(y, k, x);
          } else {
            LessEqReflexive(y);
          }
        }
      }
    }
  }

  /** `sorted(d.items())` on a dict with string keys: keys are distinct, so values never compare. */
  method SortedItems<V>(m: map<string, V>) returns (pairs: seq<(string, V)>)
    ensures IsSortedItems(pairs, m)
  {
    pairs := [];
    var rest := m.Keys;
    while rest != {}
      invariant rest <= m.Keys
      invariant forall i, j :: 0 <= i < j < |pairs| ==> Less(pairs[i].0, pairs[j].0)
      invariant forall i :: 0 <= i < |pairs| ==> pairs[i].0 in m && pairs[i].0 !in rest && m[pairs[i].0] == pairs[i].1
      invariant forall k :: k in m ==> k in rest || exists i :: 0 <= i < |pairs| && pairs[i].0 == k
      invariant forall i, k :: 0 <= i < |pairs| && k in rest ==> Less(pairs[i].0, k)
      decreases rest
    {
      LeastExists(rest);
      var k :| k in rest && forall x :: x in rest ==> LessEq(k, x);
      forall i, x | 0 <= i < |pairs| + 1 && x in rest - {k} ensures Less((pairs + [(k, m[k])])[i].0, x) {
        if i < |pairs| {
          assert Less(pairs[i].0, x);
        } else {
          assert LessEq(k, x) && k != x;
        }
      }
      var pairs' := pairs + [(k, m[k])];
      forall x | x in m ensures x in rest - {k} || exists i :: 0 <= i < |pairs'| && pairs'[i].0 == x {
        if x == k {
          assert pairs'[|pairs|].0 == x;
        } else if x !in rest {
          var i :| 0 <= i < |pairs| && pairs[i].0 == x;
          assert pairs'[i].0 == x;
        }
      }
      pairs := pairs';
      rest := rest - {k};
    }
  }

  lemma SortedItemsEmpty<V>(p: seq<(string, V)>, m: map<string, V>)
    requires IsSortedItems(p, m)
    ensures p == [] <==> m == map[]
  {
    if p != [] {
      assert p[0].0 in m;
    }
    if m != map[] {
      var k :| k in m;
      var i :| 0 <= i < |p| && p[i].0 == k;
    }
  }

  lemma SortedItemsHead<V>(p: seq<(string, V)>, m: map<string, V>)
    requires IsSortedItems(p, m) && p != []
    ensures forall k :: k in m ==> LessEq(p[0].0, k)
  {
    forall k | k in m ensures LessEq(p[0].0, k) {
      var i :| 0 <= i < |p| && p[i].0 == k;
      if i == 0 {
        LessEqReflexive(k);
      } else {
        assert Less(p[0].0, p[i].0);
      }
    }
  }

  lemma SortedItemsTail<V>(p: seq<(string, V)>, m: map<string, V>)
    requires IsSortedItems(p, m) && p != []
    ensures IsSortedItems(p[1..], m - {p[0].0})
  {
    var m' := m - {p[0].0};
    forall k | k in m' ensures exists i :: 0 <= i < |p[1..]| && p[1..][i].0 == k {
      var i :| 0 <= i < |p| && p[i].0 == k;
      assert p[1..][i - 1].0 == k;
    }
    forall i | 0 <= i < |p[1..]| ensures p[1..][i].0 in m' {
      assert Less(p[0].0, p[i + 1].0);
    }
  }

  /** `sorted(items())` has exactly one possible result. */
  lemma {:induction false} SortedItemsUnique<V>(p: seq<(string, V)>, q: seq<(string, V)>, m: map<string, V>)
    requires IsSortedItems(p, m) && IsSortedItems(q, m)
    ensures p == q
    decreases |p|
  {
    SortedItemsEmpty(p, m);
    SortedItemsEmpty(q, m);
    if p != [] {
      SortedItemsHead(p, m);
      SortedItemsHead(q, m);
      LessEqAntisymmetric(p[0].0, q[0].0);
      SortedItemsTail(p, m);
      SortedItemsTail(q, m);
      SortedItemsUnique(p[1..], q[1..], m - {p[0].0});
      assert p[0] == q[0];
      HeadRest(p);
      HeadRest(q);
    }
  }

  // ---------------------------------------------------------------- the report's arithmetic

  /** The subtotals of the listed accounts, added up. */
  function SumOfSubtotals(accounts: seq<string>, costs: seq<ServiceUsageCost>): int
  {
    if accounts == [] then 0
    else SumOfSubtotals(accounts[..|accounts| - 1], costs) + Total(CostsOf(costs, accounts[|accounts| - 1]))
  }

  lemma {:induction false} SubtotalsOfOneMore(accounts: seq<string>, costs: seq<ServiceUsageCost>, c: ServiceUsageCost)
    requires forall i, j :: 0 <= i < j < |accounts| ==> accounts[i] != accounts[j]
    ensures SumOfSubtotals(accounts, costs + [c])
      == SumOfSubtotals(accounts, costs) + (if c.account in accounts then c.cost else 0)
  {
    if accounts != [] {
      var init, a := accounts[..|accounts| - 1], accounts[|accounts| - 1];
      DistinctSplit(accounts);
      SubtotalsOfOneMore(init, costs, c);
      SubtotalOfAppended(costs, c, a);
      assert c.account in accounts <==> c.account in init || c.account == a;
      var before, after := SumOfSubtotals(accounts, costs), SumOfSubtotals(accounts, costs + [c]);
      assert before == SumOfSubtotals(init, costs) + Total(CostsOf(costs, a));
      assert after == SumOfSubtotals(init, costs + [c]) + Total(CostsOf(costs + [c], a));
    }
  }

  /** A list without repeats is its repeat-free front followed by a last entry not in it. */
  lemma DistinctSplit(accounts: seq<string>)
    requires accounts != []
    requires forall i, j :: 0 <= i < j < |accounts| ==> accounts[i] != accounts[j]
    ensures var init := accounts[..|accounts| - 1];
      && (forall i, j :: 0 <= i < j < |init| ==> init[i] != init[j])
      && accounts[|accounts| - 1] !in init
      && accounts == init + [accounts[|accounts| - 1]]
  {
    var init, a := accounts[..|accounts| - 1], accounts[|accounts| - 1];
    forall i | 0 <= i < |init| ensures init[i] != a {
      assert accounts[i] != accounts[|accounts| - 1];
    }
  }

  /** Appending a cost adds it to its own account's subtotal and to no other. */
  lemma SubtotalOfAppended(costs: seq<ServiceUsageCost>, c: ServiceUsageCost, a: string)
    ensures Total(CostsOf(costs + [c], a)) == Total(CostsOf(costs, a)) + (if c.account == a then c.cost else 0)
  {
    assert (costs + [c])[..|costs|] == costs;
    CostsOfLast(costs + [c], a);
  }

  /**
   * The per-account subtotals of a period add up to its total, whatever order the accounts
   * are listed in, as long as each account seen is listed once.
   */
  lemma {:induction false} SubtotalsAddUpToTotal(accounts: seq<string>, costs: seq<ServiceUsageCost>)
    requires forall i, j :: 0 <= i < j < |accounts| ==> accounts[i] != accounts[j]
    requires Accounts(costs) <= set a | a in accounts
    ensures SumOfSubtotals(accounts, costs) == Total(costs)
  {
    if costs == [] {
      ZeroSubtotals(accounts);
    } else {
      var init, c := costs[..|costs| - 1], costs[|costs| - 1];
      AccountsOfPrefix(costs);
      SubtotalsAddUpToTotal(accounts, init);
      SubtotalsOfOneMore(accounts, init, c);
      FrontLast(costs);
    }
  }

  lemma {:induction false} ZeroSubtotals(accounts: seq<string>)
    ensures SumOfSubtotals(accounts, []) == 0
  {
    if accounts != [] {
      ZeroSubtotals(accounts[..|accounts| - 1]);
    }
  }

  /** What one more cost does to each of the running views of `costs`. */
  lemma AppendOne(costs: seq<ServiceUsageCost>, c: ServiceUsageCost)
    ensures Total(costs + [c]) == Total(costs) + c.cost
    ensures var before := AccountTotals(costs);
      AccountTotals(costs + [c])
        == before[c.account := if c.account !in before then c.cost else before[c.account] + c.cost]
    ensures var before := Lists(costs);
      Lists(costs + [c])
        == before[c.account := (if c.account in before then before[c.account] else []) + [AsTuple(c)]]
  {
    assert (costs + [c])[..|costs|] == costs;
  }

  // ---------------------------------------------------------------- class PeriodicCosts

  class PeriodicCosts {
    const period: string
    var accountServiceUsage: UsageTable
    var total: int
    var accountTotal: map<string, int>
    /** The costs added so far, in order. */
    ghost var added: seq<ServiceUsageCost>

    /** The fields are what adding `added` one by one produces. */
    ghost predicate Valid()
      reads this
    {
      && total == Total(added)
      && accountTotal == AccountTotals(added)
      && (accountServiceUsage.ByAccount? ==> accountServiceUsage.lists == Lists(added))
      && (accountServiceUsage.SortedByAccount? ==> IsSortedItems(accountServiceUsage.pairs, Lists(added)))
    }

    constructor (period: string)
      ensures Valid() && added == []
      ensures this.period == period && accountServiceUsage == ByAccount(map[])
      ensures total == 0 && accountTotal == map[]
    {
      this.period := period;
      accountServiceUsage := ByAccount(map[]);
      total := 0;
      accountTotal := map[];
      added := [];
    }

    /** `add_cost`: appends to the cost's account list and adds its cost to both totals. */
    method AddCost(c: ServiceUsageCost)
      requires Valid() && accountServiceUsage.ByAccount?
      modifies this
      ensures Valid() && added == old(added) + [c]
      ensures total == old(total) + c.cost
      ensures accountTotal == old(accountTotal)[c.account :=
        if c.account in old(accountTotal) then old(accountTotal)[c.account] + c.cost else c.cost]
      ensures accountServiceUsage == ByAccount(old(accountServiceUsage.lists)[c.account :=
        (if c.account in old(accountServiceUsage.lists) then old(accountServiceUsage.lists)[c.account] else [])
        + [AsTuple(c)]])
    {
      AppendOne(added, c);
      var lists := accountServiceUsage.lists;
      var list := if c.account in lists then lists[c.account] else [];
      var subtotal := if c.account in accountTotal then accountTotal[c.account] + c.cost else c.cost;
      ghost var now := added + [c];
      assert total + c.cost == Total(now);
      assert accountTotal[c.account := subtotal] == AccountTotals(now);
      assert lists[c.account := list + [AsTuple(c)]] == Lists(now);
      accountServiceUsage := ByAccount(lists[c.account := list + [AsTuple(c)]]);
      total := total + c.cost;
      accountTotal := accountTotal[c.account := subtotal];
      added := now;
    }

    /** `account_service_usage = sorted(account_service_usage.items())` */
    method SortByAccount()
      requires Valid() && accountServiceUsage.ByAccount?
      modifies this`accountServiceUsage
      ensures Valid() && accountServiceUsage.SortedByAccount?
      ensures IsSortedItems(accountServiceUsage.pairs, old(accountServiceUsage.lists))
    {
      var pairs := SortedItems(accountServiceUsage.lists);
      accountServiceUsage := SortedByAccount(pairs);
    }
  }
}
