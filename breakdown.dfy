/** Per-category breakdown of the transaction store (`getExpenseByCategory`,
    `getIncomeByCategory`): the period filter of the totals plus a truthy
    category id, one running total per category id kept in a JS `Map`
    (insertion order), a join to the category list that drops unresolved ids,
    and a sort by total, largest first. */
module Breakdown {
  import opened Types
  import Seqs
  import Ledger
  import OrderedMap

  /** One entry of the source's `Map<string, number>`: a category id and
      its running total. */
  type Group = OrderedMap.Entry<string, real>

  /** `map.set(c, (map.get(c) || 0) + a)`: adds to the entry for `c`, or
      appends a new entry at the end. */
  function AddToGroups(gs: seq<Group>, c: string, a: real): seq<Group> {
    OrderedMap.Upsert(gs, c, 0.0, (v: real) => v + a)
  }

  /** The running total the map holds for `k` (0 when there is none). */
  function TotalOf(gs: seq<Group>, k: string): real {
    OrderedMap.Get(gs, k).GetOr(0.0)
  }

  /** The breakdown's filter: the period filter plus a truthy category id. */
  predicate CountsInBreakdown(t: Transaction, kind: TransactionType, personal: seq<string>, start: int, end: int) {
    Ledger.CountsFor(t, kind, personal, start, end) && IsSetId(t.categoryId)
  }

  /** The map after the `forEach` over the filtered transactions. */
  function CategoryGroups(ts: seq<Transaction>, kind: TransactionType, personal: seq<string>, start: int, end: int)
    : seq<Group>
  {
    if ts == [] then []
    else
      var t := ts[|ts| - 1];
      var gs := CategoryGroups(ts[..|ts| - 1], kind, personal, start, end);
      if CountsInBreakdown(t, kind, personal, start, end) then AddToGroups(gs, t.categoryId.value, t.amount) else gs
  }

  /** The second `forEach`: each entry whose id resolves to a category becomes
      a row with that category's name, colour, icon and budget. */
  function ResolveGroups(gs: seq<Group>, categories: seq<Category>): seq<CategoryTotal> {
    if gs == [] then []
    else
      (match Seqs.FindFirst(categories, CategoryIdOf, gs[0].key)
       case Some(c) => [CategoryTotal(c.name, c.color, c.icon, gs[0].value, c.budget)]
       case None => [])
      + ResolveGroups(gs[1..], categories)
  }

  function SumTotals(cs: seq<CategoryTotal>): real {
    if cs == [] then 0.0 else cs[0].total + SumTotals(cs[1..])
  }

  predicate SortedByTotalDesc(cs: seq<CategoryTotal>) {
    forall i, j :: 0 <= i < j < |cs| ==> cs[i].total >= cs[j].total
  }

  /** Inserts `c` before the first row whose total is not larger, so earlier
      rows stay ahead of later rows with an equal total. */
  function InsertByTotal(c: CategoryTotal, cs: seq<CategoryTotal>): (r: seq<CategoryTotal>)
    ensures |r| == |cs| + 1
    ensures multiset(r) == multiset(cs) + multiset{c}
    ensures SumTotals(r) == SumTotals(cs) + c.total
  {
    if cs == [] || cs[0].total <= c.total then [c] + cs
    else
      assert cs == [cs[0]] + cs[1..];
      [cs[0]] + InsertByTotal(c, cs[1..])
  }

  lemma {:induction false} InsertKeepsSorted(c: CategoryTotal, cs: seq<CategoryTotal>)
    requires SortedByTotalDesc(cs)
    ensures SortedByTotalDesc(InsertByTotal(c, cs))
  {
    if cs != [] && cs[0].total > c.total {
      var rest := InsertByTotal(c, cs[1..]);
      InsertKeepsSorted(c, cs[1..]);
      forall k | 0 <= k < |rest| ensures rest[k].total <= cs[0].total {
        assert rest[k] in multiset(rest);
        if rest[k] != c {
          assert rest[k] in multiset(cs[1..]);
        }
      }
    }
  }

  /** `result.sort((a, b) => b.total - a.total)` (a stable sort). */
  function SortByTotalDesc(cs: seq<CategoryTotal>): (r: seq<CategoryTotal>)
    ensures |r| == |cs|
    ensures multiset(r) == multiset(cs)
    ensures SumTotals(r) == SumTotals(cs)
    ensures SortedByTotalDesc(r)
  {
    if cs == [] then []
    else
      assert cs == [cs[0]] + cs[1..];
      var sorted := SortByTotalDesc(cs[1..]);
      InsertKeepsSorted(cs[0], sorted);
      InsertByTotal(cs[0], sorted)
  }

  /** The result of `getExpenseByCategory` / `getIncomeByCategory`. */
  function CategoryBreakdown(ts: seq<Transaction>, kind: TransactionType, start: int, end: int,
                             wallets: seq<Wallet>, categories: seq<Category>): seq<CategoryTotal>
  {
    SortByTotalDesc(ResolveGroups(CategoryGroups(ts, kind, Ledger.PersonalWalletIds(wallets), start, end), categories))
  }

  lemma {:induction false} ResolveGroupsConcat(a: seq<Group>, b: seq<Group>, categories: seq<Category>)
    ensures ResolveGroups(a + b, categories) == ResolveGroups(a, categories) + ResolveGroups(b, categories)
  {
    if a == [] {
      assert a + b == b;
    } else {
      assert (a + b)[0] == a[0];
      assert (a + b)[1..] == a[1..] + b;
      ResolveGroupsConcat(a[1..], b, categories);
    }
  }

  /** A resolved group is labelled with the category its id finds. */
  predicate LabelledBy(row: CategoryTotal, g: Group, categories: seq<Category>) {
    var c := Seqs.FindFirst(categories, CategoryIdOf, g.key);
    c.Some? && row == CategoryTotal(c.value.name, c.value.color, c.value.icon, g.value, c.value.budget)
  }

  /** The row is labelled by one of the map's entries. */
  predicate LabelledBySome(row: CategoryTotal, gs: seq<Group>, categories: seq<Category>) {
    exists i :: 0 <= i < |gs| && LabelledBy(row, gs[i], categories)
  }

  /** Every row of the join carries the name, colour, icon and budget of the
      category its group's id finds, and that group's total. */
  lemma {:induction false} ResolvedRowsLabelled(gs: seq<Group>, categories: seq<Category>)
    ensures forall row :: row in ResolveGroups(gs, categories) ==> LabelledBySome(row, gs, categories)
  {
    if gs != [] {
      ResolvedRowsLabelled(gs[1..], categories);
      forall row | row in ResolveGroups(gs, categories)
        ensures LabelledBySome(row, gs, categories)
      {
        if row in ResolveGroups(gs[1..], categories) {
          var i :| 0 <= i < |gs[1..]| && LabelledBy(row, gs[1..][i], categories);
          assert gs[i + 1] == gs[1..][i];
          assert LabelledBy(row, gs[i + 1], categories);
        } else {
          assert LabelledBy(row, gs[0], categories);
        }
      }
    }
  }

  /** The same for the sorted breakdown: each row is labelled by the
      category of one of the map's entries. */
  lemma BreakdownRowsLabelled(ts: seq<Transaction>, kind: TransactionType, start: int, end: int,
                              wallets: seq<Wallet>, categories: seq<Category>)
    ensures forall row :: row in CategoryBreakdown(ts, kind, start, end, wallets, categories) ==>
              LabelledBySome(row, CategoryGroups(ts, kind, Ledger.PersonalWalletIds(wallets), start, end), categories)
  {
    var gs := CategoryGroups(ts, kind, Ledger.PersonalWalletIds(wallets), start, end);
    var resolved := ResolveGroups(gs, categories);
    ResolvedRowsLabelled(gs, categories);
    SortedRowsFromInput(resolved);
    assert CategoryBreakdown(ts, kind, start, end, wallets, categories) == SortByTotalDesc(resolved);
  }

  /** Sorting only reorders: every row of the result is a row of the input. */
  lemma SortedRowsFromInput(cs: seq<CategoryTotal>)
    ensures forall row :: row in SortByTotalDesc(cs) ==> row in cs
  {
    forall row | row in SortByTotalDesc(cs) ensures row in cs {
      assert row in multiset(SortByTotalDesc(cs));
    }
  }

  /** The shared computation, written as the source's two `forEach` loops. */
  method ByCategory(ts: seq<Transaction>, kind: TransactionType, start: int, end: int,
                    wallets: seq<Wallet>, categories: seq<Category>) returns (result: seq<CategoryTotal>)
    ensures result == CategoryBreakdown(ts, kind, start, end, wallets, categories)
    ensures SortedByTotalDesc(result)
  {
    var personal := Ledger.PersonalWalletIds(wallets);
    var totals: seq<Group> := [];
    for i := 0 to |ts|
      invariant totals == CategoryGroups(ts[..i], kind, personal, start, end)
    {
      var t := ts[i];
      if t.kind == kind && t.walletId in personal && IsSetId(t.categoryId) && start <= t.date && t.date <= end {
        totals := AddToGroups(totals, t.categoryId.value, t.amount);
      }
      assert ts[..i + 1][..i] == ts[..i];
    }
    assert ts[..|ts|] == ts;
    var rows: seq<CategoryTotal> := [];
    for j := 0 to |totals|
      invariant rows == ResolveGroups(totals[..j], categories)
    {
      var g := totals[j];
      var category := Seqs.FindFirst(categories, CategoryIdOf, g.key);
      if category.Some? {
        var c := category.value;
        rows := rows + [CategoryTotal(c.name, c.color, c.icon, g.value, c.budget)];
      }
      assert totals[..j + 1] == totals[..j] + [g];
      ResolveGroupsConcat(totals[..j], [g], categories);
    }
    assert totals[..|totals|] == totals;
    result := SortByTotalDesc(rows);
  }

  /** `getExpenseByCategory`. */
  method ExpenseByCategory(ts: seq<Transaction>, start: int, end: int, wallets: seq<Wallet>, categories: seq<Category>)
    returns (result: seq<CategoryTotal>)
    ensures result == CategoryBreakdown(ts, TransactionType.Expense, start, end, wallets, categories)
    ensures SortedByTotalDesc(result)
  {
    result := ByCategory(ts, TransactionType.Expense, start, end, wallets, categories);
  }

  /** `getIncomeByCategory`. */
  method IncomeByCategory(ts: seq<Transaction>, start: int, end: int, wallets: seq<Wallet>, categories: seq<Category>)
    returns (result: seq<CategoryTotal>)
    ensures result == CategoryBreakdown(ts, TransactionType.Income, start, end, wallets, categories)
    ensures SortedByTotalDesc(result)
  {
    result := ByCategory(ts, TransactionType.Income, start, end, wallets, categories);
  }

  // ---------------------------------------------------------------------
  // One entry per distinct category id, holding that category's sum
  // ---------------------------------------------------------------------

  /** The running total of `k` grows by `a` exactly when `k` is the id added to. */
  lemma AddToGroupsTotal(gs: seq<Group>, c: string, a: real, k: string)
    ensures TotalOf(AddToGroups(gs, c, a), k) == TotalOf(gs, k) + (if k == c then a else 0.0)
  {
    OrderedMap.UpsertGet(gs, c, 0.0, (v: real) => v + a, k);
  }

  /** The sum, over the transactions the breakdown counts, of those filed under `k`. */
  function CategoryAmount(ts: seq<Transaction>, kind: TransactionType, personal: seq<string>, start: int, end: int,
                          k: string): real
  {
    if ts == [] then 0.0
    else
      var t := ts[|ts| - 1];
      CategoryAmount(ts[..|ts| - 1], kind, personal, start, end, k)
      + (if CountsInBreakdown(t, kind, personal, start, end) && t.categoryId == Some(k) then t.amount else 0.0)
  }

  /** `t` is counted by the breakdown and filed under the category id `k`. */
  predicate FiledUnder(t: Transaction, kind: TransactionType, personal: seq<string>, start: int, end: int, k: string) {
    CountsInBreakdown(t, kind, personal, start, end) && t.categoryId == Some(k)
  }

  /** The map has one entry per distinct category id, an id is in it iff some
      counted transaction carries it, and its total is that category's sum. */
  lemma CategoryGroupsSpec(ts: seq<Transaction>, kind: TransactionType, personal: seq<string>,
                           start: int, end: int, k: string)
    ensures OrderedMap.DistinctKeys(CategoryGroups(ts, kind, personal, start, end))
    ensures k in OrderedMap.Keys(CategoryGroups(ts, kind, personal, start, end))
        <==> exists i :: 0 <= i < |ts| && FiledUnder(ts[i], kind, personal, start, end, k)
    ensures TotalOf(CategoryGroups(ts, kind, personal, start, end), k) == CategoryAmount(ts, kind, personal, start, end, k)
  {
    CategoryGroupsDistinct(ts, kind, personal, start, end);
    CategoryGroupsKeys(ts, kind, personal, start, end, k);
    CategoryGroupsTotals(ts, kind, personal, start, end, k);
  }

  lemma {:induction false} CategoryGroupsDistinct(ts: seq<Transaction>, kind: TransactionType, personal: seq<string>,
                                                 start: int, end: int)
    ensures OrderedMap.DistinctKeys(CategoryGroups(ts, kind, personal, start, end))
  {
    if ts != [] {
      var t := ts[|ts| - 1];
      CategoryGroupsDistinct(ts[..|ts| - 1], kind, personal, start, end);
      if CountsInBreakdown(t, kind, personal, start, end) {
        OrderedMap.UpsertDistinct(CategoryGroups(ts[..|ts| - 1], kind, personal, start, end),
                                  t.categoryId.value, 0.0, (v: real) => v + t.amount);
      }
    }
  }

  lemma {:induction false} CategoryGroupsKeys(ts: seq<Transaction>, kind: TransactionType, personal: seq<string>,
                                             start: int, end: int, k: string)
    ensures k in OrderedMap.Keys(CategoryGroups(ts, kind, personal, start, end))
        <==> exists i :: 0 <= i < |ts| && FiledUnder(ts[i], kind, personal, start, end, k)
  {
    if ts != [] {
      var p := ts[..|ts| - 1];
      var t := ts[|ts| - 1];
      CategoryGroupsKeys(p, kind, personal, start, end, k);
      if CountsInBreakdown(t, kind, personal, start, end) {
        OrderedMap.UpsertKeys(CategoryGroups(p, kind, personal, start, end), t.categoryId.value, 0.0,
                              (v: real) => v + t.amount);
      }
      FiledSnoc(ts, p, kind, personal, start, end, k);
    }
  }

  /** Some transaction of `ts` is filed under `k` iff one of all but the
      last is, or the last one is. */
  lemma FiledSnoc(ts: seq<Transaction>, p: seq<Transaction>, kind: TransactionType, personal: seq<string>,
                  start: int, end: int, k: string)
    requires ts != [] && p == ts[..|ts| - 1]
    ensures (exists i :: 0 <= i < |ts| && FiledUnder(ts[i], kind, personal, start, end, k))
        <==> (exists i :: 0 <= i < |p| && FiledUnder(p[i], kind, personal, start, end, k))
             || FiledUnder(ts[|ts| - 1], kind, personal, start, end, k)
  {
    if exists i :: 0 <= i < |ts| && FiledUnder(ts[i], kind, personal, start, end, k) {
      var i :| 0 <= i < |ts| && FiledUnder(ts[i], kind, personal, start, end, k);
      if i < |p| { assert p[i] == ts[i]; }
    }
    if exists i :: 0 <= i < |p| && FiledUnder(p[i], kind, personal, start, end, k) {
      var i :| 0 <= i < |p| && FiledUnder(p[i], kind, personal, start, end, k);
      assert ts[i] == p[i];
    }
  }

  lemma {:induction false} CategoryGroupsTotals(ts: seq<Transaction>, kind: TransactionType, personal: seq<string>,
                                               start: int, end: int, k: string)
    ensures TotalOf(CategoryGroups(ts, kind, personal, start, end), k) == CategoryAmount(ts, kind, personal, start, end, k)
  {
    if ts != [] {
      var t := ts[|ts| - 1];
      CategoryGroupsTotals(ts[..|ts| - 1], kind, personal, start, end, k);
      if CountsInBreakdown(t, kind, personal, start, end) {
        AddToGroupsTotal(CategoryGroups(ts[..|ts| - 1], kind, personal, start, end), t.categoryId.value, t.amount, k);
      }
    }
  }

  // ---------------------------------------------------------------------
  // Accounting against the period totals
  // ---------------------------------------------------------------------

  /** Does `c` resolve to an existing category? */
  predicate Resolves(categories: seq<Category>, c: string) {
    Seqs.FindFirst(categories, CategoryIdOf, c).Some?
  }

  /** What the breakdown leaves out of the period total: the matching
      transactions without a truthy category id or whose id no longer
      resolves. */
  function UnattributedSum(ts: seq<Transaction>, kind: TransactionType, personal: seq<string>, start: int, end: int,
                           categories: seq<Category>): real
  {
    if ts == [] then 0.0
    else
      var t := ts[|ts| - 1];
      UnattributedSum(ts[..|ts| - 1], kind, personal, start, end, categories)
      + (if Ledger.CountsFor(t, kind, personal, start, end)
            && !(IsSetId(t.categoryId) && Resolves(categories, t.categoryId.value))
         then t.amount else 0.0)
  }

  lemma {:induction false} ResolvedSumOfAdd(gs: seq<Group>, c: string, a: real, categories: seq<Category>)
    ensures SumTotals(ResolveGroups(AddToGroups(gs, c, a), categories))
         == SumTotals(ResolveGroups(gs, categories)) + (if Resolves(categories, c) then a else 0.0)
  {
    if gs != [] && gs[0].key != c {
      ResolvedSumOfAdd(gs[1..], c, a, categories);
      assert ResolveGroups(AddToGroups(gs, c, a), categories)
          == ResolveGroups([gs[0]], categories) + ResolveGroups(AddToGroups(gs[1..], c, a), categories) by {
        ResolveGroupsConcat([gs[0]], AddToGroups(gs[1..], c, a), categories);
      }
      assert ResolveGroups(gs, categories) == ResolveGroups([gs[0]], categories) + ResolveGroups(gs[1..], categories) by {
        assert gs == [gs[0]] + gs[1..];
        ResolveGroupsConcat([gs[0]], gs[1..], categories);
      }
      SumTotalsConcat(ResolveGroups([gs[0]], categories), ResolveGroups(AddToGroups(gs[1..], c, a), categories));
      SumTotalsConcat(ResolveGroups([gs[0]], categories), ResolveGroups(gs[1..], categories));
    }
  }

  lemma {:induction false} SumTotalsConcat(a: seq<CategoryTotal>, b: seq<CategoryTotal>)
    ensures SumTotals(a + b) == SumTotals(a) + SumTotals(b)
  {
    if a == [] {
      assert a + b == b;
    } else {
      assert (a + b)[1..] == a[1..] + b;
      SumTotalsConcat(a[1..], b);
    }
  }

  /** The resolved rows plus what they leave out make up the period total:
      nothing leaks and nothing is counted twice. */
  lemma {:induction false} BreakdownAccounting(ts: seq<Transaction>, kind: TransactionType, personal: seq<string>,
                                              start: int, end: int, categories: seq<Category>)
    ensures SumTotals(ResolveGroups(CategoryGroups(ts, kind, personal, start, end), categories))
            + UnattributedSum(ts, kind, personal, start, end, categories)
         == Ledger.PeriodSum(ts, kind, personal, start, end)
  {
    if ts != [] {
      var p := ts[..|ts| - 1];
      var t := ts[|ts| - 1];
      BreakdownAccounting(p, kind, personal, start, end, categories);
      if CountsInBreakdown(t, kind, personal, start, end) {
        ResolvedSumOfAdd(CategoryGroups(p, kind, personal, start, end), t.categoryId.value, t.amount, categories);
      }
    }
  }

  lemma {:induction false} UnattributedNonNegative(ts: seq<Transaction>, kind: TransactionType, personal: seq<string>,
                                                  start: int, end: int, categories: seq<Category>)
    requires forall i :: 0 <= i < |ts| ==> ts[i].amount >= 0.0
    ensures UnattributedSum(ts, kind, personal, start, end, categories) >= 0.0
  {
    if ts != [] {
      UnattributedNonNegative(ts[..|ts| - 1], kind, personal, start, end, categories);
    }
  }

  lemma {:induction false} UnattributedZero(ts: seq<Transaction>, kind: TransactionType, personal: seq<string>,
                                           start: int, end: int, categories: seq<Category>)
    requires forall i :: 0 <= i < |ts| && Ledger.CountsFor(ts[i], kind, personal, start, end)
               ==> IsSetId(ts[i].categoryId) && Resolves(categories, ts[i].categoryId.value)
    ensures UnattributedSum(ts, kind, personal, start, end, categories) == 0.0
  {
    if ts != [] {
      UnattributedZero(ts[..|ts| - 1], kind, personal, start, end, categories);
    }
  }

  /** With non-negative amounts the breakdown never exceeds the period total. */
  lemma BreakdownAtMostPeriodTotal(ts: seq<Transaction>, kind: TransactionType, start: int, end: int,
                                   wallets: seq<Wallet>, categories: seq<Category>)
    requires forall i :: 0 <= i < |ts| ==> ts[i].amount >= 0.0
    ensures SumTotals(CategoryBreakdown(ts, kind, start, end, wallets, categories))
         <= Ledger.PeriodSum(ts, kind, Ledger.PersonalWalletIds(wallets), start, end)
  {
    var personal := Ledger.PersonalWalletIds(wallets);
    BreakdownAccounting(ts, kind, personal, start, end, categories);
    UnattributedNonNegative(ts, kind, personal, start, end, categories);
  }

  /** When every matching transaction has a category that resolves, the
      breakdown adds up to the period total exactly. */
  lemma BreakdownMatchesPeriodTotal(ts: seq<Transaction>, kind: TransactionType, start: int, end: int,
                                    wallets: seq<Wallet>, categories: seq<Category>)
    requires forall i :: 0 <= i < |ts| && Ledger.CountsFor(ts[i], kind, Ledger.PersonalWalletIds(wallets), start, end)
               ==> IsSetId(ts[i].categoryId) && Resolves(categories, ts[i].categoryId.value)
    ensures SumTotals(CategoryBreakdown(ts, kind, start, end, wallets, categories))
         == Ledger.PeriodSum(ts, kind, Ledger.PersonalWalletIds(wallets), start, end)
  {
    var personal := Ledger.PersonalWalletIds(wallets);
    BreakdownAccounting(ts, kind, personal, start, end, categories);
    UnattributedZero(ts, kind, personal, start, end, categories);
  }
}
