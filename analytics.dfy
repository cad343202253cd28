/** The analytics page: weekly and monthly totals, savings, the daily burn
    rate and its month-end projection, the top three expense categories, and
    each category's share of the selected breakdown. */
module Analytics {
  import opened Types
  import Seqs
  import Ledger
  import Breakdown
  import DateUtils

  /** The daily burn rate: the month's expense spread over the days gone;
      zero when no day has gone. */
  function BurnRate(monthlyExpense: real, dayOfMonth: int): (r: real)
    ensures dayOfMonth > 0 ==> r * (dayOfMonth as real) == monthlyExpense
    ensures dayOfMonth <= 0 ==> r == 0.0
    ensures dayOfMonth > 0 && monthlyExpense >= 0.0 ==> r >= 0.0
  {
    if dayOfMonth > 0 then monthlyExpense / (dayOfMonth as real) else 0.0
  }

  /** The spend at month end if the burn rate holds. */
  function ProjectedSpend(burnRate: real, daysInMonth: int): real {
    burnRate * (daysInMonth as real)
  }

  /** With the month under way, the projection is never below what has
      already been spent, and on its last day it is exactly that. */
  lemma ProjectionCoversSpent(monthlyExpense: real, dayOfMonth: int, daysInMonth: int)
    requires 0 < dayOfMonth <= daysInMonth
    requires monthlyExpense >= 0.0
    ensures ProjectedSpend(BurnRate(monthlyExpense, dayOfMonth), daysInMonth) >= monthlyExpense
    ensures dayOfMonth == daysInMonth ==>
              ProjectedSpend(BurnRate(monthlyExpense, dayOfMonth), daysInMonth) == monthlyExpense
  {
    var b := BurnRate(monthlyExpense, dayOfMonth);
    assert b >= 0.0;
    assert b * (daysInMonth as real) - b * (dayOfMonth as real) == b * ((daysInMonth - dayOfMonth) as real);
    assert b * ((daysInMonth - dayOfMonth) as real) >= 0.0;
  }

  const TopCount: int := 3

  /** The `analytics` memo. */
  datatype Summary = Summary(
    weeklyIncome: real,
    weeklyExpense: real,
    monthlyIncome: real,
    monthlyExpense: real,
    monthlySavings: real,
    burnRate: real,
    projectedMonthlySpend: real,
    expenseByCategory: seq<CategoryTotal>,
    incomeByCategory: seq<CategoryTotal>,
    top3Expense: seq<CategoryTotal>)

  /** `analytics` at time `now`: the week's and the month's totals over the
      same wallets, the month's breakdowns, and the burn rate and projection
      from the current day and the length of the current month. */
  function ComputeSummary(ts: seq<Transaction>, wallets: seq<Wallet>, categories: seq<Category>, now: int)
    : (a: Summary)
    ensures var week := DateUtils.WeekRange(now);
            a.weeklyIncome == Ledger.TotalIncomeForPeriod(ts, week.start, week.end, wallets)
            && a.weeklyExpense == Ledger.TotalExpenseForPeriod(ts, week.start, week.end, wallets)
    ensures var month := DateUtils.MonthRange(now);
            a.monthlyIncome == Ledger.TotalIncomeForPeriod(ts, month.start, month.end, wallets)
            && a.monthlyExpense == Ledger.TotalExpenseForPeriod(ts, month.start, month.end, wallets)
            && a.expenseByCategory == Breakdown.CategoryBreakdown(ts, TransactionType.Expense, month.start, month.end,
                                                                  wallets, categories)
            && a.incomeByCategory == Breakdown.CategoryBreakdown(ts, TransactionType.Income, month.start, month.end,
                                                                 wallets, categories)
    ensures a.monthlySavings == a.monthlyIncome - a.monthlyExpense
    ensures a.burnRate == BurnRate(a.monthlyExpense, DateUtils.DayOfMonth(now))
    ensures a.projectedMonthlySpend == ProjectedSpend(a.burnRate, DateUtils.DaysInCurrentMonth(now))
    ensures (forall i :: 0 <= i < |ts| ==> ts[i].amount >= 0.0) ==> a.projectedMonthlySpend >= a.monthlyExpense
    ensures Breakdown.SortedByTotalDesc(a.expenseByCategory)
    ensures |a.top3Expense| == if |a.expenseByCategory| < TopCount then |a.expenseByCategory| else TopCount
    ensures a.top3Expense == a.expenseByCategory[..|a.top3Expense|]
    ensures forall i, j :: 0 <= i < |a.top3Expense| <= j < |a.expenseByCategory| ==>
              a.top3Expense[i].total >= a.expenseByCategory[j].total
  {
    var week := DateUtils.WeekRange(now);
    var month := DateUtils.MonthRange(now);
    var dayOfMonth := DateUtils.DayOfMonth(now);
    var daysInMonth := DateUtils.DaysInCurrentMonth(now);
    var weeklyIncome := Ledger.TotalIncomeForPeriod(ts, week.start, week.end, wallets);
    var weeklyExpense := Ledger.TotalExpenseForPeriod(ts, week.start, week.end, wallets);
    var monthlyIncome := Ledger.TotalIncomeForPeriod(ts, month.start, month.end, wallets);
    var monthlyExpense := Ledger.TotalExpenseForPeriod(ts, month.start, month.end, wallets);
    var burnRate := BurnRate(monthlyExpense, dayOfMonth);
    var expenseByCategory := Breakdown.CategoryBreakdown(ts, TransactionType.Expense, month.start, month.end,
                                                         wallets, categories);
    var incomeByCategory := Breakdown.CategoryBreakdown(ts, TransactionType.Income, month.start, month.end,
                                                        wallets, categories);
    TopOfSorted(expenseByCategory);
    SpendCovered(ts, wallets, month, dayOfMonth, daysInMonth);
    Summary(weeklyIncome, weeklyExpense, monthlyIncome, monthlyExpense, monthlyIncome - monthlyExpense,
            burnRate, ProjectedSpend(burnRate, daysInMonth), expenseByCategory, incomeByCategory,
            Seqs.Take(expenseByCategory, TopCount))
  }

  /** With non-negative amounts, the projection over a month under way
      covers the month's expense so far. */
  lemma SpendCovered(ts: seq<Transaction>, wallets: seq<Wallet>, month: DateUtils.Range,
                     dayOfMonth: int, daysInMonth: int)
    requires 0 < dayOfMonth <= daysInMonth
    ensures var spent := Ledger.TotalExpenseForPeriod(ts, month.start, month.end, wallets);
            (forall i :: 0 <= i < |ts| ==> ts[i].amount >= 0.0) ==>
              ProjectedSpend(BurnRate(spent, dayOfMonth), daysInMonth) >= spent
  {
    var spent := Ledger.TotalExpenseForPeriod(ts, month.start, month.end, wallets);
    if forall i :: 0 <= i < |ts| ==> ts[i].amount >= 0.0 {
      Ledger.PeriodSumNonNegative(ts, TransactionType.Expense, Ledger.PersonalWalletIds(wallets), month.start, month.end);
      ProjectionCoversSpent(spent, dayOfMonth, daysInMonth);
    }
  }

  /** The first three rows of a list sorted by total are a prefix of it, as
      long as it allows, and none of the rows after them is larger. */
  lemma TopOfSorted(es: seq<CategoryTotal>)
    requires Breakdown.SortedByTotalDesc(es)
    ensures |Seqs.Take(es, TopCount)| == if |es| < TopCount then |es| else TopCount
    ensures Seqs.Take(es, TopCount) == es[..|Seqs.Take(es, TopCount)|]
    ensures forall i, j :: 0 <= i < |Seqs.Take(es, TopCount)| <= j < |es| ==> Seqs.Take(es, TopCount)[i].total >= es[j].total
  {
  }

  // ---------------------------------------------------------------------
  // Category shares
  // ---------------------------------------------------------------------

  datatype Tab = ExpenseTab | IncomeTab

  /** The breakdown the selected tab shows. */
  function CategoryData(a: Summary, tab: Tab): (r: seq<CategoryTotal>)
    ensures tab == ExpenseTab ==> r == a.expenseByCategory
    ensures tab == IncomeTab ==> r == a.incomeByCategory
  {
    if tab == ExpenseTab then a.expenseByCategory else a.incomeByCategory
  }

  /** A category's share of the tab's total, in percent; zero when the total
      is not positive. */
  function Percentage(total: real, sum: real): (r: real)
    ensures sum > 0.0 ==> r * sum == total * 100.0
    ensures sum <= 0.0 ==> r == 0.0
  {
    if sum > 0.0 then (total / sum) * 100.0 else 0.0
  }

  /** The progress bar width: the percentage, capped at 100. */
  function BarWidth(percentage: real): (r: real)
    ensures r <= 100.0
    ensures r == percentage || r == 100.0
    ensures percentage <= 100.0 ==> r == percentage
  {
    if percentage < 100.0 then percentage else 100.0
  }

  /** The shares of every row, added up. */
  function SumPercentages(cs: seq<CategoryTotal>, sum: real): real {
    if cs == [] then 0.0 else Percentage(cs[0].total, sum) + SumPercentages(cs[1..], sum)
  }

  lemma {:induction false} SumPercentagesScaled(cs: seq<CategoryTotal>, sum: real)
    requires sum > 0.0
    ensures SumPercentages(cs, sum) * sum == Breakdown.SumTotals(cs) * 100.0
  {
    if cs != [] {
      SumPercentagesScaled(cs[1..], sum);
      var p := Percentage(cs[0].total, sum);
      var rest := SumPercentages(cs[1..], sum);
      assert (p + rest) * sum == p * sum + rest * sum;
    }
  }

  /** When the tab's total is positive, the shown percentages add up to
      100. */
  lemma PercentagesSumTo100(cs: seq<CategoryTotal>)
    requires Breakdown.SumTotals(cs) > 0.0
    ensures SumPercentages(cs, Breakdown.SumTotals(cs)) == 100.0
  {
    var t := Breakdown.SumTotals(cs);
    SumPercentagesScaled(cs, t);
    var s := SumPercentages(cs, t);
    assert s * t == Breakdown.SumTotals(cs) * 100.0;
    CancelPositive(s, 100.0, t);
  }

  /** A positive factor cancels. */
  lemma CancelPositive(a: real, b: real, t: real)
    requires t > 0.0 && a * t == b * t
    ensures a == b
  {
  }

  /** A share of a non-negative breakdown lies between 0 and 100. */
  lemma {:induction false} ShareBounds(cs: seq<CategoryTotal>, i: int)
    requires 0 <= i < |cs|
    requires forall k :: 0 <= k < |cs| ==> cs[k].total >= 0.0
    ensures 0.0 <= Percentage(cs[i].total, Breakdown.SumTotals(cs)) <= 100.0
  {
    TotalAtMostSum(cs, i);
    var t := Breakdown.SumTotals(cs);
    if t > 0.0 {
      var p := Percentage(cs[i].total, t);
      assert p * t == cs[i].total * 100.0;
      assert (p - 100.0) * t == p * t - 100.0 * t;
      SignOfFactor(p - 100.0, t);
      SignOfFactor(p, t);
    }
  }

  /** With a positive factor, a product has the sign of the other factor. */
  lemma SignOfFactor(a: real, t: real)
    requires t > 0.0
    ensures a * t <= 0.0 ==> a <= 0.0
    ensures a * t >= 0.0 ==> a >= 0.0
  {
  }

  lemma {:induction false} TotalAtMostSum(cs: seq<CategoryTotal>, i: int)
    requires 0 <= i < |cs|
    requires forall k :: 0 <= k < |cs| ==> cs[k].total >= 0.0
    ensures cs[i].total <= Breakdown.SumTotals(cs)
    ensures Breakdown.SumTotals(cs) >= 0.0
  {
    if i == 0 {
      SumNonNegative(cs[1..]);
    } else {
      TotalAtMostSum(cs[1..], i - 1);
    }
  }

  lemma {:induction false} SumNonNegative(cs: seq<CategoryTotal>)
    requires forall k :: 0 <= k < |cs| ==> cs[k].total >= 0.0
    ensures Breakdown.SumTotals(cs) >= 0.0
  {
    if cs != [] {
      SumNonNegative(cs[1..]);
    }
  }
}
