/** The transaction list page: the period and type filters over the
    detail-joined list, and the grouping of what remains by calendar day. */
module TransactionsPage {
  import opened Types
  import Seqs
  import OrderedMap
  import DateUtils

  datatype Period = AllTime | Week | Month | Custom
  datatype TypeFilter = AllTypes | IncomeOnly | ExpenseOnly | TransferOnly

  /** The range a period filters by; none for 'all'. The week and the
      month are those of `now`, and 'custom' is everything up to `now`. */
  function PeriodRange(period: Period, now: int): (r: Option<DateUtils.Range>)
    ensures r.None? <==> period == AllTime
    ensures period == Week ==> r == Some(DateUtils.WeekRange(now))
    ensures period == Month ==> r == Some(DateUtils.MonthRange(now))
    ensures period == Custom ==> r == Some(DateUtils.Range(0, now))
  {
    match period
    case AllTime => None
    case Week => Some(DateUtils.WeekRange(now))
    case Month => Some(DateUtils.MonthRange(now))
    case Custom => Some(DateUtils.Range(0, now))
  }

  /** The type filter: 'income' also shows opening balances. */
  predicate KeepsType(f: TypeFilter, t: TransactionType) {
    match f
    case AllTypes => true
    case IncomeOnly => t == TransactionType.Income || t == TransactionType.OpeningBalance
    case ExpenseOnly => t == TransactionType.Expense
    case TransferOnly => t == TransactionType.Transfer
  }

  function InRange(r: DateUtils.Range): TransactionWithDetails -> bool {
    (d: TransactionWithDetails) => r.start <= d.tx.date <= r.end
  }

  function OfType(f: TypeFilter): TransactionWithDetails -> bool {
    (d: TransactionWithDetails) => KeepsType(f, d.tx.kind)
  }

  /** The list after the period filter. */
  function ByPeriod(details: seq<TransactionWithDetails>, range: Option<DateUtils.Range>): seq<TransactionWithDetails> {
    match range
    case None => details
    case Some(r) => Seqs.Filter(details, InRange(r))
  }

  /** `filteredTransactions`: the period filter, then the type filter. */
  function FilteredTransactions(details: seq<TransactionWithDetails>, period: Period, typeFilter: TypeFilter,
                                now: int): (r: seq<TransactionWithDetails>)
    ensures Seqs.IsSubsequence(r, details)
    ensures forall i :: 0 <= i < |r| ==> KeepsType(typeFilter, r[i].tx.kind)
    ensures forall i :: 0 <= i < |r| && PeriodRange(period, now).Some? ==>
              InRange(PeriodRange(period, now).value)(r[i])
    ensures forall i :: 0 <= i < |details| && KeepsType(typeFilter, details[i].tx.kind)
                        && (PeriodRange(period, now).Some? ==>
                              InRange(PeriodRange(period, now).value)(details[i]))
              ==> details[i] in r
    ensures period == AllTime && typeFilter == AllTypes ==> r == details
  {
    FilteredIsSubsequence(details, PeriodRange(period, now), typeFilter);
    if typeFilter == AllTypes then ByPeriod(details, PeriodRange(period, now))
    else Seqs.Filter(ByPeriod(details, PeriodRange(period, now)), OfType(typeFilter))
  }

  /** Both filters only drop rows: the survivors keep their order. */
  lemma FilteredIsSubsequence(details: seq<TransactionWithDetails>, range: Option<DateUtils.Range>, typeFilter: TypeFilter)
    ensures Seqs.IsSubsequence(ByPeriod(details, range), details)
    ensures Seqs.IsSubsequence(Seqs.Filter(ByPeriod(details, range), OfType(typeFilter)), details)
  {
    match range
    case None =>
      Seqs.FilterAll(details, (d: TransactionWithDetails) => true);
      Seqs.FilterIsSubsequence(details, (d: TransactionWithDetails) => true);
      Seqs.FilterIsSubsequence(details, OfType(typeFilter));
    case Some(r) =>
      Seqs.FilterIsSubsequence(details, InRange(r));
      Seqs.FilterFilter(details, InRange(r), OfType(typeFilter));
      Seqs.FilterIsSubsequence(details, Seqs.Both(InRange(r), OfType(typeFilter)));
  }

  // ---------------------------------------------------------------------
  // Group by day
  // ---------------------------------------------------------------------

  /** One entry of the `Map<string, TransactionWithDetails[]>`: a day label
      and the transactions shown under it. */
  type DayGroup = OrderedMap.Entry<string, seq<TransactionWithDetails>>

  /** `groups.get(key).push(d)`. */
  function Push(d: TransactionWithDetails): seq<TransactionWithDetails> -> seq<TransactionWithDetails> {
    (items: seq<TransactionWithDetails>) => items + [d]
  }

  /** The day label of a transaction: `dayKey` is `formatFullDate`. */
  function DayOf(dayKey: int -> string, d: TransactionWithDetails): string {
    dayKey(d.tx.date)
  }

  function OnDay(dayKey: int -> string, k: string): TransactionWithDetails -> bool {
    d => DayOf(dayKey, d) == k
  }

  /** The map after the loop over `ds`. */
  function GroupByDay(ds: seq<TransactionWithDetails>, dayKey: int -> string): seq<DayGroup> {
    if ds == [] then []
    else
      var d := ds[|ds| - 1];
      OrderedMap.Upsert(GroupByDay(ds[..|ds| - 1], dayKey), DayOf(dayKey, d), [], Push(d))
  }

  /** `groupedTransactions`: the source's loop. */
  method GroupedTransactions(ds: seq<TransactionWithDetails>, dayKey: int -> string) returns (groups: seq<DayGroup>)
    ensures groups == GroupByDay(ds, dayKey)
    ensures OrderedMap.DistinctKeys(groups)
    ensures forall k :: OrderedMap.Get(groups, k).GetOr([]) == Seqs.Filter(ds, OnDay(dayKey, k))
  {
    groups := [];
    for i := 0 to |ds|
      invariant groups == GroupByDay(ds[..i], dayKey)
    {
      var key := dayKey(ds[i].tx.date);
      groups := OrderedMap.Upsert(groups, key, [], Push(ds[i]));
      assert ds[..i + 1][..i] == ds[..i];
    }
    assert ds[..|ds|] == ds;
    forall k ensures OrderedMap.Get(groups, k).GetOr([]) == Seqs.Filter(ds, OnDay(dayKey, k)) {
      GroupContents(ds, dayKey, k);
    }
    GroupsDistinct(ds, dayKey);
  }

  /** Each day label appears in one group only. */
  lemma {:induction false} GroupsDistinct(ds: seq<TransactionWithDetails>, dayKey: int -> string)
    ensures OrderedMap.DistinctKeys(GroupByDay(ds, dayKey))
  {
    if ds != [] {
      var d := ds[|ds| - 1];
      GroupsDistinct(ds[..|ds| - 1], dayKey);
      OrderedMap.UpsertDistinct(GroupByDay(ds[..|ds| - 1], dayKey), DayOf(dayKey, d), [], Push(d));
    }
  }

  /** The day label of every transaction, in list order. */
  function Days(ds: seq<TransactionWithDetails>, dayKey: int -> string): (ks: seq<string>)
    ensures |ks| == |ds|
    ensures forall i :: 0 <= i < |ds| ==> ks[i] == DayOf(dayKey, ds[i])
  {
    if ds == [] then [] else Days(ds[..|ds| - 1], dayKey) + [DayOf(dayKey, ds[|ds| - 1])]
  }

  /** A day has a group iff some transaction falls on it. */
  lemma {:induction false} GroupKeys(ds: seq<TransactionWithDetails>, dayKey: int -> string, k: string)
    ensures k in OrderedMap.Keys(GroupByDay(ds, dayKey)) <==> k in Days(ds, dayKey)
  {
    if ds != [] {
      var p := ds[..|ds| - 1];
      var kd := DayOf(dayKey, ds[|ds| - 1]);
      GroupKeys(p, dayKey, k);
      GroupKeys(p, dayKey, kd);
      OrderedMap.UpsertKeys(GroupByDay(p, dayKey), kd, [], Push(ds[|ds| - 1]));
      assert Days(ds, dayKey) == Days(p, dayKey) + [kd];
    }
  }

  /** A day's group is exactly that day's transactions, in list order. */
  lemma {:induction false} GroupContents(ds: seq<TransactionWithDetails>, dayKey: int -> string, k: string)
    ensures OrderedMap.Get(GroupByDay(ds, dayKey), k).GetOr([]) == Seqs.Filter(ds, OnDay(dayKey, k))
  {
    if ds != [] {
      var p := ds[..|ds| - 1];
      var d := ds[|ds| - 1];
      var gs := GroupByDay(p, dayKey);
      GroupContents(p, dayKey, k);
      OrderedMap.UpsertGet(gs, DayOf(dayKey, d), [], Push(d), k);
      assert ds == p + [d];
      Seqs.FilterConcat(p, [d], OnDay(dayKey, k));
      assert Seqs.Filter([d], OnDay(dayKey, k)) == if DayOf(dayKey, d) == k then [d] else [] by {
        assert [d][1..] == [];
      }
    }
  }

  /** The groups' items, group after group. */
  function Flatten(gs: seq<DayGroup>): seq<TransactionWithDetails> {
    if gs == [] then [] else Flatten(gs[..|gs| - 1]) + gs[|gs| - 1].value
  }

  lemma FlattenSnoc(gs: seq<DayGroup>, e: DayGroup)
    ensures Flatten(gs + [e]) == Flatten(gs) + e.value
  {
    assert (gs + [e])[..|gs|] == gs;
  }

  lemma FlattenExtendLast(gs: seq<DayGroup>, d: TransactionWithDetails)
    requires gs != []
    ensures Flatten(gs[..|gs| - 1] + [OrderedMap.Entry(gs[|gs| - 1].key, gs[|gs| - 1].value + [d])])
         == Flatten(gs) + [d]
  {
    FlattenSnoc(gs[..|gs| - 1], OrderedMap.Entry(gs[|gs| - 1].key, gs[|gs| - 1].value + [d]));
  }

  /** Equal labels are never separated by a different one: each label that
      comes back continues the run of the label just before it. */
  predicate Contiguous(ks: seq<string>) {
    ks == [] ||
    var prefix := ks[..|ks| - 1];
    Contiguous(prefix) && (ks[|ks| - 1] in prefix ==> prefix[|prefix| - 1] == ks[|ks| - 1])
  }

  /** When each day's transactions sit together (as in a date-ordered list),
      reading the groups in order gives back the list, and the last group is
      the last transaction's day. */
  lemma {:induction false} GroupsReproduceList(ds: seq<TransactionWithDetails>, dayKey: int -> string)
    requires Contiguous(Days(ds, dayKey))
    ensures Flatten(GroupByDay(ds, dayKey)) == ds
    ensures ds != [] ==>
              GroupByDay(ds, dayKey) != []
              && GroupByDay(ds, dayKey)[|GroupByDay(ds, dayKey)| - 1].key == DayOf(dayKey, ds[|ds| - 1])
  {
    if ds != [] {
      var p := ds[..|ds| - 1];
      var d := ds[|ds| - 1];
      assert ds == p + [d];
      ContiguousPrefix(ds, dayKey);
      GroupsReproduceList(p, dayKey);
      GroupStep(p, d, dayKey);
    }
  }

  /** What contiguity says about all but the last transaction. */
  lemma ContiguousPrefix(ds: seq<TransactionWithDetails>, dayKey: int -> string)
    requires ds != [] && Contiguous(Days(ds, dayKey))
    ensures Contiguous(Days(ds[..|ds| - 1], dayKey))
    ensures DayOf(dayKey, ds[|ds| - 1]) in Days(ds[..|ds| - 1], dayKey) ==>
              |ds| > 1 && DayOf(dayKey, ds[|ds| - 2]) == DayOf(dayKey, ds[|ds| - 1])
  {
    var p := ds[..|ds| - 1];
    assert Days(ds, dayKey) == Days(p, dayKey) + [DayOf(dayKey, ds[|ds| - 1])];
    assert (Days(p, dayKey) + [DayOf(dayKey, ds[|ds| - 1])])[..|p|] == Days(p, dayKey);
  }

  /** Adding one transaction to the groups of a list they reproduce: it
      either extends the last group or opens a new one at the end. */
  lemma GroupStep(p: seq<TransactionWithDetails>, d: TransactionWithDetails, dayKey: int -> string)
    requires Flatten(GroupByDay(p, dayKey)) == p
    requires p != [] ==>
               GroupByDay(p, dayKey) != []
               && GroupByDay(p, dayKey)[|GroupByDay(p, dayKey)| - 1].key == DayOf(dayKey, p[|p| - 1])
    requires DayOf(dayKey, d) in Days(p, dayKey) ==> p != [] && DayOf(dayKey, p[|p| - 1]) == DayOf(dayKey, d)
    ensures Flatten(OrderedMap.Upsert(GroupByDay(p, dayKey), DayOf(dayKey, d), [], Push(d))) == p + [d]
    ensures OrderedMap.Upsert(GroupByDay(p, dayKey), DayOf(dayKey, d), [], Push(d)) != []
    ensures var gs := OrderedMap.Upsert(GroupByDay(p, dayKey), DayOf(dayKey, d), [], Push(d));
            gs[|gs| - 1].key == DayOf(dayKey, d)
  {
    var kd := DayOf(dayKey, d);
    var gs := GroupByDay(p, dayKey);
    GroupKeys(p, dayKey, kd);
    if kd in OrderedMap.Keys(gs) {
      GroupsDistinct(p, dayKey);
      OrderedMap.UpsertLast(gs, [], Push(d));
      FlattenExtendLast(gs, d);
    } else {
      OrderedMap.UpsertAbsent(gs, kd, [], Push(d));
      FlattenSnoc(gs, OrderedMap.Entry(kd, [d]));
    }
  }
}
