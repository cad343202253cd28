/** The document store one user's data lives in, as the data service sees
    it: three collections, the preferences document, the orderings its
    queries promise, the default-category seed and the bulk clear. Which
    writes fail is a parameter; the store itself is a class whose fields are
    the collections. */
module DataService {
  import opened Types
  import Seqs

  // ---------------------------------------------------------------------
  // Query orderings
  // ---------------------------------------------------------------------

  /** `orderBy('date', 'desc')`. */
  predicate DateDescending(ts: seq<Transaction>) {
    forall i, j :: 0 <= i < j < |ts| ==> ts[i].date >= ts[j].date
  }

  /** `orderBy('createdAt', 'asc')`. */
  predicate CreatedAscending(ws: seq<Wallet>) {
    forall i, j :: 0 <= i < j < |ws| ==> ws[i].createdAt <= ws[j].createdAt
  }

  /** Code-point (equivalently UTF-8 byte) order on strings. */
  predicate NameLe(a: string, b: string) {
    a == [] || (b != [] && (a[0] < b[0] || (a[0] == b[0] && NameLe(a[1..], b[1..]))))
  }

  lemma {:induction false} NameLeTotal(a: string, b: string)
    ensures NameLe(a, b) || NameLe(b, a)
  {
    if a != [] && b != [] && a[0] == b[0] {
      NameLeTotal(a[1..], b[1..]);
    }
  }

  /** `orderBy('name', 'asc')`: each name is at most the next one. */
  predicate NameAscending(cs: seq<Category>) {
    forall i :: 0 <= i < |cs| - 1 ==> NameLe(cs[i].name, cs[i + 1].name)
  }

  function InsertByDate(t: Transaction, ts: seq<Transaction>): (r: seq<Transaction>)
    ensures multiset(r) == multiset(ts) + multiset{t}
  {
    if ts == [] || ts[0].date <= t.date then [t] + ts
    else
      assert ts == [ts[0]] + ts[1..];
      [ts[0]] + InsertByDate(t, ts[1..])
  }

  lemma {:induction false} InsertByDateSorted(t: Transaction, ts: seq<Transaction>)
    requires DateDescending(ts)
    ensures DateDescending(InsertByDate(t, ts))
  {
    if ts != [] && ts[0].date > t.date {
      var rest := InsertByDate(t, ts[1..]);
      InsertByDateSorted(t, ts[1..]);
      forall k | 0 <= k < |rest| ensures rest[k].date <= ts[0].date {
        assert rest[k] in multiset(rest);
        if rest[k] != t {
          assert rest[k] in multiset(ts[1..]);
        }
      }
    }
  }

  function SortByDateDesc(ts: seq<Transaction>): (r: seq<Transaction>)
    ensures multiset(r) == multiset(ts)
    ensures DateDescending(r)
  {
    if ts == [] then []
    else
      assert ts == [ts[0]] + ts[1..];
      var sorted := SortByDateDesc(ts[1..]);
      InsertByDateSorted(ts[0], sorted);
      InsertByDate(ts[0], sorted)
  }

  function InsertByCreated(w: Wallet, ws: seq<Wallet>): (r: seq<Wallet>)
    ensures multiset(r) == multiset(ws) + multiset{w}
  {
    if ws == [] || w.createdAt <= ws[0].createdAt then [w] + ws
    else
      assert ws == [ws[0]] + ws[1..];
      [ws[0]] + InsertByCreated(w, ws[1..])
  }

  lemma {:induction false} InsertByCreatedSorted(w: Wallet, ws: seq<Wallet>)
    requires CreatedAscending(ws)
    ensures CreatedAscending(InsertByCreated(w, ws))
  {
    if ws != [] && w.createdAt > ws[0].createdAt {
      var rest := InsertByCreated(w, ws[1..]);
      InsertByCreatedSorted(w, ws[1..]);
      forall k | 0 <= k < |rest| ensures rest[k].createdAt >= ws[0].createdAt {
        assert rest[k] in multiset(rest);
        if rest[k] != w {
          assert rest[k] in multiset(ws[1..]);
        }
      }
    }
  }

  function SortByCreatedAsc(ws: seq<Wallet>): (r: seq<Wallet>)
    ensures multiset(r) == multiset(ws)
    ensures CreatedAscending(r)
  {
    if ws == [] then []
    else
      assert ws == [ws[0]] + ws[1..];
      var sorted := SortByCreatedAsc(ws[1..]);
      InsertByCreatedSorted(ws[0], sorted);
      InsertByCreated(ws[0], sorted)
  }

  function InsertByName(c: Category, cs: seq<Category>): (r: seq<Category>)
    ensures multiset(r) == multiset(cs) + multiset{c}
    ensures |r| == |cs| + 1
    ensures r[0] == c || (cs != [] && r[0] == cs[0])
  {
    if cs == [] || NameLe(c.name, cs[0].name) then [c] + cs
    else
      assert cs == [cs[0]] + cs[1..];
      [cs[0]] + InsertByName(c, cs[1..])
  }

  lemma {:induction false} InsertByNameSorted(c: Category, cs: seq<Category>)
    requires NameAscending(cs)
    ensures NameAscending(InsertByName(c, cs))
  {
    if cs != [] && !NameLe(c.name, cs[0].name) {
      NameLeTotal(c.name, cs[0].name);
      var rest := InsertByName(c, cs[1..]);
      InsertByNameSorted(c, cs[1..]);
      var r := [cs[0]] + rest;
      forall i | 0 <= i < |r| - 1 ensures NameLe(r[i].name, r[i + 1].name) {
        if i > 0 {
          assert r[i] == rest[i - 1] && r[i + 1] == rest[i];
        }
      }
    }
  }

  function SortByName(cs: seq<Category>): (r: seq<Category>)
    ensures multiset(r) == multiset(cs)
    ensures NameAscending(r)
  {
    if cs == [] then []
    else
      assert cs == [cs[0]] + cs[1..];
      var sorted := SortByName(cs[1..]);
      InsertByNameSorted(cs[0], sorted);
      InsertByName(cs[0], sorted)
  }

  // ---------------------------------------------------------------------
  // The default-category seed
  // ---------------------------------------------------------------------

  /** One entry of the seed list; every seeded category is a default one and
      has no budget. */
  datatype Seed = Seed(name: string, kind: CategoryType, icon: string, color: string)

  const ExpenseSeeds: seq<Seed> := [
    Seed("Food & Dining", CategoryType.Expense, "utensils", "#E57373"),
    Seed("Transport", CategoryType.Expense, "car", "#64B5F6"),
    Seed("Shopping", CategoryType.Expense, "shopping-bag", "#BA68C8"),
    Seed("Entertainment", CategoryType.Expense, "film", "#FFB74D"),
    Seed("Health", CategoryType.Expense, "heart-pulse", "#81C784"),
    Seed("Bills & Utilities", CategoryType.Expense, "receipt", "#90A4AE"),
    Seed("Education", CategoryType.Expense, "graduation-cap", "#4DB6AC"),
    Seed("Groceries", CategoryType.Expense, "shopping-cart", "#E57373"),
    Seed("Personal Care", CategoryType.Expense, "sparkles", "#81C784"),
    Seed("Other", CategoryType.Expense, "more-horizontal", "#78909C")
  ]

  const IncomeSeeds: seq<Seed> := [
    Seed("Salary", CategoryType.Income, "briefcase", "#4CAF50"),
    Seed("Freelance", CategoryType.Income, "laptop", "#7986CB"),
    Seed("Gift", CategoryType.Income, "gift", "#F06292"),
    Seed("Investment", CategoryType.Income, "trending-up", "#9575CD"),
    Seed("Refund", CategoryType.Income, "rotate-ccw", "#78909C"),
    Seed("Other", CategoryType.Income, "more-horizontal", "#78909C")
  ]

  /** `[...expenseCategories, ...incomeCategories]`. */
  const DefaultSeeds: seq<Seed> := ExpenseSeeds + IncomeSeeds

  /** The document written for a seed entry: `{ ...cat, createdAt }`. */
  function SeedDocument(s: Seed, id: string, createdAt: int): (c: Category)
    ensures c.id == id && c.name == s.name && c.kind == s.kind && c.isDefault && c.budget.None?
  {
    Category(id, s.name, s.kind, s.icon, s.color, None, true, createdAt)
  }

  predicate IsExpenseSeed(s: Seed) { s.kind == CategoryType.Expense }
  predicate IsIncomeSeed(s: Seed) { s.kind == CategoryType.Income }

  lemma ExpenseSeedsAreExpense()
    ensures |ExpenseSeeds| == 10
    ensures forall i :: 0 <= i < |ExpenseSeeds| ==> IsExpenseSeed(ExpenseSeeds[i]) && !IsIncomeSeed(ExpenseSeeds[i])
  {
  }

  lemma IncomeSeedsAreIncome()
    ensures |IncomeSeeds| == 6
    ensures forall i :: 0 <= i < |IncomeSeeds| ==> IsIncomeSeed(IncomeSeeds[i]) && !IsExpenseSeed(IncomeSeeds[i])
  {
  }

  /** The seed holds exactly the ten expense categories, then exactly the
      six income categories. */
  lemma DefaultSeedKinds()
    ensures Seqs.Filter(DefaultSeeds, IsExpenseSeed) == ExpenseSeeds && |ExpenseSeeds| == 10
    ensures Seqs.Filter(DefaultSeeds, IsIncomeSeed) == IncomeSeeds && |IncomeSeeds| == 6
  {
    ExpenseSeedsAreExpense();
    IncomeSeedsAreIncome();
    Seqs.FilterSplit(ExpenseSeeds, IncomeSeeds, IsExpenseSeed, IsIncomeSeed);
  }

  /** Within each type no name occurs twice, and each type has an "Other". */
  lemma DefaultSeedNames()
    ensures ExpenseSeeds[9].name == "Other" && IncomeSeeds[5].name == "Other"
    ensures forall i, j :: 0 <= i < j < |ExpenseSeeds| ==> ExpenseSeeds[i].name != ExpenseSeeds[j].name
    ensures forall i, j :: 0 <= i < j < |IncomeSeeds| ==> IncomeSeeds[i].name != IncomeSeeds[j].name
  {
  }

  /** The batch `addDefaultCategories` builds: one document per seed entry,
      in seed order, each under its own fresh id. */
  function SeedBatch(ss: seq<Seed>, ids: seq<string>, createdAt: int): (b: seq<Category>)
    requires |ids| == |ss|
    ensures |b| == |ss|
    ensures forall i :: 0 <= i < |ss| ==> b[i] == SeedDocument(ss[i], ids[i], createdAt)
  {
    if ss == [] then [] else SeedBatch(ss[..|ss| - 1], ids[..|ids| - 1], createdAt)
                              + [SeedDocument(ss[|ss| - 1], ids[|ids| - 1], createdAt)]
  }

  /** Which collection a bulk step works on. */
  datatype Collection = Wallets | Categories | Transactions

  const ClearOrder: seq<Collection> := [Wallets, Categories, Transactions]

  class UserDocuments {
    var wallets: seq<Wallet>
    var categories: seq<Category>
    var transactions: seq<Transaction>
    var preferences: Option<PartialPreferences>

    constructor()
      ensures wallets == [] && categories == [] && transactions == [] && preferences == None
    {
      wallets := [];
      categories := [];
      transactions := [];
      preferences := None;
    }

    /** `getTransactions`: every transaction, newest date first. */
    method GetTransactions() returns (r: seq<Transaction>)
      ensures multiset(r) == multiset(transactions)
      ensures DateDescending(r)
    {
      r := SortByDateDesc(transactions);
    }

    /** `getWallets`: every wallet, oldest first. */
    method GetWallets() returns (r: seq<Wallet>)
      ensures multiset(r) == multiset(wallets)
      ensures CreatedAscending(r)
    {
      r := SortByCreatedAsc(wallets);
    }

    /** `getCategories`: every category, by name. */
    method GetCategories() returns (r: seq<Category>)
      ensures multiset(r) == multiset(categories)
      ensures NameAscending(r)
    {
      r := SortByName(categories);
    }

    /** `addTransaction` (`addDoc`): the store picks `freshId`, writes the
        record under it and returns it. */
    method AddTransaction(draft: TransactionDraft, freshId: string) returns (id: string)
      modifies this
      ensures id == freshId
      ensures transactions == old(transactions) + [TransactionWithId(draft, id)]
      ensures wallets == old(wallets) && categories == old(categories) && preferences == old(preferences)
    {
      id := freshId;
      transactions := transactions + [TransactionWithId(draft, id)];
    }

    /** `addWallet` (`addDoc`). */
    method AddWallet(draft: WalletDraft, freshId: string) returns (id: string)
      modifies this
      ensures id == freshId
      ensures wallets == old(wallets) + [WalletWithId(draft, id)]
      ensures transactions == old(transactions) && categories == old(categories) && preferences == old(preferences)
    {
      id := freshId;
      wallets := wallets + [WalletWithId(draft, id)];
    }

    /** `addDefaultCategories`: a loop adds one document per seed entry to a
        batch, then the batch is committed all or nothing. Nothing checks for
        earlier seeds, so seeding twice duplicates the set. */
    method AddDefaultCategories(freshIds: seq<string>, now: int, commit: Outcome) returns (r: Outcome)
      requires |freshIds| == |DefaultSeeds|
      modifies this
      ensures r == commit
      ensures commit.Pass? ==> categories == old(categories) + SeedBatch(DefaultSeeds, freshIds, now)
      ensures commit.Fail? ==> categories == old(categories)
      ensures wallets == old(wallets) && transactions == old(transactions) && preferences == old(preferences)
    {
      var batch: seq<Category> := [];
      for i := 0 to |DefaultSeeds|
        invariant batch == SeedBatch(DefaultSeeds[..i], freshIds[..i], now)
      {
        batch := batch + [SeedDocument(DefaultSeeds[i], freshIds[i], now)];
        assert DefaultSeeds[..i + 1][..i] == DefaultSeeds[..i];
        assert freshIds[..i + 1][..i] == freshIds[..i];
      }
      assert DefaultSeeds[..|DefaultSeeds|] == DefaultSeeds;
      assert freshIds[..|freshIds|] == freshIds;
      r := commit;
      if commit.Pass? {
        categories := categories + batch;
      }
    }

    /** One iteration of the bulk clear: a batch deleting every document of
        the collection. */
    method ClearCollection(c: Collection)
      modifies this
      ensures c == Wallets ==> wallets == [] && categories == old(categories) && transactions == old(transactions)
      ensures c == Categories ==> categories == [] && wallets == old(wallets) && transactions == old(transactions)
      ensures c == Transactions ==> transactions == [] && wallets == old(wallets) && categories == old(categories)
      ensures preferences == old(preferences)
    {
      match c
      case Wallets => wallets := [];
      case Categories => categories := [];
      case Transactions => transactions := [];
    }

    /** `clearAllUserData`: clears wallets, categories and transactions in
        that order, then deletes the preferences document. `failAt` is the
        step (0..3) whose write fails, if any; the steps before it stay
        done and the later ones are not attempted. */
    method ClearAllUserData(failAt: Option<nat>) returns (r: Outcome)
      modifies this
      ensures r.Pass? <==> failAt.None? || failAt.value > 3
      ensures r.Pass? ==> wallets == [] && categories == [] && transactions == [] && preferences == None
      ensures failAt == Some(0) ==> wallets == old(wallets) && categories == old(categories)
                                    && transactions == old(transactions) && preferences == old(preferences)
      ensures failAt == Some(1) ==> wallets == [] && categories == old(categories)
                                    && transactions == old(transactions) && preferences == old(preferences)
      ensures failAt == Some(2) ==> wallets == [] && categories == []
                                    && transactions == old(transactions) && preferences == old(preferences)
      ensures failAt == Some(3) ==> wallets == [] && categories == [] && transactions == []
                                    && preferences == old(preferences)
    {
      for k := 0 to |ClearOrder|
        invariant failAt.Some? && failAt.value < k ==> false
        invariant wallets == (if k > 0 then [] else old(wallets))
        invariant categories == (if k > 1 then [] else old(categories))
        invariant transactions == (if k > 2 then [] else old(transactions))
        invariant preferences == old(preferences)
      {
        if failAt == Some(k) {
          return Fail("batch write failed");
        }
        ClearCollection(ClearOrder[k]);
      }
      if failAt == Some(3) {
        return Fail("delete failed");
      }
      preferences := None;
      r := Pass;
    }
  }

  /** The newest-first order makes "recent" mean "latest": the first `n`
      transactions of the loaded list are dated no earlier than any stored
      transaction they leave out. */
  lemma PrefixHoldsLatest(stored: seq<Transaction>, n: nat, t: Transaction)
    requires n <= |stored|
    requires t in multiset(stored) - multiset(SortByDateDesc(stored)[..n])
    ensures forall i :: 0 <= i < n ==> SortByDateDesc(stored)[i].date >= t.date
  {
    var ts := SortByDateDesc(stored);
    LeftOutIsLater(ts, n, t);
  }

  /** In a date-descending list, an element left out of the first `n` sits
      at or after position `n`. */
  lemma LeftOutIsLater(ts: seq<Transaction>, n: nat, t: Transaction)
    requires DateDescending(ts) && n <= |ts|
    requires t in multiset(ts) - multiset(ts[..n])
    ensures forall i :: 0 <= i < n ==> ts[i].date >= t.date
  {
    var shown, rest := ts[..n], ts[n..];
    assert ts == shown + rest;
    assert multiset(ts) - multiset(shown) == multiset(rest);
    var j :| 0 <= j < |rest| && rest[j] == t;
    assert ts[n + j] == t;
  }

  /** Prepending keeps the order only when the new transaction is dated no
      earlier than the current first one; otherwise the session list is out
      of date order until the next load. */
  lemma PrependKeepsDateOrder(t: Transaction, ts: seq<Transaction>)
    requires DateDescending(ts)
    ensures DateDescending([t] + ts) <==> ts == [] || t.date >= ts[0].date
  {
    if ts != [] && t.date >= ts[0].date {
      forall i, j | 0 <= i < j < |[t] + ts| ensures ([t] + ts)[i].date >= ([t] + ts)[j].date {
        if i > 0 {
          assert ([t] + ts)[i] == ts[i - 1];
        }
      }
    }
    if DateDescending([t] + ts) && ts != [] {
      assert ([t] + ts)[0] == t && ([t] + ts)[1] == ts[0];
      assert ([t] + ts)[0].date >= ([t] + ts)[1].date;
    }
  }
}
