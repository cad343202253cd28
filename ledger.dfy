/** The ledger aggregation engine of the transaction store: wallet balances,
    period totals over Personal wallets, the detail join and the "recent"
    prefix. The store's helpers read its `transactions` list; here that list
    is the parameter `ts`. */
module Ledger {
  import opened Types
  import Seqs

  // ---------------------------------------------------------------------
  // Wallet balance
  // ---------------------------------------------------------------------

  /** What a transaction does to wallet `w` as its source. */
  function SourceEffect(t: Transaction, w: string): real {
    if t.walletId != w then 0.0
    else match t.kind
      case Income => t.amount
      case OpeningBalance => t.amount
      case Expense => -t.amount
      case Transfer => -t.amount
  }

  /** What a transaction does to wallet `w` as its destination: only a
      transfer arrives anywhere. */
  function DestinationEffect(t: Transaction, w: string): real {
    if t.toWalletId == Some(w) && t.kind == TransactionType.Transfer then t.amount else 0.0
  }

  function Contribution(t: Transaction, w: string): real {
    SourceEffect(t, w) + DestinationEffect(t, w)
  }

  /** Does the transaction move money in or out of `w`? */
  predicate Touches(t: Transaction, w: string) {
    t.walletId == w || (t.toWalletId == Some(w) && t.kind == TransactionType.Transfer)
  }

  /** The balance of `w`: the signed contributions of the transactions,
      accumulated in list order. */
  function Balance(ts: seq<Transaction>, w: string): real {
    if ts == [] then 0.0 else Balance(ts[..|ts| - 1], w) + Contribution(ts[|ts| - 1], w)
  }

  /** `getWalletBalance`: the loop of the source, proved to compute `Balance`. */
  method WalletBalance(ts: seq<Transaction>, walletId: string) returns (balance: real)
    ensures balance == Balance(ts, walletId)
  {
    balance := 0.0;
    for i := 0 to |ts|
      invariant balance == Balance(ts[..i], walletId)
    {
      var t := ts[i];
      if t.walletId == walletId {
        if t.kind == TransactionType.Income || t.kind == TransactionType.OpeningBalance {
          balance := balance + t.amount;
        } else if t.kind == TransactionType.Expense {
          balance := balance - t.amount;
        } else if t.kind == TransactionType.Transfer {
          balance := balance - t.amount;
        }
      }
      if t.toWalletId == Some(walletId) && t.kind == TransactionType.Transfer {
        balance := balance + t.amount;
      }
      assert ts[..i + 1][..i] == ts[..i];
    }
    assert ts[..|ts|] == ts;
  }

  /** Balances add up over a split of the list. */
  lemma {:induction false} BalanceConcat(a: seq<Transaction>, b: seq<Transaction>, w: string)
    ensures Balance(a + b, w) == Balance(a, w) + Balance(b, w)
  {
    if b == [] {
      assert a + b == a;
    } else {
      var b' := b[..|b| - 1];
      assert (a + b)[..|a + b| - 1] == a + b';
      BalanceConcat(a, b', w);
    }
  }

  /** A wallet that no transaction touches, unknown ids included, has balance 0. */
  lemma {:induction false} BalanceOfUntouchedWallet(ts: seq<Transaction>, w: string)
    requires forall i :: 0 <= i < |ts| ==> !Touches(ts[i], w)
    ensures Balance(ts, w) == 0.0
  {
    if ts != [] {
      BalanceOfUntouchedWallet(ts[..|ts| - 1], w);
    }
  }

  /** Appending a transfer of `a` from `s` to `d` (s != d) lowers `s` by `a`,
      raises `d` by `a` and leaves every other wallet as it was; so the two
      wallets together hold what they held before. */
  lemma TransferConservation(ts: seq<Transaction>, t: Transaction, s: string, d: string, other: string)
    requires t.kind == TransactionType.Transfer && t.walletId == s && t.toWalletId == Some(d) && s != d
    requires other != s && other != d
    ensures Balance(ts + [t], s) == Balance(ts, s) - t.amount
    ensures Balance(ts + [t], d) == Balance(ts, d) + t.amount
    ensures Balance(ts + [t], other) == Balance(ts, other)
    ensures Balance(ts + [t], s) + Balance(ts + [t], d) == Balance(ts, s) + Balance(ts, d)
  {
    BalanceConcat(ts, [t], s);
    BalanceConcat(ts, [t], d);
    BalanceConcat(ts, [t], other);
  }

  /** A transfer from a wallet to itself leaves it unchanged, and a
      non-transfer that carries a stray destination adds nothing there. */
  lemma SelfTransferAndStrayDestination(ts: seq<Transaction>, t: Transaction, w: string)
    requires (t.kind == TransactionType.Transfer && t.walletId == w && t.toWalletId == Some(w))
          || (t.kind != TransactionType.Transfer && t.walletId != w && t.toWalletId == Some(w))
    ensures Balance(ts + [t], w) == Balance(ts, w)
  {
    BalanceConcat(ts, [t], w);
  }

  /** An income followed by an expense of the same amount on the same wallet
      returns every balance to its previous value. */
  lemma ReversingPair(ts: seq<Transaction>, inc: Transaction, exp: Transaction, w: string)
    requires inc.kind == TransactionType.Income && exp.kind == TransactionType.Expense
    requires inc.walletId == exp.walletId && inc.amount == exp.amount
    ensures Balance(ts + [inc, exp], w) == Balance(ts, w)
  {
    BalanceConcat(ts, [inc, exp], w);
    assert [inc, exp][..1] == [inc];
    assert [inc][..0] == [];
    assert Balance([inc], w) == Contribution(inc, w);
    assert Balance([inc, exp], w) == Contribution(inc, w) + Contribution(exp, w);
  }

  // ---------------------------------------------------------------------
  // Period totals
  // ---------------------------------------------------------------------

  /** The ids of the Personal wallets, in wallet order. */
  function PersonalWalletIds(wallets: seq<Wallet>): (ids: seq<string>)
    ensures forall i :: 0 <= i < |wallets| && wallets[i].kind == WalletType.Personal ==> wallets[i].id in ids
    ensures forall id :: id in ids ==> exists i :: 0 <= i < |wallets| && wallets[i].kind == WalletType.Personal
                                                  && wallets[i].id == id
  {
    if wallets == [] then []
    else
      var rest := PersonalWalletIds(wallets[1..]);
      assert forall id :: id in rest ==> exists i :: 0 < i < |wallets| && wallets[i].kind == WalletType.Personal
                                                   && wallets[i].id == id by {
        forall id | id in rest
          ensures exists i :: 0 < i < |wallets| && wallets[i].kind == WalletType.Personal && wallets[i].id == id
        {
          var j :| 0 <= j < |wallets[1..]| && wallets[1..][j].kind == WalletType.Personal && wallets[1..][j].id == id;
          assert wallets[j + 1] == wallets[1..][j];
        }
      }
      (if wallets[0].kind == WalletType.Personal then [wallets[0].id] else []) + rest
  }

  /** The filter of the period totals: the exact kind, a Personal source
      wallet and a date inside the closed range. */
  predicate CountsFor(t: Transaction, kind: TransactionType, personal: seq<string>, start: int, end: int) {
    t.kind == kind && t.walletId in personal && start <= t.date && t.date <= end
  }

  function PeriodSum(ts: seq<Transaction>, kind: TransactionType, personal: seq<string>, start: int, end: int): real {
    if ts == [] then 0.0
    else
      var t := ts[|ts| - 1];
      PeriodSum(ts[..|ts| - 1], kind, personal, start, end) + (if CountsFor(t, kind, personal, start, end) then t.amount else 0.0)
  }

  /** `getTotalIncomeForPeriod`. */
  function TotalIncomeForPeriod(ts: seq<Transaction>, start: int, end: int, wallets: seq<Wallet>): real {
    PeriodSum(ts, TransactionType.Income, PersonalWalletIds(wallets), start, end)
  }

  /** `getTotalExpenseForPeriod`. */
  function TotalExpenseForPeriod(ts: seq<Transaction>, start: int, end: int, wallets: seq<Wallet>): real {
    PeriodSum(ts, TransactionType.Expense, PersonalWalletIds(wallets), start, end)
  }

  lemma {:induction false} PeriodSumConcat(a: seq<Transaction>, b: seq<Transaction>, kind: TransactionType,
                                          personal: seq<string>, start: int, end: int)
    ensures PeriodSum(a + b, kind, personal, start, end)
         == PeriodSum(a, kind, personal, start, end) + PeriodSum(b, kind, personal, start, end)
  {
    if b == [] {
      assert a + b == a;
    } else {
      var b' := b[..|b| - 1];
      assert (a + b)[..|a + b| - 1] == a + b';
      PeriodSumConcat(a, b', kind, personal, start, end);
    }
  }

  /** Wherever it stands in the list, a transaction of another kind (so a
      transfer or an opening balance), one on a wallet that is not Personal,
      or one dated outside the range leaves the total unchanged; one that
      passes the filter, boundary dates included, adds exactly its amount. */
  lemma PeriodSumOfInserted(a: seq<Transaction>, t: Transaction, b: seq<Transaction>, kind: TransactionType,
                            personal: seq<string>, start: int, end: int)
    ensures PeriodSum(a + [t] + b, kind, personal, start, end)
         == PeriodSum(a + b, kind, personal, start, end)
            + (if CountsFor(t, kind, personal, start, end) then t.amount else 0.0)
  {
    PeriodSumConcat(a + [t], b, kind, personal, start, end);
    PeriodSumConcat(a, [t], kind, personal, start, end);
    PeriodSumConcat(a, b, kind, personal, start, end);
    assert [t][..0] == [];
  }

  /** With no matching transaction the total is 0. */
  lemma {:induction false} PeriodSumWithoutMatches(ts: seq<Transaction>, kind: TransactionType,
                                                  personal: seq<string>, start: int, end: int)
    requires forall i :: 0 <= i < |ts| ==> !CountsFor(ts[i], kind, personal, start, end)
    ensures PeriodSum(ts, kind, personal, start, end) == 0.0
  {
    if ts != [] {
      PeriodSumWithoutMatches(ts[..|ts| - 1], kind, personal, start, end);
    }
  }

  /** A wallet id carried only by Custodial wallets is never among the
      Personal ids, so its transactions never reach a period total. */
  lemma CustodialWalletExcluded(wallets: seq<Wallet>, id: string)
    requires forall i :: 0 <= i < |wallets| && wallets[i].id == id ==> wallets[i].kind == WalletType.Custodial
    ensures id !in PersonalWalletIds(wallets)
  {
  }

  /** With non-negative amounts a period total is non-negative. */
  lemma {:induction false} PeriodSumNonNegative(ts: seq<Transaction>, kind: TransactionType,
                                               personal: seq<string>, start: int, end: int)
    requires forall i :: 0 <= i < |ts| ==> ts[i].amount >= 0.0
    ensures PeriodSum(ts, kind, personal, start, end) >= 0.0
  {
    if ts != [] {
      PeriodSumNonNegative(ts[..|ts| - 1], kind, personal, start, end);
    }
  }

  // ---------------------------------------------------------------------
  // Detail join and recent transactions
  // ---------------------------------------------------------------------

  const UnknownWalletName: string := "Unknown"

  /** `wallet?.name || 'Unknown'`. */
  function WalletName(wallets: seq<Wallet>, id: string): (name: string)
    ensures name != ""
    ensures Seqs.FindFirst(wallets, WalletIdOf, id).None? ==> name == UnknownWalletName
    ensures Seqs.FindFirst(wallets, WalletIdOf, id).Some? && Seqs.FindFirst(wallets, WalletIdOf, id).value.name != ""
            ==> name == Seqs.FindFirst(wallets, WalletIdOf, id).value.name
  {
    match Seqs.FindFirst(wallets, WalletIdOf, id)
    case Some(w) => if w.name != "" then w.name else UnknownWalletName
    case None => UnknownWalletName
  }

  /** Looks an optional id up only when it is truthy, as `t.x ? find(...) : undefined`:
      the first wallet carrying the id, if any. */
  function ResolveWallet(wallets: seq<Wallet>, id: Option<string>): (r: Option<Wallet>)
    ensures r.None? <==> !IsSetId(id) || forall i :: 0 <= i < |wallets| ==> wallets[i].id != id.value
    ensures r.Some? ==> exists i :: 0 <= i < |wallets| && wallets[i] == r.value && wallets[i].id == id.value
                                    && forall j :: 0 <= j < i ==> wallets[j].id != id.value
  {
    if IsSetId(id) then Seqs.FindFirst(wallets, WalletIdOf, id.value) else None
  }

  /** The first category carrying a truthy id, if any. */
  function ResolveCategory(categories: seq<Category>, id: Option<string>): (r: Option<Category>)
    ensures r.None? <==> !IsSetId(id) || forall i :: 0 <= i < |categories| ==> categories[i].id != id.value
    ensures r.Some? ==> exists i :: 0 <= i < |categories| && categories[i] == r.value && categories[i].id == id.value
                                    && forall j :: 0 <= j < i ==> categories[j].id != id.value
  {
    if IsSetId(id) then Seqs.FindFirst(categories, CategoryIdOf, id.value) else None
  }

  /** One entry of `getTransactionsWithDetails`: the transaction with the
      name of its wallet, and the name of its destination wallet and the
      name, icon and colour of its category where those resolve. */
  function Detail(t: Transaction, wallets: seq<Wallet>, categories: seq<Category>): (d: TransactionWithDetails)
    ensures d.tx == t
    ensures d.walletName != "" && d.walletName == WalletName(wallets, t.walletId)
    ensures d.toWalletName.Some? <==> ResolveWallet(wallets, t.toWalletId).Some?
    ensures d.toWalletName.Some? ==> d.toWalletName.value == ResolveWallet(wallets, t.toWalletId).value.name
    ensures d.categoryName.Some? <==> ResolveCategory(categories, t.categoryId).Some?
    ensures d.categoryIcon.Some? <==> ResolveCategory(categories, t.categoryId).Some?
    ensures d.categoryColor.Some? <==> ResolveCategory(categories, t.categoryId).Some?
    ensures ResolveCategory(categories, t.categoryId).Some? ==>
              var c := ResolveCategory(categories, t.categoryId).value;
              d.categoryName == Some(c.name) && d.categoryIcon == Some(c.icon) && d.categoryColor == Some(c.color)
    ensures !IsSetId(t.categoryId) ==> d.categoryName.None? && d.categoryIcon.None? && d.categoryColor.None?
  {
    var toWallet := ResolveWallet(wallets, t.toWalletId);
    var category := ResolveCategory(categories, t.categoryId);
    TransactionWithDetails(
      t,
      WalletName(wallets, t.walletId),
      if toWallet.Some? then Some(toWallet.value.name) else None,
      if category.Some? then Some(category.value.name) else None,
      if category.Some? then Some(category.value.icon) else None,
      if category.Some? then Some(category.value.color) else None)
  }

  /** `getTransactionsWithDetails`: one joined entry per transaction, same
      order, every transaction field carried over. */
  function TransactionsWithDetails(ts: seq<Transaction>, wallets: seq<Wallet>, categories: seq<Category>)
    : (r: seq<TransactionWithDetails>)
    ensures |r| == |ts|
    ensures forall i :: 0 <= i < |ts| ==> r[i].tx == ts[i] && r[i] == Detail(ts[i], wallets, categories)
  {
    seq(|ts|, i requires 0 <= i < |ts| => Detail(ts[i], wallets, categories))
  }

  const DefaultRecentLimit: int := 10

  /** `getRecentTransactions`: the first `limit` joined entries (`slice(0, limit)`). */
  function RecentTransactions(ts: seq<Transaction>, wallets: seq<Wallet>, categories: seq<Category>, limit: int)
    : (r: seq<TransactionWithDetails>)
    ensures limit >= 0 ==> |r| == if limit < |ts| then limit else |ts|
    ensures |r| <= |ts|
    ensures forall i :: 0 <= i < |r| ==> r[i] == Detail(ts[i], wallets, categories)
  {
    Seqs.Take(TransactionsWithDetails(ts, wallets, categories), limit)
  }

  /** With unique ids, the join shows each transaction with the records it
      refers to: its wallet's name (when non-empty), its destination
      wallet's name, and its category's name, icon and colour. */
  lemma DetailShowsReferencedRecords(t: Transaction, wallets: seq<Wallet>, categories: seq<Category>,
                                     w: nat, c: nat)
    requires forall j, k :: 0 <= j < k < |wallets| ==> wallets[j].id != wallets[k].id
    requires forall j, k :: 0 <= j < k < |categories| ==> categories[j].id != categories[k].id
    requires w < |wallets| && c < |categories|
    ensures t.walletId == wallets[w].id && wallets[w].name != "" ==>
              Detail(t, wallets, categories).walletName == wallets[w].name
    ensures t.toWalletId == Some(wallets[w].id) && wallets[w].id != "" ==>
              Detail(t, wallets, categories).toWalletName == Some(wallets[w].name)
    ensures t.categoryId == Some(categories[c].id) && categories[c].id != "" ==>
              Detail(t, wallets, categories).categoryName == Some(categories[c].name)
              && Detail(t, wallets, categories).categoryIcon == Some(categories[c].icon)
              && Detail(t, wallets, categories).categoryColor == Some(categories[c].color)
  {
    FindUnique(wallets, w);
    FindUniqueCategory(categories, c);
    if t.toWalletId == Some(wallets[w].id) && wallets[w].id != "" {
      var r := ResolveWallet(wallets, t.toWalletId);
      var i :| 0 <= i < |wallets| && wallets[i] == r.value && wallets[i].id == wallets[w].id
               && forall j :: 0 <= j < i ==> wallets[j].id != wallets[w].id;
      assert i == w;
    }
    if t.categoryId == Some(categories[c].id) && categories[c].id != "" {
      var r := ResolveCategory(categories, t.categoryId);
      var i :| 0 <= i < |categories| && categories[i] == r.value && categories[i].id == categories[c].id
               && forall j :: 0 <= j < i ==> categories[j].id != categories[c].id;
      assert i == c;
    }
  }

  /** With unique ids, looking up the id of the wallet at `w` finds it. */
  lemma FindUnique(wallets: seq<Wallet>, w: nat)
    requires forall j, k :: 0 <= j < k < |wallets| ==> wallets[j].id != wallets[k].id
    requires w < |wallets|
    ensures Seqs.FindFirst(wallets, WalletIdOf, wallets[w].id) == Some(wallets[w])
  {
    var r := Seqs.FindFirst(wallets, WalletIdOf, wallets[w].id);
    assert WalletIdOf(wallets[w]) == wallets[w].id;
    var i :| 0 <= i < |wallets| && wallets[i] == r.value && WalletIdOf(wallets[i]) == wallets[w].id
             && forall j :: 0 <= j < i ==> WalletIdOf(wallets[j]) != wallets[w].id;
    assert i < w ==> wallets[i].id != wallets[w].id;
    assert i <= w;
  }

  /** With unique ids, looking up the id of the category at `c` finds it. */
  lemma FindUniqueCategory(categories: seq<Category>, c: nat)
    requires forall j, k :: 0 <= j < k < |categories| ==> categories[j].id != categories[k].id
    requires c < |categories|
    ensures Seqs.FindFirst(categories, CategoryIdOf, categories[c].id) == Some(categories[c])
  {
    var r := Seqs.FindFirst(categories, CategoryIdOf, categories[c].id);
    assert CategoryIdOf(categories[c]) == categories[c].id;
    var i :| 0 <= i < |categories| && categories[i] == r.value && CategoryIdOf(categories[i]) == categories[c].id
             && forall j :: 0 <= j < i ==> CategoryIdOf(categories[j]) != categories[c].id;
    assert i < c ==> categories[i].id != categories[c].id;
    assert i <= c;
  }

  // ---------------------------------------------------------------------
  // Scenarios
  // ---------------------------------------------------------------------

  /** An opening balance of 5000 on an empty wallet, then a transfer of 1000
      from a wallet holding 2000 into it. */
  lemma OpeningBalanceThenTransfer(ob: Transaction, income: Transaction, tr: Transaction)
    requires ob.kind == TransactionType.OpeningBalance && ob.walletId == "cash" && ob.amount == 5000.0
    requires ob.toWalletId == None
    requires income.kind == TransactionType.Income && income.walletId == "bank" && income.amount == 2000.0
    requires income.toWalletId == None
    requires tr.kind == TransactionType.Transfer && tr.walletId == "bank" && tr.toWalletId == Some("cash")
    requires tr.amount == 1000.0
    ensures Balance([ob], "cash") == 5000.0
    ensures Balance([ob, income, tr], "bank") == 1000.0
    ensures Balance([ob, income, tr], "cash") == 6000.0
  {
    assert [ob, income, tr][..2] == [ob, income];
    assert [ob, income][..1] == [ob];
    assert [ob][..0] == [];
    assert Balance([ob], "bank") == 0.0;
    assert Balance([ob, income], "bank") == 2000.0;
  }
}
