/** The home dashboard: the balance summary over the wallets, the quick-add
    categories, the recent list and the sign shown before an amount. */
module Home {
  import opened Types
  import Seqs
  import Ledger
  import WalletStore
  import CategoryStore
  import TransactionStore

  // ---------------------------------------------------------------------
  // Bank or cash
  // ---------------------------------------------------------------------

  /** `toLowerCase` on the ASCII letters. */
  function LowerChar(c: char): char {
    if 'A' <= c <= 'Z' then (c as int + 32) as char else c
  }

  function Lower(s: string): string {
    seq(|s|, i requires 0 <= i < |s| => LowerChar(s[i]))
  }

  /** `s.includes(sub)`: `sub` starts at some position of `s`. */
  predicate Contains(s: string, sub: string) {
    (|sub| <= |s| && s[..|sub|] == sub) || (s != [] && Contains(s[1..], sub))
  }

  /** A wallet counts as bank money when its lower-cased name mentions a
      bank, UPI or a card; every other personal wallet counts as cash. */
  predicate IsBankWallet(w: Wallet) {
    var name := Lower(w.name);
    Contains(name, "bank") || Contains(name, "upi") || Contains(name, "card")
  }

  predicate IsCashWallet(w: Wallet) {
    !IsBankWallet(w)
  }

  /** Names the source's rule sorts as bank money, whatever their case. */
  lemma BankNames()
    ensures IsBankWallet(Wallet("w", "My Bank/UPI", WalletType.Personal, "", true, 0))
    ensures IsBankWallet(Wallet("w", "Credit CARD", WalletType.Personal, "", false, 0))
  {
    var bank := Lower("My Bank/UPI");
    assert bank[3..][..4] == "bank";
    assert Contains(bank[3..], "bank");
    assert Contains(bank[2..], "bank");
    assert Contains(bank[1..], "bank");
    var card := Lower("Credit CARD");
    assert card[7..][..4] == "card";
    assert Contains(card[7..], "card");
    assert Contains(card[6..], "card");
    assert Contains(card[5..], "card");
    assert Contains(card[4..], "card");
    assert Contains(card[3..], "card");
    assert Contains(card[2..], "card");
    assert Contains(card[1..], "card");
  }

  // ---------------------------------------------------------------------
  // Balances
  // ---------------------------------------------------------------------

  /** The sum of the balances of the given wallets. */
  function SumBalances(ts: seq<Transaction>, ws: seq<Wallet>): real {
    if ws == [] then 0.0 else Ledger.Balance(ts, ws[0].id) + SumBalances(ts, ws[1..])
  }

  lemma {:induction false} SumBalancesConcat(ts: seq<Transaction>, a: seq<Wallet>, b: seq<Wallet>)
    ensures SumBalances(ts, a + b) == SumBalances(ts, a) + SumBalances(ts, b)
  {
    if a == [] {
      assert a + b == b;
    } else {
      assert (a + b)[1..] == a[1..] + b;
      SumBalancesConcat(ts, a[1..], b);
    }
  }

  /** The balance sum of the wallets that satisfy `p`. */
  function SumWhere(ts: seq<Transaction>, ws: seq<Wallet>, p: Wallet -> bool): real {
    if ws == [] then 0.0
    else (if p(ws[0]) then Ledger.Balance(ts, ws[0].id) else 0.0) + SumWhere(ts, ws[1..], p)
  }

  /** It is the balance sum of the filtered list. */
  lemma {:induction false} SumWhereIsFilteredSum(ts: seq<Transaction>, ws: seq<Wallet>, p: Wallet -> bool)
    ensures SumWhere(ts, ws, p) == SumBalances(ts, Seqs.Filter(ws, p))
  {
    if ws != [] {
      SumWhereIsFilteredSum(ts, ws[1..], p);
      if p(ws[0]) {
        assert Seqs.Filter(ws, p) == [ws[0]] + Seqs.Filter(ws[1..], p);
        assert ([ws[0]] + Seqs.Filter(ws[1..], p))[1..] == Seqs.Filter(ws[1..], p);
        assert SumBalances(ts, [ws[0]] + Seqs.Filter(ws[1..], p))
            == Ledger.Balance(ts, ws[0].id) + SumBalances(ts, Seqs.Filter(ws[1..], p));
      } else {
        assert Seqs.Filter(ws, p) == [] + Seqs.Filter(ws[1..], p);
        assert [] + Seqs.Filter(ws[1..], p) == Seqs.Filter(ws[1..], p);
      }
    }
  }

  /** Bank and cash split every wallet's balance between them. */
  lemma {:induction false} BankPlusCash(ts: seq<Transaction>, ws: seq<Wallet>)
    ensures SumWhere(ts, ws, IsBankWallet) + SumWhere(ts, ws, IsCashWallet) == SumBalances(ts, ws)
  {
    if ws != [] {
      BankPlusCash(ts, ws[1..]);
    }
  }

  /** One more wallet at the end adds its share to the sum. */
  lemma {:induction false} SumWhereSnoc(ts: seq<Transaction>, ws: seq<Wallet>, w: Wallet, p: Wallet -> bool)
    ensures SumWhere(ts, ws + [w], p) == SumWhere(ts, ws, p) + (if p(w) then Ledger.Balance(ts, w.id) else 0.0)
  {
    if ws == [] {
      assert [w][1..] == [];
    } else {
      assert (ws + [w])[1..] == ws[1..] + [w];
      SumWhereSnoc(ts, ws[1..], w, p);
    }
  }

  /** A custodial wallet shown with its balance. */
  datatype WalletWithBalance = WalletWithBalance(wallet: Wallet, balance: real)

  /** The `balances` memo. */
  datatype Balances = Balances(
    total: real,
    bank: real,
    cash: real,
    custodial: real,
    custodialWithBalances: seq<WalletWithBalance>)

  /** `custodialWallets.map(...)`. */
  function WithBalances(ts: seq<Transaction>, ws: seq<Wallet>): seq<WalletWithBalance> {
    seq(|ws|, i requires 0 <= i < |ws| => WalletWithBalance(ws[i], Ledger.Balance(ts, ws[i].id)))
  }

  /** `reduce((sum, { balance }) => sum + balance, 0)`. */
  function SumRows(rows: seq<WalletWithBalance>): real {
    if rows == [] then 0.0 else SumRows(rows[..|rows| - 1]) + rows[|rows| - 1].balance
  }

  /** The listed balances add up to the wallets' balance sum. */
  lemma {:induction false} SumRowsOfWithBalances(ts: seq<Transaction>, ws: seq<Wallet>)
    ensures SumRows(WithBalances(ts, ws)) == SumBalances(ts, ws)
  {
    if ws != [] {
      var n := |ws| - 1;
      SumRowsOfWithBalances(ts, ws[..n]);
      assert WithBalances(ts, ws)[..n] == WithBalances(ts, ws[..n]);
      SumBalancesConcat(ts, ws[..n], [ws[n]]);
      assert ws[..n] + [ws[n]] == ws;
      assert SumBalances(ts, [ws[n]]) == Ledger.Balance(ts, ws[n].id) by {
        assert [ws[n]][1..] == [];
      }
    }
  }

  function PersonalOf(wallets: seq<Wallet>): seq<Wallet> {
    Seqs.Filter(wallets, WalletStore.IsPersonal)
  }

  function CustodialOf(wallets: seq<Wallet>): seq<Wallet> {
    Seqs.Filter(wallets, WalletStore.IsCustodial)
  }

  /** The loop over the personal wallets: each balance goes into the total
      and into the bank or the cash sum. */
  method PersonalSums(ts: seq<Transaction>, personal: seq<Wallet>) returns (total: real, bank: real, cash: real)
    ensures total == SumBalances(ts, personal)
    ensures bank == SumWhere(ts, personal, IsBankWallet)
    ensures cash == SumWhere(ts, personal, IsCashWallet)
    ensures bank + cash == total
  {
    total, bank, cash := 0.0, 0.0, 0.0;
    for i := 0 to |personal|
      invariant bank == SumWhere(ts, personal[..i], IsBankWallet)
      invariant cash == SumWhere(ts, personal[..i], IsCashWallet)
      invariant total == bank + cash
    {
      var w := personal[i];
      assert personal[..i + 1] == personal[..i] + [w];
      SumWhereSnoc(ts, personal[..i], w, IsBankWallet);
      SumWhereSnoc(ts, personal[..i], w, IsCashWallet);
      var balance := Ledger.WalletBalance(ts, w.id);
      total := total + balance;
      var name := Lower(w.name);
      if Contains(name, "bank") || Contains(name, "upi") || Contains(name, "card") {
        bank := bank + balance;
      } else {
        cash := cash + balance;
      }
    }
    assert personal[..|personal|] == personal;
    BankPlusCash(ts, personal);
  }

  /** `balances`: the total, bank and cash sums over the personal wallets,
      and the custodial wallets listed with their balances. */
  method ComputeBalances(ts: seq<Transaction>, wallets: seq<Wallet>) returns (b: Balances)
    ensures b.total == SumBalances(ts, PersonalOf(wallets))
    ensures b.bank == SumBalances(ts, Seqs.Filter(PersonalOf(wallets), IsBankWallet))
    ensures b.cash == SumBalances(ts, Seqs.Filter(PersonalOf(wallets), IsCashWallet))
    ensures b.bank + b.cash == b.total
    ensures |b.custodialWithBalances| == |CustodialOf(wallets)|
    ensures forall i :: 0 <= i < |b.custodialWithBalances| ==>
              b.custodialWithBalances[i].wallet == CustodialOf(wallets)[i]
              && b.custodialWithBalances[i].balance == Ledger.Balance(ts, CustodialOf(wallets)[i].id)
    ensures b.custodial == SumBalances(ts, CustodialOf(wallets))
  {
    var personal := Seqs.Filter(wallets, WalletStore.IsPersonal);
    var custodial := Seqs.Filter(wallets, WalletStore.IsCustodial);
    var total, bank, cash := PersonalSums(ts, personal);
    SumWhereIsFilteredSum(ts, personal, IsBankWallet);
    SumWhereIsFilteredSum(ts, personal, IsCashWallet);
    var rows := WithBalances(ts, custodial);
    SumRowsOfWithBalances(ts, custodial);
    b := Balances(total, bank, cash, SumRows(rows), rows);
  }

  // ---------------------------------------------------------------------
  // How a new transaction moves the total
  // ---------------------------------------------------------------------

  /** How many of the wallets carry the id. */
  function Count(ws: seq<Wallet>, id: string): nat {
    if ws == [] then 0 else (if ws[0].id == id then 1 else 0) + Count(ws[1..], id)
  }

  /** What one transaction adds to the balance sum of the wallets. */
  function SumContribution(t: Transaction, ws: seq<Wallet>): real {
    if ws == [] then 0.0 else Ledger.Contribution(t, ws[0].id) + SumContribution(t, ws[1..])
  }

  /** A transaction added to the store (at the front of the list) moves the
      balance sum by its contribution to each wallet. */
  lemma {:induction false} SumBalancesOfAdded(ts: seq<Transaction>, t: Transaction, ws: seq<Wallet>)
    ensures SumBalances([t] + ts, ws) == SumContribution(t, ws) + SumBalances(ts, ws)
  {
    if ws != [] {
      TransactionStore.AddedTransactionBalance(ts, t, ws[0].id);
      SumBalancesOfAdded(ts, t, ws[1..]);
    }
  }

  /** `n` copies of `x` added up. */
  function Times(n: nat, x: real): real {
    if n == 0 then 0.0 else x + Times(n - 1, x)
  }

  /** Income, an opening balance or an expense moves the sum by its signed
      amount once per listed copy of its wallet. */
  lemma {:induction false} SourceContributionByCount(t: Transaction, ws: seq<Wallet>)
    requires t.kind != TransactionType.Transfer
    ensures SumContribution(t, ws) == Times(Count(ws, t.walletId), Ledger.SourceEffect(t, t.walletId))
  {
    if ws != [] {
      SourceContributionByCount(t, ws[1..]);
    }
  }

  /** A transfer between two different wallets adds its amount once per
      listed copy of the destination and takes it once per listed copy of
      the source. */
  lemma {:induction false} TransferContributionByCount(t: Transaction, ws: seq<Wallet>)
    requires t.kind == TransactionType.Transfer && t.toWalletId.Some? && t.toWalletId.value != t.walletId
    ensures SumContribution(t, ws) + Times(Count(ws, t.walletId), t.amount)
         == Times(Count(ws, t.toWalletId.value), t.amount)
  {
    if ws != [] {
      TransferContributionByCount(t, ws[1..]);
    }
  }

  /** A transfer between two personal wallets leaves the total balance
      unchanged; an expense from a personal wallet lowers it by the amount;
      income into one raises it by the amount (wallet ids are unique). */
  lemma NewTransactionMovesTotal(ts: seq<Transaction>, t: Transaction, wallets: seq<Wallet>)
    requires Count(PersonalOf(wallets), t.walletId) == 1
    ensures t.kind == TransactionType.Transfer && t.toWalletId.Some? && t.toWalletId.value != t.walletId
            && Count(PersonalOf(wallets), t.toWalletId.value) == 1 ==>
              SumBalances([t] + ts, PersonalOf(wallets)) == SumBalances(ts, PersonalOf(wallets))
    ensures t.kind == TransactionType.Expense ==>
              SumBalances([t] + ts, PersonalOf(wallets)) == SumBalances(ts, PersonalOf(wallets)) - t.amount
    ensures t.kind == TransactionType.Income ==>
              SumBalances([t] + ts, PersonalOf(wallets)) == SumBalances(ts, PersonalOf(wallets)) + t.amount
  {
    SumBalancesOfAdded(ts, t, PersonalOf(wallets));
    if t.kind == TransactionType.Transfer {
      if t.toWalletId.Some? && t.toWalletId.value != t.walletId {
        TransferContributionByCount(t, PersonalOf(wallets));
      }
    } else {
      SourceContributionByCount(t, PersonalOf(wallets));
    }
    assert Times(1, t.amount) == t.amount;
    assert Times(1, -t.amount) == -t.amount;
  }

  // ---------------------------------------------------------------------
  // Quick add, recent list, amount sign
  // ---------------------------------------------------------------------

  const QuickAddLimit: int := 8
  const HomeRecentLimit: int := 5

  /** `quickAddCategories`: the first (at most eight) expense categories. */
  function QuickAddCategories(categories: seq<Category>): (r: seq<Category>)
    ensures |r| == if |Seqs.Filter(categories, CategoryStore.IsExpenseCategory)| < QuickAddLimit
                   then |Seqs.Filter(categories, CategoryStore.IsExpenseCategory)| else QuickAddLimit
    ensures r == Seqs.Filter(categories, CategoryStore.IsExpenseCategory)[..|r|]
    ensures forall i :: 0 <= i < |r| ==> r[i].kind == CategoryType.Expense && r[i] in categories
  {
    Seqs.Take(Seqs.Filter(categories, CategoryStore.IsExpenseCategory), QuickAddLimit)
  }

  /** The recent list: the first five joined entries. */
  function HomeRecent(ts: seq<Transaction>, wallets: seq<Wallet>, categories: seq<Category>)
    : (r: seq<TransactionWithDetails>)
    ensures |r| == if |ts| < HomeRecentLimit then |ts| else HomeRecentLimit
    ensures forall i :: 0 <= i < |r| ==> r[i].tx == ts[i] && r[i] == Ledger.Detail(ts[i], wallets, categories)
  {
    Ledger.RecentTransactions(ts, wallets, categories, HomeRecentLimit)
  }

  datatype Sign = Plus | Minus

  /** The sign shown before an amount. */
  function AmountSign(kind: TransactionType): Sign {
    if kind == TransactionType.Income || kind == TransactionType.OpeningBalance then Plus else Minus
  }

  /** For a positive amount, '+' is shown exactly when the transaction raises
      the balance of its own wallet. */
  lemma SignMatchesSourceEffect(t: Transaction)
    requires t.amount > 0.0
    ensures AmountSign(t.kind) == Plus <==> Ledger.SourceEffect(t, t.walletId) > 0.0
  {
  }
}
