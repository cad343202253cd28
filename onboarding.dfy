/** The onboarding flow: a step machine welcome -> wallets -> balance ->
    complete, and the setup sequence run from the balance step, which seeds
    the default categories, creates the two default wallets, records the
    opening balances and marks onboarding as completed, stopping at the
    first call that fails. */
module Onboarding {
  import opened Types
  import Ledger
  import AuthStore
  import WalletStore
  import CategoryStore
  import TransactionStore

  datatype Step = Welcome | Wallets | Balance | Complete

  /** The position of a step in the flow. */
  function StepIndex(s: Step): nat {
    match s
    case Welcome => 0
    case Wallets => 1
    case Balance => 2
    case Complete => 3
  }

  const SetupFailed: string := "Setup failed. Please try again."
  const OpeningBalanceNote: string := "Opening Balance"

  function BankWalletDraft(now: int): (d: WalletDraft)
    ensures d.kind == WalletType.Personal && d.isDefault
  {
    WalletDraft("My Bank/UPI", WalletType.Personal, "credit-card", true, now)
  }

  function CashWalletDraft(now: int): (d: WalletDraft)
    ensures d.kind == WalletType.Personal && d.isDefault
  {
    WalletDraft("My Cash", WalletType.Personal, "banknote", true, now)
  }

  /** An opening balance for a wallet: no category, no destination. */
  function OpeningDraft(amount: real, walletId: string, now: int): (d: TransactionDraft)
    ensures d.kind == TransactionType.OpeningBalance && d.walletId == walletId && d.amount == amount
    ensures d.categoryId.None? && d.toWalletId.None? && d.note == OpeningBalanceNote
  {
    TransactionDraft(amount, TransactionType.OpeningBalance, walletId, None, None, OpeningBalanceNote, None, now, now)
  }

  /** `parseFloat(text) || 0`: `parsed` is the parse result, `None` standing
      for NaN; NaN and zero both become zero. */
  function ParsedOrZero(parsed: Option<real>): (r: real)
    ensures parsed.None? ==> r == 0.0
    ensures parsed.Some? ==> r == parsed.value
  {
    match parsed
    case None => 0.0
    case Some(v) => v
  }

  /** The outcomes of the calls the setup makes, in order. */
  datatype SetupCalls = SetupCalls(
    seed: Outcome,
    reload: Result<seq<Category>>,
    bankWallet: Result<string>,
    cashWallet: Result<string>,
    bankOpening: Result<string>,
    cashOpening: Result<string>,
    completion: Outcome)

  /** The message of the first call that fails, if any; an opening balance
      call is made only for a positive amount. */
  function SetupFailure(calls: SetupCalls, bankAmount: real, cashAmount: real): Option<string> {
    if calls.seed.Fail? then Some(calls.seed.message)
    else if calls.bankWallet.Failure? then Some(calls.bankWallet.message)
    else if calls.cashWallet.Failure? then Some(calls.cashWallet.message)
    else if bankAmount > 0.0 && calls.bankOpening.Failure? then Some(calls.bankOpening.message)
    else if cashAmount > 0.0 && calls.cashOpening.Failure? then Some(calls.cashOpening.message)
    else None
  }

  /** The wallet list after the setup. */
  function WalletsAfter(ws: seq<Wallet>, calls: SetupCalls, now: int): seq<Wallet> {
    if calls.seed.Fail? || calls.bankWallet.Failure? then ws
    else
      var withBank := ws + [WalletWithId(BankWalletDraft(now), calls.bankWallet.value)];
      if calls.cashWallet.Failure? then withBank
      else withBank + [WalletWithId(CashWalletDraft(now), calls.cashWallet.value)]
  }

  /** The transaction list after the setup: each opening balance made goes
      to the front. */
  function TransactionsAfter(ts: seq<Transaction>, calls: SetupCalls, bankAmount: real, cashAmount: real,
                             now: int): seq<Transaction> {
    if calls.seed.Fail? || calls.bankWallet.Failure? || calls.cashWallet.Failure? then ts
    else
      var bank := OpeningDraft(bankAmount, calls.bankWallet.value, now);
      var withBank := if bankAmount > 0.0 && calls.bankOpening.Success?
                      then [TransactionWithId(bank, calls.bankOpening.value)] + ts else ts;
      if bankAmount > 0.0 && calls.bankOpening.Failure? then withBank
      else if cashAmount > 0.0 && calls.cashOpening.Success?
      then [TransactionWithId(OpeningDraft(cashAmount, calls.cashWallet.value, now), calls.cashOpening.value)] + withBank
      else withBank
  }

  /** After a full setup the new bank and cash wallets hold exactly their
      positive opening amounts, provided their ids are new and distinct. */
  lemma SetupSeedsBalances(ts: seq<Transaction>, calls: SetupCalls, bankAmount: real, cashAmount: real, now: int)
    requires SetupFailure(calls, bankAmount, cashAmount).None?
    requires calls.bankWallet.value != calls.cashWallet.value
    requires forall i :: 0 <= i < |ts| ==>
               !Ledger.Touches(ts[i], calls.bankWallet.value) && !Ledger.Touches(ts[i], calls.cashWallet.value)
    ensures Ledger.Balance(TransactionsAfter(ts, calls, bankAmount, cashAmount, now), calls.bankWallet.value)
         == if bankAmount > 0.0 then bankAmount else 0.0
    ensures Ledger.Balance(TransactionsAfter(ts, calls, bankAmount, cashAmount, now), calls.cashWallet.value)
         == if cashAmount > 0.0 then cashAmount else 0.0
  {
    var b, c := calls.bankWallet.value, calls.cashWallet.value;
    Ledger.BalanceOfUntouchedWallet(ts, b);
    Ledger.BalanceOfUntouchedWallet(ts, c);
    var withBank := ts;
    if bankAmount > 0.0 {
      var bankTx := TransactionWithId(OpeningDraft(bankAmount, b, now), calls.bankOpening.value);
      TransactionStore.AddedTransactionBalance(ts, bankTx, b);
      TransactionStore.AddedTransactionBalance(ts, bankTx, c);
      withBank := [bankTx] + ts;
    }
    if cashAmount > 0.0 {
      var cashTx := TransactionWithId(OpeningDraft(cashAmount, c, now), calls.cashOpening.value);
      TransactionStore.AddedTransactionBalance(withBank, cashTx, b);
      TransactionStore.AddedTransactionBalance(withBank, cashTx, c);
    }
  }

  /** The calls of `handleComplete`'s `try` block before the completion
      write: seed the categories, add the two wallets, then each positive
      opening balance, stopping at the first call that fails and giving
      back its message. */
  method RunSetup(now: int, bankAmount: real, cashAmount: real, calls: SetupCalls,
                  walletStore: WalletStore.Store, categoryStore: CategoryStore.Store,
                  transactionStore: TransactionStore.Store)
    returns (failure: Option<string>)
    modifies walletStore, categoryStore, transactionStore
    ensures failure == SetupFailure(calls, bankAmount, cashAmount)
    ensures walletStore.wallets == WalletsAfter(old(walletStore.wallets), calls, now)
    ensures transactionStore.transactions
            == TransactionsAfter(old(transactionStore.transactions), calls, bankAmount, cashAmount, now)
    ensures calls.seed.Pass? && calls.reload.Success? ==> categoryStore.categories == calls.reload.value
    ensures !(calls.seed.Pass? && calls.reload.Success?) ==> categoryStore.categories == old(categoryStore.categories)
  {
    var seeded := categoryStore.InitializeDefaultCategories(calls.seed, calls.reload);
    if seeded.Fail? {
      return Some(seeded.message);
    }
    var bankWalletId := walletStore.AddWallet(BankWalletDraft(now), calls.bankWallet);
    if bankWalletId.Failure? {
      return Some(bankWalletId.message);
    }
    var cashWalletId := walletStore.AddWallet(CashWalletDraft(now), calls.cashWallet);
    if cashWalletId.Failure? {
      return Some(cashWalletId.message);
    }
    if bankAmount > 0.0 {
      var added := transactionStore.AddTransaction(OpeningDraft(bankAmount, bankWalletId.value, now), calls.bankOpening);
      if added.Failure? {
        return Some(added.message);
      }
    }
    if cashAmount > 0.0 {
      var added := transactionStore.AddTransaction(OpeningDraft(cashAmount, cashWalletId.value, now), calls.cashOpening);
      if added.Failure? {
        return Some(added.message);
      }
    }
    failure := None;
  }

  /** The onboarding page's state. */
  class Flow {
    var step: Step
    var isLoading: bool
    var error: string

    constructor()
      ensures step == Welcome && !isLoading && error == ""
    {
      step := Welcome;
      isLoading := false;
      error := "";
    }

    /** `handleComplete`: without a signed-in user nothing happens. */
    method HandleComplete(now: int, bankInput: Option<real>, cashInput: Option<real>, calls: SetupCalls,
                          auth: AuthStore.Store, walletStore: WalletStore.Store,
                          categoryStore: CategoryStore.Store, transactionStore: TransactionStore.Store)
      modifies this, auth, walletStore, categoryStore, transactionStore
      ensures old(auth.user).None? ==>
                unchanged(this) && unchanged(auth) && unchanged(walletStore)
                && unchanged(categoryStore) && unchanged(transactionStore)
      ensures old(auth.user).Some? ==> !isLoading
      ensures old(auth.user).Some? ==>
                var failure := SetupFailure(calls, ParsedOrZero(bankInput), ParsedOrZero(cashInput));
                (failure.None? ==> step == Complete && error == "")
                && (failure.Some? ==> step == old(step) && error == OrElse(failure.value, SetupFailed))
      ensures old(auth.user).Some? ==>
                walletStore.wallets == WalletsAfter(old(walletStore.wallets), calls, now)
                && transactionStore.transactions
                   == TransactionsAfter(old(transactionStore.transactions), calls,
                                        ParsedOrZero(bankInput), ParsedOrZero(cashInput), now)
      ensures old(auth.user).Some? && calls.seed.Pass? && calls.reload.Success? ==>
                categoryStore.categories == calls.reload.value
      ensures calls.seed.Fail? ==> categoryStore.categories == old(categoryStore.categories)
      ensures calls.seed.Pass? && calls.reload.Failure? ==> categoryStore.categories == old(categoryStore.categories)
      ensures auth.user == old(auth.user)
      ensures old(auth.user).Some? && SetupFailure(calls, ParsedOrZero(bankInput), ParsedOrZero(cashInput)).None?
              && calls.completion.Pass? ==>
                auth.preferences.Some? && auth.preferences.value.onboardingCompleted == Some(true)
                && auth.preferences.value.darkMode == old(auth.preferences).GetOr(NoPreferences).darkMode
                && auth.preferences.value.currency == old(auth.preferences).GetOr(NoPreferences).currency
                && auth.error == old(auth.error)
      ensures old(auth.user).Some? && SetupFailure(calls, ParsedOrZero(bankInput), ParsedOrZero(cashInput)).None?
              && calls.completion.Fail? ==>
                auth.preferences == old(auth.preferences)
                && auth.error == Some(OrElse(calls.completion.message, AuthStore.UpdatePreferencesFallback))
      ensures !(old(auth.user).Some? && SetupFailure(calls, ParsedOrZero(bankInput), ParsedOrZero(cashInput)).None?) ==>
                auth.preferences == old(auth.preferences) && auth.error == old(auth.error)
    {
      if auth.user.None? {
        return;
      }
      isLoading := true;
      error := "";
      var failure := RunSetup(now, ParsedOrZero(bankInput), ParsedOrZero(cashInput), calls,
                              walletStore, categoryStore, transactionStore);
      if failure.Some? {
        error := OrElse(failure.value, SetupFailed);
        isLoading := false;
        return;
      }
      // The preference update reports its own failure and never throws.
      auth.SetOnboardingCompleted(true, calls.completion);
      step := Complete;
      isLoading := false;
    }

    /** `handleNext`: the first two steps advance; on the balance step the
        setup runs; the flow never moves backwards. */
    method Next(now: int, bankInput: Option<real>, cashInput: Option<real>, calls: SetupCalls,
                auth: AuthStore.Store, walletStore: WalletStore.Store,
                categoryStore: CategoryStore.Store, transactionStore: TransactionStore.Store)
      modifies this, auth, walletStore, categoryStore, transactionStore
      ensures old(step) == Welcome ==> step == Wallets && isLoading == old(isLoading) && error == old(error)
      ensures old(step) == Wallets ==> step == Balance && isLoading == old(isLoading) && error == old(error)
      ensures old(step) == Balance && old(auth.user).Some? ==>
                (step == Complete <==> SetupFailure(calls, ParsedOrZero(bankInput), ParsedOrZero(cashInput)).None?)
      ensures old(step) == Balance && old(auth.user).None? ==> step == Balance
      ensures old(step) == Complete ==> step == Complete
      ensures old(step) != Balance ==>
                unchanged(auth) && unchanged(walletStore) && unchanged(categoryStore) && unchanged(transactionStore)
      ensures StepIndex(step) >= StepIndex(old(step))
    {
      if step == Welcome {
        step := Wallets;
      } else if step == Wallets {
        step := Balance;
      } else if step == Balance {
        HandleComplete(now, bankInput, cashInput, calls, auth, walletStore, categoryStore, transactionStore);
      }
    }
  }
}
