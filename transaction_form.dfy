/** The add/edit transaction page: its validation chain, the record it
    saves, the mode a stored transaction is edited in, the default wallet
    selection and the categories offered for the current mode. */
module TransactionForm {
  import opened Types
  import Seqs
  import TransactionStore

  /** The form's fields once read: `amount` is `parseFloat` of the amount
      text (`None` for NaN) and `date` is the parsed date input. */
  datatype Form = Form(
    mode: TransactionMode,
    amount: Option<real>,
    categoryId: string,
    walletId: string,
    toWalletId: string,
    note: string,
    transferReason: string,
    date: int)

  const InvalidAmountMessage := "Please enter a valid amount"
  const MissingCategoryMessage := "Please select a category"
  const SameWalletMessage := "Please select different wallets for transfer"
  const SaveFailedFallback := "Failed to save transaction"
  const DeleteFailedFallback := "Failed to delete transaction"

  /** The checks of `handleSave`, in order; the first that fails decides the
      message. */
  function ValidationError(f: Form): (e: Option<string>)
    ensures e == Some(InvalidAmountMessage) <==> f.amount.None? || f.amount.value <= 0.0
    ensures e == Some(MissingCategoryMessage) <==>
              f.amount.Some? && f.amount.value > 0.0 && f.mode != TransactionMode.Transfer && f.categoryId == ""
    ensures e == Some(SameWalletMessage) <==>
              f.amount.Some? && f.amount.value > 0.0 && f.mode == TransactionMode.Transfer && f.walletId == f.toWalletId
    ensures e.None? <==>
              f.amount.Some? && f.amount.value > 0.0
              && (f.mode != TransactionMode.Transfer ==> f.categoryId != "")
              && (f.mode == TransactionMode.Transfer ==> f.walletId != f.toWalletId)
  {
    if f.amount.None? || f.amount.value <= 0.0 then Some(InvalidAmountMessage)
    else if f.mode != TransactionMode.Transfer && f.categoryId == "" then Some(MissingCategoryMessage)
    else if f.mode == TransactionMode.Transfer && f.walletId == f.toWalletId then Some(SameWalletMessage)
    else None
  }

  /** The mode's transaction type. */
  function TypeForMode(m: TransactionMode): (t: TransactionType)
    ensures t != TransactionType.OpeningBalance
  {
    match m
    case Expense => TransactionType.Expense
    case Income => TransactionType.Income
    case Transfer => TransactionType.Transfer
  }

  /** The mode a stored transaction is edited in: transfers and income keep
      theirs, everything else (an opening balance too) opens as an expense. */
  function ModeForType(t: TransactionType): (m: TransactionMode)
    ensures m == TransactionMode.Transfer <==> t == TransactionType.Transfer
    ensures m == TransactionMode.Income <==> t == TransactionType.Income
  {
    match t
    case Transfer => TransactionMode.Transfer
    case Income => TransactionMode.Income
    case _ => TransactionMode.Expense
  }

  /** Saving in the mode a transaction is edited in keeps its type, except
      for an opening balance, which is saved back as an expense. */
  lemma ModeRoundTrip(m: TransactionMode, t: TransactionType)
    ensures ModeForType(TypeForMode(m)) == m
    ensures TypeForMode(ModeForType(t)) == t <==> t != TransactionType.OpeningBalance
  {
  }

  /** The record `handleSave` writes: the destination and the transfer
      reason only for a transfer, the category only otherwise. `createdAt`
      is the time of saving, on edit too. */
  function BuildDraft(f: Form, amount: real, now: int): (d: TransactionDraft)
    ensures d.amount == amount && d.kind == TypeForMode(f.mode) && d.walletId == f.walletId
    ensures d.kind == TransactionType.Transfer ==>
              d.toWalletId == Some(f.toWalletId) && d.transferReason == Some(f.transferReason) && d.categoryId.None?
    ensures d.kind != TransactionType.Transfer ==>
              d.categoryId == Some(f.categoryId) && d.toWalletId.None? && d.transferReason.None?
    ensures d.note == f.note && d.date == f.date && d.createdAt == now
  {
    var transfer := f.mode == TransactionMode.Transfer;
    TransactionDraft(amount, TypeForMode(f.mode), f.walletId,
                     if transfer then Some(f.toWalletId) else None,
                     if !transfer then Some(f.categoryId) else None,
                     f.note,
                     if transfer then Some(f.transferReason) else None,
                     f.date, now)
  }

  /** `handleSave` up to the store call: the validation message, or the
      record to add (or to write over the edited one). */
  function Save(f: Form, now: int): (r: Result<TransactionDraft>)
    ensures r.Failure? <==> ValidationError(f).Some?
    ensures r.Failure? ==> r.message == ValidationError(f).value
    ensures r.Success? ==> r.value == BuildDraft(f, f.amount.value, now)
  {
    match ValidationError(f)
    case Some(message) => Failure(message)
    case None => Success(BuildDraft(f, f.amount.value, now))
  }

  /** What a saved record always satisfies: a positive amount, never an
      opening balance, never both a category and a destination, a non-empty
      category outside transfers and two different wallets in a transfer. */
  lemma SavedRecordIsWellFormed(f: Form, now: int)
    requires Save(f, now).Success?
    ensures Save(f, now).value.amount > 0.0
    ensures Save(f, now).value.kind != TransactionType.OpeningBalance
    ensures !(Save(f, now).value.categoryId.Some? && Save(f, now).value.toWalletId.Some?)
    ensures Save(f, now).value.kind != TransactionType.Transfer ==> IsSetId(Save(f, now).value.categoryId)
    ensures Save(f, now).value.kind == TransactionType.Transfer ==>
              Save(f, now).value.toWalletId != Some(Save(f, now).value.walletId)
  {
  }

  /** The message shown when the store call fails. */
  function SaveFailureMessage(message: string): (m: string)
    ensures m != ""
    ensures message != "" ==> m == message
  {
    OrElse(message, SaveFailedFallback)
  }

  /** Saving an edit sends every field, so the edited transaction becomes
      exactly the saved record under its old id and the others stay as they
      were. */
  lemma EditReplacesRecord(ts: seq<Transaction>, id: string, d: TransactionDraft)
    ensures |Seqs.UpdateWhere(ts, TransactionIdOf, id, MergeTransaction, DraftAsPatch(d))| == |ts|
    ensures forall i :: 0 <= i < |ts| ==>
              Seqs.UpdateWhere(ts, TransactionIdOf, id, MergeTransaction, DraftAsPatch(d))[i]
              == if ts[i].id == id then TransactionWithId(d, id) else ts[i]
  {
  }

  /** `handleDelete`: nothing happens without a user, without a truthy route
      id or when the user does not confirm. Otherwise the store deletes the
      transaction; the page goes back on success and shows the failure's
      message (or the fallback) otherwise. */
  method HandleDelete(store: TransactionStore.Store, signedIn: bool, editId: Option<string>, confirmed: bool,
                      call: Outcome)
    returns (error: Option<string>, navigatedBack: bool)
    modifies store
    ensures navigatedBack <==> signedIn && IsSetId(editId) && confirmed && call.Pass?
    ensures error.Some? <==> signedIn && IsSetId(editId) && confirmed && call.Fail?
    ensures error.Some? ==> error.value == OrElse(call.message, DeleteFailedFallback)
    ensures store.isLoading == old(store.isLoading)
    ensures navigatedBack ==>
              store.transactions == Seqs.WithoutKey(old(store.transactions), TransactionIdOf, editId.value)
              && store.error == old(store.error)
    ensures !navigatedBack ==> store.transactions == old(store.transactions)
    ensures !(signedIn && IsSetId(editId) && confirmed) ==> store.error == old(store.error)
    ensures signedIn && IsSetId(editId) && confirmed && call.Fail? ==> store.error == Some(call.message)
  {
    error, navigatedBack := None, false;
    if !signedIn || !IsSetId(editId) || !confirmed {
      return;
    }
    var r := store.DeleteTransaction(editId.value, call);
    match r
    case Pass =>
      navigatedBack := true;
    case Fail(m) =>
      error := Some(OrElse(m, DeleteFailedFallback));
  }

  predicate IsDefaultWallet(w: Wallet) { w.isDefault }

  /** The wallet-selection effect: once wallets exist and no source is
      chosen, the source becomes the first default wallet (or the first
      wallet) and the destination the first wallet with another id, when
      there is one. Returns the (source, destination) selection. */
  function DefaultSelection(wallets: seq<Wallet>, walletId: string, toWalletId: string): (r: (string, string))
    ensures |wallets| == 0 || walletId != "" ==> r == (walletId, toWalletId)
    ensures |wallets| > 0 && walletId == "" ==>
              (exists i :: 0 <= i < |wallets| && wallets[i].id == r.0)
              && ((exists i :: 0 <= i < |wallets| && wallets[i].isDefault) ==>
                    exists i :: 0 <= i < |wallets| && wallets[i].isDefault && wallets[i].id == r.0
                                && forall j :: 0 <= j < i ==> !wallets[j].isDefault)
              && ((forall i :: 0 <= i < |wallets| ==> !wallets[i].isDefault) ==> r.0 == wallets[0].id)
              && ((exists i :: 0 <= i < |wallets| && wallets[i].id != r.0) ==>
                    exists i :: 0 <= i < |wallets| && wallets[i].id == r.1 && r.1 != r.0
                                && forall j :: 0 <= j < i ==> wallets[j].id == r.0)
              && ((forall i :: 0 <= i < |wallets| ==> wallets[i].id == r.0) ==> r.1 == toWalletId)
  {
    if |wallets| == 0 || walletId != "" then (walletId, toWalletId)
    else
      var source := match Seqs.FindFirst(wallets, IsDefaultWallet, true)
                    case Some(w) => w
                    case None => wallets[0];
      var other := Seqs.FindFirst(wallets, (w: Wallet) => w.id != source.id, true);
      (source.id, if other.Some? then other.value.id else toWalletId)
  }

  predicate IsIncomeCategory(c: Category) { c.kind == CategoryType.Income }
  predicate IsExpenseCategory(c: Category) { c.kind == CategoryType.Expense }

  /** `availableCategories`: none for a transfer, the income categories in
      income mode, the expense categories otherwise. */
  function AvailableCategories(m: TransactionMode, categories: seq<Category>): (r: seq<Category>)
    ensures m == TransactionMode.Transfer ==> r == []
    ensures forall i :: 0 <= i < |r| ==> r[i] in categories
    ensures m == TransactionMode.Income ==>
              (forall i :: 0 <= i < |r| ==> r[i].kind == CategoryType.Income)
              && forall i :: 0 <= i < |categories| && categories[i].kind == CategoryType.Income ==> categories[i] in r
    ensures m == TransactionMode.Expense ==>
              (forall i :: 0 <= i < |r| ==> r[i].kind == CategoryType.Expense)
              && forall i :: 0 <= i < |categories| && categories[i].kind == CategoryType.Expense ==> categories[i] in r
  {
    match m
    case Transfer => []
    case Income => Seqs.Filter(categories, IsIncomeCategory)
    case Expense => Seqs.Filter(categories, IsExpenseCategory)
  }
}
