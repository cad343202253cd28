/** Entity model of the finance tracker: the enumerations and records that
    every store, page and aggregation works on, plus the two wrappers used for
    optional fields and for calls into the document store or the identity
    provider. */
module Types {

  /** A value that may be absent (`undefined`/`null` in the source). */
  datatype Option<T> = None | Some(value: T) {
    function GetOr(default: T): T {
      match this
      case Some(v) => v
      case None => default
    }
  }

  /** The outcome of a call into an external collaborator: it either succeeds
      with a value or fails with the error's message. */
  datatype Result<T> = Success(value: T) | Failure(message: string)

  /** The outcome of a call that returns nothing. */
  datatype Outcome = Pass | Fail(message: string)

  datatype WalletType = Personal | Custodial

  datatype CategoryType = Income | Expense

  datatype TransactionType = Income | Expense | Transfer | OpeningBalance

  /** The kinds a user can pick on the transaction form: no opening balance. */
  datatype TransactionMode = Expense | Income | Transfer

  datatype Wallet = Wallet(
    id: string,
    name: string,
    kind: WalletType,
    icon: string,
    isDefault: bool,
    createdAt: int)

  datatype Category = Category(
    id: string,
    name: string,
    kind: CategoryType,
    icon: string,
    color: string,
    budget: Option<real>,
    isDefault: bool,
    createdAt: int)

  datatype Transaction = Transaction(
    id: string,
    amount: real,
    kind: TransactionType,
    walletId: string,
    toWalletId: Option<string>,
    categoryId: Option<string>,
    note: string,
    transferReason: Option<string>,
    date: int,
    createdAt: int)

  /** A transaction joined with the names it refers to; `tx` carries every
      field of the underlying transaction unchanged. */
  datatype TransactionWithDetails = TransactionWithDetails(
    tx: Transaction,
    walletName: string,
    toWalletName: Option<string>,
    categoryName: Option<string>,
    categoryIcon: Option<string>,
    categoryColor: Option<string>)

  /** One row of a category breakdown; it carries no category id. */
  datatype CategoryTotal = CategoryTotal(
    name: string,
    color: string,
    icon: string,
    total: real,
    budget: Option<real>)

  datatype UserPreferences = UserPreferences(
    onboardingCompleted: bool,
    darkMode: bool,
    currency: string)

  datatype AppUser = AppUser(uid: string, email: Option<string>, displayName: Option<string>)

  // Records as they are written before the store assigns an id (`Omit<X, 'id'>`).

  datatype WalletDraft = WalletDraft(
    name: string,
    kind: WalletType,
    icon: string,
    isDefault: bool,
    createdAt: int)

  datatype CategoryDraft = CategoryDraft(
    name: string,
    kind: CategoryType,
    icon: string,
    color: string,
    budget: Option<real>,
    isDefault: bool,
    createdAt: int)

  datatype TransactionDraft = TransactionDraft(
    amount: real,
    kind: TransactionType,
    walletId: string,
    toWalletId: Option<string>,
    categoryId: Option<string>,
    note: string,
    transferReason: Option<string>,
    date: int,
    createdAt: int)

  function WalletWithId(d: WalletDraft, id: string): (w: Wallet)
    ensures w.id == id && w.name == d.name && w.kind == d.kind
  {
    Wallet(id, d.name, d.kind, d.icon, d.isDefault, d.createdAt)
  }

  function CategoryWithId(d: CategoryDraft, id: string): (c: Category)
    ensures c.id == id && c.name == d.name && c.kind == d.kind
  {
    Category(id, d.name, d.kind, d.icon, d.color, d.budget, d.isDefault, d.createdAt)
  }

  function TransactionWithId(d: TransactionDraft, id: string): (t: Transaction)
    ensures t.id == id && t.amount == d.amount && t.kind == d.kind && t.walletId == d.walletId
  {
    Transaction(id, d.amount, d.kind, d.walletId, d.toWalletId, d.categoryId, d.note,
                d.transferReason, d.date, d.createdAt)
  }

  // Partial records (`Partial<X>`) used by the update actions: `None` means
  // the key is not in the update; for an optional field `Some(None)` means the
  // key is present with the value `undefined`, which the spread copies over.

  datatype WalletPatch = WalletPatch(
    name: Option<string>,
    kind: Option<WalletType>,
    icon: Option<string>,
    isDefault: Option<bool>,
    createdAt: Option<int>)

  datatype CategoryPatch = CategoryPatch(
    name: Option<string>,
    kind: Option<CategoryType>,
    icon: Option<string>,
    color: Option<string>,
    budget: Option<Option<real>>,
    isDefault: Option<bool>,
    createdAt: Option<int>)

  datatype TransactionPatch = TransactionPatch(
    amount: Option<real>,
    kind: Option<TransactionType>,
    walletId: Option<string>,
    toWalletId: Option<Option<string>>,
    categoryId: Option<Option<string>>,
    note: Option<string>,
    transferReason: Option<Option<string>>,
    date: Option<int>,
    createdAt: Option<int>)

  /** `Partial<UserPreferences>`: both the update the auth store sends and
      what it holds, since the source only casts the stored document and
      spreads the update over a possibly-null object. */
  datatype PartialPreferences = PartialPreferences(
    onboardingCompleted: Option<bool>,
    darkMode: Option<bool>,
    currency: Option<string>)

  /** `{ ...w, ...data }`: every key present in the update replaces the old
      value, the id is never part of the update. */
  function MergeWallet(w: Wallet, p: WalletPatch): (r: Wallet)
    ensures r.id == w.id
    ensures p == WalletPatch(None, None, None, None, None) ==> r == w
    ensures p.name.Some? ==> r.name == p.name.value
    ensures p.name.None? ==> r.name == w.name
    ensures p.kind.Some? ==> r.kind == p.kind.value
    ensures p.kind.None? ==> r.kind == w.kind
    ensures p.icon.Some? ==> r.icon == p.icon.value
    ensures p.icon.None? ==> r.icon == w.icon
    ensures p.isDefault.Some? ==> r.isDefault == p.isDefault.value
    ensures p.isDefault.None? ==> r.isDefault == w.isDefault
    ensures p.createdAt.Some? ==> r.createdAt == p.createdAt.value
    ensures p.createdAt.None? ==> r.createdAt == w.createdAt
  {
    Wallet(w.id, p.name.GetOr(w.name), p.kind.GetOr(w.kind), p.icon.GetOr(w.icon),
           p.isDefault.GetOr(w.isDefault), p.createdAt.GetOr(w.createdAt))
  }

  function MergeCategory(c: Category, p: CategoryPatch): (r: Category)
    ensures r.id == c.id
    ensures p == CategoryPatch(None, None, None, None, None, None, None) ==> r == c
    ensures p.name.Some? ==> r.name == p.name.value
    ensures p.name.None? ==> r.name == c.name
    ensures p.kind.Some? ==> r.kind == p.kind.value
    ensures p.kind.None? ==> r.kind == c.kind
    ensures p.icon.Some? ==> r.icon == p.icon.value
    ensures p.icon.None? ==> r.icon == c.icon
    ensures p.color.Some? ==> r.color == p.color.value
    ensures p.color.None? ==> r.color == c.color
    ensures p.budget.Some? ==> r.budget == p.budget.value
    ensures p.budget.None? ==> r.budget == c.budget
    ensures p.isDefault.Some? ==> r.isDefault == p.isDefault.value
    ensures p.isDefault.None? ==> r.isDefault == c.isDefault
    ensures p.createdAt.Some? ==> r.createdAt == p.createdAt.value
    ensures p.createdAt.None? ==> r.createdAt == c.createdAt
  {
    Category(c.id, p.name.GetOr(c.name), p.kind.GetOr(c.kind), p.icon.GetOr(c.icon),
             p.color.GetOr(c.color), p.budget.GetOr(c.budget), p.isDefault.GetOr(c.isDefault),
             p.createdAt.GetOr(c.createdAt))
  }

  function MergeTransaction(t: Transaction, p: TransactionPatch): (r: Transaction)
    ensures r.id == t.id
    ensures p == TransactionPatch(None, None, None, None, None, None, None, None, None) ==> r == t
    ensures p.amount.Some? ==> r.amount == p.amount.value
    ensures p.amount.None? ==> r.amount == t.amount
    ensures p.kind.Some? ==> r.kind == p.kind.value
    ensures p.kind.None? ==> r.kind == t.kind
    ensures p.walletId.Some? ==> r.walletId == p.walletId.value
    ensures p.walletId.None? ==> r.walletId == t.walletId
    ensures p.toWalletId.Some? ==> r.toWalletId == p.toWalletId.value
    ensures p.toWalletId.None? ==> r.toWalletId == t.toWalletId
    ensures p.categoryId.Some? ==> r.categoryId == p.categoryId.value
    ensures p.categoryId.None? ==> r.categoryId == t.categoryId
    ensures p.note.Some? ==> r.note == p.note.value
    ensures p.note.None? ==> r.note == t.note
    ensures p.transferReason.Some? ==> r.transferReason == p.transferReason.value
    ensures p.transferReason.None? ==> r.transferReason == t.transferReason
    ensures p.date.Some? ==> r.date == p.date.value
    ensures p.date.None? ==> r.date == t.date
    ensures p.createdAt.Some? ==> r.createdAt == p.createdAt.value
    ensures p.createdAt.None? ==> r.createdAt == t.createdAt
  {
    Transaction(t.id, p.amount.GetOr(t.amount), p.kind.GetOr(t.kind), p.walletId.GetOr(t.walletId),
                p.toWalletId.GetOr(t.toWalletId), p.categoryId.GetOr(t.categoryId),
                p.note.GetOr(t.note), p.transferReason.GetOr(t.transferReason),
                p.date.GetOr(t.date), p.createdAt.GetOr(t.createdAt))
  }

  /** The store's merge is idempotent: applying the same update a second
      time (a repeated save of an unchanged form) changes nothing more. */
  lemma MergeIdempotent(w: Wallet, c: Category, t: Transaction,
                        pw: WalletPatch, pc: CategoryPatch, pt: TransactionPatch)
    ensures MergeWallet(MergeWallet(w, pw), pw) == MergeWallet(w, pw)
    ensures MergeCategory(MergeCategory(c, pc), pc) == MergeCategory(c, pc)
    ensures MergeTransaction(MergeTransaction(t, pt), pt) == MergeTransaction(t, pt)
  {
  }

  const NoPreferences := PartialPreferences(None, None, None)

  /** A complete preferences record, seen as one with every key present. */
  function AllPreferences(p: UserPreferences): (r: PartialPreferences)
    ensures r.onboardingCompleted == Some(p.onboardingCompleted)
    ensures r.darkMode == Some(p.darkMode)
    ensures r.currency == Some(p.currency)
  {
    PartialPreferences(Some(p.onboardingCompleted), Some(p.darkMode), Some(p.currency))
  }

  /** `{ ...base, ...p }`: a key present in `p` wins, any other key keeps its
      value in `base`. */
  function OverlayPreferences(base: PartialPreferences, p: PartialPreferences): (r: PartialPreferences)
    ensures p.onboardingCompleted.Some? ==> r.onboardingCompleted == p.onboardingCompleted
    ensures p.onboardingCompleted.None? ==> r.onboardingCompleted == base.onboardingCompleted
    ensures p.darkMode.Some? ==> r.darkMode == p.darkMode
    ensures p.darkMode.None? ==> r.darkMode == base.darkMode
    ensures p.currency.Some? ==> r.currency == p.currency
    ensures p.currency.None? ==> r.currency == base.currency
  {
    PartialPreferences(if p.onboardingCompleted.Some? then p.onboardingCompleted else base.onboardingCompleted,
                       if p.darkMode.Some? then p.darkMode else base.darkMode,
                       if p.currency.Some? then p.currency else base.currency)
  }

  /** Spreading over `null` yields the update itself; spreading nothing
      changes nothing; applying the same update twice is the same as once. */
  lemma OverlayLaws(base: PartialPreferences, p: PartialPreferences)
    ensures OverlayPreferences(NoPreferences, p) == p
    ensures OverlayPreferences(base, NoPreferences) == base
    ensures OverlayPreferences(OverlayPreferences(base, p), p) == OverlayPreferences(base, p)
  {
  }

  /** A patch that carries the whole draft: what the transaction form sends
      on edit (every key present, optional ones possibly `undefined`). */
  function DraftAsPatch(d: TransactionDraft): (p: TransactionPatch)
    ensures forall t: Transaction :: MergeTransaction(t, p) == TransactionWithId(d, t.id)
  {
    TransactionPatch(Some(d.amount), Some(d.kind), Some(d.walletId), Some(d.toWalletId),
                     Some(d.categoryId), Some(d.note), Some(d.transferReason), Some(d.date),
                     Some(d.createdAt))
  }

  // Accessors passed to the generic sequence helpers.
  function WalletIdOf(w: Wallet): string { w.id }
  function CategoryIdOf(c: Category): string { c.id }
  function TransactionIdOf(t: Transaction): string { t.id }

  /** `message || fallback` on an error message: the empty string is falsy. */
  function OrElse(message: string, fallback: string): (r: string)
    ensures message != "" ==> r == message
    ensures message == "" ==> r == fallback
  {
    if message != "" then message else fallback
  }

  /** Truthiness of an optional id: absent and the empty string are falsy. */
  predicate IsSetId(o: Option<string>) {
    o.Some? && o.value != ""
  }
}
