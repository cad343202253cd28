/** The add/edit wallet page: the initial type, the form an existing wallet
    is edited from, the name check of `handleSave` and the record it writes
    on create or on update. */
module WalletForm {
  import opened Types
  import Text
  import Seqs

  datatype Form = Form(name: string, kind: WalletType, icon: string)

  /** What `handleSave` sends to the store: a new record, or a partial
      update of the wallet being edited. */
  datatype SaveAction = Create(draft: WalletDraft) | Update(id: string, patch: WalletPatch)

  const MissingNameMessage := "Please enter a wallet name"
  const SaveFailedFallback := "Failed to save wallet"
  const DefaultIcon := "wallet"

  /** The type the page starts with: personal, or custodial when the `type`
      query parameter is exactly 'custodial'. */
  function InitialKind(typeParam: Option<string>): (k: WalletType)
    ensures k == Custodial <==> typeParam == Some("custodial")
    ensures k == Personal <==> typeParam != Some("custodial")
  {
    if typeParam == Some("custodial") then Custodial else Personal
  }

  /** The empty form of the create page. */
  function InitialForm(typeParam: Option<string>): (f: Form)
    ensures f.name == "" && f.kind == InitialKind(typeParam) && f.icon == DefaultIcon
  {
    Form("", InitialKind(typeParam), DefaultIcon)
  }

  /** The form filled from the wallet being edited. */
  function Prefill(w: Wallet): (f: Form)
    ensures f.name == w.name && f.kind == w.kind && f.icon == w.icon
  {
    Form(w.name, w.kind, w.icon)
  }

  /** The partial update sent on edit: name, type and icon only. */
  function EditPatch(f: Form): (p: WalletPatch)
    ensures p.name == Some(f.name) && p.kind == Some(f.kind) && p.icon == Some(f.icon)
    ensures p.isDefault.None? && p.createdAt.None?
  {
    WalletPatch(Some(f.name), Some(f.kind), Some(f.icon), None, None)
  }

  /** The record written on create: never a default wallet, created now. */
  function NewDraft(f: Form, now: int): (d: WalletDraft)
    ensures d.name == f.name && d.kind == f.kind && d.icon == f.icon
    ensures !d.isDefault && d.createdAt == now
  {
    WalletDraft(f.name, f.kind, f.icon, false, now)
  }

  /** `handleSave` up to the store call. `editId` is the route's id (edit
      mode when present). The name is checked after trimming but saved as
      typed. */
  function Save(f: Form, editId: Option<string>, now: int): (r: Result<SaveAction>)
    ensures r.Failure? <==> Text.Trim(f.name) == ""
    ensures r.Failure? ==> r.message == MissingNameMessage
    ensures r.Success? && editId.None? ==> r.value == Create(NewDraft(f, now))
    ensures r.Success? && editId.Some? ==> r.value == Update(editId.value, EditPatch(f))
  {
    Text.TrimEmptyIffBlank(f.name);
    if Text.IsBlank(f.name) then Failure(MissingNameMessage)
    else if editId.None? then Success(Create(NewDraft(f, now)))
    else Success(Update(editId.value, EditPatch(f)))
  }

  /** The message shown when the store call fails. */
  function SaveFailureMessage(message: string): (m: string)
    ensures m != ""
    ensures message != "" ==> m == message
    ensures message == "" ==> m == SaveFailedFallback
  {
    OrElse(message, SaveFailedFallback)
  }

  /** An edit rewrites name, type and icon and keeps the wallet's id,
      default flag and creation time. */
  lemma EditKeepsIdentity(w: Wallet, f: Form)
    ensures MergeWallet(w, EditPatch(f)) == Wallet(w.id, f.name, f.kind, f.icon, w.isDefault, w.createdAt)
  {
  }

  /** Opening a wallet for edit and saving it untouched writes back the same
      wallet (provided its name is not blank). */
  lemma UneditedSaveIsIdentity(w: Wallet, now: int)
    requires !Text.IsBlank(w.name)
    ensures Save(Prefill(w), Some(w.id), now).Success?
    ensures Save(Prefill(w), Some(w.id), now).value.Update?
    ensures MergeWallet(w, Save(Prefill(w), Some(w.id), now).value.patch) == w
  {
    Text.TrimEmptyIffBlank(w.name);
  }

  /** A created wallet is never a default one, so the wallets page always
      offers to delete it, and it lands under the tab of its type. */
  lemma CreatedWalletIsDeletable(f: Form, now: int, id: string)
    requires Save(f, None, now).Success?
    ensures !WalletWithId(Save(f, None, now).value.draft, id).isDefault
    ensures WalletWithId(Save(f, None, now).value.draft, id).kind == f.kind
  {
  }

  /** An edit through the store touches only the edited wallet, and only
      the fields the form owns; a wallet's type can change on edit. */
  lemma EditTouchesOnlyTarget(ws: seq<Wallet>, id: string, f: Form)
    ensures |Seqs.UpdateWhere(ws, WalletIdOf, id, MergeWallet, EditPatch(f))| == |ws|
    ensures forall i :: 0 <= i < |ws| ==>
              var r := Seqs.UpdateWhere(ws, WalletIdOf, id, MergeWallet, EditPatch(f))[i];
              r.id == ws[i].id && r.isDefault == ws[i].isDefault && r.createdAt == ws[i].createdAt
              && (ws[i].id != id ==> r == ws[i])
              && (ws[i].id == id ==> r.name == f.name && r.kind == f.kind && r.icon == f.icon)
  {
  }
}
