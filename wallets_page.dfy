/** The wallet list page: the tab filter, the delete control and the
    delete handler. */
module WalletsPage {
  import opened Types
  import Seqs
  import WalletStore

  datatype Tab = PersonalTab | CustodialTab

  /** The wallet type a tab shows. */
  function TabKind(tab: Tab): (k: WalletType)
    ensures k == Personal <==> tab == PersonalTab
  {
    match tab
    case PersonalTab => Personal
    case CustodialTab => Custodial
  }

  function OnTab(tab: Tab): Wallet -> bool {
    (w: Wallet) => w.kind == TabKind(tab)
  }

  /** `filteredWallets`: the wallets of the selected tab's type, in list
      order. */
  function FilteredWallets(ws: seq<Wallet>, tab: Tab): (r: seq<Wallet>)
    ensures Seqs.IsSubsequence(r, ws)
    ensures forall i :: 0 <= i < |r| ==> r[i].kind == TabKind(tab)
    ensures forall i :: 0 <= i < |ws| && ws[i].kind == TabKind(tab) ==> ws[i] in r
  {
    Seqs.FilterIsSubsequence(ws, OnTab(tab));
    Seqs.Filter(ws, OnTab(tab))
  }

  /** The two tabs show each wallet exactly once between them. */
  lemma TabsPartition(ws: seq<Wallet>)
    ensures multiset(FilteredWallets(ws, PersonalTab)) + multiset(FilteredWallets(ws, CustodialTab)) == multiset(ws)
    ensures |FilteredWallets(ws, PersonalTab)| + |FilteredWallets(ws, CustodialTab)| == |ws|
  {
    Seqs.FilterPartition(ws, OnTab(PersonalTab), OnTab(CustodialTab));
  }

  /** The delete button is rendered only for wallets that are not default. */
  predicate ShowsDelete(w: Wallet) {
    !w.isDefault
  }

  predicate IsDefaultWallet(w: Wallet) {
    w.isDefault
  }

  /** `handleDelete`: nothing happens without a signed-in user or when the
      confirmation is declined; otherwise the store deletes the wallet, and
      a failure is only logged, so the list and error are what the store
      leaves. Returns whether the store was called. */
  method HandleDelete(store: WalletStore.Store, signedIn: bool, confirmed: bool, walletId: string, call: Outcome)
    returns (attempted: bool)
    modifies store
    ensures attempted <==> signedIn && confirmed
    ensures store.isLoading == old(store.isLoading)
    ensures !attempted ==> store.wallets == old(store.wallets) && store.error == old(store.error)
    ensures attempted && call.Pass? ==>
              store.wallets == Seqs.WithoutKey(old(store.wallets), WalletIdOf, walletId)
              && store.error == old(store.error)
    ensures attempted && call.Fail? ==> store.wallets == old(store.wallets) && store.error == Some(call.message)
  {
    if !signedIn || !confirmed {
      return false;
    }
    var _ := store.DeleteWallet(walletId, call);
    attempted := true;
  }

  /** Deleting through a delete button (a wallet that is not default) when
      ids are unique keeps every default wallet, in order. */
  lemma DeleteKeepsDefaults(ws: seq<Wallet>, i: int)
    requires 0 <= i < |ws| && ShowsDelete(ws[i])
    requires forall j, k :: 0 <= j < k < |ws| ==> ws[j].id != ws[k].id
    ensures Seqs.Filter(Seqs.WithoutKey(ws, WalletIdOf, ws[i].id), IsDefaultWallet) == Seqs.Filter(ws, IsDefaultWallet)
  {
    Seqs.FilterWithoutKey(ws, WalletIdOf, ws[i].id, IsDefaultWallet);
  }
}
