/** The wallet store: the signed-in user's wallets in creation order, with a
    loading flag and the last error message. Every mutating action calls the
    document store first (its outcome is a parameter here) and changes the
    local list only when that call succeeds. */
module WalletStore {
  import opened Types
  import Seqs

  predicate IsPersonal(w: Wallet) { w.kind == Personal }
  predicate IsCustodial(w: Wallet) { w.kind == Custodial }

  class Store {
    var wallets: seq<Wallet>
    var isLoading: bool
    var error: Option<string>

    constructor()
      ensures wallets == [] && !isLoading && error == None
    {
      wallets := [];
      isLoading := false;
      error := None;
    }

    /** `loadWallets`: replaces the list with what the store returned, or
        records the failure and keeps the old list. Never rethrows. */
    method LoadWallets(fetched: Result<seq<Wallet>>)
      modifies this
      ensures !isLoading
      ensures fetched.Success? ==> wallets == fetched.value && error == None
      ensures fetched.Failure? ==> wallets == old(wallets) && error == Some(fetched.message)
    {
      isLoading := true;
      error := None;
      match fetched
      case Success(ws) =>
        wallets := ws;
        isLoading := false;
      case Failure(m) =>
        error := Some(m);
        isLoading := false;
    }

    /** `addWallet`: `created` is the id the document store assigned, or its
        failure. On success the new wallet goes to the END of the list; on
        failure the error is recorded and rethrown. */
    method AddWallet(draft: WalletDraft, created: Result<string>) returns (r: Result<string>)
      modifies this
      ensures r == created
      ensures isLoading == old(isLoading)
      ensures created.Success? ==> wallets == old(wallets) + [WalletWithId(draft, created.value)] && error == old(error)
      ensures created.Failure? ==> wallets == old(wallets) && error == Some(created.message)
    {
      r := created;
      match created
      case Success(id) =>
        wallets := wallets + [WalletWithId(draft, id)];
      case Failure(m) =>
        error := Some(m);
    }

    /** `updateWallet`: merges the update into every wallet with that id. */
    method UpdateWallet(walletId: string, patch: WalletPatch, call: Outcome) returns (r: Outcome)
      modifies this
      ensures r == call
      ensures isLoading == old(isLoading)
      ensures call.Pass? ==> wallets == Seqs.UpdateWhere(old(wallets), WalletIdOf, walletId, MergeWallet, patch)
                             && error == old(error)
      ensures call.Fail? ==> wallets == old(wallets) && error == Some(call.message)
    {
      r := call;
      match call
      case Pass =>
        wallets := Seqs.UpdateWhere(wallets, WalletIdOf, walletId, MergeWallet, patch);
      case Fail(m) =>
        error := Some(m);
    }

    /** `deleteWallet`: drops every wallet with that id; transactions that
        refer to it are left alone. */
    method DeleteWallet(walletId: string, call: Outcome) returns (r: Outcome)
      modifies this
      ensures r == call
      ensures isLoading == old(isLoading)
      ensures call.Pass? ==> wallets == Seqs.WithoutKey(old(wallets), WalletIdOf, walletId) && error == old(error)
      ensures call.Fail? ==> wallets == old(wallets) && error == Some(call.message)
    {
      r := call;
      match call
      case Pass =>
        wallets := Seqs.WithoutKey(wallets, WalletIdOf, walletId);
      case Fail(m) =>
        error := Some(m);
    }

    /** `clearWallets`: empties the list and touches nothing else. */
    method ClearWallets()
      modifies this
      ensures wallets == [] && isLoading == old(isLoading) && error == old(error)
    {
      wallets := [];
    }

    /** `getPersonalWallets`. */
    function PersonalWallets(): (r: seq<Wallet>)
      reads this
      ensures forall i :: 0 <= i < |r| ==> r[i] in wallets && r[i].kind == Personal
      ensures forall i :: 0 <= i < |wallets| && wallets[i].kind == Personal ==> wallets[i] in r
    {
      Seqs.Filter(wallets, IsPersonal)
    }

    /** `getCustodialWallets`. */
    function CustodialWallets(): (r: seq<Wallet>)
      reads this
      ensures forall i :: 0 <= i < |r| ==> r[i] in wallets && r[i].kind == Custodial
      ensures forall i :: 0 <= i < |wallets| && wallets[i].kind == Custodial ==> wallets[i] in r
    {
      Seqs.Filter(wallets, IsCustodial)
    }

    /** `getWalletById`: the first wallet with that id, if any. */
    function WalletById(id: string): (r: Option<Wallet>)
      reads this
      ensures r.None? <==> forall i :: 0 <= i < |wallets| ==> wallets[i].id != id
      ensures r.Some? ==> r.value in wallets && r.value.id == id
      ensures r.Some? ==> exists i :: 0 <= i < |wallets| && wallets[i] == r.value
                                      && forall j :: 0 <= j < i ==> wallets[j].id != id
    {
      Seqs.FindFirst(wallets, WalletIdOf, id)
    }
  }

  /** Every wallet is either personal or custodial, so the two tabs of the
      wallet list together show each wallet exactly once. */
  lemma WalletKindsPartition(ws: seq<Wallet>)
    ensures multiset(Seqs.Filter(ws, IsPersonal)) + multiset(Seqs.Filter(ws, IsCustodial)) == multiset(ws)
    ensures |Seqs.Filter(ws, IsPersonal)| + |Seqs.Filter(ws, IsCustodial)| == |ws|
  {
    Seqs.FilterPartition(ws, IsPersonal, IsCustodial);
  }

  /** Deleting a wallet that was just added under a fresh id restores the
      list as it was. */
  lemma AddThenDeleteRestores(ws: seq<Wallet>, draft: WalletDraft, id: string)
    requires forall i :: 0 <= i < |ws| ==> ws[i].id != id
    ensures Seqs.WithoutKey(ws + [WalletWithId(draft, id)], WalletIdOf, id) == ws
  {
    Seqs.WithoutKeyConcat(ws, [WalletWithId(draft, id)], WalletIdOf, id);
    Seqs.WithoutAbsentKey(ws, WalletIdOf, id);
  }
}
