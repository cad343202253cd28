/** The transaction store: the signed-in user's transactions (newest first
    as loaded), a loading flag and the last error message. Mutations call the
    document store first (its outcome is a parameter here) and change the
    local list only on success. The read-only helpers are the functions of
    the `Ledger` and `Breakdown` modules applied to `transactions`. */
module TransactionStore {
  import opened Types
  import Seqs
  import Ledger

  class Store {
    var transactions: seq<Transaction>
    var isLoading: bool
    var error: Option<string>

    constructor()
      ensures transactions == [] && !isLoading && error == None
    {
      transactions := [];
      isLoading := false;
      error := None;
    }

    /** `loadTransactions`: replaces the list, or records the failure and
        keeps the old list. Never rethrows. */
    method LoadTransactions(fetched: Result<seq<Transaction>>)
      modifies this
      ensures !isLoading
      ensures fetched.Success? ==> transactions == fetched.value && error == None
      ensures fetched.Failure? ==> transactions == old(transactions) && error == Some(fetched.message)
    {
      isLoading := true;
      error := None;
      match fetched
      case Success(ts) =>
        transactions := ts;
        isLoading := false;
      case Failure(m) =>
        error := Some(m);
        isLoading := false;
    }

    /** `addTransaction`: on success puts the new transaction at the FRONT of
        the list; on failure records and rethrows the error. */
    method AddTransaction(draft: TransactionDraft, created: Result<string>) returns (r: Result<string>)
      modifies this
      ensures r == created
      ensures isLoading == old(isLoading)
      ensures created.Success? ==> transactions == [TransactionWithId(draft, created.value)] + old(transactions)
                                   && error == old(error)
      ensures created.Failure? ==> transactions == old(transactions) && error == Some(created.message)
    {
      r := created;
      match created
      case Success(id) =>
        transactions := [TransactionWithId(draft, id)] + transactions;
      case Failure(m) =>
        error := Some(m);
    }

    /** `updateTransaction`: merges the update into every transaction with
        that id, in place in the list. */
    method UpdateTransaction(transactionId: string, patch: TransactionPatch, call: Outcome) returns (r: Outcome)
      modifies this
      ensures r == call
      ensures isLoading == old(isLoading)
      ensures call.Pass? ==> transactions == Seqs.UpdateWhere(old(transactions), TransactionIdOf, transactionId,
                                                                MergeTransaction, patch)
                             && error == old(error)
      ensures call.Fail? ==> transactions == old(transactions) && error == Some(call.message)
    {
      r := call;
      match call
      case Pass =>
        transactions := Seqs.UpdateWhere(transactions, TransactionIdOf, transactionId, MergeTransaction, patch);
      case Fail(m) =>
        error := Some(m);
    }

    /** `deleteTransaction`: drops every transaction with that id. */
    method DeleteTransaction(transactionId: string, call: Outcome) returns (r: Outcome)
      modifies this
      ensures r == call
      ensures isLoading == old(isLoading)
      ensures call.Pass? ==> transactions == Seqs.WithoutKey(old(transactions), TransactionIdOf, transactionId)
                             && error == old(error)
      ensures call.Fail? ==> transactions == old(transactions) && error == Some(call.message)
    {
      r := call;
      match call
      case Pass =>
        transactions := Seqs.WithoutKey(transactions, TransactionIdOf, transactionId);
      case Fail(m) =>
        error := Some(m);
    }

    /** `clearTransactions`. */
    method ClearTransactions()
      modifies this
      ensures transactions == [] && isLoading == old(isLoading) && error == old(error)
    {
      transactions := [];
    }
  }

  /** Adding a transaction moves each wallet's balance by exactly that
      transaction's contribution: the source wallet down (or up, for income),
      the destination of a transfer up, every other wallet not at all. */
  lemma AddedTransactionBalance(ts: seq<Transaction>, t: Transaction, w: string)
    ensures Ledger.Balance([t] + ts, w) == Ledger.Contribution(t, w) + Ledger.Balance(ts, w)
  {
    Ledger.BalanceConcat([t], ts, w);
    assert [t][..0] == [];
  }

  /** Deleting a transaction that was just added under a fresh id restores
      the list as it was, and with it every balance. */
  lemma AddThenDeleteRestores(ts: seq<Transaction>, draft: TransactionDraft, id: string)
    requires forall i :: 0 <= i < |ts| ==> ts[i].id != id
    ensures Seqs.WithoutKey([TransactionWithId(draft, id)] + ts, TransactionIdOf, id) == ts
  {
    Seqs.WithoutKeyConcat([TransactionWithId(draft, id)], ts, TransactionIdOf, id);
    Seqs.WithoutAbsentKey(ts, TransactionIdOf, id);
  }
}
