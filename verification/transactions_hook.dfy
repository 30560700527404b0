/** The older, non-optimistic working set (src/hooks/useTransactions.js): a
    list and a loading flag held in component state. Unlike the store, it
    touches the list only after the service has answered, so a failure
    leaves the list as it was. Its two views are the same filter and sort as
    the store's selectors. */
module TransactionsHook {
  import opened Types
  import opened Ledger
  import opened Selectors
  import opened Store

  class TransactionsHook {
    var transactions: seq<Transaction>
    var loading: bool

    /** `useState([])` and `useState(true)`. */
    constructor ()
      ensures transactions == [] && loading
    {
      transactions := [];
      loading := true;
    }

    /** `fetchTransactions` up to its `await`. */
    method BeginFetchAll()
      modifies this
      ensures loading && transactions == old(transactions)
    {
      loading := true;
    }

    /** After `fetchAll` settled: the data replaces the list on success, a
        failure is swallowed, and loading is off either way. */
    method CompleteFetchAll(outcome: Outcome<seq<Transaction>>)
      modifies this
      ensures transactions == (if outcome.Ok? then outcome.value else old(transactions))
      ensures !loading
    {
      if outcome.Ok? {
        transactions := outcome.value;
      }
      loading := false;
    }

    /** `addTransaction`: the stored record goes in front once the service
        returned it; a failure propagates before the list is touched. */
    method Add(outcome: Outcome<Transaction>) returns (r: Outcome<Transaction>)
      modifies this
      ensures r == outcome
      ensures transactions == (if outcome.Ok? then [outcome.value] + old(transactions) else old(transactions))
      ensures loading == old(loading)
    {
      if outcome.Ok? {
        transactions := [outcome.value] + transactions;
      }
      r := outcome;
    }

    /** `deleteTransaction`: every record with the id goes once the service
        confirmed the deletion. */
    method Delete(id: int, outcome: Outcome<()>) returns (r: Outcome<()>)
      modifies this
      ensures r == outcome
      ensures transactions == (if outcome.Ok? then RemoveId(old(transactions), id) else old(transactions))
      ensures loading == old(loading)
    {
      if outcome.Ok? {
        transactions := RemoveId(transactions, id);
      }
      r := outcome;
    }

    /** `bulkAddTransactions`: the stored records go in front, in the order
        the service returned them. */
    method BulkAdd(outcome: Outcome<seq<Transaction>>) returns (r: Outcome<seq<Transaction>>)
      modifies this
      ensures r == outcome
      ensures transactions == (if outcome.Ok? then outcome.value + old(transactions) else old(transactions))
      ensures loading == old(loading)
    {
      if outcome.Ok? {
        transactions := outcome.value + transactions;
      }
      r := outcome;
    }

    /** The `filteredTransactions` memo: a sorted copy; the list itself is
        not reordered, since a function cannot change it. */
    function Filtered(currentDate: Date, selectedDate: Option<string>): seq<Transaction>
      reads this
    {
      FilteredTransactions(transactions, selectedDate, currentDate)
    }

    /** The `monthTransactions` memo. */
    function Month(currentDate: Date): seq<Transaction>
      reads this
    {
      MonthTransactions(transactions, currentDate)
    }
  }

  /** The store's optimistic add and this hook's add end in the same list
      when the service succeeds: the optimistic record, once confirmed, is
      exactly the stored record in front of the earlier list. When the
      service fails, both end where they started. */
  lemma OptimisticAddAgrees(s: seq<Transaction>, d: TransactionDraft, tempId: int, outcome: Outcome<Transaction>)
    requires Fresh(s, tempId)
    ensures outcome.Ok? ==> ReplaceId([Optimistic(d, tempId)] + s, tempId, outcome.value) == [outcome.value] + s
    ensures outcome.Err? ==> RemoveId([Optimistic(d, tempId)] + s, tempId) == s
  {
    if outcome.Ok? {
      AddConfirmed(s, d, tempId, outcome.value);
    } else {
      AddRolledBack(s, d, tempId);
    }
  }
}
