/**
 * The "Money Tracker" general-ledger component: the conjunctive filter over the store's
 * ledger rows, the money-in and money-out totals of what the filter keeps, and the paged list.
 */
module GeneralLedger {
  import opened Wrappers
  import opened Ledger
  import opened Text
  import opened Sequences
  import Paging

  /** The four filter controls; an empty text or a `None` date means "no constraint". */
  datatype Filters = Filters(search: string, account: string, start: Option<Date>, end: Option<Date>)

  const NoFilters := Filters("", "", None, None)

  /** Search: no term, or the lower-cased description contains the lower-cased term. */
  predicate MatchesSearch(e: Entry, search: string): (m: bool)
    ensures search == "" ==> m
  {
    search == "" || Contains(ToLower(e.description), ToLower(search))
  }

  /** A non-empty term matches exactly when it occurs, ignoring case, somewhere in the description. */
  lemma MatchesSearchOccurs(e: Entry, search: string)
    requires search != ""
    ensures MatchesSearch(e, search) <==> exists i :: OccursAt(ToLower(e.description), ToLower(search), i)
  {
    var found := Contains(ToLower(e.description), ToLower(search));
    assert MatchesSearch(e, search) == found;
    assert found ==> exists i :: OccursAt(ToLower(e.description), ToLower(search), i);
    assert (exists i :: OccursAt(ToLower(e.description), ToLower(search), i)) ==> found;
  }

  /** Account: no filter, or exactly the entry's account. */
  predicate MatchesAccount(e: Entry, account: string): (m: bool)
    ensures account == "" || account == e.account ==> m
    ensures m && account != "" ==> e.account == account
  {
    account == "" || e.account == account
  }

  /** Dates: each bound that is set holds, both bounds inclusive. */
  predicate MatchesDate(e: Entry, start: Option<Date>, end: Option<Date>): (m: bool)
    ensures start.None? && end.None? ==> m
    ensures start == Some(e.date) && end == Some(e.date) ==> m
    ensures start.Some? && end.Some? && end.value < start.value ==> !m
    ensures m ==> (start.None? || start.value <= e.date) && (end.None? || e.date <= end.value)
  {
    (start.None? || e.date >= start.value) && (end.None? || e.date <= end.value)
  }

  /** The filter callback: all three conditions hold. */
  predicate Matches(e: Entry, f: Filters): (m: bool)
    ensures m && f.account != "" ==> e.account == f.account
    ensures m && f.start.Some? ==> f.start.value <= e.date
    ensures m && f.end.Some? ==> e.date <= f.end.value
    ensures m && f.search != "" ==> Contains(ToLower(e.description), ToLower(f.search))
  {
    MatchesSearch(e, f.search) && MatchesAccount(e, f.account) && MatchesDate(e, f.start, f.end)
  }

  /**
   * `ledgerEntries.filter(...)`: the matching rows in ledger order, each as often as the
   * ledger holds it; no other row.
   */
  function FilterEntries(ledger: seq<Entry>, f: Filters): (r: seq<Entry>)
    ensures IsSubsequence(r, ledger)
    ensures forall e :: multiset(r)[e] == if Matches(e, f) then multiset(ledger)[e] else 0
  {
    if ledger == [] then []
    else
      var rest := FilterEntries(ledger[1..], f);
      assert ledger == [ledger[0]] + ledger[1..];
      if Matches(ledger[0], f) then [ledger[0]] + rest else rest
  }

  /** A row is in the filtered list exactly when it is a ledger row that matches. */
  lemma FilterMembers(ledger: seq<Entry>, f: Filters, e: Entry)
    ensures e in FilterEntries(ledger, f) <==> e in ledger && Matches(e, f)
  {
    var r := FilterEntries(ledger, f);
    assert e in r <==> multiset(r)[e] > 0;
    assert e in ledger <==> multiset(ledger)[e] > 0;
  }

  /** With every control cleared, each row matches. */
  lemma NoFiltersMatchAll(e: Entry)
    ensures Matches(e, NoFilters)
  {
  }

  /** With every control cleared, the filtered list is the whole ledger. */
  lemma {:induction false} NoFiltersKeepAll(ledger: seq<Entry>)
    ensures FilterEntries(ledger, NoFilters) == ledger
  {
    if ledger != [] {
      NoFiltersKeepAll(ledger[1..]);
      NoFiltersMatchAll(ledger[0]);
    }
  }

  /** Money in and money out. */
  datatype Totals = Totals(totalDebit: int, totalCredit: int)

  /** Reference definitions: the sums of `debit || 0` and of `credit || 0`. */
  function SumDebit(entries: seq<Entry>): int {
    if entries == [] then 0 else Amount(entries[0].debit) + SumDebit(entries[1..])
  }

  function SumCredit(entries: seq<Entry>): int {
    if entries == [] then 0 else Amount(entries[0].credit) + SumCredit(entries[1..])
  }

  /** The `reduce` callback applied to the rows left to right, starting from `acc`. */
  function AddTotals(acc: Totals, entries: seq<Entry>): (t: Totals)
    ensures t == Totals(acc.totalDebit + SumDebit(entries), acc.totalCredit + SumCredit(entries))
    decreases |entries|
  {
    if entries == [] then acc
    else
      var e := entries[0];
      AddTotals(Totals(acc.totalDebit + Amount(e.debit), acc.totalCredit + Amount(e.credit)), entries[1..])
  }

  /** `totals`: starting from zero, the debit and credit sums of the given rows. */
  function LedgerTotals(entries: seq<Entry>): (t: Totals)
    ensures t.totalDebit == SumDebit(entries)
    ensures t.totalCredit == SumCredit(entries)
  {
    AddTotals(Totals(0, 0), entries)
  }

  /** The state of the general-ledger component. */
  class LedgerView {
    var ledgerEntries: seq<Entry>
    var filteredEntries: seq<Entry>
    var searchTerm: string
    var accountFilter: string
    var dateStart: Option<Date>      // '' is `None`
    var dateEnd: Option<Date>
    var currentPage: int

    /** Pages are numbered from 1. */
    ghost predicate Valid()
      reads this
    {
      currentPage >= 1
    }

    constructor ()
      ensures Valid()
      ensures ledgerEntries == [] && filteredEntries == []
      ensures searchTerm == "" && accountFilter == "" && dateStart == None && dateEnd == None
      ensures currentPage == 1
    {
      ledgerEntries := [];
      filteredEntries := [];
      searchTerm := "";
      accountFilter := "";
      dateStart := None;
      dateEnd := None;
      currentPage := 1;
    }

    function CurrentFilters(): Filters
      reads this
    {
      Filters(searchTerm, accountFilter, dateStart, dateEnd)
    }

    /** The filtered list is what the filter effect computes from the current rows and controls. */
    ghost predicate Settled()
      reads this
    {
      filteredEntries == FilterEntries(ledgerEntries, CurrentFilters())
    }

    /** `totals` over the filtered rows. */
    function MoneyTotals(): (t: Totals)
      reads this
      ensures t.totalDebit == SumDebit(filteredEntries) && t.totalCredit == SumCredit(filteredEntries)
    {
      LedgerTotals(filteredEntries)
    }

    /** `totalPages`. */
    function TotalPages(): (n: nat)
      reads this
      ensures n * Paging.EntriesPerPage >= |filteredEntries|
      ensures n == 0 <==> filteredEntries == []
    {
      Paging.TotalPages(|filteredEntries|)
    }

    /** `currentEntries`: the filtered rows shown on the current page. */
    function CurrentEntries(): (page: seq<Entry>)
      reads this
      ensures |page| <= Paging.EntriesPerPage
      ensures 1 <= currentPage <= TotalPages() ==>
        page == filteredEntries[(currentPage - 1) * Paging.EntriesPerPage .. Paging.Min(currentPage * Paging.EntriesPerPage, |filteredEntries|)]
      ensures currentPage > TotalPages() ==> page == []
    {
      Paging.PageOf(filteredEntries, currentPage)
    }

    /** The filter effect: recompute the filtered rows and return to page 1. */
    method RunFilterEffect()
      modifies this`filteredEntries, this`currentPage
      ensures Valid() && Settled()
      ensures currentPage == 1
      ensures IsSubsequence(filteredEntries, ledgerEntries)
    {
      filteredEntries := FilterEntries(ledgerEntries, CurrentFilters());
      currentPage := 1;
    }

    /** Typing in the search box; the effect runs only when the term actually changes. */
    method SetSearchTerm(term: string)
      requires Valid()
      modifies this`searchTerm, this`filteredEntries, this`currentPage
      ensures Valid() && searchTerm == term
      ensures term != old(searchTerm) ==> Settled() && currentPage == 1
      ensures term == old(searchTerm) ==> filteredEntries == old(filteredEntries) && currentPage == old(currentPage)
    {
      if term != searchTerm {
        searchTerm := term;
        RunFilterEffect();
      }
    }

    /** Choosing an account; the effect runs only when the choice actually changes. */
    method SetAccountFilter(account: string)
      requires Valid()
      modifies this`accountFilter, this`filteredEntries, this`currentPage
      ensures Valid() && accountFilter == account
      ensures account != old(accountFilter) ==> Settled() && currentPage == 1
      ensures account == old(accountFilter) ==> filteredEntries == old(filteredEntries) && currentPage == old(currentPage)
    {
      if account != accountFilter {
        accountFilter := account;
        RunFilterEffect();
      }
    }

    /**
     * Editing the start date. `setDateRange({...dateRange, start})` always stores a new
     * object, so the effect runs even when the date is the same.
     */
    method SetDateStart(d: Option<Date>)
      modifies this`dateStart, this`filteredEntries, this`currentPage
      ensures Valid() && Settled()
      ensures dateStart == d && currentPage == 1
    {
      dateStart := d;
      RunFilterEffect();
    }

    /** Editing the end date; as for the start date, the effect always runs. */
    method SetDateEnd(d: Option<Date>)
      modifies this`dateEnd, this`filteredEntries, this`currentPage
      ensures Valid() && Settled()
      ensures dateEnd == d && currentPage == 1
    {
      dateEnd := d;
      RunFilterEffect();
    }

    /**
     * `fetchLedger`, given the query's outcome (`None` on an error): an error leaves both
     * lists as they were; rows replace both lists.
     */
    method FetchLedger(response: Option<seq<Entry>>)
      requires Valid()
      modifies this`ledgerEntries, this`filteredEntries
      ensures Valid()
      ensures response.None? ==> ledgerEntries == old(ledgerEntries) && filteredEntries == old(filteredEntries)
      ensures response.Some? ==> ledgerEntries == response.value && filteredEntries == response.value
    {
      if response.Some? {
        ledgerEntries := response.value;
        filteredEntries := response.value;
      }
    }

    /**
     * Loading the ledger as the component does it: the fetch, then (new rows being a change of
     * `ledgerEntries`) the filter effect. With every control cleared nothing is filtered out.
     */
    method LoadLedger(response: Option<seq<Entry>>)
      requires Valid()
      modifies this`ledgerEntries, this`filteredEntries, this`currentPage
      ensures Valid()
      ensures response.None? ==> ledgerEntries == old(ledgerEntries) && filteredEntries == old(filteredEntries)
                                 && currentPage == old(currentPage)
      ensures response.Some? ==> ledgerEntries == response.value && Settled() && currentPage == 1
      ensures response.Some? && CurrentFilters() == NoFilters ==> filteredEntries == response.value
    {
      FetchLedger(response);
      if response.Some? {
        RunFilterEffect();
        if CurrentFilters() == NoFilters {
          NoFiltersKeepAll(ledgerEntries);
        }
      }
    }

    /** `paginate(q)`: moves to page `q` only when it exists. */
    method Paginate(q: int)
      requires Valid()
      modifies this`currentPage
      ensures Valid()
      ensures 1 <= q <= TotalPages() ==> currentPage == q && CurrentEntries() != []
      ensures !(1 <= q <= TotalPages()) ==> currentPage == old(currentPage)
      ensures filteredEntries == [] ==> currentPage == old(currentPage)
    {
      if 1 <= q <= TotalPages() {
        currentPage := q;
      }
    }
  }
}
