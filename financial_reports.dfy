/**
 * The "Money Overview" component: per-account balances folded from the general ledger,
 * the money-snapshot and earnings reports built from them, and the paged list of entries.
 * The rows are those the ledger query returned (store and date filtering happen in the database).
 */
module FinancialReports {
  import opened Wrappers
  import opened Ledger
  import Paging

  const Cash := "Cash"
  const Inventory := "Inventory"
  const AccountsReceivable := "Accounts Receivable"
  const AccountsPayable := "Accounts Payable"
  const Revenue := "Revenue"
  const Cogs := "COGS"
  const BadDebtExpense := "Bad Debt Expense"

  /** `balances[a] || 0`: an account with no entries reads as zero. */
  function Lookup(balances: map<string, int>, a: string): int {
    if a in balances then balances[a] else 0
  }

  /** Reference definition: the sum of `(debit || 0) - (credit || 0)` over the rows of account `a`. */
  function AccountBalance(ledger: seq<Entry>, a: string): int {
    if ledger == [] then 0
    else (if ledger[0].account == a then Net(ledger[0]) else 0) + AccountBalance(ledger[1..], a)
  }

  /** The accounts that occur in the ledger. */
  function Accounts(ledger: seq<Entry>): set<string> {
    if ledger == [] then {} else {ledger[0].account} + Accounts(ledger[1..])
  }

  /** The `reduce` callback applied to the rows left to right, starting from `acc`. */
  function Accumulate(acc: map<string, int>, ledger: seq<Entry>): (r: map<string, int>)
    ensures acc.Keys <= r.Keys
    ensures forall i :: 0 <= i < |ledger| ==> ledger[i].account in r
    decreases |ledger|
  {
    if ledger == [] then acc
    else
      var e := ledger[0];
      Accumulate(acc[e.account := Lookup(acc, e.account) + Net(e)], ledger[1..])
  }

  /** Folding adds an account's net sum to whatever the accumulator already held for it. */
  lemma {:induction false} AccumulateAt(acc: map<string, int>, ledger: seq<Entry>, a: string)
    ensures Lookup(Accumulate(acc, ledger), a) == Lookup(acc, a) + AccountBalance(ledger, a)
    decreases |ledger|
  {
    if ledger != [] {
      var e := ledger[0];
      var acc' := acc[e.account := Lookup(acc, e.account) + Net(e)];
      AccumulateAt(acc', ledger[1..], a);
      assert Lookup(acc', a) == Lookup(acc, a) + (if e.account == a then Net(e) else 0);
    }
  }

  /** Folding adds exactly the accounts that occur in the rows. */
  lemma {:induction false} AccumulateKeys(acc: map<string, int>, ledger: seq<Entry>)
    ensures Accumulate(acc, ledger).Keys == acc.Keys + Accounts(ledger)
    decreases |ledger|
  {
    if ledger != [] {
      var e := ledger[0];
      AccumulateKeys(acc[e.account := Lookup(acc, e.account) + Net(e)], ledger[1..]);
    }
  }

  /** `ledger.reduce(..., {})`: one balance per account that occurs, equal to that account's net sum. */
  function Balances(ledger: seq<Entry>): (balances: map<string, int>)
    ensures balances.Keys == Accounts(ledger)
    ensures forall a :: Lookup(balances, a) == AccountBalance(ledger, a)
  {
    AccumulateKeys(map[], ledger);
    assert forall a :: Lookup(Accumulate(map[], ledger), a) == AccountBalance(ledger, a) by {
      forall a ensures Lookup(Accumulate(map[], ledger), a) == AccountBalance(ledger, a) {
        AccumulateAt(map[], ledger, a);
      }
    }
    Accumulate(map[], ledger)
  }

  /** The three asset line items. */
  datatype AssetLines = AssetLines(cash: int, inventory: int, owedToYou: int)

  datatype SnapshotTotals = SnapshotTotals(assets: int, liabilities: int, equity: int)

  datatype EarningsTotals = EarningsTotals(revenue: int, cogs: int, expenses: int, netIncome: int)

  /** `reportData`: empty (`{}`), a money snapshot, or an earnings report. */
  datatype ReportData =
    | NoData
    | Snapshot(entries: seq<Entry>, assets: AssetLines, moneyYouOwe: int, businessValue: int,
               snapshotTotals: SnapshotTotals)
    | Earnings(entries: seq<Entry>, revenue: int, cogs: int, badDebts: int, netIncome: int,
               earningsTotals: EarningsTotals)

  /** The money snapshot: what the store owns, what it owes and what it is worth. */
  function SnapshotReport(ledger: seq<Entry>): (r: ReportData)
    ensures r.Snapshot? && r.entries == ledger
    ensures r.assets == AssetLines(AccountBalance(ledger, Cash), AccountBalance(ledger, Inventory),
                                   AccountBalance(ledger, AccountsReceivable))
    ensures r.moneyYouOwe == AccountBalance(ledger, AccountsPayable)
    ensures r.businessValue == AccountBalance(ledger, Revenue) - AccountBalance(ledger, Cogs)
                               - AccountBalance(ledger, BadDebtExpense)
    ensures r.snapshotTotals.assets == r.assets.cash + r.assets.inventory + r.assets.owedToYou
    ensures r.snapshotTotals.liabilities == r.moneyYouOwe
    ensures r.snapshotTotals.equity == r.businessValue
  {
    var balances := Balances(ledger);
    var assetsTotal := Lookup(balances, Inventory) + Lookup(balances, AccountsReceivable) + Lookup(balances, Cash);
    var liabilitiesTotal := Lookup(balances, AccountsPayable);
    var equityTotal := Lookup(balances, Revenue) - Lookup(balances, Cogs) - Lookup(balances, BadDebtExpense);
    Snapshot(ledger,
             AssetLines(Lookup(balances, Cash), Lookup(balances, Inventory), Lookup(balances, AccountsReceivable)),
             Lookup(balances, AccountsPayable),
             equityTotal,
             SnapshotTotals(assetsTotal, liabilitiesTotal, equityTotal))
  }

  /** The earnings report: sales income, costs and profit. */
  function EarningsReport(ledger: seq<Entry>): (r: ReportData)
    ensures r.Earnings? && r.entries == ledger
    ensures r.revenue == AccountBalance(ledger, Revenue)
    ensures r.cogs == AccountBalance(ledger, Cogs)
    ensures r.badDebts == AccountBalance(ledger, BadDebtExpense)
    ensures r.netIncome == r.revenue - r.cogs - r.badDebts
    ensures r.earningsTotals == EarningsTotals(r.revenue, r.cogs, r.badDebts, r.netIncome)
  {
    var balances := Balances(ledger);
    var netIncome := Lookup(balances, Revenue) - Lookup(balances, Cogs) - Lookup(balances, BadDebtExpense);
    Earnings(ledger,
             Lookup(balances, Revenue),
             Lookup(balances, Cogs),
             Lookup(balances, BadDebtExpense),
             netIncome,
             EarningsTotals(Lookup(balances, Revenue), Lookup(balances, Cogs), Lookup(balances, BadDebtExpense), netIncome))
  }

  /** The rows of the given accounts, in ledger order: what the earnings query's `.in('account', ...)` returns. */
  function OnlyAccounts(ledger: seq<Entry>, accounts: set<string>): seq<Entry> {
    if ledger == [] then []
    else if ledger[0].account in accounts then [ledger[0]] + OnlyAccounts(ledger[1..], accounts)
    else OnlyAccounts(ledger[1..], accounts)
  }

  /** Dropping rows of other accounts leaves the balance of a kept account as it was. */
  lemma {:induction false} OnlyAccountsBalance(ledger: seq<Entry>, accounts: set<string>, a: string)
    requires a in accounts
    ensures AccountBalance(OnlyAccounts(ledger, accounts), a) == AccountBalance(ledger, a)
  {
    if ledger != [] {
      OnlyAccountsBalance(ledger[1..], accounts, a);
      if ledger[0].account in accounts {
        var tail := OnlyAccounts(ledger[1..], accounts);
        assert ([ledger[0]] + tail)[1..] == tail;
      }
    }
  }

  /**
   * Over the same rows and dates, the snapshot's business value is the earnings report's profit:
   * both are Revenue - COGS - Bad Debt Expense.
   */
  lemma BusinessValueIsNetIncome(ledger: seq<Entry>)
    ensures SnapshotReport(ledger).businessValue ==
            EarningsReport(OnlyAccounts(ledger, {Revenue, Cogs, BadDebtExpense})).netIncome
  {
    var s := {Revenue, Cogs, BadDebtExpense};
    OnlyAccountsBalance(ledger, s, Revenue);
    OnlyAccountsBalance(ledger, s, Cogs);
    OnlyAccountsBalance(ledger, s, BadDebtExpense);
  }

  /** The report selector. */
  datatype ReportType = MoneySnapshot | EarningsReportType

  /** The report `fetchReportData` builds for the selected type. */
  function ReportFor(t: ReportType, ledger: seq<Entry>): (r: ReportData)
    ensures t == MoneySnapshot <==> r.Snapshot?
    ensures t == EarningsReportType <==> r.Earnings?
    ensures !r.NoData? && r.entries == ledger
  {
    match t
    case MoneySnapshot => SnapshotReport(ledger)
    case EarningsReportType => EarningsReport(ledger)
  }

  /** The state of the financial-reports component. */
  class ReportsView {
    var reportType: ReportType
    var dateStart: Option<Date>      // '' is `None`
    var dateEnd: Option<Date>
    var reportData: ReportData
    var currentPage: int

    /** Pages are numbered from 1. */
    ghost predicate Valid()
      reads this
    {
      currentPage >= 1
    }

    constructor ()
      ensures Valid()
      ensures reportType == MoneySnapshot && dateStart == None && dateEnd == None
      ensures reportData == NoData && currentPage == 1
    {
      reportType := MoneySnapshot;
      dateStart := None;
      dateEnd := None;
      reportData := NoData;
      currentPage := 1;
    }

    /** `reportData.entries || []`. */
    function Entries(): (entries: seq<Entry>)
      reads this
      ensures reportData.NoData? ==> entries == []
    {
      match reportData
      case NoData => []
      case Snapshot(entries, _, _, _, _) => entries
      case Earnings(entries, _, _, _, _, _) => entries
    }

    /** `totalPages`. */
    function TotalPages(): (n: nat)
      reads this
      ensures n * Paging.EntriesPerPage >= |Entries()|
      ensures n == 0 <==> Entries() == []
    {
      Paging.TotalPages(|Entries()|)
    }

    /** `currentEntries`: the rows shown on the current page. */
    function CurrentEntries(): (page: seq<Entry>)
      reads this
      ensures |page| <= Paging.EntriesPerPage
      ensures 1 <= currentPage <= TotalPages() ==>
        page == Entries()[(currentPage - 1) * Paging.EntriesPerPage .. Paging.Min(currentPage * Paging.EntriesPerPage, |Entries()|)]
      ensures currentPage > TotalPages() ==> page == []
    {
      Paging.PageOf(Entries(), currentPage)
    }

    /**
     * `fetchReportData`, given the query's outcome (`None` on an error). On an error the
     * report is emptied and the page is left alone; otherwise the report of the selected type
     * is built from the rows and the page returns to 1.
     */
    method FetchReportData(response: Option<seq<Entry>>)
      requires Valid()
      modifies this`reportData, this`currentPage
      ensures Valid()
      ensures response.None? ==> reportData == NoData && currentPage == old(currentPage)
      ensures response.Some? ==> reportData == ReportFor(reportType, response.value) && currentPage == 1
    {
      if response.None? {
        reportData := NoData;
        return;
      }
      var ledger := response.value;
      if reportType == MoneySnapshot {
        reportData := SnapshotReport(ledger);
      } else {
        reportData := EarningsReport(ledger);
      }
      currentPage := 1;
    }

    /**
     * The effect that reloads the report whenever the report type or the date range changes;
     * without a store id it only shows a toast.
     */
    method RunFetchEffect(hasStoreId: bool, response: Option<seq<Entry>>)
      requires Valid()
      modifies this`reportData, this`currentPage
      ensures Valid()
      ensures !hasStoreId ==> reportData == old(reportData) && currentPage == old(currentPage)
      ensures hasStoreId && response.None? ==> reportData == NoData && currentPage == old(currentPage)
      ensures hasStoreId && response.Some? ==> reportData == ReportFor(reportType, response.value) && currentPage == 1
    {
      if hasStoreId {
        FetchReportData(response);
      }
    }

    /** Choosing a report type; the effect runs only when the choice actually changes. */
    method SetReportType(t: ReportType, hasStoreId: bool, response: Option<seq<Entry>>)
      requires Valid()
      modifies this`reportType, this`reportData, this`currentPage
      ensures Valid() && reportType == t
      ensures t == old(reportType) ==> reportData == old(reportData) && currentPage == old(currentPage)
      ensures t != old(reportType) && hasStoreId && response.Some? ==>
        reportData == ReportFor(t, response.value) && currentPage == 1
      ensures t != old(reportType) && hasStoreId && response.None? ==>
        reportData == NoData && currentPage == old(currentPage)
      ensures t != old(reportType) && !hasStoreId ==>
        reportData == old(reportData) && currentPage == old(currentPage)
    {
      if t != reportType {
        reportType := t;
        RunFetchEffect(hasStoreId, response);
      }
    }

    /**
     * Editing the start date. `setDateRange({...dateRange, start})` always stores a new object,
     * so the effect runs even when the date is the same.
     */
    method SetDateStart(d: Option<Date>, hasStoreId: bool, response: Option<seq<Entry>>)
      requires Valid()
      modifies this`dateStart, this`reportData, this`currentPage
      ensures Valid() && dateStart == d
      ensures !hasStoreId ==> reportData == old(reportData) && currentPage == old(currentPage)
      ensures hasStoreId && response.None? ==> reportData == NoData && currentPage == old(currentPage)
      ensures hasStoreId && response.Some? ==> reportData == ReportFor(reportType, response.value) && currentPage == 1
    {
      dateStart := d;
      RunFetchEffect(hasStoreId, response);
    }

    /** Editing the end date; as for the start date, the effect always runs. */
    method SetDateEnd(d: Option<Date>, hasStoreId: bool, response: Option<seq<Entry>>)
      requires Valid()
      modifies this`dateEnd, this`reportData, this`currentPage
      ensures Valid() && dateEnd == d
      ensures !hasStoreId ==> reportData == old(reportData) && currentPage == old(currentPage)
      ensures hasStoreId && response.None? ==> reportData == NoData && currentPage == old(currentPage)
      ensures hasStoreId && response.Some? ==> reportData == ReportFor(reportType, response.value) && currentPage == 1
    {
      dateEnd := d;
      RunFetchEffect(hasStoreId, response);
    }

    /** `paginate(q)`: moves to page `q` only when it exists. */
    method Paginate(q: int)
      requires Valid()
      modifies this`currentPage
      ensures Valid()
      ensures 1 <= q <= TotalPages() ==> currentPage == q && CurrentEntries() != []
      ensures !(1 <= q <= TotalPages()) ==> currentPage == old(currentPage)
      ensures Entries() == [] ==> currentPage == old(currentPage)
    {
      if 1 <= q <= TotalPages() {
        currentPage := q;
      }
    }

    /**
     * `clearFilters`: back to the money snapshot over all dates, on page 1. The new date-range
     * object then triggers the fetch effect, which leaves the page at 1 whatever it returns.
     */
    method ClearFilters(hasStoreId: bool, response: Option<seq<Entry>>)
      requires Valid()
      modifies this`reportType, this`dateStart, this`dateEnd, this`reportData, this`currentPage
      ensures Valid()
      ensures reportType == MoneySnapshot && dateStart == None && dateEnd == None && currentPage == 1
      ensures hasStoreId && response.Some? ==> reportData == SnapshotReport(response.value)
      ensures hasStoreId && response.None? ==> reportData == NoData
      ensures !hasStoreId ==> reportData == old(reportData)
    {
      reportType := MoneySnapshot;
      dateStart := None;
      dateEnd := None;
      currentPage := 1;
      RunFetchEffect(hasStoreId, response);
    }
  }
}
