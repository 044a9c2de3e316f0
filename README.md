# Retail dashboard permissions and ledger reports, modelled in Dafny

This project models the small pieces of logic inside three React components of a
retail-management front end whose data lives in a hosted Supabase database:

- **Tool dashboard** (`StoreUsersVariex2.js`, module `FeatureAccess`). The allowed-feature
  lists of the store and of the store user are normalised: each item is trimmed, lower-cased
  and mapped through `featureKeyMapping`, and empty items are dropped. The two lists are then
  intersected. Premium access comes from the store's `premium` column or from two look-ups over
  associated stores. A tool opens only when it is allowed and is either freemium or premium.
  The component state (`activeTool`, `error`, `allowedFeatures`, `isPremium`, `shopName`,
  `isLoading`) is the class `Dashboard`.
- **Money overview** (`FinancialReports.js`, module `FinancialReports`). The ledger rows are
  folded into per-account balances (`debit − credit`, a missing amount counting as 0). The money
  snapshot (assets, liabilities, business value) and the earnings report (revenue, COGS, bad debts,
  profit) are built from those balances by fixed formulas. The rows are shown ten per page.
  The code does not flip the sign of credit-normal accounts: Revenue's balance is debit − credit,
  and the model keeps that formula as written. The component state is the class `ReportsView`.
- **General ledger** (`GeneralLedger.js`, module `GeneralLedger`). A conjunctive filter
  combines three tests. The description must contain the search term, compared case-insensitively.
  The account must equal the chosen one. The date must lie within each date bound that is set,
  both bounds inclusive. Money in and money out are summed over the kept rows, which are also paged.
  The component state is the class `LedgerView`.

Shared modules: `Wrappers` (Option), `Sequences` (the subsequence relation), `Text`
(JavaScript's `trim`, `toLowerCase` and `includes`), `Paging` (ten-per-page slices, page count)
and `Ledger` (the `general_ledger` row).

Amounts are whole minor units (`int`); dates are day numbers (`int`), which order like ISO
`YYYY-MM-DD` strings; an empty date field is `None`. Database rows, the results of
`JSON.parse`, whether local storage holds a store or user id, and the outcome of the premium
look-ups are parameters of the methods that use them. A failed query is `None`.

## Model

| member | source | states |
|---|---|---|
| `Text.Trim` | src/component/UserDashboard/StoreUsersVariex2.js:172 | the result is no longer than the input and neither starts nor ends with white space |
| `Text.TrimIsSlice` | src/component/UserDashboard/StoreUsersVariex2.js:172 | the result of `trim` is one contiguous piece of the input, and everything removed around it is white space |
| `Text.ToLower` | src/component/DynamicSales/GeneralLedger.js:28 | same length as the input, each character lower-cased |
| `Text.Contains` | src/component/DynamicSales/GeneralLedger.js:28 | `s.includes(t)` holds exactly when `t` occurs in `s` at some offset; the empty term is in every string |
| `Paging.JsSlice` | src/component/DynamicSales/FinancialReports.js:107 | `slice` on in-range bounds is the plain slice; a start past the end gives nothing; an end past the end is clamped |
| `Paging.TotalPages` | src/component/DynamicSales/FinancialReports.js:108 | `Math.ceil(n / 10)`: the pages hold all `n` entries, one page fewer would not, and there are no pages exactly when there are no entries |
| `Paging.PageOf` | src/component/DynamicSales/FinancialReports.js:105-107 | a page holds at most 10 entries; an existing page `p` is the non-empty slice `[(p−1)·10, min(p·10, n))`; a page past the last is empty |
| `Paging.PagesUpToPrefix` | src/component/DynamicSales/GeneralLedger.js:68-71 | pages 1..k laid end to end are the first `min(10k, n)` entries |
| `Paging.PagesCoverAll` | src/component/DynamicSales/GeneralLedger.js:68-71 | pages 1..totalPages together are exactly the whole list: nothing is lost or shown twice |
| `FeatureAccess.MapKey` | src/component/UserDashboard/StoreUsersVariex2.js:173 | a spelling listed in `featureKeyMapping` becomes its mapped key; any other string is kept as it is |
| `FeatureAccess.MappingValuesAreFixed` | src/component/UserDashboard/StoreUsersVariex2.js:101-111 | every value of `featureKeyMapping` maps to itself |
| `FeatureAccess.MapKeyIdempotent` | src/component/UserDashboard/StoreUsersVariex2.js:173 | mapping a key a second time changes nothing |
| `FeatureAccess.NormalizeList` | src/component/UserDashboard/StoreUsersVariex2.js:170-175 | when it succeeds, every feature is non-empty and already a fixed point of the mapping, and there are no more features than items |
| `FeatureAccess.NormalizeListFails` | src/component/UserDashboard/StoreUsersVariex2.js:170-175 | normalising fails exactly when some item is neither a string nor missing, because calling `trim` on it throws |
| `FeatureAccess.NormalizeListMembers` | src/component/UserDashboard/StoreUsersVariex2.js:171-175 | a feature is in the list exactly when it is non-empty and is the trimmed, lower-cased, mapped form of some string item |
| `FeatureAccess.ParseField` | src/component/UserDashboard/StoreUsersVariex2.js:168-196 | every feature of a parse that does not crash is canonical |
| `FeatureAccess.ParseFieldCases` | src/component/UserDashboard/StoreUsersVariex2.js:168-196 | an array crashes exactly when it has an item that is neither a string nor missing; `''` and `'""'` give no features and no error; a string that is unparsable or not an array gives no features and reports invalid data; a parsed array reports invalid data exactly when it has such an item; any other value gives no features silently; only a string can report invalid data, and then there are no features |
| `FeatureAccess.IsPremiumStore` | src/component/UserDashboard/StoreUsersVariex2.js:161-163 | a boolean column is premium exactly when it is `true`; a column that is neither a boolean nor a string is never premium |
| `FeatureAccess.PremiumStringExactly` | src/component/UserDashboard/StoreUsersVariex2.js:161-163 | a string `premium` makes the store premium exactly when it is "true" in any mix of upper and lower case |
| `FeatureAccess.Remap` | src/component/UserDashboard/StoreUsersVariex2.js:292 | each store feature is replaced by its mapping, position by position |
| `FeatureAccess.RemapCanonical` | src/component/UserDashboard/StoreUsersVariex2.js:291-292 | on a normalised list the re-mapping before the intersection changes nothing |
| `FeatureAccess.Intersect` | src/component/UserDashboard/StoreUsersVariex2.js:291-293 | the effective features are a subsequence of the store features; a feature occurs as often as in the store list when the user has it, and not at all otherwise |
| `FeatureAccess.IntersectMembers` | src/component/UserDashboard/StoreUsersVariex2.js:293 | a feature is effective exactly when both the store and the user have it |
| `FeatureAccess.ShopNameOr` | src/component/UserDashboard/StoreUsersVariex2.js:160 | a present, non-empty shop name is used; a missing or empty one gives the fallback |
| `FeatureAccess.FindTool` | src/component/UserDashboard/StoreUsersVariex2.js:320 | `tools.find` returns a tile with that key, or reports that no tile has it |
| `FeatureAccess.Dashboard.constructor` | src/component/UserDashboard/StoreUsersVariex2.js:114-119 | initial state: "Store Owner", no open tool, nothing allowed, loading, no error, not premium |
| `FeatureAccess.Dashboard.CanOpen` | src/component/UserDashboard/StoreUsersVariex2.js:398-404 | a tile opens only when its key is allowed, and a premium tile only for a premium store; an allowed freemium tile, or an allowed tile of a premium store, always opens |
| `FeatureAccess.Dashboard.ShowsLock` | src/component/UserDashboard/StoreUsersVariex2.js:397-418 | the lock overlay shows on a tile exactly when the tile cannot be opened, the same condition that styles it and titles it as locked |
| `FeatureAccess.Dashboard.CurrentView` | src/component/UserDashboard/StoreUsersVariex2.js:333-423 | a tool's own screen is shown only for the open tool, when not loading and when that tool may be opened; once loading is over, with no open tool the grid is shown |
| `FeatureAccess.ResolvePremium` | src/component/UserDashboard/StoreUsersVariex2.js:127-288 | premium holds exactly when the store is premium or one of the two look-ups finds a premium store; a premium store keeps its own name (or "Store Owner"); otherwise the first look-up's store name wins when it finds one, and else the second's |
| `FeatureAccess.Dashboard.EarlyExit` | src/component/UserDashboard/StoreUsersVariex2.js:131-303 | the error that ends the load early is never empty; a missing store id is reported first and a missing user id next; there is none exactly when both ids are present, both queries succeed and neither list throws |
| `FeatureAccess.Dashboard.ApplyFeatures` | src/component/UserDashboard/StoreUsersVariex2.js:243-300 | the allowed list is the remapped store list filtered by the user list; premium and shop name are as `ResolvePremium` decides; the upsell notice replaces the error exactly when premium is missing |
| `FeatureAccess.Dashboard.FetchAllowedFeatures` | src/component/UserDashboard/StoreUsersVariex2.js:121-307 | a missing store id or user id, a failed store or user query, or a throwing item gives an empty list and its error with name and premium flag untouched; otherwise the allowed list is the remapped store list filtered by the parsed user list, premium holds exactly when the store is premium or a look-up finds a premium store, a premium store skips both look-ups (its name is kept), and the error is the premium upsell, else the invalid-user-data, else the invalid-store-data message, else none |
| `FeatureAccess.Dashboard.RefreshPermissions` | src/component/UserDashboard/StoreUsersVariex2.js:121-317 | a load of the permissions with the outcome `FetchAllowedFeatures` states, followed by the reset effect it triggers: afterwards the open tool, if any, is allowed; an open tool that stays allowed stays open; one that is withdrawn is closed and the grid is shown |
| `FeatureAccess.Dashboard.ResetEffect` | src/component/UserDashboard/StoreUsersVariex2.js:313-317 | once loading is over, an open tool that is not allowed is closed and nothing else changes; afterwards the open tool, if any, is allowed |
| `FeatureAccess.Dashboard.OpenToolIsShown` | src/component/UserDashboard/StoreUsersVariex2.js:333-376 | once loading is over, an open tool that may be opened is the screen the dashboard shows |
| `FeatureAccess.Dashboard.HandleToolClick` | src/component/UserDashboard/StoreUsersVariex2.js:319-331 | the tool opens and the error clears exactly when the tile can be opened, and the tool's screen then shows; otherwise the open tool is unchanged and the error names the tool as not enabled or as premium-only |
| `FeatureAccess.Dashboard.CloseTool` | src/component/UserDashboard/StoreUsersVariex2.js:376 | the Back button closes the open tool |
| `FinancialReports.Accumulate` | src/component/DynamicSales/FinancialReports.js:39-42 | the fold never drops an account already in the accumulator, and every row's account gets an entry |
| `FinancialReports.AccumulateAt` | src/component/DynamicSales/FinancialReports.js:39-42 | folding rows into an accumulator adds each account's net sum to what the accumulator held for it |
| `FinancialReports.AccumulateKeys` | src/component/DynamicSales/FinancialReports.js:39-42 | folding rows into an accumulator adds exactly the accounts that occur in the rows |
| `FinancialReports.Balances` | src/component/DynamicSales/FinancialReports.js:39-42 | `balances` has one key per account that occurs, and `balances[a]`, read as 0 when missing, is the sum of debit minus credit (each missing amount as 0) over the rows of `a`, so an account with no rows reads 0 |
| `FinancialReports.SnapshotReport` | src/component/DynamicSales/FinancialReports.js:43-64 | the line items are the Cash, Inventory, Accounts Receivable and Accounts Payable balances; the assets total is the sum of the three asset lines; the liabilities total is the one liability line; business value and the equity total are Revenue − COGS − Bad Debt Expense |
| `FinancialReports.EarningsReport` | src/component/DynamicSales/FinancialReports.js:79-98 | revenue, COGS and bad debts are those accounts' balances; profit is revenue − COGS − bad debts; each total equals its line item |
| `FinancialReports.OnlyAccountsBalance` | src/component/DynamicSales/FinancialReports.js:70 | restricting the rows to a set of accounts leaves each kept account's balance unchanged |
| `FinancialReports.BusinessValueIsNetIncome` | src/component/DynamicSales/FinancialReports.js:45 | over the same rows, the snapshot's business value equals the earnings report's profit computed from the earnings query's rows |
| `FinancialReports.ReportFor` | src/component/DynamicSales/FinancialReports.js:26-98 | the report built is a snapshot exactly for the snapshot type and an earnings report exactly for the earnings type, and it carries the fetched rows |
| `FinancialReports.ReportsView.constructor` | src/component/DynamicSales/FinancialReports.js:9-12 | initial state: money snapshot, no date bounds, empty report, page 1 |
| `FinancialReports.ReportsView.Entries` | src/component/DynamicSales/FinancialReports.js:107 | an empty report has no entries |
| `FinancialReports.ReportsView.TotalPages` | src/component/DynamicSales/FinancialReports.js:108 | the pages hold every entry, and there are none exactly when there are no entries |
| `FinancialReports.ReportsView.CurrentEntries` | src/component/DynamicSales/FinancialReports.js:104-107 | at most 10 rows; an existing page shows its slice of the entries; a page past the last shows nothing |
| `FinancialReports.ReportsView.FetchReportData` | src/component/DynamicSales/FinancialReports.js:24-102 | on a query error the report is emptied and the page is left alone; otherwise the report of the selected type replaces it and the page returns to 1 |
| `FinancialReports.ReportsView.RunFetchEffect` | src/component/DynamicSales/FinancialReports.js:16-22 | without a store id nothing changes; otherwise the report is fetched as above |
| `FinancialReports.ReportsView.SetReportType` | src/component/DynamicSales/FinancialReports.js:132 | the type is stored; an unchanged type changes nothing else; a changed type refetches: without a store id the report and page stay, a failed query empties the report and keeps the page, rows give the new report and page 1 |
| `FinancialReports.ReportsView.SetDateStart` | src/component/DynamicSales/FinancialReports.js:145 | the start date is stored and the report is always refetched: without a store id the report and page stay, a failed query empties the report and keeps the page, rows give the new report and page 1 |
| `FinancialReports.ReportsView.SetDateEnd` | src/component/DynamicSales/FinancialReports.js:156 | the end date is stored and the report is always refetched: without a store id the report and page stay, a failed query empties the report and keeps the page, rows give the new report and page 1 |
| `FinancialReports.ReportsView.Paginate` | src/component/DynamicSales/FinancialReports.js:110-114 | the page changes only to an existing page, which is non-empty; otherwise, and always when there are no entries, the page is unchanged |
| `FinancialReports.ReportsView.ClearFilters` | src/component/DynamicSales/FinancialReports.js:116-120 | money snapshot, no date bounds, page 1; the refetch this triggers leaves the page at 1, keeps the report without a store id, empties it on a failed query and otherwise builds the money snapshot from the rows |
| `GeneralLedger.MatchesSearch` | src/component/DynamicSales/GeneralLedger.js:27-29 | an empty search term matches every row |
| `GeneralLedger.MatchesSearchOccurs` | src/component/DynamicSales/GeneralLedger.js:27-29 | a non-empty term matches exactly when, both lower-cased, it occurs somewhere in the description |
| `GeneralLedger.MatchesAccount` | src/component/DynamicSales/GeneralLedger.js:30-32 | no account filter, or the row's own account, matches; a kept row under an account filter has that account |
| `GeneralLedger.MatchesDate` | src/component/DynamicSales/GeneralLedger.js:33-35 | with no bounds every row matches; both bounds are inclusive; an end before the start matches nothing; a matching row lies within every bound that is set |
| `GeneralLedger.Matches` | src/component/DynamicSales/GeneralLedger.js:27-36 | a row that passes the filter has the chosen account, lies within the set date bounds, and contains the search term ignoring case |
| `GeneralLedger.FilterEntries` | src/component/DynamicSales/GeneralLedger.js:26-37 | the kept rows are a subsequence of the ledger; a row occurs as often as in the ledger when it passes the search, account and date tests, and not at all otherwise |
| `GeneralLedger.FilterMembers` | src/component/DynamicSales/GeneralLedger.js:26-37 | a row is kept exactly when it is in the ledger and passes all three tests |
| `GeneralLedger.NoFiltersMatchAll` | src/component/DynamicSales/GeneralLedger.js:27-35 | with no search term, no account and no date bounds every row passes |
| `GeneralLedger.NoFiltersKeepAll` | src/component/DynamicSales/GeneralLedger.js:26-37 | with every control cleared the filtered list is the whole ledger |
| `GeneralLedger.AddTotals` | src/component/DynamicSales/GeneralLedger.js:59-65 | folding rows into running totals adds their debit sum and credit sum |
| `GeneralLedger.LedgerTotals` | src/component/DynamicSales/GeneralLedger.js:59-65 | money in is the sum of the debits and money out the sum of the credits (each missing amount as 0) over the rows |
| `GeneralLedger.LedgerView.constructor` | src/component/DynamicSales/GeneralLedger.js:8-13 | initial state: no rows, empty controls, page 1 |
| `GeneralLedger.LedgerView.MoneyTotals` | src/component/DynamicSales/GeneralLedger.js:58-65 | the totals shown are the debit and credit sums of the filtered rows |
| `GeneralLedger.LedgerView.TotalPages` | src/component/DynamicSales/GeneralLedger.js:71 | the pages hold every filtered row, and there are none exactly when nothing is kept |
| `GeneralLedger.LedgerView.CurrentEntries` | src/component/DynamicSales/GeneralLedger.js:67-70 | at most 10 rows; an existing page shows its slice of the filtered rows; a page past the last shows nothing |
| `GeneralLedger.LedgerView.RunFilterEffect` | src/component/DynamicSales/GeneralLedger.js:25-40 | the filtered rows become the filter of the ledger under the current controls, a subsequence of it, and the page returns to 1 |
| `GeneralLedger.LedgerView.SetSearchTerm` | src/component/DynamicSales/GeneralLedger.js:90 | a changed term refilters and returns to page 1; the same term changes nothing else |
| `GeneralLedger.LedgerView.SetAccountFilter` | src/component/DynamicSales/GeneralLedger.js:95 | a changed account refilters and returns to page 1; the same account changes nothing else |
| `GeneralLedger.LedgerView.SetDateStart` | src/component/DynamicSales/GeneralLedger.js:110 | the start date is stored, the rows are refiltered and the page returns to 1 even when the date is unchanged |
| `GeneralLedger.LedgerView.SetDateEnd` | src/component/DynamicSales/GeneralLedger.js:117 | the end date is stored, the rows are refiltered and the page returns to 1 even when the date is unchanged |
| `GeneralLedger.LedgerView.FetchLedger` | src/component/DynamicSales/GeneralLedger.js:42-56 | a failed query leaves both lists as they were; returned rows replace both lists |
| `GeneralLedger.LedgerView.LoadLedger` | src/component/DynamicSales/GeneralLedger.js:17-56 | after the fetch and the filter effect it triggers, the ledger is the returned rows, the filtered list is their filter under the current controls and the page is 1; with every control cleared nothing is filtered out |
| `GeneralLedger.LedgerView.Paginate` | src/component/DynamicSales/GeneralLedger.js:73-77 | the page changes only to an existing page, which is non-empty; otherwise, and always when nothing is kept, the page is unchanged |

## Left out

- `Text.ToLower`: folds only the ASCII letters A–Z. JavaScript's `toLowerCase` folds all of Unicode. For the premium check against "true" this makes no difference; for searches in non-ASCII descriptions it may.
- `Text.Trim`: removes ASCII white space, the line terminators, NBSP and BOM. The other Unicode space separators are left in place, although JavaScript's `trim` removes them.
- Supabase queries and their server-side filters (`.eq`, `.in`, `.gte`/`.lte`, `.order`, `.single`) are not modelled. Their results are method parameters, and a query error is `None`.
- A successful query whose `data` is `null` is not modelled. `GeneralLedger.js` would store `[]`; `FinancialReports.js` would throw in `reduce`.
- `JSON.parse` is not modelled. Its outcome (unparsable, an array of items, another value) is carried beside the string it parses.
- The two premium look-ups over associated stores and over `user_access.store_ids` are not modelled (lines 243-288 of `StoreUsersVariex2.js`). This covers the `store_users` query, the `stores` query and the parsing of `user_access`. Each look-up is a parameter: the shop name of the first premium store found, or `None`.
- Local storage is not modelled. Only whether a store id and a user id are present is kept, as booleans. The "Refresh Permissions" button also deletes a cached entry; the model keeps only the load, `RefreshPermissions`.
- Asynchrony, React batching and effect scheduling are not modelled. Each handler or effect is one atomic method. An effect that a state change triggers is called by the setter that makes the change; for the permission load, `FeatureAccess.Dashboard.RefreshPermissions` runs `FetchAllowedFeatures` and then the reset effect that its new `allowedFeatures` and `isLoading` trigger.
- The `isLoading` flag of the two ledger views is not modelled; it only drives a spinner.
- Rendering, toasts, icons and `toFixed(2)` formatting are not modelled.
- JavaScript numbers are not modelled. Amounts are unbounded integers, so float rounding and huge values behave differently.
- `new Date(...)` parsing is not modelled. Dates are day numbers, so the time of day of a timestamp is ignored, and so are unparsable dates, which make JavaScript comparisons false.
- Object keys that JavaScript inherits are not modelled. A feature or account named like a property of `Object.prototype` (`constructor`, `toString`, `__proto__`) reads an inherited value in the source and reads as unmapped or zero here.
- `FeatureAccess.Dashboard.HandleToolClick`: requires a key that some tile has. The grid only ever passes its own keys, and with any other key the source's `tool.label` would throw.
- The tool components rendered for an open tool receive `setActiveTool` and are not part of this model. `FeatureAccess.Dashboard.Valid` assumes they only close their own tool; a component that opened a key with no tile would break that invariant.
- Ledger rows are assumed to have a description. In `GeneralLedger.js` a row whose description is `null` makes `toLowerCase` throw whenever a search term is set; the model's `description` is always a string.
- `src/component/UserDashboard/Financials.js` is not part of this model. It is a static tool grid with one shop-name lookup.
