# Transaction viewer: data orchestration

This project models the data layer of a small transaction viewer. The viewer
lists a company's transactions and has a dropdown to filter them to one
employee. The model covers:

- The **transactions-by-employee slice**. This is one optional
  `PaginatedResponse` cell. `fetchById` asks for the next page of an employee
  and merges the answer into the cell. `invalidateData` clears the cell.
- The **view orchestrator** (`App`). It holds three slices: the employee
  directory, the paginated all-transactions slice and the by-employee slice.
  It also holds the selected employee and the directory loading flag. Its
  handlers are load all, select an employee or "All Employees", view more,
  and the initial-load effect. It renders from two pure projections: the
  merged view (`??` fallbacks) and the dropdown/"View More" rules.

The model has five modules:

- `Types`: employees, transactions, pages.
- `ByEmployee`: the hook. It has pure helpers `RequestedPage` and `Merge`,
  and a class `TransactionsByEmployee` whose one field is the cell.
- `PaginatedAll` and `EmployeeDirectory`: the two other slices. Their hook
  bodies are in `src/hooks/usePaginatedTransactions.ts` and
  `src/hooks/useEmployees.ts`, outside this model; they are modelled from
  their interfaces in `src/hooks/types.ts`.
- `App`: each handler is a pure transition over `AppState`. The class
  `Orchestrator` has one method per handler. Each method calls the slice
  objects in the source's order and ensures that its new `State()` equals
  that transition applied to the old one.
- `AppRuns`: sequences of user actions from the first render, the
  invariant they keep, and the design document's two worked scenarios.

Each network source is an oracle (`Backend`):

- the directory source is a list of employees;
- the all-transactions source maps a page token to a page;
- the by-employee source maps an employee id and a page token to a page or to
  null.

A ghost log in the orchestrator records every call made on a slice, in
order. The employee fetch records the value of `isLoading` at that moment.
The log is how the model states the ordering of `loadAllEmployees`.

Where the design document and the code differ, the model follows the code:

- The design document says a by-employee fetch after the last page does nothing.
  The code has no such guard. It asks for page 0 again and appends that page
  (`ByEmployee.NoEndOfDataGuard`, `ByEmployee.SecondFetchRepeatsSinglePage`).
  The page never offers that click, though: in every state it can reach,
  whatever the sources answer, a visible "View More" pages a slice that has
  a next page (`AppRuns.ReachableViewMoreStaysWithinData`).
- Choosing "All Employees" clears the all-transactions slice twice: once in
  `loadTransactionsByEmployee` and once in `loadAllEmployees`. The design
  document names one invalidation. The directory is fetched again, but its slice is
  never cleared.

## Model

| member | source | states |
|---|---|---|
| `ByEmployee.RequestedPage` | src/hooks/useTransactionsByEmployee.ts:20 | The page asked for is 0 when the slice is absent or its `nextPage` is null, and otherwise the stored `nextPage` passed back as it is. |
| `ByEmployee.Merge` | src/hooks/useTransactionsByEmployee.ts:24-30 | A null response leaves the slice absent. An absent slice becomes the response exactly. Otherwise the new rows are the old rows followed by the response's rows: same order, lengths add up. The token is the response's. |
| `ByEmployee.Responses` | src/hooks/useTransactionsByEmployee.ts:16-22 | `n` fetches in a row receive exactly `n` responses. The first answers the request for the token the slice held. |
| `ByEmployee.FetchTimesIsReplay` | src/hooks/useTransactionsByEmployee.ts:14-33 | Running `fetchById` `n` times leaves the same slice as merging the `n` responses it received, in order. |
| `ByEmployee.ReplayAppends` | src/hooks/useTransactionsByEmployee.ts:29 | Merging non-null pages onto a present slice keeps every earlier row and appends each page's rows in order. The last page's token is kept. |
| `ByEmployee.FetchesAfterInvalidateConcatenate` | src/hooks/useTransactionsByEmployee.ts:24-30 | After an invalidation, `n` fetches that all get a page leave exactly the concatenation of those pages' rows, in fetch order, with the last page's token. |
| `ByEmployee.RequestedPageAfterResponse` | src/hooks/useTransactionsByEmployee.ts:20 | The token asked for next is the last response's `nextPage` passed back as it is, or 0 when that token is null. An absent slice asks for 0. |
| `ByEmployee.FetchAfterInvalidate` | src/hooks/useTransactionsByEmployee.ts:35-37 | After `invalidateData`, a fetch asks for page 0. The slice becomes that response exactly, so no earlier row leaks. |
| `ByEmployee.NullResponseDropsRows` | src/hooks/useTransactionsByEmployee.ts:25-26 | A null response empties the slice even when it held rows. |
| `ByEmployee.MergeKeepsEveryRow` | src/hooks/useTransactionsByEmployee.ts:29 | As multisets, the merged rows are the old rows plus the response's rows: nothing is dropped or de-duplicated. |
| `ByEmployee.NoEndOfDataGuard` | src/hooks/useTransactionsByEmployee.ts:20 | With a null `nextPage`, the next fetch asks for page 0 and appends that page after the rows already held. |
| `ByEmployee.SecondFetchRepeatsSinglePage` | src/hooks/useTransactionsByEmployee.ts:20-29 | When page 0 is also the last page, two fetches after an invalidation show its rows twice. |
| `ByEmployee.TransactionsByEmployee.constructor` | src/hooks/useTransactionsByEmployee.ts:10-12 | The cell starts absent. |
| `ByEmployee.TransactionsByEmployee.FetchById` | src/hooks/useTransactionsByEmployee.ts:14-33 | The request carries exactly the given employee id and the token `RequestedPage` gives for the old cell. The new cell is the merge of the old cell with the answer to that request. |
| `ByEmployee.TransactionsByEmployee.InvalidateData` | src/hooks/useTransactionsByEmployee.ts:35-37 | The cell becomes absent. |
| `PaginatedAll.Fetched` | src/hooks/types.ts:13-15 | `fetch(replace)` always leaves the slice present. With a null token it changes nothing. An absent slice, or `replace` set, takes the fetched page outright. Otherwise the page's rows are appended after the old rows, and its token is taken. |
| `PaginatedAll.FetchOnAbsentIgnoresReplace` | src/App.tsx:40 | On an absent slice, `fetch()` gives page 0 whatever its `replace` default is. |
| `PaginatedAll.FetchAtEndIsIdle` | src/hooks/types.ts:14 | Once the token is null, any number of further fetches leave the slice unchanged. |
| `PaginatedAll.PaginatedTransactions.constructor` | src/hooks/types.ts:23 | The cell starts absent. |
| `PaginatedAll.PaginatedTransactions.Fetch` | src/hooks/types.ts:13-15 | Returns the token requested, or none when no request is made. The new cell is `Fetched` of the old one. |
| `PaginatedAll.PaginatedTransactions.InvalidateData` | src/hooks/types.ts:6 | The cell becomes absent. |
| `EmployeeDirectory.Employees.constructor` | src/hooks/types.ts:21 | The directory starts absent. |
| `EmployeeDirectory.Employees.FetchAll` | src/hooks/types.ts:9-11 | The directory becomes the list the source answers. |
| `EmployeeDirectory.Employees.InvalidateData` | src/hooks/types.ts:6 | The directory becomes absent. |
| `App.AfterLoadAll` | src/App.tsx:31-42 | The call log grows by: clear all-transactions, clear by-employee, fetch the directory while `isLoading` is true, fetch all-transactions. `isLoading` ends false. The directory is the source's list. The all-transactions slice is page 0. The by-employee slice is absent. The selection is unchanged. |
| `App.AfterSelect` | src/App.tsx:44-60 | For a non-empty id: the all-transactions slice is absent, and the by-employee slice is exactly that employee's page 0. The selection is the id. The calls are two invalidations and then one request carrying the id and page 0. For `""`: the load-all effects happen with no by-employee request, and the selection is `""`. |
| `App.AfterViewMore` | src/App.tsx:62-70 | Makes exactly one call. It is `fetch(false)` on all-transactions if and only if that slice is present. Otherwise it is `fetchById` of the selected employee at the slice's token. The selection, directory and loading flag are unchanged. |
| `App.AfterInitialLoad` | src/App.tsx:72-76 | When the directory is missing and not loading, the state is exactly that of load-all: directory loaded, page 0 of all-transactions, by-employee absent, selection unchanged, `isLoading` false, the four load-all calls logged. Otherwise the state is unchanged. |
| `App.AfterChange` | src/App.tsx:95-101 | A null choice changes nothing. Any other choice gives exactly the state of selecting its id: a non-empty id selects that employee, clears all-transactions and holds that employee's page 0; the empty id selects "All Employees", reloads the directory and page 0 of all-transactions, and leaves by-employee absent. |
| `App.MergedView` | src/App.tsx:18-26 | With no by-employee slice, the view is exactly the all-transactions slice. With no all-transactions slice, the view is exactly the by-employee slice. A present all-transactions slice supplies the rows, and its token when it has one. If its token is null, the by-employee token shows through. The rows are null only when both slices are absent. |
| `App.ViewMoreButton` | src/App.tsx:109-112 | The button is rendered exactly when the merged token is non-null and non-zero. It is disabled exactly when the all-transactions slice is loading. |
| `App.DropdownItems` | src/App.tsx:88 | No items while the directory is null. Otherwise the "All Employees" entry comes first, then every employee in order. |
| `App.ParseItem` | src/App.tsx:91-94 | An item's value is the employee's id; its label is the first name, a space, and the last name. |
| `App.DropdownEntries` | src/App.tsx:88-94 | The first item parses to value `""` and label "All Employees". Item `i + 1` has the id of employee `i` as its value and "first last" of employee `i` as its label. |
| `App.SelectShowsOnlyFetchedPage` | src/App.tsx:44-57 | After choosing a non-empty id, the merged view is exactly that employee's fetched page. |
| `App.SelectAllIssuesNoByEmployeeFetch` | src/App.tsx:48-52 | Choosing `""` makes no by-employee request and leaves `""` selected. |
| `App.LoadAllOrder` | src/App.tsx:31-42 | Both paginated slices are cleared before the directory request. That request sees `isLoading` true. The all-transactions request comes last and only then. |
| `App.Orchestrator.constructor` | src/App.tsx:12-16 | First render: every slice absent, no employee selected, not loading, no calls. |
| `App.Orchestrator.LoadAllEmployees` | src/App.tsx:31-42 | The new page state is `AfterLoadAll` of the old one. |
| `App.Orchestrator.LoadTransactionsByEmployee` | src/App.tsx:44-60 | The new page state is `AfterSelect` of the old one. |
| `App.Orchestrator.ViewMoreTransactions` | src/App.tsx:62-70 | The new page state is `AfterViewMore` of the old one. |
| `App.Orchestrator.InitialLoadEffect` | src/App.tsx:72-76 | The new page state is `AfterInitialLoad` of the old one. |
| `App.Orchestrator.OnChange` | src/App.tsx:95-101 | The new page state is `AfterChange` of the old one. |
| `AppRuns.MergeKeepsOwner` | src/hooks/useTransactionsByEmployee.ts:24-30 | Merging rows that all belong to one employee gives rows that all belong to that employee. |
| `AppRuns.StepKeepsShaped` | src/App.tsx:31-76 | Whatever the sources answer, every action the page offers keeps the shape: at most one paginated slice present; by-employee absent with "All Employees" selected; all-transactions absent and the directory loaded with an employee selected. |
| `AppRuns.RunKeepsShaped` | src/App.tsx:31-76 | That shape survives any sequence of offered actions. |
| `AppRuns.ReachableViewMoreStaysWithinData` | src/App.tsx:62-70 | In every state reachable from the first render, whatever the sources answer, at most one paginated slice is present, and a visible "View More" pages a slice with a non-null token; a by-employee click asks for that non-zero token, never page 0. |
| `AppRuns.StepKeepsConsistent` | src/App.tsx:31-76 | When the by-employee source answers only with rows of the employee asked for, every action the page offers keeps the shape and, with an employee selected, every row held is that employee's. |
| `AppRuns.RunKeepsConsistent` | src/App.tsx:31-76 | That invariant survives any sequence of offered actions. |
| `AppRuns.ReachableViewShowsOnlySelection` | src/App.tsx:18-26 | In every state reachable from the first render, at most one paginated slice is present. While an employee is selected, the page shows only that employee's rows. |
| `AppRuns.ViewMoreStaysWithinData` | src/App.tsx:62-70 | With at most one slice present, a visible "View More" pages a slice whose token is non-null. A by-employee click asks for that non-zero token, never page 0. |
| `AppRuns.SwitchingEmployeeHidesPreviousRows` | src/App.tsx:53-57 | Choosing one employee and then another never shows a row of the first. |
| `AppRuns.ViewMoreTimesFetchesByEmployee` | src/App.tsx:66-68 | While all-transactions is absent, `k` clicks fetch the selected employee's pages `k` times. |
| `AppRuns.PagingOneEmployee` | src/App.tsx:44-70 | Choosing an employee and clicking `k` times shows the rows of the `k + 1` pages received, in order, with the last page's token. |
| `AppRuns.ScenarioChooseEmployee` | src/App.tsx:44-57 | In the design document's worked example, mounting shows `[t1, t2]` with token 1. Choosing employee "1" makes two invalidations and a page-0 request, then shows only `[t3]` with no "View More". |
| `AppRuns.ScenarioViewMore` | src/App.tsx:62-65 | In the design document's worked example, "View More" at token 1 shows `[t1, t2, t4]`, and the button disappears. |

## Left out

- Rendering is not modelled: JSX, `InputSelect`, `Instructions`, `Transactions`. `ParseItem` and the button rule are kept as values.
- `useCustomFetch`, its request cache, and the cached versus uncached modes are not modelled. Their code is not part of this model. Every response is an oracle input (`Backend`). `useCustomFetch`'s own `loading` flag is not modelled.
- The hook bodies in `src/hooks/useEmployees.ts` and `src/hooks/usePaginatedTransactions.ts` are outside this model. `PaginatedAll.Fetched` follows the design document's description of the slice: page 0 when absent, no request once the token is null, replace or append.
- Both slices' sources always answer: the directory source with a list, the all-transactions source with a page. A null answer from either is not modelled, because how those hooks handle it is in `src/hooks/useEmployees.ts` and `src/hooks/usePaginatedTransactions.ts`, outside this model. The by-employee source may answer null, as the hook handles that.
- The `replace` default of `fetch()` is taken as true. `PaginatedAll.FetchOnAbsentIgnoresReplace` shows the choice cannot matter at its one call site.
- Each handler runs atomically, one after another. Not modelled: the stale closure read of the cell (hook line 20) against the functional update (line 24), the un-awaited `loadAllEmployees()` (App line 50), and handlers that overlap. So "View More" is never disabled between transitions. The directory's loading flag is an input to the mount action.
- Fetches that reject, retries, and React memoization (`useCallback`, `useMemo`, dependency lists) are not modelled.
- `EMPTY_EMPLOYEE` lives in a constants file that is not part of this model. It is taken as id `""`, first name "All", last name "Employees".
- Transaction and employee types live in a file that is not part of this model. Amounts are whole cents (`int`), not floating point.
- JavaScript truthiness of a token is modelled for integers only (non-null and non-zero). `NaN` is not modelled.
