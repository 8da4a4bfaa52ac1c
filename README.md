# Transactions dashboard: filter and pagination state machine

This project models the state logic of the single React component of a
transactions dashboard (`src/App.js`). The component holds seven state
cells: the transaction rows, the selected month (initially "March"), the
search text (initially empty), the current page (initially 1), the page
count (initially 1), the statistics object and the bar-chart buckets.
Four handlers change the filter cells: the month selector, the search box,
and the "Next Page" and "Previous Page" buttons. A fetch of the paged
transaction list commits the rows and `ceil(total / 10)` pages. If that
fetch succeeds, the statistics and bar-chart queries are issued and their
replies overwrite their own cells.

The model has four modules:

- `Wrappers` holds `Option`. A reply is `Some` when its setters ran and
  `None` when something in the fetch's `try` block threw before them: the
  fetch, `response.json()`, or, for the transactions reply, reading
  `transactions` of a `null` body.
- `Pagination` holds the pure page arithmetic: `PageCount`, `NextPage` and
  `PrevPage`, with their lemmas.
- `ViewState` holds the state cells as a value (`State`) and the events that
  change them (`Event`). `Apply` gives the effect of one event, `Run` the
  effect of a sequence of events in arrival order, and `FetchCycle` the
  chained fetch. The lemmas here cover single events, fetch cycles, edge
  cases and whole sequences of events.
- `Component` holds the class `App`. Its fields are the seven cells and its
  methods are the handlers and the fetch commits. Each handler and
  `CommitTransactions` states the cells it sets and keeps, and also
  `View() == Apply(old(View()), e)` for the event `e` it performs.
  `FetchStatistics` and `FetchBarChartData` spell out only their own cell
  and state the rest through `View() == Apply(old(View()), e)`.
  `FetchTransactions` states `View() == FetchCycle(...)` of the old view.

The model keeps the code's own behaviour, including these edge cases:

- Replies carry no sequence token, and a stale reply is applied like any
  other.
- `totalPages` is 0 for an empty result. From page 1, "Next Page" then goes
  to page 0.
- The page is never clamped again when a new reply shrinks the page count.
  "Next Page" is then enabled and moves the page back to the last page.
- The code does not check `response.ok`, so the HTTP status plays no part.
  A statistics or chart reply counts as arrived whenever its body parses as
  JSON, even as `null`. A transactions reply also needs a body that is not
  `null`. Reading `data.transactions` of a `null` body throws, and the
  `catch` then commits nothing and issues no refresh, exactly as for a
  failed fetch.

## Model

| member | source | states |
|---|---|---|
| `Pagination.PageCount` | src/App.js:26 | the page count is the least number of 10-row pages that holds all `total` rows: total <= pages*10 < total+10 |
| `Pagination.PageCountIsCeiling` | src/App.js:26 | PageCount(total) is the real ceiling of total/10, which is what `Math.ceil(data.total / 10)` computes |
| `Pagination.PageCountUnique` | src/App.js:26 | any count that holds all rows and wastes less than one page equals PageCount |
| `Pagination.PageCountExamples` | src/App.js:26 | 23 rows give 3 pages, 20 give 2, 0 give 0, 1 gives 1, 10 give 1, 11 give 2 |
| `Pagination.PageCountZeroIff` | src/App.js:26 | the page count is 0 exactly when the total is 0 |
| `Pagination.PageCountMonotonic` | src/App.js:26 | a larger total never gives fewer pages |
| `Pagination.PageWithinCountIff` | src/App.js:26 | page p >= 1 is within the page count exactly when its first row index (p-1)*10 is below the total |
| `Pagination.NextPage` | src/App.js:78 | the next page is at most page+1 and at most totalPages, and equals one of them (it is their minimum) |
| `Pagination.PrevPage` | src/App.js:82 | the previous page is at least 1 and at least page-1, and equals one of them (it is their maximum) |
| `Pagination.NextPageFixedIff` | src/App.js:78 | "Next Page" leaves the page unchanged exactly when page == totalPages |
| `Pagination.PrevPageFixedIff` | src/App.js:82 | "Previous Page" leaves the page unchanged exactly when page == 1 |
| `Pagination.NextPageAdvances` | src/App.js:78 | before the last page, "Next Page" adds exactly one |
| `Pagination.PrevPageGoesBack` | src/App.js:82 | after page 1, "Previous Page" subtracts exactly one |
| `Pagination.NavigationKeepsRange` | src/App.js:78-82 | if 1 <= page <= totalPages, both updaters keep the page in 1..totalPages |
| `Pagination.NextPageWithNoPages` | src/App.js:78 | with totalPages = 0, "Next Page" sets any page to 0 |
| `Pagination.NextPageBeyondLastMovesBack` | src/App.js:78 | from a page beyond the last, "Next Page" moves back to the last page |
| `ViewState.Initial` | src/App.js:7-13 | the mounted state: no rows, "March", empty search, page 1 of 1, empty statistics object, no buckets (specified by `ViewState.InitialState` and `Component.App.constructor`) |
| `ViewState.CommitTransactions` | src/App.js:25-26 | an arrived reply sets the rows (or [] when absent) and PageCount(total), keeping everything else; a failed one returns the state unchanged (specified by `ViewState.TransactionsCommitted` and `ViewState.CommitKeepsPageInRangeIff`) |
| `ViewState.CommitStatistics` | src/App.js:49 | an arrived reply replaces the statistics wholesale; a failed one returns the state unchanged (specified by `ViewState.RefreshesCommitted`) |
| `ViewState.CommitBarChart` | src/App.js:61 | an arrived reply replaces the buckets wholesale; a failed one returns the state unchanged (specified by `ViewState.RefreshesCommitted`) |
| `ViewState.Apply` | src/App.js:25-83 | the effect of one event: the four handlers and the three commits (specified by `ViewState.MonthSelectedResetsPage`, `ViewState.SearchTypedResetsPage`, `ViewState.NextClickedMovesPage`, `ViewState.PrevClickedMovesPage`, `ViewState.TransactionsCommitted`, `ViewState.RefreshesCommitted`) |
| `ViewState.Run` | src/App.js:19-83 | events applied one after another in arrival order, with no staleness check (specified by `ViewState.RunAppend` and the sequence lemmas below) |
| `ViewState.FetchCycle` | src/App.js:19-35 | the transactions commit, then the statistics and chart commits only when the transactions reply arrived (specified by `ViewState.FetchCycleIsRun`, `ViewState.FailedFetchChangesNothing`, the two failure-isolation lemmas and `ViewState.FetchCycleKeepsFilters`) |
| `ViewState.RunAppend` | src/App.js:19-83 | running two event sequences one after the other equals running their concatenation |
| `ViewState.PrevButtonDisabled` | src/App.js:119 | "Previous Page" is disabled exactly when clicking it would change no state cell |
| `ViewState.NextButtonDisabled` | src/App.js:126 | "Next Page" is disabled exactly when clicking it would change no state cell |
| `ViewState.InitialState` | src/App.js:7-13 | the mounted state is page 1 of 1, its month is one of the selector's names, and the search text is empty |
| `ViewState.MonthSelectedResetsPage` | src/App.js:67-70 | selecting a month sets it and page 1; the search text, page count and data are unchanged |
| `ViewState.SearchTypedResetsPage` | src/App.js:72-75 | typing a search sets it and page 1; the month, page count and data are unchanged |
| `ViewState.NextClickedMovesPage` | src/App.js:77-79 | "Next Page" moves to min(page+1, totalPages): one up before the last page, a no-op on it, back to the last page from beyond it; it changes only the page |
| `ViewState.PrevClickedMovesPage` | src/App.js:81-83 | "Previous Page" moves to max(page-1, 1): one down after page 1, a no-op on it, to page 1 from page 0; it changes only the page |
| `ViewState.NavigationPreservesRange` | src/App.js:77-83 | either page button keeps a page that is in 1..totalPages in range |
| `ViewState.TransactionsCommitted` | src/App.js:25-26 | an arrived reply sets the rows (or [] when the field is absent) and PageCount(total), keeping page and filters; a failed one changes nothing |
| `ViewState.CommitKeepsPageInRangeIff` | src/App.js:25-26 | after a commit, the kept page is in range exactly when it is at least 1 and its first row index is below the new total |
| `ViewState.RefreshesCommitted` | src/App.js:43-65 | a statistics or chart reply replaces only its own cell, wholesale; a failed one changes nothing |
| `ViewState.RefreshesCommute` | src/App.js:29-32 | the statistics and chart replies write different cells, so their arrival order does not matter |
| `ViewState.FailedFetchChangesNothing` | src/App.js:19-35 | a failed transactions fetch leaves every cell unchanged and issues no refresh |
| `ViewState.FetchCycleIsRun` | src/App.js:19-35 | a fetch cycle is the transactions commit, followed by the two refreshes only when the reply arrived |
| `ViewState.StatisticsFailureIsolated` | src/App.js:43-53 | in a successful cycle, a failed statistics fetch keeps the old statistics while the page count and chart are updated |
| `ViewState.BarChartFailureIsolated` | src/App.js:55-65 | in a successful cycle, a failed chart fetch keeps the old buckets while the page count and statistics are updated |
| `ViewState.FetchCycleKeepsFilters` | src/App.js:19-35 | no fetch cycle changes the month, the search text or the page |
| `ViewState.NarrowedResultLeavesPageBeyondLast` | src/App.js:26 | on page 3 of 3, a reply with 5 rows leaves page 3 of 1; "Next Page" is then enabled and moves to page 1 |
| `ViewState.EmptyResultAllowsPageZero` | src/App.js:26 | an empty reply gives 0 pages; from page 1, "Next Page" is enabled and moves to page 0, and "Previous Page" then returns to 1 |
| `ViewState.MonthChangesOnlyBySelection` | src/App.js:67-70 | over any sequence of events without a month selection, the month is unchanged |
| `ViewState.SearchChangesOnlyByTyping` | src/App.js:72-75 | over any sequence of events without typing, the search text is unchanged |
| `ViewState.DataChangesOnlyByArrivedReplies` | src/App.js:19-65 | over any sequence of user intents and failed fetches, the rows, page count, statistics and chart are unchanged |
| `ViewState.PageLeavesRangeOnlyByTransactionsReply` | src/App.js:25-26 | from a page in range, any sequence without an arrived transactions reply keeps the page in 1..totalPages |
| `ViewState.RepeatedNext` | src/App.js:77-79 | k clicks of "Next Page" land on min(page+k, totalPages), from a page <= totalPages, and from a page beyond the last when k >= 1 |
| `ViewState.RepeatedPrev` | src/App.js:81-83 | k clicks of "Previous Page" land on max(page-k, 1), from a page >= 1, and from page 0 when k >= 1 |
| `ViewState.MonthStaysAnOption` | src/App.js:91-110 | the month stays one of the twelve selector names as long as every selection carries one of them |
| `Component.App.constructor` | src/App.js:7-13 | the fields start as the initial state: no rows, March, empty search, page 1 of 1, empty statistics and chart |
| `Component.App.HandleMonthChange` | src/App.js:67-70 | sets the month and page 1 and keeps every other field |
| `Component.App.HandleSearch` | src/App.js:72-75 | sets the search text and page 1 and keeps every other field |
| `Component.App.HandleNextPage` | src/App.js:77-79 | sets the page to NextPage(page, totalPages), is a no-op on the last page, and keeps every other field |
| `Component.App.HandlePrevPage` | src/App.js:81-83 | sets the page to PrevPage(page) >= 1, is a no-op on page 1, and keeps every other field |
| `Component.App.CommitTransactions` | src/App.js:25-32 | an arrived reply sets the rows and PageCount(total) and requests the refreshes; the page is kept; a failed one changes nothing and requests nothing |
| `Component.App.FetchStatistics` | src/App.js:43-53 | an arrived reply replaces the statistics; a failed one keeps them |
| `Component.App.FetchBarChartData` | src/App.js:55-65 | an arrived reply replaces the buckets; a failed one keeps them |
| `Component.App.FetchTransactions` | src/App.js:19-35 | the fields change as FetchCycle says; after a failed transactions fetch nothing changes |

## Left out

- Rendering is left out as presentation: the JSX markup, the table and its "No transactions available" row, and the recharts bar chart (src/App.js:85-177). The exceptions are the button `disabled` conditions (lines 119 and 126) and the twelve month names of the selector (lines 92-105).
- `fetch`, `response.json()` and the URL strings are network I/O, so they are left out. Each reply is a parameter: `Some` of the parsed body, or `None` when the `try` block threw before its setters ran (a failed fetch, a body that is not JSON, or a `null` transactions body).
- The `useEffect`/`useCallback` re-fetch trigger is React reactivity, so it is left out. So is the interleaving of asynchronous replies. A sequence of events (`ViewState.Run`) models replies as applied one by one in arrival order, with no staleness check, as in the code. The model does not record which requests are outstanding. A sequence may therefore contain a reply that no request would produce, so its lemmas cover more sequences than can really happen.
- Each handler is modelled against the current state. The `totalPages` that a `handleNextPage` closure captured at render time may be older than the state if React batches several updates before re-rendering. This is not modelled.
- A missing or non-numeric `data.total` is left out. There `Math.ceil` yields NaN, which is JavaScript number coercion. The total is a natural number, and floating-point rounding for totals beyond 2^53 is not modelled.
- `data.transactions || []` falls back to [] for every falsy value. The model's only falsy case is an absent field.
- The contents of the statistics object and of the chart buckets are opaque service data. Statistics are a map from field name to number, and prices are reals with no arithmetic on them.
- `console.error` logging is left out.
