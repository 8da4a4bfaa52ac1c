/**
 * The dashboard's state cells as one value, the events that change them,
 * and what each event does. A user intent (month selected, search typed,
 * next or previous page clicked) rewrites the filter cells; a response of
 * one of the three service queries rewrites the display cells. Responses
 * carry no sequence number: whatever arrives is applied, in arrival order.
 */
module ViewState {
  import opened Wrappers
  import opened Pagination

  /** One row of the transaction table, as the service sends it. */
  datatype Transaction = Transaction(id: string, title: string, description: string, price: real)

  /** One bar of the price-range chart. */
  datatype Bucket = Bucket(priceRange: string, numItems: int)

  /** The statistics object, field name to value; the dashboard starts with the empty object. */
  type Statistics = map<string, real>

  /**
   * A parsed transactions reply: its `transactions` field, which may be
   * absent, and its `total` count of matching transactions.
   */
  datatype TransactionsReply = TransactionsReply(transactions: Option<seq<Transaction>>, total: nat)

  /** The seven state cells of the component. */
  datatype State = State(
    transactions: seq<Transaction>,
    selectedMonth: string,
    searchText: string,
    currentPage: nat,
    totalPages: nat,
    stats: Statistics,
    barChartData: seq<Bucket>)
  {
    /** The page shown is one of the pages the last reply announced. */
    predicate PageInRange() {
      1 <= currentPage <= totalPages
    }
  }

  /** The month names the month selector offers. */
  const Months: seq<string> := [
    "January", "February", "March", "April", "May", "June",
    "July", "August", "September", "October", "November", "December"]

  /** The state the component mounts with. */
  function Initial(): State {
    State([], "March", "", 1, 1, map[], [])
  }

  /**
   * Something that changes the state: one of the four user intents, or the
   * arrival of one of the three service replies (`None` when the `try`
   * block threw before its setters: the fetch, the parsing of the body, or
   * reading `transactions` of a `null` body).
   */
  datatype Event =
    | MonthSelected(month: string)
    | SearchTyped(text: string)
    | NextClicked
    | PrevClicked
    | TransactionsArrived(transactionsReply: Option<TransactionsReply>)
    | StatisticsArrived(statsReply: Option<Statistics>)
    | BarChartArrived(chartReply: Option<seq<Bucket>>)

  /** Commit of a transactions reply: the list (or [] when absent) and the page count; the page is kept. */
  function CommitTransactions(s: State, reply: Option<TransactionsReply>): State {
    match reply
    case None => s
    case Some(r) => s.(transactions := r.transactions.GetOr([]), totalPages := PageCount(r.total))
  }

  /** Commit of a statistics reply: the object replaces the previous one wholesale. */
  function CommitStatistics(s: State, reply: Option<Statistics>): State {
    match reply
    case None => s
    case Some(data) => s.(stats := data)
  }

  /** Commit of a bar-chart reply: the buckets replace the previous ones wholesale. */
  function CommitBarChart(s: State, reply: Option<seq<Bucket>>): State {
    match reply
    case None => s
    case Some(data) => s.(barChartData := data)
  }

  /** The effect of one event. */
  function Apply(s: State, e: Event): State {
    match e
    case MonthSelected(m) => s.(selectedMonth := m, currentPage := 1)
    case SearchTyped(t) => s.(searchText := t, currentPage := 1)
    case NextClicked => s.(currentPage := NextPage(s.currentPage, s.totalPages))
    case PrevClicked => s.(currentPage := PrevPage(s.currentPage))
    case TransactionsArrived(r) => CommitTransactions(s, r)
    case StatisticsArrived(r) => CommitStatistics(s, r)
    case BarChartArrived(r) => CommitBarChart(s, r)
  }

  /** The effect of a sequence of events, applied in order. */
  function Run(s: State, es: seq<Event>): State
    decreases |es|
  {
    if es == [] then s else Run(Apply(s, es[0]), es[1..])
  }

  /**
   * One fetch cycle: the transactions reply is committed, and only when it
   * arrived are the statistics and bar-chart queries issued and their
   * replies committed.
   */
  function FetchCycle(s: State, reply: Option<TransactionsReply>,
                      statsReply: Option<Statistics>, chartReply: Option<seq<Bucket>>): State
  {
    match reply
    case None => s
    case Some(_) => CommitBarChart(CommitStatistics(CommitTransactions(s, reply), statsReply), chartReply)
  }

  // ---------------------------------------------------------------------
  // What the page buttons show

  /** "Previous Page" is disabled exactly when clicking it would change nothing. */
  function PrevButtonDisabled(s: State): (disabled: bool)
    ensures disabled <==> Apply(s, PrevClicked) == s
  {
    PrevPageFixedIff(s.currentPage);
    s.currentPage == 1
  }

  /** "Next Page" is disabled exactly when clicking it would change nothing. */
  function NextButtonDisabled(s: State): (disabled: bool)
    ensures disabled <==> Apply(s, NextClicked) == s
  {
    NextPageFixedIff(s.currentPage, s.totalPages);
    s.currentPage == s.totalPages
  }

  // ---------------------------------------------------------------------
  // Single events

  /** The component mounts on page 1 of 1, in March, with no search text. */
  lemma InitialState()
    ensures Initial().PageInRange()
    ensures Initial().selectedMonth in Months && Initial().searchText == ""
  {
  }

  /** Selecting a month sets it and returns to page 1; nothing else changes. */
  lemma MonthSelectedResetsPage(s: State, month: string)
    ensures Apply(s, MonthSelected(month)) == s.(selectedMonth := month, currentPage := 1)
    ensures Apply(s, MonthSelected(month)).searchText == s.searchText
    ensures Apply(s, MonthSelected(month)).totalPages == s.totalPages
  {
  }

  /** Typing a search sets it and returns to page 1; the month and the data are kept. */
  lemma SearchTypedResetsPage(s: State, text: string)
    ensures Apply(s, SearchTyped(text)) == s.(searchText := text, currentPage := 1)
    ensures Apply(s, SearchTyped(text)).selectedMonth == s.selectedMonth
  {
  }

  /** "Next Page" moves to min(page + 1, totalPages) and changes nothing but the page. */
  lemma NextClickedMovesPage(s: State)
    ensures Apply(s, NextClicked).currentPage <= s.currentPage + 1
    ensures Apply(s, NextClicked).currentPage <= s.totalPages
    ensures s.currentPage < s.totalPages ==> Apply(s, NextClicked).currentPage == s.currentPage + 1
    ensures s.currentPage == s.totalPages ==> Apply(s, NextClicked) == s
    ensures s.currentPage > s.totalPages ==> Apply(s, NextClicked).currentPage == s.totalPages
    ensures Apply(s, NextClicked).(currentPage := s.currentPage) == s
  {
  }

  /** "Previous Page" moves to max(page - 1, 1) and changes nothing but the page. */
  lemma PrevClickedMovesPage(s: State)
    ensures Apply(s, PrevClicked).currentPage >= 1
    ensures s.currentPage > 1 ==> Apply(s, PrevClicked).currentPage == s.currentPage - 1
    ensures s.currentPage == 1 ==> Apply(s, PrevClicked) == s
    ensures s.currentPage == 0 ==> Apply(s, PrevClicked).currentPage == 1
    ensures Apply(s, PrevClicked).(currentPage := s.currentPage) == s
  {
  }

  /** Page navigation keeps a page within 1..totalPages within it. */
  lemma NavigationPreservesRange(s: State, e: Event)
    requires e == NextClicked || e == PrevClicked
    requires s.PageInRange()
    ensures Apply(s, e).PageInRange()
  {
  }

  /**
   * A transactions reply that arrived sets the list (or [] when the field is
   * absent) and the page count, and keeps the page and filters; one that
   * failed changes nothing.
   */
  lemma TransactionsCommitted(s: State, reply: Option<TransactionsReply>)
    ensures reply.None? ==> Apply(s, TransactionsArrived(reply)) == s
    ensures reply.Some? ==>
      (Apply(s, TransactionsArrived(reply)) ==
       s.(transactions := if reply.value.transactions.Some? then reply.value.transactions.value else [],
          totalPages := PageCount(reply.value.total)))
  {
  }

  /**
   * After a committed transactions reply, the page still shown is in range
   * exactly when its first row is among the reply's total rows: a narrower
   * result can leave the page beyond the last one, and nothing moves it back.
   */
  lemma CommitKeepsPageInRangeIff(s: State, reply: TransactionsReply)
    ensures Apply(s, TransactionsArrived(Some(reply))).PageInRange()
            <==> 1 <= s.currentPage && (s.currentPage - 1) * PageSize < reply.total
  {
  }

  /** A statistics or bar-chart reply replaces only its own cell, wholesale; a failed one changes nothing. */
  lemma RefreshesCommitted(s: State, statsReply: Option<Statistics>, chartReply: Option<seq<Bucket>>)
    ensures Apply(s, StatisticsArrived(statsReply)) ==
      if statsReply.Some? then s.(stats := statsReply.value) else s
    ensures Apply(s, BarChartArrived(chartReply)) ==
      if chartReply.Some? then s.(barChartData := chartReply.value) else s
  {
  }

  /** The two refreshes write different cells, so their arrival order does not matter. */
  lemma RefreshesCommute(s: State, statsReply: Option<Statistics>, chartReply: Option<seq<Bucket>>)
    ensures Run(s, [StatisticsArrived(statsReply), BarChartArrived(chartReply)])
         == Run(s, [BarChartArrived(chartReply), StatisticsArrived(statsReply)])
  {
  }

  // ---------------------------------------------------------------------
  // Fetch cycles

  /** A failed transactions fetch changes nothing: the refreshes are not even issued. */
  lemma FailedFetchChangesNothing(s: State, statsReply: Option<Statistics>, chartReply: Option<seq<Bucket>>)
    ensures FetchCycle(s, None, statsReply, chartReply) == s
  {
  }

  /** A fetch cycle is the transactions commit followed, on success only, by the two refreshes. */
  lemma FetchCycleIsRun(s: State, reply: Option<TransactionsReply>,
                        statsReply: Option<Statistics>, chartReply: Option<seq<Bucket>>)
    ensures FetchCycle(s, reply, statsReply, chartReply) ==
      Run(s, [TransactionsArrived(reply)] +
             (if reply.Some? then [StatisticsArrived(statsReply), BarChartArrived(chartReply)] else []))
  {
    var committed := Apply(s, TransactionsArrived(reply));
    if reply.Some? {
      var refreshes := [StatisticsArrived(statsReply), BarChartArrived(chartReply)];
      RunAppend(s, [TransactionsArrived(reply)], refreshes);
      assert Run(s, [TransactionsArrived(reply)]) == committed;
      var refreshed := Apply(committed, refreshes[0]);
      assert refreshes[1..] == [BarChartArrived(chartReply)];
      assert Run(committed, refreshes) == Run(refreshed, [BarChartArrived(chartReply)]);
      assert Run(refreshed, [BarChartArrived(chartReply)]) == Run(Apply(refreshed, BarChartArrived(chartReply)), []);
    } else {
      assert Run(s, [TransactionsArrived(reply)]) == Run(committed, []);
    }
  }

  /**
   * A failed statistics fetch in an otherwise successful cycle keeps the old
   * statistics while the transactions, page count and chart are updated.
   */
  lemma StatisticsFailureIsolated(s: State, reply: TransactionsReply, chart: seq<Bucket>)
    ensures FetchCycle(s, Some(reply), None, Some(chart)).stats == s.stats
    ensures FetchCycle(s, Some(reply), None, Some(chart)).totalPages == PageCount(reply.total)
    ensures FetchCycle(s, Some(reply), None, Some(chart)).barChartData == chart
  {
  }

  /** A failed bar-chart fetch in an otherwise successful cycle keeps the old buckets only. */
  lemma BarChartFailureIsolated(s: State, reply: TransactionsReply, stats: Statistics)
    ensures FetchCycle(s, Some(reply), Some(stats), None).barChartData == s.barChartData
    ensures FetchCycle(s, Some(reply), Some(stats), None).totalPages == PageCount(reply.total)
    ensures FetchCycle(s, Some(reply), Some(stats), None).stats == stats
  {
  }

  /** No fetch cycle touches the month, the search text or the page. */
  lemma FetchCycleKeepsFilters(s: State, reply: Option<TransactionsReply>,
                               statsReply: Option<Statistics>, chartReply: Option<seq<Bucket>>)
    ensures FetchCycle(s, reply, statsReply, chartReply).selectedMonth == s.selectedMonth
    ensures FetchCycle(s, reply, statsReply, chartReply).searchText == s.searchText
    ensures FetchCycle(s, reply, statsReply, chartReply).currentPage == s.currentPage
  {
  }

  // ---------------------------------------------------------------------
  // Edge cases of the code as written

  /**
   * On page 3 of 3, a reply with 5 matching transactions leaves the page at
   * 3 of 1; "Next Page" is then enabled and moves back to page 1.
   */
  lemma NarrowedResultLeavesPageBeyondLast(s: State, txs: seq<Transaction>)
    requires s.currentPage == 3 && s.totalPages == 3
    ensures Apply(s, TransactionsArrived(Some(TransactionsReply(Some(txs), 5)))).currentPage == 3
    ensures Apply(s, TransactionsArrived(Some(TransactionsReply(Some(txs), 5)))).totalPages == 1
    ensures !NextButtonDisabled(Apply(s, TransactionsArrived(Some(TransactionsReply(Some(txs), 5)))))
    ensures Run(s, [TransactionsArrived(Some(TransactionsReply(Some(txs), 5))), NextClicked]).currentPage == 1
  {
    var narrowed := Apply(s, TransactionsArrived(Some(TransactionsReply(Some(txs), 5))));
    assert PageCount(5) == 1;
    assert Run(narrowed, [NextClicked]) == Run(Apply(narrowed, NextClicked), []);
  }

  /**
   * An empty result gives zero pages; from page 1 "Next Page" is enabled and
   * moves to page 0, and "Previous Page" from there returns to page 1.
   */
  lemma EmptyResultAllowsPageZero(s: State)
    requires s.currentPage == 1
    ensures Apply(s, TransactionsArrived(Some(TransactionsReply(None, 0)))).totalPages == 0
    ensures !NextButtonDisabled(Apply(s, TransactionsArrived(Some(TransactionsReply(None, 0)))))
    ensures Run(s, [TransactionsArrived(Some(TransactionsReply(None, 0))), NextClicked]).currentPage == 0
    ensures Run(s, [TransactionsArrived(Some(TransactionsReply(None, 0))), NextClicked, PrevClicked]).currentPage == 1
  {
  }

  // ---------------------------------------------------------------------
  // Sequences of events

  /** Running two sequences one after the other is running their concatenation. */
  lemma {:induction false} RunAppend(s: State, es: seq<Event>, fs: seq<Event>)
    ensures Run(s, es + fs) == Run(Run(s, es), fs)
    decreases |es|
  {
    if es == [] {
      assert es + fs == fs;
    } else {
      assert (es + fs)[1..] == es[1..] + fs;
      RunAppend(Apply(s, es[0]), es[1..], fs);
    }
  }

  /** Only a month selection changes the month. */
  lemma {:induction false} MonthChangesOnlyBySelection(s: State, es: seq<Event>)
    requires forall i :: 0 <= i < |es| ==> !es[i].MonthSelected?
    ensures Run(s, es).selectedMonth == s.selectedMonth
    decreases |es|
  {
    if es != [] {
      MonthChangesOnlyBySelection(Apply(s, es[0]), es[1..]);
    }
  }

  /** Only typing a search changes the search text. */
  lemma {:induction false} SearchChangesOnlyByTyping(s: State, es: seq<Event>)
    requires forall i :: 0 <= i < |es| ==> !es[i].SearchTyped?
    ensures Run(s, es).searchText == s.searchText
    decreases |es|
  {
    if es != [] {
      SearchChangesOnlyByTyping(Apply(s, es[0]), es[1..]);
    }
  }

  /** The event is a service reply that arrived (as opposed to one that failed, or a user intent). */
  predicate IsArrivedReply(e: Event) {
    || (e.TransactionsArrived? && e.transactionsReply.Some?)
    || (e.StatisticsArrived? && e.statsReply.Some?)
    || (e.BarChartArrived? && e.chartReply.Some?)
  }

  /**
   * Without a reply that arrived, the displayed data stays as it was: user
   * intents and failed fetches never touch the transactions, page count,
   * statistics or chart.
   */
  lemma {:induction false} DataChangesOnlyByArrivedReplies(s: State, es: seq<Event>)
    requires forall i :: 0 <= i < |es| ==> !IsArrivedReply(es[i])
    ensures Run(s, es).transactions == s.transactions
    ensures Run(s, es).totalPages == s.totalPages
    ensures Run(s, es).stats == s.stats
    ensures Run(s, es).barChartData == s.barChartData
    decreases |es|
  {
    if es != [] {
      DataChangesOnlyByArrivedReplies(Apply(s, es[0]), es[1..]);
    }
  }

  /**
   * Only a committed transactions reply can take the page out of
   * 1..totalPages: filter changes, navigation, refreshes and failed fetches
   * all keep it in range.
   */
  lemma {:induction false} PageLeavesRangeOnlyByTransactionsReply(s: State, es: seq<Event>)
    requires s.PageInRange()
    requires forall i :: 0 <= i < |es| ==> !(es[i].TransactionsArrived? && es[i].transactionsReply.Some?)
    ensures Run(s, es).PageInRange()
    decreases |es|
  {
    if es != [] {
      if es[0] == NextClicked || es[0] == PrevClicked {
        NavigationPreservesRange(s, es[0]);
      }
      PageLeavesRangeOnlyByTransactionsReply(Apply(s, es[0]), es[1..]);
    }
  }

  /**
   * Clicking "Next Page" k times lands on min(page + k, totalPages), from a
   * page up to the last one, and after at least one click also from a page
   * beyond the last.
   */
  lemma {:induction false} RepeatedNext(s: State, k: nat)
    requires s.currentPage <= s.totalPages || k > 0
    ensures Run(s, seq(k, _ => NextClicked)).currentPage ==
      if s.currentPage + k < s.totalPages then s.currentPage + k else s.totalPages
    decreases k
  {
    if k > 0 {
      var es := seq(k, _ => NextClicked);
      assert es[1..] == seq(k - 1, _ => NextClicked);
      RepeatedNext(Apply(s, NextClicked), k - 1);
    }
  }

  /**
   * Clicking "Previous Page" k times lands on max(page - k, 1), from page 1
   * or later, and after at least one click also from page 0.
   */
  lemma {:induction false} RepeatedPrev(s: State, k: nat)
    requires s.currentPage >= 1 || k > 0
    ensures Run(s, seq(k, _ => PrevClicked)).currentPage ==
      if s.currentPage - k > 1 then s.currentPage - k else 1
    decreases k
  {
    if k > 0 {
      var es := seq(k, _ => PrevClicked);
      assert es[1..] == seq(k - 1, _ => PrevClicked);
      RepeatedPrev(Apply(s, PrevClicked), k - 1);
    }
  }

  /**
   * The month stays one of the selector's names as long as every selection
   * carries one of them.
   */
  lemma {:induction false} MonthStaysAnOption(s: State, es: seq<Event>)
    requires s.selectedMonth in Months
    requires forall i :: 0 <= i < |es| && es[i].MonthSelected? ==> es[i].month in Months
    ensures Run(s, es).selectedMonth in Months
    decreases |es|
  {
    if es != [] {
      MonthStaysAnOption(Apply(s, es[0]), es[1..]);
    }
  }
}
