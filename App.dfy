/**
 * The dashboard component: its seven state cells as fields, the four
 * handlers that the month selector, the search box and the two page buttons
 * call, and the state updates of the three fetches. A network reply is a
 * parameter (`None` when its `try` block threw before the setters ran).
 *
 * Every method says what the fields become through View(), in terms of the
 * event it performs on the state value of module ViewState, and also spells
 * out the cells it sets and keeps.
 */
module Component {
  import opened Wrappers
  import opened Pagination
  import opened ViewState

  class App {
    var transactions: seq<Transaction>
    var selectedMonth: string
    var searchText: string
    var currentPage: nat
    var totalPages: nat
    var stats: Statistics
    var barChartData: seq<Bucket>

    /** The state cells as one value. */
    function View(): State
      reads this
    {
      State(transactions, selectedMonth, searchText, currentPage, totalPages, stats, barChartData)
    }

    /** Mounting: no transactions, March, no search, page 1 of 1, empty statistics and chart. */
    constructor ()
      ensures View() == Initial()
      ensures View().PageInRange()
    {
      transactions := [];
      selectedMonth := "March";
      searchText := "";
      currentPage := 1;
      totalPages := 1;
      stats := map[];
      barChartData := [];
    }

    /** A month was picked: it becomes the selected month and the page returns to 1. */
    method HandleMonthChange(month: string)
      modifies this
      ensures selectedMonth == month && currentPage == 1
      ensures searchText == old(searchText) && totalPages == old(totalPages)
      ensures transactions == old(transactions) && stats == old(stats) && barChartData == old(barChartData)
      ensures View() == Apply(old(View()), MonthSelected(month))
    {
      selectedMonth := month;
      currentPage := 1;
    }

    /** The search box changed: its text becomes the search text and the page returns to 1. */
    method HandleSearch(text: string)
      modifies this
      ensures searchText == text && currentPage == 1
      ensures selectedMonth == old(selectedMonth) && totalPages == old(totalPages)
      ensures transactions == old(transactions) && stats == old(stats) && barChartData == old(barChartData)
      ensures View() == Apply(old(View()), SearchTyped(text))
    {
      searchText := text;
      currentPage := 1;
    }

    /** "Next Page": the page becomes min(page + 1, totalPages); nothing else changes. */
    method HandleNextPage()
      modifies this
      ensures currentPage == NextPage(old(currentPage), totalPages)
      ensures old(currentPage) == totalPages ==> currentPage == old(currentPage)
      ensures View() == old(View()).(currentPage := currentPage)
      ensures View() == Apply(old(View()), NextClicked)
    {
      currentPage := NextPage(currentPage, totalPages);
    }

    /** "Previous Page": the page becomes max(page - 1, 1); nothing else changes. */
    method HandlePrevPage()
      modifies this
      ensures currentPage == PrevPage(old(currentPage)) && currentPage >= 1
      ensures old(currentPage) == 1 ==> currentPage == 1
      ensures View() == old(View()).(currentPage := currentPage)
      ensures View() == Apply(old(View()), PrevClicked)
    {
      currentPage := PrevPage(currentPage);
    }

    /**
     * The statistics reply: on arrival it replaces the statistics wholesale;
     * on failure nothing changes.
     */
    method FetchStatistics(reply: Option<Statistics>)
      modifies this
      ensures reply.Some? ==> stats == reply.value
      ensures reply.None? ==> stats == old(stats)
      ensures View() == Apply(old(View()), StatisticsArrived(reply))
    {
      match reply {
        case None =>
        case Some(data) => stats := data;
      }
    }

    /**
     * The bar-chart reply: on arrival it replaces the buckets wholesale;
     * on failure nothing changes.
     */
    method FetchBarChartData(reply: Option<seq<Bucket>>)
      modifies this
      ensures reply.Some? ==> barChartData == reply.value
      ensures reply.None? ==> barChartData == old(barChartData)
      ensures View() == Apply(old(View()), BarChartArrived(reply))
    {
      match reply {
        case None =>
        case Some(data) => barChartData := data;
      }
    }

    /**
     * The commit of a transactions reply: on arrival, the list (or [] when
     * the field is absent) and ceil(total / 10) pages; the page itself is
     * kept. `refresh` says whether the statistics and chart queries are
     * issued next, which happens only on arrival.
     */
    method CommitTransactions(reply: Option<TransactionsReply>) returns (refresh: bool)
      modifies this
      ensures refresh <==> reply.Some?
      ensures reply.Some? ==> totalPages == PageCount(reply.value.total)
      ensures reply.Some? ==> transactions == reply.value.transactions.GetOr([])
      ensures currentPage == old(currentPage)
      ensures View() == Apply(old(View()), TransactionsArrived(reply))
    {
      match reply {
        case None =>
          refresh := false;
        case Some(r) =>
          transactions := match r.transactions { case Some(list) => list case None => [] };
          totalPages := PageCount(r.total);
          refresh := true;
      }
    }

    /**
     * One fetch cycle: the transactions reply is committed and, only if it
     * arrived, the statistics and chart replies are committed after it.
     */
    method FetchTransactions(reply: Option<TransactionsReply>,
                             statsReply: Option<Statistics>, chartReply: Option<seq<Bucket>>)
      modifies this
      ensures reply.None? ==> View() == old(View())
      ensures View() == FetchCycle(old(View()), reply, statsReply, chartReply)
    {
      var refresh := CommitTransactions(reply);
      if refresh {
        FetchStatistics(statsReply);
        FetchBarChartData(chartReply);
      }
    }
  }
}
