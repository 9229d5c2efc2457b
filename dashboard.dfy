/** frontend/src/screens/DashboardScreen.js: the administrator's summary
    page.  It shows the reply of `GET /api/orders/summary` as three cards
    and an area chart of daily sales. */
module Dashboard {
  import opened Common
  import opened ProductModel
  import opened Orders
  import opened OrderSummary

  /** The reducer's state; `summary` starts `undefined`, written `None`. */
  datatype State = State(loading: bool, error: string, summary: Option<Summary>)

  const Initial: State := State(true, "", None)

  datatype Action = FetchRequest | FetchSuccess(summary: Summary) | FetchFail(error: string) | Other(kind: string)

  /** The reducer: only `FETCH_SUCCESS` writes the summary and only
      `FETCH_FAIL` the error, which nothing clears. */
  function Reduce(s: State, a: Action): (r: State)
    ensures r.summary == (if a.FetchSuccess? then Some(a.summary) else s.summary)
    ensures r.error == (if a.FetchFail? then a.error else s.error)
    ensures r.loading == (if a.Other? then s.loading else a.FetchRequest?)
  {
    match a
    case FetchRequest => s.(loading := true)
    case FetchSuccess(x) => s.(summary := Some(x), loading := false)
    case FetchFail(e) => s.(loading := false, error := e)
    case Other(_) => s
  }

  /** The effect dispatches no `FETCH_REQUEST`: the outcome of the request
      goes straight to the reducer. */
  function Fetched(s: State, reply: Option<Summary>, error: string): (r: State)
    ensures !r.loading
    ensures reply.Some? ==> r.summary == reply && r.error == s.error
    ensures reply.None? ==> r.error == error && r.summary == s.summary
  {
    match reply
    case Some(x) => Reduce(s, FetchSuccess(x))
    case None => Reduce(s, FetchFail(error))
  }

  /** The page body.  `Crash` is a render that throws: with loading over,
      no error text and no summary, the cards read `summary.users` of
      `undefined`. */
  datatype View = Loading | ErrorBox(message: string) | Board(summary: Summary) | Crash

  /** `loading ? <LoadingBox/> : error ? <MessageBox/> : <cards/>`. */
  function ViewOf(s: State): (v: View)
    ensures v == Loading <==> s.loading
    ensures v.ErrorBox? <==> !s.loading && s.error != ""
    ensures v.ErrorBox? ==> v.message == s.error
    ensures v.Board? ==> !s.loading && s.error == "" && s.summary == Some(v.summary)
    ensures v == Crash <==> !s.loading && s.error == "" && s.summary.None?
  {
    if s.loading then Loading
    else if s.error != "" then ErrorBox(s.error)
    else match s.summary
      case Some(x) => Board(x)
      case None => Crash
  }

  /** The first fetch that succeeds shows the board; after a failure a
      later success (a new sign-in) still shows the old error; a first
      failure whose error text is empty leaves nothing to render. */
  lemma FetchShowsBoard(x: Summary, e: string)
    requires e != ""
    ensures ViewOf(Fetched(Initial, Some(x), "")) == Board(x)
    ensures ViewOf(Fetched(Fetched(Initial, None, e), Some(x), "")) == ErrorBox(e)
    ensures ViewOf(Fetched(Initial, None, "")) == Crash
  {
  }

  /** The Users card: `summary.users[0].numUsers`, else 0. */
  function UsersCard(s: Summary): (n: nat)
    ensures s.users != [] ==> n == s.users[0].numUsers
    ensures s.users == [] ==> n == 0
  {
    if |s.users| > 0 then s.users[0].numUsers else 0
  }

  /** The Total Orders card: `summary.orders[0].numOrders`, else 0. */
  function OrdersCard(s: Summary): (n: nat)
    ensures s.orders != [] ==> n == s.orders[0].numOrders
    ensures s.orders == [] ==> n == 0
  {
    if |s.orders| > 0 then s.orders[0].numOrders else 0
  }

  /** The cards of a summary reply show the number of users and of
      orders. */
  lemma CardsShowCounts(os: seq<Order>, numUsers: nat, ps: seq<Product>)
    ensures UsersCard(SummaryOf(os, numUsers, ps)) == numUsers
    ensures OrdersCard(SummaryOf(os, numUsers, ps)) == |os|
  {
  }

  /** What a card shows: a value, or nothing because rendering threw. */
  datatype Shown = Value(v: int) | RenderError

  /** The Total Expenses card as written: it tests `summary.orders` (an
      array, always truthy) and `summary.users[0]`, then reads
      `summary.orders[0]`. */
  function ExpensesAsWritten(s: Summary): (r: Shown)
    ensures |s.users| == 0 ==> r == Value(0)
    ensures |s.users| > 0 && |s.orders| == 0 ==> r == RenderError
    ensures |s.users| > 0 && |s.orders| > 0 ==> r == Value(s.orders[0].totalSales)
  {
    if |s.users| > 0 then
      if |s.orders| > 0 then Value(s.orders[0].totalSales) else RenderError
    else Value(0)
  }

  /** The card as evidently intended: guarded by `summary.orders[0]`. */
  function Expenses(s: Summary): (r: Shown)
    ensures r.Value?
    ensures |s.orders| > 0 ==> r.v == s.orders[0].totalSales
    ensures |s.orders| == 0 ==> r.v == 0
  {
    Value(if |s.orders| > 0 then s.orders[0].totalSales else 0)
  }

  /** As written, a shop with users and no orders cannot render the
      dashboard, and a shop whose users were all removed shows 0 expenses
      whatever it sold. */
  lemma ExpensesAsWrittenFails(ps: seq<Product>, o: Order)
    requires o.totalPrice != 0
    ensures ExpensesAsWritten(SummaryOf([], 1, ps)) == RenderError
    ensures ExpensesAsWritten(SummaryOf([o], 0, ps)) == Value(0)
    ensures Expenses(SummaryOf([o], 0, ps)) == Value(o.totalPrice)
  {
    assert TotalSales([o]) == o.totalPrice;
  }

  /** The Expenses chart: a header row, then one point per day. */
  datatype ChartRow = Header | Point(day: int, sales: int)

  /** `summary.dailyOrders.length === 0` shows "No Expenses" instead. */
  predicate NoExpenses(s: Summary)
  {
    s.dailyOrders == []
  }

  function Points(bs: seq<DayBucket>): (r: seq<ChartRow>)
    ensures |r| == |bs|
    ensures forall i :: 0 <= i < |bs| ==> r[i] == Point(bs[i].day, bs[i].sales)
  {
    if bs == [] then [] else [Point(bs[0].day, bs[0].sales)] + Points(bs[1..])
  }

  /** `[['Date', 'Expense'], ...summary.dailyOrders.map(...)]`. */
  function ChartData(s: Summary): (r: seq<ChartRow>)
    ensures |r| == |s.dailyOrders| + 1 && r[0] == Header
  {
    [Header] + Points(s.dailyOrders)
  }

  /** The sum of the chart's points. */
  function ChartTotal(rows: seq<ChartRow>): int
  {
    if rows == [] then 0
    else (if rows[0].Point? then rows[0].sales else 0) + ChartTotal(rows[1..])
  }

  lemma {:induction false} PointsTotal(bs: seq<DayBucket>)
    ensures ChartTotal(Points(bs)) == BucketSales(bs)
  {
    if bs != [] {
      PointsTotal(bs[1..]);
      assert Points(bs)[1..] == Points(bs[1..]);
    }
  }

  /** The chart is empty exactly when there are no orders; its days
      strictly increase; and its points add up to what the corrected
      Total Expenses card shows. */
  lemma ChartAgreesWithCard(os: seq<Order>, numUsers: nat, ps: seq<Product>)
    ensures var s := SummaryOf(os, numUsers, ps);
      (NoExpenses(s) <==> os == [])
      && (forall i, j :: 1 <= i < j < |ChartData(s)| ==> ChartData(s)[i].day < ChartData(s)[j].day)
      && Expenses(s) == Value(ChartTotal(ChartData(s)))
  {
    var s := SummaryOf(os, numUsers, ps);
    DailyOrdersTotals(os);
    PointsTotal(s.dailyOrders);
    assert ChartData(s)[1..] == Points(s.dailyOrders);
    if os != [] {
      assert BucketOrders(s.dailyOrders) > 0;
    }
    forall i, j | 1 <= i < j < |ChartData(s)|
      ensures ChartData(s)[i].day < ChartData(s)[j].day
    {
      assert ChartData(s)[i] == Points(s.dailyOrders)[i - 1];
      assert ChartData(s)[j] == Points(s.dailyOrders)[j - 1];
    }
  }
}
