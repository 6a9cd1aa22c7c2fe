/** The Dashboard component: what it derives from its two subscriptions
    (`dashboard` and the sensor logs), the connection-status cell that its two
    button handlers drive, and the choice of screen it renders. */
module Dashboard {
  import opened Values
  import opened Subscription
  import opened Projection
  import opened Mutation

  const DashboardPath: string := "dashboard"
  const LogsPath: string := "lionbit/device01/logs"
  const TestPath: string := "test"

  /** How many of the most recent logs the history table shows. */
  const HistorySize: nat := 10

  // ---------------------------------------------------------------------
  // Latest reading and history table

  /** `sensorLogs.length > 0 ? sensorLogs[sensorLogs.length - 1] : null`:
      the last record in snapshot order, not the one with the largest `time`. */
  function Latest(logs: seq<Record>): (r: Option<Record>)
    ensures r.None? <==> logs == []
    ensures r.Some? ==> r.value == logs[|logs| - 1]
  {
    if |logs| > 0 then Some(logs[|logs| - 1]) else None
  }

  /** `s.slice(-n)` for a positive `n`: the last `n` elements, or all of them
      when there are fewer. */
  function SliceLast<T>(s: seq<T>, n: nat): seq<T>
    requires n > 0
  {
    if |s| <= n then s else s[|s| - n..]
  }

  /** `s.reverse()`, on a copy. */
  function Reverse<T>(s: seq<T>): (r: seq<T>)
    ensures |r| == |s|
  {
    if s == [] then [] else [s[|s| - 1]] + Reverse(s[..|s| - 1])
  }

  lemma {:induction false} ReverseAt<T>(s: seq<T>, k: nat)
    requires k < |s|
    ensures Reverse(s)[k] == s[|s| - 1 - k]
  {
    if k > 0 {
      var init := s[..|s| - 1];
      ReverseAt(init, k - 1);
      assert Reverse(s)[k] == Reverse(init)[k - 1];
    }
  }

  /** `sensorLogs.slice(-10).reverse()`: the rows of the history table. */
  function HistoryWindow(logs: seq<Record>): seq<Record> {
    Reverse(SliceLast(logs, HistorySize))
  }

  /** The history table shows exactly the last min(n, 10) logs, most recent
      first: row i is log n - 1 - i. */
  lemma HistoryWindowIsRecentFirst(logs: seq<Record>)
    ensures |HistoryWindow(logs)| == if |logs| < HistorySize then |logs| else HistorySize
    ensures forall i :: 0 <= i < |HistoryWindow(logs)| ==>
      HistoryWindow(logs)[i] == logs[|logs| - 1 - i]
  {
    var window := SliceLast(logs, HistorySize);
    forall i | 0 <= i < |HistoryWindow(logs)|
      ensures HistoryWindow(logs)[i] == logs[|logs| - 1 - i]
    {
      ReverseAt(window, i);
    }
  }

  /** The background of a table row. */
  datatype Stripe = White | Gray

  /** `index % 2 === 0 ? 'bg-white' : 'bg-gray-50'` */
  function StripeOf(index: nat): Stripe {
    if index % 2 == 0 then White else Gray
  }

  /** One rendered row: the log it shows (its React key is the record's `id`)
      and its background. */
  datatype Row = Row(log: Record, stripe: Stripe)

  /** The `.map((log, index) => <tr ...>)` over the history window. */
  function HistoryRows(logs: seq<Record>): seq<Row> {
    var window := HistoryWindow(logs);
    seq(|window|, i requires 0 <= i < |window| => Row(window[i], StripeOf(i)))
  }

  /** The table starts with a white row holding the latest reading, and the
      stripes alternate: row i is white exactly when i is even. */
  lemma HistoryTable(logs: seq<Record>)
    ensures |HistoryRows(logs)| == if |logs| < HistorySize then |logs| else HistorySize
    ensures forall i :: 0 <= i < |HistoryRows(logs)| ==>
      HistoryRows(logs)[i].log == logs[|logs| - 1 - i] &&
      (HistoryRows(logs)[i].stripe == White <==> i % 2 == 0)
    ensures logs != [] ==>
      HistoryRows(logs)[0] == Row(Latest(logs).value, White)
  {
    HistoryWindowIsRecentFirst(logs);
  }

  // ---------------------------------------------------------------------
  // Connection status

  datatype ConnectionStatus = Checking | Connected | ConnectionError

  /** The colour of the status dot. */
  datatype Colour = Green | Red | Yellow

  /** `connected` is green, `error` red, anything else yellow. */
  function IndicatorColour(s: ConnectionStatus): Colour {
    if s == Connected then Green else if s == ConnectionError then Red else Yellow
  }

  /** The label next to the dot. */
  function IndicatorLabel(s: ConnectionStatus): string {
    if s == Connected then "Connected"
    else if s == ConnectionError then "Connection Error"
    else "Checking..."
  }

  /** The indicator tells the three statuses apart: neither its colour nor
      its label is shared by two statuses. */
  lemma IndicatorDistinguishes(s: ConnectionStatus, t: ConnectionStatus)
    ensures IndicatorColour(s) == IndicatorColour(t) <==> s == t
    ensures IndicatorLabel(s) == IndicatorLabel(t) <==> s == t
  {
  }

  /** What moves the status: a handler starting (before its write is
      awaited) or its write settling. */
  datatype StatusEvent =
    | UpdateStarted
    | TestStarted
    | WriteSettled(result: MutationResult)

  /** `handleUpdateData` leaves the status alone until its write settles;
      `handleTestConnection` first sets `checking`; a settled write sets
      `connected` on success and `error` otherwise. */
  function Next(s: ConnectionStatus, e: StatusEvent): ConnectionStatus {
    match e
    case UpdateStarted => s
    case TestStarted => Checking
    case WriteSettled(r) => if r.success then Connected else ConnectionError
  }

  /** The statuses shown along a sequence of events, one per event. */
  function Trace(s: ConnectionStatus, events: seq<StatusEvent>): (t: seq<ConnectionStatus>)
    ensures |t| == |events|
    decreases |events|
  {
    if events == [] then [] else
      var s' := Next(s, events[0]);
      [s'] + Trace(s', events[1..])
  }

  /** The status after a sequence of events. */
  function StatusAfter(s: ConnectionStatus, events: seq<StatusEvent>): ConnectionStatus
    decreases |events|
  {
    if events == [] then s else StatusAfter(Next(s, events[0]), events[1..])
  }

  /** The status after a run, read backwards: the outcome of the latest
      settled write, unless a connection test started after it. */
  function MostRecentStatus(s: ConnectionStatus, events: seq<StatusEvent>): ConnectionStatus {
    if events == [] then s
    else match events[|events| - 1]
      case UpdateStarted => MostRecentStatus(s, events[..|events| - 1])
      case TestStarted => Checking
      case WriteSettled(r) => if r.success then Connected else ConnectionError
  }

  lemma {:induction false} StatusAfterAppend(s: ConnectionStatus, events: seq<StatusEvent>, e: StatusEvent)
    ensures StatusAfter(s, events + [e]) == Next(StatusAfter(s, events), e)
    decreases |events|
  {
    if events == [] {
      assert [e][1..] == [];
    } else {
      assert (events + [e])[1..] == events[1..] + [e];
      StatusAfterAppend(Next(s, events[0]), events[1..], e);
    }
  }

  /** Writes may settle in any order; whatever the interleaving, the status
      shows the most recent decisive event. */
  lemma {:induction false} StatusIsMostRecent(s: ConnectionStatus, events: seq<StatusEvent>)
    ensures StatusAfter(s, events) == MostRecentStatus(s, events)
    decreases |events|
  {
    if events != [] {
      var init := events[..|events| - 1];
      var e := events[|events| - 1];
      assert init + [e] == events;
      StatusAfterAppend(s, init, e);
      StatusIsMostRecent(s, init);
    }
  }

  /** Dashboard updates never pass through `checking`: with no connection
      test, a status that is not `checking` never shows `checking` again. */
  lemma {:induction false} UpdatesNeverCheck(s: ConnectionStatus, events: seq<StatusEvent>)
    requires s != Checking
    requires forall i :: 0 <= i < |events| ==> !events[i].TestStarted?
    ensures Checking !in Trace(s, events)
    decreases |events|
  {
    if events != [] {
      UpdatesNeverCheck(Next(s, events[0]), events[1..]);
    }
  }

  /** The status a trace ends on is the status after the run. */
  lemma {:induction false} TraceEndsInStatusAfter(s: ConnectionStatus, events: seq<StatusEvent>)
    requires events != []
    ensures Trace(s, events)[|events| - 1] == StatusAfter(s, events)
    decreases |events|
  {
    if |events| > 1 {
      TraceEndsInStatusAfter(Next(s, events[0]), events[1..]);
    }
  }

  /** The two handlers, each run alone to completion with a write result r:
      the test shows `checking` and then the outcome; the update shows only
      the outcome. */
  lemma HandlerTraces(s: ConnectionStatus, r: MutationResult)
    ensures Trace(s, [TestStarted, WriteSettled(r)]) ==
      [Checking, if r.success then Connected else ConnectionError]
    ensures Trace(s, [UpdateStarted, WriteSettled(r)]) ==
      [s, if r.success then Connected else ConnectionError]
  {
  }

  // ---------------------------------------------------------------------
  // Rendering

  /** The latest-reading panel: the reading, or a placeholder that depends
      on whether the logs are still loading. */
  datatype ReadingPanel = ShowReading(reading: Record) | LoadingReadings | NoReadings

  /** The history panel: the rows, or a placeholder as above. */
  datatype HistoryPanel = ShowRows(rows: seq<Row>) | LoadingHistory | NoHistory

  /** The three screens the component can return. */
  datatype Screen =
    | Spinner
    | ErrorScreen(message: string)
    | MainView(colour: Colour, caption: string, reading: ReadingPanel, history: HistoryPanel)

  function ReadingPanelOf(logs: ListState): ReadingPanel {
    match Latest(logs.list)
    case Some(r) => ShowReading(r)
    case None => if logs.loading then LoadingReadings else NoReadings
  }

  function HistoryPanelOf(logs: ListState): HistoryPanel {
    if |logs.list| > 0 then ShowRows(HistoryRows(logs.list))
    else if logs.loading then LoadingHistory else NoHistory
  }

  /** Both panels show logs exactly when there are any; without logs, each
      shows its loading placeholder exactly while the logs subscription is
      loading, and its "no data" placeholder otherwise. */
  lemma PanelPlaceholders(logs: ListState)
    ensures ReadingPanelOf(logs).ShowReading? <==> logs.list != []
    ensures HistoryPanelOf(logs).ShowRows? <==> logs.list != []
    ensures logs.list == [] ==>
      (ReadingPanelOf(logs) == LoadingReadings <==> logs.loading) &&
      (ReadingPanelOf(logs) == NoReadings <==> !logs.loading) &&
      (HistoryPanelOf(logs) == LoadingHistory <==> logs.loading) &&
      (HistoryPanelOf(logs) == NoHistory <==> !logs.loading)
  {
  }

  /** The screen for the two hooks' cells and the connection status: the
      spinner while the `dashboard` subscription loads, whatever its error;
      otherwise its error screen if the error is a non-empty message (an
      empty message is falsy); otherwise the main view. */
  function Render(dashboard: Cells, logs: Cells, status: ConnectionStatus): (v: Screen)
    ensures v.Spinner? <==> dashboard.loading
    ensures v.ErrorScreen? <==>
      !dashboard.loading && dashboard.error.Some? && dashboard.error.value != ""
    ensures v.ErrorScreen? ==> v.message == dashboard.error.value
  {
    if dashboard.loading then Spinner
    else if dashboard.error.Some? && dashboard.error.value != "" then ErrorScreen(dashboard.error.value)
    else
      var sensorLogs := ListOf(logs);
      MainView(IndicatorColour(status), IndicatorLabel(status),
               ReadingPanelOf(sensorLogs), HistoryPanelOf(sensorLogs))
  }

  /** A failure of the logs subscription is never shown: the screen does not
      depend on the logs hook's `error` cell. */
  lemma LogsErrorNeverShown(dashboard: Cells, logs: Cells, status: ConnectionStatus, err: Option<string>)
    ensures Render(dashboard, logs, status) == Render(dashboard, logs.(error := err), status)
  {
  }

  /** In the main view with logs present, the reading panel shows the last
      projected log and the history table opens with that same log. */
  lemma MainViewAgrees(dashboard: Cells, logs: Cells, status: ConnectionStatus)
    requires Render(dashboard, logs, status).MainView?
    requires Project(logs.data) != []
    ensures Render(dashboard, logs, status).reading ==
      ShowReading(Project(logs.data)[|Project(logs.data)| - 1])
    ensures Render(dashboard, logs, status).history.ShowRows?
    ensures Render(dashboard, logs, status).history.rows[0].log ==
      Render(dashboard, logs, status).reading.reading
  {
    HistoryTable(Project(logs.data));
  }

  /** A log pushed to the end of the snapshot becomes the latest reading and
      the first row of the history table. */
  lemma PushedLogIsLatest(children: seq<(string, Value)>, key: string, child: Value)
    ensures Latest(Project(Obj(children + [(key, child)]))) == Some(ToRecord(key, child))
    ensures HistoryRows(Project(Obj(children + [(key, child)])))[0].log == ToRecord(key, child)
  {
    ProjectAppend(children, key, child);
    HistoryTable(Project(Obj(children + [(key, child)])));
  }

  // ---------------------------------------------------------------------
  // The component

  /** One mounted Dashboard: its two hook instances and its status cell. */
  class DashboardComponent {
    const dashboardFeed: RealtimeData
    const logsFeed: RealtimeData
    var connectionStatus: ConnectionStatus

    constructor ()
      ensures fresh(dashboardFeed) && fresh(logsFeed) && dashboardFeed != logsFeed
      ensures dashboardFeed.Current() == Initial && logsFeed.Current() == Initial
      ensures connectionStatus == Checking
    {
      dashboardFeed := new RealtimeData();
      logsFeed := new RealtimeData();
      connectionStatus := Checking;
    }

    /** The mount effects: each hook subscribes to its own path. */
    method Mount(hasDatabase: bool)
      requires dashboardFeed != logsFeed
      modifies dashboardFeed, logsFeed
      ensures dashboardFeed.listening == if hasDatabase then Some(DashboardPath) else None
      ensures logsFeed.listening == if hasDatabase then Some(LogsPath) else None
      ensures dashboardFeed.Current() == Step(old(dashboardFeed.Current()), EffectRun(hasDatabase, DashboardPath))
      ensures logsFeed.Current() == Step(old(logsFeed.Current()), EffectRun(hasDatabase, LogsPath))
      ensures connectionStatus == old(connectionStatus)
    {
      dashboardFeed.Subscribe(hasDatabase, DashboardPath);
      logsFeed.Subscribe(hasDatabase, LogsPath);
    }

    /** `handleUpdateData` up to its `await`: the status is left alone and the
        new dashboard object (its timestamp and metrics drawn by the caller)
        is written to `dashboard`. */
    method BeginUpdateData(payload: Value) returns (req: Request)
      ensures req == Write(DashboardPath, payload)
    {
      req := Write(DashboardPath, payload);
    }

    /** `handleTestConnection` up to its `await`: the status becomes
        `checking` and a test object is written to `test`. */
    method BeginTestConnection(payload: Value) returns (req: Request)
      modifies this
      ensures connectionStatus == Checking
      ensures connectionStatus == Next(old(connectionStatus), TestStarted)
      ensures req == Write(TestPath, payload)
    {
      connectionStatus := Checking;
      req := Write(TestPath, payload);
    }

    /** Either handler after its `await`: `connected` on success, `error`
        otherwise. */
    method FinishWrite(result: MutationResult)
      modifies this
      ensures connectionStatus == if result.success then Connected else ConnectionError
      ensures connectionStatus == Next(old(connectionStatus), WriteSettled(result))
    {
      if result.success {
        connectionStatus := Connected;
      } else {
        connectionStatus := ConnectionError;
      }
    }
  }
}
