/**
 * Row streaming of lib/reader.js as a state machine: native batches become row and column
 * events, and the rows handed to a callback.
 *
 * The native side is a script of result sets, each with at least one column and already cut
 * into batches.  A listener may pause the query at any meta, row or column event, and the
 * caller may pause and resume it between the steps below, each of which runs to completion.
 * Native calls are only counted: nothing stops the reader from having more than one under way.
 */
module StreamModel {
  import Batches
  import opened Wrappers

  type Value = int
  type Row = seq<Value>

  datatype ResultSet = ResultSet(columns: nat, batches: seq<seq<Row>>)

  /** What one native fetch gives. */
  datatype Batch = Batch(data: seq<Row>, endOfRows: bool, endOfResults: bool)

  datatype Event = Meta(columns: nat) | RowEvent(index: nat) | Column(column: nat, value: Value)

  /**
   * `lastFlagged`: the last batch of all says that no result follows.  `startPaused`: the query
   * was paused before it began.  `pauses` says which events, counted from the first of the
   * query, have a listener that pauses.
   */
  datatype Setup = Setup(
    results: seq<ResultSet>, lastFlagged: bool, callback: bool, startPaused: bool, pauses: nat -> bool)

  predicate ValidResult(r: ResultSet) {
    && r.columns > 0 && r.batches != []
    && forall b | b in r.batches :: forall row | row in b :: |row| == r.columns
  }

  predicate ValidSetup(o: Setup) {
    o.results != [] && forall r | r in o.results :: ValidResult(r)
  }

  datatype Query = Query(
    rows: seq<Row>,
    queryRowIndex: nat,
    batchRowIndex: nat,
    batchData: Option<Batch>,
    running: bool,
    paused: bool,
    fetching: nat,              // native fetches under way
    moving: nat,                // moves to the next result under way
    result: nat,                // the result set the native statement is at
    fetched: nat,               // batches of it fetched
    emitted: seq<Event>,
    completed: seq<seq<Row>>,   // rows passed on as each result completes
    shown: seq<Row>)            // bookkeeping: rows of this result that have been emitted

  // ---------------------------------------------------------------- rows to events

  function Emit(o: Setup, s: Query, e: Event): Query {
    s.(emitted := s.emitted + [e], paused := s.paused || o.pauses(|s.emitted|))
  }

  /** currentRow[column] = value, where the row is the last one pushed. */
  function Store(o: Setup, s: Query, v: Value): Query {
    if o.callback && s.rows != []
    then s.(rows := s.rows[|s.rows| - 1 := s.rows[|s.rows| - 1] + [v]])
    else s
  }

  function DispatchRow(o: Setup, s: Query, row: Row, c: nat): Query
    requires c <= |row|
    decreases |row| - c
  {
    if c == |row| then s
    else DispatchRow(o, Emit(o, Store(o, s, row[c]), Column(c, row[c])), row, c + 1)
  }

  function GetRow(o: Setup, s: Query): Query {
    s.(batchRowIndex := s.batchRowIndex + 1, queryRowIndex := s.queryRowIndex + 1,
       rows := if o.callback then s.rows + [[]] else s.rows)
  }

  function RowTurn(o: Setup, s: Query, row: Row): Query {
    DispatchRow(o, GetRow(o, Emit(o, s, RowEvent(s.queryRowIndex))), row, 0).(shown := s.shown + [row])
  }

  lemma {:induction false} DispatchRowKeepsIndex(o: Setup, s: Query, row: Row, c: nat)
    requires c <= |row|
    ensures DispatchRow(o, s, row, c).batchRowIndex == s.batchRowIndex
    decreases |row| - c
  {
    if c < |row| {
      DispatchRowKeepsIndex(o, Emit(o, Store(o, s, row[c]), Column(c, row[c])), row, c + 1);
    }
  }

  /** The loop of dispatchRows: whole rows, until the batch ends or a handler has paused. */
  function DispatchRows(o: Setup, s: Query, data: seq<Row>): Query
    decreases |data| - s.batchRowIndex
  {
    if s.paused || s.batchRowIndex >= |data| then s
    else
      var row := data[s.batchRowIndex];
      DispatchRowKeepsIndex(o, GetRow(o, Emit(o, s, RowEvent(s.queryRowIndex))), row, 0);
      DispatchRows(o, RowTurn(o, s, row), data)
  }

  // ---------------------------------------------------------------- steps

  function Dispatch(s: Query): Query {
    if s.running && !s.paused then s.(fetching := s.fetching + 1) else s
  }

  /** The batch a fetch gives next. */
  function Delivered(o: Setup, result: nat, k: nat): Batch
    requires result < |o.results| && k < |o.results[result].batches|
  {
    var last := k + 1 == |o.results[result].batches|;
    Batch(o.results[result].batches[k], last, last && o.lastFlagged && result + 1 == |o.results|)
  }

  predicate CanFetch(o: Setup, s: Query) {
    s.fetching > 0 && s.result < |o.results| && s.fetched < |o.results[s.result].batches|
  }

  /** The state before the rows of a fetched batch are dispatched. */
  function Received(o: Setup, s: Query): Query
    requires CanFetch(o, s)
  {
    s.(batchData := Some(Delivered(o, s.result, s.fetched)), batchRowIndex := 0, fetched := s.fetched + 1,
       fetching := s.fetching - 1)
  }

  /** dispatch's continuation: the flags of the batch are acted on whether or not it was paused. */
  function Fetched(o: Setup, s: Query): Query
    requires CanFetch(o, s)
  {
    var b := Delivered(o, s.result, s.fetched);
    var t := DispatchRows(o, Received(o, s), b.data);
    if !b.endOfRows then Dispatch(t) else t.(moving := t.moving + 1)
  }

  /** moveToNextResult: the finished result is passed on; batchData stays as it was. */
  function Moved(o: Setup, s: Query): Query
    requires s.moving > 0
  {
    if !s.running then s.(moving := s.moving - 1)
    else
      var t := s.(completed := s.completed + [s.rows], rows := [], shown := [],
                  result := s.result + 1, fetched := 0, moving := s.moving - 1);
      if t.result >= |o.results| then t.(running := false)
      else Dispatch(Emit(o, t, Meta(o.results[t.result].columns)))
  }

  function Paused(s: Query): Query {
    s.(paused := true)
  }

  function Resumed(o: Setup, s: Query): Query {
    if !s.paused then s
    else if s.batchData.None? then Dispatch(s.(paused := false))
    else
      var b := s.batchData.value;
      var t := DispatchRows(o, s.(paused := false), b.data);
      if t.paused then t
      else if b.endOfRows && t.batchRowIndex >= |b.data| then t.(moving := t.moving + 1)
      else Dispatch(t)
  }

  /** begin, once the first result's columns are known: they are announced and a fetch is asked for. */
  function Started(o: Setup): Query
    requires ValidSetup(o)
  {
    var s := Query([], 0, 0, None, true, o.startPaused, 0, 0, 0, 0, [], [], []);
    Dispatch(Emit(o, s, Meta(o.results[0].columns)))
  }

  datatype Action = FetchDone | MoveDone | Pause | Resume

  predicate Enabled(o: Setup, s: Query, a: Action) {
    match a
    case FetchDone => CanFetch(o, s)
    case MoveDone => s.moving > 0
    case _ => true
  }

  function Step(o: Setup, s: Query, a: Action): Query
    requires Enabled(o, s, a)
  {
    match a
    case FetchDone => Fetched(o, s)
    case MoveDone => Moved(o, s)
    case Pause => Paused(s)
    case Resume => Resumed(o, s)
  }

  // ---------------------------------------------------------------- what should be emitted

  function ColumnEvents(row: Row): (es: seq<Event>)
    ensures |es| == |row|
  {
    if row == [] then [] else ColumnEvents(row[..|row| - 1]) + [Column(|row| - 1, row[|row| - 1])]
  }

  /** One row: its event, then every column in turn. */
  function RowEvents(index: nat, row: Row): seq<Event> {
    [RowEvent(index)] + ColumnEvents(row)
  }

  /** Rows numbered from `base`. */
  function TableEvents(base: nat, rows: seq<Row>): seq<Event> {
    if rows == [] then []
    else TableEvents(base, rows[..|rows| - 1]) + RowEvents(base + |rows| - 1, rows[|rows| - 1])
  }

  function Table(r: ResultSet): seq<Row> {
    Batches.Flatten(r.batches)
  }

  function Tables(results: seq<ResultSet>): (tables: seq<seq<Row>>)
    ensures |tables| == |results|
  {
    seq(|results|, k requires 0 <= k < |results| => Table(results[k]))
  }

  function RowCount(results: seq<ResultSet>): nat {
    if results == [] then 0 else RowCount(results[..|results| - 1]) + |Table(results[|results| - 1])|
  }

  /** The events of whole result sets. */
  function Ideal(results: seq<ResultSet>): seq<Event> {
    if results == [] then []
    else
      var front, last := results[..|results| - 1], results[|results| - 1];
      Ideal(front) + [Meta(last.columns)] + TableEvents(RowCount(front), Table(last))
  }
}
