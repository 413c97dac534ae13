/**
 * What every run of a streaming query keeps: rows are emitted once, in order, numbered
 * consecutively, with the columns of a row together, and the callback's rows are the same rows.
 */
module StreamRuns {
  import opened StreamModel
  import Batches
  import opened Wrappers

  // ---------------------------------------------------------------- one row

  lemma {:induction false} DispatchRowEffect(o: Setup, s: Query, row: Row, c: nat)
    requires c <= |row| && (o.callback ==> s.rows != [])
    ensures (var t := DispatchRow(o, s, row, c);
             && t == s.(emitted := t.emitted, rows := t.rows, paused := t.paused)
             && t.emitted == s.emitted + ColumnEvents(row)[c..]
             && t.rows == Filled(o.callback, s.rows, row[c..]))
    decreases |row| - c
  {
    hide ColumnEvents, Filled;
    if c < |row| {
      var next := Emit(o, Store(o, s, row[c]), Column(c, row[c]));
      StoreFills(o, s, row[c]);
      DispatchRowEffect(o, next, row, c + 1);
      ColumnEventAt(row, c);
      assert ColumnEvents(row)[c..] == [Column(c, row[c])] + ColumnEvents(row)[c + 1..];
      FilledInTurn(o.callback, s.rows, row, c);
      Joins(s.emitted, Column(c, row[c]), ColumnEvents(row)[c + 1..]);
    } else {
      assert s.emitted + ColumnEvents(row)[c..] == s.emitted;
      NothingFilled(o.callback, s.rows, row[c..]);
    }
  }

  lemma StoreFills(o: Setup, s: Query, v: Value)
    requires o.callback ==> s.rows != []
    ensures Store(o, s, v) == s.(rows := Filled(o.callback, s.rows, [v]))
    ensures |Filled(o.callback, s.rows, [v])| == |s.rows|
  {
  }

  lemma Joins(a: seq<Event>, e: Event, b: seq<Event>)
    ensures a + [e] + b == a + ([e] + b)
  {
  }

  /** The callback's last row extended by cells. */
  function Filled(callback: bool, rows: seq<Row>, cells: Row): seq<Row> {
    if callback && rows != [] then rows[|rows| - 1 := rows[|rows| - 1] + cells] else rows
  }

  lemma FilledInTurn(callback: bool, rows: seq<Row>, row: Row, c: nat)
    requires c < |row|
    ensures Filled(callback, Filled(callback, rows, [row[c]]), row[c + 1..]) == Filled(callback, rows, row[c..])
  {
    if callback && rows != [] {
      var n := |rows| - 1;
      assert rows[n] + [row[c]] + row[c + 1..] == rows[n] + row[c..];
    }
  }

  lemma NothingFilled(callback: bool, rows: seq<Row>, cells: Row)
    requires cells == []
    ensures Filled(callback, rows, cells) == rows
  {
    if callback && rows != [] { assert rows[|rows| - 1] + cells == rows[|rows| - 1]; }
  }

  lemma {:induction false} ColumnEventAt(row: Row, c: nat)
    requires c < |row|
    ensures ColumnEvents(row)[c] == Column(c, row[c])
  {
    if c < |row| - 1 { ColumnEventAt(row[..|row| - 1], c); }
  }

  /** A turn of the loop emits exactly one row, whole, whatever its handlers do. */
  lemma RowTurnEffect(o: Setup, s: Query, row: Row)
    ensures (var t := RowTurn(o, s, row);
             t == s.(emitted := s.emitted + RowEvents(s.queryRowIndex, row),
                     rows := if o.callback then s.rows + [row] else s.rows,
                     batchRowIndex := s.batchRowIndex + 1, queryRowIndex := s.queryRowIndex + 1,
                     shown := s.shown + [row], paused := t.paused))
  {
    hide DispatchRow, ColumnEvents;
    var u := GetRow(o, Emit(o, s, RowEvent(s.queryRowIndex)));
    DispatchRowEffect(o, u, row, 0);
    assert ColumnEvents(row)[0..] == ColumnEvents(row) && row[0..] == row;
    assert s.emitted + [RowEvent(s.queryRowIndex)] + ColumnEvents(row) == s.emitted + RowEvents(s.queryRowIndex, row);
    NewRowFilled(s.rows, row);
  }

  lemma NewRowFilled(rows: seq<Row>, row: Row)
    ensures Filled(true, rows + [[]], row) == rows + [row]
  {
    var extended := rows + [[]];
    assert extended[|extended| - 1] + row == row;
  }

  // ---------------------------------------------------------------- the invariant

  /** The rows of the current batch still to be emitted. */
  function Left(fetched: nat, batchData: Option<Batch>, batchRowIndex: nat): seq<Row> {
    if fetched > 0 && batchData.Some? && batchRowIndex <= |batchData.value.data|
    then batchData.value.data[batchRowIndex..] else []
  }

  /** While a result is being read: what has been shown, and what is left, is what was fetched. */
  predicate Reading(
    o: Setup, result: nat, fetched: nat, batchData: Option<Batch>, batchRowIndex: nat, shown: seq<Row>)
  {
    && result < |o.results| && fetched <= |o.results[result].batches|
    && (fetched > 0 ==> batchData == Some(Delivered(o, result, fetched - 1)) && batchRowIndex <= |batchData.value.data|)
    && shown + Left(fetched, batchData, batchRowIndex) == Batches.Flatten(o.results[result].batches[..fetched])
  }

  /** The events are those of the finished results and of the rows shown of this one. */
  predicate Output(
    o: Setup, result: nat, shown: seq<Row>, queryRowIndex: nat, emitted: seq<Event>, rows: seq<Row>)
  {
    && result < |o.results|
    && queryRowIndex == RowCount(o.results[..result]) + |shown|
    && emitted == Ideal(o.results[..result]) + [Meta(o.results[result].columns)]
                  + TableEvents(RowCount(o.results[..result]), shown)
    && rows == if o.callback then shown else []
  }

  /** The rows each finished result was passed on with. */
  predicate Passed(o: Setup, result: nat, completed: seq<seq<Row>>) {
    && result <= |o.results| && |completed| == result
    && forall k | 0 <= k < result :: completed[k] == if o.callback then Table(o.results[k]) else []
  }

  /** What the query waits for: the next batch, the next result, or to be resumed. */
  predicate Waiting(
    fetching: nat, moving: nat, paused: bool, fetched: nat, count: nat, batchData: Option<Batch>, left: seq<Row>)
  {
    || (fetching == 1 && moving == 0 && left == [] && fetched < count)
    || (fetching == 0 && moving == 1 && left == [] && fetched == count)
    || (fetching == 0 && moving == 0 && paused && fetched < count && (fetched > 0 || batchData.None?))
  }

  predicate ReadingNow(o: Setup, s: Query) {
    Reading(o, s.result, s.fetched, s.batchData, s.batchRowIndex, s.shown)
  }

  predicate OutputNow(o: Setup, s: Query) {
    Output(o, s.result, s.shown, s.queryRowIndex, s.emitted, s.rows)
  }

  predicate WaitingNow(o: Setup, s: Query) {
    s.result < |o.results|
    && Waiting(s.fetching, s.moving, s.paused, s.fetched, |o.results[s.result].batches|, s.batchData,
               Left(s.fetched, s.batchData, s.batchRowIndex))
  }

  predicate Inv(o: Setup, s: Query) {
    && Passed(o, s.result, s.completed)
    && if s.running then ReadingNow(o, s) && OutputNow(o, s) && WaitingNow(o, s)
       else s.result == |o.results| && s.fetching == 0 && s.moving == 0 && s.emitted == Ideal(o.results)
  }

  /**
   * A batch that ends a result is dispatched whole; no pause is in force once a result that
   * follows has been announced; and the query is resumed only while it runs with no native call
   * under way.
   */
  predicate Orderly(o: Setup, s: Query, a: Action)
    requires Enabled(o, s, a)
  {
    match a
    case FetchDone =>
      var b := Delivered(o, s.result, s.fetched);
      b.endOfRows ==> Fetched(o, s).batchRowIndex == |b.data|
    case MoveDone => s.result + 1 < |o.results| ==> !Moved(o, s).paused
    case Pause => true
    case Resume => s.paused ==> s.fetching == 0 && s.moving == 0 && s.running
  }

  // ---------------------------------------------------------------- dispatching keeps it

  lemma ReadOn(o: Setup, result: nat, fetched: nat, batchData: Option<Batch>, i: nat, shown: seq<Row>)
    requires Reading(o, result, fetched, batchData, i, shown) && fetched > 0 && i < |batchData.value.data|
    ensures Reading(o, result, fetched, batchData, i + 1, shown + [batchData.value.data[i]])
  {
    var data := batchData.value.data;
    assert shown + data[i..] == shown + [data[i]] + data[i + 1..];
  }

  lemma PutOut(o: Setup, result: nat, shown: seq<Row>, index: nat, emitted: seq<Event>, rows: seq<Row>, row: Row)
    requires Output(o, result, shown, index, emitted, rows)
    ensures Output(o, result, shown + [row], index + 1, emitted + RowEvents(index, row),
                   if o.callback then rows + [row] else rows)
  {
    hide Ideal, RowCount, RowEvents;
    var base := RowCount(o.results[..result]);
    TableGrows(base, shown, row);
    Associates(Ideal(o.results[..result]) + [Meta(o.results[result].columns)], TableEvents(base, shown),
               RowEvents(index, row));
  }

  lemma TableGrows(base: nat, rows: seq<Row>, row: Row)
    ensures TableEvents(base, rows + [row]) == TableEvents(base, rows) + RowEvents(base + |rows|, row)
  {
    assert (rows + [row])[..|rows|] == rows;
  }

  lemma Associates(a: seq<Event>, b: seq<Event>, c: seq<Event>)
    ensures a + b + c == a + (b + c)
  {
  }

  lemma RowTurnKeeps(o: Setup, s: Query, row: Row)
    requires ReadingNow(o, s) && OutputNow(o, s) && MoreRows(s) && row == s.batchData.value.data[s.batchRowIndex]
    ensures ReadingNow(o, RowTurn(o, s, row)) && OutputNow(o, RowTurn(o, s, row))
  {
    hide Reading, Output, RowTurn, RowEvents;
    RowTurnEffect(o, s, row);
    ReadOn(o, s.result, s.fetched, s.batchData, s.batchRowIndex, s.shown);
    PutOut(o, s.result, s.shown, s.queryRowIndex, s.emitted, s.rows, row);
  }

  predicate MoreRows(s: Query) {
    s.fetched > 0 && s.batchData.Some? && s.batchRowIndex < |s.batchData.value.data|
  }

  lemma HasBatch(o: Setup, s: Query)
    requires ReadingNow(o, s) && s.fetched > 0
    ensures s.batchData == Some(Delivered(o, s.result, s.fetched - 1)) && s.batchRowIndex <= |s.batchData.value.data|
    ensures Left(s.fetched, s.batchData, s.batchRowIndex) == s.batchData.value.data[s.batchRowIndex..]
  {
  }

  /** The fields that dispatching leaves alone. */
  predicate OnlyDispatched(s: Query, t: Query) {
    t == s.(emitted := t.emitted, rows := t.rows, batchRowIndex := t.batchRowIndex,
            queryRowIndex := t.queryRowIndex, shown := t.shown, paused := t.paused)
  }

  /** dispatchRows stops at the end of the batch or because of a pause. */
  lemma {:induction false} DispatchRowsKeeps(o: Setup, s: Query, data: seq<Row>)
    requires ReadingNow(o, s) && OutputNow(o, s) && s.fetched > 0 && s.batchData.Some? && data == s.batchData.value.data
    ensures (var t := DispatchRows(o, s, data);
             && ReadingNow(o, t) && OutputNow(o, t) && OnlyDispatched(s, t)
             && (t.paused || Left(t.fetched, t.batchData, t.batchRowIndex) == []))
    decreases |data| - s.batchRowIndex
  {
    hide ReadingNow, OutputNow, RowTurn, Delivered;
    HasBatch(o, s);
    if !s.paused && s.batchRowIndex < |data| {
      var row := data[s.batchRowIndex];
      RowTurnKeeps(o, s, row);
      RowTurnEffect(o, s, row);
      DispatchRowsKeeps(o, RowTurn(o, s, row), data);
    }
  }

  lemma ReceivedKeeps(o: Setup, s: Query)
    requires ReadingNow(o, s) && OutputNow(o, s) && CanFetch(o, s)
    requires Left(s.fetched, s.batchData, s.batchRowIndex) == []
    ensures ReadingNow(o, Received(o, s)) && OutputNow(o, Received(o, s))
  {
    hide Output;
    var t, batches := Received(o, s), o.results[s.result].batches;
    assert batches[..s.fetched + 1][..s.fetched] == batches[..s.fetched];
    assert Left(t.fetched, t.batchData, t.batchRowIndex) == batches[s.fetched];
    assert s.shown + [] == s.shown;
  }

  // ---------------------------------------------------------------- each step keeps it

  lemma FetchedKeeps(o: Setup, s: Query)
    requires Inv(o, s) && s.running && Enabled(o, s, FetchDone) && Orderly(o, s, FetchDone)
    ensures Inv(o, Fetched(o, s))
  {
    hide Reading, Output, Passed, DispatchRows, Left;
    var u := Received(o, s);
    ReceivedKeeps(o, s);
    DispatchRowsKeeps(o, u, u.batchData.value.data);
    HasBatch(o, DispatchRows(o, u, u.batchData.value.data));
  }

  lemma ResumedKeeps(o: Setup, s: Query)
    requires Inv(o, s) && Orderly(o, s, Resume) && s.paused
    ensures Inv(o, Resumed(o, s))
  {
    hide Reading, Output, Passed, DispatchRows, Left;
    if s.fetched == 0 {
      NothingLeft(s);
    } else {
      HasBatch(o, s);
      var u := s.(paused := false);
      DispatchRowsKeeps(o, u, u.batchData.value.data);
      var t := DispatchRows(o, u, u.batchData.value.data);
      HasBatch(o, t);
    }
  }

  lemma NothingLeft(s: Query)
    requires s.fetched == 0
    ensures Left(s.fetched, s.batchData, s.batchRowIndex) == []
  {
  }

  /** A result all of whose rows are shown can be added to the finished ones. */
  lemma ResultDone(o: Setup, s: Query)
    requires ReadingNow(o, s) && OutputNow(o, s) && WaitingNow(o, s) && s.moving > 0
    ensures s.shown == Table(o.results[s.result])
    ensures s.emitted == Ideal(o.results[..s.result + 1]) && s.queryRowIndex == RowCount(o.results[..s.result + 1])
  {
    hide Reading, Output;
    AllShown(o, s);
    hide Table, Ideal, RowCount;
    AllPutOut(o, s.result, s.shown, s.queryRowIndex, s.emitted, s.rows);
  }

  lemma AllShown(o: Setup, s: Query)
    requires ReadingNow(o, s) && WaitingNow(o, s) && s.moving > 0
    ensures s.shown == Table(o.results[s.result])
  {
    hide Left, Delivered;
    assert o.results[s.result].batches[..s.fetched] == o.results[s.result].batches;
    assert s.shown + [] == s.shown;
  }

  lemma AllPutOut(o: Setup, result: nat, shown: seq<Row>, index: nat, emitted: seq<Event>, rows: seq<Row>)
    requires Output(o, result, shown, index, emitted, rows) && shown == Table(o.results[result])
    ensures emitted == Ideal(o.results[..result + 1]) && index == RowCount(o.results[..result + 1])
  {
    hide TableEvents;
    var done := o.results[..result + 1];
    assert done[..result] == o.results[..result] && done[result] == o.results[result];
  }

  lemma ResultStarts(o: Setup, result: nat, batchData: Option<Batch>, i: nat)
    requires ValidSetup(o) && result < |o.results|
    ensures Reading(o, result, 0, batchData, i, []) && o.results[result].batches != []
    ensures Output(o, result, [], RowCount(o.results[..result]),
                   Ideal(o.results[..result]) + [Meta(o.results[result].columns)], [])
  {
    hide Ideal, RowCount;
    assert ValidResult(o.results[result]);
    assert o.results[result].batches[..0] == [];
    var head := Ideal(o.results[..result]) + [Meta(o.results[result].columns)];
    assert head + [] == head;
  }

  lemma MovedKeeps(o: Setup, s: Query)
    requires ValidSetup(o) && Inv(o, s) && s.running && s.moving > 0
    requires s.result + 1 < |o.results| ==> !Moved(o, s).paused
    ensures Inv(o, Moved(o, s))
  {
    hide Reading, Output, Ideal, RowCount, Table, ValidSetup;
    ResultDone(o, s);
    ShownIsPassed(o, s);
    if s.result + 1 < |o.results| {
      ResultStarts(o, s.result + 1, s.batchData, s.batchRowIndex);
    } else {
      assert o.results[..s.result + 1] == o.results;
    }
  }

  lemma ShownIsPassed(o: Setup, s: Query)
    requires OutputNow(o, s)
    ensures s.result < |o.results| && s.rows == if o.callback then s.shown else []
  {
  }

  lemma InvIsRunning(o: Setup, s: Query)
    requires Inv(o, s) && s.fetching + s.moving > 0
    ensures s.running
  {
  }

  lemma StepKeepsInv(o: Setup, s: Query, a: Action)
    requires ValidSetup(o) && Inv(o, s) && Enabled(o, s, a) && Orderly(o, s, a)
    ensures Inv(o, Step(o, s, a))
  {
    hide Inv, Fetched, Resumed, Moved, ValidSetup, Delivered;
    if s.fetching + s.moving > 0 { InvIsRunning(o, s); }
    match a
    case FetchDone => FetchedKeeps(o, s);
    case MoveDone => MovedKeeps(o, s);
    case Pause => PausingChangesNothing(o, s);
    case Resume => if s.paused { ResumedKeeps(o, s); } else { ResumedUnpaused(o, s); }
  }

  lemma ResumedUnpaused(o: Setup, s: Query)
    requires !s.paused
    ensures Resumed(o, s) == s
  {
  }

  lemma PausingChangesNothing(o: Setup, s: Query)
    requires Inv(o, s)
    ensures Inv(o, Paused(s))
  {
    hide Reading, Output, Passed, Left;
  }

  lemma StartedInv(o: Setup)
    requires ValidSetup(o)
    ensures Inv(o, Started(o))
  {
    hide Reading, Output;
    ResultStarts(o, 0, None, 0);
    assert o.results[..0] == [];
    assert Ideal([]) + [Meta(o.results[0].columns)] == [Meta(o.results[0].columns)];
    assert [] + [Meta(o.results[0].columns)] == [Meta(o.results[0].columns)];
  }

  // ---------------------------------------------------------------- runs

  predicate OrderlyRun(o: Setup, s: Query, actions: seq<Action>)
    decreases |actions|
  {
    actions == []
    || (Enabled(o, s, actions[0]) && Orderly(o, s, actions[0]) && OrderlyRun(o, Step(o, s, actions[0]), actions[1..]))
  }

  function Run(o: Setup, s: Query, actions: seq<Action>): Query
    requires OrderlyRun(o, s, actions)
    decreases |actions|
  {
    if actions == [] then s else Run(o, Step(o, s, actions[0]), actions[1..])
  }

  lemma {:induction false} RunKeepsInv(o: Setup, s: Query, actions: seq<Action>)
    requires ValidSetup(o) && Inv(o, s) && OrderlyRun(o, s, actions)
    ensures Inv(o, Run(o, s, actions))
    decreases |actions|
  {
    hide Inv, Step, Orderly, Enabled;
    if actions != [] {
      StepKeepsInv(o, s, actions[0]);
      RunKeepsInv(o, Step(o, s, actions[0]), actions[1..]);
    }
  }

  lemma {:induction false} TablePrefix(base: nat, rows: seq<Row>, more: seq<Row>)
    ensures TableEvents(base, rows) <= TableEvents(base, rows + more)
  {
    if more == [] {
      assert rows + more == rows;
    } else {
      TablePrefix(base, rows, more[..|more| - 1]);
      assert (rows + more)[..|rows + more| - 1] == rows + more[..|more| - 1];
    }
  }

  lemma {:induction false} IdealPrefix(results: seq<ResultSet>, r: nat)
    requires r <= |results|
    ensures Ideal(results[..r]) <= Ideal(results)
  {
    if r == |results| {
      assert results[..r] == results;
    } else {
      IdealPrefix(results[..|results| - 1], r);
      assert results[..|results| - 1][..r] == results[..r];
    }
  }

  lemma {:induction false} FlattenPrefix(batches: seq<seq<Row>>, k: nat)
    requires k <= |batches|
    ensures Batches.Flatten(batches[..k]) <= Batches.Flatten(batches)
  {
    if k == |batches| {
      assert batches[..k] == batches;
    } else {
      FlattenPrefix(batches[..|batches| - 1], k);
      assert batches[..|batches| - 1][..k] == batches[..k];
    }
  }

  /** In every orderly run, for every batching and every schedule of pauses, only ideal events so far. */
  lemma OrderlyRunEmitsInOrder(o: Setup, actions: seq<Action>)
    requires ValidSetup(o) && OrderlyRun(o, Started(o), actions)
    ensures (var s := Run(o, Started(o), actions); s.emitted <= Ideal(o.results))
  {
    StartedInv(o);
    RunKeepsInv(o, Started(o), actions);
    var s := Run(o, Started(o), actions);
    if s.running { ReadingIsPrefix(o, s); }
  }

  lemma ReadingIsPrefix(o: Setup, s: Query)
    requires ReadingNow(o, s) && OutputNow(o, s)
    ensures s.emitted <= Ideal(o.results)
  {
    hide TableEvents, RowCount;
    var r := s.result;
    var done, base, table := o.results[..r + 1], RowCount(o.results[..r]), Table(o.results[r]);
    ShownIsPrefix(o, s);
    TablePrefix(base, s.shown, table[|s.shown|..]);
    assert s.shown + table[|s.shown|..] == table;
    assert done[..r] == o.results[..r] && done[r] == o.results[r];
    PrefixAfter(Ideal(o.results[..r]) + [Meta(o.results[r].columns)], TableEvents(base, s.shown),
                TableEvents(base, table));
    IdealPrefix(o.results, r + 1);
  }

  lemma ShownIsPrefix(o: Setup, s: Query)
    requires ReadingNow(o, s)
    ensures s.shown <= Table(o.results[s.result])
  {
    FlattenPrefix(o.results[s.result].batches, s.fetched);
  }

  lemma PrefixAfter(head: seq<Event>, a: seq<Event>, b: seq<Event>)
    requires a <= b
    ensures head + a <= head + b
  {
  }

  /** A query that finishes has emitted every row of every result, and passed every row on. */
  lemma FinishedRunIsComplete(o: Setup, actions: seq<Action>)
    requires ValidSetup(o) && OrderlyRun(o, Started(o), actions)
    requires !Run(o, Started(o), actions).running
    ensures (var s := Run(o, Started(o), actions);
             s.emitted == Ideal(o.results) && (o.callback ==> s.completed == Tables(o.results)))
  {
    StartedInv(o);
    RunKeepsInv(o, Started(o), actions);
  }

  // ---------------------------------------------------------------- every run can be finished

  /** What the world can do for a running query: answer the native call, or resume it. */
  function NextAction(s: Query): Action {
    if s.fetching > 0 then FetchDone else if s.moving > 0 then MoveDone else Resume
  }

  function BatchesLeft(o: Setup, s: Query): nat {
    if s.result < |o.results| && s.fetched <= |o.results[s.result].batches|
    then |o.results[s.result].batches| - s.fetched else 0
  }

  function RowsLeft(s: Query): nat {
    |Left(s.fetched, s.batchData, s.batchRowIndex)|
  }

  lemma NextIsEnabled(o: Setup, s: Query)
    requires Inv(o, s) && s.running
    ensures Enabled(o, s, NextAction(s)) && s.result < |o.results|
  {
    hide Reading, Output, Passed;
  }

  lemma ResumeAdvances(o: Setup, s: Query)
    requires Inv(o, s) && s.running && s.fetching == 0 && s.moving == 0
    ensures (var t := Resumed(o, s);
             && t.result == s.result && t.fetched == s.fetched
             && (RowsLeft(t) < RowsLeft(s) || (RowsLeft(t) == RowsLeft(s) && t.fetching + t.moving > 0)))
  {
    hide Reading, Output, Passed, RowTurn;
    if s.fetched > 0 {
      HasBatch(o, s);
      var data, u := s.batchData.value.data, s.(paused := false);
      if s.batchRowIndex < |data| {
        var v := RowTurn(o, u, data[s.batchRowIndex]);
        RowTurnEffect(o, u, data[s.batchRowIndex]);
        DispatchingGoesOn(o, v, data);
      }
    }
  }

  lemma {:induction false} DispatchingGoesOn(o: Setup, s: Query, data: seq<Row>)
    requires s.batchRowIndex <= |data|
    ensures s.batchRowIndex <= DispatchRows(o, s, data).batchRowIndex <= |data|
    ensures OnlyDispatched(s, DispatchRows(o, s, data))
    decreases |data| - s.batchRowIndex
  {
    hide RowTurn;
    if !s.paused && s.batchRowIndex < |data| {
      RowTurnEffect(o, s, data[s.batchRowIndex]);
      DispatchingGoesOn(o, RowTurn(o, s, data[s.batchRowIndex]), data);
    }
  }

  lemma FetchAdvances(o: Setup, s: Query)
    requires Inv(o, s) && s.running && s.fetching > 0
    ensures CanFetch(o, s) && Fetched(o, s).result == s.result && Fetched(o, s).fetched == s.fetched + 1
  {
    hide Reading, Output, Passed, RowTurn;
    DispatchingGoesOn(o, Received(o, s), o.results[s.result].batches[s.fetched]);
  }

  /** Answered and resumed, a query that stays orderly comes to its end. */
  lemma {:induction false} RunFinishes(o: Setup, s: Query) returns (actions: seq<Action>)
    requires ValidSetup(o) && Inv(o, s)
    ensures OrderlyRun(o, s, actions)
    ensures (var t := Run(o, s, actions);
             Inv(o, t) && (t.running ==> Enabled(o, t, NextAction(t)) && !Orderly(o, t, NextAction(t))))
    decreases if s.running then |o.results| - s.result else 0, BatchesLeft(o, s), RowsLeft(s),
              s.fetching == 0 && s.moving == 0
  {
    hide Reading, Output, Passed, DispatchRows, ValidSetup, Left;
    if s.running { NextIsEnabled(o, s); }
    if !s.running || !Orderly(o, s, NextAction(s)) {
      actions := [];
    } else {
      StepKeepsInv(o, s, NextAction(s));
      if s.fetching == 0 && s.moving == 0 { ResumeAdvances(o, s); }
      if s.fetching > 0 { FetchAdvances(o, s); }
      var rest := RunFinishes(o, Step(o, s, NextAction(s)));
      actions := [NextAction(s)] + rest;
      assert actions[1..] == rest;
    }
  }

  // ---------------------------------------------------------------- a query paused from the start

  /**
   * Paused before it begins, or by a listener of its first columns, a query asks for nothing and
   * emits nothing more, however long, until it is resumed; resumed, it asks for the first batch.
   */
  lemma {:induction false} PausedStartIsQuiet(o: Setup, actions: seq<Action>)
    requires ValidSetup(o) && (o.startPaused || o.pauses(0))
    requires LegalRun(o, Started(o), actions) && Resume !in actions
    ensures (var s := Reached(o, Started(o), actions);
             && s.paused && s.fetching == 0 && s.moving == 0
             && s.emitted == [Meta(o.results[0].columns)] && s.completed == []
             && Step(o, s, Resume) == s.(paused := false, fetching := 1))
    decreases |actions|
  {
    if actions != [] {
      assert actions[0] in actions && Step(o, Started(o), actions[0]) == Started(o);
      PausedStartIsQuiet(o, actions[1..]);
    }
  }

  /** Once it has ended, whatever comes, a query asks for no more batches and passes nothing on. */
  lemma {:induction false} EndedAsksNothing(o: Setup, s: Query, actions: seq<Action>)
    requires !s.running && LegalRun(o, s, actions)
    ensures (var t := Reached(o, s, actions); !t.running && t.fetching <= s.fetching && t.completed == s.completed)
    decreases |actions|
  {
    hide DispatchRows, Delivered;
    if actions != [] {
      if actions[0].FetchDone? { DispatchingEmits(o, Received(o, s), Delivered(o, s.result, s.fetched).data); }
      if s.batchData.Some? { DispatchingEmits(o, s.(paused := false), s.batchData.value.data); }
      EndedAsksNothing(o, Step(o, s, actions[0]), actions[1..]);
    }
  }

  /** Otherwise it asks for the first batch at once. */
  lemma StartAsksExactlyWhen(o: Setup)
    requires ValidSetup(o)
    ensures Started(o).fetching == (if o.startPaused || o.pauses(0) then 0 else 1)
    ensures Started(o).paused <==> o.startPaused || o.pauses(0)
  {
  }

  // ---------------------------------------------------------------- exactly when a result is whole

  /** No handler of the rows before the last of these pauses; a row has one event more than columns. */
  predicate NoEarlyPause(o: Setup, first: nat, count: nat, width: nat)
    decreases count
  {
    || count <= 1
    || ((forall k | first <= k < first + width :: !o.pauses(k))
        && NoEarlyPause(o, first + width, count - 1, width))
  }

  lemma {:induction false} RowTurnPauses(o: Setup, s: Query, row: Row)
    requires !s.paused
    ensures RowTurn(o, s, row).paused <==> exists k | |s.emitted| <= k < |s.emitted| + 1 + |row| :: o.pauses(k)
  {
    var t := Emit(o, s, RowEvent(s.queryRowIndex));
    DispatchRowPauses(o, GetRow(o, t), row, 0);
    assert t.paused <==> o.pauses(|s.emitted|);
  }

  lemma {:induction false} DispatchRowPauses(o: Setup, s: Query, row: Row, c: nat)
    requires c <= |row|
    ensures DispatchRow(o, s, row, c).paused
            <==> s.paused || exists k | |s.emitted| <= k < |s.emitted| + |row| - c :: o.pauses(k)
    decreases |row| - c
  {
    if c < |row| {
      var t := Emit(o, Store(o, s, row[c]), Column(c, row[c]));
      DispatchRowPauses(o, t, row, c + 1);
    }
  }

  lemma RowEventCount(index: nat, row: Row)
    ensures |RowEvents(index, row)| == |row| + 1
  {
  }

  /** dispatchRows gets through a batch exactly when no pause comes before its last row. */
  lemma {:induction false} WholeBatchExactlyWhen(o: Setup, s: Query, data: seq<Row>, width: nat)
    requires s.batchRowIndex <= |data| && forall row | row in data :: |row| + 1 == width
    ensures DispatchRows(o, s, data).batchRowIndex == |data|
            <==> s.batchRowIndex == |data|
                 || (!s.paused && NoEarlyPause(o, |s.emitted|, |data| - s.batchRowIndex, width))
    decreases |data| - s.batchRowIndex
  {
    hide RowTurn, RowEvents;
    if !s.paused && s.batchRowIndex < |data| {
      var row := data[s.batchRowIndex];
      var t := RowTurn(o, s, row);
      RowTurnEffect(o, s, row);
      RowTurnPauses(o, s, row);
      RowEventCount(s.queryRowIndex, row);
      assert |RowEvents(s.queryRowIndex, row)| == width;
      WholeBatchExactlyWhen(o, t, data, width);
    }
  }

  // ---------------------------------------------------------------- any run, orderly or not

  /** A sequence of steps, each enabled where it is taken. */
  predicate LegalRun(o: Setup, s: Query, actions: seq<Action>)
    decreases |actions|
  {
    actions == [] || (Enabled(o, s, actions[0]) && LegalRun(o, Step(o, s, actions[0]), actions[1..]))
  }

  function Reached(o: Setup, s: Query, actions: seq<Action>): Query
    requires LegalRun(o, s, actions)
    decreases |actions|
  {
    if actions == [] then s else Reached(o, Step(o, s, actions[0]), actions[1..])
  }

  /** A run that is orderly as long as it is at result k; how it leaves k, and goes on, is free. */
  predicate OrderlyUntil(o: Setup, s: Query, actions: seq<Action>, k: nat)
    requires LegalRun(o, s, actions)
    decreases |actions|
  {
    || actions == []
    || (&& (s.result > k || (s.result == k && actions[0].MoveDone?) || Orderly(o, s, actions[0]))
        && OrderlyUntil(o, Step(o, s, actions[0]), actions[1..], k))
  }

  /** Result k has been passed on whole, and all its rows have been emitted after those before it. */
  predicate ReadWhole(o: Setup, s: Query, k: nat)
    requires k < |o.results|
  {
    && k < |s.completed| && s.completed[k] == (if o.callback then Table(o.results[k]) else [])
    && Ideal(o.results[..k + 1]) <= s.emitted
  }

  lemma {:induction false} DispatchingEmits(o: Setup, s: Query, data: seq<Row>)
    ensures s.emitted <= DispatchRows(o, s, data).emitted
    ensures OnlyDispatched(s, DispatchRows(o, s, data))
    decreases |data| - s.batchRowIndex
  {
    hide RowTurn, RowEvents;
    if !s.paused && s.batchRowIndex < |data| {
      RowTurnEffect(o, s, data[s.batchRowIndex]);
      DispatchingEmits(o, RowTurn(o, s, data[s.batchRowIndex]), data);
    }
  }

  /** Nothing emitted or passed on is ever taken back. */
  lemma StepExtends(o: Setup, s: Query, a: Action)
    requires Enabled(o, s, a)
    ensures s.emitted <= Step(o, s, a).emitted && s.completed <= Step(o, s, a).completed
    ensures Step(o, s, a).result == if a.MoveDone? && s.running then s.result + 1 else s.result
  {
    hide DispatchRows;
    match a
    case FetchDone => DispatchingEmits(o, Received(o, s), Delivered(o, s.result, s.fetched).data);
    case MoveDone =>
    case Pause =>
    case Resume => if s.batchData.Some? { DispatchingEmits(o, s.(paused := false), s.batchData.value.data); }
  }

  lemma {:induction false} WholeStaysWhole(o: Setup, s: Query, actions: seq<Action>, k: nat)
    requires LegalRun(o, s, actions) && k < |o.results| && ReadWhole(o, s, k)
    ensures ReadWhole(o, Reached(o, s, actions), k)
    decreases |actions|
  {
    hide Step, Enabled, Ideal, Table;
    if actions != [] {
      StepExtends(o, s, actions[0]);
      WholeStaysWhole(o, Step(o, s, actions[0]), actions[1..], k);
    }
  }

  /** Moving on from a result that has been read passes it on whole. */
  lemma MovingPassesWhole(o: Setup, s: Query)
    requires Inv(o, s) && s.running && s.moving > 0
    ensures s.result < |o.results| && ReadWhole(o, Moved(o, s), s.result)
  {
    hide Reading, Output, Ideal, Table;
    ResultDone(o, s);
    ShownIsPassed(o, s);
  }

  /** A result that is read in an orderly way is passed on whole, whatever happens later. */
  lemma {:induction false} OrderlyResultIsWhole(o: Setup, s: Query, actions: seq<Action>, k: nat)
    requires ValidSetup(o) && Inv(o, s) && s.running && s.result <= k < |o.results|
    requires LegalRun(o, s, actions) && OrderlyUntil(o, s, actions, k) && Reached(o, s, actions).result > k
    ensures ReadWhole(o, Reached(o, s, actions), k)
    decreases |actions|
  {
    hide Inv, Step, Orderly, ReadWhole, ValidSetup, Enabled;
    StepExtends(o, s, actions[0]);
    var next := Step(o, s, actions[0]);
    if s.result == k && actions[0].MoveDone? {
      MoveIsMoved(o, s);
      MovingPassesWhole(o, s);
      WholeStaysWhole(o, next, actions[1..], k);
    } else {
      StepKeepsInv(o, s, actions[0]);
      EndsPast(o, s, actions[0]);
      OrderlyResultIsWhole(o, next, actions[1..], k);
    }
  }

  lemma MoveIsMoved(o: Setup, s: Query)
    requires Enabled(o, s, MoveDone)
    ensures s.moving > 0 && Step(o, s, MoveDone) == Moved(o, s)
  {
  }

  lemma EndsPast(o: Setup, s: Query, a: Action)
    requires Inv(o, s) && s.running && Enabled(o, s, a)
    ensures !Step(o, s, a).running ==> a.MoveDone? && s.result + 1 == |o.results|
  {
    hide Reading, Output, Passed, DispatchRows;
    if a.FetchDone? { DispatchingEmits(o, Received(o, s), Delivered(o, s.result, s.fetched).data); }
    if a.Resume? && s.batchData.Some? { DispatchingEmits(o, s.(paused := false), s.batchData.value.data); }
  }

  // ---------------------------------------------------------------- the batch that ends a result

  lemma BatchWidth(o: Setup, result: nat, k: nat)
    requires ValidSetup(o) && result < |o.results| && k < |o.results[result].batches|
    ensures forall row | row in o.results[result].batches[k] :: |row| == o.results[result].columns
  {
    var r := o.results[result];
    assert ValidResult(r) && r.batches[k] in r.batches;
  }

  lemma WholeWhenConsumed(o: Setup, s: Query)
    requires ReadingNow(o, s) && s.fetched == |o.results[s.result].batches| > 0
    ensures s.batchData.Some?
    ensures s.shown == Table(o.results[s.result]) <==> s.batchRowIndex == |s.batchData.value.data|
  {
    HasBatch(o, s);
    assert o.results[s.result].batches[..s.fetched] == o.results[s.result].batches;
    assert s.shown + [] == s.shown;
    assert |s.shown + s.batchData.value.data[s.batchRowIndex..]| == |Table(o.results[s.result])|;
  }

  /** The state once the batch that ends a result has been handled, whole or not. */
  predicate AtEnd(o: Setup, s: Query, data: seq<Row>) {
    && s.running && s.fetching == 0 && s.moving == 1 && s.result < |o.results|
    && ReadingNow(o, s) && OutputNow(o, s)
    && s.fetched == |o.results[s.result].batches| > 0 && data == o.results[s.result].batches[s.fetched - 1]
  }

  lemma LastFetched(o: Setup, s: Query, data: seq<Row>)
    requires ValidSetup(o) && Inv(o, s) && s.running && Enabled(o, s, FetchDone)
    requires s.fetched + 1 == |o.results[s.result].batches| && data == o.results[s.result].batches[s.fetched]
    ensures (var t := Fetched(o, s);
             && t.result == s.result && AtEnd(o, t, data) && t.completed == s.completed && |s.completed| == s.result
             && (t.batchRowIndex == |data|
                 <==> data == []
                      || (!s.paused && NoEarlyPause(o, |s.emitted|, |data|, o.results[s.result].columns + 1))))
  {
    hide Reading, Output, DispatchRows, Left, Table, NoEarlyPause, ValidSetup;
    var u := Received(o, s);
    ReceivedKeeps(o, s);
    DispatchRowsKeeps(o, u, data);
    BatchWidth(o, s.result, s.fetched);
    WholeBatchExactlyWhen(o, u, data, o.results[s.result].columns + 1);
  }

  lemma {:induction false} TableSplit(base: nat, rows: seq<Row>, more: seq<Row>)
    ensures TableEvents(base, rows + more) == TableEvents(base, rows) + TableEvents(base + |rows|, more)
    decreases |more|
  {
    hide TableEvents, RowEvents;
    if more == [] {
      EmptyTable(base + |rows|);
      assert rows + more == rows;
    } else {
      var front, last := more[..|more| - 1], more[|more| - 1];
      TableSplit(base, rows, front);
      TableGrows(base, rows + front, last);
      TableGrows(base + |rows|, front, last);
      assert rows + more == rows + front + [last] && more == front + [last];
      Associates(TableEvents(base, rows), TableEvents(base + |rows|, front),
                 RowEvents(base + |rows + front|, last));
    }
  }

  lemma EmptyTable(base: nat)
    ensures TableEvents(base, []) == []
  {
  }

  lemma {:induction false} FirstIsRow(base: nat, rows: seq<Row>)
    requires rows != []
    ensures TableEvents(base, rows) != [] && TableEvents(base, rows)[0].RowEvent?
  {
    if |rows| > 1 { FirstIsRow(base, rows[..|rows| - 1]); }
  }

  lemma IdealUnfolds(results: seq<ResultSet>)
    requires results != []
    ensures (var front, last := results[..|results| - 1], results[|results| - 1];
             Ideal(results) == Ideal(front) + [Meta(last.columns)] + TableEvents(RowCount(front), Table(last)))
  {
  }

  /** After some of the rows of a result, the columns of another do not make up for the rest. */
  lemma RowsAreMissing(o: Setup, k: nat, shown: seq<Row>, emitted: seq<Event>)
    requires k < |o.results| && shown <= Table(o.results[k]) && shown != Table(o.results[k])
    requires (var first := Ideal(o.results[..k]) + [Meta(o.results[k].columns)]
                           + TableEvents(RowCount(o.results[..k]), shown);
              emitted == first || exists c :: emitted == first + [Meta(c)])
    ensures !(Ideal(o.results[..k + 1]) <= emitted)
  {
    hide Ideal, RowCount, Table, TableEvents;
    var done, base, table := o.results[..k + 1], RowCount(o.results[..k]), Table(o.results[k]);
    var rest := table[|shown|..];
    assert done[..k] == o.results[..k] && done[k] == o.results[k] && shown + rest == table;
    IdealUnfolds(done);
    TableSplit(base, shown, rest);
    FirstIsRow(base + |shown|, rest);
    var first := Ideal(o.results[..k]) + [Meta(o.results[k].columns)] + TableEvents(base, shown);
    assert Ideal(done)[|first|] == TableEvents(base + |shown|, rest)[0];
  }

  /** Moved on before all its rows are shown, a result is not whole. */
  lemma CutShortIsNotWhole(o: Setup, s: Query)
    requires s.running && s.moving > 0 && ReadingNow(o, s) && OutputNow(o, s) && |s.completed| == s.result
    requires s.shown != Table(o.results[s.result])
    ensures !ReadWhole(o, Moved(o, s), s.result)
  {
    hide Reading, Ideal, RowCount, Table, TableEvents;
    ShownIsPrefix(o, s);
    RowsAreMissing(o, s.result, s.shown, Moved(o, s).emitted);
  }

  /** Until it moves on, a run without a resume from the end of a result only pauses. */
  lemma {:induction false} QuietRunIsOrderly(o: Setup, s: Query, actions: seq<Action>)
    requires s.fetching == 0 && LegalRun(o, s, actions) && Resume !in actions
    ensures OrderlyUntil(o, s, actions, s.result)
    decreases |actions|
  {
    hide Orderly;
    if actions != [] {
      if actions[0].Pause? {
        PauseIsOrderly(o, s);
        QuietRunIsOrderly(o, Paused(s), actions[1..]);
      } else if s.running {
        PastIsFree(o, Moved(o, s), actions[1..], s.result);
      } else {
        QuietRunIsOrderly(o, Moved(o, s), actions[1..]);
      }
    }
  }

  lemma PauseIsOrderly(o: Setup, s: Query)
    ensures Orderly(o, s, Pause)
  {
  }

  lemma {:induction false} PastIsFree(o: Setup, s: Query, actions: seq<Action>, k: nat)
    requires s.result > k && LegalRun(o, s, actions)
    ensures OrderlyUntil(o, s, actions, k)
    decreases |actions|
  {
    hide Step, Enabled, Orderly;
    if actions != [] {
      StepExtends(o, s, actions[0]);
      PastIsFree(o, Step(o, s, actions[0]), actions[1..], k);
    }
  }

  /**
   * The flags of the batch that ends a result are acted on even when a pause cut it short: every
   * run without a resume that gets past the result has passed it on whole, and emitted its rows,
   * exactly when the query was not paused before the last row of that batch.
   */
  lemma LastBatchIsWholeExactlyWhen(o: Setup, s: Query, data: seq<Row>)
    requires ValidSetup(o) && Inv(o, s) && s.running && Enabled(o, s, FetchDone)
    requires s.fetched + 1 == |o.results[s.result].batches| && data == o.results[s.result].batches[s.fetched]
    ensures (forall actions | LegalRun(o, Fetched(o, s), actions) && Resume !in actions
                              && Reached(o, Fetched(o, s), actions).result > s.result ::
               ReadWhole(o, Reached(o, Fetched(o, s), actions), s.result))
            <==> data == []
                 || (!s.paused && NoEarlyPause(o, |s.emitted|, |data|, o.results[s.result].columns + 1))
  {
    hide Inv, Fetched, ReadWhole, NoEarlyPause, ValidSetup, LegalRun, Reached, ReadingNow, OutputNow, Table;
    var t := Fetched(o, s);
    LastFetched(o, s, data);
    if t.batchRowIndex == |data| {
      ConsumedKeeps(o, s, data);
      forall actions | LegalRun(o, t, actions) && Resume !in actions && Reached(o, t, actions).result > s.result
        ensures ReadWhole(o, Reached(o, t, actions), s.result)
      {
        QuietRunIsOrderly(o, t, actions);
        OrderlyResultIsWhole(o, t, actions, s.result);
      }
    } else {
      MovesOn(o, t);
      AtEndIsCut(o, t, data);
      CutShortIsNotWhole(o, t);
      assert Resume !in [MoveDone];
    }
  }

  lemma ConsumedKeeps(o: Setup, s: Query, data: seq<Row>)
    requires ValidSetup(o) && Inv(o, s) && s.running && Enabled(o, s, FetchDone)
    requires s.fetched + 1 == |o.results[s.result].batches| && data == o.results[s.result].batches[s.fetched]
    requires Fetched(o, s).batchRowIndex == |data|
    ensures Inv(o, Fetched(o, s))
  {
    hide Inv, Fetched, ValidSetup;
    FetchedKeeps(o, s);
  }

  lemma MovesOn(o: Setup, s: Query)
    requires s.running && s.moving > 0
    ensures LegalRun(o, s, [MoveDone]) && Reached(o, s, [MoveDone]) == Moved(o, s)
    ensures Moved(o, s).result == s.result + 1
  {
    assert [MoveDone][1..] == [];
  }

  lemma AtEndIsCut(o: Setup, s: Query, data: seq<Row>)
    requires AtEnd(o, s, data)
    ensures s.shown == Table(o.results[s.result]) <==> s.batchRowIndex == |data|
  {
    HasBatch(o, s);
    WholeWhenConsumed(o, s);
  }

  /**
   * Resumed before it has moved on, a query cut short in the last batch dispatches the rest, and
   * shows the result whole exactly when no listener pauses it again too early; but unless it is
   * left paused, a second move is then under way.
   */
  lemma ResumeBeforeTheMove(o: Setup, s: Query, data: seq<Row>)
    requires ValidSetup(o) && AtEnd(o, s, data) && s.paused
    ensures (var t := Resumed(o, s);
             && AtEnd(o, t.(moving := 1), data) && t.result == s.result && t.moving == (if t.paused then 1 else 2)
             && (t.shown == Table(o.results[s.result])
                 <==> s.batchRowIndex == |data|
                      || NoEarlyPause(o, |s.emitted|, |data| - s.batchRowIndex, o.results[s.result].columns + 1)))
  {
    hide Reading, Output, DispatchRows, Table, NoEarlyPause, ValidSetup;
    HasBatch(o, s);
    var u := s.(paused := false);
    DispatchRowsKeeps(o, u, data);
    BatchWidth(o, s.result, s.fetched - 1);
    WholeBatchExactlyWhen(o, u, data, o.results[s.result].columns + 1);
    var t := DispatchRows(o, u, data);
    HasBatch(o, t);
    WholeWhenConsumed(o, t);
  }

  /** Two moves under way: the second passes on the result after as empty. */
  lemma SecondMoveSkips(o: Setup, s: Query)
    requires s.running && s.moving == 2 && s.result + 1 < |o.results|
    ensures LegalRun(o, s, [MoveDone, MoveDone])
    ensures Reached(o, s, [MoveDone, MoveDone]).completed == s.completed + [s.rows] + [[]]
    ensures Reached(o, s, [MoveDone, MoveDone]).result == s.result + 2
  {
    assert [MoveDone, MoveDone][1..] == [MoveDone];
    MovesOn(o, Moved(o, s));
  }

  // ---------------------------------------------------------------- the result that follows

  /**
   * Paused once a result has been announced, the query does not fetch; resumed, it acts on the
   * flags of the batch before and moves on again: the result is passed on empty, and all it
   * emits is its columns.
   */
  lemma PausedResultIsSkipped(o: Setup, s: Query)
    requires ValidSetup(o) && Inv(o, s) && s.running && s.moving > 0 && s.result + 1 < |o.results| && Moved(o, s).paused
    ensures (var t, actions := Moved(o, s), [Resume, MoveDone];
             && LegalRun(o, t, actions) && OrderlyUntil(o, t, actions, s.result + 1)
             && (var u := Reached(o, t, actions);
                 && u.result == s.result + 2 && u.completed == s.completed + [s.rows] + [[]]
                 && (u.emitted == t.emitted || exists c :: u.emitted == t.emitted + [Meta(c)])))
    ensures Moved(o, s).emitted == s.emitted + [Meta(o.results[s.result + 1].columns)]
  {
    hide Reading, Output, Passed, ValidSetup;
    SomeBatch(o, s.result);
    HasBatch(o, s);
    var t, actions := Moved(o, s), [Resume, MoveDone];
    assert t.fetching == 0 && t.moving == 0;
    assert DispatchRows(o, t.(paused := false), t.batchData.value.data) == t.(paused := false);
    assert Resumed(o, t) == t.(paused := false, moving := 1);
    assert actions[1..] == [MoveDone] && actions[1..][1..] == [];
  }

  lemma SkippedIsNotWhole(o: Setup, s: Query, emitted: seq<Event>)
    requires ValidSetup(o) && Inv(o, s) && s.running && s.moving > 0 && s.result + 1 < |o.results|
    requires Table(o.results[s.result + 1]) != []
    requires (var announced := s.emitted + [Meta(o.results[s.result + 1].columns)];
              emitted == announced || exists c :: emitted == announced + [Meta(c)])
    ensures !(Ideal(o.results[..s.result + 2]) <= emitted)
  {
    hide Reading, Output, Waiting, Passed, Table, Ideal, RowCount, ValidSetup;
    ResultDone(o, s);
    var announced := s.emitted + [Meta(o.results[s.result + 1].columns)];
    assert TableEvents(RowCount(o.results[..s.result + 1]), []) == [] && announced + [] == announced;
    RowsAreMissing(o, s.result + 1, [], emitted);
  }

  /**
   * A result with rows is passed on whole, and its rows emitted, by every run that is orderly up
   * to there exactly when no pause is in force as the query moves on to it and no listener of
   * its columns pauses.
   */
  lemma NextResultIsReadExactlyWhen(o: Setup, s: Query)
    requires ValidSetup(o) && Inv(o, s) && s.running && s.moving > 0 && s.result + 1 < |o.results|
    requires Table(o.results[s.result + 1]) != []
    ensures (forall actions | LegalRun(o, Moved(o, s), actions) && OrderlyUntil(o, Moved(o, s), actions, s.result + 1)
                              && Reached(o, Moved(o, s), actions).result > s.result + 1 ::
               ReadWhole(o, Reached(o, Moved(o, s), actions), s.result + 1))
            <==> !s.paused && !o.pauses(|s.emitted|)
  {
    hide Inv, Moved, ReadWhole, Table, ValidSetup, Ideal, LegalRun, OrderlyUntil, Reached;
    MovedPauses(o, s);
    var t := Moved(o, s);
    if t.paused {
      PausedResultIsSkipped(o, s);
      SkippedIsNotWhole(o, s, Reached(o, t, [Resume, MoveDone]).emitted);
      WholeEmits(o, Reached(o, t, [Resume, MoveDone]), s.result + 1);
    } else {
      MovedKeeps(o, s);
      forall actions | LegalRun(o, t, actions) && OrderlyUntil(o, t, actions, s.result + 1)
                       && Reached(o, t, actions).result > s.result + 1
        ensures ReadWhole(o, Reached(o, t, actions), s.result + 1)
      {
        OrderlyResultIsWhole(o, t, actions, s.result + 1);
      }
    }
  }

  lemma WholeEmits(o: Setup, s: Query, k: nat)
    requires k < |o.results|
    ensures ReadWhole(o, s, k) ==> Ideal(o.results[..k + 1]) <= s.emitted
  {
  }

  lemma MovedPauses(o: Setup, s: Query)
    requires s.running && s.moving > 0 && s.result + 1 < |o.results|
    ensures Moved(o, s).paused <==> s.paused || o.pauses(|s.emitted|)
    ensures Moved(o, s).running && Moved(o, s).result == s.result + 1
  {
  }

  lemma SomeBatch(o: Setup, result: nat)
    requires ValidSetup(o) && result < |o.results|
    ensures o.results[result].batches != []
  {
    assert ValidResult(o.results[result]);
  }
}
