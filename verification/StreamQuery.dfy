/**
 * The Query object of lib/reader.js: fields updated in place while batches are dispatched.
 * Each method takes the state to what the step of the same name in StreamModel says.
 */
module StreamQuery {
  import opened StreamModel
  import opened StreamRuns
  import opened Wrappers

  class Query {
    const setup: Setup

    var rows: seq<Row>
    var queryRowIndex: nat
    var batchRowIndex: nat
    var batchData: Option<Batch>
    var running: bool
    var paused: bool

    // the native statement and the calls under way on it
    var fetching: nat
    var moving: nat
    var result: nat
    var fetched: nat

    // what listeners and the query handler are given
    var emitted: seq<Event>
    var completed: seq<seq<Row>>
    ghost var shown: seq<Row>

    ghost function State(): StreamModel.Query
      reads this
    {
      StreamModel.Query(rows, queryRowIndex, batchRowIndex, batchData, running, paused, fetching, moving,
                        result, fetched, emitted, completed, shown)
    }

    /** begin, once the first result's columns are known. */
    constructor (setup: Setup)
      requires ValidSetup(setup)
      ensures this.setup == setup && State() == Started(setup)
    {
      this.setup := setup;
      rows, queryRowIndex, batchRowIndex, batchData := [], 0, 0, None;
      running, paused, fetching, moving, result, fetched := true, setup.startPaused, 0, 0, 0, 0;
      emitted, completed, shown := [], [], [];
      new;
      Emit(Meta(setup.results[0].columns));
      Dispatch();
    }

    /** notify.emit, with the pause its handler may ask for. */
    method Emit(e: Event)
      modifies this
      ensures State() == StreamModel.Emit(setup, old(State()), e)
    {
      var pauses := setup.pauses(|emitted|);
      emitted := emitted + [e];
      if pauses {
        Pause();
      }
    }

    method Pause()
      modifies this
      ensures State() == Paused(old(State()))
    {
      if paused {
        return;
      }
      paused := true;
    }

    method Store(v: Value)
      modifies this
      ensures State() == StreamModel.Store(setup, old(State()), v)
    {
      if setup.callback && rows != [] {
        rows := rows[|rows| - 1 := rows[|rows| - 1] + [v]];
      }
    }

    method DispatchRow(driverRow: Row)
      modifies this
      ensures State() == StreamModel.DispatchRow(setup, old(State()), driverRow, 0)
    {
      for column := 0 to |driverRow|
        invariant StreamModel.DispatchRow(setup, State(), driverRow, column)
               == StreamModel.DispatchRow(setup, old(State()), driverRow, 0)
      {
        Store(driverRow[column]);
        Emit(Column(column, driverRow[column]));
      }
    }

    method GetRow()
      modifies this
      ensures State() == StreamModel.GetRow(setup, old(State()))
    {
      batchRowIndex := batchRowIndex + 1;
      queryRowIndex := queryRowIndex + 1;
      if setup.callback {
        rows := rows + [[]];
      }
    }

    method RowTurn(driverRow: Row)
      modifies this
      ensures State() == StreamModel.RowTurn(setup, old(State()), driverRow)
    {
      Emit(RowEvent(queryRowIndex));
      GetRow();
      DispatchRowKeepsShown(setup, State(), driverRow, 0);
      DispatchRow(driverRow);
      shown := shown + [driverRow];
    }

    method DispatchRows(data: seq<Row>)
      modifies this
      ensures State() == StreamModel.DispatchRows(setup, old(State()), data)
    {
      while !paused && batchRowIndex < |data|
        invariant StreamModel.DispatchRows(setup, State(), data) == StreamModel.DispatchRows(setup, old(State()), data)
        decreases |data| - batchRowIndex
      {
        RowTurnEffect(setup, State(), data[batchRowIndex]);
        RowTurn(data[batchRowIndex]);
      }
    }

    method Dispatch()
      modifies this
      ensures State() == StreamModel.Dispatch(old(State()))
    {
      if !running {
        return;
      }
      if paused {
        return;
      }
      fetching := fetching + 1;
    }

    /** The native driver hands over the next batch. */
    method Receive() returns (d: Batch)
      requires CanFetch(setup, State())
      modifies this
      ensures d == Delivered(setup, old(result), old(fetched)) && State() == Received(setup, old(State()))
    {
      d := Delivered(setup, result, fetched);
      fetched := fetched + 1;
      fetching := fetching - 1;
      batchRowIndex := 0;
      batchData := Some(d);
    }

    /** The continuation of dispatch once the fetch has answered. */
    method OnFetched()
      requires CanFetch(setup, State())
      modifies this
      ensures State() == Fetched(setup, old(State()))
    {
      var d := Receive();
      DispatchRows(d.data);
      if !d.endOfRows {
        Dispatch();
      } else {
        moving := moving + 1;
      }
    }

    /** The finished result is handed on, and the native statement moved. */
    method FinishResult()
      modifies this
      ensures State() == old(State()).(completed := old(completed) + [old(rows)], rows := [], shown := [],
                                       result := old(result) + 1, fetched := 0)
    {
      completed := completed + [rows];
      rows, shown := [], [];
      result, fetched := result + 1, 0;
    }

    method MoveToNextResult()
      requires moving > 0
      modifies this
      ensures State() == Moved(setup, old(State()))
    {
      moving := moving - 1;
      if !running {
        return;
      }
      FinishResult();
      if result >= |setup.results| {
        running := false;
      } else {
        Emit(Meta(setup.results[result].columns));
        Dispatch();
      }
    }

    method Resume()
      modifies this
      ensures State() == Resumed(setup, old(State()))
    {
      if !paused {
        return;
      }
      paused := false;
      if batchData.Some? {
        DispatchRows(batchData.value.data);
      }
      ResumedKeepsBatch(setup, old(State()));
      if paused {
        return;
      }
      if batchData.Some? && batchData.value.endOfRows && batchRowIndex >= |batchData.value.data| {
        moving := moving + 1;
      } else {
        Dispatch();
      }
    }

    method Handle(a: Action)
      requires Enabled(setup, State(), a)
      modifies this
      ensures State() == Step(setup, old(State()), a)
    {
      match a {
        case FetchDone => OnFetched();
        case MoveDone => MoveToNextResult();
        case Pause => Pause();
        case Resume => Resume();
      }
    }

    /** Any orderly run of the object keeps the invariant, and is the run of the model. */
    method Play(actions: seq<Action>)
      requires ValidSetup(setup) && Inv(setup, State()) && OrderlyRun(setup, State(), actions)
      modifies this
      ensures State() == Run(setup, old(State()), actions) && Inv(setup, State())
    {
      hide Inv, Step, Orderly, Enabled, ValidSetup;
      ghost var s := State();
      for i := 0 to |actions|
        invariant Inv(setup, State()) && OrderlyRun(setup, State(), actions[i..])
        invariant Run(setup, State(), actions[i..]) == Run(setup, s, actions)
      {
        assert actions[i..][0] == actions[i] && actions[i..][1..] == actions[i + 1..];
        StepKeepsInv(setup, State(), actions[i]);
        Handle(actions[i]);
      }
    }
  }

  lemma {:induction false} DispatchRowKeepsShown(o: Setup, s: StreamModel.Query, row: Row, c: nat)
    requires c <= |row|
    ensures DispatchRow(o, s, row, c).shown == s.shown
    decreases |row| - c
  {
    if c < |row| {
      DispatchRowKeepsShown(o, Emit(o, Store(o, s, row[c]), Column(c, row[c])), row, c + 1);
    }
  }

  /** Dispatching leaves the batch as it is. */
  lemma ResumedKeepsBatch(o: Setup, s: StreamModel.Query)
    ensures s.batchData.Some? ==>
              DispatchRows(o, s.(paused := false), s.batchData.value.data).batchData == s.batchData
  {
    if s.batchData.Some? { DispatchKeepsBatch(o, s.(paused := false), s.batchData.value.data); }
  }

  lemma {:induction false} DispatchKeepsBatch(o: Setup, s: StreamModel.Query, data: seq<Row>)
    ensures DispatchRows(o, s, data).batchData == s.batchData
    decreases |data| - s.batchRowIndex
  {
    if !s.paused && s.batchRowIndex < |data| {
      RowTurnEffect(o, s, data[s.batchRowIndex]);
      DispatchKeepsBatch(o, RowTurn(o, s, data[s.batchRowIndex]), data);
    }
  }
}
