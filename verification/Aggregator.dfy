/**
 * Materialised results of lib/query-aggregator.js in raw mode, fed by the events of a query.
 */
module Aggregator {
  import S = StreamModel
  import R = StreamRuns
  import opened Wrappers

  type Value = S.Value

  /** What a raw row array can hold: newRow starts one with the number of columns in it. */
  datatype Cell = Hole | Count(columns: nat) | Cell(value: Value)

  /** The fields of AggregatorResults these events reach. */
  datatype Results = Results(meta: seq<nat>, results: seq<seq<seq<Cell>>>, row: Option<seq<Cell>>, rows: nat)

  const EMPTY := Results([], [], None, 0)

  /** row[c] = v of a JavaScript array. */
  function Assigned(row: seq<Cell>, c: nat, v: Value): seq<Cell> {
    if c < |row| then row[c := Cell(v)] else row + seq(c - |row|, _ => Hole) + [Cell(v)]
  }

  /** One event; None where the source throws. */
  function Fed(a: Results, e: S.Event): Option<Results> {
    match e
    case Meta(columns) => Some(a.(meta := a.meta + [columns], results := a.results + [[]]))
    case RowEvent(_) =>
      if a.meta == [] then None
      else Some(a.(rows := a.rows + 1, row := Some([Count(a.meta[|a.meta| - 1])])))
    case Column(c, v) =>
      if a.meta == [] || a.results == [] || a.row.None? then None
      else
        var row := Assigned(a.row.value, c, v);
        var n := |a.results| - 1;
        Some(a.(row := Some(row),
                results := if c + 1 == a.meta[|a.meta| - 1] then a.results[n := a.results[n] + [row]] else a.results))
  }

  function FedAll(a: Results, es: seq<S.Event>): Option<Results> {
    if es == [] then Some(a)
    else
      var before := FedAll(a, es[..|es| - 1]);
      if before.None? then None else Fed(before.value, es[|es| - 1])
  }

  class AggregatorResults {
    var meta: seq<nat>
    var results: seq<seq<seq<Cell>>>
    var row: Option<seq<Cell>>
    var rows: nat

    ghost function State(): Results
      reads this
    {
      Results(meta, results, row, rows)
    }

    constructor ()
      ensures State() == EMPTY
    {
      meta, results, row, rows := [], [], None, 0;
    }

    method OnMeta(columns: nat)
      modifies this
      ensures Fed(old(State()), S.Meta(columns)) == Some(State())
    {
      meta := meta + [columns];
      results := results + [[]];
    }

    method NewRow() returns (r: seq<Cell>)
      requires meta != []
      ensures r == [Count(meta[|meta| - 1])]
    {
      var resultId := |meta| - 1;
      r := [Count(meta[resultId])];
    }

    method OnRow(index: nat)
      requires meta != []
      modifies this
      ensures Fed(old(State()), S.RowEvent(index)) == Some(State())
    {
      rows := rows + 1;
      var r := NewRow();
      row := Some(r);
    }

    method OnColumn(c: nat, v: Value)
      requires meta != [] && |results| == |meta| && row.Some?
      modifies this
      ensures Fed(old(State()), S.Column(c, v)) == Some(State())
    {
      var resultId := |meta| - 1;
      var changed := Assigned(row.value, c, v);
      row := Some(changed);
      if c + 1 == meta[resultId] {
        results := results[resultId := results[resultId] + [changed]];
      }
    }

    /** Feeds events that none of the handlers throws on. */
    method Listen(es: seq<S.Event>)
      requires FedAll(State(), es).Some? && |results| == |meta|
      modifies this
      ensures FedAll(old(State()), es) == Some(State())
    {
      ghost var start := State();
      for i := 0 to |es|
        invariant FedAll(start, es[..i]) == Some(State()) && |results| == |meta|
      {
        PrefixFed(start, es, i + 1);
        assert es[..i + 1][..i] == es[..i];
        match es[i] {
          case Meta(columns) => OnMeta(columns);
          case RowEvent(index) => OnRow(index);
          case Column(c, v) => OnColumn(c, v);
        }
      }
      assert es[..|es|] == es;
    }
  }

  lemma {:induction false} PrefixFed(a: Results, es: seq<S.Event>, i: nat)
    requires i <= |es| && FedAll(a, es).Some?
    ensures FedAll(a, es[..i]).Some?
  {
    if i == |es| {
      assert es[..i] == es;
    } else {
      PrefixFed(a, es[..|es| - 1], i);
      assert es[..|es| - 1][..i] == es[..i];
    }
  }

  // ---------------------------------------------------------------- feeding whole rows and results

  function Cells(row: S.Row): (cells: seq<Cell>)
    ensures |cells| == |row|
  {
    seq(|row|, i requires 0 <= i < |row| => Cell(row[i]))
  }

  function CellTable(rows: seq<S.Row>): (table: seq<seq<Cell>>)
    ensures |table| == |rows|
  {
    seq(|rows|, i requires 0 <= i < |rows| => Cells(rows[i]))
  }

  lemma {:induction false} FedConcat(a: Results, front: seq<S.Event>, back: seq<S.Event>)
    requires FedAll(a, front).Some?
    ensures FedAll(a, front + back) == FedAll(FedAll(a, front).value, back)
  {
    if back == [] {
      assert front + back == front;
    } else {
      var all := front + back;
      assert all[..|all| - 1] == front + back[..|back| - 1];
      FedConcat(a, front, back[..|back| - 1]);
    }
  }

  lemma FedOne(a: Results, e: S.Event)
    ensures FedAll(a, [e]) == Fed(a, e)
  {
    assert [e][..0] == [];
    assert FedAll(a, []) == Some(a);
  }

  /** A result is being read, with that many columns. */
  predicate Ready(a: Results, columns: nat) {
    a.meta != [] && |a.results| == |a.meta| && a.meta[|a.meta| - 1] == columns > 0
  }

  function WithRow(a: Results, row: seq<Cell>): Results
    requires a.results != []
  {
    var n := |a.results| - 1;
    a.(results := a.results[n := a.results[n] + [row]])
  }

  /** Columns in turn overwrite the number newRow put in the array, and complete the row once. */
  lemma {:induction false} ColumnsFed(a: Results, row: S.Row, columns: nat)
    requires Ready(a, columns) && a.row == Some([Count(columns)]) && 0 < |row| <= columns
    ensures (var done := a.(row := Some(Cells(row)));
             FedAll(a, S.ColumnEvents(row)) == Some(if |row| == columns then WithRow(done, Cells(row)) else done))
  {
    var n := |row| - 1;
    var front := row[..n];
    var es := S.ColumnEvents(row);
    assert es[..|es| - 1] == S.ColumnEvents(front);
    if n == 0 {
      assert front == [] && FedAll(a, S.ColumnEvents(front)) == Some(a);
      assert Assigned([Count(columns)], 0, row[0]) == Cells(row);
    } else {
      ColumnsFed(a, front, columns);
      assert Assigned(Cells(front), n, row[n]) == Cells(row);
    }
  }

  /** The state once rows have been added to the last result, the last of them still in `row`. */
  function WithRows(a: Results, added: seq<seq<Cell>>, row: Option<seq<Cell>>): (r: Results)
    requires a.results != []
    ensures r.meta == a.meta && |r.results| == |a.results|
  {
    var n := |a.results| - 1;
    a.(rows := a.rows + |added|, row := row, results := a.results[n := a.results[n] + added])
  }

  lemma RowFed(a: Results, index: nat, row: S.Row, columns: nat)
    requires Ready(a, columns) && |row| == columns
    ensures FedAll(a, S.RowEvents(index, row)) == Some(WithRows(a, [Cells(row)], Some(Cells(row))))
  {
    hide S.ColumnEvents, FedAll;
    FedOne(a, S.RowEvent(index));
    FedConcat(a, [S.RowEvent(index)], S.ColumnEvents(row));
    var b := a.(rows := a.rows + 1, row := Some([Count(columns)]));
    ColumnsFed(b, row, columns);
  }

  lemma OneRowMore(a: Results, added: seq<seq<Cell>>, row: Option<seq<Cell>>, next: seq<Cell>)
    requires a.results != []
    ensures WithRows(WithRows(a, added, row), [next], Some(next)) == WithRows(a, added + [next], Some(next))
  {
    var n := |a.results| - 1;
    assert a.results[n] + added + [next] == a.results[n] + (added + [next]);
  }

  lemma NoRowMore(a: Results)
    requires a.results != []
    ensures WithRows(a, [], a.row) == a
  {
    var n := |a.results| - 1;
    assert a.results[n] + [] == a.results[n];
  }

  /** The rows of a result are appended to it, in order. */
  lemma {:induction false} TableFed(a: Results, base: nat, rows: seq<S.Row>, columns: nat)
    requires Ready(a, columns) && forall row | row in rows :: |row| == columns
    ensures FedAll(a, S.TableEvents(base, rows))
         == Some(WithRows(a, CellTable(rows), if rows == [] then a.row else Some(Cells(rows[|rows| - 1]))))
  {
    hide Fed, S.RowEvents, WithRows, WithRow, Cells;
    if rows == [] {
      NoRowMore(a);
    } else {
      var front, last := rows[..|rows| - 1], rows[|rows| - 1];
      TableFed(a, base, front, columns);
      NextRowFed(a, base, front, last, columns);
      assert CellTable(front) + [Cells(last)] == CellTable(rows);
    }
  }

  lemma NextRowFed(a: Results, base: nat, front: seq<S.Row>, last: S.Row, columns: nat)
    requires Ready(a, columns) && |last| == columns
    requires FedAll(a, S.TableEvents(base, front))
          == Some(WithRows(a, CellTable(front), if front == [] then a.row else Some(Cells(front[|front| - 1]))))
    ensures FedAll(a, S.TableEvents(base, front) + S.RowEvents(base + |front|, last))
         == Some(WithRows(a, CellTable(front) + [Cells(last)], Some(Cells(last))))
  {
    hide FedAll, S.TableEvents, S.RowEvents, WithRows, CellTable, Cells;
    var row := if front == [] then a.row else Some(Cells(front[|front| - 1]));
    FedConcat(a, S.TableEvents(base, front), S.RowEvents(base + |front|, last));
    RowFed(WithRows(a, CellTable(front), row), base + |front|, last, columns);
    OneRowMore(a, CellTable(front), row, Cells(last));
  }

  function CellTables(results: seq<S.ResultSet>): (tables: seq<seq<seq<Cell>>>)
    ensures |tables| == |results|
  {
    seq(|results|, k requires 0 <= k < |results| => CellTable(S.Table(results[k])))
  }

  lemma {:induction false} FlattenedWidth(batches: seq<seq<S.Row>>, columns: nat)
    requires forall b | b in batches :: forall row | row in b :: |row| == columns
    ensures forall row | row in R.Batches.Flatten(batches) :: |row| == columns
  {
    if batches != [] {
      var front := batches[..|batches| - 1];
      assert batches[|batches| - 1] in batches;
      assert forall b | b in front :: b in batches;
      FlattenedWidth(front, columns);
    }
  }

  /** The events of whole results build exactly their tables. */
  lemma {:induction false} IdealFed(results: seq<S.ResultSet>)
    requires forall r | r in results :: S.ValidResult(r)
    ensures (var a := FedAll(EMPTY, S.Ideal(results));
             a.Some? && |a.value.meta| == |results| && a.value.results == CellTables(results)
             && a.value.rows == S.RowCount(results))
  {
    if results != [] {
      var front, last := results[..|results| - 1], results[|results| - 1];
      IdealFed(front);
      ResultFed(front, last);
      assert CellTables(results) == CellTables(front) + [CellTable(S.Table(last))];
    }
  }

  lemma ResultFed(front: seq<S.ResultSet>, last: S.ResultSet)
    requires S.ValidResult(last)
    requires (var a := FedAll(EMPTY, S.Ideal(front));
              a.Some? && |a.value.meta| == |front| && a.value.results == CellTables(front)
              && a.value.rows == S.RowCount(front))
    ensures (var es := S.Ideal(front) + [S.Meta(last.columns)] + S.TableEvents(S.RowCount(front), S.Table(last));
             var a := FedAll(EMPTY, es);
             a.Some? && |a.value.meta| == |front| + 1
             && a.value.results == CellTables(front) + [CellTable(S.Table(last))]
             && a.value.rows == S.RowCount(front) + |S.Table(last)|)
  {
    hide S.Ideal, S.TableEvents, S.RowCount, CellTable, CellTables, S.Table;
    var a := FedAll(EMPTY, S.Ideal(front)).value;
    FedOne(a, S.Meta(last.columns));
    FedConcat(EMPTY, S.Ideal(front), [S.Meta(last.columns)]);
    TableWidth(last);
    var b := Fed(a, S.Meta(last.columns)).value;
    TableFed(b, S.RowCount(front), S.Table(last), last.columns);
    FedConcat(EMPTY, S.Ideal(front) + [S.Meta(last.columns)], S.TableEvents(S.RowCount(front), S.Table(last)));
    assert [] + CellTable(S.Table(last)) == CellTable(S.Table(last));
  }

  lemma TableWidth(r: S.ResultSet)
    requires S.ValidResult(r)
    ensures forall row | row in S.Table(r) :: |row| == r.columns
  {
    FlattenedWidth(r.batches, r.columns);
  }

  /**
   * Streaming refines materialising: for every batching and schedule of pauses, a finished
   * orderly run has fed the aggregator exactly the concatenated batches of every result.
   */
  lemma StreamedResultsAreTheTables(o: S.Setup, actions: seq<S.Action>)
    requires S.ValidSetup(o) && R.OrderlyRun(o, S.Started(o), actions)
    requires !R.Run(o, S.Started(o), actions).running
    ensures (var a := FedAll(EMPTY, R.Run(o, S.Started(o), actions).emitted);
             a.Some? && a.value.results == CellTables(o.results) && a.value.rows == S.RowCount(o.results))
  {
    R.FinishedRunIsComplete(o, actions);
    IdealFed(o.results);
  }
}
