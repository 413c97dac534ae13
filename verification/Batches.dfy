/**
 * Bulk operations of lib/table-bulk-op-mgr.js: rows are split into batches, and each batch
 * is turned into one vector of values per column.
 *
 * A row is an object with properties; a property that is missing is sent as null.
 */
module Batches {
  import opened Arithmetic

  datatype Value = Null | Val(content: int)
  type Row = map<string, Value>

  /** A TableTypedParam, or the bare vector where column types are not used. */
  datatype Param = Param(name: string, typed: bool, value: seq<Value>)

  function Flatten<T>(xss: seq<seq<T>>): seq<T> {
    if xss == [] then [] else Flatten(xss[..|xss| - 1]) + xss[|xss| - 1]
  }

  // ---------------------------------------------------------------- what the operations should give

  /** The batches of `rows`: full ones, then one that holds what is left. */
  predicate Split<T(==)>(batches: seq<seq<T>>, rows: seq<T>, size: nat) {
    && Flatten(batches) == rows
    && (forall k | 0 <= k < |batches| - 1 :: |batches[k]| == size)
    && (batches != [] ==> 1 <= |batches[|batches| - 1]| <= size)
  }

  function Property(row: Row, name: string): Value {
    if name in row then row[name] else Null
  }

  /** A column of the rows, one value a row. */
  function Column(rows: seq<Row>, name: string): (column: seq<Value>)
    ensures |column| == |rows|
  {
    seq(|rows|, i requires 0 <= i < |rows| => Property(rows[i], name))
  }

  function Repeated(v: Value, times: nat): seq<Value> {
    seq(times, _ => v)
  }

  /** A vector every row has been pushed to `times` times. */
  function Stacked(rows: seq<Row>, name: string, times: nat): seq<Value> {
    if rows == [] then []
    else Stacked(rows[..|rows| - 1], name, times) + Repeated(Property(rows[|rows| - 1], name), times)
  }

  function Occurrences(names: seq<string>, name: string): nat {
    if names == [] then 0
    else Occurrences(names[..|names| - 1], name) + if names[|names| - 1] == name then 1 else 0
  }

  predicate Distinct(names: seq<string>) {
    forall i, j | 0 <= i < j < |names| :: names[i] != names[j]
  }

  // ---------------------------------------------------------------- laws of transposing and batching

  /** A column name used once gives the column. */
  lemma {:induction false} StackedOnce(rows: seq<Row>, name: string)
    ensures Stacked(rows, name, 1) == Column(rows, name)
  {
    if rows != [] { StackedOnce(rows[..|rows| - 1], name); }
  }

  /** A vector is the column exactly when its name is used once, or there are no rows. */
  lemma StackedIsColumnExactlyWhen(rows: seq<Row>, name: string, times: nat)
    ensures Stacked(rows, name, times) == Column(rows, name) <==> times == 1 || rows == []
  {
    StackedLength(rows, name, times);
    StackedOnce(rows, name);
    if rows != [] && times != 1 { NotOnce(|rows|, times); }
  }

  lemma NotOnce(n: nat, times: nat)
    requires n > 0 && times != 1
    ensures n * times != n
  {
    if times > 1 { assert n * times == n * (times - 1) + n && n * (times - 1) >= n; }
  }

  lemma {:induction false} StackedLength(rows: seq<Row>, name: string, times: nat)
    ensures |Stacked(rows, name, times)| == |rows| * times
  {
    if rows != [] {
      StackedLength(rows[..|rows| - 1], name, times);
      OneMore(|rows| - 1, times);
    }
  }

  lemma OneMore(n: int, times: nat)
    ensures (n + 1) * times == n * times + times
  {
  }

  lemma {:induction false} StackedConcat(front: seq<Row>, back: seq<Row>, name: string, times: nat)
    ensures Stacked(front + back, name, times) == Stacked(front, name, times) + Stacked(back, name, times)
  {
    if back == [] {
      assert front + back == front;
    } else {
      var rows := front + back;
      assert rows[..|rows| - 1] == front + back[..|back| - 1];
      StackedConcat(front, back[..|back| - 1], name, times);
    }
  }

  function StackedEach(batches: seq<seq<Row>>, name: string, times: nat): (vectors: seq<seq<Value>>)
    ensures |vectors| == |batches|
  {
    seq(|batches|, k requires 0 <= k < |batches| => Stacked(batches[k], name, times))
  }

  /** Transposing each batch and joining the vectors is transposing everything. */
  lemma {:induction false} TransposingCommutes(batches: seq<seq<Row>>, name: string, times: nat)
    ensures Flatten(StackedEach(batches, name, times)) == Stacked(Flatten(batches), name, times)
  {
    if batches != [] {
      var front := batches[..|batches| - 1];
      TransposingCommutes(front, name, times);
      StackedConcat(Flatten(front), batches[|batches| - 1], name, times);
      var vectors := StackedEach(batches, name, times);
      assert vectors[..|vectors| - 1] == StackedEach(front, name, times);
    }
  }

  lemma {:induction false} OccursOnce(names: seq<string>, name: string)
    requires Distinct(names)
    ensures Occurrences(names, name) == if name in names then 1 else 0
  {
    if names != [] {
      var front := names[..|names| - 1];
      OccursOnce(front, name);
      assert names == front + [names[|names| - 1]];
    }
  }

  /** Two splits of the same rows into batches of the same size are the same. */
  lemma {:induction false} SplitIsUnique<T>(a: seq<seq<T>>, b: seq<seq<T>>, rows: seq<T>, size: nat)
    requires Split(a, rows, size) && Split(b, rows, size)
    ensures a == b
  {
    SplitLength(a, size);
    SplitLength(b, size);
    if a != [] {
      var m, n := |a|, |b|;
      SameCount(m - 1, |a[m - 1]|, n - 1, |b[n - 1]|, size);
      var front := a[..m - 1];
      assert Flatten(front) == rows[..|rows| - |a[m - 1]|] == Flatten(b[..n - 1]);
      assert m >= 2 ==> |front[m - 2]| == size && |b[..n - 1][m - 2]| == size;
      SplitIsUnique(front, b[..n - 1], Flatten(front), size);
    }
  }

  lemma {:induction false} SplitLength<T>(a: seq<seq<T>>, size: nat)
    requires forall k | 0 <= k < |a| - 1 :: |a[k]| == size
    requires a != [] ==> 1 <= |a[|a| - 1]| <= size
    ensures a != [] ==> |Flatten(a)| == (|a| - 1) * size + |a[|a| - 1]|
  {
    if |a| > 1 {
      var front := a[..|a| - 1];
      SplitLength(front, size);
      assert (|a| - 2) * size + size == (|a| - 1) * size;
    }
  }

  lemma Further(m: int, n: int, size: nat)
    requires m < n
    ensures n * size >= m * size + size
    decreases n - m
  {
    var d := n - m;
    assert n * size == m * size + d * size;
    if d > 1 { Further(m, n - 1, size); } else { assert d == 1; }
  }

  lemma SameCount(m: nat, x: nat, n: nat, y: nat, size: nat)
    requires 1 <= x <= size && 1 <= y <= size && m * size + x == n * size + y
    ensures m == n && x == y
  {
    if m < n { Further(m, n, size); }
    if n < m { Further(n, m, size); }
  }

  // ---------------------------------------------------------------- adding a row to the batches

  lemma Remainder(x: int, n: int, q: int, r: int)
    requires n > 0 && 0 <= r < n && x == q * n + r
    ensures x % n == r
  {
    var k, s := x / n - q, x % n;
    assert x == x / n * n + s;
    assert k * n == r - s;
    if k >= 1 { Further(0, k, n); }
    if k <= -1 { Further(k, 0, n); }
  }

  /** JavaScript's remainder and the divisor's absolute value agree on divisibility. */
  lemma SameDivisibility(x: nat, n: int)
    requires n != 0
    ensures x % n == x % Abs(n)
  {
    if n < 0 {
      var q, r := x / n, x % n;
      assert x == q * n + r == (-q) * Abs(n) + r;
      Remainder(x, Abs(n), -q, r);
    }
  }

  /** The last batch is full exactly when the number of rows so far is divisible by the size. */
  lemma LastIsFull(m: nat, last: nat, size: nat)
    requires 1 <= last <= size
    ensures (m * size + last) % size == 0 <==> last == size
  {
    if last == size {
      assert m * size + last == (m + 1) * size + 0;
      Remainder(m * size + last, size, m + 1, 0);
    } else {
      Remainder(m * size + last, size, m, last);
    }
  }

  lemma NextRow<T>(batches: seq<seq<T>>, done: seq<T>, x: T, batch: int)
    requires batch != 0 && Split(batches, done, Abs(batch))
    ensures |done| % batch != 0 ==> batches != []
    ensures (var open := if |done| % batch == 0 then batches + [[]] else batches;
             Split(open[|open| - 1 := open[|open| - 1] + [x]], done + [x], Abs(batch)))
  {
    var size := Abs(batch);
    SameDivisibility(|done|, batch);
    if batches == [] {
      assert |done| == 0 == 0 * size + 0;
      Remainder(0, size, 0, 0);
      assert [[x]][..0] == [];
    } else {
      var n := |batches|;
      SplitLength(batches, size);
      LastIsFull(n - 1, |batches[n - 1]|, size);
      if |done| % batch == 0 {
        assert (batches + [[x]])[..n] == batches;
      } else {
        var grown := batches[n - 1 := batches[n - 1] + [x]];
        assert grown[..n - 1] == batches[..n - 1];
      }
    }
  }

  // ---------------------------------------------------------------- the parameters of a statement

  /** The columns asked for that rows can be assigned. */
  function Kept(cols: seq<string>, names: seq<string>): (kept: seq<string>)
    ensures forall name | name in kept :: name in names
  {
    if cols == [] then []
    else Kept(cols[..|cols| - 1], names) + (if cols[|cols| - 1] in names then [cols[|cols| - 1]] else [])
  }

  function Params(rows: seq<Row>, cols: seq<string>, names: seq<string>, typed: bool): (params: seq<Param>)
    ensures |params| == |Kept(cols, names)|
    ensures forall j | 0 <= j < |params| ::
              (var name := Kept(cols, names)[j];
               params[j] == Param(name, typed, Stacked(rows, name, Occurrences(names, name))))
  {
    var kept := Kept(cols, names);
    seq(|kept|, j requires 0 <= j < |kept| =>
      Param(kept[j], typed, Stacked(rows, kept[j], Occurrences(names, kept[j]))))
  }

  /** Positions that rise, each that of an assignable name, and none of these left out. */
  predicate Standing(places: seq<nat>, cols: seq<string>, names: seq<string>) {
    && (forall j | 0 <= j < |places| :: places[j] < |cols| && cols[places[j]] in names)
    && (forall i, j | 0 <= i < j < |places| :: places[i] < places[j])
    && (forall i | 0 <= i < |cols| && cols[i] in names :: i in places)
  }

  /** The names kept stand in the order asked for, and every assignable one is among them. */
  lemma {:induction false} KeptInOrder(cols: seq<string>, names: seq<string>) returns (places: seq<nat>)
    ensures Standing(places, cols, names)
    ensures |places| == |Kept(cols, names)|
    ensures forall j | 0 <= j < |places| :: cols[places[j]] == Kept(cols, names)[j]
  {
    if cols == [] {
      places := [];
    } else {
      hide Standing;
      var n := |cols| - 1;
      var front := KeptInOrder(cols[..n], names);
      places := front + if cols[n] in names then [n] else [];
      OneMoreStands(front, cols, names);
    }
  }

  lemma OneMoreStands(front: seq<nat>, cols: seq<string>, names: seq<string>)
    requires cols != [] && Standing(front, cols[..|cols| - 1], names)
    ensures Standing(front + (if cols[|cols| - 1] in names then [|cols| - 1] else []), cols, names)
    ensures forall j | 0 <= j < |front| :: front[j] < |cols| - 1
  {
    var n := |cols| - 1;
    var places := front + if cols[n] in names then [n] else [];
    forall i | 0 <= i < |cols| && cols[i] in names ensures i in places {
      if i < n {
        assert cols[..n][i] == cols[i] && i in front;
      } else {
        assert places[|front|] == n;
      }
    }
  }

  lemma {:induction false} KeptAll(cols: seq<string>, names: seq<string>)
    requires forall c | c in cols :: c in names
    ensures Kept(cols, names) == cols
  {
    if cols != [] {
      var front, last := cols[..|cols| - 1], cols[|cols| - 1];
      assert cols == front + [last] && last in cols;
      KeptAll(front, names);
    }
  }

  /** Each parameter carries the value of every row, or null where the row has none. */
  predicate Carries(p: Param, rows: seq<Row>, typed: bool) {
    && p.typed == typed && |p.value| == |rows|
    && forall i | 0 <= i < |rows| :: p.value[i] == if p.name in rows[i] then rows[i][p.name] else Null
  }

  lemma ParamsInFull(rows: seq<Row>, cols: seq<string>, names: seq<string>, typed: bool)
    requires Distinct(names)
    ensures forall p | p in Params(rows, cols, names, typed) :: Carries(p, rows, typed)
  {
    var params := Params(rows, cols, names, typed);
    forall j | 0 <= j < |params| ensures Carries(params[j], rows, typed) {
      var name := Kept(cols, names)[j];
      OccursOnce(names, name);
      StackedOnce(rows, name);
    }
  }

  lemma ParamsAll(rows: seq<Row>, cols: seq<string>, names: seq<string>, typed: bool)
    requires forall c | c in cols :: c in names
    ensures |Params(rows, cols, names, typed)| == |cols|
    ensures forall k | 0 <= k < |cols| :: Params(rows, cols, names, typed)[k].name == cols[k]
  {
    KeptAll(cols, names);
  }

  lemma NoParams(rows: seq<Row>, names: seq<string>, typed: bool)
    ensures Params(rows, [], names, typed) == []
  {
  }

  lemma ParamsNext(rows: seq<Row>, cols: seq<string>, i: nat, names: seq<string>, typed: bool)
    requires i < |cols|
    ensures Params(rows, cols[..i + 1], names, typed)
         == Params(rows, cols[..i], names, typed)
            + if cols[i] in names
              then [Param(cols[i], typed, Stacked(rows, cols[i], Occurrences(names, cols[i])))] else []
  {
    hide Stacked, Occurrences;
    var more := cols[..i + 1];
    assert more[..i] == cols[..i] && more[i] == cols[i];
    assert Kept(more, names) == Kept(cols[..i], names) + if cols[i] in names then [cols[i]] else [];
  }

  /** The vectors sent for parameter j, one a statement. */
  function Vectors(sent: seq<seq<Param>>, j: nat): (vectors: seq<seq<Value>>)
    requires forall k | 0 <= k < |sent| :: j < |sent[k]|
    ensures |vectors| == |sent|
  {
    seq(|sent|, k requires 0 <= k < |sent| => sent[k][j].value)
  }

  lemma SentColumn(
    batches: seq<seq<Row>>, sent: seq<seq<Param>>, cols: seq<string>, names: seq<string>, typed: bool, j: nat)
    requires Distinct(names) && |sent| == |batches| && j < |Kept(cols, names)|
    requires forall k | 0 <= k < |sent| :: sent[k] == Params(batches[k], cols, names, typed)
    ensures forall k | 0 <= k < |sent| :: j < |sent[k]| && sent[k][j].name == Kept(cols, names)[j]
    ensures Flatten(Vectors(sent, j)) == Column(Flatten(batches), Kept(cols, names)[j])
  {
    var name := Kept(cols, names)[j];
    OccursOnce(names, name);
    assert Vectors(sent, j) == StackedEach(batches, name, 1);
    TransposingCommutes(batches, name, 1);
    StackedOnce(Flatten(batches), name);
  }

  lemma OccursNext(names: seq<string>, i: nat)
    requires i < |names|
    ensures forall name ::
              Occurrences(names[..i + 1], name) == Occurrences(names[..i], name) + if names[i] == name then 1 else 0
  {
    assert names[..i + 1][..i] == names[..i];
  }

  lemma OnePush(values: seq<Value>, v: Value, times: nat)
    ensures values + Repeated(v, times) + [v] == values + Repeated(v, times + 1)
  {
  }

  lemma NothingPushed(arrays: map<string, seq<Value>>, instance: Row)
    ensures forall name | name in arrays ::
              arrays[name] == arrays[name] + Repeated(Property(instance, name), Occurrences([], name))
  {
  }

  // ---------------------------------------------------------------- the manager

  class TableBulkOpMgr {
    const assignableColumnNames: seq<string>
    var batch: int
    var useMetaType: bool

    constructor (assignableColumnNames: seq<string>)
      ensures this.assignableColumnNames == assignableColumnNames && batch == 0 && useMetaType
    {
      this.assignableColumnNames := assignableColumnNames;
      batch, useMetaType := 0, true;
    }

    method SetBatchSize(batchSize: int)
      modifies this
      ensures batch == batchSize && useMetaType == old(useMetaType)
    {
      batch := batchSize;
    }

    /** A batch size of zero means one batch; a negative one acts as its absolute value. */
    method RowBatches<T(==)>(rows: seq<T>) returns (batches: seq<seq<T>>)
      ensures batch == 0 ==> batches == [rows]
      ensures batch != 0 ==> Split(batches, rows, Abs(batch))
      ensures Flatten(batches) == rows
    {
      batches := [];
      if batch == 0 {
        batches := [rows];
        assert batches[..0] == [];
      } else {
        for i := 0 to |rows|
          invariant Split(batches, rows[..i], Abs(batch))
        {
          assert rows[..i + 1] == rows[..i] + [rows[i]];
          NextRow(batches, rows[..i], rows[i], batch);
          if i % batch == 0 {
            batches := batches + [[]];
          }
          batches := batches[|batches| - 1 := batches[|batches| - 1] + [rows[i]]];
        }
        assert rows[..|rows|] == rows;
      }
    }

    /** prepare: an empty vector a name. */
    method Prepare() returns (arraysByName: map<string, seq<Value>>)
      ensures arraysByName.Keys == set name | name in assignableColumnNames
      ensures forall name | name in arraysByName :: arraysByName[name] == []
    {
      arraysByName := map[];
      for i := 0 to |assignableColumnNames|
        invariant arraysByName.Keys == set name | name in assignableColumnNames[..i]
        invariant forall name | name in arraysByName :: arraysByName[name] == []
      {
        assert assignableColumnNames[..i + 1] == assignableColumnNames[..i] + [assignableColumnNames[i]];
        arraysByName := arraysByName[assignableColumnNames[i] := []];
      }
      assert assignableColumnNames[..|assignableColumnNames|] == assignableColumnNames;
    }

    /** The value of every property is pushed to that property's vector. */
    method DeconstructToArrays(arrays: map<string, seq<Value>>, instance: Row) returns (r: map<string, seq<Value>>)
      requires forall name | name in assignableColumnNames :: name in arrays
      ensures r.Keys == arrays.Keys
      ensures forall name | name in r ::
                r[name] == arrays[name] + Repeated(Property(instance, name), Occurrences(assignableColumnNames, name))
    {
      hide Occurrences, Repeated;
      NothingPushed(arrays, instance);
      r := arrays;
      for i := 0 to |assignableColumnNames|
        invariant r.Keys == arrays.Keys
        invariant forall name | name in r ::
                    r[name] == arrays[name]
                               + Repeated(Property(instance, name), Occurrences(assignableColumnNames[..i], name))
      {
        var property := assignableColumnNames[i];
        var val := if property in instance then instance[property] else Null;
        OccursNext(assignableColumnNames, i);
        OnePush(arrays[property], val, Occurrences(assignableColumnNames[..i], property));
        r := r[property := r[property] + [val]];
      }
      assert assignableColumnNames[..|assignableColumnNames|] == assignableColumnNames;
    }

    method ArrayPerColumn(vec: seq<Row>) returns (arrays: map<string, seq<Value>>)
      ensures arrays.Keys == set name | name in assignableColumnNames
      ensures forall name | name in arrays ::
                arrays[name] == Stacked(vec, name, Occurrences(assignableColumnNames, name))
    {
      arrays := Prepare();
      for i := 0 to |vec|
        invariant arrays.Keys == set name | name in assignableColumnNames
        invariant forall name | name in arrays ::
                    arrays[name] == Stacked(vec[..i], name, Occurrences(assignableColumnNames, name))
      {
        assert vec[..i + 1][..i] == vec[..i];
        arrays := DeconstructToArrays(arrays, vec[i]);
      }
      assert vec[..|vec|] == vec;
    }

    /** Columns asked for that rows cannot be assigned are passed over. */
    method ArrayPerColumnForCols(rows: seq<Row>, cols: seq<string>) returns (params: seq<Param>)
      ensures params == Params(rows, cols, assignableColumnNames, useMetaType)
      ensures (forall c | c in cols :: c in assignableColumnNames) ==>
                |params| == |cols| && forall k | 0 <= k < |cols| :: params[k].name == cols[k]
      ensures Distinct(assignableColumnNames) ==> forall p | p in params :: Carries(p, rows, useMetaType)
    {
      hide Params, Kept, Stacked, Occurrences, Carries, Distinct;
      var data := ArrayPerColumn(rows);
      params := [];
      NoParams(rows, assignableColumnNames, useMetaType);
      for i := 0 to |cols|
        invariant params == Params(rows, cols[..i], assignableColumnNames, useMetaType)
      {
        ParamsNext(rows, cols, i, assignableColumnNames, useMetaType);
        if cols[i] in data {
          params := params + [Param(cols[i], useMetaType, data[cols[i]])];
        }
      }
      assert cols[..|cols|] == cols;
      if forall c | c in cols :: c in assignableColumnNames {
        ParamsAll(rows, cols, assignableColumnNames, useMetaType);
      }
      if Distinct(assignableColumnNames) { ParamsInFull(rows, cols, assignableColumnNames, useMetaType); }
    }

    /**
     * batchIterator: one statement a batch, in order, until one fails.  `succeeds` says how
     * the database answers.  When none fails, the vectors sent for a parameter join to its
     * whole column.
     */
    method BatchIterator(rows: seq<Row>, cols: seq<string>, succeeds: nat -> bool)
      returns (batches: seq<seq<Row>>, sent: seq<seq<Param>>, ok: bool)
      ensures Flatten(batches) == rows && (batch != 0 ==> Split(batches, rows, Abs(batch)))
      ensures |sent| <= |batches| && forall k | 0 <= k < |sent| ::
                sent[k] == Params(batches[k], cols, assignableColumnNames, useMetaType)
      ensures forall k | 0 <= k < |sent| - 1 :: succeeds(k)
      ensures if ok then |sent| == |batches| && (sent != [] ==> succeeds(|sent| - 1))
              else sent != [] && !succeeds(|sent| - 1)
      ensures ok && Distinct(assignableColumnNames) ==>
                forall j | 0 <= j < |Kept(cols, assignableColumnNames)| ::
                  (forall k | 0 <= k < |sent| ::
                     j < |sent[k]| && sent[k][j].name == Kept(cols, assignableColumnNames)[j])
                  && Flatten(Vectors(sent, j)) == Column(rows, Kept(cols, assignableColumnNames)[j])
    {
      batches := RowBatches(rows);
      sent, ok := [], true;
      for k := 0 to |batches|
        invariant |sent| == k
        invariant forall i | 0 <= i < k :: succeeds(i)
        invariant forall i | 0 <= i < k :: sent[i] == Params(batches[i], cols, assignableColumnNames, useMetaType)
      {
        var params := ArrayPerColumnForCols(batches[k], cols);
        sent := sent + [params];
        if !succeeds(k) {
          ok := false;
          return;
        }
      }
      if Distinct(assignableColumnNames) {
        forall j | 0 <= j < |Kept(cols, assignableColumnNames)|
          ensures forall k | 0 <= k < |sent| :: j < |sent[k]| && sent[k][j].name == Kept(cols, assignableColumnNames)[j]
          ensures Flatten(Vectors(sent, j)) == Column(rows, Kept(cols, assignableColumnNames)[j])
        {
          SentColumn(batches, sent, cols, assignableColumnNames, useMetaType, j);
        }
      }
    }
  }
}
