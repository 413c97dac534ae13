/**
 * Streaming queries that lose rows, each against one of the conditions under which a run is
 * complete.
 */
module StreamCounterexamples {
  import opened StreamModel
  import opened StreamRuns
  import opened Wrappers

  lemma OneMore(o: Setup, s: Query, a: Action, next: Query, rest: seq<Action>)
    requires Enabled(o, s, a) && Step(o, s, a) == next && LegalRun(o, next, rest)
    ensures LegalRun(o, s, [a] + rest) && Reached(o, s, [a] + rest) == Reached(o, next, rest)
  {
    assert ([a] + rest)[1..] == rest;
  }

  // ---------------------------------------------------------------- a pause in the last batch

  /** One batch of two rows; the handler of the first row's column pauses. */
  const PAUSING := Setup([ResultSet(1, [[[7], [8]]])], true, true, false, n => n == 2)

  const LAST := Batch([[7], [8]], true, true)
  const CUT := Query([[7]], 1, 1, Some(LAST), true, true, 0, 1, 0, 1, [Meta(1), RowEvent(0), Column(0, 7)], [], [[7]])
  const CUT_OFF := CUT.(completed := [[[7]]], rows := [], shown := [], result := 1, fetched := 0, moving := 0,
                        running := false)

  lemma ValidPausing()
    ensures ValidSetup(PAUSING)
  {
  }

  lemma FirstRowPauses()
    ensures (var s := Received(PAUSING, Started(PAUSING));
             RowTurn(PAUSING, s, [7]) == CUT.(moving := 0))
  {
    var s := Received(PAUSING, Started(PAUSING));
    var t := GetRow(PAUSING, Emit(PAUSING, s, RowEvent(0)));
    assert t.emitted == [Meta(1), RowEvent(0)] && !t.paused && t.rows == [[]];
    var u := Emit(PAUSING, Store(PAUSING, t, 7), Column(0, 7));
    assert t.rows[0] + [7] == [7];
    assert u.rows == [[7]] && u.emitted == [Meta(1), RowEvent(0), Column(0, 7)] && u.paused;
    assert DispatchRow(PAUSING, u, [7], 1) == u;
    assert DispatchRow(PAUSING, t, [7], 0) == u;
  }

  lemma CutShort()
    ensures Enabled(PAUSING, Started(PAUSING), FetchDone) && Step(PAUSING, Started(PAUSING), FetchDone) == CUT
  {
    hide RowTurn;
    FirstRowPauses();
    var s := Received(PAUSING, Started(PAUSING));
    var t := RowTurn(PAUSING, s, [7]);
    assert DispatchRows(PAUSING, t, LAST.data) == t;
    assert DispatchRows(PAUSING, s, LAST.data) == t;
  }

  /** The query ends having emitted and passed on one row of two. */
  lemma PausedLastBatchLosesARow()
    ensures ValidSetup(PAUSING) && LegalRun(PAUSING, Started(PAUSING), [FetchDone] + [MoveDone])
    ensures (var s := Reached(PAUSING, Started(PAUSING), [FetchDone] + [MoveDone]);
             !s.running && s.completed == [[[7]]] && RowEvent(1) !in s.emitted && Column(0, 8) !in s.emitted)
  {
    hide RowTurn, DispatchRows, Step;
    ValidPausing();
    CutShort();
    MovesCut();
    OneMore(PAUSING, CUT, MoveDone, CUT_OFF, []);
    OneMore(PAUSING, Started(PAUSING), FetchDone, CUT, [MoveDone]);
  }

  lemma MovesCut()
    ensures Enabled(PAUSING, CUT, MoveDone) && Step(PAUSING, CUT, MoveDone) == CUT_OFF
  {
  }

  // ---------------------------------------------------------------- pauses between two results

  /** Two results of one row each, the first of them read without a pause. */
  predicate TwoResults(o: Setup) {
    && o.results == [ResultSet(1, [[[7]]]), ResultSet(1, [[[8]]])]
    && o.lastFlagged && o.callback && !o.startPaused && !o.pauses(0) && !o.pauses(1) && !o.pauses(2)
  }

  /** The first event of the second result is its columns. */
  const QUIET := Setup([ResultSet(1, [[[7]]]), ResultSet(1, [[[8]]])], true, true, false, n => false)
  const META_PAUSES := QUIET.(pauses := n => n == 3)

  const FIRST := Batch([[7]], true, false)
  const HEAD := [Meta(1), RowEvent(0), Column(0, 7)]
  const R1 := Query([[7]], 1, 1, Some(FIRST), true, false, 0, 1, 0, 1, HEAD, [], [[7]])
  const R2 := R1.(paused := true)
  const R3 := R2.(completed := [[[7]]], rows := [], shown := [], result := 1, fetched := 0, moving := 0,
                  emitted := HEAD + [Meta(1)])
  const R4 := R3.(paused := false, moving := 1)
  const R5 := R4.(completed := [[[7]], []], result := 2, moving := 0, running := false)

  // paused and resumed while the first move is under way
  const Q3 := R1.(moving := 2)
  const Q4 := R3.(paused := false, fetching := 1, moving := 1)
  const Q5 := Q4.(completed := [[[7]], []], result := 2, moving := 0, running := false)

  predicate SecondIsSkipped(s: Query) {
    !s.running && s.completed == [[[7]], []] && RowEvent(1) !in s.emitted && Column(0, 8) !in s.emitted
  }

  lemma ValidTwo(o: Setup)
    requires TwoResults(o)
    ensures ValidSetup(o)
  {
  }

  lemma ReadsFirst(o: Setup)
    requires TwoResults(o)
    ensures ValidSetup(o) && Enabled(o, Started(o), FetchDone) && Step(o, Started(o), FetchDone) == R1
  {
    ValidTwo(o);
    var s := Received(o, Started(o));
    var t := GetRow(o, Emit(o, s, RowEvent(0)));
    assert t.emitted == [Meta(1), RowEvent(0)] && t.rows == [[]];
    var u := Emit(o, Store(o, t, 7), Column(0, 7));
    assert t.rows[0] + [7] == [7];
    assert u.rows == [[7]] && u.emitted == HEAD;
    assert DispatchRow(o, u, [7], 1) == u;
    assert DispatchRow(o, t, [7], 0) == u;
    var v := RowTurn(o, s, [7]);
    assert v == R1.(moving := 0);
    assert DispatchRows(o, v, FIRST.data) == v;
    assert DispatchRows(o, s, FIRST.data) == v;
  }

  /** Moved on to the second result with a pause in force, the query resumes past it. */
  lemma ResumesPastTheSecond(o: Setup)
    requires TwoResults(o)
    ensures (var rest := [Resume] + [MoveDone]; LegalRun(o, R3, rest) && Reached(o, R3, rest) == R5)
  {
    assert DispatchRows(o, R3.(paused := false), FIRST.data) == R3.(paused := false);
    assert Step(o, R3, Resume) == R4 && Step(o, R4, MoveDone) == R5;
    hide Step;
    OneMore(o, R4, MoveDone, R5, []);
    OneMore(o, R3, Resume, R4, [MoveDone]);
  }

  lemma FirstMove(o: Setup, s: Query)
    requires TwoResults(o) && (s == R2 || (s == R1 && o.pauses(3)))
    ensures Step(o, s, MoveDone) == R3
  {
  }

  /** Paused before the second result and resumed, the query ends with that result passed on empty. */
  lemma PauseBetweenResultsSkipsOne()
    ensures (var actions := [FetchDone] + ([Pause] + ([MoveDone] + ([Resume] + [MoveDone])));
             && ValidSetup(QUIET) && LegalRun(QUIET, Started(QUIET), actions)
             && SecondIsSkipped(Reached(QUIET, Started(QUIET), actions)))
  {
    ReadsFirst(QUIET);
    ResumesPastTheSecond(QUIET);
    FirstMove(QUIET, R2);
    hide Step, ValidSetup, Started;
    Pauses(QUIET);
    OneMore(QUIET, R2, MoveDone, R3, [Resume] + [MoveDone]);
    OneMore(QUIET, R1, Pause, R2, [MoveDone] + ([Resume] + [MoveDone]));
    OneMore(QUIET, Started(QUIET), FetchDone, R1, [Pause] + ([MoveDone] + ([Resume] + [MoveDone])));
  }

  lemma Pauses(o: Setup)
    ensures Step(o, R1, Pause) == R2
  {
  }

  /** A listener of the second result's columns that pauses has the same result. */
  lemma PauseOnColumnsSkipsOne()
    ensures (var actions := [FetchDone] + ([MoveDone] + ([Resume] + [MoveDone]));
             && ValidSetup(META_PAUSES) && LegalRun(META_PAUSES, Started(META_PAUSES), actions)
             && SecondIsSkipped(Reached(META_PAUSES, Started(META_PAUSES), actions)))
  {
    var o := META_PAUSES;
    ReadsFirst(o);
    ResumesPastTheSecond(o);
    FirstMove(o, R1);
    hide Step, ValidSetup, Started;
    OneMore(o, R1, MoveDone, R3, [Resume] + [MoveDone]);
    OneMore(o, Started(o), FetchDone, R1, [MoveDone] + ([Resume] + [MoveDone]));
  }

  /** Paused and resumed while it is moving on, the query moves on twice. */
  lemma ResumeWhileMovingSkipsOne()
    ensures (var actions := [FetchDone] + ([Pause] + ([Resume] + ([MoveDone] + [MoveDone])));
             && ValidSetup(QUIET) && LegalRun(QUIET, Started(QUIET), actions)
             && SecondIsSkipped(Reached(QUIET, Started(QUIET), actions)))
  {
    ReadsFirst(QUIET);
    SecondMove(QUIET);
    hide Step, ValidSetup, Started;
    Pauses(QUIET);
    OneMore(QUIET, Q4, MoveDone, Q5, []);
    OneMore(QUIET, Q3, MoveDone, Q4, [MoveDone]);
    OneMore(QUIET, R2, Resume, Q3, [MoveDone] + [MoveDone]);
    OneMore(QUIET, R1, Pause, R2, [Resume] + ([MoveDone] + [MoveDone]));
    OneMore(QUIET, Started(QUIET), FetchDone, R1, [Pause] + ([Resume] + ([MoveDone] + [MoveDone])));
  }

  lemma SecondMove(o: Setup)
    requires TwoResults(o) && !o.pauses(3)
    ensures Step(o, R2, Resume) == Q3 && Step(o, Q3, MoveDone) == Q4 && Step(o, Q4, MoveDone) == Q5
  {
    assert DispatchRows(o, R2.(paused := false), FIRST.data) == R2.(paused := false);
  }
}
