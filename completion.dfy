/**
 * Completion detection. The reducer is dispatched only by `do_work`, after
 * its own increment; a mapper never checks. So when the last mapper of a
 * request to finish has no chunks, and every work item of the request was
 * counted before that mapper ran, every mapper and work counter reaches its
 * expected value and no reducer is ever dispatched. With the check also
 * after the mapper's last increment (`MapperStepChecked`), every request
 * with at least one input that reaches "all mapped, all worked" has had its
 * reducer dispatched.
 */
module Completion {
  import opened Records
  import opened Requests
  import opened Protocol
  import opened Safety

  /** Every request with inputs whose stages are all counted complete has had its reducer dispatched. */
  ghost predicate Progress(w: World)
  {
    forall id ::
      (id in w.table && w.table[id].expectedMapper > 0 && DoneMapping(w.table[id]) && DoneWorking(w.table[id]))
      ==> Dispatched(w.log, id, ReduceStage) == 1
  }

  lemma DriverProgress(w: World, body: Body, freshId: string)
    requires Progress(w) && freshId !in w.table
    ensures Progress(DriverStep(w, body, freshId).0)
  {
    match Validate(body)
    case Rejected(_) =>
    case Accepted(format, inputs, filterString) =>
      var item := InitialRecord(|inputs|);
      var mappers := MapperPayloads(freshId, format, filterString, inputs);
      var log' := w.log + [PutItem(freshId, item)] + Invokes(mappers);
      assert DriverStep(w, body, freshId).0 == World(w.table[freshId := item], w.pending + mappers, log');
      DriverLog(w.log, freshId, item, mappers);
      forall x | x in w.table
        ensures Dispatched(log', x, ReduceStage) == Dispatched(w.log, x, ReduceStage)
      {
        CountMapperPayloads(freshId, format, filterString, inputs, x, ReduceStage);
      }
  }

  lemma MapperCheckedProgress(w: World, i: nat, numRowGroups: Option<nat>)
    requires Inv(w) && Progress(w) && i < |w.pending| && w.pending[i].MapperPayload?
    ensures Progress(MapperStepChecked(w, i, numRowGroups))
  {
    MapperPreserves(w, i, numRowGroups);
    if MapperRuns(w, i, numRowGroups) {
      var id := w.pending[i].requestId;
      var counted := MapperStep(w, i, numRowGroups);
      ReduceIfDonePreserves(counted, id, w.pending[i].format);
      var w' := MapperStepChecked(w, i, numRowGroups);
      forall x | x in w'.table && x != id ensures w'.table[x] == w.table[x] {
      }
    }
  }

  lemma DoWorkProgress(w: World, i: nat, filterSucceeds: bool)
    requires Inv(w) && Progress(w) && i < |w.pending| && w.pending[i].WorkPayload?
    ensures Progress(DoWorkStep(w, i, filterSucceeds))
  {
    var p := w.pending[i];
    if !(HandlerFor(p.format).None? || !filterSucceeds || p.requestId !in w.table) {
      var t := Raise(w.table, p.requestId, CompletedWork, 1);
      CompletionPreserves(w, i, CompletedWork, t[p.requestId].completedWork);
      var counted := World(t, Remove(w.pending, i),
        w.log + [UpdateItem(p.requestId, CompletedWork, t[p.requestId].completedWork)]);
      ReduceIfDonePreserves(counted, p.requestId, p.format);
    }
  }

  lemma ReducerProgress(w: World, i: nat, mergeSucceeds: bool)
    requires Inv(w) && Progress(w) && i < |w.pending| && w.pending[i].ReducerPayload?
    ensures Progress(ReducerStep(w, i, mergeSucceeds))
  {
    var p := w.pending[i];
    if !(HandlerFor(p.format).None? || !mergeSucceeds || p.requestId !in w.table) {
      var t := Raise(w.table, p.requestId, CompletedReducer, 1);
      CompletionPreserves(w, i, CompletedReducer, t[p.requestId].completedReducer);
    }
  }

  lemma ApplyCheckedProgress(w: World, a: Action)
    requires Inv(w) && Progress(w) && Enabled(w, a)
    ensures Progress(Apply(w, a, true))
  {
    match a
    case Submit(body, freshId) => DriverProgress(w, body, freshId);
    case RunMapper(i, n) => MapperCheckedProgress(w, i, n);
    case RunWork(i, ok) => DoWorkProgress(w, i, ok);
    case RunReducer(i, ok) => ReducerProgress(w, i, ok);
  }

  lemma {:induction false} ExecuteCheckedProgress(w: World, schedule: seq<Action>)
    requires Inv(w) && Progress(w) && Execute(w, schedule, true).Some?
    ensures Progress(Execute(w, schedule, true).value)
    decreases |schedule|
  {
    if schedule != [] {
      ApplyPreserves(w, schedule[0], true);
      ApplyCheckedProgress(w, schedule[0]);
      ExecuteCheckedProgress(Apply(w, schedule[0], true), schedule[1..]);
    }
  }

  /**
   * With the corrected mapper, under any interleaving, a request with at
   * least one input whose mappers and work items have all counted
   * themselves complete has had exactly one reducer dispatched.
   */
  lemma CheckedMapperCompletes(schedule: seq<Action>, id: string)
    requires Execute(Empty, schedule, true).Some?
    requires var w := Execute(Empty, schedule, true).value;
      id in w.table && w.table[id].expectedMapper > 0 && DoneMapping(w.table[id]) && DoneWorking(w.table[id])
    ensures Dispatched(Execute(Empty, schedule, true).value.log, id, ReduceStage) == 1
  {
    InitialInv();
    ExecuteCheckedProgress(Empty, schedule);
  }

  // ---------------------------------------------------------------------
  // The request that stalls as written

  /** Two inputs; the second file has no row groups. */
  const StallBody: Body := Body(
    Some("parquet_simple"),
    Some([Input("bucket", "one.parquet"), Input("bucket", "empty.parquet")]),
    Some("matrix['CD4'] > 0"))

  /** The first mapper and its one work item finish before the second mapper runs. */
  const StallSchedule: seq<Action> :=
    [Submit(StallBody, "r"), RunMapper(0, Some(1)), RunWork(1, true), RunMapper(0, Some(0))]

  const Filter: string := "matrix['CD4'] > 0"
  const M0: Payload := MapperPayload("r", "bucket", "one.parquet", "parquet_simple", Filter)
  const M1: Payload := MapperPayload("r", "bucket", "empty.parquet", "parquet_simple", Filter)
  const W0: Payload := WorkPayload("r", "parquet_simple", Filter, RowGroup("bucket", "one.parquet", 0))

  /** One step of a schedule. */
  lemma ExecuteStep(w: World, schedule: seq<Action>, checked: bool)
    requires schedule != [] && Enabled(w, schedule[0])
    ensures Execute(w, schedule, checked) == Execute(Apply(w, schedule[0], checked), schedule[1..], checked)
  {
  }

  lemma StallDriver() returns (w1: World)
    ensures w1 == DriverStep(Empty, StallBody, "r").0
    ensures w1.pending == [M0, M1] && w1.table == map["r" := Record(0, 0, 2, 0, 1, 0)]
    ensures Dispatched(w1.log, "r", ReduceStage) == 0
  {
    MissingKeysReported(StallBody);
    w1 := DriverStep(Empty, StallBody, "r").0;
    var mappers := MapperPayloads("r", "parquet_simple", Filter, StallBody.inputs.value);
    assert mappers == [M0, M1];
    DriverLog([], "r", InitialRecord(2), mappers);
    CountMapperPayloads("r", "parquet_simple", Filter, StallBody.inputs.value, "r", ReduceStage);
  }

  lemma StallFirstMapper(w1: World) returns (w2: World)
    requires Inv(w1) && w1.pending == [M0, M1] && w1.table == map["r" := Record(0, 0, 2, 0, 1, 0)]
    requires Dispatched(w1.log, "r", ReduceStage) == 0
    ensures w2 == MapperStep(w1, 0, Some(1))
    ensures w2.pending == [M1, W0] && w2.table == map["r" := Record(1, 0, 2, 1, 1, 0)]
    ensures Dispatched(w2.log, "r", ReduceStage) == 0
  {
    assert w1.pending[0] == M0;
    assert MapperRuns(w1, 0, Some(1));
    var specs := Partition(ParquetSimple, "bucket", "one.parquet", 1);
    assert specs == [RowGroup("bucket", "one.parquet", 0)];
    var works := WorkPayloads("r", "parquet_simple", Filter, specs);
    assert works == [W0];
    var t1 := Raise(w1.table, "r", ExpectedWork, 1);
    assert t1 == map["r" := Record(1, 0, 2, 0, 1, 0)];
    var t2 := Raise(t1, "r", CompletedMapper, 1);
    assert t2 == map["r" := Record(1, 0, 2, 1, 1, 0)];
    assert Remove(w1.pending, 0) + works == [M1, W0];
    w2 := MapperStep(w1, 0, Some(1));
    assert w2.table == t2 && w2.pending == [M1, W0];
    MapperPreserves(w1, 0, Some(1));
  }

  lemma StallWork(w2: World) returns (w3: World)
    requires Inv(w2) && w2.pending == [M1, W0] && w2.table == map["r" := Record(1, 0, 2, 1, 1, 0)]
    requires Dispatched(w2.log, "r", ReduceStage) == 0
    ensures w3 == DoWorkStep(w2, 1, true)
    ensures w3.pending == [M1] && w3.table == map["r" := Record(1, 1, 2, 1, 1, 0)]
    ensures Dispatched(w3.log, "r", ReduceStage) == 0
  {
    w3 := DoWorkStep(w2, 1, true);
    var t := Raise(w2.table, "r", CompletedWork, 1);
    assert t == map["r" := Record(1, 1, 2, 1, 1, 0)];
    CompletionPreserves(w2, 1, CompletedWork, 1);
    var counted := World(t, Remove(w2.pending, 1), w2.log + [UpdateItem("r", CompletedWork, 1)]);
    assert Remove(w2.pending, 1) == [M1];
    ReduceIfDonePreserves(counted, "r", "parquet_simple");
  }

  lemma StallLastMapper(w3: World) returns (w4: World)
    requires Inv(w3) && w3.pending == [M1] && w3.table == map["r" := Record(1, 1, 2, 1, 1, 0)]
    requires Dispatched(w3.log, "r", ReduceStage) == 0
    ensures w4 == MapperStep(w3, 0, Some(0))
    ensures w4.pending == [] && w4.table == map["r" := Record(1, 1, 2, 2, 1, 0)]
    ensures Dispatched(w4.log, "r", ReduceStage) == 0
  {
    w4 := MapperStep(w3, 0, Some(0));
    MapperPreserves(w3, 0, Some(0));
    assert Remove(w3.pending, 0) == [];
  }

  lemma StallWorlds() returns (w1: World, w2: World, w3: World, w4: World)
    ensures w1 == DriverStep(Empty, StallBody, "r").0 && w1.pending == [M0, M1]
    ensures w2 == MapperStep(w1, 0, Some(1)) && w2.pending == [M1, W0]
    ensures w2.table == map["r" := Record(1, 0, 2, 1, 1, 0)]
    ensures w3 == DoWorkStep(w2, 1, true) && w3.pending == [M1]
    ensures w2.pending[1].WorkPayload?
    ensures w4 == MapperStep(w3, 0, Some(0))
    ensures w4.pending == [] && w4.table == map["r" := Record(1, 1, 2, 2, 1, 0)]
    ensures Dispatched(w4.log, "r", ReduceStage) == 0
  {
    InitialInv();
    w1 := StallDriver();
    DriverPreserves(Empty, StallBody, "r");
    w2 := StallFirstMapper(w1);
    MapperPreserves(w1, 0, Some(1));
    w3 := StallWork(w2);
    DoWorkPreserves(w2, 1, true);
    w4 := StallLastMapper(w3);
  }

  /** Four enabled steps in a row, each from the world the previous one left. */
  lemma ExecuteFour(w0: World, a: Action, b: Action, c: Action, d: Action,
                    w1: World, w2: World, w3: World, w4: World, checked: bool)
    requires Enabled(w0, a) && w1 == Apply(w0, a, checked)
    requires Enabled(w1, b) && w2 == Apply(w1, b, checked)
    requires Enabled(w2, c) && w3 == Apply(w2, c, checked)
    requires Enabled(w3, d) && w4 == Apply(w3, d, checked)
    ensures Execute(w0, [a, b, c, d], checked) == Some(w4)
  {
    var sc := [a, b, c, d];
    assert sc[1..] == [b, c, d] && sc[1..][1..] == [c, d] && sc[1..][1..][1..] == [d];
    ExecuteStep(w0, sc, checked);
    ExecuteStep(w1, [b, c, d], checked);
    ExecuteStep(w2, [c, d], checked);
    ExecuteStep(w3, [d], checked);
    assert [d][1..] == [];
  }

  lemma StallExecute() returns (w4: World)
    ensures Execute(Empty, StallSchedule, false) == Some(w4)
    ensures w4.pending == [] && w4.table == map["r" := Record(1, 1, 2, 2, 1, 0)]
    ensures Dispatched(w4.log, "r", ReduceStage) == 0
  {
    var w1, w2, w3, w := StallWorlds();
    w4 := w;
    ExecuteFour(Empty, Submit(StallBody, "r"), RunMapper(0, Some(1)), RunWork(1, true), RunMapper(0, Some(0)),
      w1, w2, w3, w4, false);
  }

  /**
   * As written, the schedule ends with nothing pending, every mapper and
   * work counter at its expected value and no reducer dispatched: the
   * request never completes.
   */
  lemma AsWrittenStalls()
    ensures var w := Execute(Empty, StallSchedule, false);
      && w.Some? && w.value.pending == [] && "r" in w.value.table
      && w.value.table["r"].expectedMapper == 2
      && DoneMapping(w.value.table["r"]) && DoneWorking(w.value.table["r"])
      && w.value.table["r"].completedReducer < w.value.table["r"].expectedReducer
      && Dispatched(w.value.log, "r", ReduceStage) == 0
      && !Progress(w.value)
  {
    var w4 := StallExecute();
    assert w4.table["r"] == Record(1, 1, 2, 2, 1, 0);
  }

  lemma CheckedFirstMapper(w1: World, w2: World)
    requires w1.pending == [M0, M1] && w2 == MapperStep(w1, 0, Some(1))
    requires w2.table == map["r" := Record(1, 0, 2, 1, 1, 0)]
    ensures Enabled(w1, RunMapper(0, Some(1))) && Apply(w1, RunMapper(0, Some(1)), true) == w2
  {
    assert !DoneWorking(w2.table["r"]);
  }

  lemma CheckedLastMapper(w3: World, w4: World) returns (w5: World)
    requires w3.pending == [M1] && w4 == MapperStep(w3, 0, Some(0))
    requires w4.table == map["r" := Record(1, 1, 2, 2, 1, 0)]
    requires Dispatched(w4.log, "r", ReduceStage) == 0
    ensures Enabled(w3, RunMapper(0, Some(0))) && Apply(w3, RunMapper(0, Some(0)), true) == w5
    ensures w5.pending == w4.pending + [ReducerPayload("r", "parquet_simple")]
    ensures Dispatched(w5.log, "r", ReduceStage) == 1
  {
    var r := ReducerPayload("r", "parquet_simple");
    w5 := ReduceIfDone(w4, "r", "parquet_simple");
    assert w5 == World(w4.table, w4.pending + [r], w4.log + [Invoke(r)]);
    InvokedAppend(w4.log, [Invoke(r)]);
    assert Invoked([Invoke(r)]) == [r];
    CountAppend(Invoked(w4.log), [r], "r", ReduceStage);
  }

  lemma CorrectedStallWorlds() returns (w1: World, w2: World, w3: World, w5: World)
    ensures Enabled(Empty, Submit(StallBody, "r")) && Apply(Empty, Submit(StallBody, "r"), true) == w1
    ensures Enabled(w1, RunMapper(0, Some(1))) && Apply(w1, RunMapper(0, Some(1)), true) == w2
    ensures Enabled(w2, RunWork(1, true)) && Apply(w2, RunWork(1, true), true) == w3
    ensures Enabled(w3, RunMapper(0, Some(0))) && Apply(w3, RunMapper(0, Some(0)), true) == w5
    ensures w5.pending == [ReducerPayload("r", "parquet_simple")]
    ensures Dispatched(w5.log, "r", ReduceStage) == 1
  {
    var w4;
    w1, w2, w3, w4 := StallWorlds();
    CheckedFirstMapper(w1, w2);
    w5 := CheckedLastMapper(w3, w4);
  }

  /** The corrected mapper on the same schedule: its last run dispatches the reducer. */
  lemma CorrectedStallReduces()
    ensures var w := Execute(Empty, StallSchedule, true);
      && w.Some? && w.value.pending == [ReducerPayload("r", "parquet_simple")]
      && Dispatched(w.value.log, "r", ReduceStage) == 1
  {
    var w1, w2, w3, w5 := CorrectedStallWorlds();
    ExecuteFour(Empty, Submit(StallBody, "r"), RunMapper(0, Some(1)), RunWork(1, true), RunMapper(0, Some(0)),
      w1, w2, w3, w5, true);
  }
}
