/**
 * The coordination protocol of the four lambdas as a transition system at
 * step granularity. A `World` holds the state table, the invocations that
 * have been dispatched and not yet run, and the log of every effect on the
 * table and on the invocation transport, in the order the effects happened.
 * Each dispatched invocation runs once, as one atomic step, in any order.
 */
module Protocol {
  import opened Records
  import opened Requests

  /** An effect on the state table (`put_item`, `update_item`) or the transport (`invoke`). */
  datatype Effect =
    | PutItem(requestId: string, item: Record)
    | UpdateItem(requestId: string, field: Field, value: nat)
    | Invoke(payload: Payload)

  datatype World = World(table: map<string, Record>, pending: seq<Payload>, log: seq<Effect>)

  // ---------------------------------------------------------------------
  // Counting invocations

  /** The number of payloads in `q` for request `id` that target stage `s`. */
  function Count(q: seq<Payload>, id: string, s: Stage): nat
  {
    if q == [] then 0
    else (if q[0].requestId == id && q[0].Target() == s then 1 else 0) + Count(q[1..], id, s)
  }

  lemma {:induction false} CountAppend(a: seq<Payload>, b: seq<Payload>, id: string, s: Stage)
    ensures Count(a + b, id, s) == Count(a, id, s) + Count(b, id, s)
  {
    if a == [] {
      assert a + b == b;
    } else {
      assert (a + b)[1..] == a[1..] + b;
      CountAppend(a[1..], b, id, s);
    }
  }

  lemma {:induction false} CountAbsent(q: seq<Payload>, id: string, s: Stage)
    requires forall p :: p in q ==> p.requestId != id
    ensures Count(q, id, s) == 0
  {
    if q != [] {
      assert q[0] in q;
      assert forall p :: p in q[1..] ==> p in q;
      CountAbsent(q[1..], id, s);
    }
  }

  /** The queue once invocation `i` has started. */
  function Remove(q: seq<Payload>, i: nat): (r: seq<Payload>)
    requires i < |q|
    ensures |r| == |q| - 1
    ensures forall p :: p in r ==> p in q
  {
    q[..i] + q[i + 1..]
  }

  lemma CountRemove(q: seq<Payload>, i: nat, id: string, s: Stage)
    requires i < |q|
    ensures Count(q, id, s)
      == Count(Remove(q, i), id, s) + (if q[i].requestId == id && q[i].Target() == s then 1 else 0)
  {
    assert q == q[..i] + [q[i]] + q[i + 1..];
    CountAppend(q[..i] + [q[i]], q[i + 1..], id, s);
    CountAppend(q[..i], [q[i]], id, s);
    CountAppend(q[..i], q[i + 1..], id, s);
    assert [q[i]][1..] == [];
  }

  lemma {:induction false} CountMapperPayloads(
    rid: string, format: string, filterString: string, inputs: seq<Input>, id: string, s: Stage)
    ensures Count(MapperPayloads(rid, format, filterString, inputs), id, s)
      == if id == rid && s == MapStage then |inputs| else 0
  {
    if inputs != [] {
      var last := inputs[|inputs| - 1];
      CountMapperPayloads(rid, format, filterString, inputs[..|inputs| - 1], id, s);
      CountAppend(MapperPayloads(rid, format, filterString, inputs[..|inputs| - 1]),
        [MapperPayload(rid, last.bucket, last.prefix, format, filterString)], id, s);
    }
  }

  lemma {:induction false} CountWorkPayloads(
    rid: string, format: string, filterString: string, specs: seq<ChunkSpec>, id: string, s: Stage)
    ensures Count(WorkPayloads(rid, format, filterString, specs), id, s)
      == if id == rid && s == WorkStage then |specs| else 0
  {
    if specs != [] {
      CountWorkPayloads(rid, format, filterString, specs[..|specs| - 1], id, s);
      CountAppend(WorkPayloads(rid, format, filterString, specs[..|specs| - 1]),
        [WorkPayload(rid, format, filterString, specs[|specs| - 1])], id, s);
    }
  }

  // ---------------------------------------------------------------------
  // Reading the effect log

  /** The payloads the log shows as dispatched, in dispatch order. */
  function Invoked(log: seq<Effect>): seq<Payload>
  {
    if log == [] then []
    else (if log[0].Invoke? then [log[0].payload] else []) + Invoked(log[1..])
  }

  lemma {:induction false} InvokedAppend(a: seq<Effect>, b: seq<Effect>)
    ensures Invoked(a + b) == Invoked(a) + Invoked(b)
  {
    if a == [] {
      assert a + b == b;
    } else {
      assert (a + b)[1..] == a[1..] + b;
      InvokedAppend(a[1..], b);
    }
  }

  /** The log entries of dispatching `ps`, one after the other. */
  function Invokes(ps: seq<Payload>): (es: seq<Effect>)
    ensures |es| == |ps|
    ensures forall i :: 0 <= i < |ps| ==> es[i] == Invoke(ps[i])
  {
    if ps == [] then [] else Invokes(ps[..|ps| - 1]) + [Invoke(ps[|ps| - 1])]
  }

  lemma {:induction false} InvokedInvokes(ps: seq<Payload>)
    ensures Invoked(Invokes(ps)) == ps
  {
    if ps != [] {
      assert Invokes(ps)[1..] == Invokes(ps[1..]);
      InvokedInvokes(ps[1..]);
    }
  }

  /** The number of invocations of stage `s` for request `id` ever dispatched. */
  function Dispatched(log: seq<Effect>, id: string, s: Stage): nat
  {
    Count(Invoked(log), id, s)
  }

  /** The requests whose record the log shows as written by `put_item`. */
  function Created(log: seq<Effect>): set<string>
  {
    if log == [] then {}
    else (if log[0].PutItem? then {log[0].requestId} else {}) + Created(log[1..])
  }

  lemma {:induction false} CreatedAppend(a: seq<Effect>, b: seq<Effect>)
    ensures Created(a + b) == Created(a) + Created(b)
  {
    if a == [] {
      assert a + b == b;
    } else {
      assert (a + b)[1..] == a[1..] + b;
      CreatedAppend(a[1..], b);
    }
  }

  /** Every invocation in the log was dispatched after its request's record was written. */
  ghost predicate HistoryOrdered(log: seq<Effect>)
  {
    forall j :: 0 <= j < |log| && log[j].Invoke? ==> log[j].payload.requestId in Created(log[..j])
  }

  lemma HistoryExtend(log: seq<Effect>, seg: seq<Effect>)
    requires HistoryOrdered(log)
    requires forall e :: e in seg && e.Invoke? ==> e.payload.requestId in Created(log)
    ensures HistoryOrdered(log + seg)
  {
    var all := log + seg;
    forall j | 0 <= j < |all| && all[j].Invoke?
      ensures all[j].payload.requestId in Created(all[..j])
    {
      if j < |log| {
        assert all[..j] == log[..j];
      } else {
        assert all[..j] == log + seg[..j - |log|];
        CreatedAppend(log, seg[..j - |log|]);
        assert all[j] == seg[j - |log|];
      }
    }
  }

  // ---------------------------------------------------------------------
  // The steps

  /** `increment_state_field` without contention: counter `f` of `id` raised by `delta`. */
  function Raise(t: map<string, Record>, id: string, f: Field, delta: nat): (t': map<string, Record>)
    requires id in t
    ensures t'.Keys == t.Keys
    ensures t'[id].Get(f) == t[id].Get(f) + delta
    ensures forall g :: g != f ==> t'[id].Get(g) == t[id].Get(g)
    ensures forall other :: other in t && other != id ==> t'[other] == t[other]
  {
    t[id := t[id].Set(f, t[id].Get(f) + delta)]
  }

  /**
   * `driver`: validate the body; on success write the record of the fresh
   * request id, then dispatch one mapper per input.
   */
  function DriverStep(w: World, body: Body, freshId: string): (World, Response)
  {
    match Validate(body)
    case Rejected(response) => (w, response)
    case Accepted(format, inputs, filterString) =>
      var item := InitialRecord(|inputs|);
      var mappers := MapperPayloads(freshId, format, filterString, inputs);
      (World(w.table[freshId := item], w.pending + mappers, w.log + [PutItem(freshId, item)] + Invokes(mappers)),
       Response("200", RequestAccepted(freshId)))
  }

  /** A started invocation that raised before changing anything: it is gone, nothing else changed. */
  function Abort(w: World, i: nat): World
    requires i < |w.pending|
  {
    World(w.table, Remove(w.pending, i), w.log)
  }

  /**
   * Whether mapper invocation `i` gets past its handler lookup, the handler's
   * read (`numRowGroups` is `None` when it raises) and the record read.
   */
  predicate MapperRuns(w: World, i: nat, numRowGroups: Option<nat>)
    requires i < |w.pending|
  {
    HandlerFor(w.pending[i].format).Some? && numRowGroups.Some? && w.pending[i].requestId in w.table
  }

  /**
   * `mapper`, as written: raise the expected work by the number of chunk
   * specs, dispatch one work invocation per spec, then count the mapper as
   * completed.
   */
  function MapperStep(w: World, i: nat, numRowGroups: Option<nat>): World
    requires i < |w.pending| && w.pending[i].MapperPayload?
  {
    if !MapperRuns(w, i, numRowGroups) then Abort(w, i)
    else
      var p := w.pending[i];
      var id := p.requestId;
      var specs := Partition(HandlerFor(p.format).value, p.bucket, p.prefix, numRowGroups.value);
      var works := WorkPayloads(id, p.format, p.filterString, specs);
      var t1 := Raise(w.table, id, ExpectedWork, |specs|);
      var t2 := Raise(t1, id, CompletedMapper, 1);
      var seg := [UpdateItem(id, ExpectedWork, t1[id].expectedWork)] + Invokes(works)
        + [UpdateItem(id, CompletedMapper, t2[id].completedMapper)];
      World(t2, Remove(w.pending, i) + works, w.log + seg)
  }

  /** The completion check: dispatch the reducer when both mapping and working are done. */
  function ReduceIfDone(w: World, id: string, format: string): World
    requires id in w.table
  {
    if DoneMapping(w.table[id]) && DoneWorking(w.table[id]) then
      var r := ReducerPayload(id, format);
      World(w.table, w.pending + [r], w.log + [Invoke(r)])
    else w
  }

  /**
   * `do_work`: filter the chunk (`filterSucceeds` is false when the
   * filter raises), count the work as completed, then run the completion check.
   */
  function DoWorkStep(w: World, i: nat, filterSucceeds: bool): World
    requires i < |w.pending| && w.pending[i].WorkPayload?
  {
    var p := w.pending[i];
    if HandlerFor(p.format).None? || !filterSucceeds || p.requestId !in w.table then Abort(w, i)
    else
      var t := Raise(w.table, p.requestId, CompletedWork, 1);
      var counted := World(t, Remove(w.pending, i),
        w.log + [UpdateItem(p.requestId, CompletedWork, t[p.requestId].completedWork)]);
      ReduceIfDone(counted, p.requestId, p.format)
  }

  /** `reducer`: merge the shards (`mergeSucceeds` is false when it raises), then count the reducer. */
  function ReducerStep(w: World, i: nat, mergeSucceeds: bool): World
    requires i < |w.pending| && w.pending[i].ReducerPayload?
  {
    var p := w.pending[i];
    if HandlerFor(p.format).None? || !mergeSucceeds || p.requestId !in w.table then Abort(w, i)
    else
      var t := Raise(w.table, p.requestId, CompletedReducer, 1);
      World(t, Remove(w.pending, i),
        w.log + [UpdateItem(p.requestId, CompletedReducer, t[p.requestId].completedReducer)])
  }

  /** `mapper` with the completion check after its last increment (see the findings). */
  function MapperStepChecked(w: World, i: nat, numRowGroups: Option<nat>): World
    requires i < |w.pending| && w.pending[i].MapperPayload?
  {
    var counted := MapperStep(w, i, numRowGroups);
    if MapperRuns(w, i, numRowGroups) then
      ReduceIfDone(counted, w.pending[i].requestId, w.pending[i].format)
    else counted
  }

  // ---------------------------------------------------------------------
  // What each step does, in the terms of the request and the record

  /**
   * The driver rejects an incomplete body or an unknown format with a 400
   * and no effect; otherwise it writes the initial record first and then
   * dispatches one mapper per input, in input order, and answers 200.
   */
  lemma DriverOutcome(w: World, body: Body, freshId: string)
    ensures !Complete(body) ==>
      DriverStep(w, body, freshId) == (w, Response("400", MissingKeysMsg(MissingKeys(body))))
    ensures Complete(body) && body.format.value !in FormatHandlers ==>
      DriverStep(w, body, freshId) == (w, Response("400", FormatNotRecognized(body.format.value)))
    ensures Complete(body) && body.format.value in FormatHandlers ==>
      var w', inputs := DriverStep(w, body, freshId).0, body.inputs.value;
      var mappers := w'.pending[|w.pending|..];
      && DriverStep(w, body, freshId).1 == Response("200", RequestAccepted(freshId))
      && w'.table == w.table[freshId := InitialRecord(|inputs|)]
      && w'.pending == w.pending + mappers
      && |mappers| == |inputs|
      && (forall k :: 0 <= k < |inputs| ==>
            mappers[k] == MapperPayload(freshId, inputs[k].bucket, inputs[k].prefix, body.format.value, body.filterString.value))
      && w'.log == w.log + [PutItem(freshId, InitialRecord(|inputs|))] + Invokes(mappers)
  {
    if Complete(body) && body.format.value in FormatHandlers {
      var inputs := body.inputs.value;
      var mappers := MapperPayloads(freshId, body.format.value, body.filterString.value, inputs);
      assert (w.pending + mappers)[|w.pending|..] == mappers;
    }
  }

  /**
   * A mapper that reads its file raises `expected_work_executions` by the
   * number of row groups, then dispatches one work invocation per row
   * group, in order, then raises `completed_mapper_executions` by one; no
   * other counter and no other record changes. A mapper that raises first
   * has no effect.
   */
  lemma MapperOutcome(w: World, i: nat, numRowGroups: Option<nat>)
    requires i < |w.pending| && w.pending[i].MapperPayload?
    ensures !MapperRuns(w, i, numRowGroups) ==> MapperStep(w, i, numRowGroups) == Abort(w, i)
    ensures MapperRuns(w, i, numRowGroups) ==>
      var p, w', n := w.pending[i], MapperStep(w, i, numRowGroups), numRowGroups.value;
      var id := p.requestId;
      var works := w'.pending[|w.pending| - 1..];
      && w'.table.Keys == w.table.Keys
      && (forall x :: x in w.table && x != id ==> w'.table[x] == w.table[x])
      && w'.table[id].expectedWork == w.table[id].expectedWork + n
      && w'.table[id].completedMapper == w.table[id].completedMapper + 1
      && (forall f :: f != ExpectedWork && f != CompletedMapper ==> w'.table[id].Get(f) == w.table[id].Get(f))
      && w'.pending == Remove(w.pending, i) + works
      && |works| == n
      && (forall k :: 0 <= k < n ==> works[k] == WorkPayload(id, p.format, p.filterString, RowGroup(p.bucket, p.prefix, k)))
      && w'.log == w.log + [UpdateItem(id, ExpectedWork, w'.table[id].expectedWork)] + Invokes(works)
        + [UpdateItem(id, CompletedMapper, w'.table[id].completedMapper)]
  {
    if MapperRuns(w, i, numRowGroups) {
      var p := w.pending[i];
      var id := p.requestId;
      var specs := Partition(HandlerFor(p.format).value, p.bucket, p.prefix, numRowGroups.value);
      var works := WorkPayloads(id, p.format, p.filterString, specs);
      var t1 := Raise(w.table, id, ExpectedWork, |specs|);
      var t2 := Raise(t1, id, CompletedMapper, 1);
      assert (Remove(w.pending, i) + works)[|w.pending| - 1..] == works;
      assert t2[id].Get(ExpectedWork) == t1[id].Get(ExpectedWork);
      forall f | f != ExpectedWork && f != CompletedMapper ensures t2[id].Get(f) == w.table[id].Get(f) {
        assert t2[id].Get(f) == t1[id].Get(f);
      }
    }
  }

  /**
   * A work invocation whose filter runs raises `completed_work_executions`
   * by one, re-reads the record and dispatches the reducer (a payload of
   * request id and format) exactly when both the mapper and the work
   * counters are complete. A work invocation that raises first has no effect.
   */
  lemma DoWorkOutcome(w: World, i: nat, filterSucceeds: bool)
    requires i < |w.pending| && w.pending[i].WorkPayload?
    ensures var p := w.pending[i];
      HandlerFor(p.format).None? || !filterSucceeds || p.requestId !in w.table ==>
        DoWorkStep(w, i, filterSucceeds) == Abort(w, i)
    ensures var p, w' := w.pending[i], DoWorkStep(w, i, filterSucceeds);
      var id := p.requestId;
      HandlerFor(p.format).Some? && filterSucceeds && id in w.table ==>
        && w'.table == w.table[id := w.table[id].Set(CompletedWork, w.table[id].completedWork + 1)]
        && (DoneMapping(w'.table[id]) && DoneWorking(w'.table[id]) <==>
            w'.pending == Remove(w.pending, i) + [ReducerPayload(id, p.format)])
        && (DoneMapping(w'.table[id]) && DoneWorking(w'.table[id]) ==>
            w'.log == w.log + [UpdateItem(id, CompletedWork, w'.table[id].completedWork), Invoke(ReducerPayload(id, p.format))])
        && (!(DoneMapping(w'.table[id]) && DoneWorking(w'.table[id])) ==>
            w'.pending == Remove(w.pending, i) && w'.log == w.log + [UpdateItem(id, CompletedWork, w'.table[id].completedWork)])
  {
    var p := w.pending[i];
    if HandlerFor(p.format).Some? && filterSucceeds && p.requestId in w.table {
      var id := p.requestId;
      var t := Raise(w.table, id, CompletedWork, 1);
      var u := UpdateItem(id, CompletedWork, t[id].completedWork);
      assert w.log + [u] + [Invoke(ReducerPayload(id, p.format))] == w.log + [u, Invoke(ReducerPayload(id, p.format))];
    }
  }

  /**
   * A reducer whose merge runs raises `completed_reducer_executions` by one
   * and dispatches nothing; one that raises first has no effect.
   */
  lemma ReducerOutcome(w: World, i: nat, mergeSucceeds: bool)
    requires i < |w.pending| && w.pending[i].ReducerPayload?
    ensures var p := w.pending[i];
      HandlerFor(p.format).None? || !mergeSucceeds || p.requestId !in w.table ==>
        ReducerStep(w, i, mergeSucceeds) == Abort(w, i)
    ensures var p, w' := w.pending[i], ReducerStep(w, i, mergeSucceeds);
      var id := p.requestId;
      HandlerFor(p.format).Some? && mergeSucceeds && id in w.table ==>
        && w'.table == w.table[id := w.table[id].Set(CompletedReducer, w.table[id].completedReducer + 1)]
        && w'.pending == Remove(w.pending, i)
        && w'.log == w.log + [UpdateItem(id, CompletedReducer, w'.table[id].completedReducer)]
  {
  }

  // ---------------------------------------------------------------------
  // Interleavings

  /** One scheduling decision: a new request, or running one pending invocation. */
  datatype Action =
    | Submit(body: Body, freshId: string)
    | RunMapper(index: nat, numRowGroups: Option<nat>)
    | RunWork(index: nat, filterSucceeds: bool)
    | RunReducer(index: nat, mergeSucceeds: bool)

  /** Ids are fresh (a new UUID); a run picks a pending invocation of that lambda. */
  predicate Enabled(w: World, a: Action)
  {
    match a
    case Submit(_, freshId) => freshId !in w.table
    case RunMapper(i, _) => i < |w.pending| && w.pending[i].MapperPayload?
    case RunWork(i, _) => i < |w.pending| && w.pending[i].WorkPayload?
    case RunReducer(i, _) => i < |w.pending| && w.pending[i].ReducerPayload?
  }

  /** One step; `checked` selects the mapper with its own completion check. */
  function Apply(w: World, a: Action, checked: bool): World
    requires Enabled(w, a)
  {
    match a
    case Submit(body, freshId) => DriverStep(w, body, freshId).0
    case RunMapper(i, n) => if checked then MapperStepChecked(w, i, n) else MapperStep(w, i, n)
    case RunWork(i, ok) => DoWorkStep(w, i, ok)
    case RunReducer(i, ok) => ReducerStep(w, i, ok)
  }

  /** Runs a schedule; `None` when some action is not enabled when its turn comes. */
  function Execute(w: World, schedule: seq<Action>, checked: bool): Option<World>
    decreases |schedule|
  {
    if schedule == [] then Some(w)
    else if !Enabled(w, schedule[0]) then None
    else Execute(Apply(w, schedule[0], checked), schedule[1..], checked)
  }
}
