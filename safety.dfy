/**
 * The counter invariant of the protocol and its preservation by every
 * step: whatever order the dispatched invocations run in, no stage counts
 * more completions than it expects, every expected count equals the number
 * of invocations dispatched for that stage, at most one reducer is ever
 * dispatched per request, and no invocation is dispatched before its
 * request's record is written.
 */
module Safety {
  import opened Records
  import opened Requests
  import opened Protocol

  /** What the counters of request `id` say about the world. */
  ghost predicate CountersOk(r: Record, w: World, id: string)
  {
    && r.expectedMapper == Dispatched(w.log, id, MapStage)
    && r.expectedWork == Dispatched(w.log, id, WorkStage)
    && r.expectedReducer == 1
    && r.completedMapper + Count(w.pending, id, MapStage) <= r.expectedMapper
    && r.completedWork + Count(w.pending, id, WorkStage) <= r.expectedWork
    && r.completedReducer + Count(w.pending, id, ReduceStage) <= Dispatched(w.log, id, ReduceStage) <= 1
    && (Dispatched(w.log, id, ReduceStage) == 1 ==> DoneMapping(r) && DoneWorking(r))
  }

  /** Every pending invocation belongs to a request with a record. */
  ghost predicate PendingKnown(w: World)
  {
    forall p :: p in w.pending ==> p.requestId in w.table
  }

  /** Nothing was ever dispatched for a request without a record. */
  ghost predicate UnknownUndispatched(w: World)
  {
    forall id, s :: id !in w.table ==> Dispatched(w.log, id, s) == 0
  }

  ghost predicate AllCountersOk(w: World)
  {
    forall id :: id in w.table ==> CountersOk(w.table[id], w, id)
  }

  ghost predicate Inv(w: World)
  {
    && PendingKnown(w)
    && Created(w.log) == w.table.Keys
    && UnknownUndispatched(w)
    && AllCountersOk(w)
    && HistoryOrdered(w.log)
  }

  /** The world before the first request. */
  const Empty: World := World(map[], [], [])

  lemma InitialInv()
    ensures Inv(Empty)
  {
  }

  /** The invariant gives the bounds every request's counters keep at every point. */
  lemma Bounds(w: World, id: string)
    requires Inv(w) && id in w.table
    ensures w.table[id].completedMapper <= w.table[id].expectedMapper
    ensures w.table[id].completedWork <= w.table[id].expectedWork
    ensures w.table[id].completedReducer <= w.table[id].expectedReducer
    ensures Dispatched(w.log, id, ReduceStage) <= 1
    ensures Dispatched(w.log, id, ReduceStage) == 1 ==> DoneMapping(w.table[id]) && DoneWorking(w.table[id])
  {
  }

  // ---------------------------------------------------------------------
  // Appending effects to the log

  lemma {:induction false} CreatedInvokes(ps: seq<Payload>)
    ensures Created(Invokes(ps)) == {}
  {
    if ps != [] {
      assert Invokes(ps)[1..] == Invokes(ps[1..]);
      CreatedInvokes(ps[1..]);
    }
  }

  /** Appending a segment that writes no record and dispatches `ps`. */
  lemma SegmentFacts(log: seq<Effect>, seg: seq<Effect>, ps: seq<Payload>)
    requires Invoked(seg) == ps && Created(seg) == {}
    ensures Created(log + seg) == Created(log)
    ensures forall x, s :: Dispatched(log + seg, x, s) == Dispatched(log, x, s) + Count(ps, x, s)
  {
    CreatedAppend(log, seg);
    InvokedAppend(log, seg);
    forall x, s ensures Dispatched(log + seg, x, s) == Dispatched(log, x, s) + Count(ps, x, s) {
      CountAppend(Invoked(log), ps, x, s);
    }
  }

  /** A single counter update: it dispatches nothing and writes no record. */
  lemma UpdateFacts(id: string, f: Field, v: nat)
    ensures Invoked([UpdateItem(id, f, v)]) == []
    ensures Created([UpdateItem(id, f, v)]) == {}
  {
    assert [UpdateItem(id, f, v)][1..] == [];
  }

  /** Dispatching the single payload `r`. */
  lemma SingleInvoke(r: Payload)
    ensures Invoked([Invoke(r)]) == [r]
    ensures Created([Invoke(r)]) == {}
    ensures forall x, s :: Count([r], x, s) == if x == r.requestId && s == r.Target() then 1 else 0
  {
    assert [Invoke(r)][1..] == [];
    assert [r][1..] == [];
  }

  /** The mapper's segment: an update, the work dispatches, an update. */
  lemma MapperSegment(u1: Effect, works: seq<Payload>, u2: Effect)
    requires u1.UpdateItem? && u2.UpdateItem?
    ensures Invoked([u1] + Invokes(works) + [u2]) == works
    ensures Created([u1] + Invokes(works) + [u2]) == {}
  {
    UpdateFacts(u1.requestId, u1.field, u1.value);
    UpdateFacts(u2.requestId, u2.field, u2.value);
    InvokedAppend([u1], Invokes(works));
    InvokedAppend([u1] + Invokes(works), [u2]);
    InvokedInvokes(works);
    CreatedAppend([u1], Invokes(works));
    CreatedAppend([u1] + Invokes(works), [u2]);
    CreatedInvokes(works);
  }

  /** Every invocation in `Invokes(ps)` is for request `id` when every payload is. */
  lemma InvokesFor(ps: seq<Payload>, id: string)
    requires forall k :: 0 <= k < |ps| ==> ps[k].requestId == id
    ensures forall e :: e in Invokes(ps) && e.Invoke? ==> e.payload.requestId == id
  {
    forall e | e in Invokes(ps) && e.Invoke? ensures e.payload.requestId == id {
      var k :| 0 <= k < |ps| && Invokes(ps)[k] == e;
    }
  }

  // ---------------------------------------------------------------------
  // Preservation, step by step

  lemma AbortPreserves(w: World, i: nat)
    requires Inv(w) && i < |w.pending|
    ensures Inv(Abort(w, i))
  {
    var w' := Abort(w, i);
    forall id | id in w'.table ensures CountersOk(w'.table[id], w', id) {
      CountRemove(w.pending, i, id, MapStage);
      CountRemove(w.pending, i, id, WorkStage);
      CountRemove(w.pending, i, id, ReduceStage);
    }
  }

  lemma DriverPreserves(w: World, body: Body, freshId: string)
    requires Inv(w) && freshId !in w.table
    ensures Inv(DriverStep(w, body, freshId).0)
  {
    match Validate(body)
    case Rejected(_) =>
    case Accepted(format, inputs, filterString) =>
      DriverAcceptedPreserves(w, freshId, format, inputs, filterString);
  }

  lemma DriverAcceptedPreserves(w: World, freshId: string, format: string, inputs: seq<Input>, filterString: string)
    requires Inv(w) && freshId !in w.table
    ensures var item := InitialRecord(|inputs|);
      var mappers := MapperPayloads(freshId, format, filterString, inputs);
      Inv(World(w.table[freshId := item], w.pending + mappers, w.log + [PutItem(freshId, item)] + Invokes(mappers)))
  {
    var item := InitialRecord(|inputs|);
    var mappers := MapperPayloads(freshId, format, filterString, inputs);
    var put := [PutItem(freshId, item)];
    var log1 := w.log + put;
    var w' := World(w.table[freshId := item], w.pending + mappers, log1 + Invokes(mappers));
    DriverLog(w.log, freshId, item, mappers);
    assert Created(w'.log) == w'.table.Keys;
    forall id | id in w'.table ensures CountersOk(w'.table[id], w', id) {
      DriverCountersOk(w, w', freshId, format, filterString, inputs, id);
    }
    forall id, s | id !in w'.table ensures Dispatched(w'.log, id, s) == 0 {
      CountMapperPayloads(freshId, format, filterString, inputs, id, s);
    }
    assert PendingKnown(w') by {
      forall p | p in w'.pending ensures p.requestId in w'.table {
        if p !in w.pending {
          var k :| 0 <= k < |mappers| && mappers[k] == p;
        }
      }
    }
    DriverHistory(w.log, freshId, item, mappers);
  }

  /** The driver's effects in the log: the record, then the mapper dispatches. */
  lemma DriverLog(log: seq<Effect>, freshId: string, item: Record, mappers: seq<Payload>)
    ensures Created(log + [PutItem(freshId, item)] + Invokes(mappers)) == Created(log) + {freshId}
    ensures forall x, s ::
      (Dispatched(log + [PutItem(freshId, item)] + Invokes(mappers), x, s) == Dispatched(log, x, s) + Count(mappers, x, s))
  {
    var put := [PutItem(freshId, item)];
    var log1 := log + put;
    assert put[1..] == [];
    assert Invoked(put[1..]) == [] && Created(put[1..]) == {};
    assert Invoked(put) == [];
    assert Created(put) == {freshId};
    CreatedAppend(log, put);
    InvokedAppend(log, put);
    InvokedInvokes(mappers);
    CreatedInvokes(mappers);
    SegmentFacts(log1, Invokes(mappers), mappers);
    assert Invoked(log1) == Invoked(log) + [] == Invoked(log);
  }

  lemma DriverHistory(log: seq<Effect>, freshId: string, item: Record, mappers: seq<Payload>)
    requires HistoryOrdered(log)
    requires forall k :: 0 <= k < |mappers| ==> mappers[k].requestId == freshId
    ensures HistoryOrdered(log + [PutItem(freshId, item)] + Invokes(mappers))
  {
    HistoryPut(log, freshId, item);
    InvokesFor(mappers, freshId);
    HistoryExtend(log + [PutItem(freshId, item)], Invokes(mappers));
  }

  lemma HistoryPut(log: seq<Effect>, id: string, item: Record)
    requires HistoryOrdered(log)
    ensures HistoryOrdered(log + [PutItem(id, item)])
    ensures id in Created(log + [PutItem(id, item)])
  {
    var put := [PutItem(id, item)];
    assert put[1..] == [];
    CreatedAppend(log, put);
    HistoryExtend(log, put);
  }

  lemma DriverCountersOk(w: World, w': World, freshId: string, format: string, filterString: string, inputs: seq<Input>, id: string)
    requires Inv(w) && freshId !in w.table
    requires w'.table == w.table[freshId := InitialRecord(|inputs|)]
    requires w'.pending == w.pending + MapperPayloads(freshId, format, filterString, inputs)
    requires forall x, s ::
      (Dispatched(w'.log, x, s) == Dispatched(w.log, x, s) + Count(MapperPayloads(freshId, format, filterString, inputs), x, s))
    requires id in w'.table
    ensures CountersOk(w'.table[id], w', id)
  {
    DriverCounts(w, freshId, format, filterString, inputs, id, MapStage);
    DriverCounts(w, freshId, format, filterString, inputs, id, WorkStage);
    DriverCounts(w, freshId, format, filterString, inputs, id, ReduceStage);
    if id != freshId {
      assert CountersOk(w.table[id], w, id);
    }
  }

  /** The queue after the driver: the fresh request has exactly its mappers pending. */
  lemma DriverCounts(w: World, freshId: string, format: string, filterString: string, inputs: seq<Input>, id: string, s: Stage)
    requires forall p :: p in w.pending ==> p.requestId in w.table
    requires freshId !in w.table
    ensures var mappers := MapperPayloads(freshId, format, filterString, inputs);
      && Count(w.pending + mappers, id, s) == Count(w.pending, id, s) + Count(mappers, id, s)
      && Count(mappers, id, s) == (if id == freshId && s == MapStage then |inputs| else 0)
      && (id == freshId ==> Count(w.pending, id, s) == 0)
  {
    var mappers := MapperPayloads(freshId, format, filterString, inputs);
    CountAppend(w.pending, mappers, id, s);
    CountMapperPayloads(freshId, format, filterString, inputs, id, s);
    if id == freshId {
      CountAbsent(w.pending, freshId, s);
    }
  }

  /** The queue after invocation `i` started and `extra` was dispatched. */
  lemma Requeue(q: seq<Payload>, i: nat, extra: seq<Payload>, x: string, s: Stage)
    requires i < |q|
    ensures Count(Remove(q, i) + extra, x, s)
      == Count(q, x, s) - (if q[i].requestId == x && q[i].Target() == s then 1 else 0) + Count(extra, x, s)
  {
    CountRemove(q, i, x, s);
    CountAppend(Remove(q, i), extra, x, s);
  }

  lemma SegmentInvokesFor(u1: Effect, works: seq<Payload>, u2: Effect, id: string)
    requires u1.UpdateItem? && u2.UpdateItem?
    requires forall k :: 0 <= k < |works| ==> works[k].requestId == id
    ensures forall e :: e in [u1] + Invokes(works) + [u2] && e.Invoke? ==> e.payload.requestId == id
  {
    InvokesFor(works, id);
  }

  lemma MapperPreserves(w: World, i: nat, numRowGroups: Option<nat>)
    requires Inv(w) && i < |w.pending| && w.pending[i].MapperPayload?
    ensures Inv(MapperStep(w, i, numRowGroups))
    ensures MapperRuns(w, i, numRowGroups) ==>
      Dispatched(MapperStep(w, i, numRowGroups).log, w.pending[i].requestId, ReduceStage) == 0
    ensures forall x :: Dispatched(MapperStep(w, i, numRowGroups).log, x, ReduceStage) == Dispatched(w.log, x, ReduceStage)
  {
    if !MapperRuns(w, i, numRowGroups) {
      AbortPreserves(w, i);
    } else {
      MapperRunPreserves(w, i, numRowGroups.value);
    }
  }

  lemma MapperRunPreserves(w: World, i: nat, n: nat)
    requires Inv(w) && i < |w.pending| && w.pending[i].MapperPayload?
    requires MapperRuns(w, i, Some(n))
    ensures Inv(MapperStep(w, i, Some(n)))
    ensures Dispatched(MapperStep(w, i, Some(n)).log, w.pending[i].requestId, ReduceStage) == 0
    ensures forall x :: Dispatched(MapperStep(w, i, Some(n)).log, x, ReduceStage) == Dispatched(w.log, x, ReduceStage)
  {
    var p := w.pending[i];
    var id := p.requestId;
    var specs := Partition(HandlerFor(p.format).value, p.bucket, p.prefix, n);
    var works := WorkPayloads(id, p.format, p.filterString, specs);
    var t1 := Raise(w.table, id, ExpectedWork, |specs|);
    var t2 := Raise(t1, id, CompletedMapper, 1);
    var u1 := UpdateItem(id, ExpectedWork, t1[id].expectedWork);
    var u2 := UpdateItem(id, CompletedMapper, t2[id].completedMapper);
    var seg := [u1] + Invokes(works) + [u2];
    var w' := World(t2, Remove(w.pending, i) + works, w.log + seg);
    assert MapperStep(w, i, Some(n)) == w';
    MapperWorldPreserves(w, i, specs, works, u1, u2, w');
  }

  /** The world `mapper` leaves behind, given by its parts. */
  lemma MapperWorldPreserves(w: World, i: nat, specs: seq<ChunkSpec>, works: seq<Payload>, u1: Effect, u2: Effect, w': World)
    requires Inv(w) && i < |w.pending| && w.pending[i].MapperPayload? && w.pending[i].requestId in w.table
    requires u1.UpdateItem? && u2.UpdateItem?
    requires works == WorkPayloads(w.pending[i].requestId, w.pending[i].format, w.pending[i].filterString, specs)
    requires w'.table == Raise(Raise(w.table, w.pending[i].requestId, ExpectedWork, |specs|), w.pending[i].requestId, CompletedMapper, 1)
    requires w'.pending == Remove(w.pending, i) + works
    requires w'.log == w.log + ([u1] + Invokes(works) + [u2])
    ensures Inv(w')
    ensures Dispatched(w'.log, w.pending[i].requestId, ReduceStage) == 0
    ensures forall x :: Dispatched(w'.log, x, ReduceStage) == Dispatched(w.log, x, ReduceStage)
  {
    MapperTableFacts(w, i, specs, works, u1, u2, w');
    MapperLogFacts(w, i, specs, works, u1, u2, w');
  }

  lemma MapperTableFacts(w: World, i: nat, specs: seq<ChunkSpec>, works: seq<Payload>, u1: Effect, u2: Effect, w': World)
    requires Inv(w) && i < |w.pending| && w.pending[i].MapperPayload? && w.pending[i].requestId in w.table
    requires u1.UpdateItem? && u2.UpdateItem?
    requires works == WorkPayloads(w.pending[i].requestId, w.pending[i].format, w.pending[i].filterString, specs)
    requires w'.table == Raise(Raise(w.table, w.pending[i].requestId, ExpectedWork, |specs|), w.pending[i].requestId, CompletedMapper, 1)
    requires w'.pending == Remove(w.pending, i) + works
    requires w'.log == w.log + ([u1] + Invokes(works) + [u2])
    ensures Created(w'.log) == w'.table.Keys
    ensures AllCountersOk(w') && UnknownUndispatched(w')
    ensures forall x :: Dispatched(w'.log, x, ReduceStage) == Dispatched(w.log, x, ReduceStage)
  {
    var p := w.pending[i];
    var seg := [u1] + Invokes(works) + [u2];
    MapperSegment(u1, works, u2);
    SegmentFacts(w.log, seg, works);
    MapperAllCountersOk(w, i, specs, works, w');
    MapperUnknownUndispatched(w, p.requestId, p.format, p.filterString, specs, w');
  }

  lemma MapperLogFacts(w: World, i: nat, specs: seq<ChunkSpec>, works: seq<Payload>, u1: Effect, u2: Effect, w': World)
    requires Inv(w) && i < |w.pending| && w.pending[i].MapperPayload? && w.pending[i].requestId in w.table
    requires u1.UpdateItem? && u2.UpdateItem?
    requires works == WorkPayloads(w.pending[i].requestId, w.pending[i].format, w.pending[i].filterString, specs)
    requires w'.table.Keys == w.table.Keys
    requires w'.pending == Remove(w.pending, i) + works
    requires w'.log == w.log + ([u1] + Invokes(works) + [u2])
    ensures PendingKnown(w') && HistoryOrdered(w'.log)
    ensures Dispatched(w'.log, w.pending[i].requestId, ReduceStage) == 0
  {
    var p := w.pending[i];
    var seg := [u1] + Invokes(works) + [u2];
    MapperSegment(u1, works, u2);
    SegmentFacts(w.log, seg, works);
    MapperPendingKnown(w, i, works, w');
    MapperHistory(w.log, u1, works, u2, p.requestId);
    MapperNoReducer(w, i);
    CountWorkPayloads(p.requestId, p.format, p.filterString, specs, p.requestId, ReduceStage);
  }

  /** The mapper's segment only dispatches work for its own, created, request. */
  lemma MapperHistory(log: seq<Effect>, u1: Effect, works: seq<Payload>, u2: Effect, id: string)
    requires HistoryOrdered(log) && id in Created(log)
    requires u1.UpdateItem? && u2.UpdateItem?
    requires forall k :: 0 <= k < |works| ==> works[k].requestId == id
    ensures HistoryOrdered(log + ([u1] + Invokes(works) + [u2]))
  {
    SegmentInvokesFor(u1, works, u2, id);
    HistoryExtend(log, [u1] + Invokes(works) + [u2]);
  }

  /** Work invocations go to a request with a record only. */
  lemma MapperUnknownUndispatched(w: World, id: string, format: string, filterString: string, specs: seq<ChunkSpec>, w': World)
    requires UnknownUndispatched(w) && id in w.table && w'.table.Keys == w.table.Keys
    requires forall y, s :: (Dispatched(w'.log, y, s)
      == Dispatched(w.log, y, s) + Count(WorkPayloads(id, format, filterString, specs), y, s))
    ensures UnknownUndispatched(w')
    ensures forall x :: Dispatched(w'.log, x, ReduceStage) == Dispatched(w.log, x, ReduceStage)
  {
    forall x, s | x !in w'.table ensures Dispatched(w'.log, x, s) == 0 {
      CountWorkPayloads(id, format, filterString, specs, x, s);
    }
    forall x ensures Dispatched(w'.log, x, ReduceStage) == Dispatched(w.log, x, ReduceStage) {
      CountWorkPayloads(id, format, filterString, specs, x, ReduceStage);
    }
  }

  /** While a mapper of a request is pending, its reducer has not been dispatched. */
  lemma MapperNoReducer(w: World, i: nat)
    requires Inv(w) && i < |w.pending| && w.pending[i].MapperPayload?
    ensures Dispatched(w.log, w.pending[i].requestId, ReduceStage) == 0
  {
    var id := w.pending[i].requestId;
    assert w.pending[i] in w.pending;
    assert CountersOk(w.table[id], w, id);
    CountRemove(w.pending, i, id, MapStage);
  }

  lemma MapperAllCountersOk(w: World, i: nat, specs: seq<ChunkSpec>, works: seq<Payload>, w': World)
    requires AllCountersOk(w) && i < |w.pending| && w.pending[i].MapperPayload? && w.pending[i].requestId in w.table
    requires works == WorkPayloads(w.pending[i].requestId, w.pending[i].format, w.pending[i].filterString, specs)
    requires w'.table == Raise(Raise(w.table, w.pending[i].requestId, ExpectedWork, |specs|), w.pending[i].requestId, CompletedMapper, 1)
    requires w'.pending == Remove(w.pending, i) + works
    requires forall y, s :: (Dispatched(w'.log, y, s) == Dispatched(w.log, y, s) + Count(works, y, s))
    ensures AllCountersOk(w')
  {
    forall x | x in w'.table ensures CountersOk(w'.table[x], w', x) {
      assert CountersOk(w.table[x], w, x);
      MapperCountersOk(w, i, w.pending[i].requestId, specs, works, w', x);
    }
  }

  lemma MapperPendingKnown(w: World, i: nat, works: seq<Payload>, w': World)
    requires PendingKnown(w) && i < |w.pending| && w.pending[i].requestId in w'.table
    requires w.table.Keys == w'.table.Keys
    requires forall k :: 0 <= k < |works| ==> works[k].requestId == w.pending[i].requestId
    requires w'.pending == Remove(w.pending, i) + works
    ensures PendingKnown(w')
  {
    forall q | q in w'.pending ensures q.requestId in w'.table {
      if q !in Remove(w.pending, i) {
        var k :| 0 <= k < |works| && works[k] == q;
      }
    }
  }

  lemma MapperCountersOk(w: World, i: nat, id: string, specs: seq<ChunkSpec>, works: seq<Payload>, w': World, x: string)
    requires i < |w.pending| && w.pending[i].MapperPayload? && w.pending[i].requestId == id
    requires id in w.table && x in w.table
    requires CountersOk(w.table[x], w, x)
    requires works == WorkPayloads(id, w.pending[i].format, w.pending[i].filterString, specs)
    requires w'.table == Raise(Raise(w.table, id, ExpectedWork, |specs|), id, CompletedMapper, 1)
    requires w'.pending == Remove(w.pending, i) + works
    requires forall y, s :: (Dispatched(w'.log, y, s) == Dispatched(w.log, y, s) + Count(works, y, s))
    ensures CountersOk(w'.table[x], w', x)
  {
    var p := w.pending[i];
    Requeue(w.pending, i, works, x, MapStage);
    Requeue(w.pending, i, works, x, WorkStage);
    Requeue(w.pending, i, works, x, ReduceStage);
    CountWorkPayloads(id, p.format, p.filterString, specs, x, MapStage);
    CountWorkPayloads(id, p.format, p.filterString, specs, x, WorkStage);
    CountWorkPayloads(id, p.format, p.filterString, specs, x, ReduceStage);
    var r, r' := w.table[x], w'.table[x];
    if x == id {
      assert r'.expectedWork == r.expectedWork + |specs|;
      assert r'.completedMapper == r.completedMapper + 1;
      assert r'.expectedMapper == r.expectedMapper && r'.completedWork == r.completedWork;
      assert r'.expectedReducer == r.expectedReducer && r'.completedReducer == r.completedReducer;
    } else {
      assert r' == r;
    }
  }

  /**
   * A started work or reducer invocation counting itself as completed:
   * one increment, nothing dispatched.
   */
  lemma CompletionPreserves(w: World, i: nat, f: Field, v: nat)
    requires Inv(w) && i < |w.pending| && w.pending[i].requestId in w.table
    requires (f == CompletedWork && w.pending[i].WorkPayload?) || (f == CompletedReducer && w.pending[i].ReducerPayload?)
    ensures var id := w.pending[i].requestId;
      var w' := World(Raise(w.table, id, f, 1), Remove(w.pending, i), w.log + [UpdateItem(id, f, v)]);
      && Inv(w')
      && (forall y, s :: Dispatched(w'.log, y, s) == Dispatched(w.log, y, s))
      && (f == CompletedWork ==> Dispatched(w'.log, id, ReduceStage) == 0)
  {
    var id := w.pending[i].requestId;
    var seg := [UpdateItem(id, f, v)];
    var w' := World(Raise(w.table, id, f, 1), Remove(w.pending, i), w.log + seg);
    UpdateFacts(id, f, v);
    SegmentFacts(w.log, seg, []);
    forall x | x in w'.table ensures CountersOk(w'.table[x], w', x) {
      assert CountersOk(w.table[x], w, x);
      CompletionCountersOk(w, i, f, w', x);
    }
    HistoryExtend(w.log, seg);
    if f == CompletedWork {
      CountRemove(w.pending, i, id, WorkStage);
      assert CountersOk(w.table[id], w, id);
    }
  }

  lemma CompletionCountersOk(w: World, i: nat, f: Field, w': World, x: string)
    requires i < |w.pending| && w.pending[i].requestId in w.table && x in w.table
    requires (f == CompletedWork && w.pending[i].WorkPayload?) || (f == CompletedReducer && w.pending[i].ReducerPayload?)
    requires CountersOk(w.table[x], w, x)
    requires w'.table == Raise(w.table, w.pending[i].requestId, f, 1)
    requires w'.pending == Remove(w.pending, i)
    requires forall y, s :: (Dispatched(w'.log, y, s) == Dispatched(w.log, y, s) + Count([], y, s))
    ensures CountersOk(w'.table[x], w', x)
  {
    CountRemove(w.pending, i, x, MapStage);
    CountRemove(w.pending, i, x, WorkStage);
    CountRemove(w.pending, i, x, ReduceStage);
    var r, r' := w.table[x], w'.table[x];
    if x == w.pending[i].requestId {
      assert r'.expectedWork == r.expectedWork && r'.expectedMapper == r.expectedMapper;
      assert r'.completedMapper == r.completedMapper && r'.expectedReducer == r.expectedReducer;
      if f == CompletedWork {
        assert r'.completedWork == r.completedWork + 1 && r'.completedReducer == r.completedReducer;
      } else {
        assert r'.completedWork == r.completedWork && r'.completedReducer == r.completedReducer + 1;
      }
    } else {
      assert r' == r;
    }
  }

  /** The completion check, run when no reducer has been dispatched for `id` yet. */
  lemma ReduceIfDonePreserves(w: World, id: string, format: string)
    requires Inv(w) && id in w.table && Dispatched(w.log, id, ReduceStage) == 0
    ensures var w' := ReduceIfDone(w, id, format);
      && Inv(w')
      && w'.table == w.table
      && Dispatched(w'.log, id, ReduceStage) == (if DoneMapping(w.table[id]) && DoneWorking(w.table[id]) then 1 else 0)
      && (forall x, s :: x != id || s != ReduceStage ==> Dispatched(w'.log, x, s) == Dispatched(w.log, x, s))
  {
    if DoneMapping(w.table[id]) && DoneWorking(w.table[id]) {
      var r := ReducerPayload(id, format);
      var seg := [Invoke(r)];
      var w' := World(w.table, w.pending + [r], w.log + seg);
      SingleInvoke(r);
      SegmentFacts(w.log, seg, [r]);
      assert CountersOk(w.table[id], w, id);
      forall x | x in w'.table ensures CountersOk(w'.table[x], w', x) {
        assert CountersOk(w.table[x], w, x);
        CountAppend(w.pending, [r], x, MapStage);
        CountAppend(w.pending, [r], x, WorkStage);
        CountAppend(w.pending, [r], x, ReduceStage);
      }
      assert PendingKnown(w');
      HistoryExtend(w.log, seg);
    }
  }

  lemma DoWorkPreserves(w: World, i: nat, filterSucceeds: bool)
    requires Inv(w) && i < |w.pending| && w.pending[i].WorkPayload?
    ensures Inv(DoWorkStep(w, i, filterSucceeds))
  {
    var p := w.pending[i];
    if HandlerFor(p.format).None? || !filterSucceeds || p.requestId !in w.table {
      AbortPreserves(w, i);
    } else {
      var t := Raise(w.table, p.requestId, CompletedWork, 1);
      CompletionPreserves(w, i, CompletedWork, t[p.requestId].completedWork);
      var counted := World(t, Remove(w.pending, i),
        w.log + [UpdateItem(p.requestId, CompletedWork, t[p.requestId].completedWork)]);
      ReduceIfDonePreserves(counted, p.requestId, p.format);
    }
  }

  lemma ReducerPreserves(w: World, i: nat, mergeSucceeds: bool)
    requires Inv(w) && i < |w.pending| && w.pending[i].ReducerPayload?
    ensures Inv(ReducerStep(w, i, mergeSucceeds))
  {
    var p := w.pending[i];
    if HandlerFor(p.format).None? || !mergeSucceeds || p.requestId !in w.table {
      AbortPreserves(w, i);
    } else {
      var t := Raise(w.table, p.requestId, CompletedReducer, 1);
      CompletionPreserves(w, i, CompletedReducer, t[p.requestId].completedReducer);
    }
  }

  // ---------------------------------------------------------------------
  // Any interleaving

  lemma MapperCheckedPreserves(w: World, i: nat, numRowGroups: Option<nat>)
    requires Inv(w) && i < |w.pending| && w.pending[i].MapperPayload?
    ensures Inv(MapperStepChecked(w, i, numRowGroups))
  {
    MapperPreserves(w, i, numRowGroups);
    if MapperRuns(w, i, numRowGroups) {
      ReduceIfDonePreserves(MapperStep(w, i, numRowGroups), w.pending[i].requestId, w.pending[i].format);
    }
  }

  lemma ApplyPreserves(w: World, a: Action, checked: bool)
    requires Inv(w) && Enabled(w, a)
    ensures Inv(Apply(w, a, checked))
  {
    match a
    case Submit(body, freshId) => DriverPreserves(w, body, freshId);
    case RunMapper(i, n) =>
      if checked {
        MapperCheckedPreserves(w, i, n);
      } else {
        MapperPreserves(w, i, n);
      }
    case RunWork(i, ok) => DoWorkPreserves(w, i, ok);
    case RunReducer(i, ok) => ReducerPreserves(w, i, ok);
  }

  lemma {:induction false} ExecutePreserves(w: World, schedule: seq<Action>, checked: bool)
    requires Inv(w) && Execute(w, schedule, checked).Some?
    ensures Inv(Execute(w, schedule, checked).value)
    decreases |schedule|
  {
    if schedule != [] {
      ApplyPreserves(w, schedule[0], checked);
      ExecutePreserves(Apply(w, schedule[0], checked), schedule[1..], checked);
    }
  }

  /**
   * Whatever order the dispatched invocations run in (and whichever of them
   * fail), every request's completed counts stay within its expected counts,
   * at most one reducer is dispatched for it, only once every mapper and
   * every work item has counted itself, and every dispatch comes after the
   * request's record was written.
   */
  lemma AnyInterleavingIsSafe(schedule: seq<Action>, checked: bool, id: string)
    requires Execute(Empty, schedule, checked).Some?
    requires id in Execute(Empty, schedule, checked).value.table
    ensures var w := Execute(Empty, schedule, checked).value;
      && w.table[id].completedMapper <= w.table[id].expectedMapper
      && w.table[id].completedWork <= w.table[id].expectedWork
      && w.table[id].completedReducer <= w.table[id].expectedReducer
      && Dispatched(w.log, id, ReduceStage) <= 1
      && (Dispatched(w.log, id, ReduceStage) == 1 ==> DoneMapping(w.table[id]) && DoneWorking(w.table[id]))
      && HistoryOrdered(w.log)
  {
    InitialInv();
    ExecutePreserves(Empty, schedule, checked);
    Bounds(Execute(Empty, schedule, checked).value, id);
  }
}
