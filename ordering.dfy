/**
 * The order inside the mapper: it raises the expected work of its request by
 * its chunk count before it dispatches any of those chunks. The effect log
 * shows this: before every work dispatch, fewer work items of that request
 * have been dispatched than the expected-work value last written for it.
 * A mapper that dispatched first and raised the count afterwards would leave
 * the same table and the same counts, but not this log.
 */
module Ordering {
  import opened Records
  import opened Requests
  import opened Protocol
  import opened Safety

  /** Whether `e` writes the expected work of `id` (the initial record or an increment). */
  predicate WritesExpectedWork(e: Effect, id: string)
  {
    || (e.PutItem? && e.requestId == id)
    || (e.UpdateItem? && e.requestId == id && e.field == ExpectedWork)
  }

  /** The expected-work value the log last wrote for `id`; 0 before any write. */
  function LastExpectedWork(log: seq<Effect>, id: string): nat
  {
    if log == [] then 0
    else
      var e := log[|log| - 1];
      if !WritesExpectedWork(e, id) then LastExpectedWork(log[..|log| - 1], id)
      else if e.PutItem? then e.item.expectedWork
      else e.value
  }

  /** Every work dispatch in the log is covered by an expected-work value written before it. */
  ghost predicate WorkAnnounced(log: seq<Effect>)
  {
    forall j :: 0 <= j < |log| && log[j].Invoke? && log[j].payload.WorkPayload? ==>
      Dispatched(log[..j], log[j].payload.requestId, WorkStage)
        < LastExpectedWork(log[..j], log[j].payload.requestId)
  }

  /** Each record's expected work is the value the log last wrote for it. */
  ghost predicate Mirrored(w: World)
  {
    forall id :: id in w.table ==> LastExpectedWork(w.log, id) == w.table[id].expectedWork
  }

  ghost predicate Announced(w: World)
  {
    Mirrored(w) && WorkAnnounced(w.log)
  }

  // ---------------------------------------------------------------------
  // Reading the log

  lemma {:induction false} LastQuiet(log: seq<Effect>, seg: seq<Effect>, id: string)
    requires forall e :: e in seg ==> !WritesExpectedWork(e, id)
    ensures LastExpectedWork(log + seg, id) == LastExpectedWork(log, id)
    decreases |seg|
  {
    if seg == [] {
      assert log + seg == log;
    } else {
      var init := seg[..|seg| - 1];
      assert (log + seg)[..|log + seg| - 1] == log + init;
      assert seg[|seg| - 1] in seg;
      assert forall e :: e in init ==> e in seg;
      LastQuiet(log, init, id);
    }
  }

  lemma LastWrite(log: seq<Effect>, e: Effect, id: string)
    requires WritesExpectedWork(e, id)
    ensures LastExpectedWork(log + [e], id) == if e.PutItem? then e.item.expectedWork else e.value
  {
    assert (log + [e])[..|log|] == log;
  }

  lemma {:induction false} CountAll(ps: seq<Payload>, id: string, s: Stage)
    requires forall p :: p in ps ==> p.requestId == id && p.Target() == s
    ensures Count(ps, id, s) == |ps|
  {
    if ps != [] {
      assert ps[0] in ps;
      assert forall p :: p in ps[1..] ==> p in ps;
      CountAll(ps[1..], id, s);
    }
  }

  /** Appending `seg` keeps every dispatch covered when each work dispatch in `seg` is covered. */
  lemma WorkExtend(log: seq<Effect>, seg: seq<Effect>)
    requires WorkAnnounced(log)
    requires forall k :: 0 <= k < |seg| && seg[k].Invoke? && seg[k].payload.WorkPayload? ==>
      Dispatched(log + seg[..k], seg[k].payload.requestId, WorkStage)
        < LastExpectedWork(log + seg[..k], seg[k].payload.requestId)
    ensures WorkAnnounced(log + seg)
  {
    var all := log + seg;
    forall j | 0 <= j < |all| && all[j].Invoke? && all[j].payload.WorkPayload?
      ensures Dispatched(all[..j], all[j].payload.requestId, WorkStage)
        < LastExpectedWork(all[..j], all[j].payload.requestId)
    {
      if j < |log| {
        assert all[..j] == log[..j];
      } else {
        assert all[..j] == log + seg[..j - |log|];
        assert all[j] == seg[j - |log|];
      }
    }
  }

  /**
   * A step that dispatches no work and writes no expected work, and leaves
   * every record's expected work as it was, keeps the log announced.
   */
  lemma QuietStep(w: World, w': World, seg: seq<Effect>)
    requires Announced(w)
    requires w'.log == w.log + seg
    requires forall e :: e in seg && e.Invoke? ==> !e.payload.WorkPayload?
    requires forall e, id :: e in seg ==> !WritesExpectedWork(e, id)
    requires forall id :: id in w'.table ==> id in w.table && w'.table[id].expectedWork == w.table[id].expectedWork
    ensures Announced(w')
  {
    forall k | 0 <= k < |seg|
      ensures !(seg[k].Invoke? && seg[k].payload.WorkPayload?)
    {
      assert seg[k] in seg;
    }
    WorkExtend(w.log, seg);
    forall id | id in w'.table
      ensures LastExpectedWork(w'.log, id) == w'.table[id].expectedWork
    {
      LastQuiet(w.log, seg, id);
    }
  }

  // ---------------------------------------------------------------------
  // Each step keeps the log announced

  lemma AbortAnnounced(w: World, i: nat)
    requires Announced(w) && i < |w.pending|
    ensures Announced(Abort(w, i))
  {
    assert w.log + [] == w.log;
    QuietStep(w, Abort(w, i), []);
  }

  lemma DriverAnnounced(w: World, body: Body, freshId: string)
    requires Announced(w)
    ensures Announced(DriverStep(w, body, freshId).0)
  {
    match Validate(body)
    case Rejected(_) =>
    case Accepted(format, inputs, filterString) =>
      var item := InitialRecord(|inputs|);
      var mappers := MapperPayloads(freshId, format, filterString, inputs);
      var w' := DriverStep(w, body, freshId).0;
      assert w'.log == w.log + ([PutItem(freshId, item)] + Invokes(mappers));
      DriverSegmentAnnounced(w, w', freshId, item, mappers);
  }

  /** The driver's segment: the initial record, then mapper dispatches only. */
  lemma DriverSegmentAnnounced(w: World, w': World, freshId: string, item: Record, mappers: seq<Payload>)
    requires Announced(w)
    requires w'.log == w.log + ([PutItem(freshId, item)] + Invokes(mappers))
    requires w'.table == w.table[freshId := item]
    requires forall p :: p in mappers ==> p.MapperPayload?
    ensures Announced(w')
  {
    var put := PutItem(freshId, item);
    var seg := [put] + Invokes(mappers);
    forall k | 0 <= k < |seg|
      ensures !(seg[k].Invoke? && seg[k].payload.WorkPayload?)
    {
      if k > 0 {
        assert seg[k] == Invoke(mappers[k - 1]);
        assert mappers[k - 1] in mappers;
      }
    }
    WorkExtend(w.log, seg);
    forall id | id in w'.table
      ensures LastExpectedWork(w'.log, id) == w'.table[id].expectedWork
    {
      forall e | e in Invokes(mappers)
        ensures !WritesExpectedWork(e, id)
      {
        var q :| 0 <= q < |Invokes(mappers)| && Invokes(mappers)[q] == e;
      }
      if id == freshId {
        assert w'.log == (w.log + [put]) + Invokes(mappers);
        LastQuiet(w.log + [put], Invokes(mappers), id);
        LastWrite(w.log, put, id);
      } else {
        assert forall e :: e in seg ==> e == put || e in Invokes(mappers);
        LastQuiet(w.log, seg, id);
      }
    }
  }

  /** Dispatching `sent`, all work of `id`, after a write raises the work dispatched by `|sent|`. */
  lemma DispatchedAfter(log: seq<Effect>, u1: Effect, sent: seq<Payload>, id: string)
    requires !u1.Invoke?
    requires forall p :: p in sent ==> p.requestId == id && p.Target() == WorkStage
    ensures Dispatched(log + [u1] + Invokes(sent), id, WorkStage) == Dispatched(log, id, WorkStage) + |sent|
  {
    CountAll(sent, id, WorkStage);
    InvokedAppend(log + [u1], Invokes(sent));
    InvokedAppend(log, [u1]);
    InvokedInvokes(sent);
    assert Invoked([u1]) == [];
    assert Invoked(log + [u1]) == Invoked(log);
    CountAppend(Invoked(log), sent, id, WorkStage);
  }

  /** Dispatches after an expected-work write leave that write the last one. */
  lemma LastAfter(log: seq<Effect>, u1: Effect, sent: seq<Payload>, id: string)
    requires u1.UpdateItem? && u1.requestId == id && u1.field == ExpectedWork
    ensures LastExpectedWork(log + [u1] + Invokes(sent), id) == u1.value
  {
    forall e | e in Invokes(sent)
      ensures !WritesExpectedWork(e, id)
    {
      var q :| 0 <= q < |Invokes(sent)| && Invokes(sent)[q] == e;
    }
    LastQuiet(log + [u1], Invokes(sent), id);
    LastWrite(log, u1, id);
  }

  /** The mapper's `m`-th dispatch comes after `m` of its own and after the raise by `|works|`. */
  lemma MapperDispatchCovered(log: seq<Effect>, id: string, before: nat, works: seq<Payload>, u1: Effect, m: nat)
    requires Dispatched(log, id, WorkStage) == before
    requires forall p :: p in works ==> p.WorkPayload? && p.requestId == id
    requires u1 == UpdateItem(id, ExpectedWork, before + |works|)
    requires m < |works|
    ensures Dispatched(log + [u1] + Invokes(works[..m]), id, WorkStage)
      < LastExpectedWork(log + [u1] + Invokes(works[..m]), id)
  {
    var sent := works[..m];
    forall p | p in sent
      ensures p.requestId == id && p.Target() == WorkStage
    {
      assert p in works;
    }
    DispatchedAfter(log, u1, sent, id);
    LastAfter(log, u1, sent, id);
  }

  /** The first `k` effects of the mapper's segment: the raise and `k - 1` dispatches. */
  lemma SegmentPrefix(u1: Effect, works: seq<Payload>, u2: Effect, k: nat)
    requires 1 <= k <= |works|
    ensures ([u1] + Invokes(works) + [u2])[k] == Invoke(works[k - 1])
    ensures ([u1] + Invokes(works) + [u2])[..k] == [u1] + Invokes(works[..k - 1])
  {
    var seg := [u1] + Invokes(works) + [u2];
    var pre := [u1] + Invokes(works[..k - 1]);
    assert |seg[..k]| == |pre|;
    forall q | 0 <= q < k
      ensures seg[..k][q] == pre[q]
    {
      if q > 0 {
        assert seg[q] == Invokes(works)[q - 1];
      }
    }
  }

  /** The mapper's own segment: raise, dispatch, count; each dispatch is covered by the raise. */
  lemma MapperSegmentAnnounced(log: seq<Effect>, id: string, before: nat, works: seq<Payload>, u1: Effect, u2: Effect)
    requires WorkAnnounced(log)
    requires Dispatched(log, id, WorkStage) == before
    requires forall p :: p in works ==> p.WorkPayload? && p.requestId == id
    requires u1 == UpdateItem(id, ExpectedWork, before + |works|)
    requires !u2.Invoke?
    ensures WorkAnnounced(log + ([u1] + Invokes(works) + [u2]))
  {
    var seg := [u1] + Invokes(works) + [u2];
    forall k | 0 <= k < |seg| && seg[k].Invoke? && seg[k].payload.WorkPayload?
      ensures Dispatched(log + seg[..k], seg[k].payload.requestId, WorkStage)
        < LastExpectedWork(log + seg[..k], seg[k].payload.requestId)
    {
      assert 1 <= k <= |works|;
      SegmentPrefix(u1, works, u2, k);
      assert works[k - 1] in works;
      assert log + seg[..k] == log + [u1] + Invokes(works[..k - 1]);
      MapperDispatchCovered(log, id, before, works, u1, k - 1);
    }
    WorkExtend(log, seg);
  }

  lemma MapperAnnounced(w: World, i: nat, numRowGroups: Option<nat>)
    requires Inv(w) && Announced(w)
    requires i < |w.pending| && w.pending[i].MapperPayload?
    ensures Announced(MapperStep(w, i, numRowGroups))
  {
    if !MapperRuns(w, i, numRowGroups) {
      AbortAnnounced(w, i);
    } else {
      var p := w.pending[i];
      var id := p.requestId;
      var specs := Partition(HandlerFor(p.format).value, p.bucket, p.prefix, numRowGroups.value);
      var works := WorkPayloads(id, p.format, p.filterString, specs);
      var t1 := Raise(w.table, id, ExpectedWork, |specs|);
      var t2 := Raise(t1, id, CompletedMapper, 1);
      var u1 := UpdateItem(id, ExpectedWork, t1[id].expectedWork);
      var u2 := UpdateItem(id, CompletedMapper, t2[id].completedMapper);
      var seg := [u1] + Invokes(works) + [u2];
      var w' := MapperStep(w, i, numRowGroups);
      assert w'.table == t2 && w'.log == w.log + seg;
      var before := w.table[id].expectedWork;
      assert CountersOk(w.table[id], w, id);
      assert t1[id].expectedWork == before + |works|;
      forall q | q in works
        ensures q.WorkPayload? && q.requestId == id
      {
        var k :| 0 <= k < |works| && works[k] == q;
      }
      MapperSegmentAnnounced(w.log, id, before, works, u1, u2);
      assert t2[id].expectedWork == t1[id].Get(ExpectedWork);
      forall x | x in t2 && x != id
        ensures t2[x] == w.table[x]
      {
      }
      MapperMirrored(w, w', id, u1, works, u2);
    }
  }

  /** After the mapper's segment, its record's expected work is the raise it logged. */
  lemma MapperMirrored(w: World, w': World, id: string, u1: Effect, works: seq<Payload>, u2: Effect)
    requires Mirrored(w) && id in w.table
    requires u1.UpdateItem? && u1.requestId == id && u1.field == ExpectedWork
    requires u2.UpdateItem? && u2.field != ExpectedWork
    requires w'.log == w.log + ([u1] + Invokes(works) + [u2])
    requires w'.table.Keys == w.table.Keys && id in w'.table && w'.table[id].expectedWork == u1.value
    requires forall x :: x in w'.table && x != id ==> w'.table[x] == w.table[x]
    ensures Mirrored(w')
  {
    var seg := [u1] + Invokes(works) + [u2];
    forall x | x in w'.table
      ensures LastExpectedWork(w'.log, x) == w'.table[x].expectedWork
    {
      forall e | e in Invokes(works) + [u2]
        ensures !WritesExpectedWork(e, x)
      {
        if e != u2 {
          var q :| 0 <= q < |Invokes(works)| && Invokes(works)[q] == e;
        }
      }
      if x == id {
        assert w'.log == (w.log + [u1]) + (Invokes(works) + [u2]);
        LastQuiet(w.log + [u1], Invokes(works) + [u2], x);
        LastWrite(w.log, u1, x);
      } else {
        assert forall e :: e in seg ==> e == u1 || e in Invokes(works) + [u2];
        LastQuiet(w.log, seg, x);
      }
    }
  }

  lemma ReduceIfDoneAnnounced(w: World, id: string, format: string)
    requires Announced(w) && id in w.table
    ensures Announced(ReduceIfDone(w, id, format))
  {
    var w' := ReduceIfDone(w, id, format);
    if DoneMapping(w.table[id]) && DoneWorking(w.table[id]) {
      QuietStep(w, w', [Invoke(ReducerPayload(id, format))]);
    }
  }

  lemma DoWorkAnnounced(w: World, i: nat, filterSucceeds: bool)
    requires Announced(w)
    requires i < |w.pending| && w.pending[i].WorkPayload?
    ensures Announced(DoWorkStep(w, i, filterSucceeds))
  {
    var p := w.pending[i];
    if HandlerFor(p.format).None? || !filterSucceeds || p.requestId !in w.table {
      AbortAnnounced(w, i);
    } else {
      var t := Raise(w.table, p.requestId, CompletedWork, 1);
      var u := UpdateItem(p.requestId, CompletedWork, t[p.requestId].completedWork);
      var counted := World(t, Remove(w.pending, i), w.log + [u]);
      forall x | x in t
        ensures t[x].expectedWork == w.table[x].expectedWork
      {
        assert t[x].Get(ExpectedWork) == w.table[x].Get(ExpectedWork);
      }
      QuietStep(w, counted, [u]);
      ReduceIfDoneAnnounced(counted, p.requestId, p.format);
    }
  }

  lemma ReducerAnnounced(w: World, i: nat, mergeSucceeds: bool)
    requires Announced(w)
    requires i < |w.pending| && w.pending[i].ReducerPayload?
    ensures Announced(ReducerStep(w, i, mergeSucceeds))
  {
    var p := w.pending[i];
    if HandlerFor(p.format).None? || !mergeSucceeds || p.requestId !in w.table {
      AbortAnnounced(w, i);
    } else {
      var t := Raise(w.table, p.requestId, CompletedReducer, 1);
      var u := UpdateItem(p.requestId, CompletedReducer, t[p.requestId].completedReducer);
      forall x | x in t
        ensures t[x].expectedWork == w.table[x].expectedWork
      {
        assert t[x].Get(ExpectedWork) == w.table[x].Get(ExpectedWork);
      }
      QuietStep(w, ReducerStep(w, i, mergeSucceeds), [u]);
    }
  }

  lemma ApplyAnnounced(w: World, a: Action, checked: bool)
    requires Inv(w) && Announced(w) && Enabled(w, a)
    ensures Announced(Apply(w, a, checked))
  {
    match a
    case Submit(body, freshId) => DriverAnnounced(w, body, freshId);
    case RunMapper(i, n) =>
      MapperAnnounced(w, i, n);
      if checked && MapperRuns(w, i, n) {
        MapperPreserves(w, i, n);
        ReduceIfDoneAnnounced(MapperStep(w, i, n), w.pending[i].requestId, w.pending[i].format);
      }
    case RunWork(i, ok) => DoWorkAnnounced(w, i, ok);
    case RunReducer(i, ok) => ReducerAnnounced(w, i, ok);
  }

  lemma {:induction false} ExecuteAnnounced(w: World, schedule: seq<Action>, checked: bool)
    requires Inv(w) && Announced(w) && Execute(w, schedule, checked).Some?
    ensures Announced(Execute(w, schedule, checked).value)
    decreases |schedule|
  {
    if schedule != [] {
      ApplyAnnounced(w, schedule[0], checked);
      ApplyPreserves(w, schedule[0], checked);
      ExecuteAnnounced(Apply(w, schedule[0], checked), schedule[1..], checked);
    }
  }

  /**
   * Whatever the order of the invocations, every work item in the log was
   * dispatched after its request's expected work had been raised to cover
   * it.
   */
  lemma EveryWorkDispatchAnnounced(schedule: seq<Action>, checked: bool)
    requires Execute(Empty, schedule, checked).Some?
    ensures WorkAnnounced(Execute(Empty, schedule, checked).value.log)
  {
    InitialInv();
    ExecuteAnnounced(Empty, schedule, checked);
  }

  /**
   * The order matters: a log in which a work item is dispatched before the
   * expected work was raised for it is not announced, although the record
   * it ends with is the one the mapper, as written, leaves.
   */
  lemma DispatchBeforeRaiseNotAnnounced()
    ensures var id := "r";
      var work := WorkPayload(id, "parquet_simple", "f", RowGroup("b", "p", 0));
      !WorkAnnounced([PutItem(id, InitialRecord(1)), Invoke(work), UpdateItem(id, ExpectedWork, 1)])
  {
    var id := "r";
    var work := WorkPayload(id, "parquet_simple", "f", RowGroup("b", "p", 0));
    var put := PutItem(id, InitialRecord(1));
    var log := [put, Invoke(work), UpdateItem(id, ExpectedWork, 1)];
    assert log[..1] == [put];
    assert Invoked([put]) == [];
    assert LastExpectedWork([put], id) == 0 by {
      LastWrite([], put, id);
    }
    assert log[1].Invoke? && log[1].payload.WorkPayload?;
  }
}
