/**
 * The four lambdas and `increment_state_field` as they run against one
 * deployment: a state table updated in place, the invocation transport
 * (dispatched and not yet delivered invocations) and the log of effects.
 * Each method is proved to make exactly the transition of its step
 * function, so the protocol's invariant carries over to the deployment.
 */
module Lambdas {
  import opened Records
  import opened Requests
  import opened ConditionalIncrement
  import opened Protocol
  import opened Safety

  /** The log entries of storing `values` in field `f` of `id`, one after the other. */
  function Updates(id: string, f: Field, values: seq<nat>): seq<Effect>
  {
    if values == [] then [] else Updates(id, f, values[..|values| - 1]) + [UpdateItem(id, f, values[|values| - 1])]
  }

  lemma UpdatesSnoc(id: string, f: Field, values: seq<nat>, v: nat)
    ensures Updates(id, f, values + [v]) == Updates(id, f, values) + [UpdateItem(id, f, v)]
  {
    assert (values + [v])[..|values|] == values;
  }

  lemma InvokesSnoc(ps: seq<Payload>, p: Payload)
    ensures Invokes(ps + [p]) == Invokes(ps) + [Invoke(p)]
  {
    assert (ps + [p])[..|ps|] == ps;
  }

  /** One more dispatch extends the transport and the log by the same payload. */
  lemma DispatchStep(q: seq<Payload>, l: seq<Effect>, sent: seq<Payload>, p: Payload)
    ensures (q + sent) + [p] == q + (sent + [p])
    ensures (l + Invokes(sent)) + [Invoke(p)] == l + Invokes(sent + [p])
  {
    InvokesSnoc(sent, p);
  }

  /** The mapper's writes, made one after another, append its segment to the log. */
  lemma MapperSegmentLog(l: seq<Effect>, u1: Effect, works: seq<Payload>, u2: Effect)
    ensures l + [u1] + Invokes(works) + [u2] == l + ([u1] + Invokes(works) + [u2])
  {
    assert l + [u1] + Invokes(works) == l + ([u1] + Invokes(works));
  }

  lemma MapperPayloadsPrefix(id: string, format: string, filterString: string, inputs: seq<Input>, j: nat)
    requires j < |inputs|
    ensures MapperPayloads(id, format, filterString, inputs[..j + 1])
      == MapperPayloads(id, format, filterString, inputs[..j])
        + [MapperPayload(id, inputs[j].bucket, inputs[j].prefix, format, filterString)]
  {
    assert inputs[..j + 1][..j] == inputs[..j];
  }

  lemma WorkPayloadsPrefix(id: string, format: string, filterString: string, specs: seq<ChunkSpec>, j: nat)
    requires j < |specs|
    ensures WorkPayloads(id, format, filterString, specs[..j + 1])
      == WorkPayloads(id, format, filterString, specs[..j]) + [WorkPayload(id, format, filterString, specs[j])]
  {
    assert specs[..j + 1][..j] == specs[..j];
  }

  /** What one attempt stores: the other writer's value (if any) and then, if accepted, the caller's. */
  function AttemptWrites(id: string, f: Field, current: nat, delta: nat, other: Option<nat>): seq<Effect>
  {
    match other
    case None => [UpdateItem(id, f, current + delta)]
    case Some(v) =>
      if v == 0 then [UpdateItem(id, f, current), UpdateItem(id, f, current + delta)]
      else [UpdateItem(id, f, current + v)]
  }

  lemma AttemptWritesAccepted(id: string, f: Field, cur: nat, delta: nat, other: Option<nat>, written: seq<nat>)
    requires other.None? || other.value == 0
    ensures Updates(id, f, written) + AttemptWrites(id, f, cur, delta, other)
      == Updates(id, f, written + Settle(cur, delta, other.Some?))
  {
    if other.None? {
      UpdatesSnoc(id, f, written, cur + delta);
    } else {
      UpdatesSnoc(id, f, written, cur);
      UpdatesSnoc(id, f, written + [cur], cur + delta);
      assert written + [cur] + [cur + delta] == written + [cur, cur + delta];
    }
  }

  /** A rejected attempt: the field now holds one more interfering delta, the value the writer stored. */
  lemma RunRejected(start: nat, interference: seq<nat>, k: nat, cur: nat, written: seq<nat>)
    requires k < |interference|
    requires cur == start + Sum(interference[..k]) && written == Landed(start, interference[..k])
    ensures cur + interference[k] == start + Sum(interference[..k + 1])
    ensures written + [cur + interference[k]] == Landed(start, interference[..k + 1])
  {
    SumSnoc(interference, k);
    LandedSnoc(start, interference, k);
  }

  /**
   * The state after `k` rejected attempts on field `f` of `id`, starting
   * from table `t0` and log `l0`: the field holds the start value plus the
   * `k` interfering deltas and the log holds the values stored by the
   * interfering writers.
   */
  ghost predicate Retried(t0: map<string, Record>, l0: seq<Effect>, t: map<string, Record>, l: seq<Effect>,
                          id: string, f: Field, interference: seq<nat>, k: nat)
  {
    && id in t0 && k <= |interference|
    && (forall j :: 0 <= j < k ==> interference[j] > 0)
    && t == t0[id := t0[id].Set(f, t0[id].Get(f) + Sum(interference[..k]))]
    && l == l0 + Updates(id, f, Landed(t0[id].Get(f), interference[..k]))
  }

  lemma RetriedStart(t0: map<string, Record>, l0: seq<Effect>, id: string, f: Field, interference: seq<nat>)
    requires id in t0
    ensures Retried(t0, l0, t0, l0, id, f, interference, 0)
  {
    assert interference[..0] == [];
    SetSame(t0[id], f);
  }

  /** A rejected attempt extends the run by the interfering writer's value. */
  lemma RetriedStep(t0: map<string, Record>, l0: seq<Effect>, t: map<string, Record>, l: seq<Effect>,
                    id: string, f: Field, interference: seq<nat>, k: nat)
    requires Retried(t0, l0, t, l, id, f, interference, k)
    requires k < |interference| && interference[k] > 0
    ensures id in t
    ensures var v := t[id].Get(f) + interference[k];
      Retried(t0, l0, t[id := t[id].Set(f, v)], l + [UpdateItem(id, f, v)], id, f, interference, k + 1)
  {
    var start := t0[id].Get(f);
    var cur := start + Sum(interference[..k]);
    var written := Landed(start, interference[..k]);
    var v := cur + interference[k];
    assert t[id] == t0[id].Set(f, cur);
    RunRejected(start, interference, k, cur, written);
    UpdatesSnoc(id, f, written, v);
    SetTwice(t0[id], f, cur, v);
    assert (l0 + Updates(id, f, written)) + [UpdateItem(id, f, v)] == l0 + (Updates(id, f, written) + [UpdateItem(id, f, v)]);
  }

  /** The accepted attempt completes the run after `k` rejections. */
  lemma RetriedAccept(t0: map<string, Record>, l0: seq<Effect>, t: map<string, Record>, l: seq<Effect>,
                      id: string, f: Field, delta: nat, interference: seq<nat>, k: nat)
    requires Retried(t0, l0, t, l, id, f, interference, k)
    requires k < |interference| ==> interference[k] == 0
    ensures id in t
    ensures var start, cur := t0[id].Get(f), t[id].Get(f);
      && t[id := t[id].Set(f, cur + delta)] == t0[id := t0[id].Set(f, start + Sum(interference[..k]) + delta)]
      && l + AttemptWrites(id, f, cur, delta, if k < |interference| then Some(interference[k]) else None)
        == l0 + Updates(id, f, Landed(start, interference[..k]) + Settle(start + Sum(interference[..k]), delta, k < |interference|))
  {
    var start := t0[id].Get(f);
    var cur := start + Sum(interference[..k]);
    var written := Landed(start, interference[..k]);
    var other := if k < |interference| then Some(interference[k]) else None;
    assert t[id] == t0[id].Set(f, cur);
    SetTwice(t0[id], f, cur, cur + delta);
    AttemptWritesAccepted(id, f, cur, delta, other, written);
    assert (l0 + Updates(id, f, written)) + AttemptWrites(id, f, cur, delta, other) == l0 + (Updates(id, f, written) + AttemptWrites(id, f, cur, delta, other));
  }

  /** The loop's outcome, stated attempt by attempt, is the run `Cas` computes. */
  lemma RetryIsCas(t0: map<string, Record>, l0: seq<Effect>, t: map<string, Record>, l: seq<Effect>,
                   id: string, f: Field, delta: nat, interference: seq<nat>, attempts: nat)
    requires id in t0
    requires var start, k := t0[id].Get(f), attempts - 1;
      && 1 <= attempts <= |interference| + 1
      && (forall j :: 0 <= j < k ==> interference[j] > 0)
      && (k < |interference| ==> interference[k] == 0)
      && t == t0[id := t0[id].Set(f, start + Sum(interference[..k]) + delta)]
      && l == l0 + Updates(id, f, Landed(start, interference[..k]) + Settle(start + Sum(interference[..k]), delta, k < |interference|))
    ensures var run := Cas(t0[id].Get(f), delta, interference);
      && attempts == run.attempts
      && t == t0[id := t0[id].Set(f, run.final)]
      && l == l0 + Updates(id, f, run.writes)
  {
    CasSettles(t0[id].Get(f), delta, interference, attempts - 1);
  }

  /** The mapper's writes, made one after another, are the step `MapperStep` describes. */
  lemma MapperIsStep(w: World, i: nat, numRowGroups: Option<nat>, t1: map<string, Record>, log1: seq<Effect>,
                     log2: seq<Effect>, t: map<string, Record>, q: seq<Payload>, l: seq<Effect>)
    requires i < |w.pending| && w.pending[i].MapperPayload? && MapperRuns(w, i, numRowGroups)
    requires var p := w.pending[i];
      var specs := Partition(HandlerFor(p.format).value, p.bucket, p.prefix, numRowGroups.value);
      var works := WorkPayloads(p.requestId, p.format, p.filterString, specs);
      && t1 == Raise(w.table, p.requestId, ExpectedWork, |specs|)
      && log1 == w.log + [UpdateItem(p.requestId, ExpectedWork, w.table[p.requestId].Get(ExpectedWork) + |specs|)]
      && log2 == log1 + Invokes(works)
      && q == Remove(w.pending, i) + works
      && t == Raise(t1, p.requestId, CompletedMapper, 1)
      && l == log2 + [UpdateItem(p.requestId, CompletedMapper, t1[p.requestId].Get(CompletedMapper) + 1)]
    ensures MapperStep(w, i, numRowGroups) == World(t, q, l)
  {
    var p := w.pending[i];
    var specs := Partition(HandlerFor(p.format).value, p.bucket, p.prefix, numRowGroups.value);
    var works := WorkPayloads(p.requestId, p.format, p.filterString, specs);
    var u1 := UpdateItem(p.requestId, ExpectedWork, t1[p.requestId].expectedWork);
    var u2 := UpdateItem(p.requestId, CompletedMapper, t[p.requestId].completedMapper);
    assert log1 == w.log + [u1];
    assert l == log2 + [u2];
    MapperSegmentLog(w.log, u1, works, u2);
  }

  class Deployment {
    /** `STATE_TABLE`: one record per request id. */
    var table: map<string, Record>
    /** Invocations handed to `LAMBDA_CLIENT.invoke` and not yet delivered. */
    var pending: seq<Payload>
    /** Every effect on the table and the transport, in order. */
    var log: seq<Effect>

    function State(): World
      reads this
    {
      World(table, pending, log)
    }

    /** A fresh deployment: no records, nothing in flight, nothing done. */
    constructor ()
      ensures State() == Empty
    {
      table, pending, log := map[], [], [];
    }

    // -------------------------------------------------------------------
    // The table and the transport

    /** `put_item`: (over)write the record of `id`. */
    method PutItem(id: string, item: Record)
      modifies this
      ensures table == old(table)[id := item] && pending == old(pending)
      ensures log == old(log) + [Effect.PutItem(id, item)]
    {
      table := table[id := item];
      log := log + [Effect.PutItem(id, item)];
    }

    /** A consistent `get_item`: the stored record, `None` when there is none. */
    method GetItem(id: string) returns (item: Option<Record>)
      ensures item.Some? <==> id in table
      ensures item.Some? ==> item.value == table[id]
    {
      item := if id in table then Some(table[id]) else None;
    }

    /**
     * `update_item` with a condition: store `value` in field `f` of `id`
     * only when the stored value still equals `expected`; otherwise the
     * request fails and nothing changes.
     */
    method UpdateItemIf(id: string, f: Field, expected: nat, value: nat) returns (ok: bool)
      modifies this
      ensures ok <==> id in old(table) && old(table)[id].Get(f) == expected
      ensures ok ==> (table == old(table)[id := old(table)[id].Set(f, value)]
        && log == old(log) + [UpdateItem(id, f, value)])
      ensures !ok ==> table == old(table) && log == old(log)
      ensures pending == old(pending)
    {
      ok := id in table && table[id].Get(f) == expected;
      if ok {
        table := table[id := table[id].Set(f, value)];
        log := log + [UpdateItem(id, f, value)];
      }
    }

    /** An asynchronous `invoke`: the payload is handed to the transport. */
    method Invoke(p: Payload)
      modifies this
      ensures table == old(table) && pending == old(pending) + [p]
      ensures log == old(log) + [Effect.Invoke(p)]
    {
      pending := pending + [p];
      log := log + [Effect.Invoke(p)];
    }

    /** Another writer's increment of field `f` of `id` landing in between. */
    method Interfere(id: string, f: Field, delta: nat)
      requires id in table
      modifies this
      ensures table == old(table)[id := old(table)[id].Set(f, old(table)[id].Get(f) + delta)]
      ensures pending == old(pending) && log == old(log) + [UpdateItem(id, f, old(table)[id].Get(f) + delta)]
    {
      var v := table[id].Get(f) + delta;
      table := table[id := table[id].Set(f, v)];
      log := log + [UpdateItem(id, f, v)];
    }

    // -------------------------------------------------------------------
    // increment_state_field

    /**
     * One attempt of `increment_state_field`: read the counter, let another
     * writer add `other` in between (when there is one), then write
     * `current + delta` on condition that the counter still holds `current`.
     */
    method Attempt(id: string, f: Field, delta: nat, other: Option<nat>) returns (ok: bool)
      requires id in table
      modifies this
      ensures ok <==> other.None? || other.value == 0
      ensures ok ==> var current := old(table)[id].Get(f);
        && table == old(table)[id := old(table)[id].Set(f, current + delta)]
        && log == old(log) + AttemptWrites(id, f, current, delta, other)
      ensures !ok ==> var v := old(table)[id].Get(f) + other.value;
        && table == old(table)[id := old(table)[id].Set(f, v)]
        && log == old(log) + [UpdateItem(id, f, v)]
      ensures pending == old(pending)
    {
      var item := GetItem(id);
      var current := item.value.Get(f);
      if other.Some? {
        Interfere(id, f, other.value);
        SetTwice(old(table)[id], f, current, current + other.value);
      }
      ok := UpdateItemIf(id, f, current, current + delta);
      if ok {
        SetTwice(old(table)[id], f, current, current + delta);
      }
    }

    /**
     * The retry loop of `increment_state_field` on an existing record: read
     * the counter, then write `old + delta` on condition that it still
     * holds `old`; retry from the read when the condition fails.
     * `interference[k]` is what another writer adds between the read and
     * the write of attempt `k`. The loop ends at the first attempt no
     * other writer changes the field in.
     */
    method RetryIncrement(id: string, f: Field, delta: nat, interference: seq<nat>) returns (attempts: nat)
      requires id in table
      modifies this
      ensures var start, k := old(table)[id].Get(f), attempts - 1;
        && 1 <= attempts <= |interference| + 1
        && (forall j :: 0 <= j < k ==> interference[j] > 0)
        && (k < |interference| ==> interference[k] == 0)
        && table == old(table)[id := old(table)[id].Set(f, start + Sum(interference[..k]) + delta)]
        && log == old(log) + Updates(id, f, Landed(start, interference[..k]) + Settle(start + Sum(interference[..k]), delta, k < |interference|))
      ensures pending == old(pending)
    {
      attempts := 0;
      RetriedStart(table, log, id, f, interference);
      while true
        invariant Retried(old(table), old(log), table, log, id, f, interference, attempts)
        invariant pending == old(pending)
        decreases |interference| - attempts
      {
        var other := if attempts < |interference| then Some(interference[attempts]) else None;
        ghost var t, l := table, log;
        var ok := Attempt(id, f, delta, other);
        if ok {
          RetriedAccept(old(table), old(log), t, l, id, f, delta, interference, attempts);
          attempts := attempts + 1;
          return;
        }
        RetriedStep(old(table), old(log), t, l, id, f, interference, attempts);
        attempts := attempts + 1;
      }
    }

    /**
     * `increment_state_field`: without a record the read raises (`found`
     * is false) and nothing changes; otherwise the call is the run `Cas`
     * describes.
     */
    method IncrementStateField(id: string, f: Field, delta: nat, interference: seq<nat>)
      returns (found: bool, attempts: nat)
      modifies this
      ensures found <==> id in old(table)
      ensures !found ==> table == old(table) && log == old(log) && attempts == 0
      ensures found ==>
        var run := Cas(old(table)[id].Get(f), delta, interference);
        && attempts == run.attempts
        && table == old(table)[id := old(table)[id].Set(f, run.final)]
        && log == old(log) + Updates(id, f, run.writes)
      ensures pending == old(pending)
    {
      if id !in table {
        found, attempts := false, 0;
        return;
      }
      found := true;
      ghost var t0, l0 := table, log;
      attempts := RetryIncrement(id, f, delta, interference);
      RetryIsCas(t0, l0, table, log, id, f, delta, interference, attempts);
    }

    /** `increment_state_field` when no other writer interferes: one attempt, one write. */
    method Increment(id: string, f: Field, delta: nat) returns (found: bool)
      modifies this
      ensures found <==> id in old(table)
      ensures found ==> (table == Raise(old(table), id, f, delta)
        && log == old(log) + [UpdateItem(id, f, old(table)[id].Get(f) + delta)])
      ensures !found ==> table == old(table) && log == old(log)
      ensures pending == old(pending)
    {
      ghost var v := if id in table then table[id].Get(f) + delta else 0;
      var attempts;
      found, attempts := IncrementStateField(id, f, delta, []);
      if found {
        assert Cas(old(table)[id].Get(f), delta, []) == CasRun(v, 1, [v]);
        assert Updates(id, f, [v]) == [UpdateItem(id, f, v)] by {
          assert [v][..0] == [];
        }
      }
    }

    /**
     * `driver`: validate the request body; on success write the record of
     * the new request id `freshId`, dispatch one mapper per input, and
     * answer with the id.
     */
    method Driver(body: Body, freshId: string) returns (response: Response)
      modifies this
      ensures (State(), response) == DriverStep(old(State()), body, freshId)
      ensures Inv(old(State())) && freshId !in old(table) ==> Inv(State())
    {
      ghost var w := State();
      if Inv(w) && freshId !in w.table {
        DriverPreserves(w, body, freshId);
      }
      var intake := Validate(body);
      if intake.Rejected? {
        response := intake.response;
        return;
      }
      var format, inputs, filterString := intake.format, intake.inputs, intake.filterString;
      var item := InitialRecord(|inputs|);
      PutItem(freshId, item);
      ghost var log1 := log;
      ghost var sent: seq<Payload> := [];
      var j := 0;
      while j < |inputs|
        invariant 0 <= j <= |inputs|
        invariant table == w.table[freshId := item]
        invariant sent == MapperPayloads(freshId, format, filterString, inputs[..j])
        invariant pending == w.pending + sent
        invariant log == log1 + Invokes(sent)
      {
        var p := MapperPayload(freshId, inputs[j].bucket, inputs[j].prefix, format, filterString);
        MapperPayloadsPrefix(freshId, format, filterString, inputs, j);
        DispatchStep(w.pending, log1, sent, p);
        Invoke(p);
        sent := sent + [p];
        j := j + 1;
      }
      assert inputs[..j] == inputs;
      response := Response("200", RequestAccepted(freshId));
    }

    /** The mapper's dispatch loop: one asynchronous work invocation per chunk spec, in spec order. */
    method DispatchWork(id: string, format: string, filterString: string, specs: seq<ChunkSpec>)
      modifies this
      ensures table == old(table)
      ensures pending == old(pending) + WorkPayloads(id, format, filterString, specs)
      ensures log == old(log) + Invokes(WorkPayloads(id, format, filterString, specs))
    {
      ghost var sent: seq<Payload> := [];
      var j := 0;
      while j < |specs|
        invariant 0 <= j <= |specs|
        invariant table == old(table)
        invariant sent == WorkPayloads(id, format, filterString, specs[..j])
        invariant pending == old(pending) + sent
        invariant log == old(log) + Invokes(sent)
      {
        var p := WorkPayload(id, format, filterString, specs[j]);
        WorkPayloadsPrefix(id, format, filterString, specs, j);
        DispatchStep(old(pending), old(log), sent, p);
        Invoke(p);
        sent := sent + [p];
        j := j + 1;
      }
      assert specs[..j] == specs;
    }

    /**
     * `mapper`, delivered invocation `i`: split the input into chunk specs
     * (`numRowGroups` is `None` when reading the file raises), raise the
     * expected work, dispatch one work invocation per spec, then count
     * the mapper as completed.
     */
    method Mapper(i: nat, numRowGroups: Option<nat>)
      requires i < |pending| && pending[i].MapperPayload?
      modifies this
      ensures State() == MapperStep(old(State()), i, numRowGroups)
      ensures Inv(old(State())) ==> Inv(State())
    {
      ghost var w := State();
      if Inv(w) {
        MapperPreserves(w, i, numRowGroups);
      }
      var event := pending[i];
      var id := event.requestId;
      pending := Remove(pending, i);
      var handler := HandlerFor(event.format);
      if handler.None? || numRowGroups.None? {
        return;
      }
      var specs := Partition(handler.value, event.bucket, event.prefix, numRowGroups.value);
      var found := Increment(id, ExpectedWork, |specs|);
      if !found {
        return;
      }
      ghost var t1, log1 := table, log;
      DispatchWork(id, event.format, event.filterString, specs);
      ghost var log2 := log;
      found := Increment(id, CompletedMapper, 1);
      MapperIsStep(w, i, numRowGroups, t1, log1, log2, table, pending, log);
    }

    /**
     * `do_work`, delivered invocation `i`: filter the chunk
     * (`filterSucceeds` is false when it raises), count the work as
     * completed, re-read the record and dispatch the reducer when all
     * mappers and all work items are counted.
     */
    method DoWork(i: nat, filterSucceeds: bool)
      requires i < |pending| && pending[i].WorkPayload?
      modifies this
      ensures State() == DoWorkStep(old(State()), i, filterSucceeds)
      ensures Inv(old(State())) ==> Inv(State())
    {
      ghost var w := State();
      if Inv(w) {
        DoWorkPreserves(w, i, filterSucceeds);
      }
      var event := pending[i];
      var id := event.requestId;
      pending := Remove(pending, i);
      if HandlerFor(event.format).None? || !filterSucceeds {
        return;
      }
      var found := Increment(id, CompletedWork, 1);
      if !found {
        return;
      }
      ghost var counted := State();
      var item := GetItem(id);
      var doneMapping := item.value.expectedMapper == item.value.completedMapper;
      var doneWorking := item.value.expectedWork == item.value.completedWork;
      if doneMapping && doneWorking {
        Invoke(ReducerPayload(id, event.format));
      }
      assert State() == ReduceIfDone(counted, id, event.format);
    }

    /**
     * `reducer`, delivered invocation `i`: merge the shards
     * (`mergeSucceeds` is false when it raises), then count the reducer.
     */
    method Reducer(i: nat, mergeSucceeds: bool)
      requires i < |pending| && pending[i].ReducerPayload?
      modifies this
      ensures State() == ReducerStep(old(State()), i, mergeSucceeds)
      ensures Inv(old(State())) ==> Inv(State())
    {
      ghost var w := State();
      if Inv(w) {
        ReducerPreserves(w, i, mergeSucceeds);
      }
      var event := pending[i];
      pending := Remove(pending, i);
      if HandlerFor(event.format).None? || !mergeSucceeds {
        return;
      }
      var found := Increment(event.requestId, CompletedReducer, 1);
    }
  }
}
