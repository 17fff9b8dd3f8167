# Filter-and-merge map/reduce coordination, modelled in Dafny

The modelled program is a three-stage fan-out/fan-in pipeline of AWS
lambdas, in `distributed_test/filter_merge_lambda/matrix_map_reduce.py`:

- `driver` validates a request body and writes a progress record into
  the state table. That record holds six counters: expected and
  completed, for mappers, work items and the reducer. The driver then
  dispatches one `mapper` per input.
- `mapper` splits its parquet file into one chunk spec per row group. It
  raises the expected work count, dispatches one `do_work` per chunk,
  then counts itself as completed.
- `do_work` filters its chunk and counts itself. It then re-reads the
  record and dispatches the `reducer` when every mapper and every work
  item has been counted.
- `reducer` merges the shards and counts itself.
- Every counter update goes through `increment_state_field`. It reads
  the counter, computes `old + delta`, and writes on condition that the
  stored value is still `old`. When another writer got there first, it
  retries.

The model has six parts:

- **Records** (`records.dfy`): the six-counter record, reading and
  writing a counter by name, and the record the driver writes.
- **Requests** (`requests.dfy`): the request body and the driver's
  two checks: the missing-keys list, then the `FORMAT_HANDLERS` lookup.
  Also the row-group chunk specs of the parquet mapper and the payloads
  the lambdas send one another.
- **ConditionalIncrement** (`cas.dfy`): the read / conditional-write /
  retry loop of `increment_state_field` as a pure run, `Cas`. The run is
  driven by `interference`, the deltas other writers land between the
  read and the write of each attempt. The lemmas show the run:
  - ends at the first attempt nobody interferes with;
  - loses no update.
- **Protocol**, **Safety** and **Completion** (`protocol.dfy`,
  `safety.dfy`, `completion.dfy`): the lambdas as steps of a transition
  system. A `World` holds the state table, the dispatched invocations
  not yet run, and the log of every table write and dispatch, in order.
  A schedule starts requests and runs pending invocations in any order;
  each invocation may fail. The proofs show:
  - across every schedule, the counters stay within their bounds and
    every dispatch comes after its request's record;
  - the reducer is dispatched at most once, and only when the request is
    done.
  They also show that, as written, some requests never complete (see
  Findings).
- **Ordering** (`ordering.dfy`): the order of the mapper's writes. The
  log shows each work item dispatched only after its request's expected
  work was raised to cover it. A log with the raise after the dispatches
  fails this, even though it leaves the same table.
- **Lambdas** (`lambdas.dfy`): the four lambdas and the increment loop
  as methods of a `Deployment` class. Its fields are the state table,
  the invocation transport and the effect log. Each method is proved to
  make exactly the transition of its step function, so the safety
  invariant carries over to the deployment. `RetryIncrement` is the
  `while True` loop; its loop invariant is the predicate `Retried`.
  `Interfere` stands for another writer's update landing between the
  read and the write of an attempt.

Calls into code that is not visible are parameters:

- the row-group count of a parquet file (`None` when reading it raises);
- whether the filter or the merge succeeds;
- the fresh request id that `uuid.uuid4()` would produce.

## Model

| member | source | states |
|---|---|---|
| Records.InitialRecord | distributed_test/filter_merge_lambda/matrix_map_reduce.py:124-134 | the new record expects one mapper per input and one reducer; every other counter is 0 |
| Records.Record.Set | distributed_test/filter_merge_lambda/matrix_map_reduce.py:244-249 | `SET field = :n` stores `n` in that counter and leaves the other five unchanged |
| Records.DoneMapping | distributed_test/filter_merge_lambda/matrix_map_reduce.py:199-200 | `done_mapping`: the record's expected and completed mapper counts are equal |
| Records.DoneWorking | distributed_test/filter_merge_lambda/matrix_map_reduce.py:202-203 | `done_working`: the record's expected and completed work counts are equal |
| Requests.MissingFrom | distributed_test/filter_merge_lambda/matrix_map_reduce.py:101 | the comprehension keeps exactly the keys absent from the body, in the order of the key list |
| Requests.MissingKeysReported | distributed_test/filter_merge_lambda/matrix_map_reduce.py:101-102 | no key is reported missing iff the body has all three; each key is reported iff absent; the report keeps the order `format`, `inputs`, `filter_string` |
| Requests.MissingKeys | distributed_test/filter_merge_lambda/matrix_map_reduce.py:101 | the driver's report over `format`, `inputs`, `filter_string`; what it promises is stated by `Requests.MissingKeysReported` |
| Requests.Validate | distributed_test/filter_merge_lambda/matrix_map_reduce.py:101-118 | a missing key gives 400 with the missing keys. Otherwise an unknown format gives 400 naming the format. A request is accepted iff both checks pass, and then it carries the body's format, inputs and filter string |
| Requests.HandlerFor | distributed_test/filter_merge_lambda/matrix_map_reduce.py:312-318 | the registry knows exactly one format, `parquet_simple`; any other name is a `KeyError` |
| Requests.RowGroupSpecs | distributed_test/filter_merge_lambda/matrix_map_reduce.py:275-276 | exactly `num_row_groups` specs; spec `i` has row group `i` and carries the input's bucket and prefix unchanged |
| Requests.Partition | distributed_test/filter_merge_lambda/matrix_map_reduce.py:162-163 | `FORMAT_HANDLERS[format]["mapper"]` applied to the input; for `parquet_simple` it is `Requests.RowGroupSpecs` |
| Requests.MapperPayloads | distributed_test/filter_merge_lambda/matrix_map_reduce.py:137-150 | one mapper payload per input, in input order, each with the request id, bucket, prefix, format and filter string |
| Requests.WorkPayloads | distributed_test/filter_merge_lambda/matrix_map_reduce.py:167-178 | one work payload per chunk spec, in spec order, each with the request id, format, filter string and spec |
| ConditionalIncrement.Cas | distributed_test/filter_merge_lambda/matrix_map_reduce.py:232-253 | the retry loop run against the sequence of interfering writes: at least one attempt and at most one more than the interfering writes. Its final value is stated by `ConditionalIncrement.CasOutcome`, and its full write sequence by `ConditionalIncrement.CasSettles` |
| ConditionalIncrement.CasSettles | distributed_test/filter_merge_lambda/matrix_map_reduce.py:235-253 | when the first `k` attempts are interfered with and attempt `k` is not, the loop makes `k + 1` attempts. Each rejected attempt shows another writer's value. The accepted write stores the value read plus `delta`, and that value read is the start plus every delta that landed before |
| ConditionalIncrement.FirstAccepted | distributed_test/filter_merge_lambda/matrix_map_reduce.py:243-253 | the first attempt whose conditional write succeeds: every earlier one was interfered with |
| ConditionalIncrement.CasOutcome | distributed_test/filter_merge_lambda/matrix_map_reduce.py:235-253 | no lost update: the loop ends at the first uncontended attempt; the counter then holds the start value plus every delta that landed before plus the caller's own, and that is the last value written |
| Protocol.Raise | distributed_test/filter_merge_lambda/matrix_map_reduce.py:232-253 | an uncontended increment raises one counter of one record by `delta`; nothing else in the table changes |
| Protocol.DriverStep | distributed_test/filter_merge_lambda/matrix_map_reduce.py:80-156 | the driver as one step of the world; what it does is stated by `Protocol.DriverOutcome` |
| Protocol.MapperStep | distributed_test/filter_merge_lambda/matrix_map_reduce.py:159-180 | the mapper as written, as one step; stated by `Protocol.MapperOutcome` |
| Protocol.ReduceIfDone | distributed_test/filter_merge_lambda/matrix_map_reduce.py:193-214 | the completion check: re-read the record and dispatch one reducer payload iff both the mapper and the work pairs are equal; stated by `Protocol.DoWorkOutcome` |
| Protocol.DoWorkStep | distributed_test/filter_merge_lambda/matrix_map_reduce.py:182-214 | the work lambda as one step; stated by `Protocol.DoWorkOutcome` |
| Protocol.ReducerStep | distributed_test/filter_merge_lambda/matrix_map_reduce.py:216-219 | the reducer as one step; stated by `Protocol.ReducerOutcome` |
| Protocol.MapperStepChecked | distributed_test/filter_merge_lambda/matrix_map_reduce.py:159-214 | the corrected mapper: the mapper as written, followed by the completion check of lines 193-214 when it ran; what it achieves is stated by `Completion.CheckedMapperCompletes` |
| Protocol.DriverOutcome | distributed_test/filter_merge_lambda/matrix_map_reduce.py:101-156 | a rejected body leaves the table, the transport and the log unchanged. An accepted one answers 200 with the new id, writes the initial record first, then dispatches one mapper per input, in input order, carrying bucket, prefix, format and filter string |
| Protocol.MapperOutcome | distributed_test/filter_merge_lambda/matrix_map_reduce.py:159-180 | the mapper raises expected work by the row-group count, then dispatches one work payload per row group (row group `k` at position `k`), then raises completed mappers by one. No other counter or record changes. With zero row groups, expected work is unchanged and the mapper still counts itself. A mapper that raises does nothing |
| Protocol.DoWorkOutcome | distributed_test/filter_merge_lambda/matrix_map_reduce.py:182-214 | the work item raises completed work by one. It then dispatches a reducer payload of request id and format iff both the mapper and the work pairs are equal, and otherwise nothing. A work item that raises does nothing |
| Protocol.ReducerOutcome | distributed_test/filter_merge_lambda/matrix_map_reduce.py:216-219 | the reducer raises completed reducers by one and dispatches nothing; one that raises does nothing |
| Safety.DriverPreserves | distributed_test/filter_merge_lambda/matrix_map_reduce.py:101-150 | the driver keeps the invariant: counters within bounds, mapper and work expectations equal to what was dispatched, dispatches only after the record |
| Safety.MapperPreserves | distributed_test/filter_merge_lambda/matrix_map_reduce.py:159-180 | the mapper keeps the invariant: expected work equals the work dispatched, completed mappers stay within expected, and no reducer is dispatched. The order of its writes is stated by `Ordering.MapperAnnounced` |
| Safety.DoWorkPreserves | distributed_test/filter_merge_lambda/matrix_map_reduce.py:182-214 | the work step keeps the invariant, including at most one reducer per request |
| Safety.ReducerPreserves | distributed_test/filter_merge_lambda/matrix_map_reduce.py:216-219 | the reducer step keeps the invariant |
| Safety.ExecutePreserves | distributed_test/filter_merge_lambda/matrix_map_reduce.py:80-219 | any schedule of starts and runs of dispatched invocations keeps the invariant |
| Safety.Bounds | distributed_test/filter_merge_lambda/matrix_map_reduce.py:129-219 | under the invariant: completed mappers, work and reducers never exceed expected. At most one reducer is dispatched, and only once mapping and working are done |
| Safety.AnyInterleavingIsSafe | distributed_test/filter_merge_lambda/matrix_map_reduce.py:124-219 | after any schedule from the empty deployment, the bounds above hold for every request, and every dispatch in the log follows the `put_item` of its request |
| Ordering.DriverAnnounced | distributed_test/filter_merge_lambda/matrix_map_reduce.py:124-150 | the driver's segment (the initial record, with expected work 0, then mapper dispatches only) keeps every work dispatch covered and leaves each record's expected work equal to the value last logged for it |
| Ordering.MapperSegmentAnnounced | distributed_test/filter_merge_lambda/matrix_map_reduce.py:165-180 | the mapper's segment, a raise of expected work by the chunk count, then the dispatches, then its own count, covers each of its dispatches: before each one, the work already dispatched for the request is below the raised expected work |
| Ordering.MapperAnnounced | distributed_test/filter_merge_lambda/matrix_map_reduce.py:159-180 | the mapper keeps every work dispatch in the log covered by an expected-work value written before it, and keeps each record's expected work equal to the value last logged for it |
| Ordering.DoWorkAnnounced | distributed_test/filter_merge_lambda/matrix_map_reduce.py:182-214 | the work step writes no expected work and dispatches no work, so the same holds after it |
| Ordering.ReducerAnnounced | distributed_test/filter_merge_lambda/matrix_map_reduce.py:216-219 | the reducer step keeps the same property |
| Ordering.ExecuteAnnounced | distributed_test/filter_merge_lambda/matrix_map_reduce.py:80-219 | any schedule, as written or checked, keeps the property |
| Ordering.EveryWorkDispatchAnnounced | distributed_test/filter_merge_lambda/matrix_map_reduce.py:165-178 | after any schedule from the empty deployment, every work dispatch in the log comes after an expected-work write for its request that exceeds the work dispatched for it so far |
| Ordering.DispatchBeforeRaiseNotAnnounced | distributed_test/filter_merge_lambda/matrix_map_reduce.py:165-178 | the property depends on the order of lines 165 and 167-178: a log that dispatches a work item before raising the expected work for it fails it |
| Completion.AsWrittenStalls | distributed_test/filter_merge_lambda/matrix_map_reduce.py:180-214 | a concrete schedule after which nothing is pending and every mapper and work counter is complete, yet the reducer counter stays below its expected value and no reducer was ever dispatched (see Findings) |
| Completion.CheckedMapperCompletes | distributed_test/filter_merge_lambda/matrix_map_reduce.py:191-214 | with the completion check also run after the mapper's last increment, every request with inputs whose mappers and work are all counted has had exactly one reducer dispatched |
| Completion.CorrectedStallReduces | distributed_test/filter_merge_lambda/matrix_map_reduce.py:180-214 | on the schedule that stalls as written, the corrected mapper dispatches the reducer |
| Lambdas.Deployment.GetItem | distributed_test/filter_merge_lambda/matrix_map_reduce.py:194-197 | a consistent read returns the stored record, and nothing when there is none |
| Lambdas.Deployment.PutItem | distributed_test/filter_merge_lambda/matrix_map_reduce.py:124-134 | the record is stored under its id and the write is logged |
| Lambdas.Deployment.UpdateItemIf | distributed_test/filter_merge_lambda/matrix_map_reduce.py:244-249 | the conditional write succeeds iff the record exists and the counter still holds the expected value. On success only that counter changes; on failure nothing changes |
| Lambdas.Deployment.Invoke | distributed_test/filter_merge_lambda/matrix_map_reduce.py:146-150 | an asynchronous invoke appends the payload to the transport and logs it |
| Lambdas.Deployment.Attempt | distributed_test/filter_merge_lambda/matrix_map_reduce.py:236-249 | one read and conditional write. It is accepted iff no other writer changed the counter in between; the counter then holds its value plus `delta`, and otherwise the other writer's value |
| Lambdas.RetriedStep | distributed_test/filter_merge_lambda/matrix_map_reduce.py:250-252 | a rejected attempt extends the run by the other writer's value and the loop continues |
| Lambdas.Deployment.RetryIncrement | distributed_test/filter_merge_lambda/matrix_map_reduce.py:235-253 | the `while True` loop ends at the first attempt nobody interferes with. It leaves the counter at the start plus the interfering deltas plus `delta`, and logs exactly the interfering writes and its own |
| Lambdas.Deployment.IncrementStateField | distributed_test/filter_merge_lambda/matrix_map_reduce.py:232-253 | without a record the read raises and nothing changes; otherwise the table and log end as the run `Cas` describes, with the same number of attempts |
| Lambdas.Deployment.Increment | distributed_test/filter_merge_lambda/matrix_map_reduce.py:232-253 | an uncontended increment: one attempt, one logged write of `old + delta` |
| Lambdas.Deployment.Driver | distributed_test/filter_merge_lambda/matrix_map_reduce.py:80-156 | the driver makes exactly the transition `DriverStep` describes and keeps the invariant |
| Lambdas.Deployment.DispatchWork | distributed_test/filter_merge_lambda/matrix_map_reduce.py:167-178 | the mapper's loop dispatches the work payloads of the specs in order and touches nothing else |
| Lambdas.Deployment.Mapper | distributed_test/filter_merge_lambda/matrix_map_reduce.py:159-180 | the mapper makes exactly the transition `MapperStep` describes and keeps the invariant |
| Lambdas.Deployment.DoWork | distributed_test/filter_merge_lambda/matrix_map_reduce.py:182-214 | the work lambda makes exactly the transition `DoWorkStep` describes and keeps the invariant |
| Lambdas.Deployment.Reducer | distributed_test/filter_merge_lambda/matrix_map_reduce.py:216-219 | the reducer makes exactly the transition `ReducerStep` describes and keeps the invariant |

## Left out

- DynamoDB, the Lambda client and the environment configuration are
  in-memory. The table is a map, the transport a sequence of pending
  payloads, and the effect log an append-only sequence.
- S3, `s3fs`, `pyarrow` and `fastparquet` are not modelled. This covers
  reading row groups, writing shards and merging shards in
  `parquet_simple_work` and `parquet_simple_reducer`. Their only
  visible inputs to the core are parameters: the row-group count, and
  whether filtering or merging succeeds.
- `eval(filter_string)` is not modelled: it evaluates arbitrary code. The
  filter is a call that succeeds or raises.
- UUID generation and JSON encoding: ids are parameters, and a schedule
  may only start a request under an id not yet in the table. Payloads
  and response messages are datatypes, not their JSON text. The 400
  message carries the list of missing keys (or the format), not the
  formatted string.
- The request body is taken as a parsed mapping, with only the three keys
  the driver reads. Malformed values, such as an input without `bucket`,
  are not modelled. The source indexes `event["body"]` directly and never
  decodes it (lines 88, 101, 111). Its docstring (lines 84-85) assumes an
  API Gateway proxy integration, which delivers `body` as a JSON string.
  In that setting `k not in body` would be a substring test, and
  `body["format"]` would raise. This observation is not executed and is
  not modelled.
- Exceptions are not modelled in detail. An invocation that raises
  (unknown format in `FORMAT_HANDLERS`, unreadable file, failing filter
  or merge, or a missing record in `increment_state_field`) is consumed
  with no effect. The `print` of a `ClientError` is dropped. A
  `ClientError` other than the failed condition, such as throttling, makes
  the source retry (lines 250-252) with the stored value unchanged. In the
  model an attempt is rejected only when another writer stored a different
  value, so such retries are not represented; they would change only the
  number of attempts, not the writes or the final value. A boto3 call that
  raises part-way through a step is not modelled either: for instance an
  `invoke` that fails in the mapper's loop after line 165. In the source
  that leaves the expected work above the number of work items
  dispatched, so the invariant's equality of the two would not hold.
- Sub-step interleaving is not modelled: each invocation runs as one
  atomic step. So two `do_work` calls that both increment before either
  re-reads the record, and would both dispatch a reducer, are outside
  the model. A second stall is also outside it. A mapper's work items
  could all finish between its raising of the expected work count (line
  165) and its own count of itself (line 180). No `do_work` then sees
  the mapper counted, and the mapper never checks. The source can stall
  this way even with a non-zero chunk count; the atomic-step model
  cannot produce it. Outside the stage steps, `IncrementStateField`
  models the loop's contention on its own.
- The invocation transport's at-least-once delivery is not modelled:
  each dispatched invocation runs at most once, so duplicate runs are
  outside the model.
- Lambdas.Deployment.Increment: the stage methods (`Mapper`, `DoWork`,
  `Reducer`) increment through the uncontended run, because each step
  is atomic in this model. The contended run is stated by
  `IncrementStateField` on its own.
- Lambdas.Deployment.RetryIncrement: the loop runs against a finite
  sequence of interfering writes, so it always terminates. Under
  unbounded contention the source's loop need not terminate, and that
  is not modelled.
- Completion.CheckedMapperCompletes: it is stated only for requests with
  at least one input. A request with no inputs expects zero mappers,
  dispatches nothing and never reaches a reducer. This holds both as
  written and corrected.

## Findings

The module docstring (lines 26-29) says the reducer merges all the work
chunks. The comment at line 193 reads the re-read as the completion check
that runs the reducer. So a request whose mappers and work items have all
counted themselves should reach its reducer. As written, it need not.

| source | as written | input that shows it | evidently intended | confidence | as-written member | corrected member |
|---|---|---|---|---|---|---|
| distributed_test/filter_merge_lambda/matrix_map_reduce.py:180 | the mapper counts itself complete and returns; only `do_work` (lines 193-214) checks for completion and dispatches the reducer | two inputs, the first file with one row group and the second with none. The first mapper runs, then its work item (mapping not yet done), then the second mapper: every mapper and work counter is complete, nothing is pending, and no reducer is ever dispatched | the request completes whenever all its mappers and work items are counted, so the mapper also runs the completion check after its final increment (`Protocol.MapperStepChecked`) | not executed | Completion.AsWrittenStalls | Completion.CheckedMapperCompletes |
