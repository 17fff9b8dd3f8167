/**
 * The progress record kept in the state table for one filter-and-merge
 * request: six counters, an expected and a completed count for each of the
 * three stages (mapper, work, reducer).
 */
module Records {

  /** The names of the six counters, as `increment_state_field` receives them. */
  datatype Field =
    | ExpectedWork
    | CompletedWork
    | ExpectedMapper
    | CompletedMapper
    | ExpectedReducer
    | CompletedReducer

  /** One item of the state table (the key, the request id, is the map key). */
  datatype Record = Record(
    expectedWork: nat,
    completedWork: nat,
    expectedMapper: nat,
    completedMapper: nat,
    expectedReducer: nat,
    completedReducer: nat)
  {
    /** Reads one counter by name. */
    function Get(f: Field): nat
    {
      match f
      case ExpectedWork => expectedWork
      case CompletedWork => completedWork
      case ExpectedMapper => expectedMapper
      case CompletedMapper => completedMapper
      case ExpectedReducer => expectedReducer
      case CompletedReducer => completedReducer
    }

    /** Writes one counter by name (`SET field = :n`); the other five keep their values. */
    function Set(f: Field, v: nat): (r: Record)
      ensures r.Get(f) == v
      ensures forall g :: g != f ==> r.Get(g) == Get(g)
    {
      match f
      case ExpectedWork => this.(expectedWork := v)
      case CompletedWork => this.(completedWork := v)
      case ExpectedMapper => this.(expectedMapper := v)
      case CompletedMapper => this.(completedMapper := v)
      case ExpectedReducer => this.(expectedReducer := v)
      case CompletedReducer => this.(completedReducer := v)
    }
  }

  /** A record is determined by its six counters. */
  lemma {:induction false} RecordsEqual(r: Record, s: Record)
    requires forall f :: r.Get(f) == s.Get(f)
    ensures r == s
  {
    assert r.Get(ExpectedWork) == s.Get(ExpectedWork) && r.Get(CompletedWork) == s.Get(CompletedWork);
    assert r.Get(ExpectedMapper) == s.Get(ExpectedMapper) && r.Get(CompletedMapper) == s.Get(CompletedMapper);
    assert r.Get(ExpectedReducer) == s.Get(ExpectedReducer) && r.Get(CompletedReducer) == s.Get(CompletedReducer);
  }

  /** Writing a counter's own value back leaves the record as it was. */
  lemma SetSame(r: Record, f: Field)
    ensures r.Set(f, r.Get(f)) == r
  {
    RecordsEqual(r.Set(f, r.Get(f)), r);
  }

  /** Of two writes to the same counter only the second one shows. */
  lemma SetTwice(r: Record, f: Field, a: nat, b: nat)
    ensures r.Set(f, a).Set(f, b) == r.Set(f, b)
  {
    RecordsEqual(r.Set(f, a).Set(f, b), r.Set(f, b));
  }

  /** The item the driver writes for a request with `inputs` inputs. */
  function InitialRecord(inputs: nat): (r: Record)
    ensures r.Get(ExpectedMapper) == inputs
    ensures r.Get(ExpectedReducer) == 1
    ensures forall f :: f != ExpectedMapper && f != ExpectedReducer ==> r.Get(f) == 0
  {
    Record(0, 0, inputs, 0, 1, 0)
  }

  /** Every dispatched mapper has counted itself as completed. */
  predicate DoneMapping(r: Record)
  {
    r.expectedMapper == r.completedMapper
  }

  /** Every registered work chunk has counted itself as completed. */
  predicate DoneWorking(r: Record)
  {
    r.expectedWork == r.completedWork
  }
}
