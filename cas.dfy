/**
 * `increment_state_field` as a pure run: read the counter, compute
 * `old + delta`, and write only if the stored value still equals `old`;
 * retry from the read otherwise. Contention is an explicit schedule:
 * `interference[k]` is the delta another writer stores between this
 * caller's read and its conditional write on attempt `k`.
 */
module ConditionalIncrement {

  function Sum(s: seq<nat>): nat
  {
    if s == [] then 0 else s[0] + Sum(s[1..])
  }

  lemma {:induction false} SumPrefixStep(s: seq<nat>, k: nat)
    requires k < |s|
    ensures Sum(s[..k + 1]) == s[0] + Sum(s[1..][..k])
  {
    assert s[..k + 1][1..] == s[1..][..k];
  }

  /**
   * What one call of `increment_state_field` did: the value it left stored,
   * the number of read/conditional-write attempts, and every value stored
   * in the field during the call, in order (interfering writes included).
   */
  datatype CasRun = CasRun(final: nat, attempts: nat, writes: seq<nat>)

  /**
   * The run that starts with `stored` in the field. When the interfering
   * write stores the value just read (`interference[k] == 0`) the condition
   * still holds and the caller's write goes through.
   */
  function Cas(stored: nat, delta: nat, interference: seq<nat>): (run: CasRun)
    ensures 1 <= run.attempts <= |interference| + 1
    decreases |interference|
  {
    if interference == [] then
      CasRun(stored + delta, 1, [stored + delta])
    else if interference[0] == 0 then
      CasRun(stored + delta, 1, [stored, stored + delta])
    else
      var rest := Cas(stored + interference[0], delta, interference[1..]);
      CasRun(rest.final, rest.attempts + 1, [stored + interference[0]] + rest.writes)
  }

  lemma {:induction false} SumSnoc(s: seq<nat>, k: nat)
    requires k < |s|
    ensures Sum(s[..k + 1]) == Sum(s[..k]) + s[k]
  {
    if k > 0 {
      SumPrefixStep(s, k);
      SumPrefixStep(s, k - 1);
      SumSnoc(s[1..], k - 1);
    }
  }

  /**
   * The values the other writers leave in the field, one per rejected
   * attempt, when the caller's read saw `stored` first.
   */
  function Landed(stored: nat, interference: seq<nat>): (vs: seq<nat>)
    ensures |vs| == |interference|
    decreases |interference|
  {
    if interference == [] then [] else [stored + interference[0]] + Landed(stored + interference[0], interference[1..])
  }

  /** After `k + 1` rejected attempts the field holds the running total of the interference. */
  lemma {:induction false} LandedSnoc(stored: nat, interference: seq<nat>, k: nat)
    requires k < |interference|
    ensures Landed(stored, interference[..k + 1])
      == Landed(stored, interference[..k]) + [stored + Sum(interference[..k + 1])]
    decreases k
  {
    var i := interference;
    SumPrefixStep(i, k);
    if k > 0 {
      assert i[..k + 1][1..] == i[1..][..k];
      assert i[..k][1..] == i[1..][..k - 1];
      LandedSnoc(stored + i[0], i[1..], k - 1);
    }
  }

  /**
   * What the field holds from the accepted attempt on: when one more writer
   * stored the unchanged value in between, that value, then the caller's.
   */
  function Settle(before: nat, delta: nat, contended: bool): seq<nat>
  {
    if contended then [before, before + delta] else [before + delta]
  }

  /**
   * A call whose first `k` attempts meet another writer and whose next one
   * does not takes `k + 1` attempts; the field ends with every interfering
   * delta and the caller's own, having held the other writers' values in
   * between.
   */
  lemma {:induction false} CasSettles(stored: nat, delta: nat, interference: seq<nat>, k: nat)
    requires k <= |interference|
    requires forall j :: 0 <= j < k ==> interference[j] > 0
    requires k < |interference| ==> interference[k] == 0
    ensures var run, before := Cas(stored, delta, interference), stored + Sum(interference[..k]);
      && run.final == before + delta
      && run.attempts == k + 1
      && run.writes == Landed(stored, interference[..k]) + Settle(before, delta, k < |interference|)
    decreases k
  {
    var i := interference;
    if k == 0 {
      assert i[..0] == [];
    } else {
      assert forall j :: 0 <= j < k - 1 ==> i[1..][j] == i[j + 1];
      CasRetry(stored, delta, i);
      CasSettles(stored + i[0], delta, i[1..], k - 1);
      Shift(stored, delta, i, k);
    }
  }

  /** The run after the first rejection, seen from the value the other writer stored. */
  lemma Shift(stored: nat, delta: nat, i: seq<nat>, k: nat)
    requires 0 < k <= |i|
    ensures stored + i[0] + Sum(i[1..][..k - 1]) == stored + Sum(i[..k])
    ensures Landed(stored, i[..k]) + Settle(stored + Sum(i[..k]), delta, k < |i|)
      == [stored + i[0]] + (Landed(stored + i[0], i[1..][..k - 1])
        + Settle(stored + i[0] + Sum(i[1..][..k - 1]), delta, k - 1 < |i[1..]|))
  {
    SumPrefixStep(i, k - 1);
    assert i[..k][1..] == i[1..][..k - 1];
    var landed := Landed(stored + i[0], i[1..][..k - 1]);
    assert Landed(stored, i[..k]) == [stored + i[0]] + landed;
    var tail := Settle(stored + Sum(i[..k]), delta, k < |i|);
    assert [stored + i[0]] + (landed + tail) == ([stored + i[0]] + landed) + tail;
  }

  /** One rejected attempt: the run continues from the value the other writer stored. */
  lemma {:induction false} CasRetry(stored: nat, delta: nat, interference: seq<nat>)
    requires interference != [] && interference[0] > 0
    ensures var rest := Cas(stored + interference[0], delta, interference[1..]);
      Cas(stored, delta, interference)
        == CasRun(rest.final, rest.attempts + 1, [stored + interference[0]] + rest.writes)
  {
  }

  /** The first attempt no other writer interferes with (`|interference|` when all of them meet one). */
  function FirstAccepted(interference: seq<nat>): (k: nat)
    ensures k <= |interference|
    ensures forall j :: 0 <= j < k ==> interference[j] > 0
    ensures k < |interference| ==> interference[k] == 0
  {
    if interference == [] || interference[0] == 0 then 0
    else 1 + FirstAccepted(interference[1..])
  }

  /**
   * No lost update: the call ends at its first uncontended attempt, and the
   * field then holds the value first read plus every delta that landed
   * before and the caller's own.
   */
  lemma CasOutcome(stored: nat, delta: nat, interference: seq<nat>)
    ensures var run, k := Cas(stored, delta, interference), FirstAccepted(interference);
      && run.attempts == k + 1
      && run.final == stored + Sum(interference[..k]) + delta
      && run.writes[|run.writes| - 1] == run.final
  {
    CasSettles(stored, delta, interference, FirstAccepted(interference));
  }
}
