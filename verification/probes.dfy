/** The counting outcome probe: the observable every test reads. */
module Probes {
  import opened Wrappers
  import opened Values

  /** One call made on the probe. `OkReport` carries no reason. */
  datatype Event =
    | OkReport(jobName: string, payload: Payload)
    | FailedReport(jobName: string, payload: Payload, reason: string)

  function OkCount(events: seq<Event>): nat
    decreases |events|
  {
    if events == [] then 0
    else OkCount(events[..|events| - 1]) + (if events[|events| - 1].OkReport? then 1 else 0)
  }

  function FailedCount(events: seq<Event>): nat
    decreases |events|
  {
    if events == [] then 0
    else FailedCount(events[..|events| - 1]) + (if events[|events| - 1].FailedReport? then 1 else 0)
  }

  /** Counting is additive over concatenated call histories. */
  lemma {:induction false} CountsOfConcat(a: seq<Event>, b: seq<Event>)
    ensures OkCount(a + b) == OkCount(a) + OkCount(b)
    ensures FailedCount(a + b) == FailedCount(a) + FailedCount(b)
    decreases |b|
  {
    if b == [] {
      assert a + b == a;
    } else {
      var b' := b[..|b| - 1];
      CountsOfConcat(a, b');
      assert (a + b)[..|a + b| - 1] == a + b';
    }
  }

  /** Every call is either an `ok` or a `failed` call. */
  lemma {:induction false} CountsCoverAllCalls(events: seq<Event>)
    ensures OkCount(events) + FailedCount(events) == |events|
    decreases |events|
  {
    if events != [] {
      CountsCoverAllCalls(events[..|events| - 1]);
    }
  }

  /** The probe's `last` record still has a `reason` entry. */
  predicate HasReason(last: Option<Event>)
  {
    last.Some? && last.value.FailedReport?
  }

  class JobValidationProbe {
    var ok: int
    var failed: int
    var last: Option<Event>
    /** Every call made on this probe so far, oldest first. */
    ghost var calls: seq<Event>

    /** The counters count the calls, and `last` is the latest call. */
    ghost predicate Valid()
      reads this
    {
      && ok == OkCount(calls)
      && failed == FailedCount(calls)
      && last == (if calls == [] then None else Some(calls[|calls| - 1]))
    }

    constructor ()
      ensures Valid() && calls == []
      ensures ok == 0 && failed == 0 && last == None
    {
      ok, failed, last := 0, 0, None;
      calls := [];
    }

    method Ok(jobName: string, payload: Payload)
      requires Valid()
      modifies this
      ensures Valid() && calls == old(calls) + [OkReport(jobName, payload)]
      ensures ok == old(ok) + 1 && failed == old(failed)
      ensures last == Some(OkReport(jobName, payload)) && !HasReason(last)
    {
      ok := ok + 1;
      last := Some(OkReport(jobName, payload));
      calls := calls + [OkReport(jobName, payload)];
      assert calls[..|calls| - 1] == old(calls);
    }

    method Failed(jobName: string, payload: Payload, reason: string)
      requires Valid()
      modifies this
      ensures Valid() && calls == old(calls) + [FailedReport(jobName, payload, reason)]
      ensures failed == old(failed) + 1 && ok == old(ok)
      ensures last == Some(FailedReport(jobName, payload, reason)) && HasReason(last)
    {
      failed := failed + 1;
      last := Some(FailedReport(jobName, payload, reason));
      calls := calls + [FailedReport(jobName, payload, reason)];
      assert calls[..|calls| - 1] == old(calls);
    }

    /** The two counters together count every call, and neither can be negative. */
    lemma CountersMatchCalls()
      requires Valid()
      ensures ok + failed == |calls| && ok >= 0 && failed >= 0
    {
      CountsCoverAllCalls(calls);
    }
  }
}
