/**
 * The execution protocol of one job against one payload, as values: onStart,
 * the main request, onSuccess, then `ok`; every failure goes through `fail`,
 * which runs onFail, ignores its result, and raises. An execution records the
 * probe calls and the HTTP requests it makes and how it ends.
 */
module Execution {
  import opened Wrappers
  import opened Values
  import opened Definitions
  import opened Probes
  import opened Requests

  /** A definition whose callback names have been replaced by resolved jobs. */
  datatype ResolvedJob = ResolvedJob(
    def: JobDef,
    onStart: Option<ResolvedJob>,
    onSuccess: Option<ResolvedJob>,
    onFail: Option<ResolvedJob>)

  /** A normal return, or a thrown `RuntimeException` with its message. */
  datatype Outcome = Completed | Raised(message: string)

  datatype Execution = Execution(reports: seq<Event>, requests: seq<Request>, outcome: Outcome)

  const FailPrefix: string := "Job request failed: "
  const ErrorMessageKey: string := "__error_message"

  /** What an unbound callback slot contributes. */
  const Skipped: Execution := Execution([], [], Completed)

  /** Run `a`, then `b`; the result is `b`'s. */
  function Then(a: Execution, b: Execution): Execution
  {
    Execution(a.reports + b.reports, a.requests + b.requests, b.outcome)
  }

  /**
   * `do`: the protocol of one job. Its onStart block runs first; if that
   * raised, `fail` follows, otherwise the main request and the rest.
   */
  function Run(j: ResolvedJob, payload: Payload, w: World): Execution
    decreases j, 3
  {
    var start := if j.onStart.Some? then Run(j.onStart.value, payload, w) else Skipped;
    if start.outcome.Raised? then Then(start, Fail(j, payload, start.outcome.message, w))
    else Then(start, AfterStart(j, payload, w))
  }

  /**
   * What follows a completed onStart: the main request; if it failed, a
   * `failed` report and `fail` with the reason added to the payload under
   * `__error_message`; otherwise `AfterRequest`.
   */
  function AfterStart(j: ResolvedJob, payload: Payload, w: World): Execution
    decreases j, 2
  {
    var request := BuildRequest(j.def, payload, w);
    match RequestFailure(j.def, w.respond(request))
    case Some(reason) =>
      Then(Execution([FailedReport(j.def.name, payload, reason)], [request], Completed),
           Fail(j, payload[ErrorMessageKey := Str(reason)], reason, w))
    case None => Then(Execution([], [request], Completed), AfterRequest(j, payload, w))
  }

  /** What follows a successful main request: onSuccess, then `fail` if it raised, else `ok`. */
  function AfterRequest(j: ResolvedJob, payload: Payload, w: World): Execution
    decreases j, 1
  {
    var success := if j.onSuccess.Some? then Run(j.onSuccess.value, payload, w) else Skipped;
    if success.outcome.Raised? then Then(success, Fail(j, payload, success.outcome.message, w))
    else Then(success, Execution([OkReport(j.def.name, payload)], [], Completed))
  }

  /**
   * `fail`: run onFail if it is bound, ignore how it ends, and raise the
   * original failure's message behind the `Job request failed: ` prefix.
   */
  function Fail(j: ResolvedJob, payload: Payload, message: string, w: World): (e: Execution)
    ensures e.outcome == Raised(FailPrefix + message)
    ensures j.onFail.None? ==> e.reports == [] && e.requests == []
    decreases j, 0
  {
    var handler := if j.onFail.Some? then Run(j.onFail.value, payload, w) else Skipped;
    Execution(handler.reports, handler.requests, Raised(FailPrefix + message))
  }

  /**
   * `fail` as the source has it: its `catch (RuntimeException $e)` assigns the
   * onFail callback's exception to the same `$e` that holds the original
   * failure, so a failing onFail replaces the message that is raised.
   */
  function FailAsWritten(j: ResolvedJob, payload: Payload, message: string, w: World): Execution
  {
    var handler := if j.onFail.Some? then Run(j.onFail.value, payload, w) else Skipped;
    var raisedFrom := if handler.outcome.Raised? then handler.outcome.message else message;
    Execution(handler.reports, handler.requests, Raised(FailPrefix + raisedFrom))
  }

  /** As written, a failing onFail masks the original failure whenever the two messages differ. */
  lemma FailAsWrittenMasksOriginal(j: ResolvedJob, payload: Payload, message: string, w: World)
    requires j.onFail.Some? && Run(j.onFail.value, payload, w).outcome.Raised?
    requires Run(j.onFail.value, payload, w).outcome.message != message
    ensures FailAsWritten(j, payload, message, w).outcome == Raised(FailPrefix + Run(j.onFail.value, payload, w).outcome.message)
    ensures FailAsWritten(j, payload, message, w).outcome != Fail(j, payload, message, w).outcome
  {
    var other := Run(j.onFail.value, payload, w).outcome.message;
    assert (FailPrefix + other)[|FailPrefix|..] == other;
    assert (FailPrefix + message)[|FailPrefix|..] == message;
  }

  /** A job with no callbacks and no keys, for the concrete example below. */
  function PlainJob(name: string): ResolvedJob
  {
    ResolvedJob(JobDef(name, "GET", "", [], [], [], name, 200, None, None, None), None, None, None)
  }

  /**
   * Concrete input: the main request of `main` fails with a connection error,
   * its onFail job `cleanup` fails too. As written, the exception names
   * `cleanup`'s failure; the original "cURL ... refused" is lost.
   */
  lemma FailAsWrittenExample()
    ensures var w := World(_ => ExecFailed("refused"), _ => "", _ => "");
      var j := ResolvedJob(PlainJob("main").def, None, None, Some(PlainJob("cleanup")));
      var original := "cURL request failed with error: " + "refused";
      && Fail(j, payload := map[], message := original, w := w).outcome == Raised(FailPrefix + original)
      && FailAsWritten(j, map[], original, w).outcome == Raised(FailPrefix + FailPrefix + original)
  {
    var w := World(_ => ExecFailed("refused"), _ => "", _ => "");
    var cleanup := PlainJob("cleanup");
    var original := "cURL request failed with error: " + "refused";
    var req := BuildRequest(cleanup.def, map[], w);
    assert w.respond(req) == ExecFailed("refused");
    assert RequestFailure(cleanup.def, w.respond(req)) == Some(original);
    assert Run(cleanup, map[], w).outcome == Raised(FailPrefix + original);
  }
  /** The outcome of a slot: what running it gives, or `Skipped` when it is unbound. */
  function RunSlot(slot: Option<ResolvedJob>, payload: Payload, w: World): Execution
  {
    if slot.Some? then Run(slot.value, payload, w) else Skipped
  }

  /** The verdict on this job's own main request. */
  function MainFailure(j: ResolvedJob, payload: Payload, w: World): Option<string>
  {
    RequestFailure(j.def, w.respond(BuildRequest(j.def, payload, w)))
  }

  /** `fail` in terms of the onFail slot. */
  lemma FailRunsSlot(j: ResolvedJob, payload: Payload, message: string, w: World)
    ensures var handler := RunSlot(j.onFail, payload, w);
      Fail(j, payload, message, w) == Execution(handler.reports, handler.requests, Raised(FailPrefix + message))
  {
  }

  /** `AfterRequest` in terms of the onSuccess and onFail slots. */
  lemma AfterRequestRunsSlots(j: ResolvedJob, payload: Payload, w: World)
    ensures var success, handler := RunSlot(j.onSuccess, payload, w), RunSlot(j.onFail, payload, w);
      AfterRequest(j, payload, w)
        == if success.outcome.Raised?
           then Execution(success.reports + handler.reports, success.requests + handler.requests, Raised(FailPrefix + success.outcome.message))
           else Execution(success.reports + [OkReport(j.def.name, payload)], success.requests + [], Completed)
  {
    var success := RunSlot(j.onSuccess, payload, w);
    if success.outcome.Raised? {
      FailRunsSlot(j, payload, success.outcome.message, w);
    }
  }

  lemma Regroup<T>(a: seq<T>, b: seq<T>, c: seq<T>, d: seq<T>)
    ensures a + (b + (c + d)) == a + b + c + d
  {
  }

  // The four ways a run goes, each as one equation.

  lemma RunOnStartRaised(j: ResolvedJob, payload: Payload, w: World)
    requires RunSlot(j.onStart, payload, w).outcome.Raised?
    ensures var start, handler := RunSlot(j.onStart, payload, w), RunSlot(j.onFail, payload, w);
      Run(j, payload, w)
        == Execution(start.reports + handler.reports, start.requests + handler.requests, Raised(FailPrefix + start.outcome.message))
  {
  }

  lemma RunRequestFailed(j: ResolvedJob, payload: Payload, w: World, reason: string)
    requires RunSlot(j.onStart, payload, w).outcome.Completed? && MainFailure(j, payload, w) == Some(reason)
    ensures var start, handler := RunSlot(j.onStart, payload, w), RunSlot(j.onFail, payload[ErrorMessageKey := Str(reason)], w);
      Run(j, payload, w)
        == Execution(start.reports + [FailedReport(j.def.name, payload, reason)] + handler.reports,
                     start.requests + [BuildRequest(j.def, payload, w)] + handler.requests, Raised(FailPrefix + reason))
  {
    var start, handler := RunSlot(j.onStart, payload, w), RunSlot(j.onFail, payload[ErrorMessageKey := Str(reason)], w);
    var own := [FailedReport(j.def.name, payload, reason)];
    var request := BuildRequest(j.def, payload, w);
    AfterStartFailed(j, payload, w, reason);
    assert Run(j, payload, w) == Then(start, AfterStart(j, payload, w));
    assert start.reports + (own + handler.reports) == start.reports + own + handler.reports;
    assert start.requests + ([request] + handler.requests) == start.requests + [request] + handler.requests;
  }

  /** A failed main request: its `failed` report and request, then `fail` with the reason in the payload. */
  lemma AfterStartFailed(j: ResolvedJob, payload: Payload, w: World, reason: string)
    requires MainFailure(j, payload, w) == Some(reason)
    ensures var handler := RunSlot(j.onFail, payload[ErrorMessageKey := Str(reason)], w);
      AfterStart(j, payload, w)
        == Execution([FailedReport(j.def.name, payload, reason)] + handler.reports,
                     [BuildRequest(j.def, payload, w)] + handler.requests, Raised(FailPrefix + reason))
  {
    FailRunsSlot(j, payload[ErrorMessageKey := Str(reason)], reason, w);
  }

  lemma RunOnSuccessRaised(j: ResolvedJob, payload: Payload, w: World)
    requires RunSlot(j.onStart, payload, w).outcome.Completed? && MainFailure(j, payload, w).None?
    requires RunSlot(j.onSuccess, payload, w).outcome.Raised?
    ensures var start, success, handler := RunSlot(j.onStart, payload, w), RunSlot(j.onSuccess, payload, w), RunSlot(j.onFail, payload, w);
      Run(j, payload, w)
        == Execution(start.reports + success.reports + handler.reports,
                     start.requests + [BuildRequest(j.def, payload, w)] + success.requests + handler.requests,
                     Raised(FailPrefix + success.outcome.message))
  {
    var start, success, handler := RunSlot(j.onStart, payload, w), RunSlot(j.onSuccess, payload, w), RunSlot(j.onFail, payload, w);
    var request := BuildRequest(j.def, payload, w);
    var rest := AfterRequest(j, payload, w);
    AfterRequestRunsSlots(j, payload, w);
    assert rest == Execution(success.reports + handler.reports, success.requests + handler.requests, Raised(FailPrefix + success.outcome.message));
    assert AfterStart(j, payload, w) == Execution([] + rest.reports, [request] + rest.requests, rest.outcome);
    Regroup(start.reports, [], success.reports, handler.reports);
    assert start.reports + [] == start.reports;
    Regroup(start.requests, [request], success.requests, handler.requests);
  }

  lemma RunCompleted(j: ResolvedJob, payload: Payload, w: World)
    requires RunSlot(j.onStart, payload, w).outcome.Completed? && MainFailure(j, payload, w).None?
    requires RunSlot(j.onSuccess, payload, w).outcome.Completed?
    ensures var start, success := RunSlot(j.onStart, payload, w), RunSlot(j.onSuccess, payload, w);
      Run(j, payload, w)
        == Execution(start.reports + success.reports + [OkReport(j.def.name, payload)],
                     start.requests + [BuildRequest(j.def, payload, w)] + success.requests, Completed)
  {
    var start, success := RunSlot(j.onStart, payload, w), RunSlot(j.onSuccess, payload, w);
    var request := BuildRequest(j.def, payload, w);
    var ok := [OkReport(j.def.name, payload)];
    var rest := AfterRequest(j, payload, w);
    AfterRequestRunsSlots(j, payload, w);
    assert rest == Execution(success.reports + ok, success.requests + [], Completed);
    assert AfterStart(j, payload, w) == Execution([] + rest.reports, [request] + rest.requests, rest.outcome);
    Regroup(start.reports, [], success.reports, ok);
    assert start.reports + [] == start.reports;
    Regroup(start.requests, [request], success.requests, []);
    assert start.requests + [request] + success.requests + [] == start.requests + [request] + success.requests;
  }

  /**
   * A failing onStart aborts the job: neither the main request nor onSuccess
   * runs, this job reports nothing of its own, onFail runs on the unchanged
   * payload, and the prefix is stacked on the onStart failure's message.
   */
  lemma OnStartFailureAborts(j: ResolvedJob, payload: Payload, w: World)
    requires j.onStart.Some? && Run(j.onStart.value, payload, w).outcome.Raised?
    ensures var start := Run(j.onStart.value, payload, w);
      var handler := RunSlot(j.onFail, payload, w);
      && Run(j, payload, w).reports == start.reports + handler.reports
      && Run(j, payload, w).requests == start.requests + handler.requests
      && Run(j, payload, w).outcome == Raised(FailPrefix + start.outcome.message)
      && FailPrefix + FailPrefix <= Run(j, payload, w).outcome.message
  {
    RunOnStartRaised(j, payload, w);
    RaisedMessageHasPrefix(j.onStart.value, payload, w);
  }

  /**
   * A failing main request reports exactly one `failed(name, payload, reason)`,
   * sends no onSuccess, and hands onFail the payload with `__error_message` set
   * to the reason; the raised message is the prefixed reason.
   */
  lemma MainFailureReportsOnce(j: ResolvedJob, payload: Payload, w: World, reason: string)
    requires RunSlot(j.onStart, payload, w).outcome.Completed?
    requires MainFailure(j, payload, w) == Some(reason)
    ensures var start := RunSlot(j.onStart, payload, w);
      var handed := payload[ErrorMessageKey := Str(reason)];
      var handler := RunSlot(j.onFail, handed, w);
      && Run(j, payload, w).reports == start.reports + [FailedReport(j.def.name, payload, reason)] + handler.reports
      && Run(j, payload, w).requests == start.requests + [BuildRequest(j.def, payload, w)] + handler.requests
      && Run(j, payload, w).outcome == Raised(FailPrefix + reason)
      && handed[ErrorMessageKey] == Str(reason)
      && (forall k :: k in payload && k != ErrorMessageKey ==> k in handed && handed[k] == payload[k])
  {
    RunRequestFailed(j, payload, w, reason);
  }

  /**
   * A failing onSuccess suppresses this job's `ok`: the reports are onStart's,
   * onSuccess's and onFail's only, and the prefixed onSuccess failure is raised.
   */
  lemma OnSuccessFailureSuppressesOk(j: ResolvedJob, payload: Payload, w: World)
    requires RunSlot(j.onStart, payload, w).outcome.Completed?
    requires MainFailure(j, payload, w).None?
    requires j.onSuccess.Some? && Run(j.onSuccess.value, payload, w).outcome.Raised?
    ensures var start := RunSlot(j.onStart, payload, w);
      var success := Run(j.onSuccess.value, payload, w);
      var handler := RunSlot(j.onFail, payload, w);
      && Run(j, payload, w).reports == start.reports + success.reports + handler.reports
      && Run(j, payload, w).outcome == Raised(FailPrefix + success.outcome.message)
  {
    RunOnSuccessRaised(j, payload, w);
  }

  /** Every raised message starts with the `Job request failed: ` prefix. */
  lemma RaisedMessageHasPrefix(j: ResolvedJob, payload: Payload, w: World)
    ensures Run(j, payload, w).outcome.Raised? ==> FailPrefix <= Run(j, payload, w).outcome.message
  {
    var start := RunSlot(j.onStart, payload, w);
    if start.outcome.Raised? {
      RunOnStartRaised(j, payload, w);
    } else if MainFailure(j, payload, w).Some? {
      RunRequestFailed(j, payload, w, MainFailure(j, payload, w).value);
    } else if RunSlot(j.onSuccess, payload, w).outcome.Raised? {
      RunOnSuccessRaised(j, payload, w);
    } else {
      RunCompleted(j, payload, w);
    }
  }

  /** Every phase that runs on the success path succeeds: onStart, the main request, onSuccess. */
  predicate Succeeds(j: ResolvedJob, payload: Payload, w: World)
    decreases j
  {
    && (j.onStart.Some? ==> Succeeds(j.onStart.value, payload, w))
    && MainFailure(j, payload, w).None?
    && (j.onSuccess.Some? ==> Succeeds(j.onSuccess.value, payload, w))
  }

  /** The number of jobs on the success path: this one and its onStart and onSuccess chains. */
  function SuccessPathSize(j: ResolvedJob): nat
    decreases j
  {
    1 + (if j.onStart.Some? then SuccessPathSize(j.onStart.value) else 0)
      + (if j.onSuccess.Some? then SuccessPathSize(j.onSuccess.value) else 0)
  }

  /**
   * A job completes exactly when every phase on its success path succeeds, and
   * then it reports one `ok` and sends one request per job on that path, reports
   * no failure, never runs an onFail job, and its own `ok` is the last report.
   */
  lemma {:induction false} CompletesIffAllSucceed(j: ResolvedJob, payload: Payload, w: World)
    ensures Run(j, payload, w).outcome.Completed? <==> Succeeds(j, payload, w)
    ensures Succeeds(j, payload, w) ==>
      var e := Run(j, payload, w);
      && OkCount(e.reports) == |e.reports| == |e.requests| == SuccessPathSize(j)
      && FailedCount(e.reports) == 0
      && e.reports[|e.reports| - 1] == OkReport(j.def.name, payload)
    decreases j
  {
    var start := RunSlot(j.onStart, payload, w);
    if j.onStart.Some? {
      CompletesIffAllSucceed(j.onStart.value, payload, w);
    }
    RaisedMessageHasPrefix(j, payload, w);
    if start.outcome.Raised? {
      RunOnStartRaised(j, payload, w);
    } else if MainFailure(j, payload, w).Some? {
      RunRequestFailed(j, payload, w, MainFailure(j, payload, w).value);
    } else {
      var success := RunSlot(j.onSuccess, payload, w);
      if j.onSuccess.Some? {
        CompletesIffAllSucceed(j.onSuccess.value, payload, w);
      }
      if success.outcome.Raised? {
        RunOnSuccessRaised(j, payload, w);
      } else {
        CleanRunCompleted(j, payload, w);
      }
    }
  }

  /** Only `ok` reports, one per request, `size` of each. */
  predicate Clean(e: Execution, size: nat)
  {
    OkCount(e.reports) == |e.reports| == |e.requests| == size && FailedCount(e.reports) == 0
  }

  /** The success-path size of a slot; an unbound slot has none. */
  function SlotPathSize(slot: Option<ResolvedJob>): nat
  {
    if slot.Some? then SuccessPathSize(slot.value) else 0
  }

  /** Two clean executions around one `ok` and one request compose into a clean one. */
  lemma CleanCompose(start: Execution, success: Execution, own: Event, request: Request, e: Execution)
    requires Clean(start, |start.reports|) && Clean(success, |success.reports|) && own.OkReport?
    requires e.reports == start.reports + success.reports + [own]
    requires e.requests == start.requests + [request] + success.requests
    ensures Clean(e, |start.reports| + |success.reports| + 1) && e.reports[|e.reports| - 1] == own
  {
    var ok := [own];
    assert ok[..0] == [];
    assert OkCount(ok) == 1 && FailedCount(ok) == 0;
    CountsOfConcat(start.reports, success.reports);
    CountsOfConcat(start.reports + success.reports, ok);
  }

  /** A completed run whose onStart and onSuccess ran cleanly is clean and ends with its own `ok`. */
  lemma CleanRunCompleted(j: ResolvedJob, payload: Payload, w: World)
    requires RunSlot(j.onStart, payload, w).outcome.Completed? && MainFailure(j, payload, w).None?
    requires RunSlot(j.onSuccess, payload, w).outcome.Completed?
    requires Clean(RunSlot(j.onStart, payload, w), SlotPathSize(j.onStart))
    requires Clean(RunSlot(j.onSuccess, payload, w), SlotPathSize(j.onSuccess))
    ensures Run(j, payload, w).outcome.Completed? && Clean(Run(j, payload, w), SuccessPathSize(j))
    ensures Run(j, payload, w).reports[|Run(j, payload, w).reports| - 1] == OkReport(j.def.name, payload)
  {
    var start, success := RunSlot(j.onStart, payload, w), RunSlot(j.onSuccess, payload, w);
    RunCompleted(j, payload, w);
    assert SuccessPathSize(j) == SlotPathSize(j.onStart) + SlotPathSize(j.onSuccess) + 1;
    CleanCompose(start, success, OkReport(j.def.name, payload), BuildRequest(j.def, payload, w), Run(j, payload, w));
  }

  /**
   * A job raises exactly when some `failed` report was made during its
   * execution: every exception starts at a failed main request, which reports.
   */
  lemma {:induction false} RaisesIffFailureReported(j: ResolvedJob, payload: Payload, w: World)
    ensures Run(j, payload, w).outcome.Raised? <==> FailedCount(Run(j, payload, w).reports) > 0
    decreases j
  {
    CompletesIffAllSucceed(j, payload, w);
    var e := Run(j, payload, w);
    var start := RunSlot(j.onStart, payload, w);
    if e.outcome.Raised? {
      if j.onStart.Some? {
        RaisesIffFailureReported(j.onStart.value, payload, w);
      }
      if start.outcome.Raised? {
        var handler := RunSlot(j.onFail, payload, w);
        RunOnStartRaised(j, payload, w);
        CountsOfConcat(start.reports, handler.reports);
      } else {
        match MainFailure(j, payload, w)
        case Some(reason) =>
          var handler := RunSlot(j.onFail, payload[ErrorMessageKey := Str(reason)], w);
          var own := [FailedReport(j.def.name, payload, reason)];
          RunRequestFailed(j, payload, w, reason);
          CountsOfConcat(start.reports, own);
          CountsOfConcat(start.reports + own, handler.reports);
          assert FailedCount(own) == 1;
        case None =>
          var success := RunSlot(j.onSuccess, payload, w);
          if success.outcome.Completed? {
            RunCompleted(j, payload, w);
            assert false;
          }
          RaisesIffFailureReported(j.onSuccess.value, payload, w);
          var handler := RunSlot(j.onFail, payload, w);
          RunOnSuccessRaised(j, payload, w);
          CountsOfConcat(start.reports, success.reports);
          CountsOfConcat(start.reports + success.reports, handler.reports);
      }
    }
  }
  /** The job names in a resolved tree, the root's included. */
  function Names(j: ResolvedJob): set<string>
    decreases j
  {
    {j.def.name} + BelowNames(j)
  }

  /** The job names in the callback subtrees. */
  function BelowNames(j: ResolvedJob): set<string>
    decreases j, 0
  {
    (if j.onStart.Some? then Names(j.onStart.value) else {})
      + (if j.onSuccess.Some? then Names(j.onSuccess.value) else {})
      + (if j.onFail.Some? then Names(j.onFail.value) else {})
  }

  /** The `ok` reports naming `name`. */
  function OksFor(events: seq<Event>, name: string): nat
    decreases |events|
  {
    if events == [] then 0
    else
      var e := events[|events| - 1];
      OksFor(events[..|events| - 1], name) + (if e.OkReport? && e.jobName == name then 1 else 0)
  }

  /** The `failed` reports naming `name`. */
  function FailuresFor(events: seq<Event>, name: string): nat
    decreases |events|
  {
    if events == [] then 0
    else
      var e := events[|events| - 1];
      FailuresFor(events[..|events| - 1], name) + (if e.FailedReport? && e.jobName == name then 1 else 0)
  }

  lemma {:induction false} CountsForConcat(a: seq<Event>, b: seq<Event>, name: string)
    ensures OksFor(a + b, name) == OksFor(a, name) + OksFor(b, name)
    ensures FailuresFor(a + b, name) == FailuresFor(a, name) + FailuresFor(b, name)
    decreases |b|
  {
    if b == [] {
      assert a + b == a;
    } else {
      CountsForConcat(a, b[..|b| - 1], name);
      assert (a + b)[..|a + b| - 1] == a + b[..|b| - 1];
    }
  }

  lemma {:induction false} CountsForAbsentName(events: seq<Event>, name: string)
    requires forall i :: 0 <= i < |events| ==> events[i].jobName != name
    ensures OksFor(events, name) == 0 && FailuresFor(events, name) == 0
    decreases |events|
  {
    if events != [] {
      CountsForAbsentName(events[..|events| - 1], name);
    }
  }

  /** Every event names a job in `names`. */
  predicate ReportsWithin(events: seq<Event>, names: set<string>)
  {
    forall i :: 0 <= i < |events| ==> events[i].jobName in names
  }

  lemma ReportsWithinConcat(a: seq<Event>, b: seq<Event>, names: set<string>)
    requires ReportsWithin(a, names) && ReportsWithin(b, names)
    ensures ReportsWithin(a + b, names)
  {
    forall i | 0 <= i < |a + b|
      ensures (a + b)[i].jobName in names
    {
      if i >= |a| {
        assert (a + b)[i] == b[i - |a|];
      }
    }
  }

  /** Every report made while running a job names a job of its tree. */
  lemma {:induction false} ReportsNameTreeJobs(j: ResolvedJob, payload: Payload, w: World)
    ensures ReportsWithin(Run(j, payload, w).reports, Names(j))
    decreases j
  {
    if j.onStart.Some? {
      ReportsNameTreeJobs(j.onStart.value, payload, w);
    }
    if j.onSuccess.Some? {
      ReportsNameTreeJobs(j.onSuccess.value, payload, w);
    }
    var handed := if RunSlot(j.onStart, payload, w).outcome.Completed? && MainFailure(j, payload, w).Some?
      then payload[ErrorMessageKey := Str(MainFailure(j, payload, w).value)] else payload;
    if j.onFail.Some? {
      ReportsNameTreeJobs(j.onFail.value, handed, w);
    }
    ReportsWithinFromSlots(j, payload, w);
  }

  /** A slot's reports lie within a set holding its tree's names. */
  predicate SlotReportsWithin(slot: Option<ResolvedJob>, payload: Payload, w: World, names: set<string>)
  {
    slot.Some? ==> Names(slot.value) <= names && ReportsWithin(Run(slot.value, payload, w).reports, Names(slot.value))
  }

  lemma SlotReportsWithinRun(slot: Option<ResolvedJob>, payload: Payload, w: World, names: set<string>)
    requires SlotReportsWithin(slot, payload, w, names)
    ensures ReportsWithin(RunSlot(slot, payload, w).reports, names)
  {
  }

  /** One step of `ReportsNameTreeJobs`: from the slots' reports to the job's. */
  lemma ReportsWithinFromSlots(j: ResolvedJob, payload: Payload, w: World)
    requires SlotReportsWithin(j.onStart, payload, w, Names(j))
    requires SlotReportsWithin(j.onSuccess, payload, w, Names(j))
    requires SlotReportsWithin(j.onFail,
      if RunSlot(j.onStart, payload, w).outcome.Completed? && MainFailure(j, payload, w).Some?
      then payload[ErrorMessageKey := Str(MainFailure(j, payload, w).value)] else payload, w, Names(j))
    ensures ReportsWithin(Run(j, payload, w).reports, Names(j))
  {
    var names := Names(j);
    var start := RunSlot(j.onStart, payload, w);
    SlotReportsWithinRun(j.onStart, payload, w, names);
    if start.outcome.Raised? {
      SlotReportsWithinRun(j.onFail, payload, w, names);
      RunOnStartRaised(j, payload, w);
      ReportsWithinConcat(start.reports, RunSlot(j.onFail, payload, w).reports, names);
    } else if MainFailure(j, payload, w).Some? {
      var reason := MainFailure(j, payload, w).value;
      var handler := RunSlot(j.onFail, payload[ErrorMessageKey := Str(reason)], w);
      SlotReportsWithinRun(j.onFail, payload[ErrorMessageKey := Str(reason)], w, names);
      var own := [FailedReport(j.def.name, payload, reason)];
      assert ReportsWithin(own, names);
      ReportsWithinConcat(start.reports, own, names);
      ReportsWithinConcat(start.reports + own, handler.reports, names);
      RunRequestFailed(j, payload, w, reason);
    } else {
      var success := RunSlot(j.onSuccess, payload, w);
      SlotReportsWithinRun(j.onSuccess, payload, w, names);
      ReportsWithinConcat(start.reports, success.reports, names);
      if success.outcome.Raised? {
        SlotReportsWithinRun(j.onFail, payload, w, names);
        ReportsWithinConcat(start.reports + success.reports, RunSlot(j.onFail, payload, w).reports, names);
        RunOnSuccessRaised(j, payload, w);
      } else {
        var own := [OkReport(j.def.name, payload)];
        assert ReportsWithin(own, names);
        ReportsWithinConcat(start.reports + success.reports, own, names);
        RunCompleted(j, payload, w);
      }
    }
  }

  /**
   * When no callback job shares the job's name (as resolution against an acyclic
   * registry guarantees), the job reports `ok` for itself once if it completes
   * and never otherwise, and `failed` for itself once exactly when its main
   * request was attempted and failed.
   */
  lemma OwnReports(j: ResolvedJob, payload: Payload, w: World)
    requires j.def.name !in BelowNames(j)
    ensures var e := Run(j, payload, w);
      && OksFor(e.reports, j.def.name) == (if e.outcome.Completed? then 1 else 0)
      && FailuresFor(e.reports, j.def.name)
         == (if RunSlot(j.onStart, payload, w).outcome.Completed? && MainFailure(j, payload, w).Some? then 1 else 0)
  {
    var name := j.def.name;
    var start := RunSlot(j.onStart, payload, w);
    SlotReportsLack(j.onStart, payload, w, name);
    if start.outcome.Raised? {
      OwnReportsOnStartRaised(j, payload, w);
    } else if MainFailure(j, payload, w).Some? {
      OwnReportsRequestFailed(j, payload, w);
    } else if RunSlot(j.onSuccess, payload, w).outcome.Raised? {
      OwnReportsOnSuccessRaised(j, payload, w);
    } else {
      OwnReportsCompleted(j, payload, w);
    }
  }

  lemma OwnReportsOnStartRaised(j: ResolvedJob, payload: Payload, w: World)
    requires j.def.name !in BelowNames(j)
    requires RunSlot(j.onStart, payload, w).outcome.Raised?
    ensures Run(j, payload, w).outcome.Raised?
    ensures OksFor(Run(j, payload, w).reports, j.def.name) == 0
    ensures FailuresFor(Run(j, payload, w).reports, j.def.name) == 0
  {
    var name := j.def.name;
    var start, handler := RunSlot(j.onStart, payload, w), RunSlot(j.onFail, payload, w);
    SlotReportsLack(j.onStart, payload, w, name);
    SlotReportsLack(j.onFail, payload, w, name);
    RunOnStartRaised(j, payload, w);
    CountsForConcat(start.reports, handler.reports, name);
  }

  lemma OwnReportsRequestFailed(j: ResolvedJob, payload: Payload, w: World)
    requires j.def.name !in BelowNames(j)
    requires RunSlot(j.onStart, payload, w).outcome.Completed? && MainFailure(j, payload, w).Some?
    ensures Run(j, payload, w).outcome.Raised?
    ensures OksFor(Run(j, payload, w).reports, j.def.name) == 0
    ensures FailuresFor(Run(j, payload, w).reports, j.def.name) == 1
  {
    var name := j.def.name;
    var reason := MainFailure(j, payload, w).value;
    var start, handler := RunSlot(j.onStart, payload, w), RunSlot(j.onFail, payload[ErrorMessageKey := Str(reason)], w);
    SlotReportsLack(j.onStart, payload, w, name);
    SlotReportsLack(j.onFail, payload[ErrorMessageKey := Str(reason)], w, name);
    var own := [FailedReport(name, payload, reason)];
    assert FailuresFor(own, name) == 1 && OksFor(own, name) == 0;
    CountsForThree(start.reports, own, handler.reports, name);
    RunRequestFailed(j, payload, w, reason);
  }

  lemma CountsForThree(a: seq<Event>, b: seq<Event>, c: seq<Event>, name: string)
    ensures OksFor(a + b + c, name) == OksFor(a, name) + OksFor(b, name) + OksFor(c, name)
    ensures FailuresFor(a + b + c, name) == FailuresFor(a, name) + FailuresFor(b, name) + FailuresFor(c, name)
  {
    CountsForConcat(a, b, name);
    CountsForConcat(a + b, c, name);
  }

  lemma OwnReportsOnSuccessRaised(j: ResolvedJob, payload: Payload, w: World)
    requires j.def.name !in BelowNames(j)
    requires RunSlot(j.onStart, payload, w).outcome.Completed? && MainFailure(j, payload, w).None?
    requires RunSlot(j.onSuccess, payload, w).outcome.Raised?
    ensures Run(j, payload, w).outcome.Raised?
    ensures OksFor(Run(j, payload, w).reports, j.def.name) == 0
    ensures FailuresFor(Run(j, payload, w).reports, j.def.name) == 0
  {
    var name := j.def.name;
    var start, success, handler := RunSlot(j.onStart, payload, w), RunSlot(j.onSuccess, payload, w), RunSlot(j.onFail, payload, w);
    SlotReportsLack(j.onStart, payload, w, name);
    SlotReportsLack(j.onSuccess, payload, w, name);
    SlotReportsLack(j.onFail, payload, w, name);
    RunOnSuccessRaised(j, payload, w);
    CountsForConcat(start.reports, success.reports, name);
    CountsForConcat(start.reports + success.reports, handler.reports, name);
  }

  lemma OwnReportsCompleted(j: ResolvedJob, payload: Payload, w: World)
    requires j.def.name !in BelowNames(j)
    requires RunSlot(j.onStart, payload, w).outcome.Completed? && MainFailure(j, payload, w).None?
    requires RunSlot(j.onSuccess, payload, w).outcome.Completed?
    ensures Run(j, payload, w).outcome.Completed?
    ensures OksFor(Run(j, payload, w).reports, j.def.name) == 1
    ensures FailuresFor(Run(j, payload, w).reports, j.def.name) == 0
  {
    var name := j.def.name;
    var start, success := RunSlot(j.onStart, payload, w), RunSlot(j.onSuccess, payload, w);
    SlotReportsLack(j.onStart, payload, w, name);
    SlotReportsLack(j.onSuccess, payload, w, name);
    var own := [OkReport(name, payload)];
    RunCompleted(j, payload, w);
    CountsForConcat(start.reports, success.reports, name);
    CountsForConcat(start.reports + success.reports, own, name);
    assert FailuresFor(own, name) == 0 && OksFor(own, name) == 1;
  }

  /** A slot whose tree does not contain `name` reports nothing under it. */
  lemma SlotReportsLack(slot: Option<ResolvedJob>, payload: Payload, w: World, name: string)
    requires slot.Some? ==> name !in Names(slot.value)
    ensures OksFor(RunSlot(slot, payload, w).reports, name) == 0
    ensures FailuresFor(RunSlot(slot, payload, w).reports, name) == 0
  {
    if slot.Some? {
      ReportsNameTreeJobs(slot.value, payload, w);
    }
    CountsForAbsentName(RunSlot(slot, payload, w).reports, name);
  }
}
