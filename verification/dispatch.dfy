/**
 * The message handler: look the job up, check the payload, load the callbacks
 * and run the job. A message that cannot be handled is reported to the probe
 * and acknowledged, so it is not redelivered; only an exception out of the
 * job's run leaves the handler, and the queue then retries the message.
 */
module Message {
  import opened Wrappers
  import opened Values
  import opened Definitions
  import opened Probes
  import opened Requests
  import opened Execution
  import opened Registry
  import opened Jobs

  const LoadFailurePrefix: string := "Failed to load job callbacks: "

  /** The message names a known job, carries its required keys, and the job's callbacks all resolve. */
  predicate Deliverable(defs: map<string, JobDef>, rank: map<string, nat>, m: GenericMessage)
    requires Ranked(defs, rank) && defs.Keys <= rank.Keys
  {
    PayloadMatches(defs, m) && ResolveName(defs, rank, m.jobName).Success?
  }

  /** `__invoke` on values: what the probe hears, which requests go out, and whether it throws. */
  function Handle(defs: map<string, JobDef>, rank: map<string, nat>, m: GenericMessage, w: World): Execution
    requires Ranked(defs, rank) && defs.Keys <= rank.Keys
  {
    if m.jobName !in defs then
      Execution([FailedReport(m.jobName, m.payload, NotFoundReason)], [], Completed)
    else if !PayloadMatches(defs, m) then
      Execution([FailedReport(m.jobName, m.payload, MismatchReason)], [], Completed)
    else Deliver(defs, rank, m, w)
  }

  /** The rest of `__invoke` once the checks passed: load the callbacks, then `do`. */
  function Deliver(defs: map<string, JobDef>, rank: map<string, nat>, m: GenericMessage, w: World): Execution
    requires Ranked(defs, rank) && defs.Keys <= rank.Keys && m.jobName in defs
  {
    match ResolveName(defs, rank, m.jobName)
    case Failure(err) => Execution([FailedReport(m.jobName, m.payload, LoadFailurePrefix + err)], [], Completed)
    case Success(tree) => Run(tree, m.payload, w)
  }

  /** The two ways `Deliver` goes, as equations. */
  lemma DeliverCases(defs: map<string, JobDef>, rank: map<string, nat>, m: GenericMessage, w: World)
    requires Ranked(defs, rank) && defs.Keys <= rank.Keys && m.jobName in defs
    ensures var r := ResolveName(defs, rank, m.jobName);
      && (r.Failure? ==> Deliver(defs, rank, m, w) == Execution([FailedReport(m.jobName, m.payload, LoadFailurePrefix + r.error)], [], Completed))
      && (r.Success? ==> Deliver(defs, rank, m, w) == Run(r.value, m.payload, w))
  {
  }

  /**
   * A message that cannot be handled is acknowledged: the handler returns
   * normally after one `failed` report for that message, sends nothing, and
   * says which of the three checks turned it away.
   */
  lemma UndeliverableAcknowledged(defs: map<string, JobDef>, rank: map<string, nat>, m: GenericMessage, w: World)
    requires Ranked(defs, rank) && defs.Keys <= rank.Keys
    requires !Deliverable(defs, rank, m)
    ensures var e := Handle(defs, rank, m, w);
      && e.outcome == Completed && e.requests == [] && |e.reports| == 1
      && e.reports[0].FailedReport? && e.reports[0].jobName == m.jobName && e.reports[0].payload == m.payload
      && (e.reports[0].reason == NotFoundReason <==> m.jobName !in defs)
      && (e.reports[0].reason == MismatchReason <==> m.jobName in defs && !PayloadMatches(defs, m))
      && (LoadFailurePrefix <= e.reports[0].reason <==> PayloadMatches(defs, m))
  {
    var e := Handle(defs, rank, m, w);
    assert NotFoundReason[0] != LoadFailurePrefix[0] && MismatchReason[0] != LoadFailurePrefix[0];
    if PayloadMatches(defs, m) {
      var err := ResolveName(defs, rank, m.jobName).error;
      assert e.reports[0].reason == LoadFailurePrefix + err;
      assert (LoadFailurePrefix + err)[0] == LoadFailurePrefix[0];
    }
  }

  /**
   * The handler throws, and the message is retried, exactly when the message
   * was deliverable and the job's run raised; the exception then carries the
   * `fail` prefix and some `failed` report was made.
   */
  lemma OnlyRunFailuresRetry(defs: map<string, JobDef>, rank: map<string, nat>, m: GenericMessage, w: World)
    requires Ranked(defs, rank) && defs.Keys <= rank.Keys
    ensures var e := Handle(defs, rank, m, w);
      && (e.outcome.Raised? <==>
            Deliverable(defs, rank, m) && Run(ResolveName(defs, rank, m.jobName).value, m.payload, w).outcome.Raised?)
      && (e.outcome.Raised? ==> FailPrefix <= e.outcome.message && FailedCount(e.reports) > 0)
  {
    if Deliverable(defs, rank, m) {
      var tree := ResolveName(defs, rank, m.jobName).value;
      RaisedMessageHasPrefix(tree, m.payload, w);
      RaisesIffFailureReported(tree, m.payload, w);
    }
  }

  /**
   * A message is handled cleanly (no exception, no `failed` report) exactly
   * when it is deliverable and every job on the success path succeeds; then
   * one request goes out and one `ok` is reported per job on that path, and
   * the message's own job reports last.
   */
  lemma CleanIffJobSucceeds(defs: map<string, JobDef>, rank: map<string, nat>, m: GenericMessage, w: World)
    requires Ranked(defs, rank) && defs.Keys <= rank.Keys
    ensures var e := Handle(defs, rank, m, w);
      (e.outcome.Completed? && FailedCount(e.reports) == 0)
        <==> Deliverable(defs, rank, m) && Succeeds(ResolveName(defs, rank, m.jobName).value, m.payload, w)
    ensures Deliverable(defs, rank, m) && Succeeds(ResolveName(defs, rank, m.jobName).value, m.payload, w) ==>
      var e := Handle(defs, rank, m, w);
      var tree := ResolveName(defs, rank, m.jobName).value;
      && OkCount(e.reports) == |e.requests| == SuccessPathSize(tree)
      && e.reports[|e.reports| - 1] == OkReport(tree.def.name, m.payload)
  {
    var e := Handle(defs, rank, m, w);
    if Deliverable(defs, rank, m) {
      var tree := ResolveName(defs, rank, m.jobName).value;
      CompletesIffAllSucceed(tree, m.payload, w);
      RaisesIffFailureReported(tree, m.payload, w);
    } else {
      assert e.reports[..0] == [];
      assert FailedCount(e.reports) == 1;
    }
  }

  /**
   * For a deliverable message, the job it names reports for itself at most
   * once: `ok` exactly when the run completes, `failed` exactly when its own
   * request failed after onStart completed.
   */
  lemma OwnJobReportsOnce(defs: map<string, JobDef>, rank: map<string, nat>, m: GenericMessage, w: World)
    requires Ranked(defs, rank) && defs.Keys <= rank.Keys && NamesMatchKeys(defs)
    requires Deliverable(defs, rank, m)
    ensures var e := Handle(defs, rank, m, w);
      var tree := ResolveName(defs, rank, m.jobName).value;
      && OksFor(e.reports, m.jobName) == (if e.outcome.Completed? then 1 else 0)
      && FailuresFor(e.reports, m.jobName)
         == (if RunSlot(tree.onStart, m.payload, w).outcome.Completed? && MainFailure(tree, m.payload, w).Some? then 1 else 0)
  {
    var tree := ResolveName(defs, rank, m.jobName).value;
    ResolvedRootFresh(defs, rank, m.jobName);
    OwnReports(tree, m.payload, w);
  }

  /** The handler service: its resolver, its probe and the HTTP transport the jobs use. */
  class GenericMessageHandler {
    const resolver: JobConfigResolver
    const probe: JobValidationProbe
    const transport: Transport
    /** A witness that the loaded callback graph has no cycle. */
    ghost const rank: map<string, nat>

    ghost predicate Valid()
      reads resolver, resolver.Instances(), probe
    {
      && resolver.Valid() && probe.Valid()
      && Ranked(resolver.Defs(), rank) && resolver.Defs().Keys <= rank.Keys
    }

    constructor (resolver: JobConfigResolver, probe: JobValidationProbe, transport: Transport, ghost rank: map<string, nat>)
      ensures this.resolver == resolver && this.probe == probe && this.transport == transport && this.rank == rank
    {
      this.resolver := resolver;
      this.probe := probe;
      this.transport := transport;
      this.rank := rank;
    }

    /** `__invoke`: exactly the reports, requests and outcome of `Handle`. */
    method Invoke(m: GenericMessage) returns (outcome: Outcome)
      requires Valid()
      modifies resolver.Instances(), probe, transport
      ensures Valid()
      ensures var e := Handle(resolver.Defs(), rank, m, transport.world);
        && probe.calls == old(probe.calls) + e.reports
        && transport.attempted == old(transport.attempted) + e.requests
        && outcome == e.outcome
    {
      ghost var table := resolver.jobs.value;
      var found := resolver.GetJobByName(m.jobName);
      if found.Failure? {
        Reject(m, NotFoundReason);
        return Completed;
      }
      var job := found.value;
      var matches := resolver.DoesMessagePayloadMatchesJobConfig(m);
      if !matches {
        Reject(m, MismatchReason);
        return Completed;
      }
      outcome := DeliverTo(table, job, m);
    }

    /** `$this->probe->failed(...)` for a message turned away before its job runs. */
    method Reject(m: GenericMessage, reason: string)
      requires Valid()
      modifies probe
      ensures Valid() && probe.calls == old(probe.calls) + [FailedReport(m.jobName, m.payload, reason)]
    {
      probe.Failed(m.jobName, m.payload, reason);
    }

    /** Load the job's callbacks, reporting a failure to do so, else run it: exactly `Deliver`. */
    method DeliverTo(ghost table: map<string, Job>, job: Job, m: GenericMessage) returns (outcome: Outcome)
      requires resolver.jobs == Some(table) && TableValid(table) && probe.Valid()
      requires Ranked(DefsOf(table), rank) && table.Keys <= rank.Keys
      requires m.jobName in table && table[m.jobName] == job
      modifies table.Values, probe, transport
      ensures TableValid(table) && probe.Valid()
      ensures var e := Deliver(DefsOf(table), rank, m, transport.world);
        && probe.calls == old(probe.calls) + e.reports
        && transport.attempted == old(transport.attempted) + e.requests
        && outcome == e.outcome
    {
      ghost var defs, w := DefsOf(table), transport.world;
      assert job.def.name == m.jobName;
      var err := job.LoadTree(resolver, table, rank);
      DeliverCases(defs, rank, m, w);
      if err.Some? {
        ReportLoadFailure(table, m, err.value);
        return Completed;
      }
      outcome := RunLoaded(table, job, ResolveName(defs, rank, m.jobName).value, m);
    }

    method ReportLoadFailure(ghost table: map<string, Job>, m: GenericMessage, err: string)
      requires TableValid(table) && probe.Valid()
      modifies probe
      ensures TableValid(table) && probe.Valid()
      ensures probe.calls == old(probe.calls) + [FailedReport(m.jobName, m.payload, LoadFailurePrefix + err)]
    {
      probe.Failed(m.jobName, m.payload, LoadFailurePrefix + err);
    }

    method RunLoaded(ghost table: map<string, Job>, job: Job, ghost tree: ResolvedJob, m: GenericMessage) returns (outcome: Outcome)
      requires TableValid(table) && Shaped(table, job, tree) && probe.Valid()
      modifies probe, transport
      ensures TableValid(table) && probe.Valid()
      ensures var e := Run(tree, m.payload, transport.world);
        && probe.calls == old(probe.calls) + e.reports
        && transport.attempted == old(transport.attempted) + e.requests
        && outcome == e.outcome
    {
      outcome := job.Do(table, tree, probe, m.payload, transport);
    }
  }
}
