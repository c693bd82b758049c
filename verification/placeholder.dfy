/**
 * The earlier, placeholder message handler: the same two checks as the full
 * handler, then an `ok` report in place of the job's run. It never throws, so
 * every message it receives is acknowledged.
 */
module MessageHandler {
  import opened Values
  import opened Definitions
  import opened Probes
  import opened Requests
  import opened Execution
  import opened Registry
  import opened Jobs
  import Message

  /** The one report the placeholder makes for a message. */
  function Report(defs: map<string, JobDef>, m: GenericMessage): (e: Event)
    ensures e.jobName == m.jobName && e.payload == m.payload
    ensures e.OkReport? <==> PayloadMatches(defs, m)
    ensures e.FailedReport? ==> (e.reason == NotFoundReason <==> m.jobName !in defs)
    ensures e.FailedReport? ==> (e.reason == MismatchReason <==> m.jobName in defs)
  {
    if m.jobName !in defs then FailedReport(m.jobName, m.payload, NotFoundReason)
    else if !PayloadMatches(defs, m) then FailedReport(m.jobName, m.payload, MismatchReason)
    else OkReport(m.jobName, m.payload)
  }

  /**
   * The placeholder turns a message away exactly when the full handler turns
   * it away at one of its first two checks, with the same single report.
   */
  lemma SameChecksAsFullHandler(defs: map<string, JobDef>, rank: map<string, nat>, m: GenericMessage, w: World)
    requires Ranked(defs, rank) && defs.Keys <= rank.Keys
    ensures !PayloadMatches(defs, m) ==> Message.Handle(defs, rank, m, w) == Execution([Report(defs, m)], [], Completed)
    ensures PayloadMatches(defs, m) ==> Report(defs, m) == OkReport(m.jobName, m.payload)
  {
  }

  class GenericMessageHandler {
    const resolver: JobConfigResolver
    const probe: JobValidationProbe

    constructor (resolver: JobConfigResolver, probe: JobValidationProbe)
      ensures this.resolver == resolver && this.probe == probe
    {
      this.resolver := resolver;
      this.probe := probe;
    }

    /** `__invoke`: exactly one report, `Report`, and the registry is left as it was. */
    method Invoke(m: GenericMessage)
      requires resolver.jobs.Some? && probe.Valid()
      modifies probe
      ensures probe.Valid() && probe.calls == old(probe.calls) + [Report(resolver.Defs(), m)]
    {
      var found := resolver.GetJobByName(m.jobName);
      if found.Failure? {
        probe.Failed(m.jobName, m.payload, NotFoundReason);
        return;
      }
      var matches := resolver.DoesMessagePayloadMatchesJobConfig(m);
      if !matches {
        probe.Failed(m.jobName, m.payload, MismatchReason);
        return;
      }
      probe.Ok(m.jobName, m.payload);
    }
  }
}
