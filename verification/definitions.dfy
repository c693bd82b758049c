/** The immutable job definition and the inbound message. */
module Definitions {
  import opened Wrappers
  import opened Values

  /** One job: the shape of its request and the names of its callback jobs. */
  datatype JobDef = JobDef(
    name: string,
    httpMethod: string,  // `method` in the source (a Dafny keyword)
    url: string,
    queryUrlKeys: seq<string>,
    jsonBodyKeys: seq<string>,
    requiredInputKeys: seq<string>,
    logSuffix: string,
    successStatusCode: int,
    onStartCallbackName: Option<string>,
    onSuccessCallbackName: Option<string>,
    onFailCallbackName: Option<string>)

  /** The names a definition refers to through its three callback slots. */
  function CallbackNames(d: JobDef): (names: set<string>)
    ensures forall c :: c in names <==>
      d.onStartCallbackName == Some(c) || d.onSuccessCallbackName == Some(c) || d.onFailCallbackName == Some(c)
  {
    OptionSet(d.onStartCallbackName) + OptionSet(d.onSuccessCallbackName) + OptionSet(d.onFailCallbackName)
  }

  function OptionSet(o: Option<string>): set<string>
  {
    if o.Some? then {o.value} else {}
  }

  /** The queued message: a job name and its payload. */
  datatype GenericMessage = GenericMessage(jobName: string, payload: Payload)

  /** The reasons the message handlers report when they turn a message away. */
  const NotFoundReason: string := "Job config not found"
  const MismatchReason: string := "Payload does not match job config"
}
