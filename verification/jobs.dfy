/**
 * The job objects and the registry that owns them. A `Job` holds its
 * definition and three callback slots that `LoadCallbacks` fills in place with
 * the registry's own instances; `Do` then walks those slots. Every method is
 * proved against the value semantics: resolution against `ResolveName`,
 * execution against `Run`. The registry's table of jobs is passed to the job
 * methods as a ghost value, so that their frames are fixed sets of jobs.
 */
module Jobs {
  import opened Wrappers
  import opened Values
  import opened Definitions
  import opened Probes
  import opened Requests
  import opened Execution
  import Protocol = Execution
  import opened Registry

  /** The three callback slots of a job. */
  datatype Slot = OnStart | OnSuccess | OnFail

  const AllSlots: set<Slot> := {OnStart, OnSuccess, OnFail}

  /** The callback name a definition gives for a slot. */
  function SlotName(d: JobDef, k: Slot): Option<string>
  {
    match k
    case OnStart => d.onStartCallbackName
    case OnSuccess => d.onSuccessCallbackName
    case OnFail => d.onFailCallbackName
  }

  /** The slots that must be bound for the jobs named in `names` to be fully loaded. */
  function Required(defs: map<string, JobDef>, names: set<string>): set<(string, Slot)>
  {
    set n, k | n in names && n in defs && k in AllSlots && SlotName(defs[n], k).Some? :: (n, k)
  }

  lemma RequiredUnion(defs: map<string, JobDef>, a: set<string>, b: set<string>)
    ensures Required(defs, a + b) == Required(defs, a) + Required(defs, b)
  {
  }

  // ---------------------------------------------------------------------------
  // The registry's table of jobs

  /** The definitions of a table of jobs. */
  ghost function DefsOf(table: map<string, Job>): map<string, JobDef>
  {
    map n | n in table :: table[n].def
  }

  /** A bound slot holds the table's job of the slot's name. */
  ghost predicate SlotConsistent(table: map<string, Job>, slot: Job?, name: Option<string>)
  {
    slot == null || (name.Some? && name.value in table && slot == table[name.value])
  }

  /** Jobs are filed under their own names, and every bound slot points into the table. */
  ghost predicate TableValid(table: map<string, Job>)
    reads table.Values
  {
    && (forall n :: n in table ==> table[n].def.name == n)
    && (forall n, k :: n in table && k in AllSlots ==> SlotConsistent(table, table[n].Get(k), SlotName(table[n].def, k)))
  }

  /** The slots currently bound, by job name. */
  ghost function BoundSlots(table: map<string, Job>): set<(string, Slot)>
    reads table.Values
  {
    set n, k | n in table && k in AllSlots && table[n].Get(k) != null :: (n, k)
  }

  /** The jobs named in `names` are all in the table with every named slot bound. */
  ghost predicate Loaded(table: map<string, Job>, names: set<string>)
    reads table.Values
  {
    names <= table.Keys && Required(DefsOf(table), names) <= BoundSlots(table)
  }

  /** The callback tree the slots currently form below the job named `n`. */
  ghost function TreeOf(table: map<string, Job>, rank: map<string, nat>, n: string): ResolvedJob
    reads table.Values
    requires TableValid(table) && Ranked(DefsOf(table), rank) && n in table && n in rank
    decreases rank[n]
  {
    var j := table[n];
    assert DefsOf(table)[n] == j.def;
    assert forall k :: k in AllSlots && j.Get(k) != null ==> SlotName(j.def, k).value in CallbackNames(j.def);
    ResolvedJob(
      j.def,
      if j.onStartCallback == null then None else Some(TreeOf(table, rank, j.def.onStartCallbackName.value)),
      if j.onSuccessCallback == null then None else Some(TreeOf(table, rank, j.def.onSuccessCallbackName.value)),
      if j.onFailCallback == null then None else Some(TreeOf(table, rank, j.def.onFailCallbackName.value)))
  }

  /** A bound slot's subtree is the tree of the job the slot holds. */
  lemma TreeOfSlots(table: map<string, Job>, rank: map<string, nat>, n: string)
    requires TableValid(table) && Ranked(DefsOf(table), rank) && n in table && n in rank
    ensures var j, t := table[n], TreeOf(table, rank, n);
      && t.def == j.def
      && (j.onStartCallback == null <==> t.onStart.None?)
      && (j.onSuccessCallback == null <==> t.onSuccess.None?)
      && (j.onFailCallback == null <==> t.onFail.None?)
      && (j.onStartCallback != null ==> var c := j.onStartCallback.def.name;
            c in table && table[c] == j.onStartCallback && c in rank && rank[c] < rank[n] && t.onStart == Some(TreeOf(table, rank, c)))
      && (j.onSuccessCallback != null ==> var c := j.onSuccessCallback.def.name;
            c in table && table[c] == j.onSuccessCallback && c in rank && rank[c] < rank[n] && t.onSuccess == Some(TreeOf(table, rank, c)))
      && (j.onFailCallback != null ==> var c := j.onFailCallback.def.name;
            c in table && table[c] == j.onFailCallback && c in rank && rank[c] < rank[n] && t.onFail == Some(TreeOf(table, rank, c)))
  {
    var j := table[n];
    assert DefsOf(table)[n] == j.def;
    assert forall k :: k in AllSlots && j.Get(k) != null ==> SlotName(j.def, k).value in CallbackNames(j.def);
    assert j.Get(OnStart) == j.onStartCallback && j.Get(OnSuccess) == j.onSuccessCallback && j.Get(OnFail) == j.onFailCallback;
  }

  /** Binding a named slot of a job in the table to the table's job of that name keeps the table valid. */
  lemma BindKeepsValid(table: map<string, Job>, j: Job, k: Slot)
    requires j.def.name in table && table[j.def.name] == j && k in AllSlots
    requires SlotName(j.def, k).Some? && SlotName(j.def, k).value in table
    requires j.Get(k) == table[SlotName(j.def, k).value]
    requires forall n, k' :: n in table && k' in AllSlots && (table[n] != j || k' != k) ==>
      SlotConsistent(table, table[n].Get(k'), SlotName(table[n].def, k'))
    requires forall n :: n in table ==> table[n].def.name == n
    ensures TableValid(table)
  {
  }

  /** Slots bound in an earlier state and still bound now are among the bound slots. */
  lemma BoundGrows(table: map<string, Job>, before: set<(string, Slot)>)
    requires forall p :: p in before ==> p.0 in table && p.1 in AllSlots && table[p.0].Get(p.1) != null
    ensures before <= BoundSlots(table)
  {
    forall p | p in before ensures p in BoundSlots(table) {
      var (n, k) := p;
      assert table[n].Get(k) != null;
    }
  }

  /**
   * The names reached from `n` are loaded once `n`'s named slots and each
   * callback's reach are, the three loaded one after another.
   */
  lemma ReachLoaded(defs: map<string, JobDef>, rank: map<string, nat>, n: string, keys: set<string>,
                    afterStart: set<(string, Slot)>, afterSuccess: set<(string, Slot)>, bound: set<(string, Slot)>)
    requires Ranked(defs, rank) && n in defs && n in rank && n in keys
    requires afterStart <= afterSuccess <= bound
    requires defs[n].onStartCallbackName.Some? ==> (n, OnStart) in afterStart
    requires defs[n].onSuccessCallbackName.Some? ==> (n, OnSuccess) in afterSuccess
    requires defs[n].onFailCallbackName.Some? ==> (n, OnFail) in bound
    requires var a := SlotReach(defs, rank, n, defs[n].onStartCallbackName); a <= keys && Required(defs, a) <= afterStart
    requires var b := SlotReach(defs, rank, n, defs[n].onSuccessCallbackName); b <= keys && Required(defs, b) <= afterSuccess
    requires var c := SlotReach(defs, rank, n, defs[n].onFailCallbackName); c <= keys && Required(defs, c) <= bound
    ensures ReachNames(defs, rank, n) <= keys && Required(defs, ReachNames(defs, rank, n)) <= bound
  {
    var d := defs[n];
    var a := SlotReach(defs, rank, n, d.onStartCallbackName);
    var b := SlotReach(defs, rank, n, d.onSuccessCallbackName);
    var c := SlotReach(defs, rank, n, d.onFailCallbackName);
    assert ReachNames(defs, rank, n) == {n} + a + b + c;
    RequiredUnion(defs, {n} + a + b, c);
    RequiredUnion(defs, {n} + a, b);
    RequiredUnion(defs, {n}, a);
    forall p | p in Required(defs, {n})
      ensures p in bound
    {
      var (_, k) := p;
      assert k == OnStart || k == OnSuccess || k == OnFail;
    }
  }

  /**
   * Once every job reachable from `n` is loaded, the slots form exactly the
   * tree that resolution on values builds: loading in place and resolving by
   * value agree.
   */
  lemma {:induction false} LoadedTreeIsResolution(table: map<string, Job>, rank: map<string, nat>, n: string)
    requires TableValid(table) && Ranked(DefsOf(table), rank) && n in table && n in rank
    requires Loaded(table, ReachNames(DefsOf(table), rank, n))
    ensures ResolveName(DefsOf(table), rank, n) == Success(TreeOf(table, rank, n))
    decreases rank[n]
  {
    var defs := DefsOf(table);
    var j := table[n];
    assert defs[n] == j.def;
    TreeOfSlots(table, rank, n);
    forall k | k in AllSlots
      ensures ResolveSlot(defs, rank, n, SlotName(j.def, k))
        == Success(if j.Get(k) == null then None else Some(TreeOf(table, rank, SlotName(j.def, k).value)))
    {
      var name := SlotName(j.def, k);
      if name.Some? {
        var c := name.value;
        assert (n, k) in Required(defs, ReachNames(defs, rank, n));
        assert j.Get(k) != null;
        assert c in table && j.Get(k) == table[c];
        assert ReachNames(defs, rank, c) <= ReachNames(defs, rank, n);
        assert Required(defs, ReachNames(defs, rank, c)) <= Required(defs, ReachNames(defs, rank, n));
        LoadedTreeIsResolution(table, rank, c);
      }
    }
    assert j.Get(OnStart) == j.onStartCallback && j.Get(OnSuccess) == j.onSuccessCallback && j.Get(OnFail) == j.onFailCallback;
  }

  /** The slots below `j` form the tree `t`. */
  ghost predicate Shaped(table: map<string, Job>, j: Job, t: ResolvedJob)
    reads table.Values
    decreases t, 1
  {
    && j in table.Values
    && j.def == t.def
    && SlotShaped(table, j.onStartCallback, t.onStart)
    && SlotShaped(table, j.onSuccessCallback, t.onSuccess)
    && SlotShaped(table, j.onFailCallback, t.onFail)
  }

  ghost predicate SlotShaped(table: map<string, Job>, slot: Job?, t: Option<ResolvedJob>)
    reads table.Values
    decreases t, 0
  {
    match t
    case None => slot == null
    case Some(c) => slot != null && Shaped(table, slot, c)
  }

  /** In a valid ranked table every job's slots form the tree `TreeOf` describes. */
  lemma {:induction false} TreeOfShaped(table: map<string, Job>, rank: map<string, nat>, n: string)
    requires TableValid(table) && Ranked(DefsOf(table), rank) && n in table && n in rank
    ensures Shaped(table, table[n], TreeOf(table, rank, n))
    decreases rank[n]
  {
    TreeOfSlots(table, rank, n);
    var j := table[n];
    if j.onStartCallback != null {
      TreeOfShaped(table, rank, j.onStartCallback.def.name);
    }
    if j.onSuccessCallback != null {
      TreeOfShaped(table, rank, j.onSuccessCallback.def.name);
    }
    if j.onFailCallback != null {
      TreeOfShaped(table, rank, j.onFailCallback.def.name);
    }
  }

  /** The loop of `buildQueryUrl` and `buildPostBody`: copy each configured key that is set and non-null. */
  method CollectParams(keys: seq<string>, payload: Payload) returns (params: seq<Param>)
    ensures params == Project(keys, payload)
  {
    params := [];
    var i := 0;
    while i < |keys|
      invariant 0 <= i <= |keys|
      invariant params == Project(keys[..i], payload)
    {
      var key := keys[i];
      assert keys[..i + 1][..i] == keys[..i];
      if key in payload && payload[key] != Null {
        params := Assign(params, key, payload[key]);
      }
      i := i + 1;
    }
    assert keys[..i] == keys;
  }

  /** Freshly built jobs: each filed under its own name, with every slot still empty. */
  ghost predicate Unloaded(table: map<string, Job>)
    reads table.Values
  {
    forall n :: n in table ==>
      && table[n].def.name == n
      && table[n].Get(OnStart) == null && table[n].Get(OnSuccess) == null && table[n].Get(OnFail) == null
  }

  lemma UnloadedIsValid(table: map<string, Job>)
    requires Unloaded(table)
    ensures TableValid(table) && BoundSlots(table) == {}
  {
    forall n, k | n in table && k in AllSlots
      ensures table[n].Get(k) == null
    {
      match k
      case OnStart =>
      case OnSuccess =>
      case OnFail =>
    }
  }

  /**
   * The inner `foreach` of `loadJobsOnce` for one parsed file: reject a document
   * that is no map with a `jobs` map, then validate each entry and build a new
   * job for it; the first bad entry aborts.
   */
  method LoadFile(file: string, doc: Value) returns (r: Result<map<string, Job>, LoadError>)
    requires InModelledDomain(doc)
    ensures r.Failure? ==> ParseFile(file, doc) == Failure(r.error)
    ensures r.Success? ==> ParseFile(file, doc) == Success(DefsOf(r.value))
    ensures r.Success? ==> (forall n :: n in r.value ==> fresh(r.value[n])) && Unloaded(r.value)
  {
    if !(IsArray(doc) && HasKey(doc, "jobs") && IsArray(Coalesce(doc, "jobs"))) {
      return Failure(NotAMap(file));
    }
    var parsedJobs := Coalesce(doc, "jobs");
    var entries := if parsedJobs.Map? then parsedJobs.entries else [];
    r := LoadEntries(entries, file);
  }

  /** The entry loop itself: each entry validated and built into a new job, the first bad one aborting. */
  method LoadEntries(entries: seq<(string, Value)>, file: string) returns (r: Result<map<string, Job>, LoadError>)
    requires forall i :: 0 <= i < |entries| ==> KeyListsAreStrings(entries[i].1)
    ensures r.Failure? ==> ParseEntries(entries, file) == Failure(r.error)
    ensures r.Success? ==> ParseEntries(entries, file) == Success(DefsOf(r.value))
    ensures r.Success? ==> (forall n :: n in r.value ==> fresh(r.value[n])) && Unloaded(r.value)
  {
    var fromFile: map<string, Job> := map[];
    var k := 0;
    while k < |entries|
      invariant 0 <= k <= |entries|
      invariant ParseEntries(entries[..k], file) == Success(DefsOf(fromFile))
      invariant forall n :: n in fromFile ==> fresh(fromFile[n])
      invariant Unloaded(fromFile)
    {
      var (name, config) := entries[k];
      ParseEntriesStep(entries, k, file);
      var d := ParseJob(name, config, file);
      if d.Failure? {
        ParseEntriesPrefixFailure(entries, k + 1, file);
        return Failure(d.error);
      }
      var job := new Job(d.value);
      ParseJobKeepsName(name, config, file);
      DefsOfUpdate(fromFile, name, job);
      UnloadedUpdate(fromFile, name, job);
      fromFile := fromFile[name := job];
      k := k + 1;
    }
    assert entries[..k] == entries;
    return Success(fromFile);
  }

  /** One more entry: parse it and file its definition under its name, or fail with its error. */
  lemma ParseEntriesStep(entries: seq<(string, Value)>, k: nat, file: string)
    requires forall i :: 0 <= i < |entries| ==> KeyListsAreStrings(entries[i].1)
    requires k < |entries| && ParseEntries(entries[..k], file).Success?
    ensures var d := ParseJob(entries[k].0, entries[k].1, file);
      ParseEntries(entries[..k + 1], file)
        == if d.Failure? then Failure(d.error) else Success(ParseEntries(entries[..k], file).value[entries[k].0 := d.value])
  {
    assert entries[..k + 1][..k] == entries[..k];
  }

  lemma ParseJobKeepsName(name: string, config: Value, file: string)
    requires KeyListsAreStrings(config)
    ensures ParseJob(name, config, file).Success? ==> ParseJob(name, config, file).value.name == name
  {
  }

  lemma DefsOfUpdate(table: map<string, Job>, name: string, job: Job)
    ensures DefsOf(table[name := job]) == DefsOf(table)[name := job.def]
  {
  }

  lemma UnloadedUpdate(table: map<string, Job>, name: string, job: Job)
    requires Unloaded(table) && job.def.name == name
    requires job.onStartCallback == null && job.onSuccessCallback == null && job.onFailCallback == null
    ensures Unloaded(table[name := job])
  {
  }

  /** The outer `foreach` of `loadJobsOnce`: load each file and `array_merge` its jobs in. */
  method LoadFileList(files: seq<string>, parse: string -> Value) returns (r: Result<map<string, Job>, LoadError>)
    requires FilesInDomain(files, parse)
    ensures r.Failure? ==> LoadFiles(files, parse) == Failure(r.error)
    ensures r.Success? ==> LoadFiles(files, parse) == Success(DefsOf(r.value))
    ensures r.Success? ==> (forall n :: n in r.value ==> fresh(r.value[n])) && Unloaded(r.value)
  {
    var all: map<string, Job> := map[];
    var i := 0;
    while i < |files|
      invariant 0 <= i <= |files|
      invariant FilesInDomain(files[..i], parse)
      invariant LoadFiles(files[..i], parse) == Success(DefsOf(all))
      invariant forall n :: n in all ==> fresh(all[n])
      invariant Unloaded(all)
    {
      var file := files[i];
      assert files[..i + 1] == files[..i] + [file];
      LoadFilesSnoc(files[..i], file, parse);
      var fromFile := LoadFile(file, parse(file));
      if fromFile.Failure? {
        LoadFilesPrefixFailure(files, i + 1, parse);
        return Failure(fromFile.error);
      }
      DefsOfMerge(all, fromFile.value);
      UnloadedMerge(all, fromFile.value);
      all := all + fromFile.value;
      i := i + 1;
    }
    assert files[..i] == files;
    return Success(all);
  }

  lemma UnloadedMerge(a: map<string, Job>, b: map<string, Job>)
    requires Unloaded(a) && Unloaded(b)
    ensures Unloaded(a + b)
  {
  }

  lemma DefsOfMerge(a: map<string, Job>, b: map<string, Job>)
    ensures DefsOf(a + b) == DefsOf(a) + DefsOf(b)
  {
  }

  lemma AppendAssoc<T>(a: seq<T>, b: seq<T>, c: seq<T>)
    ensures a + b + c == a + (b + c)
  {
  }

  class Job {
    const def: JobDef
    var onStartCallback: Job?
    var onSuccessCallback: Job?
    var onFailCallback: Job?

    constructor (def: JobDef)
      ensures this.def == def
      ensures onStartCallback == null && onSuccessCallback == null && onFailCallback == null
    {
      this.def := def;
      onStartCallback, onSuccessCallback, onFailCallback := null, null, null;
    }

    function Get(k: Slot): Job?
      reads this
    {
      match k
      case OnStart => onStartCallback
      case OnSuccess => onSuccessCallback
      case OnFail => onFailCallback
    }

    /**
     * `loadCallbacks`: the onStart, onSuccess and onFail blocks in turn; the
     * first unknown name aborts with the lookup error. Slots only go from empty
     * to bound, so a job shared by several parents is loaded consistently.
     */
    method LoadCallbacks(resolver: JobConfigResolver, ghost table: map<string, Job>, ghost rank: map<string, nat>)
      returns (err: Option<string>)
      requires resolver.jobs == Some(table) && TableValid(table) && def.name in table && table[def.name] == this
      requires Ranked(DefsOf(table), rank) && def.name in rank
      modifies table.Values
      ensures TableValid(table)
      ensures old(BoundSlots(table)) <= BoundSlots(table)
      ensures err == ErrorOf(ResolveName(DefsOf(table), rank, def.name))
      ensures err.None? ==> Loaded(table, ReachNames(DefsOf(table), rank, def.name))
      decreases rank[def.name], 1
    {
      ghost var defs := DefsOf(table);
      ghost var n := def.name;
      assert defs[n] == def;
      ResolveNameError(defs, rank, n);
      err := LoadSlot(resolver, table, rank, OnStart);
      if err.Some? {
        return;
      }
      ghost var afterStart := BoundSlots(table);
      err := LoadSlot(resolver, table, rank, OnSuccess);
      if err.Some? {
        return;
      }
      ghost var afterSuccess := BoundSlots(table);
      err := LoadSlot(resolver, table, rank, OnFail);
      if err.None? {
        ReachLoaded(defs, rank, n, table.Keys, afterStart, afterSuccess, BoundSlots(table));
      }
    }

    /** `loadCallbacks` as its callers see it: the lookup error, or the slots now form the resolved tree. */
    method LoadTree(resolver: JobConfigResolver, ghost table: map<string, Job>, ghost rank: map<string, nat>)
      returns (err: Option<string>)
      requires resolver.jobs == Some(table) && TableValid(table) && def.name in table && table[def.name] == this
      requires Ranked(DefsOf(table), rank) && def.name in rank
      modifies table.Values
      ensures TableValid(table)
      ensures err == ErrorOf(ResolveName(DefsOf(table), rank, def.name))
      ensures err.None? ==> Shaped(table, this, ResolveName(DefsOf(table), rank, def.name).value)
    {
      err := LoadCallbacks(resolver, table, rank);
      if err.None? {
        LoadedTreeIsResolution(table, rank, def.name);
        TreeOfShaped(table, rank, def.name);
      }
    }

    /**
     * One `if (...CallbackName !== null)` block of `loadCallbacks`: look the
     * name up, bind the slot to that job, and load its callbacks.
     */
    method LoadSlot(resolver: JobConfigResolver, ghost table: map<string, Job>, ghost rank: map<string, nat>, k: Slot)
      returns (err: Option<string>)
      requires resolver.jobs == Some(table) && TableValid(table) && def.name in table && table[def.name] == this
      requires Ranked(DefsOf(table), rank) && def.name in rank
      modifies table.Values
      ensures TableValid(table)
      ensures old(BoundSlots(table)) <= BoundSlots(table)
      ensures err == ErrorOf(ResolveSlot(DefsOf(table), rank, def.name, SlotName(def, k)))
      ensures err.None? ==> Loaded(table, SlotReach(DefsOf(table), rank, def.name, SlotName(def, k)))
      ensures err.None? && SlotName(def, k).Some? ==> (def.name, k) in BoundSlots(table)
      decreases rank[def.name], 0
    {
      ghost var defs := DefsOf(table);
      assert defs[def.name] == def;
      var name := SlotName(def, k);
      if name.None? {
        return None;
      }
      var found := resolver.GetJobByName(name.value);
      if found.Failure? {
        return Some(found.error);
      }
      var child := found.value;
      Bind(table, k, child);
      err := child.LoadCallbacks(resolver, table, rank);
    }

    /** `$this->...Callback = $job`: bind slot `k` to the table's job of its name. */
    method Bind(ghost table: map<string, Job>, k: Slot, child: Job)
      requires TableValid(table) && def.name in table && table[def.name] == this
      requires SlotName(def, k).Some? && SlotName(def, k).value in table && table[SlotName(def, k).value] == child
      modifies this
      ensures TableValid(table)
      ensures old(BoundSlots(table)) <= BoundSlots(table) && (def.name, k) in BoundSlots(table)
    {
      ghost var before := BoundSlots(table);
      label Unbound:
      match k {
        case OnStart => onStartCallback := child;
        case OnSuccess => onSuccessCallback := child;
        case OnFail => onFailCallback := child;
      }
      BindKeepsValid(table, this, k);
      forall p | p in before
        ensures p.0 in table && p.1 in AllSlots && table[p.0].Get(p.1) != null
      {
        var (n, k') := p;
        if table[n] == this && k' == k {
          assert Get(k) == child;
        } else {
          assert table[n].Get(k') == old@Unbound(table[n].Get(k'));
        }
      }
      BoundGrows(table, before);
      assert k in AllSlots && (def.name, k) in BoundSlots(table);
    }

    /**
     * `do`: onStart, then the main request and onSuccess, with every failure
     * handed to `fail`; exactly the probe calls, requests and outcome of `Run`
     * on the tree the slots form.
     */
    method Do(ghost table: map<string, Job>, ghost tree: ResolvedJob, probe: JobValidationProbe, payload: Payload, transport: Transport)
      returns (outcome: Outcome)
      requires Shaped(table, this, tree) && probe.Valid()
      modifies probe, transport
      ensures probe.Valid()
      ensures var e := Run(tree, payload, transport.world);
        && probe.calls == old(probe.calls) + e.reports
        && transport.attempted == old(transport.attempted) + e.requests
        && outcome == e.outcome
      decreases tree, 3
    {
      ghost var w := transport.world;
      ghost var calls0, sent0 := probe.calls, transport.attempted;
      ghost var start := RunSlot(tree.onStart, payload, w);
      if onStartCallback != null {
        var started := onStartCallback.Do(table, tree.onStart.value, probe, payload, transport);
        assert probe.calls == calls0 + start.reports && transport.attempted == sent0 + start.requests;
        if started.Raised? {
          ghost var calls1, sent1 := probe.calls, transport.attempted;
          outcome := Fail(table, tree, probe, payload, started.message, transport);
          ghost var rest := Protocol.Fail(tree, payload, started.message, w);
          assert Run(tree, payload, w) == Then(start, rest);
          AppendAssoc(calls0, start.reports, rest.reports);
          AppendAssoc(sent0, start.requests, rest.requests);
          return;
        }
      } else {
        assert start == Skipped;
        assert probe.calls == calls0 + start.reports && transport.attempted == sent0 + start.requests;
      }
      ghost var rest := AfterStart(tree, payload, w);
      outcome := DoMain(table, tree, probe, payload, transport);
      assert Run(tree, payload, w) == Then(start, rest);
      AppendAssoc(calls0, start.reports, rest.reports);
      AppendAssoc(sent0, start.requests, rest.requests);
    }

    /** The main-request part of `do`, after onStart completed. */
    method DoMain(ghost table: map<string, Job>, ghost tree: ResolvedJob, probe: JobValidationProbe, payload: Payload, transport: Transport)
      returns (outcome: Outcome)
      requires Shaped(table, this, tree) && probe.Valid()
      modifies probe, transport
      ensures probe.Valid()
      ensures var e := AfterStart(tree, payload, transport.world);
        && probe.calls == old(probe.calls) + e.reports
        && transport.attempted == old(transport.attempted) + e.requests
        && outcome == e.outcome
      decreases tree, 2
    {
      ghost var w := transport.world;
      ghost var calls0, sent0 := probe.calls, transport.attempted;
      ghost var request := BuildRequest(tree.def, payload, w);
      var failure := MakeRequest(payload, transport);
      assert transport.attempted == sent0 + [request];
      if failure.Some? {
        probe.Failed(def.name, payload, failure.value);
        ghost var own := [FailedReport(def.name, payload, failure.value)];
        assert probe.calls == calls0 + own;
        var handed := payload[ErrorMessageKey := Str(failure.value)];
        outcome := Fail(table, tree, probe, handed, failure.value, transport);
        ghost var rest := Protocol.Fail(tree, handed, failure.value, w);
        assert AfterStart(tree, payload, w) == Then(Execution(own, [request], Completed), rest);
        AppendAssoc(calls0, own, rest.reports);
        AppendAssoc(sent0, [request], rest.requests);
        return;
      }
      ghost var rest := AfterRequest(tree, payload, w);
      outcome := DoSuccess(table, tree, probe, payload, transport);
      assert AfterStart(tree, payload, w) == Then(Execution([], [request], Completed), rest);
      assert calls0 + ([] + rest.reports) == calls0 + rest.reports;
      AppendAssoc(sent0, [request], rest.requests);
    }

    /** The onSuccess part of `do`, after the main request succeeded, ending with `ok`. */
    method DoSuccess(ghost table: map<string, Job>, ghost tree: ResolvedJob, probe: JobValidationProbe, payload: Payload, transport: Transport)
      returns (outcome: Outcome)
      requires Shaped(table, this, tree) && probe.Valid()
      modifies probe, transport
      ensures probe.Valid()
      ensures var e := AfterRequest(tree, payload, transport.world);
        && probe.calls == old(probe.calls) + e.reports
        && transport.attempted == old(transport.attempted) + e.requests
        && outcome == e.outcome
      decreases tree, 1
    {
      ghost var w := transport.world;
      ghost var calls0, sent0 := probe.calls, transport.attempted;
      ghost var success := RunSlot(tree.onSuccess, payload, w);
      if onSuccessCallback != null {
        var succeeded := onSuccessCallback.Do(table, tree.onSuccess.value, probe, payload, transport);
        assert probe.calls == calls0 + success.reports && transport.attempted == sent0 + success.requests;
        if succeeded.Raised? {
          outcome := Fail(table, tree, probe, payload, succeeded.message, transport);
          ghost var rest := Protocol.Fail(tree, payload, succeeded.message, w);
          assert AfterRequest(tree, payload, w) == Then(success, rest);
          AppendAssoc(calls0, success.reports, rest.reports);
          AppendAssoc(sent0, success.requests, rest.requests);
          return;
        }
      } else {
        assert success == Skipped;
      }
      ghost var own := [OkReport(def.name, payload)];
      probe.Ok(def.name, payload);
      outcome := Completed;
      assert AfterRequest(tree, payload, w) == Then(success, Execution(own, [], Completed));
      AppendAssoc(calls0, success.reports, own);
      assert transport.attempted == sent0 + success.requests + [];
    }

    /** `fail`, corrected: run onFail if bound, ignore how it ends, raise the original message. */
    method Fail(ghost table: map<string, Job>, ghost tree: ResolvedJob, probe: JobValidationProbe, payload: Payload,
                message: string, transport: Transport)
      returns (outcome: Outcome)
      requires Shaped(table, this, tree) && probe.Valid()
      modifies probe, transport
      ensures probe.Valid()
      ensures var e := Protocol.Fail(tree, payload, message, transport.world);
        && probe.calls == old(probe.calls) + e.reports
        && transport.attempted == old(transport.attempted) + e.requests
        && outcome == e.outcome
      decreases tree, 0
    {
      if onFailCallback != null {
        var ignored := onFailCallback.Do(table, tree.onFail.value, probe, payload, transport);
      }
      outcome := Raised(FailPrefix + message);
    }

    /** `makeRequest`: build the request, send it once, and judge the answer. */
    method MakeRequest(payload: Payload, transport: Transport) returns (failure: Option<string>)
      modifies transport
      ensures transport.attempted == old(transport.attempted) + [BuildRequest(def, payload, transport.world)]
      ensures failure == RequestFailure(def, transport.world.respond(BuildRequest(def, payload, transport.world)))
    {
      var query := BuildQueryUrl(payload, transport.world.encodeQuery);
      var url := TargetUrl(def.url, query);
      var verb := RequestMethod(def.httpMethod);
      var body := BuildPostBody(payload, transport.world.encodeJson);
      var answer := transport.Execute(Request(verb, url, body, Headers));
      failure := RequestFailure(def, answer);
    }

    /** `buildQueryUrl`: empty without parameters, else `?` and the encoded parameters. */
    method BuildQueryUrl(payload: Payload, encode: seq<Param> -> string) returns (query: string)
      ensures query == QueryString(Project(def.queryUrlKeys, payload), encode)
    {
      var params := CollectParams(def.queryUrlKeys, payload);
      if |params| == 0 {
        return "";
      }
      query := "?" + encode(params);
    }

    /** `buildPostBody`: `{}` without parameters, else the JSON encoding of the parameters. */
    method BuildPostBody(payload: Payload, encode: seq<Param> -> string) returns (body: string)
      ensures body == PostBody(Project(def.jsonBodyKeys, payload), encode)
    {
      var params := CollectParams(def.jsonBodyKeys, payload);
      if |params| == 0 {
        return "{}";
      }
      body := encode(params);
    }
  }

  class JobConfigResolver {
    const env: string
    /** The loaded jobs by name; `None` until loading succeeds. */
    var jobs: Option<map<string, Job>>

    constructor (env: string)
      ensures this.env == env && jobs == None
    {
      this.env := env;
      jobs := None;
    }

    ghost function Instances(): set<Job>
      reads this
    {
      if jobs.Some? then jobs.value.Values else {}
    }

    ghost function Defs(): map<string, JobDef>
      reads this
      requires jobs.Some?
    {
      DefsOf(jobs.value)
    }

    ghost predicate Valid()
      reads this, Instances()
    {
      jobs.Some? && TableValid(jobs.value)
    }

    /**
     * `loadJobsOnce`: nothing to do once loaded; otherwise the file list, then
     * each file's jobs merged in order, later files overriding earlier ones. On
     * an error nothing is stored; on success every job is new and unloaded.
     * `listed` is what `glob` returned and `parse` stands for `Yaml::parseFile`.
     */
    method LoadJobsOnce(listed: Option<seq<string>>, parse: string -> Value) returns (err: Option<LoadError>)
      requires SourcesInDomain(env, listed, parse)
      modifies this
      ensures old(jobs).Some? ==> jobs == old(jobs) && err.None?
      ensures old(jobs).None? ==> err == ErrorOf(LoadAll(env, listed, parse))
      ensures old(jobs).None? && err.Some? ==> jobs.None?
      ensures old(jobs).None? && err.None? ==>
        && jobs.Some? && DefsOf(jobs.value) == LoadAll(env, listed, parse).value
        && (forall n :: n in jobs.value ==> fresh(jobs.value[n])) && Unloaded(jobs.value)
    {
      if jobs.Some? {
        return None;
      }
      var files := GetConfigFiles(env, listed);
      if files.Failure? {
        return Some(files.error);
      }
      var loaded := LoadFileList(files.value, parse);
      if loaded.Failure? {
        return Some(loaded.error);
      }
      jobs := Some(loaded.value);
      err := None;
    }

    /**
     * The constructor of the resolver, which loads the jobs at once: the
     * resolver, or the error its `loadJobsOnce` throws.
     */
    static method Create(env: string, listed: Option<seq<string>>, parse: string -> Value)
      returns (r: Result<JobConfigResolver, LoadError>)
      requires SourcesInDomain(env, listed, parse)
      ensures r.Failure? <==> LoadAll(env, listed, parse).Failure?
      ensures r.Failure? ==> r.error == LoadAll(env, listed, parse).error
      ensures r.Success? ==>
        && fresh(r.value) && r.value.env == env && r.value.Valid()
        && r.value.Defs() == LoadAll(env, listed, parse).value
        && (forall n :: n in r.value.jobs.value ==> fresh(r.value.jobs.value[n])) && BoundSlots(r.value.jobs.value) == {}
    {
      var resolver := new JobConfigResolver(env);
      var err := resolver.LoadJobsOnce(listed, parse);
      if err.Some? {
        return Failure(err.value);
      }
      UnloadedIsValid(resolver.jobs.value);
      return Success(resolver);
    }

    /** `doesMessagePayloadMatchesJobConfig`: the job is known and each required key occurs in the payload. */
    method DoesMessagePayloadMatchesJobConfig(m: GenericMessage) returns (b: bool)
      ensures b == (jobs.Some? && PayloadMatches(Defs(), m))
    {
      if jobs.None? || m.jobName !in jobs.value {
        return false;
      }
      var job := GetJobByName(m.jobName).value;
      var keys := job.def.requiredInputKeys;
      for i := 0 to |keys|
        invariant forall j :: 0 <= j < i ==> KeyExists(m.payload, keys[j])
      {
        if !KeyExists(m.payload, keys[i]) {
          return false;
        }
      }
      return true;
    }

    /** `getJobByName`: the loaded job of that name, else the not-found error. */
    function GetJobByName(name: string): (r: Result<Job, string>)
      reads this
      ensures r.Success? <==> jobs.Some? && name in jobs.value
      ensures r.Success? ==> r.value == jobs.value[name] && r.value.def == Defs()[name]
      ensures r.Failure? ==> r.error == NotFoundMessage(name)
    {
      if jobs.None? || name !in jobs.value then Failure(NotFoundMessage(name)) else Success(jobs.value[name])
    }
  }
}
