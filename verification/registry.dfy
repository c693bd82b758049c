/**
 * The job registry's logic on values: choosing the configuration files,
 * validating parsed documents and turning them into definitions merged by name,
 * checking a payload against a job, and resolving callback names into trees.
 */
module Registry {
  import opened Wrappers
  import opened Values
  import opened Definitions
  import opened Requests
  import opened Execution

  /** Why loading the configuration fails. */
  datatype LoadError =
    | FolderUnreadable(folder: string)                       // `glob` returned false
    | NotAMap(file: string)                                  // document is no map with a `jobs` map
    | InvalidJobConfig(jobName: string, file: string)        // entry is no map with a `request` map
    | InvalidRequestConfig(jobName: string, file: string)    // bad `method`, `url` or key list
    | ConstructorTypeError(jobName: string, parameter: string) // the `Job` constructor's parameter types refuse a value

  /** The `RuntimeException` text for the errors the loader throws itself. */
  function Message(e: LoadError): Option<string>
  {
    match e
    case FolderUnreadable(folder) => Some("Failed to read job config files from folder: " + folder)
    case NotAMap(file) => Some("Invalid YAML (not a map): " + file)
    case InvalidJobConfig(name, file) => Some("Invalid job config for job '" + name + "' in file: " + file)
    case InvalidRequestConfig(name, file) => Some("Invalid request config for job '" + name + "' in file: " + file)
    case ConstructorTypeError(_, _) => None
  }

  const JobsConfigPath: string := "/application/config/jobs/"
  const TestConfigFile: string := JobsConfigPath + "test.yaml"

  // ---------------------------------------------------------------------------
  // Choosing the configuration files

  /** The `foreach` of `getConfigFiles`: drop `test.yaml` unless the environment is `test`. */
  function KeepConfigFiles(env: string, listed: seq<string>): seq<string>
    decreases |listed|
  {
    if listed == [] then []
    else
      var file := listed[|listed| - 1];
      KeepConfigFiles(env, listed[..|listed| - 1]) + (if env != "test" && file == TestConfigFile then [] else [file])
  }

  /** `getConfigFiles`; `listed` is what `glob` returned, `None` when it failed. */
  function ConfigFiles(env: string, listed: Option<seq<string>>): Result<seq<string>, LoadError>
  {
    if env == "test" then Success([TestConfigFile])
    else if listed.None? then Failure(FolderUnreadable(JobsConfigPath))
    else Success(KeepConfigFiles(env, listed.value))
  }

  lemma {:induction false} KeepConfigFilesMembers(env: string, listed: seq<string>)
    requires env != "test"
    ensures var kept := KeepConfigFiles(env, listed);
      && (forall f :: f in kept <==> f in listed && f != TestConfigFile)
      && |kept| <= |listed|
      && (TestConfigFile !in listed ==> kept == listed)
    decreases |listed|
  {
    if listed != [] {
      var init := listed[..|listed| - 1];
      KeepConfigFilesMembers(env, init);
      assert listed == init + [listed[|listed| - 1]];
    }
  }

  /** The filter works file by file: it distributes over concatenation and keeps or drops each file alone. */
  lemma {:induction false} KeepConfigFilesConcat(env: string, a: seq<string>, b: seq<string>)
    ensures KeepConfigFiles(env, a + b) == KeepConfigFiles(env, a) + KeepConfigFiles(env, b)
    ensures |a| == 1 ==> KeepConfigFiles(env, a) == (if env != "test" && a[0] == TestConfigFile then [] else a)
    decreases |b|
  {
    if |a| == 1 {
      assert a[..0] == [];
    }
    if b != [] {
      var init := b[..|b| - 1];
      KeepConfigFilesConcat(env, a, init);
      assert (a + b)[..|a + b| - 1] == a + init;
      assert (a + b)[|a + b| - 1] == b[|b| - 1];
    } else {
      assert a + b == a;
    }
  }

  /**
   * In environment `test` exactly `test.yaml` is loaded; elsewhere every listed
   * file except `test.yaml`, in the listed order, and a failed listing is an error.
   */
  lemma ConfigFileSelection(env: string, listed: Option<seq<string>>)
    ensures env == "test" ==> ConfigFiles(env, listed) == Success([TestConfigFile])
    ensures env != "test" && listed.None? ==> ConfigFiles(env, listed) == Failure(FolderUnreadable(JobsConfigPath))
    ensures env != "test" && listed.Some? ==>
      && ConfigFiles(env, listed).Success?
      && (forall f :: f in ConfigFiles(env, listed).value <==> f in listed.value && f != TestConfigFile)
      && (TestConfigFile !in listed.value ==> ConfigFiles(env, listed).value == listed.value)
      && (forall i :: 0 <= i < |listed.value| && listed.value[i] == TestConfigFile ==>
            ConfigFiles(env, listed).value
            == KeepConfigFiles(env, listed.value[..i]) + KeepConfigFiles(env, listed.value[i + 1..]))
  {
    if env != "test" && listed.Some? {
      var l := listed.value;
      KeepConfigFilesMembers(env, l);
      forall i | 0 <= i < |l| && l[i] == TestConfigFile
        ensures KeepConfigFiles(env, l) == KeepConfigFiles(env, l[..i]) + KeepConfigFiles(env, l[i + 1..])
      {
        assert l == l[..i] + ([l[i]] + l[i + 1..]);
        KeepConfigFilesConcat(env, l[..i], [l[i]] + l[i + 1..]);
        KeepConfigFilesConcat(env, [l[i]], l[i + 1..]);
      }
    }
  }

  /** `getConfigFiles` as the loop it is. */
  method GetConfigFiles(env: string, listed: Option<seq<string>>) returns (r: Result<seq<string>, LoadError>)
    ensures r == ConfigFiles(env, listed)
  {
    if env == "test" {
      return Success([TestConfigFile]);
    }
    if listed.None? {
      return Failure(FolderUnreadable(JobsConfigPath));
    }
    var files: seq<string> := [];
    var i := 0;
    while i < |listed.value|
      invariant 0 <= i <= |listed.value|
      invariant files == KeepConfigFiles(env, listed.value[..i])
    {
      var file := listed.value[i];
      assert listed.value[..i + 1] == listed.value[..i] + [file];
      if env != "test" && file == TestConfigFile {
        i := i + 1;
        continue;
      }
      files := files + [file];
      i := i + 1;
    }
    assert listed.value[..i] == listed.value;
    return Success(files);
  }

  // ---------------------------------------------------------------------------
  // The part of the input this model covers

  predicate IsDigit(c: char)
  {
    '0' <= c <= '9'
  }

  /** A key PHP turns into an integer array key (canonical decimal form). */
  predicate IntegerLike(s: string)
  {
    || s == "0"
    || (|s| > 0 && '1' <= s[0] <= '9' && forall i :: 1 <= i < |s| ==> IsDigit(s[i]))
    || (|s| > 1 && s[0] == '-' && '1' <= s[1] <= '9' && forall i :: 2 <= i < |s| ==> IsDigit(s[i]))
  }

  predicate StringEntries(v: Value)
  {
    forall i :: 0 <= i < |ArrayValues(v)| ==> ArrayValues(v)[i].Str?
  }

  /** The three key lists of a job entry, where they are arrays, hold strings (`string[]`). */
  predicate KeyListsAreStrings(config: Value)
  {
    var request := Coalesce(config, "request");
    && StringEntries(Coalesce(request, "query_url_from"))
    && StringEntries(Coalesce(request, "json_body_from"))
    && StringEntries(Coalesce(request, "required"))
  }

  /**
   * A document inside the model: no integer-like job names (PHP would renumber
   * them in `array_merge`), so no non-empty `jobs` list, each job name once
   * (as in any PHP array), and string key lists.
   */
  predicate InModelledDomain(doc: Value)
  {
    var jobs := Coalesce(doc, "jobs");
    && (jobs.List? ==> jobs.items == [])
    && (jobs.Map? ==> DistinctKeys(jobs.entries))
    && (jobs.Map? ==> forall i :: 0 <= i < |jobs.entries| ==>
          !IntegerLike(jobs.entries[i].0) && KeyListsAreStrings(jobs.entries[i].1))
  }

  // ---------------------------------------------------------------------------
  // One job entry

  function KeyList(v: Value): seq<string>
    requires StringEntries(v)
  {
    seq(|ArrayValues(v)|, i requires 0 <= i < |ArrayValues(v)| => ArrayValues(v)[i].s)
  }

  /** The request shape of an entry passes the string and array checks. */
  predicate WellFormedRequest(config: Value)
  {
    var request := Coalesce(config, "request");
    var q := Coalesce(request, "query_url_from");
    var b := Coalesce(request, "json_body_from");
    var r := Coalesce(request, "required");
    && Coalesce(request, "method").Str? && Coalesce(request, "url").Str?
    && (q == Null || IsArray(q)) && (b == Null || IsArray(b)) && (r == Null || IsArray(r))
  }

  /**
   * The validation and the `new Job(...)` of `loadJobsOnce` exactly as written:
   * the callback names are never passed, so they stay null.
   */
  function ParseJobAsWritten(name: string, config: Value, file: string): Result<JobDef, LoadError>
    requires KeyListsAreStrings(config)
  {
    if !(IsArray(config) && HasKey(config, "request") && IsArray(Coalesce(config, "request"))) then
      Failure(InvalidJobConfig(name, file))
    else if !WellFormedRequest(config) then
      Failure(InvalidRequestConfig(name, file))
    else
      var request := Coalesce(config, "request");
      var q := Coalesce(request, "query_url_from");
      var b := Coalesce(request, "json_body_from");
      var r := Coalesce(request, "required");
      var logSuffix := Coalesce(config, "log_suffix");
      var status := Coalesce(Coalesce(config, "success"), "status_code");
      if q == Null then Failure(ConstructorTypeError(name, "queryUrlKeys"))
      else if b == Null then Failure(ConstructorTypeError(name, "jsonBodyKeys"))
      else if r == Null then Failure(ConstructorTypeError(name, "requiredInputKeys"))
      else if !(logSuffix == Null || logSuffix.Str?) then Failure(ConstructorTypeError(name, "logSuffix"))
      else if !(status == Null || status.Int?) then Failure(ConstructorTypeError(name, "successStatusCode"))
      else
        Success(JobDef(
          name,
          Coalesce(request, "method").s,
          Coalesce(request, "url").s,
          KeyList(q), KeyList(b), KeyList(r),
          if logSuffix == Null then name else logSuffix.s,
          if status == Null then 200 else status.i,
          None, None, None))
  }

  /** A callback name entry of a job: absent or null gives none, a string names a job. */
  function CallbackName(name: string, config: Value, key: string, parameter: string): Result<Option<string>, LoadError>
  {
    var v := Coalesce(config, key);
    if v == Null then Success(None)
    else if v.Str? then Success(Some(v.s))
    else Failure(ConstructorTypeError(name, parameter))
  }

  /** The corrected entry parser: as written, plus the `on_start`, `on_success` and `on_fail` names. */
  function ParseJob(name: string, config: Value, file: string): Result<JobDef, LoadError>
    requires KeyListsAreStrings(config)
  {
    var d :- ParseJobAsWritten(name, config, file);
    var onStart :- CallbackName(name, config, "on_start", "onStartCallbackName");
    var onSuccess :- CallbackName(name, config, "on_success", "onSuccessCallbackName");
    var onFail :- CallbackName(name, config, "on_fail", "onFailCallbackName");
    Success(d.(onStartCallbackName := onStart, onSuccessCallbackName := onSuccess, onFailCallbackName := onFail))
  }

  /** As written, no loaded definition ever names a callback, whatever the entry says. */
  lemma AsWrittenDropsCallbacks(name: string, config: Value, file: string)
    requires KeyListsAreStrings(config)
    ensures ParseJobAsWritten(name, config, file).Success? ==> CallbackNames(ParseJobAsWritten(name, config, file).value) == {}
  {
  }

  /** Concrete input: an entry with `on_start: ping` loads with no onStart as written, with it once corrected. */
  lemma AsWrittenDropsCallbacksExample()
    ensures && ParseJobAsWritten("job", CallbackExample, "jobs.yaml").Success?
            && ParseJobAsWritten("job", CallbackExample, "jobs.yaml").value.onStartCallbackName == None
            && ParseJob("job", CallbackExample, "jobs.yaml").Success?
            && ParseJob("job", CallbackExample, "jobs.yaml").value.onStartCallbackName == Some("ping")
  {
    CallbackExampleLookups();
    ExampleRequestLookups();
    assert KeyListsAreStrings(CallbackExample);
    assert IsArray(CallbackExample) && HasKey(CallbackExample, "request");
    assert WellFormedRequest(CallbackExample);
    assert Coalesce(Null, "status_code") == Null;
    assert KeyList(List([])) == [];
    var d := JobDef("job", "GET", "", [], [], [], "job", 200, None, None, None);
    assert ParseJobAsWritten("job", CallbackExample, "jobs.yaml") == Success(d);
    assert CallbackName("job", CallbackExample, "on_start", "onStartCallbackName") == Success(Some("ping"));
    assert CallbackName("job", CallbackExample, "on_success", "onSuccessCallbackName") == Success(None);
    assert CallbackName("job", CallbackExample, "on_fail", "onFailCallbackName") == Success(None);
  }

  /** A minimal GET request block with empty key lists. */
  const ExampleRequest: Value :=
    Map([("method", Str("GET")), ("url", Str("")),
         ("query_url_from", List([])), ("json_body_from", List([])), ("required", List([]))])

  /** A job entry naming `ping` as its onStart callback. */
  const CallbackExample: Value := Map([("request", ExampleRequest), ("on_start", Str("ping"))])

  lemma ExampleRequestLookups()
    ensures Coalesce(ExampleRequest, "method") == Str("GET")
    ensures Coalesce(ExampleRequest, "url") == Str("")
    ensures Coalesce(ExampleRequest, "query_url_from") == List([])
    ensures Coalesce(ExampleRequest, "json_body_from") == List([])
    ensures Coalesce(ExampleRequest, "required") == List([])
  {
  }

  lemma CallbackExampleLookups()
    ensures Coalesce(CallbackExample, "request") == ExampleRequest
    ensures Coalesce(CallbackExample, "on_start") == Str("ping")
    ensures Coalesce(CallbackExample, "log_suffix") == Null
    ensures Coalesce(CallbackExample, "success") == Null
    ensures Coalesce(CallbackExample, "on_success") == Null
    ensures Coalesce(CallbackExample, "on_fail") == Null
  {
    var rest := [("on_start", Str("ping"))];
    assert CallbackExample.entries[1..] == rest;
    assert LookupEntry(CallbackExample.entries, "on_start") == LookupEntry(rest, "on_start");
    AbsentFromCallbackExample("log_suffix");
    AbsentFromCallbackExample("success");
    AbsentFromCallbackExample("on_success");
    AbsentFromCallbackExample("on_fail");
  }

  lemma AbsentFromCallbackExample(key: string)
    requires key != "request" && key != "on_start"
    ensures Coalesce(CallbackExample, key) == Null
  {
    var rest := [("on_start", Str("ping"))];
    assert CallbackExample.entries[1..] == rest;
    assert LookupEntry(CallbackExample.entries, key) == LookupEntry(rest, key);
    assert LookupEntry(rest, key) == LookupEntry([], key);
  }


  /**
   * What loading an entry rejects and why: an entry that is no map or has no
   * `request` map; a `method` or `url` that is missing or no string, a key list
   * present but no array; and, through the constructor's types, a missing key
   * list, a non-string `log_suffix`, a non-integer status code or callback name
   * that is no string.
   */
  lemma ParseJobRejects(name: string, config: Value, file: string)
    requires KeyListsAreStrings(config)
    ensures !IsArray(config) || !HasKey(config, "request") || !IsArray(Coalesce(config, "request"))
      ==> ParseJob(name, config, file) == Failure(InvalidJobConfig(name, file))
    ensures IsArray(config) && HasKey(config, "request") && IsArray(Coalesce(config, "request")) && !WellFormedRequest(config)
      ==> ParseJob(name, config, file) == Failure(InvalidRequestConfig(name, file))
    ensures ParseJob(name, config, file).Success? <==>
      && IsArray(config) && HasKey(config, "request") && IsArray(Coalesce(config, "request"))
      && WellFormedRequest(config)
      && Coalesce(Coalesce(config, "request"), "query_url_from") != Null
      && Coalesce(Coalesce(config, "request"), "json_body_from") != Null
      && Coalesce(Coalesce(config, "request"), "required") != Null
      && (Coalesce(config, "log_suffix") == Null || Coalesce(config, "log_suffix").Str?)
      && (Coalesce(Coalesce(config, "success"), "status_code") == Null || Coalesce(Coalesce(config, "success"), "status_code").Int?)
      && (Coalesce(config, "on_start") == Null || Coalesce(config, "on_start").Str?)
      && (Coalesce(config, "on_success") == Null || Coalesce(config, "on_success").Str?)
      && (Coalesce(config, "on_fail") == Null || Coalesce(config, "on_fail").Str?)
  {
  }

  /**
   * A loaded definition carries the entry's own values, with `log_suffix`
   * defaulting to the job name and the status code to 200.
   */
  lemma ParseJobDefaults(name: string, config: Value, file: string)
    requires KeyListsAreStrings(config)
    requires ParseJob(name, config, file).Success?
    ensures var d := ParseJob(name, config, file).value;
      var request := Coalesce(config, "request");
      && d.name == name
      && Str(d.httpMethod) == Coalesce(request, "method") && Str(d.url) == Coalesce(request, "url")
      && d.requiredInputKeys == KeyList(Coalesce(request, "required"))
      && d.logSuffix == (if Coalesce(config, "log_suffix") == Null then name else Coalesce(config, "log_suffix").s)
      && d.successStatusCode == (if Coalesce(Coalesce(config, "success"), "status_code") == Null then 200
                                 else Coalesce(Coalesce(config, "success"), "status_code").i)
      && (Coalesce(config, "on_start").Str? ==> d.onStartCallbackName == Some(Coalesce(config, "on_start").s))
      && (Coalesce(config, "on_success").Str? ==> d.onSuccessCallbackName == Some(Coalesce(config, "on_success").s))
      && (Coalesce(config, "on_fail").Str? ==> d.onFailCallbackName == Some(Coalesce(config, "on_fail").s))
      && d.queryUrlKeys == KeyList(Coalesce(request, "query_url_from"))
      && d.jsonBodyKeys == KeyList(Coalesce(request, "json_body_from"))
      && (Coalesce(config, "on_start") == Null <==> d.onStartCallbackName == None)
      && (Coalesce(config, "on_success") == Null <==> d.onSuccessCallbackName == None)
      && (Coalesce(config, "on_fail") == Null <==> d.onFailCallbackName == None)
  {
  }

  // ---------------------------------------------------------------------------
  // Documents and their merge

  /** The inner `foreach` of `loadJobsOnce`: one file's entries into `$jobsFromFile`. */
  function ParseEntries(entries: seq<(string, Value)>, file: string): Result<map<string, JobDef>, LoadError>
    requires forall i :: 0 <= i < |entries| ==> KeyListsAreStrings(entries[i].1)
    decreases |entries|
  {
    if entries == [] then Success(map[])
    else
      var last := entries[|entries| - 1];
      var jobs :- ParseEntries(entries[..|entries| - 1], file);
      var d :- ParseJob(last.0, last.1, file);
      Success(jobs[last.0 := d])
  }

  /** One parsed document: rejected unless it is a map with a `jobs` map. */
  function ParseFile(file: string, doc: Value): Result<map<string, JobDef>, LoadError>
    requires InModelledDomain(doc)
  {
    if !(IsArray(doc) && HasKey(doc, "jobs") && IsArray(Coalesce(doc, "jobs"))) then Failure(NotAMap(file))
    else
      match Coalesce(doc, "jobs")
      case Map(entries) => ParseEntries(entries, file)
      case _ => Success(map[])
  }

  /** Every error of an entry names that entry's job, and is one of the three entry errors. */
  lemma ParseJobErrorsName(name: string, config: Value, file: string)
    requires KeyListsAreStrings(config)
    ensures ParseJob(name, config, file).Failure? ==>
      var e := ParseJob(name, config, file).error;
      (e.InvalidJobConfig? || e.InvalidRequestConfig? || e.ConstructorTypeError?) && e.jobName == name
  {
  }

  /** A file's entries fail only with an entry error, naming one of its entries. */
  lemma {:induction false} ParseEntriesErrors(entries: seq<(string, Value)>, file: string)
    requires forall i :: 0 <= i < |entries| ==> KeyListsAreStrings(entries[i].1)
    ensures ParseEntries(entries, file).Failure? ==>
      var e := ParseEntries(entries, file).error;
      && (e.InvalidJobConfig? || e.InvalidRequestConfig? || e.ConstructorTypeError?)
      && exists i :: 0 <= i < |entries| && entries[i].0 == e.jobName
    decreases |entries|
  {
    if entries != [] {
      var init := entries[..|entries| - 1];
      var last := entries[|entries| - 1];
      ParseEntriesErrors(init, file);
      if ParseEntries(init, file).Failure? {
        var e := ParseEntries(init, file).error;
        var i :| 0 <= i < |init| && init[i].0 == e.jobName;
        assert entries[i] == init[i];
      } else {
        ParseJobErrorsName(last.0, last.1, file);
      }
    }
  }

  /**
   * A document is rejected as "not a map" exactly when it is no map with a
   * `jobs` map; any other error of a file is about one of its entries.
   */
  lemma ParseFileRejects(file: string, doc: Value)
    requires InModelledDomain(doc)
    ensures ParseFile(file, doc) == Failure(NotAMap(file))
      <==> !(IsArray(doc) && HasKey(doc, "jobs") && IsArray(Coalesce(doc, "jobs")))
    ensures ParseFile(file, doc).Failure? && !ParseFile(file, doc).error.NotAMap? ==>
      var e := ParseFile(file, doc).error;
      && (e.InvalidJobConfig? || e.InvalidRequestConfig? || e.ConstructorTypeError?)
      && Coalesce(doc, "jobs").Map?
      && exists i :: 0 <= i < |Coalesce(doc, "jobs").entries| && Coalesce(doc, "jobs").entries[i].0 == e.jobName
  {
    if IsArray(doc) && HasKey(doc, "jobs") && IsArray(Coalesce(doc, "jobs")) && Coalesce(doc, "jobs").Map? {
      ParseEntriesErrors(Coalesce(doc, "jobs").entries, file);
    }
  }

  predicate FilesInDomain(files: seq<string>, parse: string -> Value)
  {
    forall i :: 0 <= i < |files| ==> InModelledDomain(parse(files[i]))
  }

  /** The outer `foreach` of `loadJobsOnce`: parse each file and `array_merge` it in. */
  function LoadFiles(files: seq<string>, parse: string -> Value): Result<map<string, JobDef>, LoadError>
    requires FilesInDomain(files, parse)
    decreases |files|
  {
    if files == [] then Success(map[])
    else
      var file := files[|files| - 1];
      var jobs :- LoadFiles(files[..|files| - 1], parse);
      var fromFile :- ParseFile(file, parse(file));
      Success(jobs + fromFile)
  }

  /** `array_merge` of two load results on string keys: the first error wins, later entries override. */
  function Merge(a: Result<map<string, JobDef>, LoadError>, b: Result<map<string, JobDef>, LoadError>): Result<map<string, JobDef>, LoadError>
  {
    if a.Failure? then a else if b.Failure? then b else Success(a.value + b.value)
  }

  /** Loading one more file merges its jobs into what came before. */
  lemma LoadFilesSnoc(files: seq<string>, file: string, parse: string -> Value)
    requires FilesInDomain(files, parse) && InModelledDomain(parse(file))
    ensures FilesInDomain(files + [file], parse)
    ensures LoadFiles(files + [file], parse) == Merge(LoadFiles(files, parse), ParseFile(file, parse(file)))
  {
    var all := files + [file];
    assert forall i :: 0 <= i < |all| ==> all[i] == if i < |files| then files[i] else file;
    assert all[..|all| - 1] == files;
  }

  lemma MergeAssociative(a: Result<map<string, JobDef>, LoadError>, b: Result<map<string, JobDef>, LoadError>, c: Result<map<string, JobDef>, LoadError>)
    ensures Merge(Merge(a, b), c) == Merge(a, Merge(b, c))
  {
    if a.Success? && b.Success? && c.Success? {
      assert a.value + b.value + c.value == a.value + (b.value + c.value);
    }
  }

  /**
   * Loading a list of sources is loading each part and merging, later parts
   * winning on a shared job name, and the first error aborting everything.
   */
  lemma {:induction false} LoadFilesConcat(a: seq<string>, b: seq<string>, parse: string -> Value)
    requires FilesInDomain(a, parse) && FilesInDomain(b, parse)
    ensures FilesInDomain(a + b, parse)
    ensures LoadFiles(a + b, parse) == Merge(LoadFiles(a, parse), LoadFiles(b, parse))
    decreases |b|
  {
    if b == [] {
      assert a + b == a;
      assert LoadFiles(b, parse) == Success(map[]);
      assert LoadFiles(a, parse).Success? ==> LoadFiles(a, parse).value + map[] == LoadFiles(a, parse).value;
    } else {
      var init, last := b[..|b| - 1], b[|b| - 1];
      assert b == init + [last];
      assert FilesInDomain(init, parse) by {
        forall i | 0 <= i < |init| ensures InModelledDomain(parse(init[i])) {
          assert init[i] == b[i];
        }
      }
      assert InModelledDomain(parse(last)) by { assert last == b[|b| - 1]; }
      LoadFilesConcat(a, init, parse);
      assert a + b == (a + init) + [last];
      LoadFilesSnoc(a + init, last, parse);
      LoadFilesSnoc(init, last, parse);
      MergeAssociative(LoadFiles(a, parse), LoadFiles(init, parse), ParseFile(last, parse(last)));
    }
  }

  /** A later document's definition of a name replaces any earlier one; other names keep theirs. */
  lemma LaterDocumentsWin(earlier: seq<string>, later: seq<string>, parse: string -> Value, name: string)
    requires FilesInDomain(earlier, parse) && FilesInDomain(later, parse)
    requires LoadFiles(earlier, parse).Success? && LoadFiles(later, parse).Success?
    ensures FilesInDomain(earlier + later, parse) && LoadFiles(earlier + later, parse).Success?
    ensures var all := LoadFiles(earlier + later, parse).value;
      && (name in LoadFiles(later, parse).value ==> name in all && all[name] == LoadFiles(later, parse).value[name])
      && (name !in LoadFiles(later, parse).value ==>
            (name in all <==> name in LoadFiles(earlier, parse).value)
            && (name in all ==> all[name] == LoadFiles(earlier, parse).value[name]))
  {
    LoadFilesConcat(earlier, later, parse);
  }

  /** An error while parsing some prefix of a file's entries is the file's error. */
  lemma {:induction false} ParseEntriesPrefixFailure(entries: seq<(string, Value)>, k: nat, file: string)
    requires forall i :: 0 <= i < |entries| ==> KeyListsAreStrings(entries[i].1)
    requires k <= |entries| && ParseEntries(entries[..k], file).Failure?
    ensures ParseEntries(entries, file) == ParseEntries(entries[..k], file)
    decreases |entries|
  {
    if k < |entries| {
      var init := entries[..|entries| - 1];
      assert init[..k] == entries[..k];
      ParseEntriesPrefixFailure(init, k, file);
    } else {
      assert entries[..k] == entries;
    }
  }

  /** An error while loading some prefix of the files is the whole load's error. */
  lemma {:induction false} LoadFilesPrefixFailure(files: seq<string>, k: nat, parse: string -> Value)
    requires FilesInDomain(files, parse)
    requires k <= |files| && FilesInDomain(files[..k], parse) && LoadFiles(files[..k], parse).Failure?
    ensures LoadFiles(files, parse) == LoadFiles(files[..k], parse)
    decreases |files|
  {
    if k < |files| {
      var init := files[..|files| - 1];
      assert init[..k] == files[..k];
      assert FilesInDomain(init, parse) by {
        forall i | 0 <= i < |init| ensures InModelledDomain(parse(init[i])) {
          assert init[i] == files[i];
        }
      }
      LoadFilesPrefixFailure(init, k, parse);
    } else {
      assert files[..k] == files;
    }
  }

  /** The sources are inside the model whenever the file list can be formed. */
  predicate SourcesInDomain(env: string, listed: Option<seq<string>>, parse: string -> Value)
  {
    ConfigFiles(env, listed).Success? ==> FilesInDomain(ConfigFiles(env, listed).value, parse)
  }

  /** `loadJobsOnce` on values: the file list, then every file merged in order. */
  function LoadAll(env: string, listed: Option<seq<string>>, parse: string -> Value): Result<map<string, JobDef>, LoadError>
    requires SourcesInDomain(env, listed, parse)
  {
    var files :- ConfigFiles(env, listed);
    LoadFiles(files, parse)
  }

  /** Every loaded definition sits under its own name. */
  predicate NamesMatchKeys(defs: map<string, JobDef>)
  {
    forall n :: n in defs ==> defs[n].name == n
  }

  lemma {:induction false} ParseEntriesNamesMatch(entries: seq<(string, Value)>, file: string)
    requires forall i :: 0 <= i < |entries| ==> KeyListsAreStrings(entries[i].1)
    ensures ParseEntries(entries, file).Success? ==> NamesMatchKeys(ParseEntries(entries, file).value)
    decreases |entries|
  {
    if entries != [] {
      ParseEntriesNamesMatch(entries[..|entries| - 1], file);
    }
  }

  /**
   * With each job name once, the definition loaded under a name is the one its
   * entry gives, and exactly the entries' names are loaded.
   */
  lemma {:induction false} ParseEntriesLookup(entries: seq<(string, Value)>, file: string)
    requires forall i :: 0 <= i < |entries| ==> KeyListsAreStrings(entries[i].1)
    requires DistinctKeys(entries)
    ensures ParseEntries(entries, file).Success? ==>
      forall k :: (k in ParseEntries(entries, file).value <==> LookupEntry(entries, k).Some?)
    ensures ParseEntries(entries, file).Success? ==>
      forall k :: k in ParseEntries(entries, file).value ==>
        KeyListsAreStrings(LookupEntry(entries, k).value)
        && ParseJob(k, LookupEntry(entries, k).value, file) == Success(ParseEntries(entries, file).value[k])
    decreases |entries|
  {
    if entries != [] && ParseEntries(entries, file).Success? {
      var init, last := entries[..|entries| - 1], entries[|entries| - 1];
      assert entries == init + [last];
      assert forall i :: 0 <= i < |init| ==> init[i] == entries[i];
      ParseEntriesLookup(init, file);
      var jobs := ParseEntries(init, file).value;
      var d := ParseJob(last.0, last.1, file).value;
      assert ParseEntries(entries, file).value == jobs[last.0 := d];
      forall i | 0 <= i < |init| ensures init[i].0 != last.0 {
        assert init[i] == entries[i];
      }
      LookupEntryFound(init, last.0);
      forall k
        ensures (k in jobs[last.0 := d] <==> LookupEntry(entries, k).Some?)
        ensures k in jobs[last.0 := d] ==>
          KeyListsAreStrings(LookupEntry(entries, k).value)
          && ParseJob(k, LookupEntry(entries, k).value, file) == Success(jobs[last.0 := d][k])
      {
        LookupEntrySnoc(init, last, k);
      }
    }
  }

  /** The loaded registry files each definition under the name it carries. */
  lemma {:induction false} LoadedNamesMatchKeys(files: seq<string>, parse: string -> Value)
    requires FilesInDomain(files, parse)
    ensures LoadFiles(files, parse).Success? ==> NamesMatchKeys(LoadFiles(files, parse).value)
    decreases |files|
  {
    if files != [] {
      var file := files[|files| - 1];
      LoadedNamesMatchKeys(files[..|files| - 1], parse);
      var doc := parse(file);
      if IsArray(doc) && HasKey(doc, "jobs") && Coalesce(doc, "jobs").Map? {
        ParseEntriesNamesMatch(Coalesce(doc, "jobs").entries, file);
      }
    }
  }

  // ---------------------------------------------------------------------------
  // Lookup and the payload check

  function NotFoundMessage(name: string): string
  {
    "Job config not found for job name: " + name
  }

  /** `doesMessagePayloadMatchesJobConfig`: the job is known and every required key is present, null or not. */
  predicate PayloadMatches(defs: map<string, JobDef>, m: GenericMessage)
  {
    && m.jobName in defs
    && forall i :: 0 <= i < |defs[m.jobName].requiredInputKeys| ==> KeyExists(m.payload, defs[m.jobName].requiredInputKeys[i])
  }

  /**
   * The check accepts exactly the known jobs whose required keys all occur in
   * the payload; extra keys never matter and a key with a null value counts as
   * present, although the request will not carry it.
   */
  lemma PayloadMatchesProperties(defs: map<string, JobDef>, m: GenericMessage, more: Payload)
    ensures m.jobName !in defs ==> !PayloadMatches(defs, m)
    ensures m.jobName in defs ==>
      (PayloadMatches(defs, m) <==> forall k :: k in defs[m.jobName].requiredInputKeys ==> k in m.payload)
    ensures PayloadMatches(defs, m) && m.payload.Keys <= more.Keys ==> PayloadMatches(defs, GenericMessage(m.jobName, more))
    ensures m.jobName in defs && defs[m.jobName].requiredInputKeys == [] ==> PayloadMatches(defs, m)
  {
    if m.jobName in defs {
      var keys := defs[m.jobName].requiredInputKeys;
      if forall k :: k in keys ==> k in m.payload {
        assert forall i :: 0 <= i < |keys| ==> keys[i] in keys;
      }
    }
  }

  /** A required key sent as null passes the check and is still left out of the query and body. */
  lemma NullRequiredKeyPassesUnsent(defs: map<string, JobDef>, m: GenericMessage, key: string)
    requires m.jobName in defs && defs[m.jobName].requiredInputKeys == [key]
    requires key in m.payload && m.payload[key] == Null
    ensures PayloadMatches(defs, m)
    ensures key !in KeysOf(Project(defs[m.jobName].queryUrlKeys, m.payload))
    ensures key !in KeysOf(Project(defs[m.jobName].jsonBodyKeys, m.payload))
  {
    ProjectCharacterised(defs[m.jobName].queryUrlKeys, m.payload);
    ProjectCharacterised(defs[m.jobName].jsonBodyKeys, m.payload);
  }

  // ---------------------------------------------------------------------------
  // Resolving callback names

  /** An acyclic callback graph, witnessed by a rank that every callback edge lowers. */
  predicate Ranked(defs: map<string, JobDef>, rank: map<string, nat>)
  {
    forall n, c :: n in defs && n in rank && c in CallbackNames(defs[n]) && c in defs ==> c in rank && rank[c] < rank[n]
  }

  /** `loadCallbacks` on values: each named slot becomes the resolved tree of that job, or the lookup error. */
  function ResolveName(defs: map<string, JobDef>, rank: map<string, nat>, n: string): Result<ResolvedJob, string>
    requires Ranked(defs, rank) && n in defs && n in rank
    decreases rank[n], 1
  {
    var d := defs[n];
    var onStart :- ResolveSlot(defs, rank, n, d.onStartCallbackName);
    var onSuccess :- ResolveSlot(defs, rank, n, d.onSuccessCallbackName);
    var onFail :- ResolveSlot(defs, rank, n, d.onFailCallbackName);
    Success(ResolvedJob(d, onStart, onSuccess, onFail))
  }

  /** One `if (...CallbackName !== null)` block: `getJobByName`, then recurse. */
  function ResolveSlot(defs: map<string, JobDef>, rank: map<string, nat>, n: string, slot: Option<string>): Result<Option<ResolvedJob>, string>
    requires Ranked(defs, rank) && n in defs && n in rank
    requires slot.Some? ==> slot.value in CallbackNames(defs[n])
    decreases rank[n], 0
  {
    match slot
    case None => Success(None)
    case Some(c) =>
      if c !in defs then Failure(NotFoundMessage(c))
      else
        var r :- ResolveName(defs, rank, c);
        Success(Some(r))
  }

  /** The error of resolving `n` is the first slot's error, in onStart, onSuccess, onFail order. */
  lemma ResolveNameError(defs: map<string, JobDef>, rank: map<string, nat>, n: string)
    requires Ranked(defs, rank) && n in defs && n in rank
    ensures var d := defs[n];
      var s := ResolveSlot(defs, rank, n, d.onStartCallbackName);
      var u := ResolveSlot(defs, rank, n, d.onSuccessCallbackName);
      var f := ResolveSlot(defs, rank, n, d.onFailCallbackName);
      ErrorOf(ResolveName(defs, rank, n))
        == if s.Failure? then Some(s.error) else if u.Failure? then Some(u.error) else ErrorOf(f)
  {
  }

  /** The names met by resolution from `n`: known names are followed, unknown ones end the path. */
  function ReachNames(defs: map<string, JobDef>, rank: map<string, nat>, n: string): set<string>
    requires Ranked(defs, rank) && n in defs && n in rank
    decreases rank[n], 1
  {
    var d := defs[n];
    {n} + SlotReach(defs, rank, n, d.onStartCallbackName) + SlotReach(defs, rank, n, d.onSuccessCallbackName)
      + SlotReach(defs, rank, n, d.onFailCallbackName)
  }

  function SlotReach(defs: map<string, JobDef>, rank: map<string, nat>, n: string, slot: Option<string>): set<string>
    requires Ranked(defs, rank) && n in defs && n in rank
    requires slot.Some? ==> slot.value in CallbackNames(defs[n])
    decreases rank[n], 0
  {
    match slot
    case None => {}
    case Some(c) => if c in defs then ReachNames(defs, rank, c) else {c}
  }

  /**
   * Resolution succeeds exactly when every name it reaches is defined; when it
   * fails, the error is the lookup message of a reachable undefined name.
   */
  lemma {:induction false} ResolveSucceedsIff(defs: map<string, JobDef>, rank: map<string, nat>, n: string)
    requires Ranked(defs, rank) && n in defs && n in rank
    ensures ResolveName(defs, rank, n).Success? <==> ReachNames(defs, rank, n) <= defs.Keys
    ensures ResolveName(defs, rank, n).Failure? ==>
      exists c :: c in ReachNames(defs, rank, n) && c !in defs && ResolveName(defs, rank, n).error == NotFoundMessage(c)
    decreases rank[n], 1
  {
    var d := defs[n];
    SlotSucceedsIff(defs, rank, n, d.onStartCallbackName);
    SlotSucceedsIff(defs, rank, n, d.onSuccessCallbackName);
    SlotSucceedsIff(defs, rank, n, d.onFailCallbackName);
  }

  lemma {:induction false} SlotSucceedsIff(defs: map<string, JobDef>, rank: map<string, nat>, n: string, slot: Option<string>)
    requires Ranked(defs, rank) && n in defs && n in rank
    requires slot.Some? ==> slot.value in CallbackNames(defs[n])
    ensures ResolveSlot(defs, rank, n, slot).Success? <==> SlotReach(defs, rank, n, slot) <= defs.Keys
    ensures ResolveSlot(defs, rank, n, slot).Failure? ==>
      exists c :: c in SlotReach(defs, rank, n, slot) && c !in defs && ResolveSlot(defs, rank, n, slot).error == NotFoundMessage(c)
    decreases rank[n], 0
  {
    if slot.Some? && slot.value in defs {
      ResolveSucceedsIff(defs, rank, slot.value);
    }
  }

  /**
   * A resolved tree puts each defined callback's own resolved tree in the slot
   * its name is given for, and leaves the other slots empty.
   */
  lemma ResolvedShape(defs: map<string, JobDef>, rank: map<string, nat>, n: string)
    requires Ranked(defs, rank) && n in defs && n in rank
    requires ResolveName(defs, rank, n).Success?
    ensures var j := ResolveName(defs, rank, n).value;
      && j.def == defs[n]
      && (j.onStart.Some? <==> defs[n].onStartCallbackName.Some?)
      && (j.onSuccess.Some? <==> defs[n].onSuccessCallbackName.Some?)
      && (j.onFail.Some? <==> defs[n].onFailCallbackName.Some?)
      && (j.onStart.Some? ==> var c := defs[n].onStartCallbackName.value;
            c in defs && c in rank && ResolveName(defs, rank, c) == Success(j.onStart.value))
      && (j.onSuccess.Some? ==> var c := defs[n].onSuccessCallbackName.value;
            c in defs && c in rank && ResolveName(defs, rank, c) == Success(j.onSuccess.value))
      && (j.onFail.Some? ==> var c := defs[n].onFailCallbackName.value;
            c in defs && c in rank && ResolveName(defs, rank, c) == Success(j.onFail.value))
  {
  }

  /**
   * Every job in a resolved tree is a definition no higher in rank, and those
   * below the root are strictly lower: so, with names matching keys, no
   * callback job carries the root's name.
   */
  lemma {:induction false} ResolvedRanks(defs: map<string, JobDef>, rank: map<string, nat>, n: string)
    requires Ranked(defs, rank) && n in defs && n in rank && NamesMatchKeys(defs)
    requires ResolveName(defs, rank, n).Success?
    ensures var j := ResolveName(defs, rank, n).value;
      && j.def.name == n
      && (forall x :: x in Names(j) ==> x in defs && x in rank && rank[x] <= rank[n])
      && (forall x :: x in BelowNames(j) ==> x in rank && rank[x] < rank[n])
    decreases rank[n], 1
  {
    var d := defs[n];
    SlotRanks(defs, rank, n, d.onStartCallbackName);
    SlotRanks(defs, rank, n, d.onSuccessCallbackName);
    SlotRanks(defs, rank, n, d.onFailCallbackName);
  }

  /** A resolved slot of `n` holds only known names ranked below `n`. */
  lemma {:induction false} SlotRanks(defs: map<string, JobDef>, rank: map<string, nat>, n: string, slot: Option<string>)
    requires Ranked(defs, rank) && n in defs && n in rank && NamesMatchKeys(defs)
    requires slot.Some? ==> slot.value in CallbackNames(defs[n])
    requires ResolveSlot(defs, rank, n, slot).Success?
    ensures var r := ResolveSlot(defs, rank, n, slot).value;
      r.Some? ==> forall x :: x in Names(r.value) ==> x in defs && x in rank && rank[x] < rank[n]
    decreases rank[n], 0
  {
    if slot.Some? {
      var c := slot.value;
      if c in defs {
        ResolvedRanks(defs, rank, c);
      }
    }
  }

  lemma ResolvedRootFresh(defs: map<string, JobDef>, rank: map<string, nat>, n: string)
    requires Ranked(defs, rank) && n in defs && n in rank && NamesMatchKeys(defs)
    requires ResolveName(defs, rank, n).Success?
    ensures ResolveName(defs, rank, n).value.def.name == n
    ensures n !in BelowNames(ResolveName(defs, rank, n).value)
  {
    ResolvedRanks(defs, rank, n);
  }
}
