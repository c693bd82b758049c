/**
 * The pure parts of building and judging the main HTTP request: method and URL
 * defaults, projection of payload keys into the query string and the JSON body,
 * and the success check on the transport's answer.
 */
module Requests {
  import opened Wrappers
  import opened Values
  import opened Definitions

  /** One key/value pair of a projected query or body. */
  type Param = (string, Value)

  function KeysOf(params: seq<Param>): seq<string>
  {
    seq(|params|, i requires 0 <= i < |params| => params[i].0)
  }

  predicate Distinct(s: seq<string>)
  {
    forall i, j :: 0 <= i < j < |s| ==> s[i] != s[j]
  }

  /** `$params[$key] = $value` on an ordered PHP array: overwrite in place, else append. */
  function Assign(params: seq<Param>, key: string, value: Value): seq<Param>
  {
    if key in KeysOf(params) then
      seq(|params|, i requires 0 <= i < |params| => if params[i].0 == key then (key, value) else params[i])
    else
      params + [(key, value)]
  }

  /**
   * The `foreach` of `buildQueryUrl` / `buildPostBody`: walk the configured keys
   * in order and copy every key whose payload value is set and non-null.
   */
  function Project(keys: seq<string>, payload: Payload): seq<Param>
    decreases |keys|
  {
    if keys == [] then []
    else
      var prefix := Project(keys[..|keys| - 1], payload);
      var key := keys[|keys| - 1];
      if HasNonNullValue(payload, key) then Assign(prefix, key, payload[key]) else prefix
  }

  /** Reference definition: keep, in order, each key whose value is non-null. */
  function Filter(keys: seq<string>, payload: Payload): seq<Param>
    decreases |keys|
  {
    if keys == [] then []
    else
      (if HasNonNullValue(payload, keys[0]) then [(keys[0], payload[keys[0]])] else [])
      + Filter(keys[1..], payload)
  }

  /**
   * The projection holds exactly the configured keys whose payload value is
   * non-null, each once, each with its payload value.
   */
  lemma {:induction false} ProjectCharacterised(keys: seq<string>, payload: Payload)
    ensures var r := Project(keys, payload);
      && (forall k :: k in KeysOf(r) <==> k in keys && HasNonNullValue(payload, k))
      && (forall i :: 0 <= i < |r| ==> HasNonNullValue(payload, r[i].0) && r[i].1 == payload[r[i].0])
      && Distinct(KeysOf(r))
    decreases |keys|
  {
    if keys != [] {
      var init := keys[..|keys| - 1];
      var key := keys[|keys| - 1];
      ProjectCharacterised(init, payload);
      var prefix := Project(init, payload);
      assert keys == init + [key];
      var r := Project(keys, payload);
      if HasNonNullValue(payload, key) {
        if key in KeysOf(prefix) {
          assert KeysOf(r) == KeysOf(prefix);
        } else {
          assert r == prefix + [(key, payload[key])];
          assert KeysOf(r) == KeysOf(prefix) + [key];
        }
      }
    }
  }

  lemma {:induction false} FilterSnoc(keys: seq<string>, key: string, payload: Payload)
    ensures Filter(keys + [key], payload)
      == Filter(keys, payload) + (if HasNonNullValue(payload, key) then [(key, payload[key])] else [])
    decreases |keys|
  {
    if keys == [] {
      assert [key][1..] == [];
    } else {
      var head := if HasNonNullValue(payload, keys[0]) then [(keys[0], payload[keys[0]])] else [];
      var last := if HasNonNullValue(payload, key) then [(key, payload[key])] else [];
      assert (keys + [key])[0] == keys[0] && (keys + [key])[1..] == keys[1..] + [key];
      assert Filter(keys + [key], payload) == head + Filter(keys[1..] + [key], payload);
      FilterSnoc(keys[1..], key, payload);
      assert head + (Filter(keys[1..], payload) + last) == (head + Filter(keys[1..], payload)) + last;
    }
  }

  /** With distinct configured keys the projection is exactly the in-order filter. */
  lemma {:induction false} ProjectDistinctIsFilter(keys: seq<string>, payload: Payload)
    requires Distinct(keys)
    ensures Project(keys, payload) == Filter(keys, payload)
    decreases |keys|
  {
    if keys != [] {
      var init := keys[..|keys| - 1];
      var key := keys[|keys| - 1];
      assert keys == init + [key];
      ProjectDistinctIsFilter(init, payload);
      ProjectCharacterised(init, payload);
      assert key !in init;
      FilterSnoc(init, key, payload);
    }
  }

  /** The projection is empty exactly when no configured key has a non-null value. */
  lemma ProjectEmptyIff(keys: seq<string>, payload: Payload)
    ensures Project(keys, payload) == [] <==> forall i :: 0 <= i < |keys| ==> !HasNonNullValue(payload, keys[i])
  {
    ProjectCharacterised(keys, payload);
    var r := Project(keys, payload);
    if r != [] {
      assert KeysOf(r)[0] == r[0].0;
      assert r[0].0 in KeysOf(r);
    }
    if exists i :: 0 <= i < |keys| && HasNonNullValue(payload, keys[i]) {
      var i :| 0 <= i < |keys| && HasNonNullValue(payload, keys[i]);
      assert keys[i] in KeysOf(r);
    }
  }

  /** PHP `empty()` on a string: true for "" and for "0". */
  predicate PhpEmpty(s: string)
  {
    s == "" || s == "0"
  }

  function UpperChar(c: char): char
  {
    if 'a' <= c <= 'z' then (c as int - 'a' as int + 'A' as int) as char else c
  }

  /** PHP 8 `strtoupper`: ASCII letters only. */
  function ToUpper(s: string): string
  {
    seq(|s|, i requires 0 <= i < |s| => UpperChar(s[i]))
  }

  predicate NoLowerAscii(s: string)
  {
    forall i :: 0 <= i < |s| ==> !('a' <= s[i] <= 'z')
  }

  /** The HTTP verb sent: `GET` when the configured method is empty in PHP's sense, else upper-cased. */
  function RequestMethod(configured: string): string
  {
    if PhpEmpty(configured) then "GET" else ToUpper(configured)
  }

  /**
   * The verb is `GET` for an empty or "0" method, else the method with each
   * ASCII lower-case letter raised (`strtoupper`); it is never empty, carries
   * no lower-case letter, and normalising it again changes nothing.
   */
  lemma MethodNormalised(configured: string)
    ensures var m := RequestMethod(configured);
      && (PhpEmpty(configured) ==> m == "GET")
      && (!PhpEmpty(configured) ==> |m| == |configured|)
      && (!PhpEmpty(configured) ==> forall i :: 0 <= i < |configured| ==>
            m[i] == (if 'a' <= configured[i] <= 'z' then (configured[i] as int - 32) as char else configured[i]))
      && !PhpEmpty(m) && NoLowerAscii(m) && RequestMethod(m) == m
  {
    var m := RequestMethod(configured);
    if !PhpEmpty(configured) {
      if |m| == 1 {
        assert m[0] == UpperChar(configured[0]);
        assert configured == [configured[0]];
      }
      assert ToUpper(m) == m;
    } else {
      assert ToUpper("GET") == "GET";
    }
  }

  const DefaultUrl: string := "http://localhost"

  /** `buildQueryUrl`'s result: nothing for an empty projection, else `?` and the encoding. */
  function QueryString(params: seq<Param>, encode: seq<Param> -> string): string
  {
    if params == [] then "" else "?" + encode(params)
  }

  /** The URL requested: configured URL plus query string, `http://localhost` if that is empty. */
  function TargetUrl(url: string, query: string): string
  {
    var u := url + query;
    if PhpEmpty(u) then DefaultUrl else u
  }

  /**
   * A non-empty projection always lands after `url?`; only without query
   * parameters can an empty (or "0") URL fall back to `http://localhost`.
   */
  lemma UrlDefaulting(url: string, params: seq<Param>, encode: seq<Param> -> string)
    ensures params != [] ==> TargetUrl(url, QueryString(params, encode)) == url + "?" + encode(params)
    ensures params == [] ==> TargetUrl(url, QueryString(params, encode)) == if PhpEmpty(url) then DefaultUrl else url
  {
    if params != [] {
      var u := url + ("?" + encode(params));
      assert u == url + "?" + encode(params);
      assert u[|url|] == '?';
      assert |u| > |url|;
      if |u| == 1 {
        assert u[0] == '?';
      }
    } else {
      assert url + "" == url;
    }
  }

  /** `buildPostBody`'s result: literal `{}` for an empty projection, else the encoding. */
  function PostBody(params: seq<Param>, encode: seq<Param> -> string): string
  {
    if params == [] then "{}" else encode(params)
  }

  const Headers: seq<string> := ["Content-Type: application/json", "Accept: application/json"]

  /** What is handed to the HTTP client. */
  datatype Request = Request(httpMethod: string, url: string, body: string, headers: seq<string>)

  /** The client's answer: `curl_init` failed, `curl_exec` failed, or a status code. */
  datatype TransportResult = InitFailed | ExecFailed(error: string) | Responded(statusCode: int)

  /**
   * The outside world the request meets: the endpoint's answer to each request,
   * and the query-string and JSON encoders (both library code).
   */
  datatype World = World(
    respond: Request -> TransportResult,
    encodeQuery: seq<Param> -> string,
    encodeJson: seq<Param> -> string)

  function BuildRequest(d: JobDef, payload: Payload, w: World): Request
  {
    Request(
      RequestMethod(d.httpMethod),
      TargetUrl(d.url, QueryString(Project(d.queryUrlKeys, payload), w.encodeQuery)),
      PostBody(Project(d.jsonBodyKeys, payload), w.encodeJson),
      Headers)
  }

  /**
   * The main request's verdict: `None` when it succeeded, else the message of the
   * exception `makeRequest` throws.
   */
  function RequestFailure(d: JobDef, answer: TransportResult): (reason: Option<string>)
    ensures reason.None? <==> answer == Responded(d.successStatusCode)
    ensures answer.InitFailed? ==> reason == Some("Failed to initialize cURL")
    ensures answer.ExecFailed? ==> reason == Some("cURL request failed with error: " + answer.error)
    ensures answer.Responded? && answer.statusCode != d.successStatusCode
      ==> reason == Some("Unexpected status code: " + IntToString(answer.statusCode))
  {
    match answer
    case InitFailed => Some("Failed to initialize cURL")
    case ExecFailed(error) => Some("cURL request failed with error: " + error)
    case Responded(code) =>
      if code != d.successStatusCode then Some("Unexpected status code: " + IntToString(code)) else None
  }

  /** The HTTP client. Each call is recorded, so that a model can say which requests were made. */
  class Transport {
    const world: World
    ghost var attempted: seq<Request>

    constructor (world: World)
      ensures this.world == world && attempted == []
    {
      this.world := world;
      attempted := [];
    }

    /** `curl_init` through `curl_getinfo`: one attempt, answered by the world. */
    method Execute(request: Request) returns (answer: TransportResult)
      modifies this
      ensures attempted == old(attempted) + [request]
      ensures answer == world.respond(request)
    {
      answer := world.respond(request);
      attempted := attempted + [request];
    }
  }
}
