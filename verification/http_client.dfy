/**
 * The environment-aware HTTP client factory (src/http-client.ts). The
 * environment is picked once from `resolveEnv` or NODE_ENV; `create` picks
 * an endpoint's configuration for that environment and returns a client
 * whose requests join the base URL with the path and merge headers
 * environment < create options < request. `fetch` is left out: a request is
 * modelled by the URL and init it would hand to `fetch`.
 *
 * Header names are taken as already normalised (lower-case); a `Headers`
 * object is modelled by its entries.
 */
module HttpClient {

  import opened Wrappers
  import opened Text
  import opened Json

  datatype Environment = Dev | Prod | Staging | Test

  function EnvName(e: Environment): string {
    match e
    case Dev => "dev"
    case Prod => "prod"
    case Staging => "staging"
    case Test => "test"
  }

  /**
   * pickEnv: the result of `resolveEnv` when one is configured; otherwise
   * NODE_ENV (`None` when unset), lower-cased and classified by prefix.
   */
  function PickEnv(resolved: Option<Environment>, nodeEnv: Option<string>): (r: Environment)
    ensures resolved.Some? ==> r == resolved.value
    ensures resolved.None? ==>
              var e := ToLower(nodeEnv.GetOr(""));
              (r == Prod <==> StartsWith(e, "prod")) &&
              (r == Staging <==> !StartsWith(e, "prod") && StartsWith(e, "stag")) &&
              (r == Test <==> !StartsWith(e, "prod") && !StartsWith(e, "stag") && StartsWith(e, "test"))
  {
    if resolved.Some? then resolved.value
    else
      var e := ToLower(nodeEnv.GetOr(""));
      if StartsWith(e, "prod") then Prod
      else if StartsWith(e, "stag") then Staging
      else if StartsWith(e, "test") then Test
      else Dev
  }

  /** `s.replace(/^\//, '')`. */
  function DropLeadingSlash(s: string): (r: string)
    ensures StartsWith(s, "/") ==> "/" + r == s
    ensures !StartsWith(s, "/") ==> r == s
  {
    if StartsWith(s, "/") then s[1..] else s
  }

  /** joinUrl: at most one trailing `/` off the base, at most one leading `/` off the path, one `/` between. */
  function JoinUrl(base: string, path: string): (r: string)
    ensures EndsWith(base, "/") ==> StartsWith(r, base)
    ensures !EndsWith(base, "/") ==> StartsWith(r, base + "/")
    ensures StartsWith(path, "/") ==> EndsWith(r, path)
    ensures !StartsWith(path, "/") ==> EndsWith(r, "/" + path)
    ensures |r| == |base| + 1 + |path| - (if EndsWith(base, "/") then 1 else 0) - (if StartsWith(path, "/") then 1 else 0)
  {
    DropSuffix(base, "/") + "/" + DropLeadingSlash(path)
  }

  /** A slash at the join, on either side or both, is not doubled; the plain join is `base/path`. */
  lemma JoinUrlOneSeparator(base: string, path: string)
    requires !EndsWith(base, "/") && !StartsWith(path, "/")
    ensures JoinUrl(base, path) == base + "/" + path
    ensures JoinUrl(base + "/", path) == base + "/" + path
    ensures JoinUrl(base, "/" + path) == base + "/" + path
    ensures JoinUrl(base + "/", "/" + path) == base + "/" + path
  {
    assert EndsWith(base + "/", "/");
    assert DropSuffix(base + "/", "/") == base;
    assert StartsWith("/" + path, "/");
    assert DropLeadingSlash("/" + path) == path;
  }

  /** Only one slash is removed on each side: further slashes are kept. */
  lemma JoinUrlRemovesAtMostOne(base: string, path: string)
    ensures JoinUrl(base + "//", "//" + path) == base + "/" + "/" + "/" + path
  {
    assert EndsWith(base + "//", "/");
    assert DropSuffix(base + "//", "/") == base + "/";
    assert StartsWith("//" + path, "/");
    assert DropLeadingSlash("//" + path) == "/" + path;
  }

  // ---------------------------------------------------------------------
  // Request inits

  /** `init.headers`: absent, a plain record, or a `Headers` instance. */
  datatype HeadersInit = NoHeaders | Plain(fields: map<string, string>) | Instance(entries: map<string, string>)

  /**
   * A request body: absent (`undefined`), a FormData, a JavaScript value
   * (`null` is `Value(JNull)`, a string is `Value(JStr(_))`), or the text
   * JSON.stringify makes of a value. `JsonText` is only ever produced by
   * asJsonInit: a caller's string body is `Value(JStr(_))`.
   */
  datatype Body = Absent | Form | Value(j: Json) | JsonText(of: Json)

  /** The members of a RequestInit the client reads or writes. */
  datatype Init = Init(verb: Option<string>, headers: HeadersInit, body: Body)

  /** An omitted init. */
  const NoInit: Init := Init(None, NoHeaders, Absent)

  /** The entries of `new Headers(h || {})`. */
  function Entries(h: HeadersInit): map<string, string> {
    match h
    case NoHeaders => map[]
    case Plain(fields) => fields
    case Instance(entries) => entries
  }

  /** The properties `{ ...h }` copies: a `Headers` instance has no own enumerable properties. */
  function SpreadHeaders(h: HeadersInit): map<string, string> {
    match h
    case NoHeaders => map[]
    case Plain(fields) => fields
    case Instance(_) => map[]
  }

  /** A body that asJsonInit encodes as JSON: neither undefined, null nor FormData. */
  predicate IsJsonBody(body: Body) {
    body.Value? && !body.j.JNull?
  }

  /**
   * asJsonInit: for a JSON body the headers get `content-type:
   * application/json` unless they already carry a content type, and a
   * non-string body is stringified; any other body passes through, with the
   * headers unchanged.
   */
  function AsJsonInit(body: Body, init: Init): (r: Init)
    ensures r.verb == init.verb && r.headers.Instance?
    ensures IsJsonBody(body) ==>
              "content-type" in r.headers.entries &&
              r.headers.entries == Entries(init.headers)["content-type" := r.headers.entries["content-type"]] &&
              ("content-type" in Entries(init.headers) ==> r.headers.entries == Entries(init.headers)) &&
              ("content-type" !in Entries(init.headers) ==> r.headers.entries["content-type"] == "application/json")
    ensures IsJsonBody(body) && body.j.JStr? ==> r.body == body
    ensures IsJsonBody(body) && !body.j.JStr? ==> r.body == JsonText(body.j)
    ensures !IsJsonBody(body) ==> r.body == body && r.headers.entries == Entries(init.headers)
  {
    var headers := Entries(init.headers);
    if IsJsonBody(body) then
      var h := if "content-type" in headers then headers else headers["content-type" := "application/json"];
      Init(init.verb, Instance(h), if body.j.JStr? then body else JsonText(body.j))
    else Init(init.verb, Instance(headers), body)
  }

  // ---------------------------------------------------------------------
  // Endpoints and clients

  datatype EndpointConfig = EndpointConfig(baseUrl: string, headers: map<string, string>)

  /** One endpoint: its configuration per environment name, and its `default` environment name. */
  datatype EndpointDef = EndpointDef(envs: map<string, EndpointConfig>, default: Option<string>)

  /** `def.default || 'dev'`. */
  function FallbackEnv(def: EndpointDef): string {
    if def.default.Some? && def.default.value != "" then def.default.value else "dev"
  }

  /** `def[env] || def[def.default || 'dev']`. */
  function SelectConfig(def: EndpointDef, env: Environment): (r: Option<EndpointConfig>)
    ensures EnvName(env) in def.envs ==> r == Some(def.envs[EnvName(env)])
    ensures EnvName(env) !in def.envs && FallbackEnv(def) in def.envs ==> r == Some(def.envs[FallbackEnv(def)])
    ensures r.None? <==> EnvName(env) !in def.envs && FallbackEnv(def) !in def.envs
  {
    if EnvName(env) in def.envs then Some(def.envs[EnvName(env)])
    else if FallbackEnv(def) in def.envs then Some(def.envs[FallbackEnv(def)])
    else None
  }

  /** The client `create` returns: its base URL and its base headers. */
  datatype Client = Client(baseUrl: string, headers: map<string, string>)

  /** What a request hands to `fetch`. */
  datatype FetchCall = FetchCall(url: string, init: Init)

  /**
   * create(endpointName, options): an unknown endpoint and an endpoint
   * without a configuration for the environment or its fallback are errors;
   * otherwise the client's headers are the environment's, overridden by the
   * options' headers.
   */
  function Create(endpoints: map<string, EndpointDef>, env: Environment, name: string,
                  optionHeaders: map<string, string> := map[]): (r: Result<Client>)
    ensures name !in endpoints ==> r == Err("http: endpoint \"" + name + "\" not found")
    ensures name in endpoints && SelectConfig(endpoints[name], env).None? ==>
              r == Err("http: endpoint \"" + name + "\" has no configuration for env " + EnvName(env))
    ensures r.Ok? ==>
              name in endpoints && SelectConfig(endpoints[name], env).Some? &&
              var cfg := SelectConfig(endpoints[name], env).value;
              r.value.baseUrl == cfg.baseUrl && r.value.headers == cfg.headers + optionHeaders
  {
    if name !in endpoints then Err("http: endpoint \"" + name + "\" not found")
    else
      match SelectConfig(endpoints[name], env)
      case None => Err("http: endpoint \"" + name + "\" has no configuration for env " + EnvName(env))
      case Some(cfg) => Ok(Client(cfg.baseUrl, cfg.headers + optionHeaders))
  }

  /**
   * The request closure as written: `new Headers({ ...baseHeaders,
   * ...init.headers })`. Spreading a `Headers` instance copies nothing.
   */
  function RequestAsWritten(c: Client, verb: string, path: string, init: Init): (r: FetchCall)
    ensures r.url == JoinUrl(c.baseUrl, path)
    ensures r.init.verb == Some(verb) && r.init.body == init.body && r.init.headers.Instance?
    ensures !init.headers.Plain? ==> r.init.headers.entries == c.headers
    ensures init.headers.Plain? ==>
              forall k :: k in r.init.headers.entries <==> k in c.headers || k in init.headers.fields
    ensures init.headers.Plain? ==>
              forall k :: k in init.headers.fields ==> r.init.headers.entries[k] == init.headers.fields[k]
    ensures forall k :: k in c.headers && k !in SpreadHeaders(init.headers) ==> r.init.headers.entries[k] == c.headers[k]
  {
    FetchCall(JoinUrl(c.baseUrl, path), init.(verb := Some(verb), headers := Instance(c.headers + SpreadHeaders(init.headers))))
  }

  /**
   * The request closure with the per-request headers read through the
   * Headers API (as dist/http-client.js does): request headers override the
   * client's, whatever form they are given in.
   */
  function Request(c: Client, verb: string, path: string, init: Init): (r: FetchCall)
    ensures r.url == JoinUrl(c.baseUrl, path)
    ensures r.init.verb == Some(verb) && r.init.body == init.body && r.init.headers.Instance?
    ensures forall k :: k in r.init.headers.entries <==> k in c.headers || k in Entries(init.headers)
    ensures forall k :: k in Entries(init.headers) ==> r.init.headers.entries[k] == Entries(init.headers)[k]
    ensures forall k :: k in c.headers && k !in Entries(init.headers) ==> r.init.headers.entries[k] == c.headers[k]
  {
    FetchCall(JoinUrl(c.baseUrl, path), init.(verb := Some(verb), headers := Instance(c.headers + Entries(init.headers))))
  }

  datatype Verb = GET | POST | PUT | PATCH | DELETE | HEAD | OPTIONS

  function VerbName(v: Verb): string {
    match v
    case GET => "GET"
    case POST => "POST"
    case PUT => "PUT"
    case PATCH => "PATCH"
    case DELETE => "DELETE"
    case HEAD => "HEAD"
    case OPTIONS => "OPTIONS"
  }

  /** post, put and patch go through asJsonInit; the others take no body. */
  predicate SendsJson(v: Verb) {
    v == POST || v == PUT || v == PATCH
  }

  /** The client's verb helpers: `get(p, i)`, `post(p, body, i)`, ...; `body` is ignored by the helpers without one. */
  function Send(c: Client, v: Verb, path: string, body: Body, init: Init): (r: FetchCall)
    ensures r.url == JoinUrl(c.baseUrl, path) && r.init.verb == Some(VerbName(v))
    ensures !SendsJson(v) ==> r == Request(c, VerbName(v), path, init)
    ensures SendsJson(v) ==> r == Request(c, VerbName(v), path, AsJsonInit(body, init))
  {
    if SendsJson(v) then Request(c, VerbName(v), path, AsJsonInit(body, init))
    else Request(c, VerbName(v), path, init)
  }

  /**
   * The verb helpers as written: post, put and patch hand the `Headers`
   * instance asJsonInit returns to the request closure, whose spread copies
   * nothing, so they send only the client's headers.
   */
  function SendAsWritten(c: Client, v: Verb, path: string, body: Body, init: Init): (r: FetchCall)
    ensures r.url == JoinUrl(c.baseUrl, path) && r.init.verb == Some(VerbName(v)) && r.init.headers.Instance?
    ensures SendsJson(v) ==> r.init.headers.entries == c.headers && r.init.body == AsJsonInit(body, init).body
    ensures !SendsJson(v) ==> r == RequestAsWritten(c, VerbName(v), path, init)
  {
    if SendsJson(v) then RequestAsWritten(c, VerbName(v), path, AsJsonInit(body, init))
    else RequestAsWritten(c, VerbName(v), path, init)
  }

  // ---------------------------------------------------------------------
  // Properties

  /**
   * Header precedence for one header name: the request's value, else the
   * create options' value, else the environment's value.
   */
  lemma HeaderPrecedence(endpoints: map<string, EndpointDef>, env: Environment, name: string,
                         optionHeaders: map<string, string>, verb: string, path: string, init: Init, k: string)
    requires Create(endpoints, env, name, optionHeaders).Ok?
    ensures var cfg := SelectConfig(endpoints[name], env).value;
            var sent := Request(Create(endpoints, env, name, optionHeaders).value, verb, path, init).init.headers.entries;
            (k in Entries(init.headers) ==> sent[k] == Entries(init.headers)[k]) &&
            (k !in Entries(init.headers) && k in optionHeaders ==> sent[k] == optionHeaders[k]) &&
            (k !in Entries(init.headers) && k !in optionHeaders && k in cfg.headers ==> sent[k] == cfg.headers[k]) &&
            (k !in Entries(init.headers) && k !in optionHeaders && k !in cfg.headers ==> k !in sent)
  {
  }

  /** post, put and patch with a JSON body send `content-type: application/json` unless the request sets its own. */
  lemma JsonHelpersSetContentType(c: Client, v: Verb, path: string, body: Body, init: Init)
    requires SendsJson(v) && IsJsonBody(body)
    ensures var sent := Send(c, v, path, body, init).init.headers.entries;
            "content-type" in sent &&
            ("content-type" !in Entries(init.headers) ==> sent["content-type"] == "application/json") &&
            ("content-type" in Entries(init.headers) ==> sent["content-type"] == Entries(init.headers)["content-type"])
  {
  }

  /**
   * As written, a JSON helper loses the content type and every per-request
   * header: asJsonInit returns a `Headers` instance, and the request closure
   * spreads it, which copies nothing.
   */
  lemma JsonHelperAsWrittenDropsContentType(c: Client, v: Verb, path: string, j: Json)
    requires SendsJson(v) && !j.JNull? && "content-type" !in c.headers
    ensures "content-type" !in SendAsWritten(c, v, path, Value(j), NoInit).init.headers.entries
    ensures "content-type" in Send(c, v, path, Value(j), NoInit).init.headers.entries
  {
  }

  /** With a plain-record init, the request closure as written and the corrected one agree. */
  lemma PlainHeadersAgree(c: Client, verb: string, path: string, init: Init)
    requires !init.headers.Instance?
    ensures RequestAsWritten(c, verb, path, init) == Request(c, verb, path, init)
  {
  }

  /** The helpers without a body, given a plain-record init, send the same request as written and corrected. */
  lemma BodilessHelpersAgree(c: Client, v: Verb, path: string, body: Body, init: Init)
    requires !SendsJson(v) && !init.headers.Instance?
    ensures SendAsWritten(c, v, path, body, init) == Send(c, v, path, body, init)
  {
    PlainHeadersAgree(c, VerbName(v), path, init);
  }

  /** A client built by create sends its requests to the chosen environment's base URL. */
  lemma RequestsUseSelectedBaseUrl(endpoints: map<string, EndpointDef>, env: Environment, name: string,
                                   optionHeaders: map<string, string>, v: Verb, path: string, body: Body, init: Init)
    requires Create(endpoints, env, name, optionHeaders).Ok?
    ensures Send(Create(endpoints, env, name, optionHeaders).value, v, path, body, init).url ==
            JoinUrl(SelectConfig(endpoints[name], env).value.baseUrl, path)
  {
  }

  /** NODE_ENV is read case-insensitively: `PRODUCTION` and `production` pick the same environment. */
  lemma PickEnvIgnoresCase(nodeEnv: string)
    ensures PickEnv(None, Some(nodeEnv)) == PickEnv(None, Some(ToLower(nodeEnv)))
  {
    ToLowerIdempotent(nodeEnv);
  }

  /**
   * Without resolveEnv, a NODE_ENV that is unset, empty or starts (in any
   * case) with none of `prod`, `stag` and `test` gives dev.
   */
  lemma PickEnvDefaultsToDev(nodeEnv: Option<string>)
    requires nodeEnv.None? || (var e := ToLower(nodeEnv.value);
                               !StartsWith(e, "prod") && !StartsWith(e, "stag") && !StartsWith(e, "test"))
    ensures PickEnv(None, nodeEnv) == Dev
  {
  }
}
