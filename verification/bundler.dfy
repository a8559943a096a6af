/**
 * The build-time endpoint table of the bundler helper (src/utils/bundler.ts,
 * buildHttpForEnv): for a development build every endpoint points at the
 * local fake server; for any other environment each endpoint takes the
 * configuration of that environment, else `prod`, else `staging`, and a
 * missing base URL is an error naming the endpoint and the environment.
 */
module Bundler {

  import opened Wrappers
  import opened Text

  /** One environment's entry of an endpoint in the config file. */
  datatype EnvEntry = EnvEntry(baseUrl: Option<string>, headers: Option<map<string, string>>)

  /** An endpoint of the generated table; the development entries carry no headers. */
  datatype Endpoint = Endpoint(baseUrl: string, headers: Option<map<string, string>>)

  /** `Object.entries(cfg.http.endpoints)`: endpoint names, in order, with their environments. */
  type EndpointEntries = seq<(string, map<string, EnvEntry>)>

  predicate IsDev(envName: string) {
    envName == "development" || envName == "dev"
  }

  function LocalBaseUrl(port: int): string {
    "http://localhost:" + IntToString(port)
  }

  function MissingBaseUrl(name: string, envName: string): string {
    "simple-fake-api/bundler: missing baseUrl for endpoint \"" + name + "\" in env \"" + envName + "\""
  }

  /** `envs[envName] || envs.prod || envs.staging`. */
  function ChooseEnv(envs: map<string, EnvEntry>, envName: string): (r: Option<EnvEntry>)
    ensures envName in envs ==> r == Some(envs[envName])
    ensures envName !in envs && "prod" in envs ==> r == Some(envs["prod"])
    ensures envName !in envs && "prod" !in envs && "staging" in envs ==> r == Some(envs["staging"])
    ensures r.None? <==> envName !in envs && "prod" !in envs && "staging" !in envs
  {
    if envName in envs then Some(envs[envName])
    else if "prod" in envs then Some(envs["prod"])
    else if "staging" in envs then Some(envs["staging"])
    else None
  }

  /** The table entry of one endpoint, or the error `buildHttpForEnv` throws for it. */
  function EntryFor(port: int, name: string, envs: map<string, EnvEntry>, envName: string): (r: Result<Endpoint>)
    ensures IsDev(envName) ==> r == Ok(Endpoint(LocalBaseUrl(port), None))
    ensures !IsDev(envName) && r.Ok? ==>
              ChooseEnv(envs, envName).Some? && ChooseEnv(envs, envName).value.baseUrl.Some? &&
              r.value == Endpoint(ChooseEnv(envs, envName).value.baseUrl.value, ChooseEnv(envs, envName).value.headers)
    ensures !IsDev(envName) ==>
              (r.Err? <==> ChooseEnv(envs, envName).None? || ChooseEnv(envs, envName).value.baseUrl.GetOr("") == "")
    ensures r.Err? ==> r.message == MissingBaseUrl(name, envName)
  {
    if IsDev(envName) then Ok(Endpoint(LocalBaseUrl(port), None))
    else
      match ChooseEnv(envs, envName)
      case Some(EnvEntry(Some(url), headers)) =>
        if url == "" then Err(MissingBaseUrl(name, envName)) else Ok(Endpoint(url, headers))
      case _ => Err(MissingBaseUrl(name, envName))
  }

  /** The table built from the entries in order; the first failing entry's error otherwise. */
  function Table(port: int, entries: EndpointEntries, envName: string): Result<map<string, Endpoint>>
    decreases |entries|
  {
    if entries == [] then Ok(map[])
    else
      var (name, envs) := entries[|entries| - 1];
      match Table(port, entries[..|entries| - 1], envName)
      case Err(m) => Err(m)
      case Ok(t) =>
        match EntryFor(port, name, envs, envName)
        case Err(m) => Err(m)
        case Ok(e) => Ok(t[name := e])
  }

  /**
   * buildHttpForEnv(cfg, envName): `cfg.port` is `port` and `cfg.http?.endpoints`
   * is `endpoints` (`None` when absent). Fills the table endpoint by
   * endpoint and throws at the first endpoint without a base URL.
   */
  method BuildHttpForEnv(port: int, endpoints: Option<EndpointEntries>, envName: string)
    returns (r: Result<map<string, Endpoint>>)
    ensures r == Table(port, endpoints.GetOr([]), envName)
  {
    var http := endpoints.GetOr([]);
    var table: map<string, Endpoint> := map[];
    var isDev := envName == "development" || envName == "dev";
    for i := 0 to |http|
      invariant Table(port, http[..i], envName) == Ok(table)
    {
      var (name, envs) := http[i];
      assert Table(port, http[..i + 1], envName) ==
             match EntryFor(port, name, envs, envName)
             case Err(m) => Err(m)
             case Ok(e) => Ok(table[name := e])
      by {
        assert http[..i + 1][..i] == http[..i];
      }
      if isDev {
        table := table[name := Endpoint(LocalBaseUrl(port), None)];
      } else {
        var envCfg := ChooseEnv(envs, envName);
        if envCfg.None? || envCfg.value.baseUrl.None? || envCfg.value.baseUrl.value == "" {
          FailureIsFinal(port, http, envName, i + 1);
          return Err(MissingBaseUrl(name, envName));
        }
        table := table[name := Endpoint(envCfg.value.baseUrl.value, envCfg.value.headers)];
      }
    }
    assert http[..|http|] == http;
    return Ok(table);
  }

  // ---------------------------------------------------------------------
  // Properties

  /** Once an endpoint has failed, the later ones do not matter. */
  lemma {:induction false} FailureIsFinal(port: int, entries: EndpointEntries, envName: string, k: nat)
    requires k <= |entries|
    requires Table(port, entries[..k], envName).Err?
    ensures Table(port, entries, envName) == Table(port, entries[..k], envName)
    decreases |entries| - k
  {
    if k < |entries| {
      assert entries[..k + 1][..k] == entries[..k];
      FailureIsFinal(port, entries, envName, k + 1);
    } else {
      assert entries[..k] == entries;
    }
  }

  function Names(entries: EndpointEntries): set<string> {
    set i | 0 <= i < |entries| :: entries[i].0
  }

  /** A built table has exactly the endpoint names of the input. */
  lemma {:induction false} TableKeys(port: int, entries: EndpointEntries, envName: string)
    requires Table(port, entries, envName).Ok?
    ensures Table(port, entries, envName).value.Keys == Names(entries)
    decreases |entries|
  {
    if entries != [] {
      var init := entries[..|entries| - 1];
      TableKeys(port, init, envName);
      assert Names(entries) == Names(init) + {entries[|entries| - 1].0} by {
        forall x | x in Names(entries) ensures x in Names(init) + {entries[|entries| - 1].0} {
          var i :| 0 <= i < |entries| && entries[i].0 == x;
          if i < |entries| - 1 { assert init[i] == entries[i]; }
        }
        forall x | x in Names(init) ensures x in Names(entries) {
          var i :| 0 <= i < |init| && init[i].0 == x;
          assert entries[i] == init[i];
        }
      }
    }
  }

  /** The development table points every endpoint at the local server, with no headers. */
  lemma {:induction false} DevTable(port: int, entries: EndpointEntries, envName: string)
    requires IsDev(envName)
    ensures Table(port, entries, envName).Ok?
    ensures forall name :: name in Table(port, entries, envName).value ==>
              Table(port, entries, envName).value[name] == Endpoint(LocalBaseUrl(port), None)
    decreases |entries|
  {
    if entries != [] {
      DevTable(port, entries[..|entries| - 1], envName);
    }
  }

  /** A table is built iff every endpoint's chosen configuration has a base URL. */
  lemma {:induction false} TableSucceedsIff(port: int, entries: EndpointEntries, envName: string)
    ensures Table(port, entries, envName).Ok? <==>
              forall i :: 0 <= i < |entries| ==> EntryFor(port, entries[i].0, entries[i].1, envName).Ok?
    decreases |entries|
  {
    if entries != [] {
      var init := entries[..|entries| - 1];
      TableSucceedsIff(port, init, envName);
      assert forall i :: 0 <= i < |init| ==> init[i] == entries[i];
    }
  }

  /**
   * Outside development, the entry of an endpoint listed once is its chosen
   * configuration's base URL and headers.
   */
  lemma {:induction false} TableEntry(port: int, entries: EndpointEntries, envName: string, i: nat)
    requires Table(port, entries, envName).Ok?
    requires i < |entries|
    requires forall j :: 0 <= j < |entries| && j != i ==> entries[j].0 != entries[i].0
    ensures EntryFor(port, entries[i].0, entries[i].1, envName).Ok?
    ensures entries[i].0 in Table(port, entries, envName).value
    ensures Table(port, entries, envName).value[entries[i].0] == EntryFor(port, entries[i].0, entries[i].1, envName).value
    decreases |entries|
  {
    var init := entries[..|entries| - 1];
    TableSucceedsIff(port, entries, envName);
    if i < |entries| - 1 {
      assert forall j :: 0 <= j < |init| && j != i ==> init[j] == entries[j];
      TableEntry(port, init, envName, i);
    }
  }

  /** An absent `http.endpoints` gives an empty table. */
  lemma NoEndpointsGivesEmptyTable(port: int, envName: string)
    ensures Table(port, None.GetOr([]), envName) == Ok(map[])
  {
  }
}
