/**
 * Route discovery and registration (src/routes.ts): every scanned route file
 * is turned into a URL template, its exported HTTP-verb handlers become
 * route definitions, and the definitions are split into literal routes and
 * parameterised routes, which the server registers literals first.
 *
 * Enumerating the API directory and importing a module are I/O: the model
 * takes the directory listing as a sequence of relative paths, each with the
 * outcome of importing it.
 */
module Routes {

  import opened Text
  import opened RouteTemplate

  // ---------------------------------------------------------------------
  // JavaScript values seen by the route loader

  /** The values an export can hold; a function is known by an identity. */
  datatype Value =
    | Undefined
    | Null
    | Prim(truthy: bool)
    | Fn(id: nat)
    | Obj(props: seq<Prop>)

  /** One own enumerable property, in `Object.keys` order. */
  datatype Prop = Prop(key: string, value: Value)

  /** The outcome of `await import(modulePath)`: a failure, or the module's exports. */
  datatype Load = ImportFailed | Imported(exports: seq<Prop>)

  /** A path relative to the API directory, with what importing it gives. */
  datatype RouteFile = RouteFile(path: string, load: Load)

  datatype RouteDefinition = RouteDefinition(route: string, verb: string, handler: nat)

  /** The accepted method names, upper case, as the `valid` list of the loader. */
  const Verbs: seq<string> := ["GET", "POST", "PUT", "PATCH", "DELETE", "OPTIONS", "HEAD", "ALL"]

  // ---------------------------------------------------------------------
  // File enumeration: the glob over js and ts files that ignores direct children of collections

  /** No path segment starts with `.` (glob skips dot files and dot directories). */
  predicate NoDotSegment(p: string) {
    (|p| > 0 ==> p[0] != '.') && forall i :: 0 <= i < |p| - 1 ==> p[i] == '/' ==> p[i + 1] != '.'
  }

  /** Matched by the ignore pattern (`collections/` then a star): a direct child of `collections`. */
  predicate InCollectionsFolder(p: string) {
    StartsWith(p, "collections/") && '/' !in p[12..]
  }

  /** Matched by the pattern `**` then `*.ext` under any directory, and not ignored. */
  predicate GlobMatches(p: string, ext: string) {
    EndsWith(p, "." + ext) && NoDotSegment(p) && !InCollectionsFolder(p)
  }

  predicate SourceScanned(p: string) {
    GlobMatches(p, "js") || GlobMatches(p, "ts")
  }

  // ---------------------------------------------------------------------
  // Specification of mapRoutes

  /** An export that yields a definition: a verb name (any case) bound to a function. */
  predicate IsVerbHandler(p: Prop) {
    ToUpper(p.key) in Verbs && p.value.Fn?
  }

  function Definition(route: string, p: Prop): RouteDefinition
    requires p.value.Fn?
  {
    RouteDefinition(route, ToUpper(p.key), p.value.id)
  }

  /** The definitions one module's exports yield, in export order. */
  function ExportDefinitions(route: string, exports: seq<Prop>): (r: seq<RouteDefinition>)
    ensures |r| <= |exports|
    ensures forall d :: d in r ==> d.route == route && d.verb in Verbs
    decreases |exports|
  {
    if exports == [] then []
    else
      var last := exports[|exports| - 1];
      ExportDefinitions(route, exports[..|exports| - 1]) +
        (if IsVerbHandler(last) then [Definition(route, last)] else [])
  }

  function ExportsOf(f: RouteFile): seq<Prop> {
    if f.load.Imported? then f.load.exports else []
  }

  /**
   * What one file adds to the literal list: nothing unless it is scanned,
   * imported and free of the wildcard; otherwise definitions under its
   * template, which then holds no wildcard either.
   */
  function FileLiterals(f: RouteFile, w: char): (r: seq<RouteDefinition>)
    ensures !SourceScanned(f.path) || f.load.ImportFailed? || HasParam(RawRoute(f.path), w) ==> r == []
    ensures forall d :: d in r ==> d.route == Template(f.path, w) && w !in d.route && d.verb in Verbs
    ensures |r| <= |ExportsOf(f)|
  {
    if SourceScanned(f.path) && !HasParam(RawRoute(f.path), w)
    then ExportDefinitions(Template(f.path, w), ExportsOf(f))
    else []
  }

  /**
   * What one file adds to the parameterised list: nothing unless it is
   * scanned, imported and holds the wildcard; otherwise definitions under
   * its template.
   */
  function FileParams(f: RouteFile, w: char): (r: seq<RouteDefinition>)
    ensures !SourceScanned(f.path) || f.load.ImportFailed? || !HasParam(RawRoute(f.path), w) ==> r == []
    ensures forall d :: d in r ==> d.route == Template(f.path, w) && d.verb in Verbs
    ensures |r| <= |ExportsOf(f)|
  {
    if SourceScanned(f.path) && HasParam(RawRoute(f.path), w)
    then ExportDefinitions(Template(f.path, w), ExportsOf(f))
    else []
  }

  /** The contributions of the files, concatenated in file order. */
  function Collect<F>(files: seq<F>, part: F -> seq<RouteDefinition>): seq<RouteDefinition>
    decreases |files|
  {
    if files == [] then []
    else Collect(files[..|files| - 1], part) + part(files[|files| - 1])
  }

  function LiteralsOf(files: seq<RouteFile>, w: char): seq<RouteDefinition> {
    Collect(files, f => FileLiterals(f, w))
  }

  function ParamsOf(files: seq<RouteFile>, w: char): seq<RouteDefinition> {
    Collect(files, f => FileParams(f, w))
  }

  /** Scanned files whose import failed: each is logged and skipped. */
  function FailedPaths(files: seq<RouteFile>): seq<string>
    decreases |files|
  {
    if files == [] then []
    else
      var f := files[|files| - 1];
      FailedPaths(files[..|files| - 1]) + (if SourceScanned(f.path) && f.load.ImportFailed? then [f.path] else [])
  }

  // ---------------------------------------------------------------------
  // mapRoutes

  /**
   * The `forEach` over one module's export keys: each verb name (any case)
   * bound to a function pushes a definition onto `list`.
   */
  method PushDefinitions(list: seq<RouteDefinition>, route: string, exports: seq<Prop>)
    returns (pushed: seq<RouteDefinition>)
    ensures pushed == list + ExportDefinitions(route, exports)
  {
    pushed := list;
    for j := 0 to |exports|
      invariant pushed == list + ExportDefinitions(route, exports[..j])
    {
      assert exports[..j + 1][..j] == exports[..j];
      var normalized := ToUpper(exports[j].key);
      if normalized in Verbs && exports[j].value.Fn? {
        pushed := pushed + [RouteDefinition(route, normalized, exports[j].value.id)];
      }
    }
    assert exports[..|exports|] == exports;
  }

  /**
   * src/routes.ts, mapRoutes: one pass over the scanned files; each file's
   * route is derived, its raw route selects the list, and its verb handlers
   * are pushed onto that list. `failed` lists the files whose import was
   * caught and logged.
   */
  method MapRoutes(files: seq<RouteFile>, w: char)
    returns (literals: seq<RouteDefinition>, params: seq<RouteDefinition>, failed: seq<string>)
    requires LiteralWildcard(w)
    ensures literals == LiteralsOf(files, w)
    ensures params == ParamsOf(files, w)
    ensures failed == FailedPaths(files)
  {
    literals, params, failed := [], [], [];
    for i := 0 to |files|
      invariant literals == LiteralsOf(files[..i], w)
      invariant params == ParamsOf(files[..i], w)
      invariant failed == FailedPaths(files[..i])
    {
      var file := files[i];
      assert files[..i + 1][..i] == files[..i];
      if SourceScanned(file.path) {
        var route := Template(file.path, w);
        var hasParam := HasParam(RawRoute(file.path), w);
        match file.load {
          case ImportFailed =>
            failed := failed + [file.path];
          case Imported(exports) =>
            if hasParam {
              params := PushDefinitions(params, route, exports);
            } else {
              literals := PushDefinitions(literals, route, exports);
            }
        }
      }
    }
    assert files[..|files|] == files;
  }

  // ---------------------------------------------------------------------
  // Properties of mapRoutes

  /** The definitions of one module are exactly its verb handlers, each under the file's route. */
  lemma {:induction false} ExportDefinitionsMembership(route: string, exports: seq<Prop>, d: RouteDefinition)
    ensures d in ExportDefinitions(route, exports) <==>
              exists p :: p in exports && IsVerbHandler(p) && d == Definition(route, p)
    decreases |exports|
  {
    if exports != [] {
      var init, last := exports[..|exports| - 1], exports[|exports| - 1];
      assert exports == init + [last];
      ExportDefinitionsMembership(route, init, d);
    }
  }

  /** Every definition has an upper-case verb as its method and the file's route. */
  lemma ExportDefinitionsShape(route: string, exports: seq<Prop>, d: RouteDefinition)
    requires d in ExportDefinitions(route, exports)
    ensures d.verb in Verbs && d.route == route
  {
    ExportDefinitionsMembership(route, exports, d);
  }

  lemma {:induction false} CollectAppend<F>(a: seq<F>, b: seq<F>, part: F -> seq<RouteDefinition>)
    ensures Collect(a + b, part) == Collect(a, part) + Collect(b, part)
    decreases |b|
  {
    if b == [] {
      assert a + b == a;
    } else {
      var init, last := b[..|b| - 1], b[|b| - 1];
      assert (a + b)[..|a + b| - 1] == a + init;
      assert (a + b)[|a + b| - 1] == last;
      CollectAppend(a, init, part);
    }
  }

  /** A definition is collected iff some file contributes it. */
  lemma {:induction false} CollectMembership<F>(files: seq<F>, part: F -> seq<RouteDefinition>, d: RouteDefinition)
    ensures d in Collect(files, part) <==> exists f :: f in files && d in part(f)
    decreases |files|
  {
    if files != [] {
      var init, last := files[..|files| - 1], files[|files| - 1];
      assert files == init + [last];
      CollectMembership(init, part, d);
    }
  }

  /** File-enumeration order is kept: the lists of a concatenation are the concatenated lists. */
  lemma MapRoutesAppend(a: seq<RouteFile>, b: seq<RouteFile>, w: char)
    ensures LiteralsOf(a + b, w) == LiteralsOf(a, w) + LiteralsOf(b, w)
    ensures ParamsOf(a + b, w) == ParamsOf(a, w) + ParamsOf(b, w)
  {
    CollectAppend(a, b, f => FileLiterals(f, w));
    CollectAppend(a, b, f => FileParams(f, w));
  }

  lemma FailedFileIsEmpty(f: RouteFile, w: char)
    requires f.load.ImportFailed?
    ensures FileLiterals(f, w) == [] && FileParams(f, w) == []
  {
    assert ExportsOf(f) == [];
  }

  lemma CollectSkipsEmpty<F>(a: seq<F>, f: F, b: seq<F>, part: F -> seq<RouteDefinition>)
    requires part(f) == []
    ensures Collect(a + [f] + b, part) == Collect(a, part) + Collect(b, part)
  {
    var af := a + [f];
    assert af[..|af| - 1] == a && af[|af| - 1] == f;
    assert Collect(af, part) == Collect(a, part);
    CollectAppend(af, b, part);
  }

  /** A file whose import fails adds nothing; the files around it are still processed. */
  lemma FailedImportContributesNothing(a: seq<RouteFile>, f: RouteFile, b: seq<RouteFile>, w: char)
    requires f.load.ImportFailed?
    ensures LiteralsOf(a + [f] + b, w) == LiteralsOf(a, w) + LiteralsOf(b, w)
    ensures ParamsOf(a + [f] + b, w) == ParamsOf(a, w) + ParamsOf(b, w)
  {
    FailedFileIsEmpty(f, w);
    CollectSkipsEmpty(a, f, b, g => FileLiterals(g, w));
    CollectSkipsEmpty(a, f, b, g => FileParams(g, w));
  }

  /** The definition a scanned file's export yields in either list. */
  predicate Yields(f: RouteFile, p: Prop, w: char, d: RouteDefinition) {
    SourceScanned(f.path) && IsVerbHandler(p) && d == Definition(Template(f.path, w), p)
  }

  /**
   * A definition is a literal iff some scanned, imported file whose raw route
   * has no wildcard exports a verb handler that yields it.
   */
  lemma {:induction false} LiteralsMembership(files: seq<RouteFile>, w: char, d: RouteDefinition)
    ensures d in LiteralsOf(files, w) <==>
              exists f, p :: f in files && p in ExportsOf(f) && !HasParam(RawRoute(f.path), w) && Yields(f, p, w, d)
    decreases |files|
  {
    if files != [] {
      var init, last := files[..|files| - 1], files[|files| - 1];
      assert files == init + [last];
      LiteralsMembership(init, w, d);
      ExportDefinitionsMembership(Template(last.path, w), ExportsOf(last), d);
    }
  }

  /** A definition is parameterised iff it comes from a scanned file whose raw route holds the wildcard. */
  lemma {:induction false} ParamsMembership(files: seq<RouteFile>, w: char, d: RouteDefinition)
    ensures d in ParamsOf(files, w) <==>
              exists f, p :: f in files && p in ExportsOf(f) && HasParam(RawRoute(f.path), w) && Yields(f, p, w, d)
    decreases |files|
  {
    if files != [] {
      var init, last := files[..|files| - 1], files[|files| - 1];
      assert files == init + [last];
      ParamsMembership(init, w, d);
      ExportDefinitionsMembership(Template(last.path, w), ExportsOf(last), d);
    }
  }

  /** A literal route never contains the wildcard, even after substitution and collapsing. */
  lemma LiteralRoutesHaveNoWildcard(files: seq<RouteFile>, w: char, d: RouteDefinition)
    requires d in LiteralsOf(files, w)
    ensures w !in d.route && d.verb in Verbs
  {
    LiteralsMembership(files, w, d);
    var f, p :| f in files && p in ExportsOf(f) && !HasParam(RawRoute(f.path), w) && Yields(f, p, w, d);
    LiteralTemplate(f.path, w);
    if IsSourceIndexFile(f.path) {
      assert w !in RawRoute(f.path);
    }
  }

  // ---------------------------------------------------------------------
  // addExpressRoutes

  /** One call `app[method](route, handler)`. */
  datatype Registration = Registration(name: string, route: string, handler: nat)

  /** The lower-case method names an Express application offers for the accepted verbs. */
  const ExpressMethods: set<string> := {"get", "post", "put", "patch", "delete", "options", "head", "all"}

  /** The application routes are registered on; `methods` are the names `app[name]` is truthy for. */
  class App {
    const methods: set<string>
    var routes: seq<Registration>

    constructor (methods: set<string>)
      ensures this.methods == methods && routes == []
    {
      this.methods := methods;
      routes := [];
    }
  }

  function Register(d: RouteDefinition): Registration {
    Registration(ToLower(d.verb), d.route, d.handler)
  }

  function MappedLine(d: RouteDefinition): string {
    "Mapped: " + ToUpper(d.verb) + " -> " + d.route
  }

  /** Definitions whose lower-cased method the application offers, in order. */
  function Supported(defs: seq<RouteDefinition>, methods: set<string>): (r: seq<RouteDefinition>)
    ensures |r| <= |defs|
    decreases |defs|
  {
    if defs == [] then []
    else
      var d := defs[|defs| - 1];
      Supported(defs[..|defs| - 1], methods) + (if ToLower(d.verb) in methods then [d] else [])
  }

  function Registrations(defs: seq<RouteDefinition>): (r: seq<Registration>)
    ensures |r| == |defs|
    decreases |defs|
  {
    if defs == [] then [] else Registrations(defs[..|defs| - 1]) + [Register(defs[|defs| - 1])]
  }

  function MappedLines(defs: seq<RouteDefinition>): (r: seq<string>)
    ensures |r| == |defs|
    decreases |defs|
  {
    if defs == [] then [] else MappedLines(defs[..|defs| - 1]) + [MappedLine(defs[|defs| - 1])]
  }

  lemma RegistrationsSnoc(defs: seq<RouteDefinition>, d: RouteDefinition)
    ensures Registrations(defs + [d]) == Registrations(defs) + [Register(d)]
    ensures MappedLines(defs + [d]) == MappedLines(defs) + [MappedLine(d)]
  {
    assert (defs + [d])[..|defs|] == defs;
  }

  /** One registration loop: each definition whose lower-cased method the application offers is registered and logged. */
  method RegisterAll(app: App, defs: seq<RouteDefinition>) returns (log: seq<string>)
    modifies app
    ensures app.routes == old(app.routes) + Registrations(Supported(defs, app.methods))
    ensures log == MappedLines(Supported(defs, app.methods))
  {
    log := [];
    ghost var before := app.routes;
    for i := 0 to |defs|
      invariant app.routes == before + Registrations(Supported(defs[..i], app.methods))
      invariant log == MappedLines(Supported(defs[..i], app.methods))
    {
      var definition := defs[i];
      ghost var done := Supported(defs[..i], app.methods);
      assert defs[..i + 1] == defs[..i] + [definition];
      var expressMethod := ToLower(definition.verb);
      if expressMethod in app.methods {
        assert Supported(defs[..i + 1], app.methods) == done + [definition];
        RegistrationsSnoc(done, definition);
        app.routes := app.routes + [Registration(expressMethod, definition.route, definition.handler)];
        log := log + [MappedLine(definition)];
      } else {
        assert Supported(defs[..i + 1], app.methods) == done;
      }
    }
    assert defs[..|defs|] == defs;
  }

  /**
   * src/routes.ts, addExpressRoutes: every literal before any parameterised
   * route, each list in order, skipping methods the application lacks; one
   * log line per registration.
   */
  method AddExpressRoutes(app: App, literals: seq<RouteDefinition>, params: seq<RouteDefinition>)
    returns (log: seq<string>)
    modifies app
    ensures app.routes == old(app.routes) + Registrations(Supported(literals, app.methods))
                                          + Registrations(Supported(params, app.methods))
    ensures log == MappedLines(Supported(literals, app.methods)) + MappedLines(Supported(params, app.methods))
  {
    var literalLog := RegisterAll(app, literals);
    var paramLog := RegisterAll(app, params);
    log := literalLog + paramLog;
  }

  // ---------------------------------------------------------------------
  // Properties of addExpressRoutes

  /** A definition is registered iff the application offers its lower-cased method. */
  lemma {:induction false} SupportedMembership(defs: seq<RouteDefinition>, methods: set<string>, d: RouteDefinition)
    ensures d in Supported(defs, methods) <==> d in defs && ToLower(d.verb) in methods
    decreases |defs|
  {
    if defs != [] {
      var init := defs[..|defs| - 1];
      assert defs == init + [defs[|defs| - 1]];
      SupportedMembership(init, methods, d);
    }
  }

  /** When the application offers every method, nothing is skipped. */
  lemma {:induction false} SupportedAll(defs: seq<RouteDefinition>, methods: set<string>)
    requires forall d :: d in defs ==> ToLower(d.verb) in methods
    ensures Supported(defs, methods) == defs
    decreases |defs|
  {
    if defs != [] {
      var init := defs[..|defs| - 1];
      assert defs == init + [defs[|defs| - 1]];
      SupportedAll(init, methods);
    }
  }

  /** Lower-casing an accepted verb gives a method every Express application offers. */
  lemma VerbIsExpressMethod(v: string)
    requires v in Verbs
    ensures ToLower(v) in ExpressMethods
  {
    if v == "GET" { LowerCaseOf(v, "get"); }
    else if v == "POST" { LowerCaseOf(v, "post"); }
    else if v == "PUT" { LowerCaseOf(v, "put"); }
    else if v == "PATCH" { LowerCaseOf(v, "patch"); }
    else if v == "DELETE" { LowerCaseOf(v, "delete"); }
    else if v == "OPTIONS" { LowerCaseOf(v, "options"); }
    else if v == "HEAD" { LowerCaseOf(v, "head"); }
    else { LowerCaseOf(v, "all"); }
  }

  /** `lower` is the lower-case form of `v` when it agrees with it character by character. */
  lemma LowerCaseOf(v: string, lower: string)
    requires |v| == |lower| && forall k :: 0 <= k < |v| ==> LowerChar(v[k]) == lower[k]
    ensures ToLower(v) == lower
  {
  }

  /**
   * On an Express application every definition mapRoutes produces is
   * registered: all literals in order, then all parameterised routes.
   */
  lemma ExpressRegistersEveryDefinition(files: seq<RouteFile>, w: char)
    ensures Supported(LiteralsOf(files, w), ExpressMethods) == LiteralsOf(files, w)
    ensures Supported(ParamsOf(files, w), ExpressMethods) == ParamsOf(files, w)
  {
    forall d | d in LiteralsOf(files, w)
      ensures ToLower(d.verb) in ExpressMethods
    {
      LiteralsMembership(files, w, d);
      var f, p :| f in files && p in ExportsOf(f) && !HasParam(RawRoute(f.path), w) && Yields(f, p, w, d);
      VerbIsExpressMethod(d.verb);
    }
    forall d | d in ParamsOf(files, w)
      ensures ToLower(d.verb) in ExpressMethods
    {
      ParamsMembership(files, w, d);
      var f, p :| f in files && p in ExportsOf(f) && HasParam(RawRoute(f.path), w) && Yields(f, p, w, d);
      VerbIsExpressMethod(d.verb);
    }
    SupportedAll(LiteralsOf(files, w), ExpressMethods);
    SupportedAll(ParamsOf(files, w), ExpressMethods);
  }
}
