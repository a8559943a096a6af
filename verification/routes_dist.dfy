/**
 * The newer route loader (dist/routes.js): the route file extension is a
 * parameter (`js` by default), only files with that extension are scanned,
 * and the handlers of a module may come from its default export. TypeScript
 * route files are loaded with `require` (through ts-node), every other
 * extension with `import`, and the two loaders pick the handler object by
 * different rules.
 */
module RoutesDist {

  import opened Text
  import opened RouteTemplate
  import opened Routes

  /** `routeFileExtension = 'js'`. */
  const DefaultRouteFileExtension: string := "js"

  /** The outcome of loading one module: a thrown error, or the module value. */
  datatype DistLoad = LoadFailed | Loaded(mod: Value)

  datatype DistFile = DistFile(path: string, load: DistLoad)

  // ---------------------------------------------------------------------
  // JavaScript value helpers

  predicate Truthy(v: Value) {
    match v
    case Undefined => false
    case Null => false
    case Prim(t) => t
    case Fn(_) => true
    case Obj(_) => true
  }

  /** `v === null || v === undefined`, the test `??` makes. */
  predicate Nullish(v: Value) {
    v.Undefined? || v.Null?
  }

  /** The value of the first property named `key`; `undefined` when there is none. */
  function Lookup(props: seq<Prop>, key: string): (r: Value)
    ensures r != Undefined ==> exists p :: p in props && p.key == key && p.value == r
    ensures (forall p :: p in props ==> p.key != key) ==> r == Undefined
  {
    if props == [] then Undefined
    else if props[0].key == key then props[0].value
    else Lookup(props[1..], key)
  }

  /** `v.default`: only objects carry properties in this model. */
  function DefaultMember(v: Value): Value {
    if v.Obj? then Lookup(v.props, "default") else Undefined
  }

  /** `mod && mod.default ? mod.default : mod` (the `import` path). */
  function HandlersViaImport(mod: Value): Value {
    if Truthy(mod) && Truthy(DefaultMember(mod)) then DefaultMember(mod) else mod
  }

  /** `mod && (mod.default ?? mod)` (the `require` path). */
  function HandlersViaRequire(mod: Value): Value {
    if !Truthy(mod) then mod
    else if Nullish(DefaultMember(mod)) then mod
    else DefaultMember(mod)
  }

  /**
   * The handler object of a loaded module: `require` is used exactly when
   * the extension is `ts`. Both loaders agree that a falsy module yields no
   * handlers, that a truthy default export wins and that a module without a
   * default export is its own handler object.
   */
  function Handlers(mod: Value, ext: string): (r: Value)
    ensures !Truthy(mod) ==> HandlerProps(r) == []
    ensures Truthy(mod) && Truthy(DefaultMember(mod)) ==> r == DefaultMember(mod)
    ensures DefaultMember(mod) == Undefined ==> r == mod
  {
    if ext == "ts" then HandlersViaRequire(mod) else HandlersViaImport(mod)
  }

  /** `Object.keys(handlers || {})` with each key's value: the properties of an object, none otherwise. */
  function HandlerProps(handlers: Value): seq<Prop> {
    if handlers.Obj? then handlers.props else []
  }

  function LoadedProps(f: DistFile, ext: string): seq<Prop> {
    if f.load.Loaded? then HandlerProps(Handlers(f.load.mod, ext)) else []
  }

  // ---------------------------------------------------------------------
  // Specification of mapRoutes

  /** What one file adds to the literal list (see `Routes.FileLiterals`), for the configured extension. */
  function FileLiterals(f: DistFile, w: char, ext: string): (r: seq<RouteDefinition>)
    ensures !GlobMatches(f.path, ext) || f.load.LoadFailed? || HasParam(DistRawRoute(f.path, ext), w) ==> r == []
    ensures forall d :: d in r ==> d.route == DistTemplate(f.path, w, ext) && w !in d.route && d.verb in Verbs
  {
    if GlobMatches(f.path, ext) && !HasParam(DistRawRoute(f.path, ext), w)
    then ExportDefinitions(DistTemplate(f.path, w, ext), LoadedProps(f, ext))
    else []
  }

  /** What one file adds to the parameterised list, for the configured extension. */
  function FileParams(f: DistFile, w: char, ext: string): (r: seq<RouteDefinition>)
    ensures !GlobMatches(f.path, ext) || f.load.LoadFailed? || !HasParam(DistRawRoute(f.path, ext), w) ==> r == []
    ensures forall d :: d in r ==> d.route == DistTemplate(f.path, w, ext) && d.verb in Verbs
  {
    if GlobMatches(f.path, ext) && HasParam(DistRawRoute(f.path, ext), w)
    then ExportDefinitions(DistTemplate(f.path, w, ext), LoadedProps(f, ext))
    else []
  }

  function LiteralsOf(files: seq<DistFile>, w: char, ext: string): seq<RouteDefinition> {
    Collect(files, f => FileLiterals(f, w, ext))
  }

  function ParamsOf(files: seq<DistFile>, w: char, ext: string): seq<RouteDefinition> {
    Collect(files, f => FileParams(f, w, ext))
  }

  function FailedPaths(files: seq<DistFile>, ext: string): seq<string>
    decreases |files|
  {
    if files == [] then []
    else
      var f := files[|files| - 1];
      FailedPaths(files[..|files| - 1], ext) + (if GlobMatches(f.path, ext) && f.load.LoadFailed? then [f.path] else [])
  }

  /**
   * dist/routes.js, mapRoutes: the loop over the files matching the
   * extension; each file's template is derived with that extension, its
   * handler object is picked by the loader in use, and its verb handlers
   * are pushed onto the list the raw route selects.
   */
  method MapRoutes(files: seq<DistFile>, w: char, ext: string := DefaultRouteFileExtension)
    returns (literals: seq<RouteDefinition>, params: seq<RouteDefinition>, failed: seq<string>)
    requires LiteralWildcard(w)
    ensures literals == LiteralsOf(files, w, ext)
    ensures params == ParamsOf(files, w, ext)
    ensures failed == FailedPaths(files, ext)
  {
    literals, params, failed := [], [], [];
    var isTs := ext == "ts";
    for i := 0 to |files|
      invariant literals == LiteralsOf(files[..i], w, ext)
      invariant params == ParamsOf(files[..i], w, ext)
      invariant failed == FailedPaths(files[..i], ext)
    {
      var file := files[i];
      assert files[..i + 1][..i] == files[..i];
      if GlobMatches(file.path, ext) {
        var route := DistTemplate(file.path, w, ext);
        var hasParam := HasParam(DistRawRoute(file.path, ext), w);
        match file.load {
          case LoadFailed =>
            failed := failed + [file.path];
          case Loaded(mod) =>
            var handlers := if isTs then HandlersViaRequire(mod) else HandlersViaImport(mod);
            var props := if handlers.Obj? then handlers.props else [];
            if hasParam {
              params := PushDefinitions(params, route, props);
            } else {
              literals := PushDefinitions(literals, route, props);
            }
        }
      }
    }
    assert files[..|files|] == files;
  }

  // ---------------------------------------------------------------------
  // Properties

  /** File order is kept: the lists of a concatenation are the concatenated lists. */
  lemma MapRoutesAppend(a: seq<DistFile>, b: seq<DistFile>, w: char, ext: string)
    ensures LiteralsOf(a + b, w, ext) == LiteralsOf(a, w, ext) + LiteralsOf(b, w, ext)
    ensures ParamsOf(a + b, w, ext) == ParamsOf(a, w, ext) + ParamsOf(b, w, ext)
  {
    CollectAppend(a, b, f => FileLiterals(f, w, ext));
    CollectAppend(a, b, f => FileParams(f, w, ext));
  }

  /** A file whose load throws adds nothing; the loop goes on with the next file. */
  lemma FailedLoadContributesNothing(a: seq<DistFile>, f: DistFile, b: seq<DistFile>, w: char, ext: string)
    requires f.load.LoadFailed?
    ensures LiteralsOf(a + [f] + b, w, ext) == LiteralsOf(a, w, ext) + LiteralsOf(b, w, ext)
    ensures ParamsOf(a + [f] + b, w, ext) == ParamsOf(a, w, ext) + ParamsOf(b, w, ext)
  {
    assert LoadedProps(f, ext) == [];
    CollectSkipsEmpty(a, f, b, g => FileLiterals(g, w, ext));
    CollectSkipsEmpty(a, f, b, g => FileParams(g, w, ext));
  }

  /** Files with another extension are never loaded and contribute nothing. */
  lemma OtherExtensionsIgnored(f: DistFile, w: char, ext: string)
    requires !EndsWith(f.path, "." + ext)
    ensures FileLiterals(f, w, ext) == [] && FileParams(f, w, ext) == []
  {
  }

  /** The definition an export of a scanned, loaded file yields. */
  predicate DistYields(f: DistFile, p: Prop, w: char, ext: string, d: RouteDefinition) {
    GlobMatches(f.path, ext) && IsVerbHandler(p) && d == Definition(DistTemplate(f.path, w, ext), p)
  }

  /**
   * A definition is a literal iff some scanned file whose raw route has no
   * wildcard has, in the handler object its loader picks, a verb handler
   * that yields it.
   */
  lemma LiteralsMembership(files: seq<DistFile>, w: char, ext: string, d: RouteDefinition)
    ensures d in LiteralsOf(files, w, ext) <==>
              exists f, p :: f in files && p in LoadedProps(f, ext) &&
                             !HasParam(DistRawRoute(f.path, ext), w) && DistYields(f, p, w, ext, d)
  {
    CollectMembership(files, f => FileLiterals(f, w, ext), d);
    forall f | f in files
      ensures d in FileLiterals(f, w, ext) <==>
                exists p :: p in LoadedProps(f, ext) && !HasParam(DistRawRoute(f.path, ext), w) && DistYields(f, p, w, ext, d)
    {
      ExportDefinitionsMembership(DistTemplate(f.path, w, ext), LoadedProps(f, ext), d);
    }
  }

  /** A definition is parameterised iff it comes from a scanned file whose raw route holds the wildcard. */
  lemma ParamsMembership(files: seq<DistFile>, w: char, ext: string, d: RouteDefinition)
    ensures d in ParamsOf(files, w, ext) <==>
              exists f, p :: f in files && p in LoadedProps(f, ext) &&
                             HasParam(DistRawRoute(f.path, ext), w) && DistYields(f, p, w, ext, d)
  {
    CollectMembership(files, f => FileParams(f, w, ext), d);
    forall f | f in files
      ensures d in FileParams(f, w, ext) <==>
                exists p :: p in LoadedProps(f, ext) && HasParam(DistRawRoute(f.path, ext), w) && DistYields(f, p, w, ext, d)
    {
      ExportDefinitionsMembership(DistTemplate(f.path, w, ext), LoadedProps(f, ext), d);
    }
  }

  /**
   * The loaders disagree on a falsy, non-nullish default export: `import`
   * falls back to the mod, `require` takes the falsy default and so
   * yields no definitions.
   */
  lemma LoadersDisagreeOnFalsyDefault(mod: Value)
    requires mod.Obj? && !Truthy(DefaultMember(mod)) && !Nullish(DefaultMember(mod))
    ensures Handlers(mod, "js") == mod
    ensures HandlerProps(Handlers(mod, "ts")) == []
  {
  }

  /** The source-tree file that a loaded dist file corresponds to, when its module is an object. */
  function AsSourceFile(f: DistFile): RouteFile {
    if f.load.Loaded? && f.load.mod.Obj? then RouteFile(f.path, Imported(f.load.mod.props))
    else RouteFile(f.path, ImportFailed)
  }

  /**
   * For a `.js` or `.ts` file whose module is an object without a default
   * export, the newer loader (configured with that extension) yields the
   * same definitions as the older one.
   */
  lemma AgreesWithSourceLoader(f: DistFile, w: char, ext: string)
    requires ext == "js" || ext == "ts"
    requires GlobMatches(f.path, ext)
    requires f.load.Loaded? && f.load.mod.Obj? && DefaultMember(f.load.mod) == Undefined
    ensures FileLiterals(f, w, ext) == Routes.FileLiterals(AsSourceFile(f), w)
    ensures FileParams(f, w, ext) == Routes.FileParams(AsSourceFile(f), w)
  {
    SourceAndDistTemplatesAgree(f.path, ext, w);
    assert SourceScanned(f.path);
    assert LoadedProps(f, ext) == ExportsOf(AsSourceFile(f));
  }
}
