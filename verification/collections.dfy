/**
 * The collection loader (src/collections/index.ts): a module-level cache
 * that is empty until the first load, then holds either the generated
 * collections or, after any failure, an empty mapping; reset empties it
 * again. The directory listing, file contents after JSON.parse, the working
 * directory and the faker are inputs.
 */
module Collections {

  import opened Wrappers
  import opened Text
  import opened Json
  import DataGeneratorLegacy

  /**
   * What the loader can read: the entry names of each readable directory,
   * and for each readable file its content after JSON.parse (`None` when
   * the content is not valid JSON). A path missing from either map cannot
   * be read.
   */
  datatype FileSystem = FileSystem(dirs: map<string, seq<string>>, files: map<string, Option<Json>>)

  /** `path.join` of two relative parts onto a base, without normalisation. */
  function JoinPath(base: string, part: string): string {
    base + "/" + part
  }

  /** The directory read: `cwd/apiDir/collectionsFolder`. */
  function CollectionsDir(cwd: string, apiDir: string, folder: string): string {
    JoinPath(JoinPath(cwd, apiDir), folder)
  }

  /** `path.basename(file, '.json')` on a directory entry name, which holds no `/`. */
  function CollectionName(file: string): (r: string)
    ensures EndsWith(file, ".json") ==> r + ".json" == file
  {
    DropSuffix(file, ".json")
  }

  /** Two `.json` entries with the same collection name are the same entry. */
  lemma CollectionNameInjective(f: string, g: string)
    requires EndsWith(f, ".json") && EndsWith(g, ".json")
    requires CollectionName(f) == CollectionName(g)
    ensures f == g
  {
    assert f == CollectionName(f) + ".json";
  }

  /** The generated data of one `.json` entry: `None` when the read, the parse or the generation fails. */
  function EntryData(fs: FileSystem, dir: string, file: string, faker: Json -> Option<Json>): Option<seq<Json>> {
    var path := JoinPath(dir, file);
    if path in fs.files && fs.files[path].Some? then DataGeneratorLegacy.Generate(fs.files[path].value, faker)
    else None
  }

  /** The mapping built from the entries in order; `None` as soon as one `.json` entry fails. */
  function LoadEntries(fs: FileSystem, dir: string, names: seq<string>, faker: Json -> Option<Json>): Option<map<string, seq<Json>>>
    decreases |names|
  {
    if names == [] then Some(map[])
    else
      var file := names[|names| - 1];
      match LoadEntries(fs, dir, names[..|names| - 1], faker)
      case None => None
      case Some(m) =>
        if !EndsWith(file, ".json") then Some(m)
        else
          match EntryData(fs, dir, file, faker)
          case None => None
          case Some(data) => Some(m[CollectionName(file) := data])
  }

  /** The outcome of a load that reads: the mapping, or `{}` after any failure. */
  function Fresh(fs: FileSystem, dir: string, faker: Json -> Option<Json>): map<string, seq<Json>> {
    if dir in fs.dirs then LoadEntries(fs, dir, fs.dirs[dir], faker).GetOr(map[]) else map[]
  }

  predicate IsJsonEntry(names: seq<string>, f: string) {
    f in names && EndsWith(f, ".json")
  }

  /** The names of the collections of a listing: one per `.json` entry. */
  function JsonNames(names: seq<string>): set<string> {
    set f | f in names && EndsWith(f, ".json") :: CollectionName(f)
  }

  class CollectionStore {
    /** `collections`: `None` is `null`. */
    var cache: Option<map<string, seq<Json>>>

    constructor()
      ensures cache == None
    {
      cache := None;
    }

    /**
     * loadCollections: a filled cache is returned as it is and nothing is
     * read; otherwise the directory is read, every `.json` entry is parsed
     * and generated in order, and the cache becomes the new mapping, or `{}`
     * if anything failed.
     */
    method LoadCollections(fs: FileSystem, cwd: string, apiDir: string, folder: string, faker: Json -> Option<Json>)
      returns (r: map<string, seq<Json>>)
      modifies this
      ensures old(cache).Some? ==> cache == old(cache) && r == old(cache).value
      ensures old(cache).None? ==> r == Fresh(fs, CollectionsDir(cwd, apiDir, folder), faker) && cache == Some(r)
    {
      if cache.Some? {
        return cache.value;
      }
      var dir := CollectionsDir(cwd, apiDir, folder);
      if dir !in fs.dirs {
        cache := Some(map[]);
        return map[];
      }
      var files := fs.dirs[dir];
      var loaded: map<string, seq<Json>> := map[];
      for i := 0 to |files|
        invariant LoadEntries(fs, dir, files[..i], faker) == Some(loaded)
      {
        var file := files[i];
        assert files[..i + 1][..i] == files[..i];
        if EndsWith(file, ".json") {
          var name := CollectionName(file);
          var path := JoinPath(dir, file);
          if path !in fs.files || fs.files[path].None? {
            FailureIsFinal(fs, dir, files, i + 1, faker);
            cache := Some(map[]);
            return map[];
          }
          var schema := fs.files[path].value;
          var data := DataGeneratorLegacy.Generate(schema, faker);
          if data.None? {
            FailureIsFinal(fs, dir, files, i + 1, faker);
            cache := Some(map[]);
            return map[];
          }
          loaded := loaded[name := data.value];
        }
      }
      assert files[..|files|] == files;
      cache := Some(loaded);
      return loaded;
    }

    /** resetCollectionsCache: the next load reads again. */
    method ResetCollectionsCache()
      modifies this
      ensures cache == None
    {
      cache := None;
    }
  }

  // ---------------------------------------------------------------------
  // Properties

  /** Once an entry has failed, the remaining entries do not matter: the load fails. */
  lemma {:induction false} FailureIsFinal(fs: FileSystem, dir: string, names: seq<string>, k: nat, faker: Json -> Option<Json>)
    requires k <= |names|
    requires LoadEntries(fs, dir, names[..k], faker).None?
    ensures LoadEntries(fs, dir, names, faker).None?
    decreases |names| - k
  {
    if k < |names| {
      assert names[..k + 1][..k] == names[..k];
      FailureIsFinal(fs, dir, names, k + 1, faker);
    } else {
      assert names[..k] == names;
    }
  }

  /** The load succeeds iff every `.json` entry can be read, parsed and generated. */
  lemma {:induction false} LoadSucceedsIff(fs: FileSystem, dir: string, names: seq<string>, faker: Json -> Option<Json>)
    ensures LoadEntries(fs, dir, names, faker).Some? <==>
              forall f :: IsJsonEntry(names, f) ==> EntryData(fs, dir, f, faker).Some?
    decreases |names|
  {
    if names != [] {
      var init, last := names[..|names| - 1], names[|names| - 1];
      assert names == init + [last];
      LoadSucceedsIff(fs, dir, init, faker);
      assert forall f :: IsJsonEntry(names, f) <==> IsJsonEntry(init, f) || (f == last && EndsWith(last, ".json"));
    }
  }

  lemma JsonNamesSnoc(init: seq<string>, last: string)
    ensures JsonNames(init + [last]) == JsonNames(init) + (if EndsWith(last, ".json") then {CollectionName(last)} else {})
  {
    var names := init + [last];
    forall x | x in JsonNames(names)
      ensures x in JsonNames(init) || (EndsWith(last, ".json") && x == CollectionName(last))
    {
      var f :| f in names && EndsWith(f, ".json") && x == CollectionName(f);
      if f != last {
        assert f in init;
      }
    }
  }

  /** A successful load has exactly one key per `.json` entry: the entry's name without `.json`. */
  lemma {:induction false} LoadedKeys(fs: FileSystem, dir: string, names: seq<string>, faker: Json -> Option<Json>)
    requires LoadEntries(fs, dir, names, faker).Some?
    ensures LoadEntries(fs, dir, names, faker).value.Keys == JsonNames(names)
    decreases |names|
  {
    if names != [] {
      var init, last := names[..|names| - 1], names[|names| - 1];
      assert names == init + [last];
      LoadedKeys(fs, dir, init, faker);
      JsonNamesSnoc(init, last);
    }
  }

  /** Each key of a successful load holds the generated data of its `.json` entry. */
  lemma {:induction false} LoadedValues(fs: FileSystem, dir: string, names: seq<string>, faker: Json -> Option<Json>, f: string)
    requires LoadEntries(fs, dir, names, faker).Some?
    requires IsJsonEntry(names, f)
    ensures CollectionName(f) in LoadEntries(fs, dir, names, faker).value
    ensures EntryData(fs, dir, f, faker) == Some(LoadEntries(fs, dir, names, faker).value[CollectionName(f)])
    decreases |names|
  {
    var init, last := names[..|names| - 1], names[|names| - 1];
    assert names == init + [last];
    if f == last {
      assert LoadEntries(fs, dir, names, faker).value == LoadEntries(fs, dir, init, faker).value[CollectionName(f) := EntryData(fs, dir, f, faker).value];
    } else {
      assert f in init;
      LoadedValues(fs, dir, init, faker, f);
      if EndsWith(last, ".json") && CollectionName(f) == CollectionName(last) {
        CollectionNameInjective(f, last);
      }
    }
  }

  /** An unreadable directory, or any failing `.json` entry, leaves `{}`. */
  lemma FailedLoadIsEmpty(fs: FileSystem, dir: string, faker: Json -> Option<Json>, f: string)
    requires dir in fs.dirs ==> IsJsonEntry(fs.dirs[dir], f) && EntryData(fs, dir, f, faker).None?
    ensures Fresh(fs, dir, faker) == map[]
  {
    if dir in fs.dirs {
      LoadSucceedsIff(fs, dir, fs.dirs[dir], faker);
    }
  }

  /** A directory without `.json` entries loads as an empty mapping, which is a filled cache all the same. */
  lemma NoJsonEntries(fs: FileSystem, dir: string, faker: Json -> Option<Json>)
    requires dir in fs.dirs && forall f :: f in fs.dirs[dir] ==> !EndsWith(f, ".json")
    ensures Fresh(fs, dir, faker) == map[]
  {
    LoadSucceedsIff(fs, dir, fs.dirs[dir], faker);
    LoadedKeys(fs, dir, fs.dirs[dir], faker);
    assert JsonNames(fs.dirs[dir]) == {};
  }
}
