/**
 * Derivation of a URL template from a route file's relative path, as both
 * versions of mapRoutes compute it: prefix `/`, strip the extension, turn
 * every wildcard-prefixed run into a `:param`, collapse `/index`.
 */
module RouteTemplate {

  import opened Text
  import opened Wrappers
  import Constants

  /**
   * The wildcards that the RegExp built from them matches literally: the
   * accepted wildcard characters that are not regular-expression
   * metacharacters.
   */
  const LiteralWildcardChars: set<char> := {'!', '@', '#', '%', '&', '_', '-', '=', '~'}

  predicate LiteralWildcard(w: char) {
    w in LiteralWildcardChars
  }

  /** The literal wildcards are exactly the accepted ones minus the metacharacters. */
  lemma LiteralWildcardChoice(w: char)
    ensures LiteralWildcard(w) <==> [w] in Constants.ValidWildcardChars && [w] !in Constants.RegexMetaWildcards
  {
    if [w] in Constants.ValidWildcardChars {
      assert [w][0] == w;
    }
  }

  lemma LiteralWildcardIsNotALetterOrSeparator(w: char)
    requires LiteralWildcard(w)
    ensures w != '/' && w != ':' && w !in "index"
  {
  }

  // ---------------------------------------------------------------------
  // Extension stripping and classification

  /** `file.replace(/\.(js|ts)$/, '')` (src/routes.ts). */
  function StripSourceExtension(file: string): (r: string)
    ensures EndsWith(file, ".js") ==> r + ".js" == file
    ensures EndsWith(file, ".ts") ==> r + ".ts" == file
    ensures !EndsWith(file, ".js") && !EndsWith(file, ".ts") ==> r == file
  {
    if EndsWith(file, ".js") then DropSuffix(file, ".js") else DropSuffix(file, ".ts")
  }

  /** `file.replace(new RegExp('\\.' + ext + '$'), '')` (dist/routes.js). */
  function StripExtension(file: string, ext: string): (r: string)
    ensures EndsWith(file, "." + ext) ==> r + "." + ext == file
    ensures !EndsWith(file, "." + ext) ==> r == file
  {
    DropSuffix(file, "." + ext)
  }

  /** The route before substitution: `'/' + file` without its extension. */
  function RawRoute(file: string): (r: string)
    ensures |r| > 0 && r[0] == '/' && r[1..] == StripSourceExtension(file)
  {
    "/" + StripSourceExtension(file)
  }

  function DistRawRoute(file: string, ext: string): (r: string)
    ensures |r| > 0 && r[0] == '/' && r[1..] == StripExtension(file, ext)
  {
    "/" + StripExtension(file, ext)
  }

  /** `route.includes(wildcardChar)`, decided on the route before substitution. */
  predicate HasParam(raw: string, w: char) {
    w in raw
  }

  // ---------------------------------------------------------------------
  // Parameter substitution: route.replace(new RegExp(w + '([^/]+)', 'g'), ':$1')

  /** Length of the longest prefix of `s` free of `/` (what greedy `[^/]+` consumes). */
  function RunLength(s: string): (n: nat)
    ensures n <= |s|
    ensures forall i :: 0 <= i < n ==> s[i] != '/'
    ensures n < |s| ==> s[n] == '/'
  {
    if s == [] || s[0] == '/' then 0 else 1 + RunLength(s[1..])
  }

  /**
   * Global replacement of `w([^/]+)` by `:$1`, scanning left to right: at a
   * wildcard followed by at least one non-`/` character, the match takes the
   * wildcard and the whole run up to the next `/` or the end, and emits `:`
   * followed by the run; anywhere else one character is copied.
   */
  function Substitute(s: string, w: char): (r: string)
    ensures |r| == |s|
    decreases |s|
  {
    if s == [] then []
    else if s[0] == w && RunLength(s[1..]) > 0 then
      var n := RunLength(s[1..]);
      [':'] + s[1..1 + n] + Substitute(s[1 + n..], w)
    else [s[0]] + Substitute(s[1..], w)
  }

  /** Index of the first `c` in `s`; `|s|` when there is none. */
  function FirstIndex(s: string, c: char): (i: nat)
    ensures i <= |s| && (i < |s| ==> s[i] == c)
    ensures forall j :: 0 <= j < i ==> s[j] != c
  {
    if s == [] || s[0] == c then 0 else 1 + FirstIndex(s[1..], c)
  }

  /**
   * Reference definition for one `/`-free segment: the first wildcard of the
   * segment becomes `:` unless it is the segment's last character; nothing
   * else changes.
   */
  function SubstituteSegment(seg: string, w: char): string
    requires '/' !in seg
  {
    var i := FirstIndex(seg, w);
    if i + 1 < |seg| then seg[..i] + ":" + seg[i + 1..] else seg
  }

  /** Within one segment, Substitute agrees with the reference definition. */
  lemma {:induction false} SubstituteOneSegment(seg: string, w: char)
    requires '/' !in seg
    ensures Substitute(seg, w) == SubstituteSegment(seg, w)
    decreases |seg|
  {
    if seg == [] {
    } else if seg[0] == w {
      var rest := seg[1..];
      RunLengthUnique(rest, |rest|);
      if |rest| > 0 {
        assert seg[1..1 + |rest|] == rest && seg[1 + |rest|..] == [];
        assert Substitute(seg, w) == [':'] + rest;
      } else {
        assert Substitute(seg, w) == [seg[0]] + Substitute(rest, w);
      }
    } else {
      SubstituteOneSegmentShift(seg, w);
    }
  }

  lemma {:induction false} SubstituteOneSegmentShift(seg: string, w: char)
    requires '/' !in seg && seg != [] && seg[0] != w
    ensures Substitute(seg, w) == SubstituteSegment(seg, w)
    decreases |seg|, 0
  {
    var rest := seg[1..];
    assert Substitute(seg, w) == [seg[0]] + Substitute(rest, w);
    SubstituteOneSegment(rest, w);
    SegmentShift(seg, w);
  }

  /** The reference definition copies a leading character that is not the wildcard. */
  lemma SegmentShift(seg: string, w: char)
    requires '/' !in seg && seg != [] && seg[0] != w
    ensures SubstituteSegment(seg, w) == [seg[0]] + SubstituteSegment(seg[1..], w)
  {
    var rest := seg[1..];
    var i := FirstIndex(rest, w);
    assert FirstIndex(seg, w) == i + 1;
    if i + 1 < |rest| {
      assert seg[..i + 1] == [seg[0]] + rest[..i];
      assert seg[i + 2..] == rest[i + 1..];
    } else {
      assert seg == [seg[0]] + rest;
    }
  }

  /** A path without the wildcard is left unchanged. */
  lemma {:induction false} SubstituteWithoutWildcard(s: string, w: char)
    requires w !in s
    ensures Substitute(s, w) == s
    decreases |s|
  {
    if s != [] {
      assert s[0] != w;
      assert Substitute(s, w) == [s[0]] + Substitute(s[1..], w);
      SubstituteWithoutWildcard(s[1..], w);
    }
  }

  lemma {:induction false} RunLengthUnique(s: string, n: nat)
    requires n <= |s|
    requires forall i :: 0 <= i < n ==> s[i] != '/'
    requires n < |s| ==> s[n] == '/'
    ensures RunLength(s) == n
    decreases |s|
  {
    if n > 0 {
      RunLengthUnique(s[1..], n - 1);
    }
  }

  /** Substitution never crosses a `/`: it works segment by segment. */
  lemma {:induction false} SubstituteAcrossSlash(a: string, b: string, w: char)
    requires w != '/'
    ensures Substitute(a + "/" + b, w) == Substitute(a, w) + "/" + Substitute(b, w)
    decreases |a|, 1
  {
    if a == [] {
      var s := a + "/" + b;
      assert s == "/" + b && s[1..] == b;
    } else {
      var m := RunLength(a[1..]);
      assert (a + "/" + b)[1..] == a[1..] + "/" + b;
      RunLengthAcrossSlash(a[1..], b);
      if a[0] == w && m > 0 {
        SubstituteAcrossSlashAtMatch(a, b, w, m);
      } else {
        SubstituteAcrossSlashCopy(a, b, w);
      }
    }
  }

  lemma {:induction false} SubstituteAcrossSlashCopy(a: string, b: string, w: char)
    requires w != '/' && a != [] && !(a[0] == w && RunLength(a[1..]) > 0)
    requires RunLength((a + "/" + b)[1..]) == RunLength(a[1..])
    ensures Substitute(a + "/" + b, w) == Substitute(a, w) + "/" + Substitute(b, w)
    decreases |a|, 0
  {
    var s := a + "/" + b;
    var tail := a[1..];
    assert s[0] == a[0];
    calc {
      Substitute(s, w);
    == { SubstituteCopies(s, w); }
      [a[0]] + Substitute(s[1..], w);
    == { assert s[1..] == tail + "/" + b; }
      [a[0]] + Substitute(tail + "/" + b, w);
    == { SubstituteAcrossSlash(tail, b, w); }
      [a[0]] + (Substitute(tail, w) + "/" + Substitute(b, w));
    ==
      ([a[0]] + Substitute(tail, w)) + "/" + Substitute(b, w);
    == { SubstituteCopies(a, w); }
      Substitute(a, w) + "/" + Substitute(b, w);
    }
  }

  /** A first character that does not start a match is copied. */
  lemma SubstituteCopies(s: string, w: char)
    requires s != [] && !(s[0] == w && RunLength(s[1..]) > 0)
    ensures Substitute(s, w) == [s[0]] + Substitute(s[1..], w)
  {
  }

  /** A wildcard followed by a run of `m` characters becomes `:` and the run. */
  lemma SubstituteMatches(s: string, w: char, m: nat)
    requires s != [] && s[0] == w && m == RunLength(s[1..]) && m > 0
    ensures Substitute(s, w) == [':'] + s[1..1 + m] + Substitute(s[1 + m..], w)
  {
  }

  lemma {:induction false} SubstituteAcrossSlashAtMatch(a: string, b: string, w: char, m: nat)
    requires w != '/' && a != [] && a[0] == w && m > 0
    requires m == RunLength(a[1..]) == RunLength((a + "/" + b)[1..])
    ensures Substitute(a + "/" + b, w) == Substitute(a, w) + "/" + Substitute(b, w)
    decreases |a|, 0
  {
    var s := a + "/" + b;
    var rest := a[1 + m..];
    var run := a[1..1 + m];
    assert s[0] == w;
    calc {
      Substitute(s, w);
    == { SubstituteMatches(s, w, m); }
      [':'] + s[1..1 + m] + Substitute(s[1 + m..], w);
    == { assert s[1..1 + m] == run && s[1 + m..] == rest + "/" + b; }
      [':'] + run + Substitute(rest + "/" + b, w);
    == { SubstituteAcrossSlash(rest, b, w); }
      [':'] + run + (Substitute(rest, w) + "/" + Substitute(b, w));
    ==
      ([':'] + run + Substitute(rest, w)) + "/" + Substitute(b, w);
    == { SubstituteMatches(a, w, m); }
      Substitute(a, w) + "/" + Substitute(b, w);
    }
  }

  lemma RunLengthAcrossSlash(a: string, b: string)
    ensures RunLength(a + "/" + b) == RunLength(a)
  {
    var s := a + "/" + b;
    var m := RunLength(a);
    assert forall i :: 0 <= i < m ==> s[i] == a[i];
    assert s[m] == '/';
    RunLengthUnique(s, m);
  }

  // ---------------------------------------------------------------------
  // Index collapsing

  /** `file.endsWith('/index.js') || file.endsWith('/index.ts')` (src/routes.ts). */
  predicate IsSourceIndexFile(file: string) {
    EndsWith(file, "/index.js") || EndsWith(file, "/index.ts")
  }

  /** `file.endsWith('/index.' + routeFileExtension)` (dist/routes.js). */
  predicate IsIndexFile(file: string, ext: string) {
    EndsWith(file, "/index." + ext)
  }

  /** As written: `route.replace('/index', '')` removes the FIRST occurrence of `/index`. */
  function CollapseIndexAsWritten(route: string): (r: string)
    ensures IndexOf(route, "/index").None? ==> r == route
    ensures IndexOf(route, "/index").Some? ==>
              var i := IndexOf(route, "/index").value;
              r == route[..i] + route[i + 6..] && forall j :: 0 <= j < i ==> !OccursAt(route, "/index", j)
  {
    ReplaceFirst(route, "/index", "")
  }

  /** Corrected: remove the trailing `/index` segment. */
  function CollapseIndex(route: string): (r: string)
    ensures EndsWith(route, "/index") ==> r + "/index" == route
    ensures !EndsWith(route, "/index") ==> r == route
  {
    DropSuffix(route, "/index")
  }

  // ---------------------------------------------------------------------
  // Whole templates

  /**
   * src/routes.ts, lines 25-31, as written. An index route loses one `/index`
   * (six characters), though not necessarily its last; the wildcard never
   * appears unless the raw route holds it.
   */
  function TemplateAsWritten(file: string, w: char): (r: string)
    ensures !IsSourceIndexFile(file) ==> |r| == |RawRoute(file)|
    ensures LiteralWildcard(w) && IsSourceIndexFile(file) ==> |r| + 6 == |RawRoute(file)|
    ensures w !in RawRoute(file) ==> w !in r
  {
    var route := Substitute(RawRoute(file), w);
    SubstituteFacts(RawRoute(file), w);
    CollapseFacts(route, w);
    if IsSourceIndexFile(file) then
      IndexRouteFacts(file, w);
      CollapseIndexAsWritten(route)
    else route
  }

  /**
   * src/routes.ts, lines 25-31, with the trailing-`/index` collapse: the
   * route of `dir/index.ts` is the route of `dir`.
   */
  function Template(file: string, w: char): (r: string)
    ensures !IsSourceIndexFile(file) ==> |r| == |RawRoute(file)|
    ensures LiteralWildcard(w) && IsSourceIndexFile(file) ==> r == "/" + Substitute(file[..|file| - 9], w)
    ensures w !in RawRoute(file) ==> w !in r
  {
    var route := Substitute(RawRoute(file), w);
    SubstituteFacts(RawRoute(file), w);
    CollapseFacts(route, w);
    if IsSourceIndexFile(file) then
      IndexRouteFacts(file, w);
      CollapseIndex(route)
    else route
  }

  /**
   * dist/routes.js, lines 42-48, as written; on a `.js` or `.ts` path with
   * that extension configured it is the source-tree template.
   */
  function DistTemplateAsWritten(file: string, w: char, ext: string): (r: string)
    ensures !IsIndexFile(file, ext) ==> |r| == |DistRawRoute(file, ext)|
    ensures w !in DistRawRoute(file, ext) ==> w !in r
    ensures (ext == "js" || ext == "ts") && EndsWith(file, "." + ext) ==> r == TemplateAsWritten(file, w)
  {
    var route := Substitute(DistRawRoute(file, ext), w);
    SubstituteFacts(DistRawRoute(file, ext), w);
    CollapseFacts(route, w);
    DistPathFacts(file, ext);
    if IsIndexFile(file, ext) then CollapseIndexAsWritten(route) else route
  }

  /** dist/routes.js, lines 42-48, with the trailing-`/index` collapse. */
  function DistTemplate(file: string, w: char, ext: string): (r: string)
    ensures !IsIndexFile(file, ext) ==> |r| == |DistRawRoute(file, ext)|
    ensures w !in DistRawRoute(file, ext) ==> w !in r
    ensures (ext == "js" || ext == "ts") && EndsWith(file, "." + ext) ==> r == Template(file, w)
  {
    var route := Substitute(DistRawRoute(file, ext), w);
    SubstituteFacts(DistRawRoute(file, ext), w);
    CollapseFacts(route, w);
    DistPathFacts(file, ext);
    if IsIndexFile(file, ext) then CollapseIndex(route) else route
  }

  lemma SubstituteFacts(s: string, w: char)
    ensures w !in s ==> Substitute(s, w) == s
  {
    if w !in s {
      SubstituteWithoutWildcard(s, w);
    }
  }

  /** Neither collapse introduces a character: both only cut `/index` out. */
  lemma CollapseFacts(route: string, c: char)
    ensures c !in route ==> c !in CollapseIndex(route) && c !in CollapseIndexAsWritten(route)
  {
    if c !in route {
      TrailingCollapseKeeps(route, c);
      FirstCollapseKeeps(route, c);
    }
  }

  lemma TrailingCollapseKeeps(route: string, c: char)
    requires c !in route
    ensures c !in CollapseIndex(route)
  {
    var r := CollapseIndex(route);
    if EndsWith(route, "/index") {
      assert forall k :: 0 <= k < |r| ==> r[k] == route[k];
    }
  }

  lemma FirstCollapseKeeps(route: string, c: char)
    requires c !in route
    ensures c !in CollapseIndexAsWritten(route)
  {
    if IndexOf(route, "/index").Some? {
      var i := IndexOf(route, "/index").value;
      var cut := CollapseIndexAsWritten(route);
      assert cut == route[..i] + route[i + 6..];
      assert forall k :: 0 <= k < |cut| ==> cut[k] == (if k < i then route[k] else route[k + 6]);
    }
  }

  /** The collapses of an index file's route: the trailing one gives the directory's route, the first-occurrence one also drops six characters. */
  lemma IndexRouteFacts(file: string, w: char)
    requires IsSourceIndexFile(file)
    ensures LiteralWildcard(w) ==>
              CollapseIndex(Substitute(RawRoute(file), w)) == "/" + Substitute(file[..|file| - 9], w) &&
              |CollapseIndexAsWritten(Substitute(RawRoute(file), w))| + 6 == |RawRoute(file)|
  {
    if LiteralWildcard(w) {
      var dir := file[..|file| - 9];
      var ext := if EndsWith(file, "/index.js") then "js" else "ts";
      assert file == dir + "/index." + ext;
      IndexFilePath(dir, ext);
      IndexRouteSubstituted(dir, w);
      var p := "/" + Substitute(dir, w);
      CollapseIndexSuffix(p);
      AsWrittenCutsSix(p);
    }
  }

  /** A route ending in `/index` holds an occurrence, so the first-occurrence collapse removes six characters. */
  lemma AsWrittenCutsSix(p: string)
    ensures |CollapseIndexAsWritten(p + "/index")| + 6 == |p + "/index"|
  {
    var s := p + "/index";
    assert s[|p|..|p| + 6] == "/index";
    assert OccursAt(s, "/index", |p|);
  }

  lemma DistPathFacts(file: string, ext: string)
    ensures (ext == "js" || ext == "ts") && EndsWith(file, "." + ext) ==>
              StripSourceExtension(file) == StripExtension(file, ext) && IsSourceIndexFile(file) == IsIndexFile(file, ext)
  {
    if (ext == "js" || ext == "ts") && EndsWith(file, "." + ext) {
      SourceAndDistPathsAgree(file, ext);
    }
  }

  // ---------------------------------------------------------------------
  // Properties of the templates

  /** A route without the wildcard is not rewritten: it is `/` plus the path without extension, collapsed if an index file. */
  lemma LiteralTemplate(file: string, w: char)
    requires !HasParam(RawRoute(file), w)
    ensures Template(file, w) ==
              if IsSourceIndexFile(file) then CollapseIndex(RawRoute(file)) else RawRoute(file)
    ensures w !in Template(file, w)
    ensures TemplateAsWritten(file, w) ==
              if IsSourceIndexFile(file) then CollapseIndexAsWritten(RawRoute(file)) else RawRoute(file)
    ensures w !in TemplateAsWritten(file, w)
  {
    SubstituteWithoutWildcard(RawRoute(file), w);
  }

  lemma SubstituteLeadingSlash(b: string, w: char)
    requires w != '/'
    ensures Substitute("/" + b, w) == "/" + Substitute(b, w)
  {
    assert "/" + b == [] + "/" + b;
    SubstituteAcrossSlash([], b, w);
  }

  lemma SubstitutePlainLastSegment(a: string, seg: string, w: char)
    requires w != '/' && w !in seg
    ensures Substitute(a + "/" + seg, w) == Substitute(a, w) + "/" + seg
  {
    SubstituteAcrossSlash(a, seg, w);
    SubstituteWithoutWildcard(seg, w);
  }

  lemma CollapseIndexSuffix(p: string)
    ensures CollapseIndex(p + "/index") == p
  {
    assert (p + "/index")[|p|..] == "/index";
  }

  lemma IndexFilePath(dir: string, ext: string)
    requires ext == "js" || ext == "ts"
    ensures IsSourceIndexFile(dir + "/index." + ext)
    ensures RawRoute(dir + "/index." + ext) == "/" + (dir + "/" + "index")
  {
    var file := dir + "/index." + ext;
    var suffix := "/index." + ext;
    assert EndsWith(file, suffix) by { assert file[|file| - |suffix|..] == suffix; }
    assert EndsWith(file, "." + ext) by { assert file[|file| - 3..] == "." + ext; }
    assert file[..|file| - 3] == dir + "/" + "index";
    if ext == "js" {
      assert suffix == "/index.js" && "." + ext == ".js";
    } else {
      assert suffix == "/index.ts" && "." + ext == ".ts";
      NotBothExtensions(file, ".ts", ".js");
    }
  }

  lemma IndexRouteSubstituted(dir: string, w: char)
    requires LiteralWildcard(w)
    ensures Substitute("/" + (dir + "/" + "index"), w) == ("/" + Substitute(dir, w)) + "/index"
  {
    assert w != '/' && w !in "index" by { LiteralWildcardIsNotALetterOrSeparator(w); }
    var sub := Substitute(dir, w);
    assert Substitute(dir + "/" + "index", w) == sub + "/" + "index" by {
      SubstitutePlainLastSegment(dir, "index", w);
    }
    assert Substitute("/" + (dir + "/" + "index"), w) == "/" + (sub + "/" + "index") by {
      SubstituteLeadingSlash(dir + "/" + "index", w);
    }
    assert "/" + (sub + "/" + "index") == ("/" + sub) + "/index";
  }

  /** `dir/index.ts` (or `.js`) yields the route of `dir` itself: `users/list/index.ts` gives `/users/list`. */
  lemma IndexFileRoute(dir: string, ext: string, w: char)
    requires ext == "js" || ext == "ts"
    requires LiteralWildcard(w)
    ensures Template(dir + "/index." + ext, w) == "/" + Substitute(dir, w)
    ensures |TemplateAsWritten(dir + "/index." + ext, w)| == |Template(dir + "/index." + ext, w)|
  {
    IndexFilePath(dir, ext);
    IndexRouteSubstituted(dir, w);
    CollapseIndexSuffix("/" + Substitute(dir, w));
  }

  /** A top-level `index.ts` has no `/index` suffix in its path and keeps the route `/index`. */
  lemma TopLevelIndexNotCollapsed(w: char)
    requires LiteralWildcard(w)
    ensures !IsSourceIndexFile("index.ts")
    ensures Template("index.ts", w) == "/index" && TemplateAsWritten("index.ts", w) == "/index"
  {
    assert RawRoute("index.ts") == "/index" by {
      assert StripSourceExtension("index.ts") == "index";
    }
    assert Substitute("/index", w) == "/index" by {
      LiteralWildcardIsNotALetterOrSeparator(w);
      SubstituteLeadingSlash("index", w);
      SubstituteWithoutWildcard("index", w);
    }
  }

  lemma CollapseAsWrittenLeadingIndex(dir: string)
    requires StartsWith(dir, "index")
    ensures CollapseIndexAsWritten("/" + dir + "/index") == dir[5..] + "/index"
  {
    var s := "/" + dir + "/index";
    assert s[0..6] == "/" + dir[..5] == "/index";
    assert OccursAt(s, "/index", 0);
    assert IndexOf(s, "/index") == Some(0);
    assert s[6..] == dir[5..] + "/index";
  }

  lemma TemplateAsWrittenOfIndexFile(file: string, w: char)
    requires IsSourceIndexFile(file)
    ensures TemplateAsWritten(file, w) == CollapseIndexAsWritten(Substitute(RawRoute(file), w))
  {
  }

  /**
   * The first-occurrence collapse cuts the wrong `/index` when the first
   * segment starts with `index`: `indexes/index.ts` becomes `es/index` (no
   * leading `/`), where the trailing collapse gives `/indexes`.
   */
  lemma IndexCollapseCutsEarlierSegment(dir: string, w: char)
    requires LiteralWildcard(w) && w !in dir && StartsWith(dir, "index")
    ensures TemplateAsWritten(dir + "/index.ts", w) == dir[5..] + "/index"
  {
    var file := dir + "/index.ts";
    var route := Substitute(RawRoute(file), w);
    assert IsSourceIndexFile(file) && route == "/" + dir + "/index" by {
      assert file == dir + "/index." + "ts";
      IndexRouteWithoutWildcard(dir, w);
    }
    assert CollapseIndexAsWritten(route) == dir[5..] + "/index" by {
      CollapseAsWrittenLeadingIndex(dir);
    }
    TemplateAsWrittenOfIndexFile(file, w);
  }

  /** With the trailing collapse an index file keeps its whole directory: `indexes/index.ts` gives `/indexes`. */
  lemma IndexCollapseKeepsDirectory(dir: string, w: char)
    requires LiteralWildcard(w) && w !in dir
    ensures Template(dir + "/index.ts", w) == "/" + dir
  {
    assert dir + "/index.ts" == dir + "/index." + "ts";
    IndexFileRoute(dir, "ts", w);
    LiteralWildcardIsNotALetterOrSeparator(w);
    SubstituteWithoutWildcard(dir, w);
  }

  lemma IndexRouteWithoutWildcard(dir: string, w: char)
    requires LiteralWildcard(w) && w !in dir
    ensures IsSourceIndexFile(dir + "/index." + "ts")
    ensures Substitute(RawRoute(dir + "/index." + "ts"), w) == "/" + dir + "/index"
    ensures Substitute(dir, w) == dir
  {
    IndexFilePath(dir, "ts");
    IndexRouteSubstituted(dir, w);
    SubstituteWithoutWildcard(dir, w);
  }

  /** A wildcard followed by a non-empty `/`-free run becomes `:` and the run, wildcards inside it included (`_a_b` gives `:a_b`). */
  lemma ParamSegment(x: string, w: char)
    requires x != [] && '/' !in x
    ensures Substitute([w] + x, w) == ":" + x
  {
    var seg := [w] + x;
    assert seg[1..] == x;
    RunLengthUnique(x, |x|);
    assert seg[1..1 + |x|] == x && seg[1 + |x|..] == [];
  }

  /** A wildcard that ends its segment is kept as it is (`x_` stays `x_`). */
  lemma TrailingWildcardKept(x: string, w: char)
    requires w != '/' && '/' !in x && w !in x
    ensures Substitute(x + [w], w) == x + [w]
  {
    var seg := x + [w];
    SubstituteOneSegment(seg, w);
    var i := FirstIndex(seg, w);
    assert seg[|x|] == w;
    assert i >= |x|;
  }

  /** Every segment is rewritten on its own: `/users/_id` gives `/users/:id`, `/_a/_b` gives `/:a/:b`. */
  lemma ParamAfterDirectory(dir: string, x: string, w: char)
    requires w != '/' && x != [] && '/' !in x
    ensures Substitute("/" + dir + "/" + [w] + x, w) == "/" + Substitute(dir, w) + "/:" + x
  {
    var seg := [w] + x;
    var sub := Substitute(dir, w);
    assert Substitute(dir + "/" + seg, w) == sub + "/" + (":" + x) by {
      SubstituteAcrossSlash(dir, seg, w);
      ParamSegment(x, w);
    }
    assert Substitute("/" + (dir + "/" + seg), w) == "/" + (sub + "/" + (":" + x)) by {
      SubstituteLeadingSlash(dir + "/" + seg, w);
    }
    assert "/" + dir + "/" + [w] + x == "/" + (dir + "/" + seg);
    assert "/" + (sub + "/" + (":" + x)) == "/" + sub + "/:" + x;
  }

  /**
   * For a path that ends in `.js` or `.ts`, src/routes.ts and dist/routes.js
   * (with that extension configured) derive the same template and the same
   * classification.
   */
  lemma SourceAndDistTemplatesAgree(file: string, ext: string, w: char)
    requires ext == "js" || ext == "ts"
    requires EndsWith(file, "." + ext)
    ensures RawRoute(file) == DistRawRoute(file, ext)
    ensures IsSourceIndexFile(file) == IsIndexFile(file, ext)
    ensures Template(file, w) == DistTemplate(file, w, ext)
    ensures TemplateAsWritten(file, w) == DistTemplateAsWritten(file, w, ext)
  {
    SourceAndDistPathsAgree(file, ext);
  }

  lemma SourceAndDistPathsAgree(file: string, ext: string)
    requires ext == "js" || ext == "ts"
    requires EndsWith(file, "." + ext)
    ensures StripSourceExtension(file) == StripExtension(file, ext)
    ensures IsSourceIndexFile(file) == IsIndexFile(file, ext)
  {
    if ext == "js" {
      assert "." + ext == ".js" && "/index." + ext == "/index.js";
      NotBothExtensions(file, "/index.js", "/index.ts");
    } else {
      assert "." + ext == ".ts" && "/index." + ext == "/index.ts";
      NotBothExtensions(file, "/index.ts", "/index.js");
      NotBothExtensions(file, ".ts", ".js");
    }
  }

  /** A path ending in one of two suffixes of the same length that differ in their second-to-last character does not end in the other. */
  lemma NotBothExtensions(file: string, ending: string, other: string)
    requires |ending| == |other| >= 3 && EndsWith(file, ending[|ending| - 3..])
    requires ending[|ending| - 2] != other[|other| - 2]
    ensures !EndsWith(file, other)
  {
    assert file[|file| - 2] == ending[|ending| - 2];
    if |other| <= |file| {
      assert file[|file| - |other|..][|other| - 2] == file[|file| - 2];
    }
  }
}
