/**
 * The configuration loader (src/config.ts): the defaults, shallow-merged
 * with the user's section of package.json when that section is truthy, then
 * a check that `wildcardChar` is one character from the allowed set. The
 * file content after JSON.parse is an input (`None` when the file cannot be
 * read or is not JSON), and `process.exit(1)` is an outcome.
 */
module Config {

  import opened Wrappers
  import opened Json
  import Constants
  import RouteTemplate

  /** The package.json key src/config.ts reads. */
  const ConfigKey: string := "fast-api-config"

  datatype Outcome =
    | Loaded(config: map<string, Json>, usedDefaultsNotice: bool)
    | Exited(code: int)
    /** A TypeError escapes: `wildcardChar` is null, so reading its length throws. */
    | Threw

  /**
   * `packageJson[key]` inside the try block: `None` for undefined, and also
   * when package.json is missing, is not JSON or is null (reading a property
   * of null throws, which the catch block treats alike).
   */
  function UserSection(packageJson: Option<Json>, key: string): (r: Option<Json>)
    ensures r.Some? ==> packageJson.Some? && packageJson.value.JObj? && key in packageJson.value.fields
    ensures packageJson.Some? && packageJson.value.JObj? && key in packageJson.value.fields ==>
              r == Some(packageJson.value.fields[key])
  {
    match packageJson
    case Some(JObj(fields)) => if key in fields then Some(fields[key]) else None
    case _ => None
  }

  /**
   * The configuration before validation: `{ ...DEFAULT_CONFIG, ...userConfig }`
   * when the section is truthy. A section object's keys win, the other
   * defaults stay and no other key appears; without a truthy section the
   * defaults are used as they are.
   */
  function Merged(packageJson: Option<Json>, key: string): (r: map<string, Json>)
    ensures "wildcardChar" in r
    ensures UserSection(packageJson, key).Some? && UserSection(packageJson, key).value.JObj? ==>
              var fields := UserSection(packageJson, key).value.fields;
              (forall k :: k in fields ==> k in r && r[k] == fields[k]) &&
              (forall k :: k in Constants.DefaultConfig && k !in fields ==> k in r && r[k] == Constants.DefaultConfig[k]) &&
              r.Keys == Constants.DefaultConfig.Keys + fields.Keys
    ensures UserSection(packageJson, key).None? || !Truthy(UserSection(packageJson, key).value) ==>
              r == Constants.DefaultConfig
  {
    match UserSection(packageJson, key)
    case Some(user) => if Truthy(user) then Constants.DefaultConfig + Spread(user) else Constants.DefaultConfig
    case None => Constants.DefaultConfig
  }

  /** The notice about defaults is logged when there is no truthy section. */
  predicate UsesDefaultsNotice(packageJson: Option<Json>, key: string) {
    match UserSection(packageJson, key)
    case Some(user) => !Truthy(user)
    case None => true
  }

  /** `wildcardChar.length !== 1 || !VALID_WILDCARD_CHARS.has(wildcardChar)` for a non-null value. */
  predicate InvalidWildcard(w: Json) {
    match w
    case JStr(s) => |s| != 1 || s !in Constants.ValidWildcardChars
    case _ => true
  }

  /** loadConfig. */
  function LoadConfig(packageJson: Option<Json>, key: string := ConfigKey): (r: Outcome)
    ensures r.Loaded? ==> r.config.Keys >= Constants.DefaultConfig.Keys
    ensures r.Loaded? ==>
              "wildcardChar" in r.config &&
              var w := r.config["wildcardChar"];
              w.JStr? && |w.s| == 1 && w.s in Constants.ValidWildcardChars
    ensures r.Exited? ==> r.code == 1
  {
    var config := Merged(packageJson, key);
    var w := config["wildcardChar"];
    if w.JNull? then Threw
    else if InvalidWildcard(w) then Exited(1)
    else Loaded(config, UsesDefaultsNotice(packageJson, key))
  }

  // ---------------------------------------------------------------------
  // Properties

  /** Without a readable, truthy section the defaults are returned and the notice is logged. */
  lemma DefaultsWithoutSection(packageJson: Option<Json>, key: string)
    requires UserSection(packageJson, key).None? || !Truthy(UserSection(packageJson, key).value)
    ensures LoadConfig(packageJson, key) == Loaded(Constants.DefaultConfig, true)
  {
    assert Constants.DefaultConfig["wildcardChar"] == JStr("_");
    assert "_" in Constants.ValidWildcardChars;
  }

  /** An empty section `{}` yields exactly the defaults, without the notice. */
  lemma EmptySectionGivesDefaults(key: string)
    ensures LoadConfig(Some(JObj(map[key := JObj(map[])])), key) == Loaded(Constants.DefaultConfig, false)
  {
    var pkg := Some(JObj(map[key := JObj(map[])]));
    assert UserSection(pkg, key) == Some(JObj(map[]));
    assert Merged(pkg, key) == Constants.DefaultConfig;
    assert Constants.DefaultConfig["wildcardChar"] == JStr("_");
    assert "_" in Constants.ValidWildcardChars;
  }

  /** A section object is merged over the defaults: its keys win, the other defaults stay. */
  lemma UserKeysWin(packageJson: Option<Json>, key: string, fields: map<string, Json>)
    requires UserSection(packageJson, key) == Some(JObj(fields))
    requires LoadConfig(packageJson, key).Loaded?
    ensures var c := LoadConfig(packageJson, key).config;
            (forall k :: k in fields ==> k in c && c[k] == fields[k]) &&
            (forall k :: k in Constants.DefaultConfig && k !in fields ==> k in c && c[k] == Constants.DefaultConfig[k]) &&
            c.Keys == Constants.DefaultConfig.Keys + fields.Keys
  {
  }

  /**
   * A truthy section that is not an object (a string or an array) spreads
   * only index keys, so it can never replace the default wildcard.
   */
  lemma NonObjectSectionKeepsWildcard(packageJson: Option<Json>, key: string)
    requires UserSection(packageJson, key).Some? && !UserSection(packageJson, key).value.JObj?
    ensures Merged(packageJson, key)["wildcardChar"] == Constants.DefaultConfig["wildcardChar"]
  {
    var user := UserSection(packageJson, key).value;
    SpreadOfNonObjectHasOnlyIndexKeys(user, "wildcardChar");
    assert "wildcardChar"[0] == 'w';
    assert "wildcardChar" !in Spread(user);
  }

  /** A wildcard string whose length is not 1 makes the process exit with code 1. */
  lemma WrongLengthExits(packageJson: Option<Json>, key: string, s: string)
    requires Merged(packageJson, key)["wildcardChar"] == JStr(s) && |s| != 1
    ensures LoadConfig(packageJson, key) == Exited(1)
  {
  }

  /** A one-character wildcard outside the allowed set makes the process exit with code 1. */
  lemma DisallowedCharExits(packageJson: Option<Json>, key: string, c: char)
    requires Merged(packageJson, key)["wildcardChar"] == JStr([c]) && [c] !in Constants.ValidWildcardChars
    ensures LoadConfig(packageJson, key) == Exited(1)
  {
  }

  /** Every member of the allowed set is accepted as the section's `wildcardChar`. */
  lemma EveryAllowedWildcardAccepted(key: string, w: string)
    requires w in Constants.ValidWildcardChars
    ensures var pkg := Some(JObj(map[key := JObj(map["wildcardChar" := JStr(w)])]));
            LoadConfig(pkg, key).Loaded? && LoadConfig(pkg, key).config["wildcardChar"] == JStr(w)
  {
    var pkg := Some(JObj(map[key := JObj(map["wildcardChar" := JStr(w)])]));
    assert UserSection(pkg, key) == Some(JObj(map["wildcardChar" := JStr(w)]));
    assert |w| == 1;
  }

  /**
   * A loaded wildcard that is not a regular-expression metacharacter is a
   * literal wildcard, the precondition of route derivation.
   */
  lemma LoadedWildcardIsLiteral(packageJson: Option<Json>, key: string)
    requires LoadConfig(packageJson, key).Loaded?
    requires LoadConfig(packageJson, key).config["wildcardChar"].s !in Constants.RegexMetaWildcards
    ensures var s := LoadConfig(packageJson, key).config["wildcardChar"].s;
            |s| == 1 && RouteTemplate.LiteralWildcard(s[0])
  {
    var s := LoadConfig(packageJson, key).config["wildcardChar"].s;
    assert s == [s[0]];
    RouteTemplate.LiteralWildcardChoice(s[0]);
  }
}
