/** The configuration defaults and the accepted wildcard characters (src/utils/constants.ts). */
module Constants {

  import opened Json

  /** DEFAULT_CONFIG: port 5000, apiDir `api`, wildcardChar `_`, collectionsDir `collections`. */
  const DefaultConfig: map<string, Json> :=
    map["port" := JNum(5000), "apiDir" := JStr("api"), "wildcardChar" := JStr("_"),
        "collectionsDir" := JStr("collections")]

  /** VALID_WILDCARD_CHARS: the thirteen one-character strings a wildcard may be. */
  const ValidWildcardChars: set<string> :=
    {"!", "@", "#", "$", "%", "^", "&", "*", "_", "-", "+", "=", "~"}

  /**
   * The members of ValidWildcardChars that are regular-expression
   * metacharacters when pasted unescaped into `new RegExp(w + '([^/]+)')`.
   */
  const RegexMetaWildcards: set<string> := {"$", "^", "*", "+"}
}
