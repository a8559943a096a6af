# simple-fake-api, modelled in Dafny

simple-fake-api is a small Express-based fake REST server. It turns a
directory tree of route files into URL routes. It generates mock
collections from JSON schemas. It also ships an environment-aware HTTP
client and a bundler helper that bakes the endpoint table into a build.
This project models the parts of it that decide something:

- **Route templates** (`RouteTemplate`): a route file's relative path
  becomes a URL template. A `/` is prefixed and the extension is stripped.
  Every wildcard-prefixed run becomes a `:param`. An index file loses its
  `/index`. Whether the raw path holds the wildcard decides whether the
  route is a literal route or a parameterised route.
- **Route mapping and registration**, in two versions. `Routes` follows
  src/routes.ts and scans `.js` and `.ts` files. `RoutesDist` follows
  dist/routes.js, which has a configurable extension and handles default
  exports. Both keep the exports that are HTTP verbs bound to functions.
  Both build two ordered lists. The registration step registers every
  literal route before any parameterised one, on an `App` object whose
  route list it extends.
- **Mock-data bounds**, in two versions. `DataGenerator` follows
  dist/collections/data-generator.js. Its bounds come from the schema
  first, then the caller, then the defaults 0 and 50; they are clamped
  and ordered. `DataGeneratorLegacy` follows
  src/collections/data-generator.ts, which sets both bounds to one count.
  The faker is a function parameter.
- **Collection cache** (`Collections.CollectionStore`): empty until the
  first load. It then holds the generated collections, or `{}` after any
  failure. Reset empties it again.
- **Configuration** (`Config`): the defaults are shallow-merged with the
  user's package.json section. The wildcard character is then validated.
- **HTTP client** (`HttpClient`):
  - the environment is picked from `resolveEnv` or NODE_ENV;
  - base URLs and paths are joined;
  - the JSON body wrapper;
  - endpoint and environment selection in `create`;
  - header precedence for requests.
- **Bundler table** (`Bundler`): the per-environment endpoint table built
  by `buildHttpForEnv`.

Shared helpers:

- `Wrappers`: Option and Result types.
- `Text`: string predicates, ASCII case mapping, first-occurrence replace, number formatting.
- `Json`: JSON values, JavaScript truthiness and object spread.
- `Constants`: the default configuration and the accepted wildcard characters.

Inputs that are I/O in the source are parameters of the model:

- the directory listing and the outcome of importing each route file;
- the collections directory and the parsed file contents;
- the parsed package.json;
- NODE_ENV and `resolveEnv`;
- the faker.

## Model

| member | source | states |
|---|---|---|
| RouteTemplate.LiteralWildcardChoice | src/utils/constants.ts:14-28 | the wildcards the route RegExp matches literally are exactly the accepted characters minus `$ ^ * +` |
| RouteTemplate.StripSourceExtension | src/routes.ts:25 | one trailing `.js` or `.ts` is removed; a path with neither is unchanged |
| RouteTemplate.StripExtension | dist/routes.js:42-43 | only an extension at the very end is removed; otherwise the path is unchanged |
| RouteTemplate.RawRoute | src/routes.ts:25 | the raw route is `/` followed by the path without its extension |
| RouteTemplate.DistRawRoute | dist/routes.js:43 | the raw route is `/` followed by the path without the configured extension |
| RouteTemplate.RunLength | src/routes.ts:27 | greedy `[^/]+` takes every character up to the next `/` or the end |
| RouteTemplate.Substitute | src/routes.ts:27 | the global replace keeps the route's length: each match swaps the wildcard for `:` |
| RouteTemplate.SubstituteOneSegment | src/routes.ts:27 | within a `/`-free segment only the first wildcard changes, to `:`, and only if it is not the segment's last character (`_a_b` gives `:a_b`) |
| RouteTemplate.SubstituteWithoutWildcard | src/routes.ts:27 | a route without the wildcard is not rewritten |
| RouteTemplate.SubstituteAcrossSlash | src/routes.ts:27 | a match never crosses a `/`: substitution works segment by segment |
| RouteTemplate.ParamSegment | src/routes.ts:27 | a wildcard followed by a non-empty `/`-free run becomes `:` and the run |
| RouteTemplate.TrailingWildcardKept | src/routes.ts:27 | a wildcard at the end of the route is left unchanged |
| RouteTemplate.ParamAfterDirectory | src/routes.ts:27 | `dir/_x` becomes `/dir/:x`, with `dir` substituted on its own |
| RouteTemplate.CollapseIndexAsWritten | src/routes.ts:29-31 | the first `/index` in the route is removed; a route without one is unchanged |
| RouteTemplate.CollapseIndex | src/routes.ts:29-31 | the corrected collapse: a trailing `/index` is removed, and nothing else changes |
| RouteTemplate.TemplateAsWritten | src/routes.ts:25-31 | as written: a non-index route keeps its raw length, an index route loses exactly one `/index` (six characters), and the wildcard appears only if the raw route holds it |
| RouteTemplate.Template | src/routes.ts:25-31 | corrected: a non-index route keeps its raw length, `dir/index.ts` gives `/` plus the substituted `dir`, and the wildcard appears only if the raw route holds it |
| RouteTemplate.DistTemplateAsWritten | dist/routes.js:42-48 | as written with the configured extension; on a `.js` or `.ts` path with that extension it equals the source template as written |
| RouteTemplate.DistTemplate | dist/routes.js:42-48 | corrected with the configured extension; on a `.js` or `.ts` path with that extension it equals the corrected source template |
| RouteTemplate.LiteralTemplate | src/routes.ts:25-31 | a literal route's template, as written and corrected, is its raw route, collapsed (first `/index`, resp. trailing `/index`) when it is an index file, and holds no wildcard |
| RouteTemplate.IndexFileRoute | src/routes.ts:29-31 | corrected, `dir/index.ext` yields `/` plus the substituted `dir`; as written the route has the same length |
| RouteTemplate.TopLevelIndexNotCollapsed | src/routes.ts:29-31 | a top-level `index.ts` has no `/index` suffix and stays `/index` |
| RouteTemplate.IndexCollapseCutsEarlierSegment | src/routes.ts:29-31 | as written, `dir/index.ts` with `dir` starting with `index` gives `dir` minus its first five characters plus `/index` |
| RouteTemplate.IndexCollapseKeepsDirectory | src/routes.ts:29-31 | corrected, `dir/index.ts` gives `/dir` |
| RouteTemplate.SourceAndDistTemplatesAgree | dist/routes.js:42-48 | for a `.js` or `.ts` path both versions derive the same raw route, classification and template |
| Routes.ExportDefinitions | src/routes.ts:36-46 | a module yields at most one definition per export, each with an accepted verb and the given route |
| Routes.FileLiterals | src/routes.ts:24-46 | a file adds literal definitions only if scanned, imported and wildcard-free; each has an accepted verb and the file's route, which holds no wildcard; at most one per export |
| Routes.FileParams | src/routes.ts:24-46 | a file adds parameterised definitions only if scanned, imported and holding the wildcard; each has an accepted verb and the file's route; at most one per export |
| Routes.ExportDefinitionsMembership | src/routes.ts:36-46 | a definition comes from a module iff some export's upper-cased name is an accepted verb and its value is a function |
| Routes.ExportDefinitionsShape | src/routes.ts:37-44 | every definition has an accepted upper-case verb and its file's route |
| Routes.PushDefinitions | src/routes.ts:36-54 | the export loop appends exactly the module's definitions, in export order |
| Routes.MapRoutes | src/routes.ts:13-63 | the two lists and the failures equal the per-file contributions concatenated in file order |
| Routes.MapRoutesAppend | src/routes.ts:24 | file order is kept: the lists of a concatenation are the concatenated lists |
| Routes.FailedImportContributesNothing | src/routes.ts:34-57 | a file whose import fails adds nothing, and the files around it are still processed |
| Routes.LiteralsMembership | src/routes.ts:26 | a definition is literal iff it comes from a scanned file whose raw route lacks the wildcard |
| Routes.ParamsMembership | src/routes.ts:26 | a definition is parameterised iff it comes from a scanned file whose raw route holds the wildcard |
| Routes.LiteralRoutesHaveNoWildcard | src/routes.ts:26-31 | a literal route never contains the wildcard |
| Routes.RegisterAll | src/routes.ts:78-84 | one loop appends a registration for each definition, in order, whose lower-cased method the app offers, with one log line each |
| Routes.AddExpressRoutes | src/routes.ts:72-94 | the app's routes grow by every supported literal, then every supported parameterised route; dist/routes.js:99-116 is the same code |
| Routes.SupportedMembership | src/routes.ts:80 | a definition is registered iff it is in the list and the app offers its lower-cased method |
| Routes.VerbIsExpressMethod | src/routes.ts:38 | every accepted verb, lower-cased, is a method an Express app offers |
| Routes.ExpressRegistersEveryDefinition | src/routes.ts:78-93 | on an Express app every mapped definition is registered |
| RoutesDist.Lookup | dist/routes.js:55 | a property read gives the value of a property with that key, or `undefined` when there is none |
| RoutesDist.Handlers | dist/routes.js:52-60 | a falsy module gives no handlers; a truthy default export wins; a module without `default` is its own handler object |
| RoutesDist.FileLiterals | dist/routes.js:41-80 | a file adds literal definitions only if it matches the extension, loads and is wildcard-free; each has an accepted verb and the file's route, which holds no wildcard |
| RoutesDist.FileParams | dist/routes.js:41-80 | a file adds parameterised definitions only if it matches the extension, loads and holds the wildcard; each has an accepted verb and the file's route |
| RoutesDist.MapRoutes | dist/routes.js:11-91 | with extension `js` by default, the lists and failures equal the per-file contributions of the files with that extension |
| RoutesDist.MapRoutesAppend | dist/routes.js:41 | file order is kept |
| RoutesDist.FailedLoadContributesNothing | dist/routes.js:50-85 | a failing load adds nothing and the loop continues |
| RoutesDist.OtherExtensionsIgnored | dist/routes.js:16-17 | files with another extension contribute nothing |
| RoutesDist.LiteralsMembership | dist/routes.js:44-80 | a definition is literal iff the handler object of a wildcard-free file has a verb handler that yields it |
| RoutesDist.ParamsMembership | dist/routes.js:44-80 | a definition is parameterised iff it comes from a file whose raw route holds the wildcard |
| RoutesDist.LoadersDisagreeOnFalsyDefault | dist/routes.js:55-59 | with a falsy, non-nullish default export, `import` uses the module and `require` yields nothing |
| RoutesDist.AgreesWithSourceLoader | dist/routes.js:41-80 | for an object module without a default export, both versions yield the same definitions |
| DataGenerator.NumericValue | dist/collections/data-generator.js:31-32 | a number is its own floor; strings, arrays and objects have no modelled numeric value |
| DataGenerator.Effective | dist/collections/data-generator.js:24-29 | the bound is the schema's own when present, else the caller's, else the default |
| DataGenerator.Normalize | dist/collections/data-generator.js:31-32 | the clamped bound is at least 0 and at least the input; a non-negative bound is unchanged and a negative bound becomes 0 |
| DataGenerator.Bounds | dist/collections/data-generator.js:31-34 | 0 <= min <= max; max is the clamped maximum and is never raised; min is lowered to max only when larger |
| DataGenerator.BoundedCopy | dist/collections/data-generator.js:21-41 | a non-array schema is copied unchanged; an array schema fails iff a bound has no numeric value, and otherwise gets 0 <= minItems <= maxItems while keeping every other property |
| DataGenerator.ExtraGuard | dist/collections/data-generator.js:48-50 | the guard keeps the keys and every property but `minItems`; it leaves numeric bounds of an array schema ordered, and changes nothing when they already are |
| DataGenerator.ResolverInput | dist/collections/data-generator.js:21-51 | the copy handed to the faker is exactly the copy the bounds block produced |
| DataGenerator.Wrap | dist/collections/data-generator.js:53 | an array result is returned as is, anything else in a one-element array |
| DataGenerator.NonArraySchemaUnchanged | dist/collections/data-generator.js:21-23 | a non-array schema reaches the faker as an unchanged copy |
| DataGenerator.ArraySchemaBounds | dist/collections/data-generator.js:21-41 | for an array schema the copy keeps every other property and carries the ordered effective bounds |
| DataGenerator.BoundsAreOrdered | dist/collections/data-generator.js:33-40 | the faker always receives 0 <= minItems <= maxItems |
| DataGenerator.CallerBoundsUsed | dist/collections/data-generator.js:26-29 | without schema bounds the caller's bounds, else 0 and 50, are passed on |
| DataGenerator.SchemaBoundsWin | dist/collections/data-generator.js:24-29 | ordered schema bounds are kept over the caller's |
| DataGenerator.ExtraGuardIsNoOp | dist/collections/data-generator.js:48-50 | the second guard never changes a copy the bounds block produced |
| DataGenerator.Generate | dist/collections/data-generator.js:19-54 | no result without a copy or when the faker rejects; otherwise the faker's list, or its single value wrapped |
| DataGeneratorLegacy.ResolverInput | src/collections/data-generator.ts:13-21 | an array schema's copy gets both bounds set to the count, overwriting its own; any other schema is an unchanged copy |
| DataGeneratorLegacy.Generate | src/collections/data-generator.ts:13-28 | a rejected faker rejects; otherwise the result is the faker's list, or its value wrapped |
| DataGeneratorLegacy.AgreesWithNewerOnUnboundedSchema | src/collections/data-generator.ts:18-21 | without schema bounds, count `n` gives the same copy as the newer generator called with `n` and `n` |
| DataGeneratorLegacy.AgreesWithNewerOnNonArraySchema | src/collections/data-generator.ts:18 | both versions pass a non-array schema through unchanged |
| DataGeneratorLegacy.DiffersFromNewer | src/collections/data-generator.ts:19-20 | the older version overwrites schema bounds; the newer one keeps them |
| DataGeneratorLegacy.NegativeCountNotClamped | src/collections/data-generator.ts:19-20 | a negative count reaches the faker unchanged; the newer version passes 0 |
| Collections.CollectionName | src/collections/index.ts:40 | the collection name plus `.json` is the entry name |
| Collections.CollectionNameInjective | src/collections/index.ts:38-40 | distinct `.json` entries give distinct collection names |
| Collections.CollectionStore.LoadCollections | src/collections/index.ts:17-66 | a filled cache is returned unchanged; otherwise the cache becomes the fresh load of `cwd/apiDir/folder`, which is returned |
| Collections.CollectionStore.ResetCollectionsCache | src/collections/index.ts:72-74 | the cache is empty again, so the next load reads |
| Collections.FailureIsFinal | src/collections/index.ts:37-64 | once an entry fails, the whole load fails |
| Collections.LoadSucceedsIff | src/collections/index.ts:37-55 | the load succeeds iff every `.json` entry can be read, parsed and generated |
| Collections.LoadedKeys | src/collections/index.ts:37-58 | a successful load has exactly one key per `.json` entry |
| Collections.LoadedValues | src/collections/index.ts:44-53 | each key holds its entry's generated data |
| Collections.FailedLoadIsEmpty | src/collections/index.ts:60-65 | an unreadable directory or a failing entry leaves `{}` |
| Collections.NoJsonEntries | src/collections/index.ts:38 | a directory without `.json` entries loads as `{}` |
| Config.UserSection | src/config.ts:17-19 | the section is found iff package.json is a readable JSON object with the key, and then it is that key's value |
| Config.Merged | src/config.ts:15-23 | the merged configuration has a `wildcardChar`; a section object's keys win, the other defaults stay and no other key appears; without a truthy section it is the defaults |
| Config.LoadConfig | src/config.ts:11-46 | a returned configuration has every default key and a one-character wildcard from the accepted set; an exit has code 1 |
| Config.DefaultsWithoutSection | src/config.ts:24-33 | without a readable, truthy section the defaults are returned and the notice is logged |
| Config.EmptySectionGivesDefaults | src/config.ts:22-23 | an empty section yields exactly the defaults |
| Config.UserKeysWin | src/config.ts:23 | user keys override, the other defaults stay, and no other keys appear |
| Config.NonObjectSectionKeepsWildcard | src/config.ts:22-23 | a truthy section that is a string or an array cannot replace the default wildcard |
| Json.SpreadOfNonObjectHasOnlyIndexKeys | src/config.ts:23 | spreading a non-object copies only keys made of decimal digits |
| Json.IndexKeysAreDigits | src/config.ts:23 | the keys an array spreads are its decimal indices |
| Json.CharKeysAreDigits | src/config.ts:23 | the keys a string spreads are its decimal indices |
| Config.WrongLengthExits | src/config.ts:38-43 | a wildcard whose length is not 1 exits with code 1 |
| Config.DisallowedCharExits | src/config.ts:38-43 | a one-character wildcard outside the set exits with code 1 |
| Config.EveryAllowedWildcardAccepted | src/utils/constants.ts:14-28 | every accepted character is accepted as the wildcard |
| Config.LoadedWildcardIsLiteral | src/config.ts:38-45 | a loaded wildcard that is not a regex metacharacter satisfies the route mapper's precondition |
| HttpClient.PickEnv | src/http-client.ts:44-51 | `resolveEnv` wins; otherwise lower-cased NODE_ENV prefixes `prod`, `stag` and `test` pick their environments, in that order, else dev |
| HttpClient.PickEnvIgnoresCase | src/http-client.ts:46 | NODE_ENV is read case-insensitively |
| HttpClient.PickEnvDefaultsToDev | src/http-client.ts:46-50 | an unset NODE_ENV, or one starting (in any case) with none of `prod`, `stag`, `test`, gives dev |
| HttpClient.DropLeadingSlash | src/http-client.ts:55 | one leading `/` is removed, if there is one |
| HttpClient.JoinUrl | src/http-client.ts:53-57 | the URL starts with the base and one `/`, ends with `/` and the path, and is one character longer than both for each side without a slash at the join |
| HttpClient.JoinUrlOneSeparator | src/http-client.ts:53-57 | a `/` on either side of the join is not doubled |
| HttpClient.JoinUrlRemovesAtMostOne | src/http-client.ts:53-57 | only one `/` is removed on each side |
| HttpClient.AsJsonInit | src/http-client.ts:59-66 | a JSON body gets `content-type: application/json` unless one is set, and a non-string body is stringified; other bodies pass through with unchanged headers |
| HttpClient.SelectConfig | src/http-client.ts:74-75 | the endpoint's config is the environment's, else the fallback's (`default` or dev); none when neither exists |
| HttpClient.Create | src/http-client.ts:70-103 | an unknown endpoint and a missing configuration are errors with their messages; a client has the chosen base URL and the merged headers |
| HttpClient.RequestAsWritten | src/http-client.ts:79-84 | the URL joins base and path; plain-record request headers override the client's, while a `Headers` instance or no headers leaves exactly the client's |
| HttpClient.SendAsWritten | src/http-client.ts:86-99 | each helper sends its verb; post, put and patch send exactly the client's headers and the wrapper's body |
| HttpClient.Request | dist/http-client.js:53-62 | the URL joins base and path; request headers of any form override the client's, and the client's headers fill the rest |
| HttpClient.Send | dist/http-client.js:63-74 | each helper sends its verb; post, put and patch go through the JSON wrapper, whose headers reach the request |
| HttpClient.HeaderPrecedence | src/http-client.ts:77-81 | for each header: the request's value, else the options', else the environment's |
| HttpClient.JsonHelpersSetContentType | src/http-client.ts:86-87 | post, put and patch with a JSON body send a JSON content type unless the request sets one |
| HttpClient.JsonHelperAsWrittenDropsContentType | src/http-client.ts:81 | as written, spreading the wrapper's headers object sends no content type |
| HttpClient.PlainHeadersAgree | src/http-client.ts:81 | with plain-record headers the as-written and corrected requests agree |
| HttpClient.BodilessHelpersAgree | src/http-client.ts:93-96 | get, delete, head and options with plain-record headers send the same request as written and corrected |
| HttpClient.RequestsUseSelectedBaseUrl | src/http-client.ts:80-90 | a created client sends to the selected configuration's base URL |
| Bundler.ChooseEnv | src/utils/bundler.ts:50 | the environment's entry, else `prod`, else `staging`; none iff all three are absent |
| Bundler.EntryFor | src/utils/bundler.ts:47-54 | in development the local URL with no headers; otherwise the chosen base URL and headers, or the error naming the endpoint and environment |
| Bundler.BuildHttpForEnv | src/utils/bundler.ts:42-58 | the table built endpoint by endpoint, or the first endpoint's error |
| Bundler.FailureIsFinal | src/utils/bundler.ts:51-53 | once an endpoint fails, the result is that error |
| Bundler.TableKeys | src/utils/bundler.ts:46-57 | the table's names are exactly the input endpoint names |
| Bundler.DevTable | src/utils/bundler.ts:45-48 | in development every endpoint points at `http://localhost:<port>` with no headers |
| Bundler.TableSucceedsIff | src/utils/bundler.ts:46-56 | the table is built iff every endpoint's entry succeeds |
| Bundler.TableEntry | src/utils/bundler.ts:54 | an endpoint listed once maps to its own entry |
| Bundler.NoEndpointsGivesEmptyTable | src/utils/bundler.ts:44 | an absent `http.endpoints` gives an empty table |

## Left out

- File enumeration, reading files, `readdirSync`, dynamic `import`/`require` and ts-node registration are inputs. For `ts` the dist loader is always taken to use `require`: a failing `createRequire`, after which dist/routes.js:52-60 falls back to `import`, is not modelled, and a missing ts-node only shows up as failed loads. `glob` is modelled as a filter on relative paths: the extension, no dot segment, not a direct child of `collections/`.
- Routes.MapRoutes: requires a wildcard that is not a regular-expression metacharacter. With `*` or `+` the source's `RegExp` constructor throws outside the try block; `$` and `^` act as anchors. JavaScript regex semantics are not modelled.
- RoutesDist.MapRoutes: the same wildcard precondition. An extension holding regex metacharacters is not modelled either.
- Routes.MapRoutes, RoutesDist.MapRoutes: routes use the corrected trailing `/index` collapse (RouteTemplate.Template, RouteTemplate.DistTemplate), not the first-occurrence `replace('/index', '')` of src/routes.ts:30 and dist/routes.js:47. The two differ only when `/index` also occurs earlier in an index file's route, as in `indexes/index.ts` (see Findings).
- Routes.LiteralsMembership, Routes.ParamsMembership: the route in each definition is RouteTemplate.Template, with the corrected collapse above.
- RoutesDist.LiteralsMembership, RoutesDist.ParamsMembership: the route in each definition is RouteTemplate.DistTemplate, with the corrected collapse above.
- RouteTemplate.LiteralTemplate: states both collapses; which one the route mapper uses is the corrected one, as above.
- RouteTemplate.IndexFileRoute: `/` plus the substituted directory is the corrected route. As written only the length agrees: a directory starting with `index` loses those letters instead (RouteTemplate.IndexCollapseCutsEarlierSegment).
- Module exports are a sequence of key/value pairs in `Object.keys` order. Duplicate keys, getters and properties of function-valued modules are not modelled. A module value of another shape yields no handlers.
- Case mapping covers ASCII letters only.
- DataGenerator.NumericValue: NaN, fractional numbers, `undefined` and numeric strings are not modelled. Bounds are integers, and a schema bound of another kind gives no result.
- The faker (JSONSchemaFaker) is a function parameter. Its randomness and its reading of the schema are not modelled.
- Collections.CollectionStore.LoadCollections: `path.join` is plain concatenation with `/`, without normalisation. Concurrent first calls are not modelled.
- Collections.CollectionStore.LoadCollections: the collection loader uses the older generator, as src/collections/index.ts imports it.
- Config: the package.json key is a parameter, `fast-api-config` by default. The source and its tests disagree on this key.
- Config.LoadConfig: a merged `wildcardChar` of `null` makes the length read throw. This is the `Threw` outcome; the model states nothing more about it.
- The newer generator's default minimum is 0, as in dist/collections/data-generator.js:3. A test there expects 50; the model follows the code.
- `fetch`, `FormData` and `JSON.stringify` are left out: a request is the URL and init it would hand to `fetch`, and stringified text is a marker on the value.
- HttpClient.Request, HttpClient.Send: follow dist/http-client.js:53-74, which merges request headers through the `Headers` API. src/http-client.ts:81 spreads them instead, so its post, put and patch send only the client's headers; that behaviour is HttpClient.RequestAsWritten and HttpClient.SendAsWritten (see Findings).
- A request's `init.headers` is absent, a plain record or a `Headers` instance. The array-of-pairs form is not modelled; the spread at src/http-client.ts:81 would turn it into index keys.
- HttpClient.Request: header names are taken as already lower-case. The `Headers` object's case-insensitive lookup and the other RequestInit members are not modelled.
- HttpClient.SelectConfig: a `default` naming an environment is read from the endpoint definition's `default` field. An environment entry literally called `default` is not modelled.
- HttpClient.PickEnv: NODE_ENV and the `resolveEnv` result are parameters.
- Bundler.BuildHttpForEnv: `cfg.port` is an integer. Environment entries that are not objects are not modelled.
- Loading the bundler's config file and `setupSimpleFakeApiHttpRoutes` are not part of this model.
- Console logging is modelled only as the registration log lines and the defaults notice flag.
- Express itself, CORS, `listen` and the server bootstrap are not part of this model.

## Findings

| source | as written | input that shows it | evidently intended | confidence | as-written member | corrected member |
|---|---|---|---|---|---|---|
| src/routes.ts:29-31 | an index file's route loses the first `/index` anywhere in it (dist/routes.js:46-48 does the same) | `indexes/index.ts` gives the route `es/index` | remove the trailing `/index`, giving `/indexes` | not executed | RouteTemplate.IndexCollapseCutsEarlierSegment | RouteTemplate.IndexCollapseKeepsDirectory |
| src/http-client.ts:81 | the request spreads `init.headers`, but the JSON helpers pass a `Headers` object (src/http-client.ts:60-65, 86-87), and spreading it copies nothing | `post('/a', {a: 1})` on a client without a content-type header sends no `content-type` | the request headers override the client's whatever their form, as dist/http-client.js:56-59 does | not executed | HttpClient.JsonHelperAsWrittenDropsContentType | HttpClient.JsonHelpersSetContentType |
