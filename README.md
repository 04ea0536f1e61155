# picobrew CLI, modelled in Dafny

A model of the deterministic core of the `picobrew` command-line tool. The tool
exports recipes and brewing sessions from the vendor's BrewHouse web service into
local files. The model covers:

- **`recipes`**: the usage check, and the single-recipe and `--all` exports. For
  each export it models the json/beerxml format dispatch and the naming rule of
  `writeOutputFile`: explicit file name or recipe name, the extension found by
  `/(?:\.([^.]+))?$/`, the `.json`/`.xml` suffix, and the format/extension
  conflict.
- **`sessions`**: the choice between the machine-sessions and the
  recent-sessions request, and the loop over `SessionViews`. Each session gets a
  summary file and a data-log file under `<folder>/<Alias> <MachineType>/`.
- **`ensureDirectoryExistence`**: recursive creation of missing directories
  (both identical copies).
- **The request builders** of both commands.
- **`credentials()` and `setupCookieJar`**: the keychain lookup, the prompt
  guard, and the `.ASPXAUTH` cookie.
- **The `got` handler** that renames and rewords HTTP errors.

Files:

- `wrappers.dfy`: Option, Result and pass/fail outcomes.
- `js.dfy`: the JavaScript values the commands handle. It covers property access
  (a TypeError on undefined and null), truthiness and template-literal conversion.
- `paths.dfy`: a path string as its `/`-separated components.
- `filesystem.dfy`: the `Disk` class, with a set of directories, a map of files
  and a ghost log of writes. `FsState`/`WriteEffect`/`ApplyWrites` state a
  sequence of writes as a function.
- `picobrew.dfy`: the extended `got` instance and its handler.
- `credentials.dfy`: the `Keychain` class, the guard as written and as intended,
  and the cookie jar.
- `recipes.dfy`, `sessions.dfy`: the two commands.

The network is a parameter `send: Request -> Reply` (`Reply` is a response or a
thrown HTTP error). Each export is specified by a function giving the files it
writes and how it ends; the imperative methods are proved to perform exactly those
writes (`disk.State() == ApplyWrites(old(disk.State()), …)`).

Points of the code's behaviour that are easy to miss:

- The recipe format/extension conflict is detected inside `writeOutputFile`,
  after the recipe has been fetched (`Recipes.ConflictFoundAfterFetch`).
- The recipe list request posts the form field `option=getRecipes`, and
  `UseMetric` is sent as the string `"false"`.
- `credentials()` never prompts, because of the guard at line 14 (see Findings).
  Both commands' `Run` model the code as written. With an empty keychain they
  fail with a TypeError before any request. Otherwise they use the first stored
  entry, and the keychain is never written.
- `RunIntended` of each command runs over the corrected `credentials()`
  (`Credentials.Keychain.CredentialsIntended`), with the prompt answers as inputs.

## Model

| member | source | states |
|---|---|---|
| Js.Get | src/commands/recipes.ts:104 | property access fails (TypeError) exactly on undefined and null; an object yields the key's value or undefined; any other value yields undefined |
| Js.GetPath | src/commands/recipes.ts:104 | a chain `v.k1.k2…` yields `v` for no keys and fails as soon as an intermediate value is undefined or null |
| Js.Truthy | src/clients/picobrew.ts:29 | a truthy value is neither undefined nor null, and every array and object is truthy (an empty array too) |
| Js.Display | src/commands/sessions.ts:77 | `${v}` prints a string as itself, undefined as `undefined`, a number with a leading `-` exactly when negative, and an object as `[object Object]` |
| Js.NonNullishPrefix | src/commands/recipes.ts:84-87 | the entries a `forEach` processes before reading a property of an undefined or null entry throws: all before it are present and the one at it is undefined or null |
| Paths.Segments | src/commands/recipes.ts:145 | a path string splits at `/` into at least one component, none containing `/` |
| Paths.SegmentsOfSlashJoin | src/commands/recipes.ts:145 | `${folder}/${name}` has the components of the folder followed by those of the name |
| Paths.SegmentsOfName | src/commands/sessions.ts:128 | a name without `/` is a single component |
| Paths.JoinSegmentsOfSegments | src/commands/recipes.ts:145 | joining the components of a path with `/` gives back the path |
| Paths.SegmentsOfJoinSegments | src/commands/recipes.ts:145 | splitting a `/`-join of slash-free components gives back the components |
| FileSystem.Dirname | src/commands/recipes.ts:155 | `path.dirname` drops the last component; the empty path is its own parent |
| FileSystem.Disk.ExistsSync | src/commands/recipes.ts:156 | a directory exists when it is the current directory or was created |
| FileSystem.Disk.MkdirSync | src/commands/recipes.ts:160 | creates the directory exactly when it is missing and its parent exists; nothing else changes |
| FileSystem.Disk.EnsureDirectoryExistence | src/commands/recipes.ts:154-161 | afterwards every proper prefix of the path exists; exactly the ancestors of the path are added; nothing changes when the parent already existed, so a second call is a no-op; files untouched (identical copy at src/commands/sessions.ts:141-148) |
| FileSystem.Disk.WriteFile | src/commands/recipes.ts:146-150 | the write lands exactly when the parent exists and the target is not a directory; a failed write is only logged, the files stay as they were |
| FileSystem.WriteLands | src/commands/recipes.ts:145-146 | after creating the ancestors, writing a file stores it, keeps the directory set closed and adds only ancestors of the file |
| FileSystem.WriteEffectIdempotent | src/commands/recipes.ts:145-146 | writing the same body to the same file twice leaves the same directories and files as writing it once |
| FileSystem.ApplyWritesLog | src/commands/recipes.ts:146 | a sequence of writes is recorded in the order it was issued |
| FileSystem.ApplyWritesAppend | src/commands/sessions.ts:93-98 | issuing two batches of writes one after the other is issuing their concatenation |
| Picobrew.Extend | src/clients/picobrew.ts:6-11 | the path is appended to `https://picobrew.com/`, the `picobrew-cli/0.1.0` user agent goes first, the method is POST and the request is not a stream |
| Picobrew.HasBody | src/clients/picobrew.ts:29 | `response && response.body` holds only for a response whose body is neither undefined nor null, and always for an object or array body |
| Picobrew.NicerMessage | src/clients/picobrew.ts:31 | the message is the body's `message`, then ` (`, the status code in decimal, and ` status code)` |
| Picobrew.Post | src/clients/picobrew.ts:6-37 | a post succeeds exactly when the transport answers the extended request with a success, returning that answer; a failure keeps the transport's response |
| Picobrew.Handle | src/clients/picobrew.ts:13-37 | a stream request goes straight to `next`; a success is returned unchanged; a failure is rethrown, never turned into success, with the same response; only name and message change, to `PicobrewError` and `<body.message> (<status> status code)`, exactly when the response has a truthy body |
| Credentials.PromptGuard | src/credentials.ts:14 | the guard as written is never true: false for every array, a TypeError for null |
| Credentials.IntendedPromptGuard | src/credentials.ts:14 | the intended guard prompts exactly when the result is null or does not hold exactly one entry |
| Credentials.EmptyKeychainSkipsPrompt | src/credentials.ts:14 | with no stored entry the written guard does not prompt, where the intended one does |
| Credentials.Store | src/credentials.ts:22 | `setPassword` makes the account map to the new token, leaves every other account as it was, and adds an entry only for a new account |
| Credentials.IntendedLogin | src/credentials.ts:8-28 | the intended result always carries a password: the single stored entry, otherwise the answers to the prompts |
| Credentials.Keychain.FindCredentials | src/credentials.ts:11 | the stored entries of the service, as an array |
| Credentials.Keychain.SetPassword | src/credentials.ts:22 | the keychain becomes `Store` of the old entries |
| Credentials.Keychain.Credentials | src/credentials.ts:8-28 | as written: succeeds exactly when an entry is stored, returning the first entry's account and password; with none it fails with a TypeError; the keychain is only read |
| Credentials.Keychain.PromptForCredentials | src/credentials.ts:16-27 | the prompt branch as written stores the entered token under the entered user id but returns no password |
| Credentials.Keychain.CredentialsIntended | src/credentials.ts:8-28 | as intended: the one stored entry is used as is; otherwise the answers are stored and returned, and the returned password is the one the keychain now holds |
| Credentials.SessionText | src/credentials.ts:34 | `${session}` is the token itself, or the text `undefined` when there is none |
| Credentials.SetupCookieJar | src/credentials.ts:30-36 | the jar holds one cookie, scoped to the service's base URL, whose `.ASPXAUTH` value is the session (`undefined` when there is none) |
| Credentials.PromptedLoginSendsUndefined | src/credentials.ts:19-34 | a login from the written prompt branch authenticates with the text `undefined`, never with the entered token |
| Recipes.ExtOf | src/commands/recipes.ts:125-131 | no extension exactly when the name has no dot or ends with one; otherwise the extension is the non-empty, dot-free text after the last dot |
| Recipes.RegexCaptureIsExtOf | src/commands/recipes.ts:125-131 | the left-to-right scan of `/(?:\.([^.]+))?$/` captures exactly `ExtOf` of every name |
| Recipes.ExtOfAppended | src/commands/recipes.ts:134-136 | appending `.` and a dot-free suffix makes that suffix the extension, whatever dots the name holds |
| Recipes.ExplicitExt | src/commands/recipes.ts:125-131 | only a given, non-empty file name is inspected; the extension found is a non-empty, dot-free tail of it |
| Recipes.ResolveFilename | src/commands/recipes.ts:123-136 | an explicit name with an extension is the file name as it is; any other name ends with the format's suffix |
| Recipes.ExplicitName | src/commands/recipes.ts:123-127 | `output_filename` counts exactly when it is given and non-empty |
| Recipes.ResolveFilenameTable | src/commands/recipes.ts:122-136 | without an explicit name the recipe name gets `.json`/`.xml`; an explicit name with an extension is kept verbatim; one without gets the suffix |
| Recipes.Conflict | src/commands/recipes.ts:138-141 | only a found `xml` or `json` extension can conflict, only with format json or beerxml, and only when it names the other format |
| Recipes.ResolvedExtension | src/commands/recipes.ts:134-136 | the written file always has an extension: the explicit one, else `json` for format json and `xml` otherwise |
| Recipes.ConflictIsDisagreement | src/commands/recipes.ts:138-141 | a conflict is exactly an `xml`/`json` extension naming the other of the two formats than the one requested; case-sensitive; nothing else conflicts |
| Recipes.OutputFileUnderFolder | src/commands/recipes.ts:145 | the file is the resolved name's components below the output folder |
| Recipes.DefaultOutputPath | src/commands/recipes.ts:22-35 | with default flags a recipe goes to `recipes/<name>.xml` |
| Recipes.ExplicitNameSharedByAll | src/commands/recipes.ts:123-145 | with an explicit file name every recipe resolves to the same file |
| Recipes.WriteOutputFile | src/commands/recipes.ts:122-151 | fails with the conflict message, touching nothing, exactly on a conflict; otherwise the disk is the old one after writing the body to the resolved file |
| Recipes.FetchAllRecipes | src/commands/recipes.ts:163-171 | posts the form `option=getRecipes` to the recipe list endpoint, answered as JSON |
| Recipes.FetchRecipeJSON | src/commands/recipes.ts:173-182 | the account in the query, the recipe id as `RecipeGUID` and `UseMetric` the string `"false"` in the body, answered as JSON |
| Recipes.JsonExport | src/commands/recipes.ts:99-111 | sends the recipe request only; writes exactly when it succeeds, the response body pretty-printed; every failure, the conflict included, becomes "failed to fetch json recipe" and writes nothing |
| Recipes.BeerXmlExport | src/commands/recipes.ts:112-119 | sends the recipe request first, then at most the conversion; a failed recipe request is rethrown as it is; a write means success, two requests, and the body of the conversion response as raw text; a conflict writes nothing |
| Recipes.RecipeExport | src/commands/recipes.ts:98-120 | json and beerxml begin with the recipe request; any other format sends and writes nothing; a write happens exactly on success of json or beerxml |
| Recipes.FetchRecipeXML | src/commands/recipes.ts:184-195 | posts `recipe=` and the recipe's JSON as a form-encoded body, answered as text |
| Recipes.RecipeExportWrites | src/commands/recipes.ts:98-120 | json writes the fetched recipe pretty-printed under `VM.Recipe.Name`; beerxml writes the body of the conversion response, after two requests, to the output file of `VM.Recipe.Name`; any other format sends and writes nothing; a write means success |
| Recipes.ConflictFoundAfterFetch | src/commands/recipes.ts:99-117 | a conflicting format and file name still send the recipe request, then fail without writing |
| Recipes.ExportRecipeToFile | src/commands/recipes.ts:98-120 | performs exactly the writes of `RecipeExport` and ends with its outcome |
| Recipes.ExportsOf | src/commands/recipes.ts:84-87 | one export per listed recipe (the order is `Recipes.ExportsOfAt`) |
| Recipes.ExportsOfAt | src/commands/recipes.ts:84-87 | entry i of the exports is the export of the i-th listed recipe, under that entry's `GUID` |
| Recipes.GuidOf | src/commands/recipes.ts:85 | the id sent for an entry is `${recipe.GUID}`, the string itself when `GUID` is a string |
| Recipes.ExportWritesOutputFile | src/commands/recipes.ts:104-117 | every file an export writes is the output file of some recipe name |
| Recipes.AllModeWritesOneFile | src/commands/recipes.ts:84-87 | in `--all` mode with an explicit file name, every write goes to the same file |
| Recipes.RecipeList | src/commands/recipes.ts:77-84 | the list is present exactly when the list request succeeds with an array body, and it is that array's entries |
| Recipes.ExportWith | src/commands/recipes.ts:72-95 | one recipe: exactly its export's writes and outcome; `--all`: a failed or non-array list fails with "failed to fetch json recipe" and writes nothing, otherwise the entries before the first undefined or null one are exported in order, and the command fails exactly when there is such an entry |
| Recipes.ExportAll | src/commands/recipes.ts:75-92 | exports the recipes before the first undefined or null entry, in order, and fails with "failed to fetch json recipe" exactly when there is such an entry |
| Recipes.Run | src/commands/recipes.ts:53-96 | as written: without `recipeId` and `--all` fails with the usage message before anything else; an empty keychain fails with the TypeError of `credentials()` and writes nothing; otherwise does `ExportWith` with the first stored entry's account and cookie; the keychain is never written |
| Recipes.RunIntended | src/commands/recipes.ts:53-96 | over the corrected `credentials()`: the same usage check; the keychain holds the prompt answers unless exactly one entry was stored, in which case it is unchanged; then `ExportWith` with the intended login |
| Sessions.MachineName | src/commands/sessions.ts:77 | the folder name is the displayed `Alias`, a space and the displayed `MachineType`, with no `/` when neither has one |
| Sessions.SummaryName | src/commands/sessions.ts:78 | the displayed id followed by `-session.json`; no `/` when the id has none |
| Sessions.DatalogName | src/commands/sessions.ts:109 | the displayed id followed by `-datalog.` and the format; no `/` when neither has one |
| Sessions.OutputFileLayout | src/commands/sessions.ts:127-133 | with plain names, a session file is `[folder, machine, file]` |
| Sessions.OutputFileInjective | src/commands/sessions.ts:128-133 | two file names in one machine folder give the same file exactly when they are equal |
| Sessions.NamesDiffer | src/commands/sessions.ts:109 | the data-log name never equals the summary name of the same session |
| Sessions.SummaryAndDatalogDiffer | src/commands/sessions.ts:109 | a session's data log never overwrites its summary |
| Sessions.DatalogNameIsNoSummaryName | src/commands/sessions.ts:96-109 | for csv and json, no session's data-log name equals any session's summary name |
| Sessions.DatalogNeverOverwritesASummary | src/commands/sessions.ts:93-98 | with plain names, no session's data log lands on any session's summary file, whichever machine folders they use |
| Sessions.OutputFileInFolder | src/commands/sessions.ts:127-133 | a plain file name is the last component, below the output folder and the machine folder |
| Sessions.SummaryAndDatalogSiblings | src/commands/sessions.ts:127-133 | a session's summary and data log lie in the same folder, `<folder>/<Alias> <MachineType>` |
| Sessions.FetchRecentSessions | src/commands/sessions.ts:150-164 | `ProfileID` the user, all four `Include*Session` flags 1, `NumResults` and `NMostRecent` the requested count |
| Sessions.FetchMachineSessions | src/commands/sessions.ts:166-176 | `ProfileID` the user, `MachineUID` the machine id, `MachineType` the constant `"2"` |
| Sessions.FetchSessionRawDatalog | src/commands/sessions.ts:178-183 | the CSV export endpoint with the session id, no body, answered as text |
| Sessions.FetchSessionJsonDatalog | src/commands/sessions.ts:185-198 | the log request with the session id, type 3, update and metric 0, last update id -1 and step empty |
| Sessions.WriteOutputFile | src/commands/sessions.ts:127-138 | the disk is the old one after writing the body to `<folder>/<machine>/<file>` |
| Sessions.DatalogExportWrites | src/commands/sessions.ts:106-125 | a data log is written exactly for csv or json with a successful request, raw text for csv and pretty JSON for json, under `<id>-datalog.<format>`; it fails with "failed to fetch json recipe" exactly when the request fails |
| Sessions.DatalogExport | src/commands/sessions.ts:106-125 | a format other than csv and json does nothing; a write happens exactly on success of csv or json, at `<id>-datalog.<format>` in the machine folder |
| Sessions.ExportDatalogToFile | src/commands/sessions.ts:106-125 | performs exactly the writes of `DatalogExport` and ends with its outcome |
| Sessions.SessionWritesFetched | src/commands/sessions.ts:94-97 | a session whose data log arrives writes its summary and then its data log |
| Sessions.ExportSession | src/commands/sessions.ts:94-97 | the callback performs exactly one session's writes |
| Sessions.ViewsWritesCount | src/commands/sessions.ts:93-98 | N sessions write between N and 2N files; only summaries for a format other than csv and json |
| Sessions.TwoFilesPerSession | src/commands/sessions.ts:93-98 | for csv or json with every data log arriving, N sessions write exactly 2N files |
| Sessions.SessionFilesAt | src/commands/sessions.ts:93-98 | under the same conditions, in the model's sequential order (summary, then data log, session by session), session k's summary is write 2k and its data log write 2k+1 |
| Sessions.ViewsWritesPrefix | src/commands/sessions.ts:93-98 | in the model's sequential order, the writes of the first sessions come first among the writes of all |
| Sessions.SessionViews | src/commands/sessions.ts:73-75 | the sessions are present exactly when the body is neither undefined nor null and its `SessionViews` is an array, and they are that array's entries |
| Sessions.ExportSessionViews | src/commands/sessions.ts:75-80 | exports the sessions before the first undefined or null entry, in order, and fails with the list's message exactly when there is such an entry |
| Sessions.ListRequest | src/commands/sessions.ts:67-88 | the machine-sessions endpoint when a machine id is given, the recent-sessions endpoint otherwise, both for the user and with the cookie jar, answered as JSON |
| Sessions.ListRequestChoice | src/commands/sessions.ts:67-88 | a non-empty machine id selects the machine request and "failed to fetch machine sessions"; otherwise the recent request asks for `--number` sessions, 20 by default |
| Sessions.ListAndExport | src/commands/sessions.ts:66-103 | a failed list request or a body without a `SessionViews` array fails with the list's message and writes nothing; otherwise the sessions before the first undefined or null entry are exported in order, and the command fails exactly when there is such an entry |
| Sessions.Run | src/commands/sessions.ts:53-104 | as written: an empty keychain fails with the TypeError of `credentials()` and writes nothing; otherwise does `ListAndExport` with the first stored entry's account and cookie; the keychain is never written |
| Sessions.RunIntended | src/commands/sessions.ts:53-104 | over the corrected `credentials()`: the keychain holds the prompt answers unless exactly one entry was stored, in which case it is unchanged; then `ListAndExport` with the intended login |

## Left out

- The HTTP client (`got`), the keychain (`keytar`), the prompts (`cli-ux`) and the
  cookie jar (`tough-cookie`) are foreign libraries. The network is a function
  parameter, the keychain a class holding its entries, the prompt answers
  parameters, and a cookie its text and URL. Retries, timeouts, redirects and
  status-code checks are in the transport.
- Concurrency: the async blocks that nobody awaits and the callbacks of `forEach`
  run to completion one after the other, in order. In the tool the requests and
  file writes of different recipes and sessions may interleave and finish in any
  order. A failure inside a detached block is an unhandled rejection in the tool.
  The model reports it as that export's outcome and does not stop the loop.
- Sessions.ExportSessionViews: writes each session's data log right after its
  summary. In the tool every summary write is issued before any data log arrives.
  With plain names no data log lands on any session's summary
  (`Sessions.DatalogNeverOverwritesASummary`), so only the order of the write log
  differs. A `/` inside an id, alias or machine type is not covered by that lemma.
- Sessions.SessionFilesAt: the positions it states (summary k at 2k, data log k
  at 2k+1) are those of the sequential order above. In the tool all summary writes
  come first, and the data logs follow in the order their requests complete.
- Sessions.ViewsWritesPrefix: "earlier sessions' writes come first" holds for the
  sequential order above. In the tool it holds for the summaries only.
- `JSON.stringify` and `JSON.parse` are not modelled as text. A pretty-printed file
  holds the value it prints, and the conversion request holds the recipe value.
  `JSON.parse(JSON.stringify(recipe))` is taken to give back `recipe`.
- Numbers are integers; floating-point values and their printing are not modelled.
  Objects print as `[object Object]`, arrays as their elements joined by commas.
- Paths are not normalised. `.`, `..`, empty components and absolute paths are
  plain components, and `path.dirname` of a single component is the current
  directory, which always exists.
- File-system errors other than a missing parent or a directory in the target's
  place are not modelled (permissions, a file standing where a directory is
  needed).
- oclif parsing: the `options` restriction of `--format` is not enforced, so other
  formats are modelled (they write nothing). `--help`, `--verbose`, the unused
  `--session` flag of `sessions`, descriptions and examples have no behaviour
  here.
- Logging (`this.log`, `console.log`) is not modelled.
- The error messages for reading a property of undefined or null are fixed texts,
  not the runtime's exact wording.
- `src/commands/clean.ts` is not part of this model. It calls a credential-wiping
  function that `src/credentials.ts` does not define.

## Findings

| source | as written | input that shows it | evidently intended | confidence | as-written member | corrected member |
|---|---|---|---|---|---|---|
| src/credentials.ts:14 | `!credentials && credentials.length != 1`: false for every array and a TypeError for null, so the prompt is never reached | an empty keychain `[]`: the guard is false and reading `credentials[0].account` throws instead of prompting | `!credentials \|\| credentials.length != 1`: prompt unless exactly one entry is stored | high, not executed | Credentials.PromptGuard, Credentials.EmptyKeychainSkipsPrompt, Credentials.Keychain.Credentials, Recipes.Run, Sessions.Run | Credentials.IntendedPromptGuard, Credentials.Keychain.CredentialsIntended, Recipes.RunIntended, Sessions.RunIntended |
| src/credentials.ts:19 | `const sessionToken = …` inside the branch shadows the outer `sessionToken`, which is returned unassigned | prompt answers `28341` and `abc`: `abc` is stored, but the cookie sent is `.ASPXAUTH=undefined` | assign the outer variable, returning the entered token | high, not executed | Credentials.Keychain.PromptForCredentials, Credentials.PromptedLoginSendsUndefined | Credentials.Keychain.CredentialsIntended, Credentials.IntendedLogin |
