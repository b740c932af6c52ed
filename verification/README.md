# chat-gw: models and proofs

chat-gw is a gateway between chat clients and tools: it authenticates a caller, lists the tools
the caller was granted over the Model Context Protocol, forwards calls to HTTP services or remote
MCP servers, and keeps an audit log. This project models the parts of it where a fast, printed or
concurrent form has to agree with a simple one, and proves that it does, or exactly when.

* **The CloudCost importer as a compiler to SQL.** `ImportSpec` is the validator; `ImportRender`
  plans the rows and prints statements; `ImportScript` is `render_sql`. `SqlDatabase` gives the
  statements a meaning over a small database with transactions, `ImportPlan` proves what running
  the script does. `Quoting` and `SqlLexer` read the printed text back by PostgreSQL's lexical
  rules. `SqlReader` is a reader of SQL that knows nothing of the printer: it goes by keywords, names,
  lists and positions, and says what the statements it reads do to the tables. `SqlSpelling`,
  `ImportPhrases` and `ImportReader` prove what it reads in the printed text, and `ImportText` what
  running the text does, from the fields of the spec to the rows and grants.
* **The tool registry.** `ToolCache` is the cache object, `Registry` the listing and lookup for a
  principal, `RegistryProtocol` the interleaving of reads, forced refreshes and stream consumers
  as a step relation with database versions and a clock, `RegistryRuns` what holds in its runs.
* **The MCP proxy.** `McpProxy` is the initialise-once protocol with a lock per key, `ProxyRuns`
  what holds in its runs, `Sse` the decoder of event streams against the gateway's own encoder and
  against the standard.
* **The audit log.** `AuditPaging` is keyset pagination, over fixed and over growing tables.
* **The HTTP adapter.** `HttpSend` is the retry loop, `HttpAdapter` the routing of arguments,
  `HttpRequests` the request or the error told from the configuration and the arguments alone,
  `PathTemplate` and `Percent` path rendering, `PathArguments` and `PercentLiterals` what a
  path tells of its arguments. `ImportedTools` joins importer and adapter, and `BlockedPaths`
  compares the templates the importer checks with the paths the adapter requests.
* **The MCP handler.** `McpHandler` is the dispatch with its audit rows, `McpReplies` the replies and
  rows told from the message and the tools the caller may see, `McpBatch` batches, and `Visibility`
  whole sequences of messages against the cache.
* **Two caches driven by time.** `Jwks` for signing keys, `Roles` for role lists, with `RoleRuns`
  for what holds in its runs.

`Prelude`, `Json`, `Text` and `Division` hold what the others share. Everything outside the
modelled code is a parameter over which the theorems are quantified: loader results, HTTP outcomes,
clock readings, the schema validator, case mapping, JSON printing. Coroutines interleave only where
the code waits, so a step of a protocol is one stretch between two waits.

## Where the code does not keep a promise

The model follows the code. Each of these has a lemma with a concrete input or run, and a lemma
that says when the promise is kept.

* A description that ends in a dollar sign and the chosen tag, "US$" for one, makes the script
  unreadable: `Quoting.PriceInDollarsIsCut`. The text imports if and only if no description does:
  `ImportText.TextImports`. The function's own comment calls the quoting safe
  (scripts/import_cloudcost_tools.py:132).
* An empty snapshot is never fresh, so a hidden tool can show: where there are no tools at all every
  message reloads, and a failure or a change is seen earlier (`Visibility.HiddenToolHidesFailure`,
  `Visibility.HiddenToolDelaysCommit`). `Visibility.HiddenIffAgree` is the exact condition; over a
  fixed table with loads that succeed it always holds (`Visibility.FixedTablesAgree`).
* Invalidation sets the load time to 0, so while the monotonic clock reads less than the ttl a
  reader is still answered from the old snapshot until some load succeeds:
  `RegistryRuns.YoungClockAnswersStale`, exactly when by `RegistryRuns.CheckUntilLoaded`.
* `close` during a handshake lets two initializes succeed for one key:
  `ProxyRuns.CloseDuringHandshake`, exactly when by `ProxyRuns.CloseIsHarmlessWhenQuiet`.
* A payload with U+0085, U+2028 or U+2029, which the encoder leaves raw, is cut by the decoder
  (`Sse.LineSeparatorIsLost`), and events of several data lines are not joined as the standard
  says. `Sse.FrameRoundTrip` and `Sse.AgreesWithStandard` are the exact conditions.
* Two placeholders with nothing but unreserved characters between them are ambiguous, `{x}-{y}` for
  one: `PathArguments.SharedSegmentsAreAmbiguous`. Any other character between them, a colon or a
  slash, makes them unambiguous: `PathArguments.DeterminedIffSeparated`; percent signs may do either:
  `PercentLiterals.DeterminedIffNoStub`.
* The blocklist is applied to path templates, and an argument can complete a blocked path:
  `ImportedTools.ArgumentCompletesBlockedPath`. `BlockedPaths.AlwaysAllowedIff` says for which
  templates no argument can. A placeholder after a slash, as in /api/bills/{bill_id}, always lets
  one: `BlockedPaths.SlashPlaceholdersAreNotSafe`.
* Messages without an id other than the handler's notifications are answered, and `initialized`
  with an id is not: `McpBatch.IdlessPingIsAnswered`, exactly when by
  `McpBatch.KeepsNotificationRule`.
* With a negative cooldown one call can fetch the key set twice: `Jwks.CooldownBoundsFetches`.

## Model

| member | source | states |
|---|---|---|
| ImportPlan.ScriptCommitsOrNothing | scripts/import_cloudcost_tools.py:289-316 | After any proper prefix of the script the committed database is the old one; after the whole script it is a correct import (`Imported`) |
| ImportPlan.BodyImports | scripts/import_cloudcost_tools.py:304-313 | From any valid database the statements between BEGIN and COMMIT leave every planned tool with its new columns and exactly its own roles, keep `enabled`, `version` and id of existing rows, and leave every other row and grant alone |
| ImportPlan.UpsertsPhase | scripts/import_cloudcost_tools.py:222-268 | The upserts alone: new columns for the planned tools, everything else and all grants untouched |
| ImportPlan.ClearPhase | scripts/import_cloudcost_tools.py:281-286 | Clearing removes every grant of the named tools and no other grant |
| ImportPlan.GrantsPhase | scripts/import_cloudcost_tools.py:310-313 | The grant inserts add exactly the planned (tool, role) pairs |
| ImportPlan.SecondImportChangesNothing | scripts/import_cloudcost_tools.py:66-67 | A correct import over the result of the same import leaves tools and grants equal |
| SqlDatabase.ExecuteKeepsValid | scripts/import_cloudcost_tools.py:222-286 | Every statement keeps ids unique and below the serial and every grant attached to a tool |
| SqlDatabase.RunInTransaction | scripts/import_cloudcost_tools.py:289-316 | Between BEGIN and COMMIT no statement changes what others see |
| ImportRender.ImportIsCorrect | scripts/import_cloudcost_tools.py:222-316 | For every accepted spec that renders, and every valid database: running its script commits a correct import, in which a tool has a role exactly when its own role list names it or, without one, the default list does; nothing shows before COMMIT |
| ImportRender.RolesAreMeant | scripts/import_cloudcost_tools.py:310-313 | Dropping repeated names drops no role: the roles granted are exactly those listed |
| ImportRender.ImportIsIdempotent | scripts/import_cloudcost_tools.py:66-67 | For every such spec and database a second run changes no tool and no grant |
| ImportSpec.ValidateSpec | scripts/import_cloudcost_tools.py:176-219 | Accepts exactly the acceptable specs; a fault in a tool is reported for the first bad tool, with the first check it fails |
| ImportSpec.ValidateRoles | scripts/import_cloudcost_tools.py:159-173 | Accepts exactly non-empty lists of known roles and returns their first occurrences |
| ImportSpec.Dedup | scripts/import_cloudcost_tools.py:166-173 | Same names, each once |
| ImportSpec.DedupKeepsOrder | scripts/import_cloudcost_tools.py:166-173 | Names come out in the order of their first occurrences |
| ImportSpec.FaultMeans | scripts/import_cloudcost_tools.py:189-219 | No fault means the tools so far are acceptable together; a fault means the whole list is not |
| ImportSpec.FaultIsFirst | scripts/import_cloudcost_tools.py:189-219 | Which fault is reported for a tool: the checks come in the order of the code and the first that fails counts |
| ImportSpec.NameIsText | scripts/import_cloudcost_tools.py:195-199 | Only a JSON string can pass the name-prefix check, although the check is made on `str(name)` |
| ImportRender.PlansAreDistinct | scripts/import_cloudcost_tools.py:188-202 | The rows an accepted spec writes have different names |
| ImportScript.RenderSql | scripts/import_cloudcost_tools.py:289-316 | Returns the script text of the planned statements; is rejected exactly for unacceptable specs |
| ImportScript.RenderInserts | scripts/import_cloudcost_tools.py:304-306 | The first loop prints one upsert per tool, in order, or raises when one cannot be printed |
| ImportScript.RenderGrant | scripts/import_cloudcost_tools.py:271-278 | One grant statement for the tool's own or the default roles |
| ImportScript.RenderGrants | scripts/import_cloudcost_tools.py:310-313 | The second loop prints one grant statement per tool, in order |
| ImportScript.ScriptIsReadBack | scripts/import_cloudcost_tools.py:222-316 | Splitting the printed script by PostgreSQL's lexical rules gives exactly the 2n + 3 statements that were meant when every description survives dollar quoting, and otherwise those before the first that does not, and then an error |
| ImportScript.LexStatements | scripts/import_cloudcost_tools.py:289-316 | The same for any printed sequence of such statements |
| ImportScript.LexComments | scripts/import_cloudcost_tools.py:297-300 | The header comments contribute no statement |
| ImportScript.StatementConstants | scripts/import_cloudcost_tools.py:222-286 | The constants of a statement read back are the texts passed in, in order: names, columns, description, roles |
| ImportScript.ConstantsAreTexts | scripts/import_cloudcost_tools.py:118-136 | Program text contributes no constant and each quoted text contributes itself |
| ImportRender.LexSafeStatement | scripts/import_cloudcost_tools.py:222-286 | A printed statement followed by any text is read as that statement followed by the reading of the text |
| ImportRender.LexUnsafeStatement | scripts/import_cloudcost_tools.py:222-268 | If the description does not survive, the splitter reads neither the statement nor any after it, whatever follows |
| SqlLexer.LexPieces | scripts/import_cloudcost_tools.py:118-136 | Program text and constants printed side by side are split back into exactly those pieces |
| SqlLexer.LexDollar | scripts/import_cloudcost_tools.py:131-136 | What the splitter makes of a dollar-quoted text, in both cases |
| SqlLexer.CutTextIsRefused | scripts/import_cloudcost_tools.py:131-136 | What is left of the closing delimiter is an error wherever the next character cannot continue a tag |
| SqlSpelling.EmitFeeds | scripts/import_cloudcost_tools.py:222-286 | The tokens of a statement's segments are those of the pieces it was printed from, however the splitter merges them |
| ImportReader.ValuesAreRead | scripts/import_cloudcost_tools.py:118-128 | A printed list of column values is read back as exactly those values, in order: NULL, booleans, numbers, texts and JSON |
| ImportReader.StatementSays | scripts/import_cloudcost_tools.py:222-286 | A reader that goes by SQL keywords, names, lists and positions reads in a printed statement the table, the columns in order, the i-th value, the conflict key and the updated columns, the condition IN and its names, or the array and the name compared |
| ImportReader.StatementIsRead | scripts/import_cloudcost_tools.py:222-286 | The segments of a printed statement determine the statement, with all its columns, for every printer that keeps JSON values apart |
| ImportReader.ReadingIsUnique | scripts/import_cloudcost_tools.py:289-316 | A script text is read as one sequence of statements at most |
| ImportText.UpsertPerforms | scripts/import_cloudcost_tools.py:233-268 | Read column by column, the upsert puts the i-th value into the i-th named column of a new row, and into the same columns of an existing one, and nothing else |
| ImportText.StatementDoes | scripts/import_cloudcost_tools.py:222-286 | What a printed statement does, read that way, is what the importer means by it, in and outside a transaction |
| ImportText.PlayIsRun | scripts/import_cloudcost_tools.py:289-316 | Reading and running printed statements one by one gives what was meant |
| ImportText.TextImports | scripts/import_cloudcost_tools.py:289-316 | Splitting the printed text of an accepted spec, reading each statement as SQL and running them up to the first error is a correct import when every description survives; otherwise the error comes before COMMIT and nothing shows. So, into a database that lacks the import, the text imports if and only if every description survives |
| ImportText.PlannedRowIs | scripts/import_cloudcost_tools.py:222-258 | Which field of the spec each column comes from, with its default: display name, description, configuration, schemas, and the fixed columns |
| ImportText.TextMeans | scripts/import_cloudcost_tools.py:222-316 | From spec to tables by way of the text: when no description is lost, running the text gives every entry of the spec the row its fields describe, keeping id, `enabled` and `version`, and exactly the roles of its list or the default one; every other row keeps its columns and roles |
| Quoting.QuotedRoundTrip | scripts/import_cloudcost_tools.py:118-128 | Reading a text with doubled quotes up to its closing quote gives the text and what follows, for every text (section 4.1.2.1 of the PostgreSQL documentation) |
| Quoting.DollarQuote | scripts/import_cloudcost_tools.py:131-136 | The tag loop ends, with a delimiter that does not occur in the text |
| Quoting.FirstFree | scripts/import_cloudcost_tools.py:133-135 | The tag chosen is the first in the sequence whose delimiter the text lacks |
| Quoting.OverlapIsOneDollar | scripts/import_cloudcost_tools.py:131-136 | Before the real end, the delimiter can only match by sharing its first dollar sign, for the empty tag and every tag of x's |
| Quoting.DollarRoundTrip | scripts/import_cloudcost_tools.py:131-136 | Reading to the first closing delimiter returns the whole text exactly when the text does not end in a dollar sign and the tag; otherwise what it returns instead (section 4.1.2.4) |
| Quoting.EmptyTagSurvives | scripts/import_cloudcost_tools.py:131-136 | A text without two adjacent dollar signs survives exactly when it does not end in one |
| Quoting.PriceInDollarsIsCut | scripts/import_cloudcost_tools.py:131-136 | The text "US$" is read back as "US" with a stray dollar sign |
| HttpSend.Send | app/dispatchers/http_adapter.py:93-145 | With k the first outcome that is final or meets the budget: k + 1 requests, backoff that adds up to base * (2^k - 1), a result decided by outcome k alone; the trailing raise is unreachable |
| HttpSend.FinalAttempt | app/dispatchers/http_adapter.py:105-145 | k is the first index that is not retryable or not below the budget |
| HttpSend.TotalBackoff | app/dispatchers/http_adapter.py:132-139 | base, 2 base, 4 base, ... add up to base * (2^k - 1) |
| HttpSend.ResultMeans | app/dispatchers/http_adapter.py:93-145 | A call succeeds exactly when some attempt within the budget meets a 2xx after timeouts, connection errors and 502, 503, 504 only, with that attempt's text; otherwise code, kind and upstream status are those of the last attempt's status |
| HttpRequests.RoutingMeans | app/dispatchers/http_adapter.py:252-279 | An argument goes where its entry says; without one, to the path if its key is a placeholder, else to the query for GET, DELETE and HEAD and to the body for every other method |
| HttpRequests.RequestMeans | app/dispatchers/http_adapter.py:56-83 | The whole request, from configuration, arguments and environment: method, base URL without its final slashes, rendered path, the query and body arguments in the order of the call, the wrapper, and every header |
| HttpRequests.HeadersMean | app/dispatchers/http_adapter.py:165-196 | Header by header: the last argument routed to it, else the customer code, else prefix and the caller's token or the service's secret, else the gateway's own value, else none |
| HttpRequests.RoutesMean | app/dispatchers/http_adapter.py:252-306 | Arguments can be routed exactly when every entry is understood, and the path rendered exactly when every placeholder gets an argument that belongs in the path |
| HttpRequests.CausesMean | app/dispatchers/http_adapter.py:56-83 | A request is made exactly when nothing is missing; otherwise the error tells the first cause: base URL, timeout, retries, parameter map, first bad entry, missing path argument, wrapper, secret |
| HttpRequests.BudgetMeans | app/dispatchers/http_adapter.py:85-91 | No retries for a caller's own token; else the configured number, never below zero, or the default |
| HttpAdapter.MapParams | app/dispatchers/http_adapter.py:235-306 | Refuses with the error of the first argument whose target is unknown or no text, then with a missing path argument; else fills the buckets, wraps the body and renders the path |
| HttpAdapter.BucketHolds | app/dispatchers/http_adapter.py:258-279 | Every argument lands in the bucket of its target, once, and in no other |
| HttpAdapter.HeaderHolds | app/dispatchers/http_adapter.py:272-273 | A header is set exactly when some argument is routed to it, and by the last of those |
| HttpAdapter.PathValueOf | app/dispatchers/http_adapter.py:266-267 | The path text of a key is that of the one argument with the key |
| HttpAdapter.Invoke | app/dispatchers/http_adapter.py:56-91 | A request is sent if and only if base URL, timeout, retries, routing, path, body wrapper and secret are all there; it is the one they and the arguments describe, headers included; otherwise the error is that of the first thing missing |
| HttpAdapter.Refusal | app/dispatchers/http_adapter.py:258-279 | There is a refusal exactly when some argument has a target that is unknown or no text |
| HttpAdapter.Obstacle | app/dispatchers/http_adapter.py:56-83 | What is missing is never reported as an error of the upstream |
| PathTemplate.RenderSucceeds | app/dispatchers/http_adapter.py:295-306 | Rendering succeeds exactly when every placeholder has an argument; the error names a missing one |
| PathTemplate.RenderBySegments | app/dispatchers/http_adapter.py:295-306 | A rendered path has the segments of its template, each rendered on its own |
| PathTemplate.RenderKeepsSlashes | app/dispatchers/http_adapter.py:295-306 | A rendered path has exactly the slashes of its template |
| PathTemplate.RenderPlain | app/dispatchers/http_adapter.py:295-306 | A template without placeholders is its own path |
| PathTemplate.RenderIsInvertible | app/dispatchers/http_adapter.py:295-306 | Where a placeholder fills a segment, percent-decoding the segment gives the argument's text |
| PathTemplate.RenderIsInjective | app/dispatchers/http_adapter.py:295-306 | Two argument maps that give one path agree on every placeholder that fills a segment |
| PathArguments.SharedSegmentsAreAmbiguous | app/dispatchers/http_adapter.py:295-306 | The template {x}-{y} gives one path for two different pairs of arguments |
| PathArguments.DeterminedIffSeparated | app/dispatchers/http_adapter.py:295-306 | For templates with any number of placeholders of different names, without percent signs between them: the path determines all arguments if and only if every two neighbours have a character between them that percent-encoding would replace |
| PathArguments.SeparatedIsDetermined | app/dispatchers/http_adapter.py:295-306 | Such a character between every two neighbours is enough, percent signs and repeated names or not |
| PathArguments.SinglePlaceholderIsDetermined | app/dispatchers/http_adapter.py:295-306 | A single placeholder is determined, whatever surrounds it |
| PathArguments.UnseparatedIsUndetermined | app/dispatchers/http_adapter.py:295-306 | Unreserved text between two neighbours, or none, leaves two different sets of arguments with one path |
| PercentLiterals.DeterminedIffNoStub | app/dispatchers/http_adapter.py:295-306 | For two placeholders with any literal between them, percent signs included: the path determines both arguments if and only if the literal is not an encoded text followed by at most a cut code, so cut that what is missing holds no percent sign |
| PercentLiterals.PercentIsAmbiguous | app/dispatchers/http_adapter.py:295-306 | The literal "%" is of that form: two different pairs of arguments give %2F%2F |
| Percent.QuoteMeans | app/dispatchers/http_adapter.py:304 | Letters, digits and the four unreserved marks stay as they are; any other character becomes one upper-case triplet for each byte of its UTF-8 form (sections 2.1 and 2.3 of RFC 3986) |
| Percent.QuoteConcat | app/dispatchers/http_adapter.py:304 | Texts are encoded character by character |
| Percent.QuoteRoundTrip | app/dispatchers/http_adapter.py:304 | Percent-decoding a percent-encoded text gives the text, for every Unicode text (sections 2.1 to 2.3 of RFC 3986) |
| Percent.QuoteIsOneSegment | app/dispatchers/http_adapter.py:304 | An encoded text holds only unreserved characters and percent signs, so no slash |
| ImportedTools.PlannedRowsAreSafe | scripts/import_cloudcost_tools.py:222-268 | Every row of an accepted spec is a passthrough GET on an allowed path with no header routing |
| ImportedTools.CallSafeTool | app/dispatchers/http_adapter.py:56-91 | Calling such a row: exactly one GET request, without waiting, if and only if the base URL, the path's arguments and the body wrapper are there, and none otherwise; its URL is the base URL and the rendering of an allowed template, its headers the gateway's and the caller's own token |
| ImportedTools.PlainPathStaysAllowed | scripts/import_cloudcost_tools.py:139-149 | Without placeholders the path requested is the template, and so allowed |
| ImportedTools.ArgumentCompletesBlockedPath | scripts/import_cloudcost_tools.py:139-149 | The instance /api/{x}: allowed, and rendered to the blocked /api/credentials |
| BlockedPaths.AlwaysAllowedIff | scripts/import_cloudcost_tools.py:139-149 | For templates with any number of placeholders of different names: all renderings pass the check if and only if no blocked text matches the template, a placeholder standing for any run of unreserved characters, and the sync rule cannot be escaped; a condition on the template alone |
| BlockedPaths.UnmatchedIsAllowed | scripts/import_cloudcost_tools.py:139-149 | The safe half, for repeated names as well |
| BlockedPaths.FoundIsBlocked | scripts/import_cloudcost_tools.py:139-149 | Arguments that complete the match, whenever there is one |
| BlockedPaths.BlockedIsFound | scripts/import_cloudcost_tools.py:139-149 | Every blocked rendering is found in the template |
| BlockedPaths.SlashPlaceholderIsUnsafe | scripts/import_cloudcost_tools.py:139-149 | A placeholder that follows a slash can always complete a blocked path |
| BlockedPaths.SlashPlaceholdersAreNotSafe | scripts/import_cloudcost_tools.py:139-149 | An allowed template whose placeholders all follow a slash keeps its renderings allowed if and only if it has none |
| BlockedPaths.PlaceholderCompletesWord | scripts/import_cloudcost_tools.py:139-149 | Nor need a placeholder follow a slash: /api/ex{x} is not safe |
| ImportedTools.NoArgumentHeaders | app/dispatchers/http_adapter.py:258-279 | With such a row no argument reaches a header and none is refused |
| ImportedTools.OneImport | scripts/import_cloudcost_tools.py:289-316 | An import makes the rows it names safe and keeps safe rows safe |
| ImportedTools.ImportedRowsAreSafe | scripts/import_cloudcost_tools.py:289-316 | The same after any sequence of accepted imports into any valid database |
| ToolCache.IndexFinds | app/registry/cache.py:114-119 | The name index finds a listed tool under each listed name, and the tool itself while names are unique |
| ToolCache.ViewsShow | app/registry/cache.py:40-69 | A view has its row's fields, its roles are exactly the row's role grants and its customer codes exactly the customer grants |
| ToolCache.Cache.Load | app/registry/cache.py:114-120 | Installs list, index and time together, the list showing the loaded rows field by field and grant by grant, or nothing when the loader raises |
| ToolCache.Cache.EnsureFresh | app/registry/cache.py:89-95 | Loads exactly when stale |
| ToolCache.Cache.InvalidateAndReload | app/registry/cache.py:97-101 | On failure the old list stays, marked stale, and nobody is notified; else every subscriber is |
| ToolCache.Cache.Subscribe | app/registry/cache.py:103-106 | A new empty queue at the end of the list |
| ToolCache.Cache.Unsubscribe | app/registry/cache.py:108-112 | Exactly the given queue leaves the list and the others keep their order; an unknown one changes nothing |
| ToolCache.EventQueue.Offer | app/registry/cache.py:123-127 | A queue with room gets the event at its end; a full one is unchanged |
| ToolCache.EventQueue.Take | app/mcp/streamable.py:68-69 | The consumer takes the oldest event |
| ToolCache.Cache.Broadcast | app/registry/cache.py:122-127 | Every queue gets the event unless it is full |
| Registry.ListedAreGranted | app/registry/service.py:36-51 | From the rows of the table: the listing has one entry for each row granted to one of the caller's roles or to the caller's non-empty customer code, with the row's fields, in row order |
| Registry.FoundIsGranted | app/registry/service.py:53-71 | From the rows: a lookup finds the row of that name exactly when it is granted, with its fields |
| Registry.ListHolds | app/registry/service.py:36-51 | The listing holds exactly the snapshot's tools granted by a role or the customer code |
| Registry.ListKeepsOrder | app/registry/service.py:46-51 | The listing is a subsequence of the snapshot in its order |
| Registry.ListIsUnion | app/registry/service.py:42-51 | For roles and a code together the listing is the union of the two alone |
| Registry.AnonymousSeesNothing | app/registry/service.py:44-45 | The early return changes no answer |
| Registry.FindAgreesWithList | app/registry/service.py:53-71 | A lookup succeeds exactly when the listing has a tool of that name, and finds that one |
| Registry.ToolRegistry.ListForPrincipal | app/registry/service.py:36-51 | Refresh, then the visible tools of what the refresh left: after a load, one entry for each granted row, with its fields, in row order |
| Registry.ToolRegistry.FindAuthorized | app/registry/service.py:53-71 | Refresh, then the lookup, in agreement with the listing: after a load, the granted row of that name, if there is one |
| Registry.ToolRegistry.ForceRefresh | app/registry/service.py:33-34 | Subscribers hear of it exactly when the load succeeds |
| RegistryProtocol.StepKeepsInv | app/registry/cache.py:80-127 | Every step of every coroutine keeps the invariant that ties snapshot, index, lock, tasks and queues together |
| RegistryProtocol.RunInv | app/registry/cache.py:80-127 | So it holds in every state of every run, including failing loaders and cancelled waiters |
| RegistryRuns.LoadsAreSerial | app/registry/cache.py:89-101 | Loads never overlap and the installed database version never decreases |
| RegistryRuns.RefreshIsSeen | app/registry/service.py:33-34 | A forced refresh that has returned was called at a version no newer than the one installed, then and ever after |
| RegistryRuns.AnswerIsRecent | app/registry/service.py:30-51 | An answer is one whole catalogue the database held, no older than the last forced load to take the lock when the clock reads at least the ttl |
| RegistryRuns.NoStaleAnswer | app/registry/cache.py:80-101 | Once a forced load holds the lock, nobody answered later gets the snapshot from before it |
| RegistryRuns.AnswersListGranted | app/registry/service.py:36-71 | In every run an answered reader lists, and finds, exactly the rows granted to the caller in one state of the table |
| RegistryRuns.OneLoadPerTtl | app/registry/cache.py:89-95 | After a load no reader, not even one that waited for the lock, loads again before the ttl is over, unless a forced refresh or another load comes between |
| RegistryRuns.CheckDuringForcedLoad | app/registry/cache.py:80-99 | During a forced load, and whenever the snapshot is older than the last one to take the lock, the freshness check passes exactly when there is an old snapshot and the clock reads less than the ttl |
| RegistryRuns.CheckUntilLoaded | app/registry/cache.py:80-101 | In every run the same holds from the moment a forced refresh takes the lock until some load succeeds, after its failure too |
| RegistryRuns.YoungClockAnswersStale | app/registry/cache.py:80-99 | A run in which that happens: with a young clock a reader is answered with a dropped row during a forced load |
| RegistryRuns.LockMeansLoading | app/registry/cache.py:92-100 | The lock is held exactly while a task loads |
| RegistryRuns.LookupAgreesInEveryState | app/registry/service.py:36-71 | In every state of every run, lookup and listing agree for every principal (names being unique, migrations/001_schema.sql:12) |
| RegistryRuns.NoLostWakeUp | app/registry/cache.py:97-127 | Queues hold at most 16 events, and a subscriber notified by a forced refresh cannot find its queue empty before it has read an event since |
| RegistryRuns.UncontendedRead | app/registry/cache.py:89-95 | Alone, the steps of a read do what the `EnsureFresh` method does |
| McpProxy.IdentityIsPrivate | app/dispatchers/mcp_proxy.py:117-141 | Two callers share a session identity exactly when both pass the same user's token or both use the same service secret |
| McpProxy.CredentialsAreOwn | app/dispatchers/mcp_proxy.py:117-141 | A tool that passes tokens through sends the caller's own token whatever secrets there are; any other sends the secret it names whoever calls; none is sent exactly when there is none |
| McpProxy.StepKeepsInv | app/dispatchers/mcp_proxy.py:81-94 | Every step of every caller keeps the invariant; `close` does while no handshake is pending |
| ProxyRuns.InitializedOnce | app/dispatchers/mcp_proxy.py:155-184 | Between two closes at most one initialize succeeds per key, the stored session is the one it returned, and every non-skipping call comes after its own key's, with that id when not empty |
| ProxyRuns.StoredSessionStays | app/dispatchers/mcp_proxy.py:164-184 | A stored session never changes until a close |
| ProxyRuns.FailureLetsNextTry | app/dispatchers/mcp_proxy.py:167-184 | A failed handshake stores nothing and the next waiter starts its own |
| ProxyRuns.CloseDuringHandshake | app/dispatchers/mcp_proxy.py:61-63 | A run in which `close` during a handshake lets two initializes succeed for one key and the stored session change |
| ProxyRuns.CloseIsHarmlessWhenQuiet | app/dispatchers/mcp_proxy.py:61-63 | In every state with the invariant: no handshake is pending or waited for if and only if no continuation of a close, without another one, initializes a key twice |
| ProxyRuns.UncontendedCall | app/dispatchers/mcp_proxy.py:81-94 | Alone, the steps of a first call do what the `Prepare` method does |
| McpProxy.Adapter.EnsureInitialized | app/dispatchers/mcp_proxy.py:155-184 | Stores a session exactly when there is none and the handshake succeeds |
| McpProxy.Adapter.Prepare | app/dispatchers/mcp_proxy.py:81-94 | The session header is that of the key's stored session, if it has one that is not empty |
| McpProxy.Adapter.Close | app/dispatchers/mcp_proxy.py:61-63 | Forgets all sessions and locks |
| Sse.ParseEnvelope | app/dispatchers/mcp_proxy.py:306-322 | The loop reads the data fields from the first data line to the first blank or comment line after it, each left-stripped, joined with nothing; none is an error |
| Sse.PayloadIsOneLine | app/dispatchers/mcp_proxy.py:306-322 | What is read never holds a line boundary |
| Sse.FrameRoundTrip | app/mcp/streamable.py:86-88 | Reading a written frame followed by any text gives the payload back if and only if the payload has no line boundary of `splitlines` and no leading blank |
| Sse.AgreesWithStandardOnFrames | app/dispatchers/mcp_proxy.py:306-322 | The standard reads every payload without CR and LF back from its frame, by its own line rule; the decoder does if and only if the payload holds no other boundary and has no leading blank |
| Sse.ProxyJoinsWithNothing | app/dispatchers/mcp_proxy.py:322 | The data lines of an event, however many, are left-stripped and joined with nothing |
| Sse.StandardJoinsWithNewline | app/dispatchers/mcp_proxy.py:306-322 | The standard drops one leading space of each data line and joins them with newlines, whatever comments and other fields the event holds |
| Sse.AgreesWithStandard | app/dispatchers/mcp_proxy.py:306-322 | On events of data lines, comments and other fields in any order the decoder agrees with the standard if and only if there is one data line, with no other boundary and no blank after the one leading space |
| Sse.OneDataLineIsRead | app/dispatchers/mcp_proxy.py:306-322 | An event with one data line is read, whatever stands around that line |
| Sse.CommentEndsReading | app/dispatchers/mcp_proxy.py:310-313 | A comment after a data line ends the reading, whatever follows |
| Sse.SeparatorCuts | app/dispatchers/mcp_proxy.py:306-322 | A payload with a raw boundary is read up to it, unless what follows looks like a data line |
| Sse.LineSeparatorIsLost | app/mcp/streamable.py:86-88 | Of a payload with U+2028 between a and b, only a is read |
| AuditPaging.QueryAudit | app/admin/audit.py:42-85 | Filters, keyset condition, order, limit + 1 and cursor amount to the first page of the scan after the cursor; a malformed cursor is answered with 400 |
| AuditPaging.ScanHolds | app/admin/audit.py:44-73 | A scan is the strictly descending sequence of exactly the matching rows after the cursor |
| AuditPaging.ScanMeans | app/admin/audit.py:44-73 | A scan holds exactly the rows equal to every text asked for, from the lower bound on and before the upper one, newest first, by descending id at one instant |
| AuditPaging.WindowsSplit | app/admin/audit.py:52-55 | Two windows that meet at an instant split the scan of both, with no row lost or returned twice |
| AuditPaging.DescendingIsUnique | app/admin/audit.py:71-73 | There is only one such sequence |
| AuditPaging.ScanContinues | app/admin/audit.py:57-69 | The scan after the last row of a page is the rest of the scan |
| AuditPaging.FixedPage | app/admin/audit.py:57-85 | Over a fixed table, page i of a walk is the i-th slice of one scan, and has a cursor exactly when rows remain |
| AuditPaging.WalkIsOneScan | app/admin/audit.py:57-85 | Over a fixed table a walk has at most max(1, ceil(n / limit)) pages, ends exactly with the last of them, and has then returned the scan: every matching row once, newest first |
| AuditPaging.GrowingWalk | app/admin/audit.py:57-85 | While rows are added between pages the output stays strictly descending, and a finished walk has returned every matching row present at its start, and every one added before the walk passed its place |
| McpHandler.Handler.ToolsCall | app/mcp/handler.py:112-230 | The steps, early exits and audit entries amount to the specified response and rows |
| McpHandler.Handler.Handle | app/mcp/handler.py:52-81 | The dispatch amounts to the specified outcome and rows |
| McpReplies.CallMeans | app/mcp/handler.py:112-230 | A call of a visible tool validates and dispatches the arguments of the message and answers and records what came of it: content, refusal, exception, mismatch or unknown dispatcher, with codes and sensitive fields; a call of any other name is denied and recorded so |
| McpReplies.BadCallMeans | app/mcp/handler.py:112-126 | Calls with params, name or arguments of the wrong shape, and failing lookups, with their errors and no row |
| McpReplies.ListMeans | app/mcp/handler.py:98-110 | The listing shows the visible tools, one entry each and in order |
| McpReplies.ListedRows | app/mcp/handler.py:98-110 | From the rows of the table: the entries are those of the granted rows, in order |
| McpReplies.OthersMean | app/mcp/handler.py:52-96 | Every other message: envelope and method errors, ping, initialize with its version, notifications, unknown methods |
| McpBatch.McpPost | app/mcp/streamable.py:25-51 | The batch loop collects the answers in order; no answer is 204; an exception that leaves the handler loses the reply but not the rows written before it |
| McpBatch.AnswersAllButNotifications | app/mcp/handler.py:52-81 | A message is unanswered exactly when it is one of the handler's notifications, and fails exactly when it has no id and a method that is no text; every answer has the message's id |
| McpBatch.ResponsesInOrder | app/mcp/streamable.py:38-46 | The ids of the answers are those of the messages that expect one, in order |
| McpBatch.BatchReply | app/mcp/streamable.py:38-46 | The same for the reply to a batch, with the cases 204 and server error |
| McpBatch.KeepsNotificationRule | app/mcp/handler.py:58-69 | For which method names and id members the handler follows the notification rule of section 4.1 of JSON-RPC 2.0 |
| McpBatch.IdlessPingIsAnswered | app/mcp/handler.py:70-71 | A ping without an id is answered, unlike that rule |
| Visibility.OnlyVisibleToolsMatter | app/mcp/handler.py:52-139 | Tables that differ at every moment only in tools the caller may not see give the same replies and audit rows to every sequence of messages, the cache run with its clock, loads, failures and forced refreshes, while the two caches agree where the messages consult them |
| Visibility.HiddenIffAgree | app/registry/cache.py:80-95 | No message and no backend tell the two apart if and only if they agree: both snapshots are fresh or both are not, or reloading one shows what the other still shows |
| Visibility.FixedTablesAgree | app/registry/cache.py:80-95 | They always agree over tables that do not change and loads that do not fail |
| Visibility.InStepTablesAgree | app/registry/cache.py:80-95 | They agree, however tables change and loads fail, while the two tables are empty at the same times |
| Visibility.AnswersAlike | app/registry/cache.py:89-120 | For snapshots that look alike to the caller: the answers do exactly when they agree, and then so do the snapshots afterwards |
| Visibility.SameHandled | app/mcp/handler.py:52-139 | One message gives the same response and rows against catalogues that look alike |
| Visibility.DifferenceShows | app/mcp/handler.py:98-139 | Whatever differs in what the caller sees, some message and some backend answer differently |
| Visibility.HiddenToolHidesFailure | app/registry/cache.py:80-81 | A run where they do not agree: with no tools at all a failing load is reported to the caller, with one hidden tool it is not |
| Visibility.HiddenToolDelaysCommit | app/registry/cache.py:80-81 | A run where a tool added between two messages is listed at once without the hidden tool and not with it |
| McpBatch.ListedIffNotDenied | app/mcp/handler.py:98-139 | tools/list shows exactly the visible tools, and a name is missing from it exactly when calling it is denied |
| McpBatch.OneRowPerCall | app/mcp/handler.py:112-230 | A call past the shape checks whose lookup and schema check end normally writes one row that tells what the response tells; anything else writes none |
| McpBatch.RowsCorrespond | app/mcp/handler.py:112-230 | Over a sequence, audited calls and rows correspond one to one and in order, status ok exactly for results, error code equal to the response's |
| McpBatch.AuditedAt | app/mcp/handler.py:112-139 | The positions are exactly those of the audited calls, increasing |
| Jwks.JwksCache.Refresh | app/auth/jwks.py:57-82 | A fetch replaces the keys exactly when it brings some; its time counts even when it fails or raises |
| Jwks.JwksCache.Lookup | app/auth/jwks.py:44-55 | A call of `get` amounts to the specified step |
| Jwks.LookupMeans | app/auth/jwks.py:44-55 | A call fetches first exactly when the keys are missing or expired, then exactly when the kid is still missing and the cooldown is over; if no fetch raises it answers with the key the cache then holds for the kid, and with none exactly when there is none |
| Jwks.RefreshMeans | app/auth/jwks.py:57-82 | A fetch sets the time of the last attempt, and replaces the keys and their time exactly when its document is one and holds a key |
| Jwks.DocumentMeans | app/auth/jwks.py:74-79 | Of a document that lists objects, every text kid is found, with the last of its entries |
| Jwks.DocumentRaises | app/auth/jwks.py:74-77 | Which documents raise, and that one without keys holds none |
| Jwks.CollectHolds | app/auth/jwks.py:74-78 | The dictionary maps every kid that occurs to its last entry; a malformed entry raises |
| Jwks.OneFetchPerCall | app/auth/jwks.py:44-55 | A call fetches at most twice, and twice only under a negative cooldown |
| Jwks.CooldownBoundsFetches | app/auth/jwks.py:44-55 | At most one fetch per call for all states and calls if and only if the cooldown is not negative |
| Jwks.RunReflects | app/auth/jwks.py:57-82 | In every run the cache is what its latest key-bringing fetch says |
| Jwks.ReturnedKeyIsLatest | app/auth/jwks.py:44-55 | A returned key has the requested kid and comes from the latest fetch that brought keys |
| Jwks.KeysStay | app/auth/jwks.py:57-82 | Once there are keys there are keys, whatever fails |
| Jwks.WarmFetchesAreSpaced | app/auth/jwks.py:51-52 | While keys are warm, fetches start more than the cooldown apart |
| Jwks.WarmFetchRate | app/auth/jwks.py:51-52 | So a window of length w sees at most floor(w / cooldown) + 1 of them |
| Roles.NormalizeValue | app/auth/roles.py:95-110 | The loop gives the specified names, and reading those names again changes nothing |
| Roles.ItemMeans | app/auth/roles.py:102-108 | An item names a role by itself, by its name, or else by its display name |
| Roles.ItemsMean | app/auth/roles.py:100-109 | The items of a list name their roles one after another |
| Roles.CacheMeans | app/auth/roles.py:61-92 | With a working cache what was written is read back until the ttl is over and not after; an invalidated user has no entry; other users keep theirs |
| Roles.NamesAreKept | app/auth/roles.py:95-110 | A list of names is read as it is |
| Roles.RoleResolver.Resolve | app/auth/roles.py:39-59 | The claim's names if there are any, else a cached list, else what the provider says, none when there is no provider; what is written is what is returned |
| Roles.RoleResolver.CacheRead | app/auth/roles.py:69-84 | A live entry for the user that decodes, or nothing |
| Roles.RoleResolver.CacheWrite | app/auth/roles.py:86-92 | Writes the user's entry with a new expiry, or nothing |
| Roles.RoleResolver.Invalidate | app/auth/roles.py:61-67 | Removes the user's entry, or nothing |
| RoleRuns.RolesHaveProvenance | app/auth/roles.py:39-92 | In every interleaved run a resolved list is what that call's own claim names, or what the provider answered that call, or what an earlier step wrote for the same user less than the ttl before, for a call that had it from its claim or from the provider |
| RoleRuns.TasksHaveOrigin | app/auth/roles.py:39-92 | At every moment every call has its list from the steps of the run that gave it |
| RoleRuns.InvalidatedIsAsked | app/auth/roles.py:50-67 | After an invalidation that took effect, and until something is written for the user, a call without roles in its claim asks the provider |
| RoleRuns.ClaimDecides | app/auth/roles.py:45-48 | A claim that names roles is what the call writes and returns, whatever the cache holds and whatever other calls do in between |
| RoleRuns.WrittenRolesAreReadBack | app/auth/roles.py:50-52 | With a working cache, a later call without a claim reads back what was written, within the ttl and with the entry untouched |

## Left out

- ImportScript.RenderSql: a description given as a JSON list or object counts as an exception; the code prints the list's Python form.
- ImportScript.ScriptIsReadBack: the splitter refuses quoted identifiers, block comments and E'' constants, none of which the importer prints, takes standard_conforming_strings as on, and does not join constants that are adjacent across lines.
- ImportRender.ImportIsCorrect: column types and lengths, casts, `created_at`, `updated_at`, `granted_at` and triggers of the two tables are not modelled; nor is a statement that fails.
- PathArguments.DeterminedIffSeparated: with three or more placeholders, percent signs in the literals between them are excluded, and repeated names are covered one way only (`PathArguments.SeparatedIsDetermined`).
- BlockedPaths.AlwaysAllowedIff: for templates that repeat a name only the safe half is stated (`BlockedPaths.UnmatchedIsAllowed`).
- Sse.AgreesWithStandard: a data field without a colon, and other boundaries inside comments and other fields, are left out.
- HttpAdapter.Invoke: how the HTTP client sends the request, and an integer timeout too large for a float, are left out.
- HttpSend.ResultMeans: the message texts of errors are left out.
- ImportReader.StatementSays: the reader covers the statements the importer prints, with keywords in upper case and names that are not folded; anything else it refuses.
- ImportText.TextImports: reading a JSON text back as the value it was printed from is the database's part; the printer is only assumed to keep different values apart.
- McpProxy.Adapter.Prepare: the request and response bodies of the handshake and of the call are not modelled, only whether the handshake succeeded and its session id.
- Sse.ParseEnvelope: parsing the collected text as JSON is left out.
- AuditPaging.QueryAudit: time zones are resolved to instants, a trace id is a text, a request with a limit outside 1..500 is refused before; the base64 and JSON text of a cursor is an invertible codec.
- McpHandler.Handler.ToolsCall: latency, trace id and the caller's columns of an audit row are left out, as is the loss of a row when the database refuses it, which the writer swallows.
- Visibility.OnlyVisibleToolsMatter: the upstream may answer every message differently but must not depend on tools the caller cannot see; a read by another caller between two messages is covered as one more message that consults the registry.
- McpBatch.McpPost: a body that is not JSON, answered with 400, is left out.
- Jwks.JwksCache.Lookup: calls are sequential; concurrent ones may each fetch.
- Roles.RoleResolver.CacheRead: only the resolver writes its entries, so texts that are no UTF-8 do not occur.
- ToolCache.Cache.Load: a tool view has the columns the model uses, and role grants and customer grants as plain lists.
- JSON floating-point numbers.
- Fairness of asyncio locks, and cancellation in the middle of a load or handshake other than as its failure.
- Authentication, JWT and JSON Schema validation, Redis, HTTP and database clients: parameters or abstract steps.
- The Daytona adapter, the admin interface for tools and grants, health checks, the legacy SSE transport and the scan for sensitive fields: small beside the rest.
