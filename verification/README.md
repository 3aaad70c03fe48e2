# Auth0 logs to Azure Log Analytics, modelled in Dafny

A model of the auth0-loganalytics extension. It runs as a webtask on a schedule. Each run does the following:

- checks its settings;
- reads the `checkpointId` saved by the run before;
- asks Auth0's `/api/v2/logs` endpoint for every log after that checkpoint, page by page;
- rewrites each log (the event name from the `logTypes` catalog, truncated `details`, the parsed user agent);
- pushes each log on its own to the Azure Monitor HTTP Data Collector API, signed with the workspace's SharedKey;
- stores the new checkpoint and replies 200, 400 or 500.

Modules, in dependency order:

- `Wrappers`: `Option`.
- `JsText`: the parts of JavaScript the code relies on:
  - `Number.parseInt` with no radix (leading white space, sign, `0x` prefix, the longest digit run, NaN);
  - the decimal text of a number;
  - `indexOf`;
  - a one-character `split`, used to read a signed string back into lines.
- `Settings`: the four guard clauses of `lastLogCheckpoint`, and `take` (`BATCH_SIZE` capped at 100).
- `LogRecords`: the log record, with the properties the exporter passes through untouched and the fields it adds.
- `LogTypes`: the `logTypes` catalog, kept as the object literal it is. Two codes (`fapi` and `limit_wc`) are defined twice, and the later definition wins.
- `Transform`: the per-record body of the `exportLogs` loop.
- `Fetch`: the pagination of `getLogs`/`getLogsFromAuth0`, as a function of the answers of Auth0's feed. Lemmas read it as a chain of pages that ends in an empty page, an error, or a string body that makes `forEach` throw.
- `AzureClient`: `getClient`, which gives:
  - the endpoint URL;
  - the string to sign and the `SharedKey` header;
  - the request `pushRecord` sends.
- `Orchestrator`:
  - the run as a specification function `Run`;
  - two classes: `CheckpointStore` (webtask storage) and `Invocation` (the closure state `checkpointId`/`logs` of one run);
  - the imperative `getLogs`, `exportLogs` and `lastLogCheckpoint`, each proved against `Paginate`, `TransformAll`/`Deliveries` and `Run`.

Auth0's feed, the user-agent parser, `JSON.stringify`, the HMAC, the Data Collector endpoint, the clock and the result of `storage.set` are parameters of the run, bundled in `Orchestrator.Environment`. The log-type catalog is a parameter of the rewrite: `Transform.TransformRecord` and `Orchestrator.Run` hold for any catalog, and `lastLogCheckpoint` passes `LogTypes.Catalog()`.

Where the extension's documented intent and its code differ, the model follows the code:

- A failed request to Auth0 discards every page fetched before it. The run replies 500 and saves nothing.
- A body from Auth0 that is a non-empty string (what `request` leaves of a response that is not JSON) passes the `result && result.length > 0` test. `result.forEach` then throws, so the run sends no reply, pushes nothing and saves nothing (`RunThrowsSavesNothing`).
- `exportLogs` reports `itemsAccepted` as the number of records, not the number the sink accepted. `ExportLogs` returns `itemsAccepted` equal to the record count, and `RunItemsAcceptedOverstates` shows that this count equals the accepted pushes only when every push succeeds.
- Every branch after the export saves the same `checkpointId`: the `_id` of the last fetched log. A run whose pushes were all rejected still advances the checkpoint (`RunAdvancesWhenAllRejected`).

## Model

| member | source | states |
|---|---|---|
| Settings.CheckConfig | index.js:62-76 | the four guard clauses in order; `CheckConfigIsFirstMissing` ties them to the reference reading |
| Settings.FirstMissing | index.js:62-76 | no message exactly when every required setting is set (non-empty) |
| Settings.CheckConfigIsFirstMissing | index.js:62-76 | the guard clauses return the message of the first unset setting of AUTH0_DOMAIN, AUTH0_CLIENT_ID, AUTH0_CLIENT_SECRET, LOGANALYTICS_WORKSPACEID, LOGANALYTICS_WORKSPACEKEY, LOGANALYTICS_NAMESPACE |
| Settings.CheckConfigAcceptsExactly | index.js:62-76 | the run passes the checks if and only if all six settings are set |
| Settings.CheckConfigReportsFirst | index.js:62-76 | when setting i is the first unset one, the 400 carries its message |
| Settings.FirstMissingAt | index.js:62-76 | the reference reading returns the message of the first unset entry |
| Settings.BatchSize | index.js:99-101 | `take` is never a number above 100 |
| Settings.CapBatchSize | index.js:101 | the cap never yields a number above 100 |
| Settings.DefaultBatchSizeParses | index.js:99 | `parseInt` reads the default 100 (as the text "100") as 100, and the cap keeps it |
| Settings.BatchSizeFollowsSetting | index.js:99-101 | a set BATCH_SIZE gives what `parseInt` reads from it if at most 100, NaN if it reads NaN, else 100 |
| Settings.BatchSizeOfNumber | index.js:99-101 | BATCH_SIZE written as the decimal text of n gives min(n, 100) |
| JsText.ParseInt | index.js:99 | `Number.parseInt` with no radix: leading white space skipped, an optional sign, a `0x`/`0X` prefix read as hex, the longest digit run, NaN when there is none; its properties are `ParseIntDecimal` and `DefaultBatchSizeParses` |
| JsText.ParseIntDecimal | index.js:99 | `parseInt` reads back the decimal text of n as n when what follows is not a digit, and, after a lone `0`, not `x` or `X` either (`parseInt("0x1")` is 1) |
| JsText.DecimalString | index.js:23 | `String(n)` for a content length; stated by `DecimalStringDenotes` |
| JsText.DecimalStringDenotes | index.js:23 | the decimal text of a number is non-empty, has only digits, denotes the number, and has no leading zero |
| JsText.DecimalStringInjective | index.js:23 | different lengths are written as different texts |
| JsText.IndexOf | index.js:153 | `indexOf` is non-negative exactly when the pattern occurs, and is then its first position |
| LogTypes.Catalog | index.js:221-412 | the value of the `logTypes` literal, its 48 properties in source order with later definitions winning; its properties are the four lemmas below |
| LogTypes.ObjectLiteralKeys | index.js:221-412 | the keys of an object literal are exactly the property names it lists |
| LogTypes.LaterDefinitionWins | index.js:221-412 | a property not redefined later keeps the value of its last definition |
| LogTypes.ListedCodesAreKnown | index.js:221-412 | every code listed in `logTypes` is a key of the catalog |
| LogTypes.TailCodes | index.js:388-411 | a helper for `LaterDefinitionWins`' precondition: the six codes after the second `fapi` are `limit_wc`, `limit_mu`, `slo`, `flo`, `sd`, `fd`, at the end of the literal |
| LogTypes.FapiTakesLaterDefinition | index.js:361-387 | `fapi` is listed twice with different values; the catalog holds the second, level 3 |
| LogTypes.LimitWcTakesLaterDefinition | index.js:364-391 | `limit_wc` is listed twice, level 4 then level 3; the catalog holds level 3 |
| Transform.EventName | index.js:136-139 | the catalog's event name for a known code, else the code itself; stated by `TransformRenamesKnownCodes` |
| Transform.TruncateDetails | index.js:142-144 | only a non-empty string longer than 32000 characters is cut; stated by `TransformTruncatesDetails` |
| Transform.IsGenericDevice | index.js:153 | the device is non-empty and contains "Generic Smartphone"; stated through `IndexOf` by `TransformDevice` |
| Transform.TransformRecord | index.js:133-156 | the rewrite of one record: type code, event name, truncated details, parsed user agent, generic device replaced; stated by the six lemmas that follow |
| Transform.TruncateText | index.js:142-143 | truncated text is at most 32003 characters |
| Transform.TransformKeepsOriginal | index.js:133-156 | `type_code` holds the original type code; `_id`, `date`, `user_agent` and every property the loop does not write (`ip`, `user_id`, `client_id`, ...) are untouched |
| Transform.TransformRenamesKnownCodes | index.js:136-139 | `type` becomes the catalog's event name for a known code and is unchanged otherwise |
| Transform.TransformTruncatesDetails | index.js:141-144 | non-string details and details of at most 32000 characters are kept; longer ones become their first 32000 characters plus "..." |
| Transform.TruncateIdempotent | index.js:142-143 | truncating already-truncated text changes nothing |
| Transform.TransformDevice | index.js:146-156 | OS fields come from the parser; the device fields are the OS's when the device contains "Generic Smartphone", else the parser's |
| Transform.TransformHidesGenericDevice | index.js:152-156 | "Generic Smartphone" remains in `device` only if the OS string itself contains it |
| Fetch.IsLastPage | index.js:109-121 | the `result && result.length > 0` test fails: an empty array, an empty string or a value with no positive `length` ends the logs; used by `Paginate` and `EndsChain` |
| Fetch.Throws | index.js:109-110 | the test passes for a non-empty string, whose `forEach` is undefined; used by `Paginate` and `ThrowsChain` |
| Fetch.LastId | index.js:116-117 | `result[result.length - 1]._id`, the cursor of the next request and the new `checkpointId`; stated by `PaginateCheckpoint` |
| Fetch.PrependTwice | index.js:109-112 | appending two pages in turn is appending their concatenation |
| Fetch.Paginate | index.js:98-124 | what `getLogs` calls back with: the logs of every non-empty page and the last `_id`, a request error alone, or the `forEach` TypeError of a string body; stated by the chain lemmas below |
| Fetch.ChainTail | index.js:116-117 | a chain of pages seen from its second request on is a chain from the first page's last `_id` |
| Fetch.ChainCons | index.js:116-117 | a non-empty page in front of a chain from its last `_id` is a chain |
| Fetch.ChainSnoc | index.js:109-117 | the feed's non-empty answer at the cursor a chain reached extends the chain, and its last `_id` is the next cursor |
| Fetch.FlattenSnoc | index.js:110-112 | pushing one more page's logs onto `logs` is the concatenation of the chain grown by that page |
| Fetch.PaginateFollowsChain | index.js:98-124 | a complete fetch is a chain of non-empty pages, each asked for with the previous page's last `_id` and ended by an empty or non-array answer; the logs are the pages concatenated in order |
| Fetch.PaginateFailsAfterChain | index.js:103-107 | a failed fetch followed such a chain up to the failing request, and reports only its error |
| Fetch.PaginateThrowsAfterChain | index.js:109-110 | a fetch that threw followed a chain of non-empty pages to a non-empty string body, and the exception is the `forEach` TypeError |
| Fetch.ChainIsFetched | index.js:98-124 | conversely, any such chain ending in a last page is fetched in full, in one request per page plus one |
| Fetch.ChainThenErrorFails | index.js:103-107 | a chain ending in a failed request fails the fetch, however many pages came before |
| Fetch.ChainThenStringThrows | index.js:109-110 | conversely, a chain ending in a non-empty string body throws, however many pages came before |
| Fetch.PaginateFuelIrrelevant | index.js:98-124 | once the feed ends, allowing more requests changes nothing |
| Fetch.PaginateCheckpoint | index.js:116-121 | the checkpoint reached is the `_id` of the last log fetched, or the starting cursor when nothing was fetched |
| AzureClient.LogsUrl | index.js:16-17 | the ingestion endpoint of the workspace, with `2016-04-01` for an unset API version; stated by `LogsUrlDefault` |
| AzureClient.GetClient | index.js:15-20 | what `getClient` closes over: workspace, key, namespace, endpoint and the one date stamp of the run |
| AzureClient.StringToSign | index.js:23 | the five-line string the SharedKey scheme signs; stated by `StringToSignLines` and `StringToSignBindsLengthAndDate` |
| AzureClient.SharedKey | index.js:25 | `SharedKey <workspace id>:<signature>`; stated by `ParseSharedKeyRoundTrip` |
| AzureClient.Hash | index.js:21-25 | the Authorization value for one request, signing its string with the workspace key |
| AzureClient.PushRequest | index.js:28-43 | the request `pushRecord` sends; stated by `PushRequestSignsItself` |
| AzureClient.IsAccepted | index.js:45 | no transport error and status 200 or 202 |
| AzureClient.LogsUrlDefault | index.js:16-17 | an unset API version is the same as `2016-04-01` |
| AzureClient.StringToSignLines | index.js:23 | the signed string splits into exactly the five lines: verb, content length, content type, `x-ms-date:` date, resource |
| AzureClient.StringToSignBindsLengthAndDate | index.js:21-25 | two signed strings for the same verb, type and resource are equal only for the same length and date |
| AzureClient.ParseSharedKeyRoundTrip | index.js:25 | the Authorization value reads back as the workspace id and the signature |
| AzureClient.PushRequestSignsItself | index.js:28-43 | each push goes to the endpoint by POST with the record as body, its `x-ms-date`, `Content-Type` and `Log-Type` headers, and an Authorization that signs its own body length and date |
| Orchestrator.TransformAll | index.js:132-156 | every record rewritten by `TransformRecord` with its own parsed user agent; `ExportLogs` is proved against it |
| Orchestrator.Delivered | index.js:28-51 | one push: the sink's answer to the record's signed request resolves the promise only with no error and status 200 or 202; stated by `Deliveries` |
| Orchestrator.DeliveriesStep | index.js:158 | pushing one more record adds exactly its outcome after those before it |
| Orchestrator.Deliveries | index.js:132-160 | one outcome per record, each the sink's verdict (200 or 202) on that record's request |
| Orchestrator.RunClient | index.js:85 | the client built from LOGANALYTICS_WORKSPACEID, LOGANALYTICS_WORKSPACEKEY, LOGANALYTICS_NAMESPACE and LOGANALYTICS_APIVERSION; used by `Export` and `LastLogCheckpoint` |
| Orchestrator.Commit | index.js:178-214 | the reply and saved cursor of the three branches after `exportLogs`; stated by `CommitSavesCheckpoint` |
| Orchestrator.Run | index.js:59-219 | the whole run: 400 for a missing setting, 500 for a failed fetch, an uncaught exception for a string body, else export and save; stated by the `Run…` lemmas below |
| Orchestrator.Export | index.js:129-214 | the part of a run after a complete fetch: rewrite and push each record, then `Commit` with `itemsAccepted` = number of records |
| Orchestrator.FailureReply | index.js:173-176 | a failed request replies 500 with its error; the `forEach` exception escapes with no reply |
| Orchestrator.CountAcceptedBound | index.js:161-194 | accepted pushes never exceed the records; all accepted exactly when every push was, none exactly when every push was rejected |
| Orchestrator.CommitSavesCheckpoint | index.js:178-214 | every branch saves the current `checkpointId`; the reply is 200 exactly when the response parsed and storage reported no error, else 500 |
| Orchestrator.RunRejectsMissingSetting | index.js:62-76 | a missing setting is a 400 with its message, and nothing is saved or pushed |
| Orchestrator.RunFetchErrorSavesNothing | index.js:173-176 | a failed request to Auth0 is a 500 with its error; nothing is saved and nothing pushed |
| Orchestrator.RunThrowsSavesNothing | index.js:109-110 | a non-empty string body from Auth0 throws the `forEach` TypeError: no reply, nothing pushed, nothing saved |
| Orchestrator.RunSavesLastFetchedId | index.js:178-214 | after a complete fetch each record is pushed once, the saved cursor is the last fetched `_id` (or the old one), and the reply is 200 unless storage failed |
| Orchestrator.RunIgnoresDeliveryOutcome | index.js:158-214 | the reply and the saved cursor do not depend on what the sink answers |
| Orchestrator.RunItemsAcceptedOverstates | index.js:161 | after a complete fetch the accepted pushes never exceed the logs (the `itemsAccepted` `ExportLogs` reports), and equal them exactly when every push was accepted |
| Orchestrator.RunAdvancesWhenAllRejected | index.js:193-214 | when every push is rejected, none is counted, yet the cursor still advances past every fetched log |
| Orchestrator.CheckpointStore.constructor | index.js:78-79 | storage starts with the given cursor and no writes |
| Orchestrator.CheckpointStore.Load | index.js:78-79 | a successful `storage.get` yields the stored cursor |
| Orchestrator.CheckpointStore.Save | index.js:184-214 | one more write; the cursor is replaced unless storage reports an error, which is handed back |
| Orchestrator.Invocation.constructor | index.js:79-97 | a run starts from the loaded cursor with no logs |
| Orchestrator.Invocation.GetLogs | index.js:98-124 | `logs` and `checkpointId` end as `Paginate` says for a complete fetch; a failed request or a throwing string body is returned, with `logs` holding the pages of the chain before it and `checkpointId` the cursor of the request that stopped it |
| Orchestrator.Invocation.ExportLogs | index.js:129-163 | every record is rewritten in place as `TransformAll` says, each push's outcome is `Deliveries` of the rewritten records, `checkpointId` is untouched, and the response is `itemsAccepted` = number of records |
| Orchestrator.SaveCheckpoint | index.js:178-214 | the reply and the stored cursor are those of `Commit`, after exactly one storage write |
| Orchestrator.LastLogCheckpoint | index.js:59-219 | the reply, each push's outcome, the number of storage writes and the stored cursor are exactly those of `Run` with the `logTypes` catalog |

## Left out

- The Express/webtask wiring (index.js:465-489) is not modelled: routing, the middleware that fetches the Management API token, and `Webtask.fromExpress`. `api.get` at index.js:485 names an undefined `api` and is not modelled either.
- `getTokenCached` (index.js:440-463) is not modelled. It is an lru-memoizer cache around an HTTP call, and its token only goes into the Authorization header of the Auth0 request, which the feed parameter stands for.
- HTTP, storage and the clock are not modelled. Each request and its answer is a parameter of the run: the Auth0 feed (`Fetch.Feed`), the sink, the `storage.set` error and `now`. A failed `storage.get` is not modelled: `Load` always succeeds. When the read fails without data, the code starts from `null` (index.js:79); `Run` with `stored = None` covers that run.
- `crypto.createHmac`, `new Buffer(key, "base64")` and the base64 digest are left out as cryptography. They are the `Hmac` parameter.
- `useragent.parse` and the `toString`/`toVersion` of its result are left out as a foreign library. They are the `parse` parameter, giving four strings.
- `JSON.stringify` is the `serialize` parameter, and `JSON.parse` of the export's response is left out. The response the code builds always parses, so the `catch` branch (index.js:181-191) is modelled by `Commit`/`SaveCheckpoint` but never reached by a run.
- `authenticate` (index.js:90-92) always calls back without an error, so its 500 branch (index.js:168-171) cannot be taken and is not modelled.
- Promise timing is not modelled. In the code every push runs in a `.then` callback (index.js:158), so it starts only after the synchronous code in progress has finished, and that includes the `exportLogs` callback, which calls `storage.set` (index.js:161-214). So `storage.set` is called before the first push starts, and the reply may be sent while pushes are pending. The model does every push in order and then saves. The reply and the saved cursor do not depend on the pushes (`RunIgnoresDeliveryOutcome`), so only the order of effects differs. `console.log` output is left out.
- LogRecords.LogRecord: the properties the exporter never reads, and `details` that is neither absent nor a string, are carried as their JSON text and not parsed. A property Auth0 sent under a name the exporter writes (`type_code`, `os`, `os_version`, `device`, `device_version`) would be overwritten in place by the code; the model assumes Auth0 sends none and keeps `others` apart from those fields.
- Transform.TruncateDetails: `details` that is a JSON array of more than 32000 elements passes the length test, and `substring` then throws in the middle of the `exportLogs` loop, after earlier pushes were already chained. The model keeps such details unchanged. The exception, and which pushes still go out after it, are not modelled.
- Fetch.Paginate: a JSON object body with a positive numeric `length` property would also throw in `forEach`. The model reads every non-string, non-array body as the end of the logs.
- Fetch.Paginate: the code keeps asking while Auth0 returns non-empty pages. The model adds a bound on the number of requests (`fuel`), and each imperative method requires the feed to end within it; a feed that never ends is not modelled.
- JavaScript numbers are doubles; here they are unbounded integers. So a `BATCH_SIZE` beyond 2^53 loses no precision in the model, and `parseInt` never yields `-0`.
- Lengths and `substring` count UTF-16 code units in JavaScript and characters here; they differ only for characters outside the Basic Multilingual Plane.
- A log type code that names a property of `Object.prototype` (such as `constructor`) would be found by `logTypes[record.type]` in JavaScript; the model's catalog has only the listed codes.
- The `level` the loop reads from the catalog (index.js:134-137) is never written to the record or sent, so the model does not carry it past the catalog.
- Orchestrator.Invocation.GetLogs: it takes `take` as a parameter, which `LastLogCheckpoint` computes with `BatchSize`. The code recomputes the same value from the same settings on every page.
