# lbry-desktop JSON-RPC clients, modelled in Dafny

This project models the two hand-written JSON-RPC clients of lbry-desktop:

- the daemon client `Lbry` (`ui/lbry.ts`) and its `Proxy`;
- the comments-service client `Comments` (`ui/comments.ts`).

Both are modelled as immutable state records and pure functions. The network,
the clock and the caller-supplied override functions are parameters, so every
call is a function from (state, arguments, environment) to (requests sent,
overrides invoked, how the promise settled).

| file | module | what it models |
|---|---|---|
| `js_values.dfy` | `JsValues` | parsed JSON, `undefined` as `None`, JavaScript truthiness, property reads, the `params = {}` default |
| `media_types.dfy` | `MediaTypes` | `getMediaType`, once as written (the `reduce` over the regex table) and once as a reference classifier, proved equal |
| `transport.dfy` | `Transport` | the request envelope and URL, `checkAndParse`, and the success callback of `apiCall` |
| `supervisor.dfy` | `Supervisor` | the polling loop of `connect`: a fold over the outcomes of successive `status` polls, with the retry budget and delays |
| `daemon.dfy` | `Daemon` | the `Lbry` fields, the header and override stores, routing, `apiCall`, the facade methods, `publish`, the `Proxy` `get` trap, and memoised `connect` |
| `comments.dfy` | `Comments` | the `Comments` fields, `setServerUrl`, `fetchCommentsApi` and the facade table |

The model follows the code of `ui/lbry.ts`, including these behaviours:

- `connect` never sets `isConnected`. The field stays `false` whatever the loop does (`Daemon.ConnectLeavesIsConnectedFalse`).
- The facade methods do not call `connect` before dispatching.
- Only `publish` consults the override registry. Every other facade method ignores it (`Daemon.OverridesOnlyReachPublish`).
- A 2xx reply whose `error` or `result.error` is truthy rejects with that raw value, not with an `Error` built from it.
- A 2xx reply with neither `error` nor `result` resolves with `undefined`. It is not a protocol error.
- `name in target` inside the `Proxy` also finds names inherited from `Object.prototype`, such as `toString`. Those names are never forwarded to the daemon.

## Model

| member | source | states |
|---|---|---|
| `MediaTypes.FromName` | ui/lbry.ts:6 | reading a returned string back gives the category with exactly that name; the result is `Other` exactly when the string is not one of the ten names of the union |
| `MediaTypes.NameRoundTrip` | ui/lbry.ts:6 | category names are a faithful encoding: reading back the name of a canonical category gives the category |
| `MediaTypes.NameInjective` | ui/lbry.ts:6 | two canonical categories with the same name are equal |
| `MediaTypes.ExtensionListsAreDotFree` | ui/lbry.ts:226-234 | no alternative in any of the nine patterns contains a `.` |
| `MediaTypes.GroupsAreDotFree` | ui/lbry.ts:225-235 | every row of the ordered table has dot-free alternatives and a dot-free category name |
| `MediaTypes.AfterLastDot` | ui/lbry.ts:226-234 | the result is a dot-free suffix of the input, preceded by a `.` when the input has one, and the whole input otherwise |
| `MediaTypes.LeadingToken` | ui/lbry.ts:246 | `/^[^/]+/`: the result is the longest prefix without `/`; the input either ends there or continues with `/` |
| `MediaTypes.FirstGroup` | ui/lbry.ts:237-242 | the index returned lists the extension and no earlier group does; `None` means no group lists it |
| `MediaTypes.Classify` | ui/lbry.ts:223-251 | the reference classifier never returns an `Other` token that names an enumerated category |
| `MediaTypes.AfterLastDotOfSuffix` | ui/lbry.ts:226-234 | a name ending in `.e`, with `e` free of dots, has exactly `e` after its last dot |
| `MediaTypes.EndsWithDotIff` | ui/lbry.ts:226-234 | `\.e$` matches exactly when the text has a dot and its text after the last dot is `e` |
| `MediaTypes.PatternMatchesIff` | ui/lbry.ts:226-238 | a case-insensitive pattern test succeeds exactly when the name has a `.` and its lower-cased extension is listed in the pattern |
| `MediaTypes.ReduceDotFree` | ui/lbry.ts:237-242 | once the accumulator holds a category name, no later pattern changes it |
| `MediaTypes.ReduceIsFirstMatch` | ui/lbry.ts:237-244 | the `reduce` returns the name of the first matching group, or leaves the file name when none matches |
| `MediaTypes.ClassifyMatchesSource` | ui/lbry.ts:223-251 | on every input, `getMediaType` as written returns the name of the reference category |
| `MediaTypes.FileNameBranch` | ui/lbry.ts:224-244 | with a `.` in the file name, the first group listing its extension decides; `unknown` exactly when no group lists it, whatever the content type |
| `MediaTypes.FileNameCaseInsensitive` | ui/lbry.ts:226-234 | lower-casing the file name never changes the classification |
| `MediaTypes.ContentTypeBranch` | ui/lbry.ts:245-250 | without a `.` in the file name, the result is the non-empty prefix of the content type before its first `/`, or `unknown` when the content type is absent, empty or starts with `/` |
| `MediaTypes.DocumentBeforeEBook` | ui/lbry.ts:230-231 | `.pdf` and `.docx` are listed by both the document and e-book patterns, and classify as `document` |
| `MediaTypes.ExampleVideo` | ui/lbry.ts:226 | `movie.mp4` is a video |
| `MediaTypes.ExampleComicBook` | ui/lbry.ts:233 | `archive.cbz` is a comic book, reached only at the eighth pattern |
| `MediaTypes.ExampleNoExtension` | ui/lbry.ts:224-250 | a file name without a `.` and no content type give `unknown` |
| `MediaTypes.ExampleImageContentType` | ui/lbry.ts:245-247 | content type `image/png` without a file name gives `image` |
| `MediaTypes.ExampleOtherContentType` | ui/lbry.ts:245-247 | a content-type prefix outside the union, `model`, is returned as is and not clamped to `unknown` |
| `Transport.EndpointUrl` | ui/lbry.ts:397 | the URL is the base, then `?m=`, then the method name, each at its own position |
| `Transport.EndpointUrlInjective` | ui/lbry.ts:397 | with the same base, the URL determines the method name |
| `Transport.CheckAndParse` | ui/lbry.ts:359-373 | a body is passed on exactly when the status is 2xx and it parsed; an unparsable body rejects as invalid JSON; a non-2xx `null` body throws a TypeError; otherwise the rejection carries `error.message` for an object `error`, the `error` itself otherwise, and the protocol-error message when `error` is falsy |
| `Transport.Settle` | ui/lbry.ts:399-406 | a reply rejects exactly when `error` or `result.error` is truthy, with that raw value (`error` first); otherwise it resolves with `result` unchanged; a `null` body throws |
| `Transport.DaemonOutcome` | ui/lbry.ts:397-407 | a non-2xx reply always rejects; a resolved call had a 2xx, parsed, non-null body and resolves with its `result` |
| `Transport.SuccessReplyClassification` | ui/lbry.ts:399-406 | for a 2xx reply: rejection iff a truthy `error` or `result.error`; otherwise `result`; `undefined` when both are absent |
| `Transport.ErrorInsideResultRejects` | ui/lbry.ts:400-403 | a 2xx reply carrying `{result: {error: e}}` with a truthy `e` rejects with `e` |
| `Supervisor.Continue` | ui/lbry.ts:327-342 | the loop makes at most 201 polls; the delay after failed poll `k` is `RetryDelay(k)`; every poll before the last failed; giving up happens at poll 201 with "Unable to connect to LBRY"; connecting carries the last poll's value |
| `Supervisor.RunSupervisor` | ui/lbry.ts:327-342 | the imperative timer chain computes the same run as the fold, with at most 201 polls and delay `RetryDelay(k)` after failed poll `k` |
| `Supervisor.RetryBudget` | ui/lbry.ts:334-337 | at most 201 polls and at most 49·400 + 151·1000 ms of scheduled delay; a loop that gave up used both bounds exactly |
| `Supervisor.ExhaustedBudgetGivesUp` | ui/lbry.ts:334-337 | 201 failed polls in a row end the loop with the give-up error after exactly 201 polls |
| `Supervisor.FirstSuccessConnects` | ui/lbry.ts:330-332 | the first successful poll within the budget connects with that poll's value |
| `Daemon.SetDaemonConnectionString` | ui/lbry.ts:202-204 | only the daemon connection string changes, to the given value |
| `Daemon.SetApiHeader` | ui/lbry.ts:206-208 | the key now maps to the value, except `__proto__`, which `Object.assign` cannot add and which leaves the state unchanged; every other header and every other field is unchanged |
| `Daemon.ProtoKeyNeverStored` | ui/lbry.ts:198-214 | the initial headers have no `__proto__` key and neither header update adds one |
| `Daemon.UnsetApiHeader` | ui/lbry.ts:210-214 | only the key is removed; the state is unchanged when the key is absent |
| `Daemon.SetOverride` | ui/lbry.ts:216-218 | only the override entry for the name is written |
| `Daemon.UnsetUndoesSet` | ui/lbry.ts:206-214 | unsetting a header that was just added restores the previous state |
| `Daemon.SetApiHeaderLastWins` | ui/lbry.ts:206-208 | of two writes to one header the last wins; writing a header twice is the same as once |
| `Daemon.UnsetApiHeaderIdempotent` | ui/lbry.ts:210-214 | unsetting a header twice is the same as once |
| `Daemon.RequestFor` | ui/lbry.ts:381-397 | the URL is the routed base followed by `?m=` and the very method the envelope names; the envelope's id is the clock reading and its `jsonrpc` is "2.0"; the headers are the current ones |
| `Daemon.ApiCall` | ui/lbry.ts:375-408 | exactly one request is sent, no override is invoked, and the reply to it settles the call |
| `Daemon.Routing` | ui/lbry.ts:393-397 | the URL starts with the routed base and continues with `?m=` and the method name |
| `Daemon.CallFacade` | ui/lbry.ts:257-321 | a facade method sends one request named after itself, with its params defaulting to `{}` (always `{}` for `stop`, `version` and `wallet_decrypt`), the current headers, settled by the reply |
| `Daemon.Publish` | ui/lbry.ts:349-356 | with a `publish` override, nothing is sent and the override is invoked once with the params and decides the outcome; without one, one `publish` request is sent |
| `Daemon.OverriddenPublish` | ui/lbry.ts:216-218 | after `setOverride('publish', h)`, publishing invokes `h` exactly once with the same params and sends nothing |
| `Daemon.OverridesOnlyReachPublish` | ui/lbry.ts:257-321 | registering an override of any name changes no facade method |
| `Daemon.Get` | ui/lbry.ts:425-436 | the trap returns the target's member exactly when the name is in the target, and otherwise a forwarder for that name |
| `Daemon.UndeclaredNamesForward` | ui/lbry.ts:431-434 | calling the forwarder of an undeclared name sends one request naming it, with params defaulting to `{}`, and no override affects it |
| `Daemon.FacadeAgreesWithFallback` | ui/lbry.ts:410-421 | each declared facade method makes exactly the call the fallback would make for its name |
| `Daemon.PublishWithoutOverrideIsForwarded` | ui/lbry.ts:349-356 | without an override, `publish` is the call the fallback would make |
| `Daemon.GetExamples` | ui/lbry.ts:427-429 | `status`, `setApiHeader` and the inherited `toString` are found in the target |
| `Daemon.Connect` | ui/lbry.ts:324-347 | the first call starts the loop and stores it; later calls return the stored loop and start nothing; no other field changes |
| `Daemon.ConnectIsMemoised` | ui/lbry.ts:325-346 | a second `connect()` shares the first one's loop and leaves the state unchanged |
| `Daemon.StatusPolls` | ui/lbry.ts:331 | each poll of the loop is a `status` request with params `{}`, built from the client state and clock of its own tick, settled by the daemon reply |
| `Daemon.PollFollowsConnectionString` | ui/lbry.ts:393-397 | a poll made after `setDaemonConnectionString(url)` is sent to the new URL |
| `Daemon.ConnectLeavesIsConnectedFalse` | ui/lbry.ts:193 | `isConnected` is still false after `connect`, whatever the polls returned |
| `Comments.Init` | ui/comments.ts:191-195 | the initial URL is the configured server, not custom, and enabled exactly when that server string is non-empty |
| `Comments.SetServerUrl` | ui/comments.ts:196-200 | `undefined` restores the configured server and clears `isCustomServer`; any other value becomes the URL; both flags agree with the new URL |
| `Comments.Configure` | ui/comments.ts:191-200 | after creation and any series of `setServerUrl` calls, `enabled` iff the URL is non-empty and `isCustomServer` iff it differs from the configured server |
| `Comments.SetServerUrlIdempotent` | ui/comments.ts:196-200 | repeating `setServerUrl` with the same argument changes nothing |
| `Comments.CommentsRequest` | ui/comments.ts:276-288 | the URL is the configured URL followed by `?m=` and the very method the envelope names; the envelope's id is always 1 and its `jsonrpc` "2.0"; the only header is `Content-Type: application/json` |
| `Comments.CommentsRouting` | ui/comments.ts:276-288 | every request has id 1 and the one fixed header whatever the method, goes to the configured URL, and two requests share a URL exactly when they name the same method |
| `Comments.CommentsOutcome` | ui/comments.ts:290-297 | no response, an unparsable body and a `null` body reject; otherwise a call rejects exactly when `res.error` is truthy, with `error.message`, and resolves with `res.result` when it is not |
| `Comments.FetchCommentsApi` | ui/comments.ts:269-298 | an empty URL rejects with "Commenting server is not set." before the enabled flag is read; a disabled client rejects with "Comments are not currently enabled."; neither sends a request; otherwise one request is sent |
| `Comments.NotEnabledUnreachable` | ui/comments.ts:270-274 | in every state built by creation and `setServerUrl`, a call either rejects as "not set" or sends its request |
| `Comments.StatusIgnored` | ui/comments.ts:290-297 | the HTTP status never changes the outcome |
| `Comments.DiffersFromDaemon` | ui/comments.ts:290-297 | for any truthy `e`, a 2xx reply `{result: {error: e}}` resolves with that `result` here while the daemon client rejects with `e`; a failing status with a `result` resolves |
| `Comments.CallFacade` | ui/comments.ts:202-266 | a facade method sends nothing and rejects with an `Error` exactly when the URL is empty or the client disabled; otherwise it sends one request named by its fixed RPC name, settled by the reply |
| `Comments.FacadeExamples` | ui/comments.ts:205-266 | `moderation_unblock` maps to `moderation.UnBlock`, `comment_by_id` to `comment.ByID`, `super_list` to `comment.SuperChatList`; an undeclared name has no RPC name |
| `Comments.RpcNameRoundTrip` | ui/comments.ts:202-266 | reading the facade table backwards from any RPC name in it gives back the facade method |
| `Comments.RpcTextInjective` | ui/comments.ts:202-266 | the text `namespace.operation` determines the namespace and the operation |
| `Comments.RpcNameInjective` | ui/comments.ts:202-266 | two facade methods that send the same RPC name are the same method |
| `Comments.RpcNameForm` | ui/comments.ts:202-266 | every RPC name is one of the namespaces `moderation`, `comment`, `reaction`, `setting`, then `.`, then a non-empty operation |

## Left out

- `fetch`, HTTP and JSON text: a reply is an abstract `Exchange`, either no response or a status with a parsed body (`None` when `response.json()` fails). Request bodies are an `Envelope` value, not serialised text.
- Promises and timers: each call is a function returning its settlement. The connect loop is a fold over the outcomes of its polls, and the delays it schedules are returned as a list, not waited for.
- Concurrency: calls are independent functions of the state, and the state changes only through the update functions. Each poll of the connect loop takes the client state of its own tick; which configuration changes happen between ticks is an input, not modelled.
- JSON numbers are integers, because no decision in the clients depends on fractions.
- `new Error(message)` keeps the message value as given. The conversion of a non-string message to text is not modelled.
- The request id of `apiCall` is the clock reading `new Date().getTime()`, passed in as `now`.
- Symbol-keyed property reads on the `Proxy` are not modelled; property names are strings.
- `proxy-polyfill` (ui/lbry.ts:1) is an import with no effect on the modelled behaviour.
- `getApiRequestHeaders` is a plain read of the `headers` field.
- Override functions are identified by a `HandlerId`. Their behaviour is a parameter of the `World`, so only `publish`'s use of them is modelled.
- The TypeScript interfaces for parameter shapes in both files describe types only and make no runtime checks. Parameters are arbitrary JSON.
- `COMMENT_SERVER_API` is a build-time constant. It is the `serverApi` field of the comments state, so every property holds for any value.
- The `i` flag is modelled as ASCII lower-casing. Outside the `u` flag, case folding never maps a non-ASCII character onto an ASCII letter or digit, and every pattern alternative is ASCII.
- The UI, the rest of `ui/app.js`, and the build configuration files are not part of this model.
