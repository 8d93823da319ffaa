# opentracing-auto, modelled in Dafny

opentracing-auto instruments a Node.js program for OpenTracing without changes to
the program's own code. When a supported library is loaded, the library's
functions are wrapped (monkey-patched, through shimmer). Every inbound request
then gets one root span per configured tracer, and every outbound call one child
span per tracer. Each span is tagged, carries error logs, is propagated in HTTP
headers and is finished when the operation completes.

This project models that core as Dafny modules that follow the repository's
files:

- `Tracing` (the tracer interface and a journal of everything the adapters ask of
  tracers and spans);
- `Cls` (the per-tracer context store of `src/cls.js`);
- `Lifecycle` (starting one span per tracer in a loop);
- `Shim` (shimmer's wrap and unwrap on a table of named slots);
- `Registry` and `Instrument` (`src/instrumentation/index.js` and
  `src/instrument.js`: which adapter applies to which module version, patching
  on load, unpatching);
- one module per adapter (`Express`, `ExpressError`, `Restify`, `Koa`, `Mali`,
  `HttpClient`, `HttpsClient`, `Redis`, `Ioredis`, `Pg`, `MongodbCore`, `Mysql`,
  `Mysql2`, `Sequelize`, `GrpcCaller`);
- shared modules for the server side (`Server`), callback wrappers (`Callbacks`),
  event emitters (`Events`) and the HTTP client side (`Http`).

Observable behaviour is a journal. A `Tracing.Recorder` holds `calls`, the
sequence of span starts, tags, logs, finishes, injections and calls into the
instrumented program's own functions, in order. Each operation is a method
proved against a function that spells out the journal entries it appends. The
properties the library promises are lemmas about those functions:

- every span is finished exactly once when its operation completes, with the
  exceptions listed under "Left out": a koa request whose downstream throws
  leaves its spans open, the http client finishes once per response and once
  per error event, a mysql query once per 'end' event, and the https client as
  written can finish twice (see Findings);
- the error tag is set exactly when an error or a status over 399 occurs;
- the program's own callback is called exactly once with its original arguments;
- headers carry each tracer's span;
- unpatching restores what patching wrapped.

Values that come from outside the modelled code are parameters:

- what original library functions return;
- how a request's downstream ends;
- the result of `url.format`, `url.parse`, `JSON.stringify` and
  `getOriginUrlWithoutQs`;
- the running Node version.

Where the description of the system and the code disagree, the model follows the
code, except where the code is evidently wrong. Those places are listed under
Findings. Each has a member that models the code as written, and the adapters
are built on the corrected behaviour. In particular, the client adapters start
their child spans with the tags they request, which `cls.startChildSpan` drops,
and the koa and mali middlewares start their root spans as children of the
extracted context with the server tags, where the code passes the options bag
as the parent. "Left out" names every member this affects.

## Model

| member | source | states |
|---|---|---|
| Tracing.JsString | src/instrumentation/mali.js:23 | a string conversion is empty exactly for the empty string and leaves strings as they are |
| Tracing.Prefixed | src/instrumentation/redis.js:37 | a span name `${prefix}_${name}` (redis, ioredis and mongodb) has the prefix and the name as its two parts, so both can be read back |
| Tracing.JoinCommaAppend | src/instrumentation/redis.js:36 | an array of arguments converted to a string joins its parts with one ',' between any two of them: the string of `a.concat(b)` is the string of `a`, a comma, and the string of `b` |
| Tracing.ErrorFields | src/instrumentation/expressError.js:43-48 | the error log record carries exactly `event: 'error'`, the error object, its message and its stack |
| Tracing.Extract | src/instrumentation/express.js:26 | `extract` yields the span context the carrier holds under the tracer's header, and null when the carrier or the header is missing |
| Tracing.OpCallsAt | src/instrumentation/express.js:65 | `spans.forEach(op)` applies the operation to the i-th span as its i-th call |
| Tracing.InOpCalls | src/instrumentation/express.js:65 | a call belongs to `spans.forEach(op)` exactly when it is that operation on one of the spans |
| Tracing.SpanCallsIn | src/instrumentation/express.js:57-65 | on a given span, `spans.forEach(op)` makes exactly that operation's tag, log or finish call, and only when the span is in the list |
| Tracing.ConsecutiveSpans | src/instrumentation/express.js:27-29 | the spans of one `tracers.map` are handed out in order and are pairwise distinct |
| Tracing.ConsecutiveMember | src/instrumentation/express.js:27-29 | a span is one of those n spans exactly when its id lies in the range handed out |
| Tracing.FinishEachOnce | src/instrumentation/express.js:65 | finishing every span of a duplicate-free list finishes each span exactly once, and no other span |
| Tracing.NoFinishIn | src/instrumentation/express.js:57-64 | tagging or logging spans never finishes one |
| Tracing.Recorder.StartSpan | src/cls.js:58-60 | `startSpan` creates a span never handed out before and records its name, parent and tags |
| Tracing.Recorder.ForEach | src/instrumentation/express.js:65 | the loop applies the operation to each span once, in list order, and starts no span |
| Tracing.Recorder.Inject | src/instrumentation/koa.js:70 | `inject` writes the tracer's header into the carrier and changes nothing else in it |
| Cls.AssignedMerges | src/cls.js:17-26 | `assign` merges the fields into the tracer's slot, later keys overwriting; the slot keeps its other fields and every other tracer's slot is untouched |
| Cls.CurrentSpan | src/cls.js:38-40 | the root span of a tracer is its slot's `currentSpan`, undefined when the slot or the field is missing |
| Cls.ParentContext | src/cls.js:85-86 | the parent of a child span is the current span's context; a falsy current span gives undefined, and a truthy non-span makes `context()` throw |
| Cls.ChildParent | src/cls.js:85-86 | in a store whose current spans are all spans, the parent computation cannot throw and gives the current span's context |
| Cls.RootSpanRecorded | src/cls.js:62-64 | after a root span is assigned, it is the tracer's current span, and every current span is still a span |
| Cls.ContextStore.constructor | src/cls.js:8-10 | the store starts from the empty default context |
| Cls.ContextStore.Assign | src/cls.js:17-26 | `assign` replaces the context by the merge of the fields into this tracer's slot |
| Cls.ContextStore.GetRootSpan | src/cls.js:33-41 | throws 'tracer is required' exactly when there is no tracer, and otherwise returns the tracer's current span (undefined when it has none) |
| Cls.ContextStore.StartRootSpan | src/cls.js:50-69 | fails with 'tracer is required' or 'operationName is required', changing nothing; otherwise starts exactly one fresh span with `childOf: parent` and no tags, makes it the tracer's current span and returns it |
| Cls.ContextStore.StartRootSpanWithTags | src/instrumentation/koa.js:34-42 | the corrected root start: as `startRootSpan`, but the caller's tags reach `startSpan` |
| Cls.ContextStore.StartChildSpan | src/cls.js:77-95 | fails as `startRootSpan` does, or with the TypeError of a non-span current span; otherwise starts one fresh span whose parent is the current span's context, with no tags whatever the caller passed, leaving the context alone |
| Cls.ContextStore.StartChildSpanWithTags | src/instrumentation/redis.js:38-45 | the corrected child start: as `startChildSpan`, with the caller's tags passed on to `startSpan` |
| Cls.DroppedTagsExample | src/cls.js:76-89 | a child span requested with the redis tags is started with no tags at all |
| Lifecycle.ChildStartsAt | src/instrumentation/redis.js:38-45 | the i-th span of `tracers.map(startChildSpan)` belongs to the i-th tracer, is the i-th fresh span and is linked to that tracer's current span; it carries the tags passed in (the corrected start of Finding 1; with no tags passed it is the code's start) |
| Lifecycle.StartChildOf | src/cls.js:77-95 | in a valid store, starting a child span for a tracer with an operation name cannot fail; the span carries the tags passed in (the corrected start of Finding 1) |
| Lifecycle.StartChildSpans | src/instrumentation/redis.js:38-45 | one child span per tracer, in tracer order; the spans are fresh and consecutive, carry the tags passed in (the corrected start of Finding 1) and the context is not written |
| Lifecycle.RootStartsAt | src/instrumentation/express.js:27-29 | the i-th root span belongs to the i-th tracer, is the i-th fresh span and has the i-th extracted parent |
| Lifecycle.NamespaceAt | src/cls.js:19 | the i-th namespace key is the i-th tracer's `__clsNamespace` |
| Lifecycle.RootsAssignedValid | src/cls.js:62-64 | recording root spans keeps every current span a span |
| Lifecycle.RootsRecorded | src/instrumentation/express.js:27-29 | when the tracers have distinct namespaces, each tracer's current span afterwards is the root span started for it |
| Lifecycle.RootsElsewhere | src/cls.js:17-26 | the slots of namespaces no tracer uses keep their fields |
| Lifecycle.StartRootOf | src/cls.js:50-69 | starting a root span for a tracer with an operation name cannot fail |
| Lifecycle.StartRootSpans | src/instrumentation/express.js:26-29 | one root span per tracer, each with its own parent; the spans are fresh and consecutive, each becomes its tracer's current span, and the store stays valid |
| Lifecycle.RootSpans | src/instrumentation/grpc-caller.js:25 | one root span per tracer namespace, in tracer order |
| Lifecycle.Extracted | src/instrumentation/express.js:26 | the i-th parent is what the i-th tracer extracts from the headers |
| Lifecycle.SpanAt | src/instrumentation/koa.js:70 | `spans[key]` is the key-th span, or undefined past the end of the list |
| Lifecycle.InjectCalls | src/instrumentation/koa.js:70 | the i-th inject call is the i-th tracer injecting the i-th value |
| Lifecycle.InjectedAllHeaders | src/instrumentation/koa.js:70 | with distinct tracer headers, every tracer finds its own span in the carrier |
| Lifecycle.InjectedAllKeeps | src/instrumentation/koa.js:70 | carrier keys that no tracer writes keep their values |
| Lifecycle.InjectAll | src/instrumentation/koa.js:70 | the inject loop leaves the carrier as specified, makes one inject call per tracer in order, and starts no span |
| Lifecycle.SpansByTracer | src/instrumentation/koa.js:70 | the values injected are `spans[key]` for every tracer index |
| Shim.WrapSlot | src/instrumentation/restify.js:71 | wrapping puts the adapter's wrapper in front of exactly the named method, leaving an object without it and every other method as they were |
| Shim.UnwrapSlot | src/instrumentation/restify.js:77 | unwrapping takes the outermost wrapper off the named method and leaves a method holding no wrapper, and every other method, as it was |
| Shim.ReplaceSlot | src/instrumentation/sequelize.js:15-16 | a plain assignment puts the adapter's function in the slot, in front of what was there (undefined when nothing was), and changes nothing else |
| Shim.WrapSlotsAt | src/instrumentation/express.js:77-80 | wrapping a duplicate-free list of methods wraps each listed method once and no other |
| Shim.UnwrapSlotsAt | src/instrumentation/express.js:86-89 | unwrapping such a list unwraps each listed method once and no other |
| Shim.UnwrapUndoesWrap | src/instrumentation/express.js:77-89 | unpatching a list of methods after patching it gives back the object's original methods |
| Shim.Target.Wrap | src/instrumentation/restify.js:71 | the object's methods after `shimmer.wrap` are exactly as the wrap specifies |
| Shim.Target.Replace | src/instrumentation/sequelize.js:15-16 | the object's methods after the assignment are exactly as the replacement specifies |
| Shim.Target.Unwrap | src/instrumentation/restify.js:77 | the object's methods after `shimmer.unwrap` are exactly as the unwrap specifies |
| Shim.Target.WrapEach | src/instrumentation/express.js:77-80 | the wrap loop wraps the listed methods in order |
| Shim.Target.UnwrapEach | src/instrumentation/express.js:86-89 | the unwrap loop unwraps the listed methods in order |
| Server.ActionCalls | src/instrumentation/express.js:14-20 | a wrapped application method always ends by calling the original with the same arguments, and first registers the middleware exactly when the application is neither patched nor routed yet |
| Server.InstalledAtMostOnce | src/instrumentation/express.js:15-18 | over any series of calls to wrapped methods, the middleware is installed at most once, and exactly once when some call finds no router and the application was not patched |
| Server.Application.ActionWrapped | src/instrumentation/express.js:14-20 | the wrapper sets the patched flag when it installs, returns what the original returns, and its calls are those specified |
| Server.RecordPeer | src/instrumentation/express.js:39-41 | the peer address is logged on every span exactly when it is truthy |
| Server.StartTags | src/instrumentation/express.js:35-41 | each span of the request, and no other, is tagged with the URL, the method and the server kind; it gets the peer address log exactly when the address is truthy; nothing is finished |
| Server.RecordStart | src/instrumentation/express.js:35-41 | the start tags are recorded in source order and no span is started |
| Server.EndTags | src/instrumentation/express.js:50-65 | each span is tagged with the status code, with the request path exactly when there is one, and as an error exactly when the status is 400 or more |
| Server.EndCallsFinish | src/instrumentation/express.js:65 | the end of the response finishes each of the request's spans exactly once |
| Server.EndCallsInvokeNothing | src/instrumentation/express.js:50-65 | after the response's own `end` has run, the wrapper calls no function of the program |
| Server.EndRun | src/instrumentation/express.js:46-48 | ending a response always makes at least one call (the response's own `end`) |
| Server.EndCallsOriginalFirst | src/instrumentation/express.js:46-48 | however many wrappers are in front of `res.end`, the response's own `end` runs exactly once, before any span is tagged |
| Server.EndFinishesEach | src/instrumentation/express.js:44-72 | ending a response finishes every span of every wrapper in front of its `end` exactly once, and no other span |
| Server.RecordEnd | src/instrumentation/express.js:50-65 | the end tags and the finish are recorded in source order |
| Server.Response.constructor | src/instrumentation/express.js:44 | a fresh response holds its own `end` and the status code given |
| Server.Response.End | src/instrumentation/express.js:46-72 | `res.end(...)` restores the response's own `end`, returns what it returns, keeps the status code, and makes exactly the calls of the end chain |
| Server.StartRequest | src/instrumentation/express.js:26-41 | the request's root spans are started, each a child of what its tracer extracts from the headers, then tagged; each becomes its tracer's current span |
| Server.Serve | src/instrumentation/express.js:23-75 | the middleware starts and tags one root span per tracer, puts a tracing wrapper around the `res.end` that was there, keeps the status code, then calls `next()` |
| Server.BagDropsTags | src/instrumentation/koa.js:34-42 | as written, the i-th root span is started with the options bag itself as its parent and without tags, which differs from the intended start whenever there are tags |
| Express.RoutePathTagged | src/instrumentation/express.js:50-52 | a span is tagged with the request path exactly when `req.route` and `req.route.path` are both truthy, and then with that path |
| Express.ApplicationActionWrapped | src/instrumentation/express.js:13-21 | the express wrapper installs `middleware` as the shared wrapper specifies |
| Express.Middleware | src/instrumentation/express.js:23-75 | the express middleware serves the request with the URL `protocol://hostname originalUrl` |
| Express.EndResponse | src/instrumentation/express.js:46-72 | ending an express response tags the route path when the route has one |
| Express.Patch | src/instrumentation/express.js:77-80 | every HTTP method name, `use`, `route`, `param` and `all` of the application is wrapped |
| Express.Unpatch | src/instrumentation/express.js:85-92 | the same method names are unwrapped |
| Restify.CreateServerWrapped | src/instrumentation/restify.js:12-18 | the wrapped `createServer` calls the original, registers the middleware on the server it made and returns that server |
| Restify.Middleware | src/instrumentation/restify.js:20-69 | the restify middleware serves the request with `req.url` as the URL |
| Restify.EndResponse | src/instrumentation/restify.js:43-66 | ending a restify response always tags `req.path()` |
| Restify.PathAlwaysTagged | src/instrumentation/restify.js:47 | every span of the response, and no other, is tagged with the request path, whatever it is |
| Restify.Patch | src/instrumentation/restify.js:71 | `createServer` of the module is wrapped |
| Restify.Unpatch | src/instrumentation/restify.js:76-80 | `createServer` is unwrapped |
| ExpressError.LeadingSpans | src/instrumentation/expressError.js:35 | the tagging loop reaches exactly the leading root spans: all before the count are spans, and the one at the count is not |
| ExpressError.RootsTagged | src/instrumentation/expressError.js:32-36 | when every tracer has a root span, each root span is tagged as an error |
| ExpressError.TagRoots | src/instrumentation/expressError.js:32-36 | the loop tags the leading root spans and reports success exactly when every tracer had one |
| ExpressError.ErrorSpansFinishedOnce | src/instrumentation/expressError.js:39-55 | each of the handler's error spans, and no other, gets the error log and the error tag, and is finished exactly once |
| ExpressError.RecordSpanErrors | src/instrumentation/expressError.js:43-55 | log, tag and finish are recorded for the spans in source order |
| ExpressError.Handle | src/instrumentation/expressError.js:39-59 | one error span per tracer, child of its current span, then the error records, then the original handler |
| ExpressError.HandleError | src/instrumentation/expressError.js:31-60 | the wrapped handler tags every root span as an error and then records the error on fresh child spans and calls the original handler, returning what it returns; when a tracer has no root span it throws after tagging the earlier ones, and starts no span |
| ExpressError.LayerTracker.constructor | src/instrumentation/expressError.js:9-12 | no layer is wrapped at first |
| ExpressError.LayerTracker.UnpatchLayer | src/instrumentation/expressError.js:69-72 | the layer's `handle_error` is unwrapped and the layer leaves the set of wrapped layers |
| ExpressError.LayerTracker.ErrorHandlerUse | src/instrumentation/expressError.js:15-63 | the wrapped `use` calls the original and returns what it returns, unwraps the previously wrapped layer, wraps `handle_error` of the new last layer (if the stack has one), and keeps only the last layer wrapped |
| ExpressError.LayerTracker.Unpatch | src/instrumentation/expressError.js:74-80 | `use` is unwrapped and so is every recorded layer, leaving none recorded |
| ExpressError.Patch | src/instrumentation/expressError.js:14 | `use` of the express router is wrapped |
| Koa.InjectsOnly | src/instrumentation/koa.js:70 | the inject loop makes only inject calls |
| Koa.AfterFinishesEach | src/instrumentation/koa.js:55-71 | after the rest of the chain, each span of the request, and no other, is finished exactly once, tagged with the request path, and tagged as an error exactly when the status is 400 or more |
| Koa.ResponseHeadersCarrySpans | src/instrumentation/koa.js:69-71 | with distinct tracer headers, the headers set on the response carry each tracer's span under that tracer's header |
| Koa.ResponseHeadersOnlyTracers | src/instrumentation/koa.js:69-71 | the headers set on the response hold nothing under a key that no tracer writes |
| Koa.ApplicationActionWrapped | src/instrumentation/koa.js:15-27 | the wrapper installs the koa 2 middleware when koa is a class and the koa 1 middleware otherwise, as the shared wrapper specifies |
| Koa.StartAsWritten | src/instrumentation/koa.js:33-42 | as written, the root spans are started with the options bag `{ childOf, tags }` as their parent and no tags |
| Koa.StartRequest | src/instrumentation/koa.js:32-52 | as intended, one root span per tracer, child of the extracted parent and carrying the server kind, URL and method tags, becomes its tracer's current span; then the peer address log and `next()` |
| Koa.AfterNext | src/instrumentation/koa.js:55-71 | the end tags and the finish, one inject per tracer into a fresh header object, then `ctx.set` with those headers |
| Koa.Settle | src/instrumentation/koa.js:52-71 | when `next()` resolves, the end of the request is recorded and the middleware resolves with undefined; when it rejects, nothing is recorded and the rejection propagates |
| Koa.Middleware | src/instrumentation/koa.js:29-77 | the middleware's calls are the corrected start of `Koa.StartRequest`, and the end only when the rest of the chain completes normally; a throwing chain propagates its error and leaves the spans open |
| Koa.Patch | src/instrumentation/koa.js:130-133 | `use` of the prototype is wrapped |
| Koa.Unpatch | src/instrumentation/koa.js:138-145 | `use` of the prototype is unwrapped |
| Mali.SpanName | src/instrumentation/mali.js:29 | the span name is the called method's full name when that is truthy, and 'grpc' otherwise; it is never empty, so starting the root spans cannot fail |
| Mali.MetadataLogged | src/instrumentation/mali.js:42-47 | every span of the call, and no other, gets one log per metadata key holding that key's value; nothing is finished |
| Mali.RecordMetadata | src/instrumentation/mali.js:43-46 | the nested loop logs the metadata key by key, each key on every span in turn |
| Mali.RecordMetadataLogs | src/instrumentation/mali.js:42-47 | metadata is logged only when the request has metadata |
| Mali.LogAndCallNext | src/instrumentation/mali.js:42-49 | the metadata logs come before the call to `next()` |
| Mali.ThrowTags | src/instrumentation/mali.js:50-54 | when `next()` throws, every span, and no other, is tagged as an error and logs the error; nothing is finished in the catch block |
| Mali.RecordThrow | src/instrumentation/mali.js:51-54 | the error tag and the error log are recorded span by span |
| Mali.RecordExit | src/instrumentation/mali.js:50-59 | the catch block runs only when `next()` threw, and the finally block always runs after it |
| Mali.ExitFinishesEach | src/instrumentation/mali.js:48-59 | however `next()` ends, each span, and no other, is finished exactly once, and it is tagged as an error exactly when `next()` threw |
| Mali.ApplicationActionWrapped | src/instrumentation/mali.js:15-23 | the wrapper installs `middleware` as the shared wrapper specifies |
| Mali.StartAsWritten | src/instrumentation/mali.js:30-37 | as written, the root spans are started with the options bag `{ childOf, tags }` as their parent and no tags |
| Mali.StartCall | src/instrumentation/mali.js:28-49 | as intended, one root span per tracer, child of the parent extracted from the metadata and carrying the server kind and the `grpc:` method tags, becomes its tracer's current span; then the metadata logs and `next()` |
| Mali.OpenSpans | src/instrumentation/mali.js:30-37 | as intended, one root span per tracer named after the call, with the extracted parent and the server tags, each made the current span of its tracer |
| Mali.Middleware | src/instrumentation/mali.js:25-61 | built on the corrected start of `Mali.StartCall`: the middleware returns what `next()` returned or throws again what it threw synchronously, and finishes every span either way |
| Mali.Patch | src/instrumentation/mali.js:63-66 | `use` of the prototype is wrapped |
| Mali.Unpatch | src/instrumentation/mali.js:71-78 | `use` of the prototype is unwrapped |
| Sequelize.SettleFinishesEach | src/instrumentation/sequelize.js:34-44 | however the query settles, each span, and no other, is finished exactly once; it is tagged as an error and logs the error exactly when the query rejected |
| Sequelize.RecordSettle | src/instrumentation/sequelize.js:35-44 | on a rejection the error tags, then the error logs, then the finishes; on success only the finishes |
| Sequelize.Query | src/instrumentation/sequelize.js:18-46 | the replacement opens one child span per tracer, carrying the kind, dialect and statement tags the code requests (the corrected start of Finding 1), calls the original query with the same arguments, passes its result on or throws its error again, and settles the spans accordingly |
| Sequelize.Patch | src/instrumentation/sequelize.js:15-16 | `query` of the prototype is replaced by the traced function, which calls the original |
| GrpcCaller.TracedMethods | src/instrumentation/grpc-caller.js:15-32 | the prototype keeps its keys; every key except `constructor` and `exec` holds a traced function in front of the old one, and those two are left alone |
| GrpcCaller.Wrap | src/instrumentation/grpc-caller.js:12-34 | the replacement `wrap` calls the original with the same arguments, replaces the client's methods as specified and returns the client the original built |
| GrpcCaller.SentCarriesRoots | src/instrumentation/grpc-caller.js:25-29 | with distinct tracer headers, the metadata sent carries each tracer's current root span under that tracer's header, and every other entry the caller passed |
| GrpcCaller.TracedCall | src/instrumentation/grpc-caller.js:24-31 | a traced method injects every tracer's root span into the metadata (a fresh object when none was passed), calls the old method and returns what it returns |
| GrpcCaller.Patch | src/instrumentation/grpc-caller.js:9-10 | `wrap` of the module is replaced by the traced function, which calls the original |
| Instrument.ValidTracers | src/instrument.js:14-19 | the constructor throws 'tracers is required' exactly when the option is given and is not a list; an omitted option means no tracers |
| Instrument.Uniq | src/instrument.js:40 | `_.uniq` keeps exactly the elements of its input, each once |
| Instrument.Modules | src/instrument.js:40 | the i-th module name is that of the i-th adapter |
| Instrument.ModuleNames | src/instrument.js:40-43 | the hook is given exactly the modules some adapter targets, each once |
| Instrument.Selected | src/instrument.js:54-64 | the adapters applied to a loaded module are a sub-list of the registry |
| Instrument.SelectedMembers | src/instrument.js:54-64 | an adapter is applied exactly when it is in the registry, targets the loaded module's name, and the version is unknown, the adapter declares no ranges, or one of its ranges is satisfied |
| Instrument.Lookup | src/instrument.js:67 | a Map lookup finds an entry exactly for a key the Map holds |
| Instrument.MapSet | src/instrument.js:67 | `Map.set` makes the key map to the value, leaves other keys alone, appends a new key at the end, keeps an existing key's place and never duplicates a key |
| Instrument.LastAdapterRecorded | src/instrument.js:65-67 | when several adapters patch the same exports, the Map keeps only the last one for those exports, and other entries are untouched |
| Instrument.PatchCalls | src/instrument.js:65-66 | one patch call per applied adapter |
| Instrument.UnpatchCalls | src/instrument.js:86-88 | the i-th unpatch call is the i-th Map entry's adapter undoing its patch on that entry's exports |
| Instrument.SelectedAppend | src/instrument.js:54-64 | filtering a concatenated list filters each part |
| Instrument.NoneSelected | src/instrument.js:55 | no adapter applies to a module no adapter targets |
| Instrument.UnregisteredNeverApplied | src/instrumentation/index.js:13-23 | the https, koa, ioredis, mali, sequelize and grpc-caller adapters, absent from the registry, are never applied |
| Instrument.ExpressSelected | src/instrument.js:54-64 | express gets the express and expressError adapters, in that order, on a 4.x version and neither otherwise |
| Instrument.HttpAlwaysSelected | src/instrument.js:57-59 | http gets the http client adapter whatever its version, since that adapter declares no ranges |
| Instrument.Mysql2Selected | src/instrument.js:57-63 | mysql2 is patched on an unknown version or on 1.5 and later within major version 1, and not otherwise |
| Instrument.ExpressUnpatchMissed | src/instrument.js:67 | as written, express 4.x is patched by both express adapters, but unpatching undoes only expressError |
| Instrument.UnpatchEachCalls | src/instrument.js:86-88 | over the corrected Map, the i-th unpatch call is the i-th entry's adapter on its exports |
| Instrument.EveryPatchUndone | src/instrument.js:65-67 | with the Map keyed by exports and adapter, every applied adapter gets its own unpatch call, in patch order |
| Instrument.ExpressUnpatchComplete | src/instrument.js:86-88 | with the corrected Map, unpatching express 4.x undoes both express adapters |
| Instrument.Instrument.constructor | src/instrument.js:14-33 | every tracer gets a namespace key, distinct tracers get distinct keys, the list keeps its order, the Map starts empty and the hook covers every registry module |
| Instrument.Instrument.OnRequire | src/instrument.js:43-76 | the hook patches the loaded module with each applicable adapter in registry order, records each in the Map, keeps the Map's keys unique and returns the same exports |
| Instrument.Instrument.Unpatch | src/instrument.js:85-91 | `unpatch()` calls each recorded adapter's unpatch on its exports, in Map order, and changes nothing else |
| Callbacks.Arg | src/instrumentation/redis.js:53 | a missing callback argument is undefined |
| Callbacks.Forwarded | src/instrumentation/redis.js:74-76 | a wrapper hands on exactly the error and the result the library passed |
| Callbacks.CallbackOf | src/instrumentation/mongodbCore.js:55-57 | a function argument is called back and a falsy one is not |
| Callbacks.InvocationsAppend | src/instrumentation/redis.js:53-77 | the program calls made by two call series in a row are those of the first, then those of the second |
| Callbacks.NoInvocationsIn | src/instrumentation/redis.js:56-70 | span operations never call into the program |
| Callbacks.OutcomeInvokesNothing | src/instrumentation/pg.js:28-47 | recording the error or the row count never calls into the program |
| Callbacks.ForwardsSameArguments | src/instrumentation/redis.js:51-77 | however many wrappers sit in front of it, the program's own callback is called exactly once, with the error and the result the library passed, and nothing else of the program is called; without one, nothing is called |
| Callbacks.OutcomeFinishesNothing | src/instrumentation/pg.js:28-47 | recording the outcome finishes no span |
| Callbacks.FinishesEachOnce | src/instrumentation/redis.js:53-77 | a wrapper over distinct spans finishes each of them exactly once when it fires, and no other span |
| Callbacks.TaggedIn | src/instrumentation/redis.js:62 | the tag loop tags exactly the spans of its list |
| Callbacks.NotTaggedIn | src/instrumentation/redis.js:56-61 | a log or finish loop tags nothing |
| Callbacks.ErrorTaggedIff | src/instrumentation/redis.js:55-68 | a span of an error-recording wrapper gets the error tag exactly when the library reports a truthy error |
| Callbacks.WrapperCompletes | src/instrumentation/redis.js:51-77 | the wrapper over freshly started spans, fired once, finishes each of them exactly once and no other span, tags each as an error exactly when the error is truthy (when it records errors), and calls the previous callback once with the error and the result |
| Callbacks.RecordError | src/instrumentation/redis.js:55-68 | a truthy error is logged on every span, then every span is tagged as an error; a falsy one records nothing |
| Callbacks.RecordOutcome | src/instrumentation/pg.js:28-47 | records the error when truthy and, for pg, the row count when there is a result |
| Callbacks.Fire | src/instrumentation/redis.js:53-77 | the library calling back the slot makes exactly the calls the chain of wrappers specifies |
| Redis.Command.constructor | src/instrumentation/redis.js:29 | a command object holds its command, arguments and callback |
| Redis.SendCommand | src/instrumentation/redis.js:29-80 | an untracked command goes straight to the original with no span; any other gets one child span per tracer carrying the client kind, type and statement tags the code requests (the corrected start of Finding 1), its callback is put behind an error-recording wrapper, and then the original is called once |
| Redis.Patch | src/instrumentation/redis.js:24 | `internal_send_command` is wrapped |
| Redis.Unpatch | src/instrumentation/redis.js:84-88 | `internal_send_command` is unwrapped |
| Ioredis.Command.constructor | src/instrumentation/ioredis.js:29 | a command object holds its name, arguments, `reject` and `resolve` |
| Ioredis.SendCommand | src/instrumentation/ioredis.js:29-84 | an untracked command goes straight to the original; any other gets one child span per tracer carrying the tags the code requests (the corrected start of Finding 1), `reject` is put behind an error-recording wrapper and `resolve` behind one that only finishes, then the original is called once |
| Ioredis.ResolveTagsNothing | src/instrumentation/ioredis.js:76-81 | settling through `resolve` never tags a span, whatever arguments are passed |
| Ioredis.Patch | src/instrumentation/ioredis.js:24 | `sendCommand` is wrapped |
| Ioredis.Unpatch | src/instrumentation/ioredis.js:94-98 | `sendCommand` is unwrapped |
| Pg.Query.constructor | src/instrumentation/pg.js:15-17 | a query object holds its text and callback |
| Pg.QueryTrace | src/instrumentation/pg.js:13-58 | untagged child spans are started first, the original is called once with the same arguments, every span is tagged with the type and then with the statement, the query's callback is put behind the error-and-row-count wrapper, and the same query object is returned |
| Pg.Patch | src/instrumentation/pg.js:61 | `query` of the client prototype is wrapped |
| Pg.Unpatch | src/instrumentation/pg.js:66-70 | `query` is unwrapped |
| MongodbCore.Forwarded | src/instrumentation/mongodbCore.js:83-87 | when `options` is a function the original gets three arguments and the wrapper around `options`; otherwise four, with the wrapper around `callback` |
| MongodbCore.OperationTrace | src/instrumentation/mongodbCore.js:65-88 | one child span per tracer carrying the kind, type, statement and instance tags the code requests (the corrected start of Finding 1), then one call of the original with the wrapped callback in its place; what the original returns is returned unchanged |
| MongodbCore.NextTrace | src/instrumentation/mongodbCore.js:13-30 | one `mongodb_cursor` child span per tracer carrying the tags the code requests (the corrected start of Finding 1), then one call of the original `next` with the wrapper around the caller's callback; what `next` returns is returned unchanged |
| MongodbCore.Patch | src/instrumentation/mongodbCore.js:92-100 | `command`, `insert`, `update` and `remove` of the server prototype and `next` of the cursor prototype are wrapped |
| MongodbCore.Unpatch | src/instrumentation/mongodbCore.js:102-110 | the same five methods are unwrapped |
| MongodbCore.UnpatchRestores | src/instrumentation/mongodbCore.js:92-110 | patching wraps exactly the five methods, each once, and unpatching after patching restores both prototypes |
| Events.QueryEvent | src/instrumentation/mysql.js:35-54 | on a query holding the adapter's two listeners, 'error' logs the error on every span and then tags every span as an error, 'end' finishes every span, and any other event does nothing |
| Events.FinishedPerEnd | src/instrumentation/mysql.js:35-54 | whatever events the library emits, each span of the query is finished exactly as many times as 'end' is emitted, and no other span is finished |
| Events.TaggedPerError | src/instrumentation/mysql2.js:24-38 | a span gets the error tag exactly when it belongs to the query and 'error' was emitted at least once |
| Events.Query.constructor | src/instrumentation/mysql.js:18 | a new query object carries its SQL text and no listeners |
| Events.Query.On | src/instrumentation/mysql.js:35 | a listener is added after those already registered |
| Events.Query.Listen | src/instrumentation/mysql.js:35-54 | the 'error' listener and then the 'end' listener are added |
| Events.Query.Emit | src/instrumentation/mysql2.js:24-44 | emitting an event runs the listeners registered for it, in registration order, and nothing else |
| Mysql.CreateQueryWrapped | src/instrumentation/mysql.js:17-57 | the original `createQuery` runs once first; then one child span per tracer is started carrying the client kind, the type and the query's own SQL as the code requests them (the corrected start of Finding 1), the query gets the two listeners and the same query object is returned |
| Mysql.Adapter.constructor | src/instrumentation/mysql.js:10 | the Connection module starts unloaded |
| Mysql.Adapter.Patch | src/instrumentation/mysql.js:12-63 | the Connection module is loaded only once and kept, and its `createQuery` is wrapped |
| Mysql.Adapter.Unpatch | src/instrumentation/mysql.js:65-70 | `createQuery` is unwrapped only when the Connection module was loaded |
| Mysql2.ConnectionTagged | src/instrumentation/mysql2.js:46-56 | exactly the spans of the query are tagged with the port as a string, and a span is tagged with the database exactly when it belongs to the query and the database name is truthy |
| Mysql2.TagSpan | src/instrumentation/mysql2.js:47-55 | records one span's connection tags |
| Mysql2.TagEach | src/instrumentation/mysql2.js:46-56 | all tags of one span are set before the next span's |
| Mysql2.QueryWithTrace | src/instrumentation/mysql2.js:13-58 | child spans carrying the kind and type tags the code requests (the corrected start of Finding 1) come first, then the original `query` runs once, the returned sequence gets the two listeners, each span gets its connection tags, and the same sequence is returned |
| Mysql2.Patch | src/instrumentation/mysql2.js:62-64 | `query` of the Connection prototype is wrapped |
| Mysql2.Unpatch | src/instrumentation/mysql2.js:66-71 | `query` is unwrapped, and nothing happens without a Connection |
| Http.Or | src/instrumentation/httpClient.js:20 | JavaScript's `a \|\| b`: `a` when truthy, else `b` |
| Http.Hostname | src/instrumentation/httpClient.js:21 | the host name is `options.hostname`, else `options.host`, else 'localhost' |
| Http.Path | src/instrumentation/httpClient.js:23 | the path is `options.path`, else `options.pathName`, else '/' |
| Http.Method | src/instrumentation/httpClient.js:47 | the method is `options.method`, else 'GET' |
| Http.Headers | src/instrumentation/httpClient.js:55 | the carrier is the copy's own headers object, else an empty one |
| Http.PickHeaders | src/instrumentation/httpClient.js:64-67 | the logged headers are exactly `server`, `content-type` and `cache-control` where the response defines them, with the response's values |
| Http.ResponseTags | src/instrumentation/httpClient.js:69-80 | a response tags each span of the request, and no other, with its status code, tags a span as an error exactly when the status is over 399, and finishes nothing by itself |
| Http.ErrorTags | src/instrumentation/httpClient.js:91-108 | a request error tags each span of the request, and no other, as an error, and finishes nothing by itself |
| Http.RecordResponse | src/instrumentation/https-client.js:88-103 | the error tag for a status over 399, then the status code, then the picked headers, span by span |
| Http.RecordRequestError | src/instrumentation/https-client.js:144-158 | the error tag on every span, then the error fields only for a truthy error |
| HttpClient.ExtractUrl | src/instrumentation/httpClient.js:15-25 | a string is the URL itself; an object is formatted from its protocol, else the agent's, its host name, port and path, the path handed to `url.format` under the key `path` |
| HttpClient.AgentProtocol | src/instrumentation/httpClient.js:17-20 | the agent is `options._defaultAgent` when truthy, else the global agent, and its protocol is the one `ExtractUrl` falls back to when the options have none |
| HttpClient.SentHeaders | src/instrumentation/httpClient.js:54-57 | the options sent carry, under each tracer's header, that tracer's own span, and any header no tracer writes keeps the caller's value |
| HttpClient.TagRequest | src/instrumentation/httpClient.js:59-61 | url on every span, then method, then the client-kind flag |
| HttpClient.Prepare | src/instrumentation/httpClient.js:45-57 | one untagged 'http_request' child span per tracer, then each tracer injects its span into the copied headers |
| HttpClient.RequestTrace | src/instrumentation/httpClient.js:40-111 | falsy options go to the original unchanged and start no span; otherwise the spans are started and injected, tagged with url, method and kind, and the original is called once with the copy and the adapter's response listener; on both paths what the original returns (the request object) is returned |
| HttpClient.TraceRequest | src/instrumentation/httpClient.js:45-110 | the traced path: spans, injection, tags, then one call of the original, whose result `req` is returned |
| HttpClient.OnResponse | src/instrumentation/httpClient.js:63-89 | the response is recorded, every span finished, then the caller's callback is called with the response when there is one |
| HttpClient.OnError | src/instrumentation/httpClient.js:91-109 | the error is recorded, then every span is finished |
| HttpClient.ClientStepFinishes | src/instrumentation/httpClient.js:63-109 | a response or an error finishes each span of the request exactly once; no other event or span is finished |
| HttpClient.FinishedPerOutcome | src/instrumentation/httpClient.js:63-109 | whatever the request sees, each of its spans is finished once per response and once per error, and no other span is finished |
| HttpClient.Patch | src/instrumentation/httpClient.js:27-35 | `request` is wrapped, and `get` too on Node 8 or later |
| HttpClient.Unpatch | src/instrumentation/httpClient.js:117-125 | the same methods are unwrapped |
| HttpsClient.ExtractUrl | src/instrumentation/https-client.js:15-23 | a string is the URL itself; an object is formatted with protocol 'https' and its host name, port and path, the path handed to `url.format` under the key `pathname` |
| HttpsClient.SpanName | src/instrumentation/https-client.js:44 | the span name is the request's origin URL without query string, else 'https_request'; never empty |
| HttpsClient.StartRequestSpans | src/instrumentation/https-client.js:46-58 | a URL containing '/api/traces' starts no span; any other starts one child span per tracer carrying the kind, url and method tags the code requests (the corrected start of Finding 1) |
| HttpsClient.TraceRequest | src/instrumentation/https-client.js:43-162 | the spans of `StartRequestSpans` (none for a trace-collector URL; tagged as in the corrected start of Finding 1), then every tracer's span injected into a copy of the headers, then one call of the original with the copy and the response listener, whose result `req` is returned |
| HttpsClient.InjectAndSend | src/instrumentation/https-client.js:75-87 | every tracer injects its `spans[key]` into a copy of the options' headers, then the original is called once with the copy and the response listener |
| HttpsClient.RequestTrace | src/instrumentation/https-client.js:38-162 | falsy options go to the original unchanged and start no span; otherwise the traced path runs; on both paths what the original returns is returned |
| HttpsClient.ErrorThenCloseFinishesTwice | src/instrumentation/https-client.js:135-160 | as written, an error followed by the socket closing finishes every span twice |
| HttpsClient.FinishedAtMostOnce | src/instrumentation/https-client.js:82-85 | with every finishing path going through the guarded `finish()`, each span is finished exactly once if some event finishes and never otherwise, and the flag records whether it happened |
| HttpsClient.HttpsRequest.constructor | src/instrumentation/https-client.js:68 | a request starts unfinished |
| HttpsClient.HttpsRequest.FinishSpans | src/instrumentation/https-client.js:82-85 | every span is finished and the flag is set |
| HttpsClient.HttpsRequest.OnResponse | src/instrumentation/https-client.js:87-122 | the response is recorded, then the caller's callback is called with it when there is one; nothing is finished |
| HttpsClient.HttpsRequest.Dispatch | src/instrumentation/https-client.js:87-161 | the listeners as written: 'end' finishes, 'close' finishes unless finished, an error records and finishes without reading or setting the flag |
| HttpsClient.HttpsRequest.DispatchGuarded | src/instrumentation/https-client.js:82-85 | the listeners with every finish behind the flag |
| HttpsClient.Patch | src/instrumentation/https-client.js:25-33 | `request` is wrapped, and `get` too on Node 8 or later |
| HttpsClient.Unpatch | src/instrumentation/https-client.js:169-177 | the same methods are unwrapped |

## Left out

- Async context propagation (`cls.runPromise`, `cls.runAndReturn`, continuation-local storage): the model has one explicit context store per request, so it does not model isolation between concurrent requests.
- Hooking `require` (require-in-the-middle) is left out. A module load is an explicit call of `Instrument.Instrument.OnRequire` with the module's exports, name and version.
- Reading the module's package.json is left out; its version is an input. Only the range forms the registry declares are modelled (`N.x`, `N.M`, `^N.M`), not all of semver.
- The running Node version (`semver.satisfies(process.version, '>=8.0.0')`) is the boolean parameter `node8`.
- Timings (`Date.now()`), the socket 'lookup', 'connect' and 'secureConnect' listeners and debug logging have no observable effect on spans in the code and are not modelled.
- `url.format`, `url.parse`, `JSON.stringify`, `getOriginUrlWithoutQs`, `isClass` and lodash's deep `merge` are foreign functions. They are given as parameters or booleans, or modelled by the values they return.
- `co.wrap` and the generator form of the koa 1 middleware are left out. The koa 1 and koa 2 middlewares are modelled as one middleware, since both record the same calls.
- Sequelize, GrpcCaller: unpatch (`shimmer.unwrap` on a property replaced without shimmer) is not modelled. shimmer finds no wrapper there and leaves the property as it is.
- Tracer and span objects are not modelled. Starting a span, tagging, logging, finishing, injecting and extracting are entries in the journal. `extract` reads the header the tracer injects under.
- Mali.Middleware: `return next()` is modelled as a call that returns or throws synchronously. The code has no `await`, so its `finally` finishes the spans as soon as `next()` returns a promise, and a rejected promise is neither tagged nor logged. The model covers the synchronous throw only, not the asynchronous rejection.
- Mali.Middleware, Mali.StartCall, Mali.OpenSpans: the root spans are started as intended, children of the extracted context with the server tags. The code passes the options bag as the parent and records no tags (Findings, mali row); `Mali.StartAsWritten` models that start.
- Koa.Middleware, Koa.StartRequest: the root spans are started as intended, as for mali. The code passes the options bag as the parent (Findings, koa row); `Koa.StartAsWritten` models that start.
- A koa downstream that throws: koa.js has no try/finally around `await next()`, so the spans stay unfinished; the model keeps them open in the same way.
- Lifecycle.StartChildOf: records the tags passed in, as the corrected start of Finding 1 does; `cls.startChildSpan` as written drops them (`Cls.ContextStore.StartChildSpan`, `Cls.DroppedTagsExample`). With no tags passed the two agree.
- Lifecycle.StartChildSpans: carries the requested tags on every child start for the same reason.
- Lifecycle.ChildStartsAt: states the tagged start for the same reason.
- Redis.SendCommand: its child spans carry the kind, type and statement tags that the code requests and `cls.startChildSpan` drops (Finding 1).
- Ioredis.SendCommand: its child spans carry the requested tags that the code drops (Finding 1).
- MongodbCore.OperationTrace: its child spans carry the requested kind, type, statement and instance tags that the code drops (Finding 1).
- MongodbCore.NextTrace: its cursor child spans carry the requested tags that the code drops (Finding 1).
- Mysql.CreateQueryWrapped: its child spans carry the requested kind, type and SQL tags that the code drops (Finding 1).
- Mysql2.QueryWithTrace: its child spans carry the requested kind and type tags that the code drops (Finding 1). The connection tags set afterwards with `setTag` are recorded as the code records them.
- Sequelize.Query: its child spans carry the requested kind, dialect and statement tags that the code drops (Finding 1).
- HttpsClient.StartRequestSpans: its child spans carry the requested kind, url and method tags that the code drops (Finding 1).
- HttpsClient.TraceRequest: its journal starts with the tagged spans of `StartRequestSpans` (Finding 1).
- Spans finished more than once: the http client finishes its spans on every response and on every error event, so a response followed by an error finishes them twice (`HttpClient.FinishedPerOutcome` states that count), and a mysql query finishes its spans once per 'end' event emitted (`Events.FinishedPerEnd`). The model does not claim once for these.
- Keys handed to `url.format`, which is a parameter: The record carries the key the adapter writes: `path` for the http client, `pathname` for the https client. Node's legacy `url.format` reads `pathname` only, so the http client's `http.url` as formatted by Node would carry no path; that is a property of Node, outside the model.
- Sequelize: `getDialect()` is a value of the instance.
- GrpcCaller: the mutation of the caller's metadata object is modelled as the metadata value the original receives.
- Express.EndResponse: `req.route` and `res.statusCode` are inputs, taken as they are when `res.end` runs. The route is read once for the path test and the tag, as if no getter ran in between.
- ExpressError.LayerTracker: the code's `wrappedLayers` is one module-level Set shared by every patched router. The model keeps it in one tracker object, which the methods are given.
- `.filter((span) => !!span)` in the mali and sequelize adapters does nothing, because `startRootSpan` and `startChildSpan` never return a falsy span. The model leaves it out.
- HttpsClient: the code's filter removes the nulls, so for a trace-collector URL the spans list is empty, and `tracers.forEach` injects `spans[key]`, which is undefined. The model injects the undefined value in the same way.
- Operations on `Cls.ContextStore` require `Valid()` (every slot's current span is a span or absent). Every operation of the store preserves this; a store that the program overwrote with arbitrary values is not modelled.
- Callbacks: a callback argument that is truthy but not a function is not modelled. Callback-taking members require `CallbackArg`, and the code would throw a TypeError when calling it.
- ExpressError.NO_ROOT_SPAN: the TypeError message depends on the Node version; the model uses one fixed text.
- HttpsClient.RequestTrace: on the traced path it states the spans, that options are sent and the returned request. The journal entries of that path are stated by `HttpsClient.TraceRequest`, which it calls.

## Findings

| source | as written | input that shows it | evidently intended | confidence | as-written member | corrected member |
|---|---|---|---|---|---|---|
| src/cls.js:76-90 | `startChildSpan(tracer, operationName)` declares no third parameter, so the `{ tags }` every client adapter passes is dropped and the span starts with no tags | a child span requested with the tag `db.type: 'redis'`, as the redis adapter requests it, starts with an empty tag map | the adapter's tags are passed to `tracer.startSpan` with the parent | not executed | Cls.DroppedTagsExample | Cls.ContextStore.StartChildSpanWithTags |
| src/instrumentation/https-client.js:135-160 | the 'error' listener finishes every span without setting or reading `isFinish`, and the socket's 'close' listener finishes again when `isFinish` is false | a request error followed by the socket closing: every span is finished twice | every finishing path goes through `finish()`, which finishes once | not executed | HttpsClient.ErrorThenCloseFinishesTwice | HttpsClient.FinishedAtMostOnce |
| src/instrument.js:66 | the `_instrumented` Map is keyed by the module's exports, so a second adapter applied to the same exports replaces the first | express 4.x: express and expressError both patch it, and `unpatch()` undoes only expressError | one entry per applied adapter, so that every patch is undone | not executed | Instrument.ExpressUnpatchMissed | Instrument.ExpressUnpatchComplete |
| src/instrumentation/koa.js:34-42 | the options bag `{ childOf, tags }` is passed to `cls.startRootSpan` where it takes a parent span context, so the bag becomes the parent and the tags are lost | any koa request: the root span's `childOf` is the bag and it has no tags | the extracted context is the parent and the tags are the span's tags | not executed | Koa.StartAsWritten | Koa.StartRequest |
| src/instrumentation/mali.js:31-37 | the same options bag is passed to `cls.startRootSpan` as its parent | any mali call: the root span's `childOf` is the bag and it has no tags | as for koa | not executed | Mali.StartAsWritten | Mali.StartCall |
