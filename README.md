# express-v8n, modelled in Dafny

express-v8n is an Express middleware factory. `v8n(schema, allowUnknown)` checks
that a schema was given and returns a middleware. On each request the middleware
visits the regions `body`, `query`, `params` and `headers` in that order. It
validates every region whose sub-schema is truthy with Joi, passing
`abortEarly: false` and the region's unknown-key policy. It collects every
violation detail Joi reports. Then it calls `next()` when nothing was collected,
or `next(new v8nError(errors))` otherwise. `v8nError` is an `Error` with a fixed
name and message; it carries the collected list, and `toJSON` and `toString` expose it.

The whole model is in `v8n.dfy`, module `ExpressV8n`:

- Joi's `validate` is the parameter `engine: (D, S, Options) -> EngineResult<V>`.
  It is an arbitrary total function, so every property holds whatever Joi decides.
  `EngineResult` covers the two callback errors the middleware handles: no error
  (`Passed`), or an error that has a `details` array (`Rejected`).
- JavaScript truthiness is `JsValue<T> = Falsy | Truthy(value)`. The `allowUnknown`
  argument is `UnknownArg = Boolean(b) | NotBoolean`, which mirrors the `typeof … === 'boolean'` test.
- The closure the factory returns is the datatype `Middleware`: a snapshot of the
  schema's region entries and the captured argument. One request is handled by
  the method `Handle`. It keeps the source's nested loops: an outer loop over the regions and an inner
  loop that pushes each detail. Besides `next`'s argument (`Outcome = Proceed | Fail(err)`),
  `Handle` returns, as a ghost output, the list of engine invocations it made. That list makes
  "which regions were read, and with which options" something the contracts can state.
- `Handle` is proved against the specification functions `CallsFor` (the planned
  calls) and `Collected` (the violations they yield). The lemmas state the
  promised properties about those functions.
- `v8nError` is a class whose fields are constants. The source writes them only in the constructor.

## Model

| member | source | states |
|---|---|---|
| ExpressV8n.V8n | lib/index.js:35-38 | the factory fails, with "schema is required", exactly when the schema is falsy; otherwise the middleware holds the given schema and `allowUnknown` argument |
| ExpressV8n.AllowUnknownFor | lib/index.js:47 | a boolean `allowUnknown` is the policy of every region; any other value falls back to the region's table default, which is permissive |
| ExpressV8n.DefaultPolicyPermissive | lib/index.js:26-31 | without a boolean argument every engine call gets `allowUnknown: true` and `abortEarly: false` |
| ExpressV8n.PolicyOverride | lib/index.js:45-48 | with `allowUnknown` a boolean `b`, every engine call gets exactly the options `{abortEarly: false, allowUnknown: b}` |
| ExpressV8n.Handle | lib/index.js:40-64 | the engine calls made are those `CallsFor` plans over `body, query, params, headers`; `next()` is chosen exactly when the collection is empty; otherwise the single `v8nError` passed to `next` holds the full collection |
| ExpressV8n.CallsInRegionOrder | lib/index.js:33-44 | the engine calls of one request are those for body, query, params and headers, in that order |
| ExpressV8n.AggregationOrder | lib/index.js:41-57 | the collection is the concatenation of each region's violations, in region order, with the engine's order kept inside each region; its length is the sum of theirs |
| ExpressV8n.FailsIffSomeRegionRejects | lib/index.js:49-63 | an error reaches `next` if and only if some configured region's engine result carries at least one detail |
| ExpressV8n.BodyThenHeaders | lib/index.js:43-55 | with only body and headers configured, the collection is the body's details followed by the headers' details |
| ExpressV8n.NothingConfiguredProceeds | lib/index.js:43-60 | when no region has a truthy sub-schema, the engine is never called and nothing is collected |
| ExpressV8n.EmptySchemaProceeds | lib/index.js:35-60 | an empty schema object passes the factory's guard and the middleware it builds collects nothing |
| ExpressV8n.CleanEngineCollectsNothing | lib/index.js:49-51 | engine results with no error, or with an empty `details` list, add nothing to the collection |
| ExpressV8n.CallsAreWellFormed | lib/index.js:44-48 | every engine call is for a region with a truthy sub-schema; it reads `req[mode]`, uses `schema[mode]`, and passes `abortEarly: false` with that region's resolved policy |
| ExpressV8n.RegionsValidated | lib/index.js:43-44 | the regions validated are exactly the configured ones, in visiting order, each once; a falsy sub-schema skips only its own region (no early exit) |
| ExpressV8n.ValidatedIffConfigured | lib/index.js:43-45 | a region is validated on a request if and only if its sub-schema is truthy |
| ExpressV8n.UnconfiguredDataIgnored | lib/index.js:44-45 | two requests that agree on the configured regions draw identical engine calls |
| ExpressV8n.RegionIsolation | lib/index.js:43-57 | the data of a region without a sub-schema never affects the collection |
| ExpressV8n.CallsForAppend | lib/index.js:43 | visiting one list of regions and then another makes the calls of the first followed by those of the second |
| ExpressV8n.ViolationsAppend | lib/index.js:52-54 | pushing the details of two runs of calls in turn gives the first's violations followed by the second's |
| ExpressV8n.V8nError.constructor | lib/index.js:6-11 | a new error stores the given list unchanged; its name is `v8nError` and its message `v8n error` for every instance |
| ExpressV8n.V8nError.ToJSON | lib/index.js:17-23 | the structured form has exactly the fields name `v8nError`, message `v8n error`, and the stored errors |
| ExpressV8n.V8nError.ToString | lib/index.js:13-15 | the string form is the serialisation of exactly that structured form |

## Left out

- The semantics of Joi's `validate` (types, coercion, what counts as an unknown key) is not part of this model. The engine is an arbitrary function of the data, the sub-schema and the options.
- An exception thrown by Joi itself is not modelled: the engine is total.
- A truthy engine error without a `details` array is not modelled. On such an error (for example one set by a custom `.error(new Error(...))` override) the read of `err.details.length` at lib/index.js:49 throws a TypeError, which escapes the middleware, and `next` is never called.
- Mutating the schema object after the factory runs is not modelled. The closure keeps a reference to the caller's object and reads `schema[mode]` again on every request (lib/index.js:44-45), so later requests would see the change. `Middleware` holds a map value instead.
- The engine callback's second argument (`value`) is not modelled; the middleware never uses it.
- Express plumbing is not modelled: how `req.body` and the other regions are filled, the unused `res`, and routing.
- Schema keys other than the four regions are not modelled; the middleware never reads them. The schema object is a map from regions to JavaScript values seen only through their truthiness.
- ExpressV8n.V8nError.ToString: the exact text of `JSON.stringify` is not modelled. The serialiser is a parameter, so the contract states only that the string is the serialisation of `toJSON()`.
- What `Error`'s constructor adds (the stack trace), the prototype chain and `instanceof` are not modelled.
- Asynchrony is not modelled: Joi runs the callback synchronously here, so every region has been handled before `next` is chosen. Concurrent requests share only the configuration the factory captured.
