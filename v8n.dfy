/** A model of the express-v8n request-validation middleware (lib/index.js).

    The schema engine (Joi's `validate`) is not part of this model: it is passed
    in as an arbitrary total function `engine`, so every property proved here
    holds whatever the engine decides about a region's data. */
module ExpressV8n {

  /** The four request regions, in the key order of the `allowUnknownOptions` table. */
  datatype Region = Body | Query | Params | Headers

  /** `allModes`: the keys of the default table, in declaration order. */
  const AllModes: seq<Region> := [Body, Query, Params, Headers]

  /** The `allowUnknownOptions` table: the per-region default of the unknown-key policy. */
  function DefaultAllowUnknown(mode: Region): bool
  {
    match mode
    case Body => true
    case Query => true
    case Params => true
    case Headers => true
  }

  /** A JavaScript value seen only through its truthiness. */
  datatype JsValue<T> = Falsy | Truthy(value: T)

  /** The factory's second argument: a boolean, or anything else (typically undefined). */
  datatype UnknownArg = Boolean(b: bool) | NotBoolean

  /** The options object handed to the engine: exactly these two keys. */
  datatype Options = Options(abortEarly: bool, allowUnknown: bool)

  /** What the engine's callback receives: no error, or an error carrying its `details`. */
  datatype EngineResult<V> = Passed | Rejected(details: seq<V>)

  /** The parts of an Express request the middleware reads, one datum per region. */
  datatype Request<D> = Request(body: D, query: D, params: D, headers: D)

  /** `req[mode]` */
  function Get<D>(req: Request<D>, mode: Region): D
  {
    match mode
    case Body => req.body
    case Query => req.query
    case Params => req.params
    case Headers => req.headers
  }

  /** One invocation of the engine: the region, the data, the sub-schema and the options. */
  datatype Call<D, S> = Call(region: Region, data: D, schema: S, options: Options)

  datatype Result<T, E> = Success(value: T) | Failure(error: E)

  /** The exception thrown by the factory. */
  datatype ConfigError = ConfigError(message: string)

  /** The middleware closure: the schema object and the `allowUnknown` argument it captured.
      A schema key that the object lacks reads as undefined, that is as falsy. */
  datatype Middleware<S> = Middleware(schema: map<Region, JsValue<S>>, allowUnknown: UnknownArg)

  /** What the middleware does with `next`: `next()` or `next(err)`. */
  datatype Outcome<V> = Proceed | Fail(err: V8nError<V>)

  /** The exported error class. Its fields are assigned once and never written again. */
  class V8nError<V> {
    const name: string := "v8nError"
    const message: string := "v8n error"
    const errors: seq<V>

    constructor (errors: seq<V>)
      ensures this.errors == errors
    {
      this.errors := errors;
    }

    /** The structured form: the three fields and nothing else. */
    function ToJSON(): (j: ErrorJson<V>)
      ensures j.name == "v8nError" && j.message == "v8n error"
      ensures j.errors == errors
    {
      ErrorJson(name, message, errors)
    }

    /** The string form: `serialize` stands for JSON.stringify, whose output is not modelled. */
    function ToString(serialize: ErrorJson<V> -> string): (s: string)
      ensures s == serialize(ErrorJson("v8nError", "v8n error", errors))
    {
      serialize(ToJSON())
    }
  }

  /** The plain object returned by `toJSON`. */
  datatype ErrorJson<V> = ErrorJson(name: string, message: string, errors: seq<V>)

  /** The factory `v8n(schema, allowUnknown)`: throws when the schema is falsy,
      otherwise returns the middleware closed over both arguments. */
  function V8n<S>(schema: JsValue<map<Region, JsValue<S>>>, allowUnknown: UnknownArg): (r: Result<Middleware<S>, ConfigError>)
    ensures r.Failure? <==> schema.Falsy?
    ensures r.Failure? ==> r.error.message == "schema is required"
    ensures r.Success? ==> r.value.schema == schema.value && r.value.allowUnknown == allowUnknown
  {
    match schema
    case Falsy => Failure(ConfigError("schema is required"))
    case Truthy(s) => Success(Middleware(s, allowUnknown))
  }

  /** The unknown-key policy for one region: the boolean argument when there is one,
      otherwise the table default, which is permissive for every region. */
  function AllowUnknownFor(arg: UnknownArg, mode: Region): (allow: bool)
    ensures arg.Boolean? ==> allow == arg.b
    ensures arg.NotBoolean? ==> allow
  {
    if arg.Boolean? then arg.b else DefaultAllowUnknown(mode)
  }

  /** `schema[mode]` */
  function Sub<S>(mw: Middleware<S>, mode: Region): JsValue<S>
  {
    if mode in mw.schema then mw.schema[mode] else Falsy
  }

  predicate Configured<S>(mw: Middleware<S>, mode: Region)
  {
    Sub(mw, mode).Truthy?
  }

  function OptionsFor<S>(mw: Middleware<S>, mode: Region): Options
  {
    Options(false, AllowUnknownFor(mw.allowUnknown, mode))
  }

  /** The engine call made for one region: none when its sub-schema is falsy. */
  function CallAt<D, S>(mw: Middleware<S>, req: Request<D>, mode: Region): seq<Call<D, S>>
  {
    match Sub(mw, mode)
    case Falsy => []
    case Truthy(s) => [Call(mode, Get(req, mode), s, OptionsFor(mw, mode))]
  }

  /** The engine calls made while visiting `modes` in order. */
  function CallsFor<D, S>(mw: Middleware<S>, req: Request<D>, modes: seq<Region>): seq<Call<D, S>>
  {
    if modes == [] then [] else CallAt(mw, req, modes[0]) + CallsFor(mw, req, modes[1..])
  }

  /** What one engine result adds to the collection: nothing for no error,
      otherwise every detail in the engine's order (an empty list adds nothing). */
  function Contribution<V>(result: EngineResult<V>): seq<V>
  {
    match result
    case Passed => []
    case Rejected(details) => details
  }

  /** The violations collected from a sequence of engine calls, call by call. */
  function Violations<D, S, V>(calls: seq<Call<D, S>>, engine: (D, S, Options) -> EngineResult<V>): seq<V>
  {
    if calls == [] then []
    else Contribution(engine(calls[0].data, calls[0].schema, calls[0].options)) + Violations(calls[1..], engine)
  }

  /** The violations one region contributes on its own. */
  function RegionViolations<D, S, V>(mw: Middleware<S>, req: Request<D>, engine: (D, S, Options) -> EngineResult<V>, mode: Region): seq<V>
  {
    match Sub(mw, mode)
    case Falsy => []
    case Truthy(s) => Contribution(engine(Get(req, mode), s, OptionsFor(mw, mode)))
  }

  /** The full collection the middleware builds for one request. */
  function Collected<D, S, V>(mw: Middleware<S>, req: Request<D>, engine: (D, S, Options) -> EngineResult<V>): seq<V>
  {
    Violations(CallsFor(mw, req, AllModes), engine)
  }

  /** The regions the calls were made for, in call order. */
  function Regions<D, S>(calls: seq<Call<D, S>>): seq<Region>
  {
    if calls == [] then [] else [calls[0].region] + Regions(calls[1..])
  }

  /** The regions of `modes` that have a truthy sub-schema, in order. */
  function ConfiguredModes<S>(mw: Middleware<S>, modes: seq<Region>): seq<Region>
  {
    if modes == [] then []
    else (if Configured(mw, modes[0]) then [modes[0]] else []) + ConfiguredModes(mw, modes[1..])
  }

  /** The middleware returned by the factory, run on one request: visit the regions
      in order, validate each configured one, append the engine's details, then call
      `next()` when nothing was collected and `next(new v8nError(errors))` otherwise.
      The ghost `calls` records every engine invocation, in the order it was made. */
  method Handle<D, S, V>(mw: Middleware<S>, req: Request<D>, engine: (D, S, Options) -> EngineResult<V>)
    returns (outcome: Outcome<V>, ghost calls: seq<Call<D, S>>)
    ensures calls == CallsFor(mw, req, AllModes)
    ensures outcome.Proceed? <==> Collected(mw, req, engine) == []
    ensures outcome.Fail? ==> outcome.err.errors == Collected(mw, req, engine)
  {
    var errors: seq<V> := [];
    calls := [];
    var i := 0;
    while i < |AllModes|
      invariant 0 <= i <= |AllModes|
      invariant calls == CallsFor(mw, req, AllModes[..i])
      invariant errors == Violations(calls, engine)
    {
      var mode := AllModes[i];
      var sub := Sub(mw, mode);
      if sub.Truthy? {
        var data := Get(req, mode);
        var options := Options(false, AllowUnknownFor(mw.allowUnknown, mode));
        ghost var call := Call(mode, data, sub.value, options);
        var result := engine(data, sub.value, options);
        if result.Rejected? && |result.details| != 0 {
          var details := result.details;
          var j := 0;
          while j < |details|
            invariant 0 <= j <= |details|
            invariant errors == Violations(calls, engine) + details[..j]
          {
            errors := errors + [details[j]];
            j := j + 1;
          }
        }
        ViolationsAppend(calls, [call], engine);
        calls := calls + [call];
      }
      CallsForAppend(mw, req, AllModes[..i], [mode]);
      assert AllModes[..i + 1] == AllModes[..i] + [mode];
      i := i + 1;
    }
    assert AllModes[..i] == AllModes;
    if |errors| == 0 {
      outcome := Proceed;
    } else {
      var err := new V8nError(errors);
      outcome := Fail(err);
    }
  }

  // ---------------------------------------------------------------------------
  // Lemmas about the aggregation

  lemma {:induction false} CallsForAppend<D, S>(mw: Middleware<S>, req: Request<D>, a: seq<Region>, b: seq<Region>)
    ensures CallsFor(mw, req, a + b) == CallsFor(mw, req, a) + CallsFor(mw, req, b)
  {
    if a == [] {
      assert a + b == b;
    } else {
      assert (a + b)[1..] == a[1..] + b;
      CallsForAppend(mw, req, a[1..], b);
    }
  }

  lemma {:induction false} ViolationsAppend<D, S, V>(c1: seq<Call<D, S>>, c2: seq<Call<D, S>>, engine: (D, S, Options) -> EngineResult<V>)
    ensures Violations(c1 + c2, engine) == Violations(c1, engine) + Violations(c2, engine)
  {
    if c1 == [] {
      assert c1 + c2 == c2;
    } else {
      assert (c1 + c2)[1..] == c1[1..] + c2;
      ViolationsAppend(c1[1..], c2, engine);
    }
  }

  /** The calls of a full run are those of body, query, params and headers, in that order. */
  lemma CallsInRegionOrder<D, S>(mw: Middleware<S>, req: Request<D>)
    ensures CallsFor(mw, req, AllModes)
         == CallAt(mw, req, Body) + CallAt(mw, req, Query) + CallAt(mw, req, Params) + CallAt(mw, req, Headers)
  {
    var cb, cq, cp, ch := CallAt(mw, req, Body), CallAt(mw, req, Query), CallAt(mw, req, Params), CallAt(mw, req, Headers);
    assert [Headers][1..] == [];
    assert CallsFor(mw, req, [Headers]) == ch + CallsFor(mw, req, []);
    assert [Params, Headers][1..] == [Headers];
    assert CallsFor(mw, req, [Params, Headers]) == cp + ch;
    assert [Query, Params, Headers][1..] == [Params, Headers];
    assert CallsFor(mw, req, [Query, Params, Headers]) == cq + cp + ch;
    assert AllModes[1..] == [Query, Params, Headers];
  }

  /** The violations of one region's call are that region's own violations. */
  lemma ViolationsOfCallAt<D, S, V>(mw: Middleware<S>, req: Request<D>, engine: (D, S, Options) -> EngineResult<V>, mode: Region)
    ensures Violations(CallAt(mw, req, mode), engine) == RegionViolations(mw, req, engine, mode)
  {
  }

  /** The collection is the concatenation of each region's own violations, in the fixed
      region order, with the engine's order kept inside each region. */
  lemma AggregationOrder<D, S, V>(mw: Middleware<S>, req: Request<D>, engine: (D, S, Options) -> EngineResult<V>)
    ensures Collected(mw, req, engine)
         == RegionViolations(mw, req, engine, Body) + RegionViolations(mw, req, engine, Query)
          + RegionViolations(mw, req, engine, Params) + RegionViolations(mw, req, engine, Headers)
    ensures |Collected(mw, req, engine)|
         == |RegionViolations(mw, req, engine, Body)| + |RegionViolations(mw, req, engine, Query)|
          + |RegionViolations(mw, req, engine, Params)| + |RegionViolations(mw, req, engine, Headers)|
  {
    CallsInRegionOrder(mw, req);
    var cb, cq, cp, ch := CallAt(mw, req, Body), CallAt(mw, req, Query), CallAt(mw, req, Params), CallAt(mw, req, Headers);
    ViolationsAppend(cb + cq + cp, ch, engine);
    ViolationsAppend(cb + cq, cp, engine);
    ViolationsAppend(cb, cq, engine);
    ViolationsOfCallAt(mw, req, engine, Body);
    ViolationsOfCallAt(mw, req, engine, Query);
    ViolationsOfCallAt(mw, req, engine, Params);
    ViolationsOfCallAt(mw, req, engine, Headers);
  }

  /** An error reaches `next` exactly when some configured region drew at least one detail. */
  lemma FailsIffSomeRegionRejects<D, S, V>(mw: Middleware<S>, req: Request<D>, engine: (D, S, Options) -> EngineResult<V>)
    ensures Collected(mw, req, engine) != []
        <==> exists m :: Configured(mw, m) && RegionViolations(mw, req, engine, m) != []
  {
    AggregationOrder(mw, req, engine);
    if Collected(mw, req, engine) != [] {
      if RegionViolations(mw, req, engine, Body) != [] {
        assert Configured(mw, Body);
      } else if RegionViolations(mw, req, engine, Query) != [] {
        assert Configured(mw, Query);
      } else if RegionViolations(mw, req, engine, Params) != [] {
        assert Configured(mw, Params);
      } else {
        assert Configured(mw, Headers) && RegionViolations(mw, req, engine, Headers) != [];
      }
    }
  }

  /** With body and headers configured and query and params not, the error lists the body's
      violations first and then the headers', and counts both. */
  lemma BodyThenHeaders<D, S, V>(mw: Middleware<S>, req: Request<D>, engine: (D, S, Options) -> EngineResult<V>)
    requires Configured(mw, Body) && Configured(mw, Headers)
    requires !Configured(mw, Query) && !Configured(mw, Params)
    ensures Collected(mw, req, engine)
         == Contribution(engine(req.body, Sub(mw, Body).value, OptionsFor(mw, Body)))
          + Contribution(engine(req.headers, Sub(mw, Headers).value, OptionsFor(mw, Headers)))
  {
    AggregationOrder(mw, req, engine);
  }

  /** A schema without any truthy region sub-schema validates nothing and lets every request through. */
  lemma NothingConfiguredProceeds<D, S, V>(mw: Middleware<S>, req: Request<D>, engine: (D, S, Options) -> EngineResult<V>)
    requires forall m :: !Configured(mw, m)
    ensures CallsFor(mw, req, AllModes) == []
    ensures Collected(mw, req, engine) == []
  {
    CallsInRegionOrder(mw, req);
    assert !Configured(mw, Body) && !Configured(mw, Query) && !Configured(mw, Params) && !Configured(mw, Headers);
  }

  /** An engine that reports no error, or errors without details, on every call yields no collection. */
  lemma {:induction false} CleanEngineCollectsNothing<D, S, V>(calls: seq<Call<D, S>>, engine: (D, S, Options) -> EngineResult<V>)
    requires forall k :: 0 <= k < |calls| ==>
               engine(calls[k].data, calls[k].schema, calls[k].options) in {Passed, Rejected([])}
    ensures Violations(calls, engine) == []
  {
    if calls != [] {
      assert engine(calls[0].data, calls[0].schema, calls[0].options) in {Passed, Rejected([])};
      forall k | 0 <= k < |calls[1..]|
        ensures engine(calls[1..][k].data, calls[1..][k].schema, calls[1..][k].options) in {Passed, Rejected([])}
      {
        assert calls[1..][k] == calls[k + 1];
      }
      CleanEngineCollectsNothing(calls[1..], engine);
    }
  }

  /** Every engine call is for a configured region, reads that region's data, uses its
      sub-schema, and passes `abortEarly = false` with the region's resolved policy. */
  lemma {:induction false} CallsAreWellFormed<D, S>(mw: Middleware<S>, req: Request<D>, modes: seq<Region>)
    ensures forall c :: c in CallsFor(mw, req, modes) ==>
              && Configured(mw, c.region)
              && c.data == Get(req, c.region)
              && Sub(mw, c.region) == Truthy(c.schema)
              && c.options == Options(false, AllowUnknownFor(mw.allowUnknown, c.region))
  {
    if modes != [] {
      CallsAreWellFormed(mw, req, modes[1..]);
    }
  }

  /** The regions validated are exactly the configured ones, in the visiting order, each once:
      a falsy sub-schema skips its region and nothing else, so there is no early exit. */
  lemma {:induction false} RegionsValidated<D, S>(mw: Middleware<S>, req: Request<D>, modes: seq<Region>)
    ensures Regions(CallsFor(mw, req, modes)) == ConfiguredModes(mw, modes)
  {
    if modes != [] {
      RegionsValidated(mw, req, modes[1..]);
      RegionsAppend(CallAt(mw, req, modes[0]), CallsFor(mw, req, modes[1..]));
    }
  }

  lemma {:induction false} RegionsAppend<D, S>(c1: seq<Call<D, S>>, c2: seq<Call<D, S>>)
    ensures Regions(c1 + c2) == Regions(c1) + Regions(c2)
  {
    if c1 == [] {
      assert c1 + c2 == c2;
    } else {
      assert (c1 + c2)[1..] == c1[1..] + c2;
      RegionsAppend(c1[1..], c2);
    }
  }

  /** On a full run: a region is validated if and only if its sub-schema is truthy. */
  lemma ValidatedIffConfigured<D, S>(mw: Middleware<S>, req: Request<D>, mode: Region)
    ensures mode in Regions(CallsFor(mw, req, AllModes)) <==> Configured(mw, mode)
  {
    RegionsValidated(mw, req, AllModes);
    InConfiguredModes(mw, AllModes, mode);
    assert mode in AllModes by {
      match mode
      case Body => assert AllModes[0] == Body;
      case Query => assert AllModes[1] == Query;
      case Params => assert AllModes[2] == Params;
      case Headers => assert AllModes[3] == Headers;
    }
  }

  lemma {:induction false} InConfiguredModes<S>(mw: Middleware<S>, modes: seq<Region>, mode: Region)
    ensures mode in ConfiguredModes(mw, modes) <==> mode in modes && Configured(mw, mode)
  {
    if modes != [] {
      InConfiguredModes(mw, modes[1..], mode);
      assert modes == [modes[0]] + modes[1..];
    }
  }

  /** A boolean `allowUnknown` overrides the table for every call. */
  lemma PolicyOverride<D, S>(mw: Middleware<S>, req: Request<D>, allow: bool)
    requires mw.allowUnknown == Boolean(allow)
    ensures forall c :: c in CallsFor(mw, req, AllModes) ==> c.options == Options(false, allow)
  {
    CallsAreWellFormed(mw, req, AllModes);
  }

  /** Without a boolean argument every region is validated with unknown keys allowed. */
  lemma DefaultPolicyPermissive<D, S>(mw: Middleware<S>, req: Request<D>)
    requires mw.allowUnknown == NotBoolean
    ensures forall c :: c in CallsFor(mw, req, AllModes) ==> c.options == Options(false, true)
  {
    CallsAreWellFormed(mw, req, AllModes);
  }

  /** Region isolation: the data of a region without a sub-schema is never read, so two
      requests that agree on the configured regions draw the same calls and violations. */
  lemma {:induction false} UnconfiguredDataIgnored<D, S>(mw: Middleware<S>, r1: Request<D>, r2: Request<D>, modes: seq<Region>)
    requires forall m :: Configured(mw, m) ==> Get(r1, m) == Get(r2, m)
    ensures CallsFor(mw, r1, modes) == CallsFor(mw, r2, modes)
  {
    if modes != [] {
      UnconfiguredDataIgnored(mw, r1, r2, modes[1..]);
    }
  }

  lemma RegionIsolation<D, S, V>(mw: Middleware<S>, r1: Request<D>, r2: Request<D>, engine: (D, S, Options) -> EngineResult<V>)
    requires forall m :: Configured(mw, m) ==> Get(r1, m) == Get(r2, m)
    ensures Collected(mw, r1, engine) == Collected(mw, r2, engine)
  {
    UnconfiguredDataIgnored(mw, r1, r2, AllModes);
  }

  /** An empty schema object is truthy: the factory accepts it, and the middleware validates nothing. */
  lemma EmptySchemaProceeds<D, S, V>(arg: UnknownArg, req: Request<D>, engine: (D, S, Options) -> EngineResult<V>)
    ensures V8n<S>(Truthy(map[]), arg).Success?
    ensures Collected(V8n<S>(Truthy(map[]), arg).value, req, engine) == []
  {
    NothingConfiguredProceeds(V8n<S>(Truthy(map[]), arg).value, req, engine);
  }
}
