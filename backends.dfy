/** The backend registry and the selection of the default backend
    (jax/_src/xla_bridge.py): factory registration, plugin registration and
    callbacks, the once-only plugin discovery gate, the initialisation pass
    behind `backends()`, `_init_backend`, `_clear_backends`, the lookup behind
    `get_backend`, and the process queries built on a backend. */
module Backends {
  import opened Wrappers
  import opened Platforms
  import Text
  import PluginConfig

  // ---------------------------------------------------------------------
  // Values the registry holds
  // ---------------------------------------------------------------------

  datatype Device = Device(id: int, processIndex: int)

  /** A live client. The registry only reads these parts of it:
      `device_count()`, `devices()`, `_get_all_devices()` and
      `process_index()`. */
  datatype Backend = Backend(
    platform: string,
    deviceCount: nat,
    devices: seq<Device>,
    allDevices: seq<Device>,
    processIndex: int)

  /** An opaque `PJRT_Api*` handle supplied by a loaded plugin. */
  type CApi = nat

  /** The identity of a callable passed to `register_plugin_callbacks`. */
  type Callback = nat

  /** A topology factory: one built over a plugin's C API, or another. */
  datatype Topology = CApiTopology(api: CApi) | CustomTopology(id: nat)

  /** What calling a backend factory produces. */
  datatype FactoryOutcome = Built(backend: Backend) | NoBackend | Raised(message: string)

  /** `BackendRegistration`; the factory is represented by its outcome. */
  datatype Registration = Registration(
    factory: FactoryOutcome,
    priority: int,
    failQuietly: bool,
    experimental: bool,
    cApi: Option<CApi>)

  /** The arguments of one `register_backend_factory` call. */
  datatype NamedRegistration = NamedRegistration(name: string, registration: Registration, topology: Option<Topology>)

  /** One call `callback(c_api=api)`. */
  datatype Invocation = Invocation(callback: Callback, api: CApi)

  /** Why `_init_backend` rejected a platform. */
  datatype InitError =
    | NotRegistered(platform: string)
    | ReturnedNone(platform: string)
    | NoDevices(platform: string)
    | FactoryFailed(platform: string, message: string)

  /** Where plugin discovery raises: while the plugins register themselves
      (an import failure other than `ImportError`, a plugin config file
      without `library_path` or an error from `register_plugin` for a plugin
      named in the environment; a plugin's own `initialize` is caught and
      logged), or in the callback call at position `call` of the firing order
      (a position past the last call means none raises). */
  datatype DiscoveryFailure =
    | RegistrationRaised(message: string)
    | CallbackRaised(call: nat, message: string)

  /** What plugin discovery does: the registrations it makes, in order, and
      where it raises, if it does. */
  datatype Discovery = Discovery(registrations: seq<NamedRegistration>, failure: Option<DiscoveryFailure>)

  /** The errors raised by the bridge. */
  datatype BridgeError =
    | AlreadyInitialized(name: string)                       // register_backend_factory
    | FactoryWithOptions(name: string)                       // register_plugin
    | InitFailed(platform: string, cause: InitError, platformsConfigured: bool)
    | NoDefaultBackend                                       // `assert _default_backend is not None`
    | NoPlatformForAlias(alias: string, present: set<string>)
    | FailedToInitialize(platform: string, cause: InitError, available: set<string>)
    | UnknownBackend(platform: string, available: set<string>)
    | NoDevicesToCount                                       // max() of an empty device list
    | UnknownProcessIndex(index: int)
    | DiscoveryFailed(message: string)                       // raised inside plugin discovery
    | CallbackFailed(message: string)                        // raised by a callback register_plugin_callbacks calls

  // ---------------------------------------------------------------------
  // The registration table: two dictionaries with insertion order
  // ---------------------------------------------------------------------

  /** `_backend_factories` (with its iteration order `order`) and
      `_topology_factories`. */
  datatype Table = Table(order: seq<string>, factories: map<string, Registration>, topologies: map<string, Topology>)
  {
    ghost predicate Valid()
    {
      && (forall i, j :: 0 <= i < j < |order| ==> order[i] != order[j])
      && (forall p :: p in factories <==> p in order)
    }

    /** One `register_backend_factory` update: the registration is inserted
        or overwritten (an overwritten name keeps its place in the iteration
        order), and a topology factory is stored only when one is given. */
    function Register(r: NamedRegistration): Table
    {
      Table(if r.name in factories then order else order + [r.name],
            factories[r.name := r.registration],
            if r.topology.Some? then topologies[r.name := r.topology.value] else topologies)
    }

    /** The registrations `rs`, applied in order. */
    function RegisterAll(rs: seq<NamedRegistration>): Table
      decreases |rs|
    {
      if rs == [] then this else RegisterAll(rs[..|rs| - 1]).Register(rs[|rs| - 1])
    }
  }

  /** Registering keeps the table well formed, keeps every earlier name at
      its place, and puts a new name last. */
  lemma RegisterKeepsOrder(t: Table, r: NamedRegistration)
    requires t.Valid()
    ensures t.Register(r).Valid()
    ensures t.Register(r).factories.Keys == t.factories.Keys + {r.name}
    ensures t.Register(r).factories[r.name] == r.registration
    ensures forall i :: 0 <= i < |t.order| ==> t.Register(r).order[i] == t.order[i]
    ensures r.name !in t.factories ==> t.Register(r).order == t.order + [r.name]
    ensures r.name in t.factories ==> t.Register(r).order == t.order
    ensures r.topology.None? ==> t.Register(r).topologies == t.topologies
  {
  }

  lemma {:induction false} RegisterAllValid(t: Table, rs: seq<NamedRegistration>)
    requires t.Valid()
    ensures t.RegisterAll(rs).Valid()
    decreases |rs|
  {
    if rs != [] {
      RegisterAllValid(t, rs[..|rs| - 1]);
      RegisterKeepsOrder(t.RegisterAll(rs[..|rs| - 1]), rs[|rs| - 1]);
    }
  }

  // ---------------------------------------------------------------------
  // Plugin callbacks
  // ---------------------------------------------------------------------

  /** The C API handles of the registrations, in iteration order. */
  function CApisOf(order: seq<string>, factories: map<string, Registration>): seq<CApi>
    decreases |order|
  {
    if order == [] then []
    else
      var n := |order| - 1;
      CApisOf(order[..n], factories) +
        (if order[n] in factories && factories[order[n]].cApi.Some? then [factories[order[n]].cApi.value] else [])
  }

  /** The calls of every callback in `cbs`, in order, with one handle. */
  function Pairs(api: CApi, cbs: seq<Callback>): (r: seq<Invocation>)
    ensures |r| == |cbs|
    ensures forall j :: 0 <= j < |cbs| ==> r[j] == Invocation(cbs[j], api)
    decreases |cbs|
  {
    if cbs == [] then [] else Pairs(api, cbs[..|cbs| - 1]) + [Invocation(cbs[|cbs| - 1], api)]
  }

  /** For each handle in turn, the calls of every callback with it. */
  function Firings(apis: seq<CApi>, cbs: seq<Callback>): seq<Invocation>
    decreases |apis|
  {
    if apis == [] then [] else Firings(apis[..|apis| - 1], cbs) + Pairs(apis[|apis| - 1], cbs)
  }

  lemma {:induction false} PairsCount(api: CApi, cbs: seq<Callback>, cb: Callback, h: CApi)
    ensures multiset(Pairs(api, cbs))[Invocation(cb, h)] == if api == h then multiset(cbs)[cb] else 0
    decreases |cbs|
  {
    if cbs != [] {
      var n := |cbs| - 1;
      PairsCount(api, cbs[..n], cb, h);
      assert cbs == cbs[..n] + [cbs[n]];
    }
  }

  /** Each callback is called with each handle exactly as many times as the
      callback was registered times the number of registrations carrying the
      handle: once, when both are unique. */
  lemma {:induction false} FiringsCount(apis: seq<CApi>, cbs: seq<Callback>, cb: Callback, h: CApi)
    ensures multiset(Firings(apis, cbs))[Invocation(cb, h)] == multiset(apis)[h] * multiset(cbs)[cb]
    decreases |apis|
  {
    if apis != [] {
      var n := |apis| - 1;
      FiringsCount(apis[..n], cbs, cb, h);
      PairsCount(apis[n], cbs, cb, h);
      FiringsLast(apis, cbs);
      MultisetOfLast(apis);
      var x := Invocation(cb, h);
      var before := multiset(apis[..n])[h];
      var times := multiset(cbs)[cb];
      var here := multiset(Pairs(apis[n], cbs))[x];
      assert multiset(Firings(apis, cbs))[x] == before * times + here;
      if apis[n] == h {
        assert here == times;
        assert multiset(apis)[h] == before + 1;
        Distribute(before, 1, times);
      } else {
        assert here == 0;
        assert multiset(apis)[h] == before;
      }
    }
  }

  lemma FiringsLast(apis: seq<CApi>, cbs: seq<Callback>)
    requires apis != []
    ensures multiset(Firings(apis, cbs)) ==
              multiset(Firings(apis[..|apis| - 1], cbs)) + multiset(Pairs(apis[|apis| - 1], cbs))
  {
  }

  lemma MultisetOfLast(s: seq<CApi>)
    requires s != []
    ensures multiset(s) == multiset(s[..|s| - 1]) + multiset{s[|s| - 1]}
  {
    assert s == s[..|s| - 1] + [s[|s| - 1]];
  }

  lemma Distribute(a: int, b: int, c: int)
    ensures (a + b) * c == a * c + b * c
  {
  }

  /** The nested loop that calls every callback of `cbs` with the handle of
      every registration, registrations in iteration order on the outside. */
  method FireCallbacks(order: seq<string>, factories: map<string, Registration>, cbs: seq<Callback>)
    returns (fired: seq<Invocation>)
    requires forall i :: 0 <= i < |order| ==> order[i] in factories
    ensures fired == Firings(CApisOf(order, factories), cbs)
  {
    fired := [];
    for i := 0 to |order|
      invariant fired == Firings(CApisOf(order[..i], factories), cbs)
    {
      assert order[..i + 1][..i] == order[..i];
      ghost var apis := CApisOf(order[..i], factories);
      var registration := factories[order[i]];
      if registration.cApi.Some? {
        var api := registration.cApi.value;
        ghost var before := fired;
        for j := 0 to |cbs|
          invariant fired == before + Pairs(api, cbs[..j])
        {
          assert cbs[..j + 1][..j] == cbs[..j];
          fired := fired + [Invocation(cbs[j], api)];
        }
        assert cbs[..|cbs|] == cbs;
        assert CApisOf(order[..i + 1], factories) == apis + [api];
        assert (apis + [api])[..|apis|] == apis;
      } else {
        assert CApisOf(order[..i + 1], factories) == apis;
      }
    }
    assert order[..|order|] == order;
  }

  // ---------------------------------------------------------------------
  // _init_backend
  // ---------------------------------------------------------------------

  /** `_init_backend(platform)`: the registered factory's backend, or the
      reason it is rejected. */
  function InitBackend(factories: map<string, Registration>, platform: string): (r: Result<Backend, InitError>)
    ensures platform !in factories ==> r == Err(NotRegistered(platform))
    ensures platform in factories && factories[platform].factory.NoBackend? ==> r == Err(ReturnedNone(platform))
    ensures platform in factories && factories[platform].factory.Raised? ==>
              r == Err(FactoryFailed(platform, factories[platform].factory.message))
    ensures r.Ok? ==> platform in factories && factories[platform].factory == Built(r.value)
    ensures r.Ok? ==> r.value.deviceCount != 0 || r.value.allDevices != []
  {
    if platform !in factories then Err(NotRegistered(platform))
    else
      match factories[platform].factory
      case NoBackend => Err(ReturnedNone(platform))
      case Raised(message) => Err(FactoryFailed(platform, message))
      case Built(b) =>
        if b.deviceCount == 0 && |b.allDevices| == 0 then Err(NoDevices(platform)) else Ok(b)
  }

  /** `_init_backend` looks only at the platform's own registration. */
  lemma InitBackendOnlyReadsItsEntry(f: map<string, Registration>, g: map<string, Registration>, platform: string)
    requires (platform in f <==> platform in g) && (platform in f ==> f[platform] == g[platform])
    ensures InitBackend(f, platform) == InitBackend(g, platform)
  {
  }

  /** Registering a name without a cached backend leaves every cached
      backend what its factory builds. */
  lemma RegisterKeepsCache(factories: map<string, Registration>, backends: map<string, Backend>, r: NamedRegistration)
    requires r.name !in backends
    requires forall p :: p in backends ==> InitBackend(factories, p) == Ok(backends[p])
    ensures forall p :: p in backends ==> InitBackend(factories[r.name := r.registration], p) == Ok(backends[p])
  {
    forall p | p in backends
      ensures InitBackend(factories[r.name := r.registration], p) == Ok(backends[p])
    {
      InitBackendOnlyReadsItsEntry(factories, factories[r.name := r.registration], p);
    }
  }

  /** A built backend is accepted exactly when it reports some device. */
  lemma InitBackendAcceptsDevices(factories: map<string, Registration>, platform: string, b: Backend)
    requires platform in factories && factories[platform].factory == Built(b)
    ensures InitBackend(factories, platform) == (if b.deviceCount == 0 && b.allDevices == [] then Err(NoDevices(platform)) else Ok(b))
  {
  }

  // ---------------------------------------------------------------------
  // The initialisation pass of backends()
  // ---------------------------------------------------------------------

  /** A platform to try, with its priority and failure policy. */
  datatype Candidate = Candidate(platform: string, priority: int, failQuietly: bool)

  /** The aliases in a list, expanded in place. */
  function ExpandAll(names: seq<string>): (r: seq<string>)
    ensures |r| >= |names|
    decreases |names|
  {
    if names == [] then [] else ExpandAlias(names[0]) + ExpandAll(names[1..])
  }

  /** Expanding a list is expanding its two halves one after the other: each
      name's expansion takes that name's place. */
  lemma {:induction false} ExpandAllAppend(a: seq<string>, b: seq<string>)
    ensures ExpandAll(a + b) == ExpandAll(a) + ExpandAll(b)
    decreases |a|
  {
    if a == [] {
      assert a + b == b;
    } else {
      assert (a + b)[1..] == a[1..] + b;
      ExpandAllAppend(a[1..], b);
    }
  }

  /** A platform is in the expanded list exactly when it is in the expansion
      of some listed name. */
  lemma {:induction false} ExpandAllMembers(names: seq<string>, p: string)
    ensures p in ExpandAll(names) <==> exists i :: 0 <= i < |names| && p in ExpandAlias(names[i])
    decreases |names|
  {
    if names != [] {
      ExpandAllMembers(names[1..], p);
      if p in ExpandAll(names[1..]) {
        var i :| 0 <= i < |names[1..]| && p in ExpandAlias(names[1..][i]);
        assert p in ExpandAlias(names[i + 1]);
      }
      if exists i :: 0 <= i < |names| && p in ExpandAlias(names[i]) {
        var i :| 0 <= i < |names| && p in ExpandAlias(names[i]);
        if i > 0 {
          assert p in ExpandAlias(names[1..][i - 1]);
        }
      }
    }
  }

  /** The platforms named by a non-empty `jax_platforms` setting. */
  function ConfiguredPlatforms(jaxPlatforms: string): seq<string>
  {
    ExpandAll(Text.Split(jaxPlatforms, ','))
  }

  /** With an explicit list, priorities count down from its length to 1 by
      position and every platform fails loudly. */
  function ExplicitCandidates(platforms: seq<string>): (r: seq<Candidate>)
    ensures |r| == |platforms|
    ensures forall i :: 0 <= i < |r| ==> r[i] == Candidate(platforms[i], |platforms| - i, false)
  {
    seq(|platforms|, i requires 0 <= i < |platforms| => Candidate(platforms[i], |platforms| - i, false))
  }

  /** Without an explicit list, every registration in iteration order, with
      its own priority and policy. */
  function RegisteredCandidates(order: seq<string>, factories: map<string, Registration>): (r: seq<Candidate>)
    requires forall i :: 0 <= i < |order| ==> order[i] in factories
    ensures |r| == |order|
    ensures forall i :: 0 <= i < |r| ==>
              r[i] == Candidate(order[i], factories[order[i]].priority, factories[order[i]].failQuietly)
  {
    seq(|order|, i requires 0 <= i < |order| =>
      Candidate(order[i], factories[order[i]].priority, factories[order[i]].failQuietly))
  }

  function Candidates(jaxPlatforms: string, t: Table): seq<Candidate>
    requires t.Valid()
  {
    if jaxPlatforms != "" then ExplicitCandidates(ConfiguredPlatforms(jaxPlatforms))
    else RegisteredCandidates(t.order, t.factories)
  }

  /** The initial value of `default_priority`. */
  const NoPriority: int := -1000

  /** The variables the pass updates, and the error that ended it early. */
  datatype PassState = PassState(
    backends: map<string, Backend>,
    errors: map<string, InitError>,
    default: Option<Backend>,
    defaultPriority: int,
    failure: Option<BridgeError>)

  function StartPass(errors: map<string, InitError>): PassState
  {
    PassState(map[], errors, None, NoPriority, None)
  }

  /** "cuda" is not even tried when no NVIDIA GPU is visible. */
  predicate Skipped(c: Candidate, hasNvidiaGpu: bool)
  {
    c.platform == "cuda" && !hasNvidiaGpu
  }

  predicate Succeeds(f: map<string, Registration>, gpu: bool, c: Candidate)
  {
    !Skipped(c, gpu) && InitBackend(f, c.platform).Ok?
  }

  predicate FailsQuietly(f: map<string, Registration>, gpu: bool, c: Candidate)
  {
    !Skipped(c, gpu) && InitBackend(f, c.platform).Err? && c.failQuietly
  }

  predicate FailsLoudly(f: map<string, Registration>, gpu: bool, c: Candidate)
  {
    !Skipped(c, gpu) && InitBackend(f, c.platform).Err? && !c.failQuietly
  }

  /** One iteration of the loop over the candidates. */
  function Step(f: map<string, Registration>, gpu: bool, configured: bool, st: PassState, c: Candidate): PassState
  {
    if st.failure.Some? || Skipped(c, gpu) then st
    else
      match InitBackend(f, c.platform)
      case Ok(b) =>
        if c.priority > st.defaultPriority then
          st.(backends := st.backends[c.platform := b], default := Some(b), defaultPriority := c.priority)
        else st.(backends := st.backends[c.platform := b])
      case Err(e) =>
        if c.failQuietly then st.(errors := st.errors[c.platform := e])
        else st.(failure := Some(InitFailed(c.platform, e, configured)))
  }

  /** The loop over `cands`, from `st`. */
  function RunPass(f: map<string, Registration>, gpu: bool, configured: bool, st: PassState, cands: seq<Candidate>): PassState
    decreases |cands|
  {
    if cands == [] then st
    else Step(f, gpu, configured, RunPass(f, gpu, configured, st, cands[..|cands| - 1]), cands[|cands| - 1])
  }

  /** What `backends()` returns or raises at the end of a pass. */
  function PassOutcome(st: PassState): Result<map<string, Backend>, BridgeError>
  {
    if st.failure.Some? then Err(st.failure.value)
    else if st.default.None? then Err(NoDefaultBackend)
    else Ok(st.backends)
  }

  /** The platforms among `cands` that initialise. */
  function Initialised(f: map<string, Registration>, gpu: bool, cands: seq<Candidate>): (r: set<string>)
    ensures forall p :: p in r <==> exists i :: 0 <= i < |cands| && cands[i].platform == p && Succeeds(f, gpu, cands[i])
    decreases |cands|
  {
    if cands == [] then {}
    else
      var n := |cands| - 1;
      var init := Initialised(f, gpu, cands[..n]);
      assert forall i :: 0 <= i < n ==> cands[..n][i] == cands[i];
      init + (if Succeeds(f, gpu, cands[n]) then {cands[n].platform} else {})
  }

  /** The platforms among `cands` that fail quietly. */
  function QuietlyFailed(f: map<string, Registration>, gpu: bool, cands: seq<Candidate>): (r: set<string>)
    ensures forall p :: p in r <==> exists i :: 0 <= i < |cands| && cands[i].platform == p && FailsQuietly(f, gpu, cands[i])
    decreases |cands|
  {
    if cands == [] then {}
    else
      var n := |cands| - 1;
      var init := QuietlyFailed(f, gpu, cands[..n]);
      assert forall i :: 0 <= i < n ==> cands[..n][i] == cands[i];
      init + (if FailsQuietly(f, gpu, cands[n]) then {cands[n].platform} else {})
  }

  /** One step that is not a loud failure caches a success, records a quiet
      failure, and otherwise changes neither map. */
  lemma StepWithoutFailure(f: map<string, Registration>, gpu: bool, configured: bool, st: PassState, c: Candidate)
    requires st.failure.None? && !FailsLoudly(f, gpu, c)
    ensures Step(f, gpu, configured, st, c).failure.None?
    ensures Step(f, gpu, configured, st, c).backends ==
              if Succeeds(f, gpu, c) then st.backends[c.platform := InitBackend(f, c.platform).value] else st.backends
    ensures Step(f, gpu, configured, st, c).errors ==
              if FailsQuietly(f, gpu, c) then st.errors[c.platform := InitBackend(f, c.platform).error] else st.errors
  {
  }

  lemma UnionGrows<T>(k: set<T>, a: set<T>, b: set<T>, added: set<T>)
    requires k == a + b
    ensures k + added == a + (b + added)
  {
  }

  /** One step that is not a loud failure adds the platform to the recorded
      errors exactly when it fails quietly. */
  lemma StepErrorKeys(f: map<string, Registration>, gpu: bool, configured: bool, st: PassState, c: Candidate)
    requires st.failure.None? && !FailsLoudly(f, gpu, c)
    ensures Step(f, gpu, configured, st, c).errors.Keys ==
              st.errors.Keys + (if FailsQuietly(f, gpu, c) then {c.platform} else {})
  {
    StepWithoutFailure(f, gpu, configured, st, c);
  }

  /** A pass over candidates none of which fails loudly ends without a
      failure. */
  lemma {:induction false} PassWithoutFailure(f: map<string, Registration>, gpu: bool, configured: bool,
                                              errors: map<string, InitError>, cands: seq<Candidate>)
    requires forall i :: 0 <= i < |cands| ==> !FailsLoudly(f, gpu, cands[i])
    ensures RunPass(f, gpu, configured, StartPass(errors), cands).failure.None?
    decreases |cands|
  {
    if cands != [] {
      var n := |cands| - 1;
      assert forall i :: 0 <= i < n ==> cands[..n][i] == cands[i];
      PassWithoutFailure(f, gpu, configured, errors, cands[..n]);
      StepWithoutFailure(f, gpu, configured, RunPass(f, gpu, configured, StartPass(errors), cands[..n]), cands[n]);
    }
  }

  /** Without a loud failure, the cache holds exactly the platforms that
      initialised, each with the backend its factory built. */
  lemma {:induction false} PassBackends(f: map<string, Registration>, gpu: bool, configured: bool,
                                        errors: map<string, InitError>, cands: seq<Candidate>)
    requires forall i :: 0 <= i < |cands| ==> !FailsLoudly(f, gpu, cands[i])
    ensures RunPass(f, gpu, configured, StartPass(errors), cands).failure.None?
    ensures RunPass(f, gpu, configured, StartPass(errors), cands).backends.Keys == Initialised(f, gpu, cands)
    ensures forall p :: p in RunPass(f, gpu, configured, StartPass(errors), cands).backends ==>
              InitBackend(f, p) == Ok(RunPass(f, gpu, configured, StartPass(errors), cands).backends[p])
    decreases |cands|
  {
    if cands != [] {
      var n := |cands| - 1;
      assert forall i :: 0 <= i < n ==> cands[..n][i] == cands[i];
      PassBackends(f, gpu, configured, errors, cands[..n]);
      StepWithoutFailure(f, gpu, configured, RunPass(f, gpu, configured, StartPass(errors), cands[..n]), cands[n]);
    }
  }

  /** Without a loud failure, the recorded errors are the earlier ones plus
      one per platform that failed quietly, which holds that platform's
      error; the others keep their earlier error. */
  lemma {:induction false} PassErrors(f: map<string, Registration>, gpu: bool, configured: bool,
                                      errors: map<string, InitError>, cands: seq<Candidate>)
    requires forall i :: 0 <= i < |cands| ==> !FailsLoudly(f, gpu, cands[i])
    ensures RunPass(f, gpu, configured, StartPass(errors), cands).errors.Keys == errors.Keys + QuietlyFailed(f, gpu, cands)
    decreases |cands|
  {
    if cands != [] {
      var n := |cands| - 1;
      assert forall i :: 0 <= i < n ==> cands[..n][i] == cands[i];
      PassErrors(f, gpu, configured, errors, cands[..n]);
      PassWithoutFailure(f, gpu, configured, errors, cands[..n]);
      var st := RunPass(f, gpu, configured, StartPass(errors), cands[..n]);
      var c := cands[n];
      var added := if FailsQuietly(f, gpu, c) then {c.platform} else {};
      StepErrorKeys(f, gpu, configured, st, c);
      assert RunPass(f, gpu, configured, StartPass(errors), cands) == Step(f, gpu, configured, st, c);
      assert QuietlyFailed(f, gpu, cands) == QuietlyFailed(f, gpu, cands[..n]) + added;
      UnionGrows(st.errors.Keys, errors.Keys, QuietlyFailed(f, gpu, cands[..n]), added);
    }
  }

  /** ... and each recorded error is the platform's latest. */
  lemma {:induction false} PassErrorValues(f: map<string, Registration>, gpu: bool, configured: bool,
                                           errors: map<string, InitError>, cands: seq<Candidate>)
    requires forall i :: 0 <= i < |cands| ==> !FailsLoudly(f, gpu, cands[i])
    ensures forall p :: p in QuietlyFailed(f, gpu, cands) ==>
              p in RunPass(f, gpu, configured, StartPass(errors), cands).errors &&
              RunPass(f, gpu, configured, StartPass(errors), cands).errors[p] == InitBackend(f, p).error
    ensures forall p :: p in errors && p !in QuietlyFailed(f, gpu, cands) ==>
              p in RunPass(f, gpu, configured, StartPass(errors), cands).errors &&
              RunPass(f, gpu, configured, StartPass(errors), cands).errors[p] == errors[p]
    decreases |cands|
  {
    if cands != [] {
      var n := |cands| - 1;
      assert forall i :: 0 <= i < n ==> cands[..n][i] == cands[i];
      PassErrorValues(f, gpu, configured, errors, cands[..n]);
      PassWithoutFailure(f, gpu, configured, errors, cands[..n]);
      var st := RunPass(f, gpu, configured, StartPass(errors), cands[..n]);
      assert RunPass(f, gpu, configured, StartPass(errors), cands) == Step(f, gpu, configured, st, cands[n]);
      StepWithoutFailure(f, gpu, configured, st, cands[n]);
    }
  }

  /** Without a loud failure, the default priority is at least -1000 and at
      least every success's priority, and it stays -1000 while no default is
      chosen. */
  lemma {:induction false} PassDefaultPriority(f: map<string, Registration>, gpu: bool, configured: bool,
                                               errors: map<string, InitError>, cands: seq<Candidate>)
    requires forall i :: 0 <= i < |cands| ==> !FailsLoudly(f, gpu, cands[i])
    ensures var st := RunPass(f, gpu, configured, StartPass(errors), cands);
            && st.defaultPriority >= NoPriority
            && (forall i :: 0 <= i < |cands| && Succeeds(f, gpu, cands[i]) ==> cands[i].priority <= st.defaultPriority)
            && (st.default.None? ==> st.defaultPriority == NoPriority)
    decreases |cands|
  {
    if cands != [] {
      var n := |cands| - 1;
      assert forall i :: 0 <= i < n ==> cands[..n][i] == cands[i];
      PassDefaultPriority(f, gpu, configured, errors, cands[..n]);
      PassBackends(f, gpu, configured, errors, cands[..n]);
    }
  }

  /** Candidate `i` is the default `st` picked: it succeeded with the default
      backend at the default priority, above -1000, and no earlier success
      has that priority or more. */
  ghost predicate DefaultChoice(f: map<string, Registration>, gpu: bool, cands: seq<Candidate>, st: PassState, i: int)
  {
    && 0 <= i < |cands| && Succeeds(f, gpu, cands[i]) && st.default.Some?
    && st.default.value == InitBackend(f, cands[i].platform).value
    && cands[i].priority == st.defaultPriority && cands[i].priority > NoPriority
    && forall j :: 0 <= j < i && Succeeds(f, gpu, cands[j]) ==> cands[j].priority < cands[i].priority
  }

  /** A choice among a prefix of the candidates is still a choice among
      them all while the default does not change. */
  lemma DefaultChoiceExtends(f: map<string, Registration>, gpu: bool, cands: seq<Candidate>, n: nat,
                             st: PassState, last: PassState, i: int)
    requires n <= |cands| && DefaultChoice(f, gpu, cands[..n], st, i)
    requires last.default == st.default && last.defaultPriority == st.defaultPriority
    ensures DefaultChoice(f, gpu, cands, last, i)
  {
    assert forall j :: 0 <= j <= i ==> cands[..n][j] == cands[j];
  }

  /** Without a loud failure, the default is the backend of a successful
      candidate whose priority no success exceeds and that no earlier success
      equals: the highest priority wins and on a tie the earliest does. */
  lemma {:induction false} PassDefault(f: map<string, Registration>, gpu: bool, configured: bool,
                                       errors: map<string, InitError>, cands: seq<Candidate>)
    requires forall i :: 0 <= i < |cands| ==> !FailsLoudly(f, gpu, cands[i])
    ensures RunPass(f, gpu, configured, StartPass(errors), cands).default.Some? ==>
              exists i :: DefaultChoice(f, gpu, cands, RunPass(f, gpu, configured, StartPass(errors), cands), i)
    decreases |cands|
  {
    if cands != [] {
      var n := |cands| - 1;
      assert forall i :: 0 <= i < n ==> cands[..n][i] == cands[i];
      PassDefault(f, gpu, configured, errors, cands[..n]);
      PassDefaultPriority(f, gpu, configured, errors, cands[..n]);
      PassBackends(f, gpu, configured, errors, cands[..n]);
      var st := RunPass(f, gpu, configured, StartPass(errors), cands[..n]);
      var c := cands[n];
      var last := RunPass(f, gpu, configured, StartPass(errors), cands);
      assert last == Step(f, gpu, configured, st, c);
      if Succeeds(f, gpu, c) && c.priority > st.defaultPriority {
        assert last.default == Some(InitBackend(f, c.platform).value) && last.defaultPriority == c.priority;
        assert DefaultChoice(f, gpu, cands, last, n);
      } else if st.default.Some? {
        var i :| DefaultChoice(f, gpu, cands[..n], st, i);
        DefaultChoiceExtends(f, gpu, cands, n, st, last, i);
      }
    }
  }

  /** The loop of `backends()` over the candidates: each is initialised in
      turn, a quiet failure is recorded, a loud one ends the loop. */
  method RunCandidates(f: map<string, Registration>, gpu: bool, configured: bool,
                       errors0: map<string, InitError>, cands: seq<Candidate>)
    returns (st: PassState)
    ensures st == RunPass(f, gpu, configured, StartPass(errors0), cands)
  {
    var cache: map<string, Backend> := map[];
    var errors := errors0;
    var default: Option<Backend> := None;
    var defaultPriority := NoPriority;
    for i := 0 to |cands|
      invariant PassState(cache, errors, default, defaultPriority, None) ==
                RunPass(f, gpu, configured, StartPass(errors0), cands[..i])
    {
      assert cands[..i + 1][..i] == cands[..i];
      var c := cands[i];
      if c.platform == "cuda" && !gpu {
        continue;
      }
      match InitBackend(f, c.platform) {
        case Ok(b) =>
          cache := cache[c.platform := b];
          if c.priority > defaultPriority {
            default := Some(b);
            defaultPriority := c.priority;
          }
        case Err(e) =>
          if c.failQuietly {
            errors := errors[c.platform := e];
          } else {
            PassStopsAtFailure(f, gpu, configured, StartPass(errors0), cands, i + 1);
            return PassState(cache, errors, default, defaultPriority, Some(InitFailed(c.platform, e, configured)));
          }
      }
    }
    assert cands[..|cands|] == cands;
    return PassState(cache, errors, default, defaultPriority, None);
  }

  /** Every backend the pass caches is what its factory builds. */
  lemma {:induction false} PassCacheBuilt(f: map<string, Registration>, gpu: bool, configured: bool,
                                          errors: map<string, InitError>, cands: seq<Candidate>)
    ensures forall p :: p in RunPass(f, gpu, configured, StartPass(errors), cands).backends ==>
              InitBackend(f, p) == Ok(RunPass(f, gpu, configured, StartPass(errors), cands).backends[p])
    decreases |cands|
  {
    if cands != [] {
      var n := |cands| - 1;
      PassCacheBuilt(f, gpu, configured, errors, cands[..n]);
    }
  }

  /** Every backend the pass caches is what its factory builds, and the
      default it picks is one of them. */
  lemma {:induction false} PassCacheConsistent(f: map<string, Registration>, gpu: bool, configured: bool,
                                               errors: map<string, InitError>, cands: seq<Candidate>)
    ensures forall p :: p in RunPass(f, gpu, configured, StartPass(errors), cands).backends ==>
              InitBackend(f, p) == Ok(RunPass(f, gpu, configured, StartPass(errors), cands).backends[p])
    ensures RunPass(f, gpu, configured, StartPass(errors), cands).default.Some? ==>
              RunPass(f, gpu, configured, StartPass(errors), cands).default.value in
                RunPass(f, gpu, configured, StartPass(errors), cands).backends.Values
    decreases |cands|
  {
    PassCacheBuilt(f, gpu, configured, errors, cands);
    if cands != [] {
      var n := |cands| - 1;
      PassCacheConsistent(f, gpu, configured, errors, cands[..n]);
      var st := RunPass(f, gpu, configured, StartPass(errors), cands[..n]);
      var c := cands[n];
      var last := RunPass(f, gpu, configured, StartPass(errors), cands);
      assert last == Step(f, gpu, configured, st, c);
      if st.failure.None? && !Skipped(c, gpu) && InitBackend(f, c.platform).Ok? {
        var b := InitBackend(f, c.platform).value;
        assert last.backends == st.backends[c.platform := b];
        assert last.backends[c.platform] == b;
        if st.default.Some? && c.priority <= st.defaultPriority {
          var q :| q in st.backends && st.backends[q] == st.default.value;
          if q == c.platform {
            assert st.backends[q] == b;
          } else {
            assert last.backends[q] == st.default.value;
          }
        }
      }
    }
  }

  /** Once the pass has failed, the remaining candidates change nothing. */
  lemma {:induction false} PassStopsAtFailure(f: map<string, Registration>, gpu: bool, configured: bool,
                                              st: PassState, cands: seq<Candidate>, k: nat)
    requires k <= |cands| && RunPass(f, gpu, configured, st, cands[..k]).failure.Some?
    ensures RunPass(f, gpu, configured, st, cands) == RunPass(f, gpu, configured, st, cands[..k])
    decreases |cands| - k
  {
    if k < |cands| {
      assert cands[..k + 1][..k] == cands[..k];
      PassStopsAtFailure(f, gpu, configured, st, cands, k + 1);
    } else {
      assert cands[..k] == cands;
    }
  }

  /** A loud failure ends the pass with an error naming that platform; what
      the earlier candidates put in the cache stays there. */
  lemma PassFirstLoudFailure(f: map<string, Registration>, gpu: bool, configured: bool,
                             errors: map<string, InitError>, cands: seq<Candidate>, k: nat)
    requires k < |cands| && FailsLoudly(f, gpu, cands[k])
    requires forall j :: 0 <= j < k ==> !FailsLoudly(f, gpu, cands[j])
    ensures RunPass(f, gpu, configured, StartPass(errors), cands) ==
              RunPass(f, gpu, configured, StartPass(errors), cands[..k]).(failure :=
                Some(InitFailed(cands[k].platform, InitBackend(f, cands[k].platform).error, configured)))
  {
    assert forall j :: 0 <= j < k ==> cands[..k][j] == cands[j];
    PassBackends(f, gpu, configured, errors, cands[..k]);
    assert cands[..k + 1][..k] == cands[..k];
    PassStopsAtFailure(f, gpu, configured, StartPass(errors), cands, k + 1);
  }

  /** A successful candidate whose priority is strictly above every other
      success is the default. */
  lemma UniqueHighestIsDefault(f: map<string, Registration>, gpu: bool, configured: bool,
                               errors: map<string, InitError>, cands: seq<Candidate>, k: nat)
    requires forall i :: 0 <= i < |cands| ==> !FailsLoudly(f, gpu, cands[i])
    requires k < |cands| && Succeeds(f, gpu, cands[k]) && cands[k].priority > NoPriority
    requires forall j :: 0 <= j < |cands| && j != k && Succeeds(f, gpu, cands[j]) ==> cands[j].priority < cands[k].priority
    ensures RunPass(f, gpu, configured, StartPass(errors), cands).default == Some(InitBackend(f, cands[k].platform).value)
  {
    PassDefault(f, gpu, configured, errors, cands);
    PassDefaultPriority(f, gpu, configured, errors, cands);
    var st := RunPass(f, gpu, configured, StartPass(errors), cands);
    assert st.default.Some?;
    var i :| DefaultChoice(f, gpu, cands, st, i);
    assert i == k;
  }

  /** With an explicit list, every platform fails loudly and priorities fall
      strictly from the first position to the last, so a pass without error
      picks the first candidate that was not skipped. */
  lemma ExplicitDefaultIsFirstTried(f: map<string, Registration>, gpu: bool,
                                    errors: map<string, InitError>, platforms: seq<string>, k: nat)
    requires var cands := ExplicitCandidates(platforms);
             RunPass(f, gpu, true, StartPass(errors), cands).failure.None?
    requires k < |platforms| && !Skipped(ExplicitCandidates(platforms)[k], gpu)
    requires forall j :: 0 <= j < k ==> Skipped(ExplicitCandidates(platforms)[j], gpu)
    ensures InitBackend(f, platforms[k]).Ok?
    ensures RunPass(f, gpu, true, StartPass(errors), ExplicitCandidates(platforms)).default ==
              Some(InitBackend(f, platforms[k]).value)
  {
    var cands := ExplicitCandidates(platforms);
    NoLoudFailureInFinishedPass(f, gpu, true, errors, cands);
    assert Succeeds(f, gpu, cands[k]);
    UniqueHighestIsDefault(f, gpu, true, errors, cands, k);
  }

  /** A pass that finished without error met no loud failure. */
  lemma NoLoudFailureInFinishedPass(f: map<string, Registration>, gpu: bool, configured: bool,
                                    errors: map<string, InitError>, cands: seq<Candidate>)
    requires RunPass(f, gpu, configured, StartPass(errors), cands).failure.None?
    ensures forall i :: 0 <= i < |cands| ==> !FailsLoudly(f, gpu, cands[i])
  {
    forall i | 0 <= i < |cands| ensures !FailsLoudly(f, gpu, cands[i]) {
      FailureSticks(f, gpu, configured, errors, cands, i);
    }
  }

  /** If candidate `i` fails loudly, the pass ends with a failure. */
  lemma {:induction false} FailureSticks(f: map<string, Registration>, gpu: bool, configured: bool,
                                         errors: map<string, InitError>, cands: seq<Candidate>, i: nat)
    requires i < |cands|
    ensures FailsLoudly(f, gpu, cands[i]) ==> RunPass(f, gpu, configured, StartPass(errors), cands).failure.Some?
    decreases |cands|
  {
    var n := |cands| - 1;
    if i < n {
      assert cands[..n][i] == cands[i];
      FailureSticks(f, gpu, configured, errors, cands[..n], i);
    }
  }

  /** An explicit list whose first entry is an unregistered, non-alias name
      other than "cuda" fails loudly on it and never falls back to the rest. */
  lemma ExplicitUnregisteredFailsLoudly(f: map<string, Registration>, gpu: bool,
                                        errors: map<string, InitError>, x: string, y: string)
    requires x !in f && x != "cuda" && !IsAlias(x) && ',' !in x
    ensures var cands := ExplicitCandidates(ConfiguredPlatforms(x + "," + y));
            RunPass(f, gpu, true, StartPass(errors), cands).failure == Some(InitFailed(x, NotRegistered(x), true))
            && RunPass(f, gpu, true, StartPass(errors), cands).backends == map[]
  {
    Text.SplitAfterPiece(x, ',', y);
    assert x + "," + y == x + [','] + y;
    ExpandAliasMeaning(x);
    var cands := ExplicitCandidates(ConfiguredPlatforms(x + "," + y));
    assert cands[0].platform == x;
    PassFirstLoudFailure(f, gpu, true, errors, cands, 0);
    assert cands[..0] == [];
  }

  // ---------------------------------------------------------------------
  // get_backend
  // ---------------------------------------------------------------------

  /** The argument of `get_backend`: nothing, a platform name or a client. */
  datatype BackendRequest = Unspecified | Named(name: string) | Instance(backend: Backend)

  /** `platform or _XLA_BACKEND.value or _PLATFORM_NAME.value or None`. */
  function RequestedName(request: BackendRequest, xlaBackend: string, platformName: string): Option<string>
  {
    if request.Named? && request.name != "" then Some(request.name)
    else if xlaBackend != "" then Some(xlaBackend)
    else if platformName != "" then Some(platformName)
    else None
  }

  /** The lookup of `_get_backend_uncached` once the cache is populated. */
  function Resolve(name: Option<string>, bs: map<string, Backend>, errors: map<string, InitError>,
                   default: Option<Backend>): (r: Result<Backend, BridgeError>)
    ensures name.None? ==> (r.Ok? <==> default.Some?) && (r.Ok? ==> r.value == default.value)
    ensures name.Some? ==>
              match Canonicalize(name.value, bs.Keys)
              case Err(_) => r == Err(BridgeError.NoPlatformForAlias(name.value, bs.Keys))
              case Ok(p) =>
                && (r.Ok? <==> p in bs)
                && (r.Ok? ==> r.value == bs[p])
                && (p !in bs && p in errors ==> r == Err(FailedToInitialize(p, errors[p], bs.Keys)))
                && (p !in bs && p !in errors ==> r == Err(UnknownBackend(p, bs.Keys)))
  {
    match name
    case None => if default.Some? then Ok(default.value) else Err(NoDefaultBackend)
    case Some(n) =>
      match Canonicalize(n, bs.Keys)
      case Err(_) => Err(BridgeError.NoPlatformForAlias(n, bs.Keys))
      case Ok(p) =>
        if p in bs then Ok(bs[p])
        else if p in errors then Err(FailedToInitialize(p, errors[p], bs.Keys))
        else Err(UnknownBackend(p, bs.Keys))
  }

  // ---------------------------------------------------------------------
  // Process queries on a backend
  // ---------------------------------------------------------------------

  /** The largest process index among `devs`. */
  function MaxProcessIndex(devs: seq<Device>): (m: int)
    requires devs != []
    ensures forall i :: 0 <= i < |devs| ==> devs[i].processIndex <= m
    ensures exists i :: 0 <= i < |devs| && devs[i].processIndex == m
    decreases |devs|
  {
    if |devs| == 1 then devs[0].processIndex
    else
      var rest := MaxProcessIndex(devs[1..]);
      assert forall i :: 1 <= i < |devs| ==> devs[1..][i - 1] == devs[i];
      if devs[0].processIndex >= rest then devs[0].processIndex else rest
  }

  /** `process_count`: one more than the largest process index of the
      backend's devices; `max()` of no devices raises. */
  function ProcessCount(b: Backend): (r: Result<int, BridgeError>)
    ensures r.Err? <==> b.devices == []
    ensures r.Ok? ==> (forall d :: d in b.devices ==> d.processIndex < r.value) &&
                      (exists d :: d in b.devices && d.processIndex == r.value - 1)
  {
    if b.devices == [] then Err(NoDevicesToCount) else Ok(MaxProcessIndex(b.devices) + 1)
  }

  /** `process_indices`: `list(range(process_count))`. */
  function ProcessIndices(b: Backend): (r: Result<seq<int>, BridgeError>)
    ensures r.Err? <==> b.devices == []
    ensures r.Ok? ==> |r.value| == (if ProcessCount(b).value <= 0 then 0 else ProcessCount(b).value) &&
                      forall i :: 0 <= i < |r.value| ==> r.value[i] == i
  {
    match ProcessCount(b)
    case Err(e) => Err(e)
    case Ok(n) => Ok(if n <= 0 then [] else seq(n, i => i))
  }

  /** The devices of `devs` whose process index is `index`, in order. */
  function DevicesOf(devs: seq<Device>, index: int): (r: seq<Device>)
    ensures forall d :: d in r <==> d in devs && d.processIndex == index
    ensures |r| <= |devs|
    decreases |devs|
  {
    if devs == [] then []
    else (if devs[0].processIndex == index then [devs[0]] else []) + DevicesOf(devs[1..], index)
  }

  /** A single device is kept exactly when its process index matches. */
  lemma DevicesOfSingle(d: Device, index: int)
    ensures DevicesOf([d], index) == if d.processIndex == index then [d] else []
  {
    assert [d][1..] == [];
  }

  /** Selecting from two lists one after the other is selecting from their
      concatenation: the selection keeps the devices' order. */
  lemma {:induction false} DevicesOfAppend(a: seq<Device>, b: seq<Device>, index: int)
    ensures DevicesOf(a + b, index) == DevicesOf(a, index) + DevicesOf(b, index)
    decreases |a|
  {
    if a == [] {
      assert a + b == b;
    } else {
      assert (a + b)[1..] == a[1..] + b;
      DevicesOfAppend(a[1..], b, index);
    }
  }

  /** `local_devices(process_index, backend, host_id)` on the resolved
      backend: `host_id`, if given, replaces the process index; no index
      means the backend's own; an index outside [0, process_count) raises.
      The chained comparison short-circuits, so a negative index raises
      before `process_count` is asked. */
  function LocalDevices(b: Backend, processIndex: Option<int>, hostId: Option<int>): (r: Result<seq<Device>, BridgeError>)
    ensures var index := if hostId.Some? then hostId.value else if processIndex.Some? then processIndex.value else b.processIndex;
            && (index < 0 ==> r == Err(UnknownProcessIndex(index)))
            && (index >= 0 && b.devices == [] ==> r == Err(NoDevicesToCount))
            && (r.Ok? <==> ProcessCount(b).Ok? && 0 <= index < ProcessCount(b).value)
            && (ProcessCount(b).Ok? && !(0 <= index < ProcessCount(b).value) ==> r == Err(UnknownProcessIndex(index)))
            && (r.Ok? ==> forall d :: d in r.value <==> d in b.devices && d.processIndex == index)
            && (r.Ok? ==> r.value == DevicesOf(b.devices, index))
  {
    var index := if hostId.Some? then hostId.value else if processIndex.Some? then processIndex.value else b.processIndex;
    if index < 0 then Err(UnknownProcessIndex(index))
    else match ProcessCount(b)
      case Err(e) => Err(e)
      case Ok(n) => if index < n then Ok(DevicesOf(b.devices, index)) else Err(UnknownProcessIndex(index))
  }

  /** Every device is local to exactly one of the process indices. */
  lemma LocalDevicesCover(b: Backend, d: Device)
    requires d in b.devices && d.processIndex >= 0
    ensures LocalDevices(b, Some(d.processIndex), None).Ok?
    ensures d in LocalDevices(b, Some(d.processIndex), None).value
    ensures forall k :: k != d.processIndex && LocalDevices(b, Some(k), None).Ok? ==> d !in LocalDevices(b, Some(k), None).value
  {
  }

  // ---------------------------------------------------------------------
  // The registry state
  // ---------------------------------------------------------------------

  /** The table is well formed; every cached backend is what its registered
      factory builds; the default, if any, is cached; nothing is cached
      before plugin discovery has run. */
  ghost predicate Consistent(t: Table, backends: map<string, Backend>, defaultBackend: Option<Backend>, pluginsRegistered: bool)
  {
    && t.Valid()
    && (forall p :: p in backends ==> InitBackend(t.factories, p) == Ok(backends[p]))
    && (defaultBackend.Some? ==> defaultBackend.value in backends.Values)
    && (!pluginsRegistered ==> backends == map[])
  }

  /** Registering a name that has no cached backend keeps the state
      consistent. */
  lemma RegisterKeepsConsistent(t: Table, backends: map<string, Backend>, defaultBackend: Option<Backend>,
                                pluginsRegistered: bool, r: NamedRegistration)
    requires Consistent(t, backends, defaultBackend, pluginsRegistered) && r.name !in backends
    ensures Consistent(t.Register(r), backends, defaultBackend, pluginsRegistered)
  {
    RegisterKeepsOrder(t, r);
    RegisterKeepsCache(t.factories, backends, r);
  }

  /** The state a pass over the candidates of a well-formed table leaves
      behind is consistent. */
  lemma PassKeepsConsistent(t: Table, jaxPlatforms: string, hasNvidiaGpu: bool, errors: map<string, InitError>)
    requires t.Valid()
    ensures var st := RunPass(t.factories, hasNvidiaGpu, jaxPlatforms != "", StartPass(errors), Candidates(jaxPlatforms, t));
            Consistent(t, st.backends, st.default, true)
  {
    PassCacheConsistent(t.factories, hasNvidiaGpu, jaxPlatforms != "", errors, Candidates(jaxPlatforms, t));
  }

  /** The message discovery raises with, when `calls` callback calls are
      due: none if it does not fail or fails at a call that is never made. */
  function RaisedMessage(failure: Option<DiscoveryFailure>, calls: nat): Option<string>
  {
    match failure
    case None => None
    case Some(RegistrationRaised(m)) => Some(m)
    case Some(CallbackRaised(k, m)) => if k < calls then Some(m) else None
  }

  /** How many of the `calls` due callback calls discovery makes: none when
      a registration raises, up to and including the one that raises. */
  function CallsMade(failure: Option<DiscoveryFailure>, calls: nat): (n: nat)
    ensures n <= calls
    ensures RaisedMessage(failure, calls).None? ==> n == calls
  {
    match failure
    case None => calls
    case Some(RegistrationRaised(_)) => 0
    case Some(CallbackRaised(k, _)) => if k < calls then k + 1 else calls
  }

  /** A callback that raises at call `k` of its firing order, as a failure
      `RaisedMessage` and `CallsMade` read. */
  function CallbackFailure(raises: Option<(nat, string)>): (f: Option<DiscoveryFailure>)
    ensures raises.None? <==> f.None?
    ensures raises.Some? ==> f == Some(CallbackRaised(raises.value.0, raises.value.1))
  {
    match raises
    case None => None
    case Some((k, m)) => Some(CallbackRaised(k, m))
  }

  /** A callback that raises at call `k` of `n` due calls makes the first
      `k + 1` of them and raises its message; one that raises at no due call
      makes them all. */
  lemma CallbackFailureCalls(k: nat, m: string, n: nat)
    ensures k < n ==> CallsMade(CallbackFailure(Some((k, m))), n) == k + 1 &&
                      RaisedMessage(CallbackFailure(Some((k, m))), n) == Some(m)
    ensures n <= k ==> CallsMade(CallbackFailure(Some((k, m))), n) == n &&
                       RaisedMessage(CallbackFailure(Some((k, m))), n).None?
  {
  }

  /** The module-level state of the bridge, in one object. */
  class Registry {
    var order: seq<string>                          // iteration order of `_backend_factories`
    var factories: map<string, Registration>        // `_backend_factories`
    var topologyFactories: map<string, Topology>    // `_topology_factories`
    var backends: map<string, Backend>              // `_backends`
    var backendErrors: map<string, InitError>       // `_backend_errors`
    var defaultBackend: Option<Backend>             // `_default_backend`
    var pluginsRegistered: bool                     // `_plugins_registered`
    var pluginCallbacks: seq<Callback>              // `_plugin_callbacks`
    var invocations: seq<Invocation>                // the callback calls made so far

    function RegistrationTable(): Table
      reads this
    {
      Table(order, factories, topologyFactories)
    }

    /** The registry's state is consistent. */
    ghost predicate Valid()
      reads this
    {
      Consistent(RegistrationTable(), backends, defaultBackend, pluginsRegistered)
    }

    /** The state at import: "cpu" (priority 0, fails loudly) and "tpu"
        (priority 300, fails quietly) are registered. */
    constructor (cpuFactory: FactoryOutcome, tpuFactory: FactoryOutcome)
      ensures Valid()
      ensures order == ["cpu", "tpu"]
      ensures factories == map["cpu" := Registration(cpuFactory, 0, false, false, None),
                               "tpu" := Registration(tpuFactory, 300, true, false, None)]
      ensures topologyFactories == map[] && backends == map[] && backendErrors == map[]
      ensures defaultBackend == None && !pluginsRegistered && pluginCallbacks == [] && invocations == []
    {
      order := ["cpu", "tpu"];
      factories := map["cpu" := Registration(cpuFactory, 0, false, false, None),
                       "tpu" := Registration(tpuFactory, 300, true, false, None)];
      topologyFactories := map[];
      backends := map[];
      backendErrors := map[];
      defaultBackend := None;
      pluginsRegistered := false;
      pluginCallbacks := [];
      invocations := [];
    }

    /** `known_platforms()`. */
    function KnownPlatforms(): set<string>
      reads this
    {
      Platforms.KnownPlatforms(factories.Keys)
    }

    /** `register_backend_factory`: refused for a name that already has a
        live backend; otherwise the table is updated and nothing else. */
    method RegisterBackendFactory(name: string, factory: FactoryOutcome, priority: int, failQuietly: bool,
                                  experimental: bool, makeTopology: Option<Topology>, cApi: Option<CApi>)
      returns (r: Result<(), BridgeError>)
      requires Valid()
      modifies this
      ensures Valid()
      ensures old(name in backends) ==> r == Err(AlreadyInitialized(name)) && RegistrationTable() == old(RegistrationTable())
      ensures old(name !in backends) ==>
                r == Ok(()) &&
                RegistrationTable() == old(RegistrationTable()).Register(NamedRegistration(name, Registration(factory, priority, failQuietly, experimental, cApi), makeTopology))
      ensures backends == old(backends) && backendErrors == old(backendErrors) && defaultBackend == old(defaultBackend)
      ensures pluginsRegistered == old(pluginsRegistered) && pluginCallbacks == old(pluginCallbacks)
      ensures invocations == old(invocations)
    {
      if name in backends {
        return Err(AlreadyInitialized(name));
      }
      var entry := NamedRegistration(name, Registration(factory, priority, failQuietly, experimental, cApi), makeTopology);
      var t := RegistrationTable().Register(entry);
      RegisterKeepsConsistent(RegistrationTable(), backends, defaultBackend, pluginsRegistered, entry);
      order, factories, topologyFactories := t.order, t.factories, t.topologies;
      assert RegistrationTable() == t;
      return Ok(());
    }

    /** `register_plugin`, with the plugin loading replaced by its result:
        `loaded` is the handle `load_pjrt_plugin_dynamically` returns and
        `defaultFactory` what the default C API client factory builds.
        Supplying both or neither of a (non-empty) library path and a handle
        registers nothing; a factory together with options raises; otherwise
        the plugin is registered to fail loudly, as experimental unless it is
        "cuda" or "rocm", with a topology factory over its handle. */
    method RegisterPlugin(pluginName: string, priority: int, libraryPath: Option<string>,
                          options: Option<map<string, PluginConfig.OptionValue>>, cApi: Option<CApi>,
                          factory: Option<FactoryOutcome>, loaded: CApi, defaultFactory: FactoryOutcome)
      returns (r: Result<Option<CApi>, BridgeError>)
      requires Valid()
      modifies this
      ensures Valid()
      ensures var hasPath := libraryPath.Some? && libraryPath.value != "";
              var api := if libraryPath.Some? then loaded else if cApi.Some? then cApi.value else loaded;
              var reg := Registration(if factory.Some? then factory.value else defaultFactory,
                                      priority, false, pluginName !in NonExperimentalPlugins, Some(api));
              if hasPath == cApi.Some? then r == Ok(None) && RegistrationTable() == old(RegistrationTable())
              else if factory.Some? && options.Some? then r == Err(FactoryWithOptions(pluginName)) && RegistrationTable() == old(RegistrationTable())
              else if pluginName in old(backends) then r == Err(AlreadyInitialized(pluginName)) && RegistrationTable() == old(RegistrationTable())
              else r == Ok(Some(api)) &&
                   RegistrationTable() == old(RegistrationTable()).Register(NamedRegistration(pluginName, reg, Some(CApiTopology(api))))
      ensures backends == old(backends) && backendErrors == old(backendErrors) && defaultBackend == old(defaultBackend)
      ensures pluginsRegistered == old(pluginsRegistered) && pluginCallbacks == old(pluginCallbacks)
      ensures invocations == old(invocations)
    {
      var hasPath := libraryPath.Some? && libraryPath.value != "";
      if hasPath && cApi.Some? {
        return Ok(None);
      }
      if !hasPath && cApi.None? {
        return Ok(None);
      }
      if factory.Some? && options.Some? {
        return Err(FactoryWithOptions(pluginName));
      }
      var f := if factory.Some? then factory.value else defaultFactory;
      var api: CApi;
      if libraryPath.Some? {
        api := loaded;
      } else {
        api := cApi.value;
      }
      var experimental := pluginName !in NonExperimentalPlugins;
      var registered := RegisterBackendFactory(pluginName, f, priority, false, experimental, Some(CApiTopology(api)), Some(api));
      if registered.Err? {
        return Err(registered.error);
      }
      return Ok(Some(api));
    }

    /** `register_plugin_callbacks`: after discovery the callback is called at
        once with every registered handle, in iteration order, until the call
        at position `raises.value.0`, if there is one, raises `raises.value.1`;
        before discovery, the callback is queued and not called. */
    method RegisterPluginCallbacks(cb: Callback, raises: Option<(nat, string)>) returns (r: Result<(), BridgeError>)
      requires Valid()
      modifies this
      ensures Valid()
      ensures old(pluginsRegistered) ==>
                var fired := Firings(CApisOf(order, factories), [cb]);
                var failure := CallbackFailure(raises);
                var raised := RaisedMessage(failure, |fired|);
                && invocations == old(invocations) + fired[..CallsMade(failure, |fired|)]
                && pluginCallbacks == old(pluginCallbacks)
                && r == (if raised.None? then Ok(()) else Err(CallbackFailed(raised.value)))
      ensures !old(pluginsRegistered) ==>
                invocations == old(invocations) && pluginCallbacks == old(pluginCallbacks) + [cb] && r == Ok(())
      ensures RegistrationTable() == old(RegistrationTable()) && backends == old(backends) && backendErrors == old(backendErrors)
      ensures defaultBackend == old(defaultBackend) && pluginsRegistered == old(pluginsRegistered)
    {
      r := Ok(());
      if pluginsRegistered {
        var fired := FireCallbacks(order, factories, [cb]);
        var failure := CallbackFailure(raises);
        var raised := RaisedMessage(failure, |fired|);
        invocations := invocations + fired[..CallsMade(failure, |fired|)];
        if raised.Some? {
          r := Err(CallbackFailed(raised.value));
        }
      } else {
        pluginCallbacks := pluginCallbacks + [cb];
      }
    }

    /** The registrations the discovered plugins make, applied in order
        before the discovery gate closes. */
    method RegisterDiscovered(discovered: seq<NamedRegistration>)
      requires Valid() && !pluginsRegistered
      modifies this
      ensures Valid() && !pluginsRegistered
      ensures RegistrationTable() == old(RegistrationTable()).RegisterAll(discovered)
      ensures backends == old(backends) && backendErrors == old(backendErrors) && defaultBackend == old(defaultBackend)
      ensures pluginCallbacks == old(pluginCallbacks) && invocations == old(invocations)
    {
      for i := 0 to |discovered|
        invariant Valid() && !pluginsRegistered && backends == map[]
        invariant RegistrationTable() == old(RegistrationTable()).RegisterAll(discovered[..i])
        invariant backendErrors == old(backendErrors) && defaultBackend == old(defaultBackend)
        invariant pluginCallbacks == old(pluginCallbacks) && invocations == old(invocations)
      {
        assert discovered[..i + 1][..i] == discovered[..i];
        var d := discovered[i];
        var _ := RegisterBackendFactory(d.name, d.registration.factory, d.registration.priority,
                                        d.registration.failQuietly, d.registration.experimental,
                                        d.topology, d.registration.cApi);
      }
      assert discovered[..|discovered|] == discovered;
    }

    /** `_discover_and_register_pjrt_plugins`: the first call applies the
        registrations the discovered plugins make, calls every queued callback
        with every registered handle, and closes the gate; later calls do
        nothing. If discovery raises, the registrations and calls made so far
        stay, the error propagates and the gate stays open. */
    method DiscoverAndRegisterPlugins(discovery: Discovery) returns (r: Result<(), BridgeError>)
      requires Valid()
      modifies this
      ensures Valid()
      ensures old(pluginsRegistered) ==>
                r == Ok(()) && pluginsRegistered &&
                RegistrationTable() == old(RegistrationTable()) && invocations == old(invocations)
      ensures !old(pluginsRegistered) ==>
                var fired := Firings(CApisOf(order, factories), pluginCallbacks);
                var raised := RaisedMessage(discovery.failure, |fired|);
                && RegistrationTable() == old(RegistrationTable()).RegisterAll(discovery.registrations)
                && invocations == old(invocations) + fired[..CallsMade(discovery.failure, |fired|)]
                && pluginsRegistered == raised.None?
                && r == (if raised.None? then Ok(()) else Err(DiscoveryFailed(raised.value)))
      ensures backends == old(backends) && backendErrors == old(backendErrors) && defaultBackend == old(defaultBackend)
      ensures pluginCallbacks == old(pluginCallbacks)
    {
      if pluginsRegistered {
        return Ok(());
      }
      RegisterDiscovered(discovery.registrations);
      r := FireQueuedCallbacks(discovery.failure);
    }

    /** The end of a first discovery, once the registrations are made: a
        raising registration skips the callbacks; otherwise the queued
        callbacks are called until one raises, and only a discovery that
        raises nothing closes the gate. */
    method FireQueuedCallbacks(failure: Option<DiscoveryFailure>) returns (r: Result<(), BridgeError>)
      requires Valid() && !pluginsRegistered
      modifies this
      ensures Valid()
      ensures var fired := Firings(CApisOf(order, factories), pluginCallbacks);
              var raised := RaisedMessage(failure, |fired|);
              && invocations == old(invocations) + fired[..CallsMade(failure, |fired|)]
              && pluginsRegistered == raised.None?
              && r == (if raised.None? then Ok(()) else Err(DiscoveryFailed(raised.value)))
      ensures RegistrationTable() == old(RegistrationTable())
      ensures backends == old(backends) && backendErrors == old(backendErrors) && defaultBackend == old(defaultBackend)
      ensures pluginCallbacks == old(pluginCallbacks)
    {
      assert backends == map[] && defaultBackend == None;
      var fired: seq<Invocation> := [];
      if !(failure.Some? && failure.value.RegistrationRaised?) {
        fired := FireCallbacks(order, factories, pluginCallbacks);
      }
      var raised := RaisedMessage(failure, |fired|);
      invocations := invocations + fired[..CallsMade(failure, |fired|)];
      pluginsRegistered := raised.None?;
      r := if raised.None? then Ok(()) else Err(DiscoveryFailed(raised.value));
    }

    /** The pass `backends()` runs on an empty cache, from the current table. */
    function PassFrom(jaxPlatforms: string, hasNvidiaGpu: bool, errors: map<string, InitError>): PassState
      reads this
      requires RegistrationTable().Valid()
    {
      RunPass(factories, hasNvidiaGpu, jaxPlatforms != "", StartPass(errors), Candidates(jaxPlatforms, RegistrationTable()))
    }

    /** The cache part of `backends()`: a non-empty cache is returned as it
        is; otherwise the candidates are initialised in order, quiet failures
        are recorded and skipped, a loud failure ends the call with an error
        (keeping what was cached before it), and the default is the first
        success of strictly highest priority. */
    method InitializeBackends(jaxPlatforms: string, hasNvidiaGpu: bool)
      returns (r: Result<map<string, Backend>, BridgeError>)
      requires Valid() && pluginsRegistered
      modifies this
      ensures Valid()
      ensures old(backends) != map[] ==>
                r == Ok(old(backends)) && backends == old(backends) &&
                backendErrors == old(backendErrors) && defaultBackend == old(defaultBackend)
      ensures old(backends) == map[] ==>
                var st := PassFrom(jaxPlatforms, hasNvidiaGpu, old(backendErrors));
                backends == st.backends && backendErrors == st.errors && defaultBackend == st.default &&
                r == PassOutcome(st)
      ensures r.Ok? ==> r.value == backends && backends != map[]
      ensures RegistrationTable() == old(RegistrationTable()) && pluginsRegistered == old(pluginsRegistered)
      ensures pluginCallbacks == old(pluginCallbacks) && invocations == old(invocations)
    {
      if backends != map[] {
        return Ok(backends);
      }
      var table := RegistrationTable();
      var st := RunCandidates(factories, hasNvidiaGpu, jaxPlatforms != "", backendErrors,
                              Candidates(jaxPlatforms, table));
      assert st == PassFrom(jaxPlatforms, hasNvidiaGpu, backendErrors);
      PassKeepsConsistent(table, jaxPlatforms, hasNvidiaGpu, backendErrors);
      backends, backendErrors, defaultBackend := st.backends, st.errors, st.default;
      assert RegistrationTable() == table;
      if st.failure.Some? {
        return Err(st.failure.value);
      }
      if st.default.None? {
        return Err(NoDefaultBackend);
      }
      return Ok(st.backends);
    }

    /** `backends()`: plugin discovery (until it has completed once), then
        the cache; an error raised by discovery leaves the cache alone. */
    method GetBackends(jaxPlatforms: string, hasNvidiaGpu: bool, discovery: Discovery)
      returns (r: Result<map<string, Backend>, BridgeError>)
      requires Valid()
      modifies this
      ensures Valid()
      ensures RegistrationTable() == if old(pluginsRegistered) then old(RegistrationTable())
                                     else old(RegistrationTable()).RegisterAll(discovery.registrations)
      ensures old(pluginsRegistered) || discovery.failure.None? ==> pluginsRegistered
      ensures !old(pluginsRegistered) && discovery.failure.Some? && discovery.failure.value.RegistrationRaised? ==>
                !pluginsRegistered
      ensures !pluginsRegistered ==>
                discovery.failure.Some? && r == Err(DiscoveryFailed(discovery.failure.value.message)) &&
                backends == old(backends) && backendErrors == old(backendErrors) && defaultBackend == old(defaultBackend)
      ensures old(backends) != map[] ==>
                r == Ok(old(backends)) && backends == old(backends) &&
                backendErrors == old(backendErrors) && defaultBackend == old(defaultBackend)
      ensures pluginsRegistered && old(backends) == map[] ==>
                var st := PassFrom(jaxPlatforms, hasNvidiaGpu, old(backendErrors));
                backends == st.backends && backendErrors == st.errors && defaultBackend == st.default &&
                r == PassOutcome(st)
      ensures r.Ok? ==> r.value == backends && backends != map[]
      ensures pluginCallbacks == old(pluginCallbacks)
    {
      var discovered := DiscoverAndRegisterPlugins(discovery);
      if discovered.Err? {
        return Err(discovered.error);
      }
      r := InitializeBackends(jaxPlatforms, hasNvidiaGpu);
    }

    /** `_clear_backends`: drops the cache, the recorded errors and the
        default; registrations and the discovery flag stay. */
    method ClearBackends()
      requires Valid()
      modifies this
      ensures Valid()
      ensures backends == map[] && backendErrors == map[] && defaultBackend == None
      ensures RegistrationTable() == old(RegistrationTable()) && pluginsRegistered == old(pluginsRegistered)
      ensures pluginCallbacks == old(pluginCallbacks) && invocations == old(invocations)
    {
      backends := map[];
      backendErrors := map[];
      defaultBackend := None;
    }

    /** `canonicalize_platform`: a name that is not an alias is returned
        without touching the cache; an alias resolves against `backends()`. */
    method CanonicalizePlatform(platform: string, jaxPlatforms: string, hasNvidiaGpu: bool,
                                discovery: Discovery)
      returns (r: Result<string, BridgeError>)
      requires Valid()
      modifies this
      ensures Valid()
      ensures !IsAlias(platform) ==> r == Ok(platform) && unchanged(this)
      ensures IsAlias(platform) && old(backends) != map[] ==>
                backends == old(backends) && backendErrors == old(backendErrors) && defaultBackend == old(defaultBackend) &&
                r == (match Canonicalize(platform, old(backends).Keys)
                      case Ok(p) => Ok(p)
                      case Err(_) => Err(BridgeError.NoPlatformForAlias(platform, old(backends).Keys)))
      ensures IsAlias(platform) && !pluginsRegistered ==>
                discovery.failure.Some? && r == Err(DiscoveryFailed(discovery.failure.value.message))
      ensures old(pluginsRegistered) ==> RegistrationTable() == old(RegistrationTable())
      ensures pluginCallbacks == old(pluginCallbacks)
    {
      if !IsAlias(platform) {
        return Ok(platform);
      }
      var bs := GetBackends(jaxPlatforms, hasNvidiaGpu, discovery);
      if bs.Err? {
        return Err(bs.error);
      }
      match Canonicalize(platform, bs.value.Keys) {
        case Ok(p) => return Ok(p);
        case Err(_) => return Err(BridgeError.NoPlatformForAlias(platform, bs.value.Keys));
      }
    }

    /** `_get_backend_uncached`: a client passes through untouched; otherwise
        the requested name (or the deprecated flags) is canonicalised and
        looked up in the cache, a missing platform reporting its recorded
        error if it has one; no name means the default backend. */
    method GetBackendUncached(request: BackendRequest, xlaBackend: string, platformName: string,
                              jaxPlatforms: string, hasNvidiaGpu: bool, discovery: Discovery)
      returns (r: Result<Backend, BridgeError>)
      requires Valid()
      modifies this
      ensures Valid()
      ensures request.Instance? ==> r == Ok(request.backend) && unchanged(this)
      ensures !request.Instance? && old(backends) != map[] ==>
                backends == old(backends) && backendErrors == old(backendErrors) && defaultBackend == old(defaultBackend) &&
                r == Resolve(RequestedName(request, xlaBackend, platformName), old(backends), old(backendErrors), old(defaultBackend))
      ensures !request.Instance? && !pluginsRegistered ==>
                discovery.failure.Some? && r == Err(DiscoveryFailed(discovery.failure.value.message))
      ensures !request.Instance? && r.Ok? ==>
                r == Resolve(RequestedName(request, xlaBackend, platformName), backends, backendErrors, defaultBackend)
      ensures pluginCallbacks == old(pluginCallbacks)
    {
      if request.Instance? {
        return Ok(request.backend);
      }
      var name := RequestedName(request, xlaBackend, platformName);
      var bs := GetBackends(jaxPlatforms, hasNvidiaGpu, discovery);
      if bs.Err? {
        return Err(bs.error);
      }
      if name.Some? {
        var p := CanonicalizePlatform(name.value, jaxPlatforms, hasNvidiaGpu, discovery);
        if p.Err? {
          return Err(p.error);
        }
        if p.value in bs.value {
          return Ok(bs.value[p.value]);
        }
        if p.value in backendErrors {
          return Err(FailedToInitialize(p.value, backendErrors[p.value], bs.value.Keys));
        }
        return Err(UnknownBackend(p.value, bs.value.Keys));
      }
      if defaultBackend.None? {
        return Err(NoDefaultBackend);
      }
      return Ok(defaultBackend.value);
    }
  }
}
