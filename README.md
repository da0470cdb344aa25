# JAX backend bridge and roofline accounting, in Dafny

This project models two parts of JAX and proves properties of them.

The first part is the backend bridge of `jax/_src/xla_bridge.py`:

- the registry of backend factories (`register_backend_factory`, `register_plugin`, `register_plugin_callbacks`);
- the once-only plugin discovery gate;
- the initialisation pass behind `backends()`, which tries every candidate platform, records quiet failures, aborts on loud ones and picks the default backend;
- `_init_backend`, `_clear_backends` and the lookup behind `get_backend`;
- the alias table (`gpu` covers `cuda` and `rocm`) with `expand_platform_alias`, `canonicalize_platform` and `known_platforms`;
- the small text formats the bridge reads: the plugin list, the client options, the device id lists and the mock GPU topology;
- the process queries `process_count`, `process_indices` and `local_devices`.

The second part is the roofline estimator of `jax/experimental/roofline/roofline.py`:

- the `RooflineShape` byte counts;
- the `RooflineResult` cost algebra (`zeros`, `+`, `*` by an integer);
- the rule table with `register_roofline` and `register_standard_roofline`;
- the interpreter loop that sums the rules' costs over a jaxpr and tracks the bytes live in HBM and their peak.

Modules:

- `Wrappers` (wrappers.dfy): `Option` and `Result`.
- `Text` (text.dfy): Python's `str.split`, `str.join` and `int()` on decimal text.
- `PluginConfig` (plugin_config.dfy): the plugin list, client options, device lists and topology parsers.
- `Platforms` (platforms.dfy): the alias table and the queries on it.
- `Backends` (backends.dfy): the values the registry holds, the initialisation pass as a function with its lemmas, the process queries, and the class `Registry`, which holds the module-level state of the bridge and whose methods update it.
- `Roofline` (roofline.dfy): shapes and the cost algebra.
- `RooflineInterp` (roofline_interp.dfy): the rule table (class `RuleTable`) and the interpreter.

Each loop of the source is a method with a loop, proved against a function that specifies it. The properties the source promises are then lemmas about that function. Factories, plugin loading and hardware probes are inputs: a factory is represented by what calling it produces, plugin discovery by the registrations it makes and the point where it raises, if it does, and the NVIDIA probe by a boolean.

## Model

| member | source | states |
|---|---|---|
| Text.Split | jax/_src/xla_bridge.py:389 | `str.split` on one character always gives at least one piece |
| Text.SplitPieces | jax/_src/xla_bridge.py:389 | there is one piece more than there are separators, and no piece contains the separator |
| Text.JoinSplit | jax/_src/xla_bridge.py:389 | joining the pieces with the separator gives back the original string |
| Text.SplitNoSeparator | jax/_src/xla_bridge.py:391 | a string without the separator splits into itself alone |
| Text.SplitAfterPiece | jax/_src/xla_bridge.py:498 | splitting `a + c + t`, where `a` has no `c`, gives `a` followed by the pieces of `t` |
| Text.SplitJoin | jax/_src/xla_bridge.py:389 | splitting a join of separator-free pieces gives back the same pieces |
| Text.SplitOnce | jax/_src/xla_bridge.py:359 | there is no cut exactly when the separator is absent; otherwise the text before and after the first separator reassemble the string |
| Text.ParseInt | jax/_src/xla_bridge.py:515 | `int(x)`: whitespace is stripped from both ends, and what remains must be an optional `+` or `-` followed by at least one decimal digit, giving that number; anything else is None, where Python raises ValueError |
| Text.TrimLeft | jax/_src/xla_bridge.py:515 | the result is a suffix of the input that starts without whitespace, and everything cut off is whitespace |
| Text.TrimRight | jax/_src/xla_bridge.py:515 | the result is a prefix of the input that ends without whitespace, and everything cut off is whitespace |
| Text.ParseShowInt | jax/_src/xla_bridge.py:515 | `int(str(n)) == n` for every integer |
| Text.TrimLeftSpaces | jax/_src/xla_bridge.py:515 | stripping on the left removes any leading run of whitespace |
| Text.TrimRightSpaces | jax/_src/xla_bridge.py:515 | stripping on the right removes any trailing run of whitespace |
| Text.TrimLeftAppend | jax/_src/xla_bridge.py:515 | stripping on the left keeps what follows the first non-whitespace character |
| Text.ParseIntIgnoresPadding | jax/_src/xla_bridge.py:515 | `int()` gives the same result with any whitespace before and after the text |
| PluginConfig.ParsePluginPaths | jax/_src/xla_bridge.py:385-399 | the loop builds the dictionary of the fold over the comma-separated entries; an empty setting gives an empty dictionary |
| PluginConfig.PluginPathsOfLookup | jax/_src/xla_bridge.py:388-398 | a name is in the dictionary exactly when some well-formed entry names it, and its path is the one of the last such entry; malformed entries are skipped |
| PluginConfig.NamePathOfEntry | jax/_src/xla_bridge.py:391 | `name<sep>path` with neither part holding the separator splits into exactly those two parts |
| PluginConfig.PluginPathsOf | jax/_src/xla_bridge.py:388-398 | the dictionary the loop builds from the entries in order: an entry that does not split into exactly a name and a path is skipped, and a later entry for a name overwrites an earlier one |
| PluginConfig.PluginPaths | jax/_src/xla_bridge.py:373-399 | an empty setting gives the empty dictionary; otherwise the entries between commas are parsed in order |
| PluginConfig.PluginPathsOfEntries | jax/_src/xla_bridge.py:388-398 | parsing a list of well-formed entries gives `dict(pairs)`, where later pairs overwrite earlier ones |
| PluginConfig.PluginPathsRoundTrip | jax/_src/xla_bridge.py:385-399 | writing plugins out as `n1<sep>p1,n2<sep>p2,...` and parsing them back gives `dict(pairs)` |
| PluginConfig.TextOptionsOfErrSticks | jax/_src/xla_bridge.py:500-506 | once an option is malformed, the options after it do not change the outcome |
| PluginConfig.TextOptionsOf | jax/_src/xla_bridge.py:500-506 | the options parsed in order: each must split on `:` into exactly a key and a value, a later key overwrites an earlier one, and the first option that does not split so is the error |
| PluginConfig.TextOptions | jax/_src/xla_bridge.py:496-506 | an empty text gives no options; otherwise the pieces between `;` are parsed as options |
| PluginConfig.ParseTextOptions | jax/_src/xla_bridge.py:496-507 | the loop over the `;`-separated options computes the option-list function |
| PluginConfig.TextOptionsOfOutcome | jax/_src/xla_bridge.py:500-507 | parsing succeeds exactly when every option has exactly one `:`; otherwise the error names the first option that does not |
| PluginConfig.TextOptionsEmpty | jax/_src/xla_bridge.py:497-498 | an empty text setting gives no options |
| PluginConfig.ParseEach | jax/_src/xla_bridge.py:515 | the comprehension fails exactly when some element fails to parse; otherwise element `i` of the result is what element `i` parses to |
| PluginConfig.ParseIntList | jax/_src/xla_bridge.py:515 | the device list is the pieces between commas, each read with `int()`; one piece that does not parse makes the list fail |
| PluginConfig.DeviceListRoundTrip | jax/_src/xla_bridge.py:515 | a non-empty list of device ids written as `i,j,k` parses back to the same list |
| PluginConfig.GpuTopologyOfShown | jax/_src/xla_bridge.py:357-361 | the topology `A x B x C` gives `A * B` nodes |
| PluginConfig.GpuTopologyNodes | jax/_src/xla_bridge.py:357-364 | the topology is cut at its first two `x`s; fewer than two cuts, or a first or second part that is not an integer, is an error; otherwise the nodes are the first part times the second, and the rest is not read |
| PluginConfig.GpuTopologyNeedsTwoCuts | jax/_src/xla_bridge.py:357-364 | a topology with a single `x`, such as `2x4`, is rejected |
| PluginConfig.PaddedShowInt | jax/_src/xla_bridge.py:360 | a number padded with spaces, as in `2 x 4`, still parses to its value |
| PluginConfig.WithGpuOptions | jax/_src/xla_bridge.py:514-523 | the mock-NCCL flag is always set; the node count is set only when mocking is on, and the topology only when it is also given; the device list is set when one is given; the node count, the topology and the device list are otherwise left as the create options have them; every other option is kept and no other option is added |
| PluginConfig.CreateOptions | jax/_src/xla_bridge.py:494-509 | a text setting goes through the option parser, a dictionary is taken as it is, and no setting gives no options |
| PluginConfig.BaseOptions | jax/_src/xla_bridge.py:494-509 | a text setting gives its parsed options as strings, a dictionary setting gives itself, and no setting gives no options |
| PluginConfig.GpuOptions | jax/_src/xla_bridge.py:511-523 | the visible devices are `CUDA_VISIBLE_DEVICES` for `cuda` and the ROCm setting for `rocm`; a device list other than `all` that does not parse is an error, then a malformed topology; otherwise the GPU options are added to the base |
| PluginConfig.ConfigOptions | jax/_src/xla_bridge.py:491-525 | an error in the create options ends the call; the GPU plugins get the GPU options on top of them, and any other plugin gets the create options alone |
| PluginConfig.OptionsFromJaxConfigs | jax/_src/xla_bridge.py:491-525 | the result is the create options followed by the GPU options for `cuda` and `rocm` |
| PluginConfig.NonGpuOptions | jax/_src/xla_bridge.py:511 | plugins other than `cuda` and `rocm` get exactly the create options |
| PluginConfig.GpuOptionsContent | jax/_src/xla_bridge.py:511-523 | for a GPU plugin: the mock-NCCL flag is `n > 0`, where `n` is the topology's node count or the configured process count; the node count and topology are set when mocking is on; the device list is the parsed id list unless the setting is `all`; a GPU option that is not set is left as the create options have it; the other create options are kept |
| PluginConfig.GpuOptionsBadDevices | jax/_src/xla_bridge.py:514-515 | a GPU device list that is not `all` and does not parse is an error |
| Platforms.PlatformsOf | jax/_src/xla_bridge.py:685-688 | a platform is listed for an alias exactly when the table pairs it with that alias |
| Platforms.Invert | jax/_src/xla_bridge.py:690-692 | the table built by one `setdefault(alias, []).append(platform)` per entry, in order |
| Platforms.AliasToPlatforms | jax/_src/xla_bridge.py:690-692 | `_alias_to_platforms` is the inversion of the built-in alias table |
| Platforms.IsAlias | jax/_src/xla_bridge.py:719-721 | a name is an alias exactly when the inverted table has it as a key |
| Platforms.InvertIsGrouping | jax/_src/xla_bridge.py:690-692 | the inverted table has one key per alias, and each key maps to its platforms in table order, never to an empty list |
| Platforms.InvertPlatformAliases | jax/_src/xla_bridge.py:690-692 | the `setdefault(...).append` loop computes the inversion |
| Platforms.AliasTable | jax/_src/xla_bridge.py:685-692 | the built-in inversion maps `gpu` to `[cuda, rocm]` and has no other key |
| Platforms.ExpandAlias | jax/_src/xla_bridge.py:732-738 | an expansion is never empty |
| Platforms.ExpandAliasMeaning | jax/_src/xla_bridge.py:732-738 | an alias expands to its platforms in table order, any other name to itself, and `gpu` to `[cuda, rocm]` |
| Platforms.FirstPresent | jax/_src/xla_bridge.py:724-726 | the result is the first candidate present, or none when no candidate is present |
| Platforms.Canonicalize | jax/_src/xla_bridge.py:711-729 | a non-alias is returned unchanged; an alias gives the first platform of its expansion that has a live backend; it fails exactly when none has one |
| Platforms.CanonicalizeGpu | jax/_src/xla_bridge.py:711-729 | `gpu` resolves to `cuda` when a CUDA backend is live, to `rocm` when only a ROCm backend is, and fails otherwise |
| Platforms.KnownPlatforms | jax/_src/xla_bridge.py:695-701 | the known platforms are exactly the registered names, the non-experimental and experimental plugins, and the aliases |
| Platforms.IsKnownPlatform | jax/_src/xla_bridge.py:704-708 | a name is a known platform exactly when it is among the known platforms for the current registrations |
| Platforms.ExpansionsAreKnown | jax/_src/xla_bridge.py:704-708 | every platform a known name expands to is known |
| Backends.RegisterKeepsOrder | jax/_src/xla_bridge.py:290-293 | registering keeps the table well formed; the name maps to the new registration; earlier names keep their place; a new name goes last; an overwritten one keeps its place; topologies change only when a topology factory is given |
| Backends.Table.Register | jax/_src/xla_bridge.py:290-293 | the registration is stored under its name, a new name goes last in the iteration order and an overwritten one keeps its place, and a topology factory is stored only when one is given |
| Backends.Table.RegisterAll | jax/_src/xla_bridge.py:281-293 | a sequence of registrations is applied one after the other, in order |
| Backends.RegisterAllValid | jax/_src/xla_bridge.py:281-293 | any sequence of registrations keeps the table well formed |
| Backends.FiringsCount | jax/_src/xla_bridge.py:678-681 | each callback is called with each handle as many times as it was queued, times the number of registrations carrying the handle |
| Backends.CApisOf | jax/_src/xla_bridge.py:678-679 | the C API handles of the registrations that have one, in iteration order |
| Backends.Firings | jax/_src/xla_bridge.py:677-681 | for each handle in turn, one call of every queued callback with it, in queue order |
| Backends.FireCallbacks | jax/_src/xla_bridge.py:677-681 | the nested loop calls every callback with the handle of every registration, registrations in iteration order on the outside |
| Backends.InitBackend | jax/_src/xla_bridge.py:884-909 | an unregistered name, a factory returning None, a failing factory and a backend with no devices are rejected, each with its own error; otherwise the result is the factory's backend |
| Backends.InitBackendOnlyReadsItsEntry | jax/_src/xla_bridge.py:885 | initialising a platform depends only on that platform's own registration |
| Backends.RegisterKeepsCache | jax/_src/xla_bridge.py:287-291 | registering a name with no live backend keeps every cached backend equal to what its factory builds |
| Backends.InitBackendAcceptsDevices | jax/_src/xla_bridge.py:902-903 | a built backend is accepted exactly when it reports a device count or some device |
| Backends.ExplicitCandidates | jax/_src/xla_bridge.py:793-798 | with an explicit list, priorities run from the list's length down to 1 by position, and every entry fails loudly |
| Backends.ExpandAll | jax/_src/xla_bridge.py:790-792 | each name of the list is replaced by its alias expansion, in place |
| Backends.ExpandAllAppend | jax/_src/xla_bridge.py:790-792 | expanding a list is expanding its halves one after the other, so each name's expansion takes that name's place in the order |
| Backends.ExpandAllMembers | jax/_src/xla_bridge.py:790-792 | a platform is in the expanded list exactly when it is in the alias expansion of some listed name |
| Backends.ConfiguredPlatforms | jax/_src/xla_bridge.py:789-792 | the platforms named by `jax_platforms` are its pieces between commas, each expanded |
| Backends.RegisteredCandidates | jax/_src/xla_bridge.py:800-804 | without an explicit list, the candidates are the registrations in iteration order, each with its own priority and policy |
| Backends.Candidates | jax/_src/xla_bridge.py:789-804 | a non-empty `jax_platforms` gives the explicit candidates of its platforms; otherwise every registration is a candidate |
| Backends.StartPass | jax/_src/xla_bridge.py:805 | the pass starts with no backends, the recorded errors it is given, no default and priority -1000 |
| Backends.Step | jax/_src/xla_bridge.py:806-827 | after a failure nothing changes, and `cuda` without an NVIDIA GPU is skipped; a success is cached and becomes the default when its priority is above the default priority, a quiet failure records its error, and a loud failure ends the pass with an error naming the platform |
| Backends.RunPass | jax/_src/xla_bridge.py:805-827 | the candidates are taken one iteration each, in order |
| Backends.PassOutcome | jax/_src/xla_bridge.py:822-832 | a pass that failed gives its error; one that found no default raises; otherwise the result is the cache |
| Backends.StepWithoutFailure | jax/_src/xla_bridge.py:806-821 | an iteration that does not fail loudly caches a success, records a quiet failure, and otherwise leaves both maps alone |
| Backends.PassWithoutFailure | jax/_src/xla_bridge.py:806-827 | a pass in which no candidate fails loudly ends without an error |
| Backends.PassBackends | jax/_src/xla_bridge.py:806-816 | without a loud failure, the cache holds exactly the platforms that initialise, each with the backend its factory builds |
| Backends.PassErrors | jax/_src/xla_bridge.py:817-821 | without a loud failure, the recorded errors are the earlier ones plus one per platform that fails quietly |
| Backends.PassErrorValues | jax/_src/xla_bridge.py:819-820 | a platform that fails quietly holds its own error, and any other platform keeps its earlier error |
| Backends.PassDefaultPriority | jax/_src/xla_bridge.py:805-816 | the default priority starts at -1000, is at least every success's priority, and stays -1000 while no default is chosen |
| Backends.PassDefault | jax/_src/xla_bridge.py:805-816 | the default is a success that no other success exceeds in priority and no earlier success equals: the highest priority wins, and on a tie the earliest wins |
| Backends.RunCandidates | jax/_src/xla_bridge.py:805-827 | the loop over the candidates computes the pass function |
| Backends.PassCacheBuilt | jax/_src/xla_bridge.py:811-812 | every backend the pass caches is what its factory builds, including after a loud failure |
| Backends.PassCacheConsistent | jax/_src/xla_bridge.py:811-816 | every cached backend is what its factory builds, and the default is one of the cached backends |
| Backends.PassStopsAtFailure | jax/_src/xla_bridge.py:822-827 | once the pass fails, the remaining candidates change nothing |
| Backends.PassFirstLoudFailure | jax/_src/xla_bridge.py:822-827 | the first loud failure ends the pass with an error naming that platform and its cause; the backends cached before it stay |
| Backends.UniqueHighestIsDefault | jax/_src/xla_bridge.py:814-816 | a success whose priority is strictly above every other success becomes the default |
| Backends.ExplicitDefaultIsFirstTried | jax/_src/xla_bridge.py:793-816 | with an explicit list and no error, the default is the first platform that is not skipped |
| Backends.NoLoudFailureInFinishedPass | jax/_src/xla_bridge.py:822-827 | a pass that finishes without error met no loud failure |
| Backends.FailureSticks | jax/_src/xla_bridge.py:822-827 | if any candidate fails loudly, the pass ends with an error |
| Backends.ExplicitUnregisteredFailsLoudly | jax/_src/xla_bridge.py:886-889 | an explicit list starting with an unregistered name fails on that name, with an empty cache, and never falls back to the names after it |
| Backends.Resolve | jax/_src/xla_bridge.py:920-936 | no name gives the default backend; a name is canonicalised and looked up; a missing platform reports its recorded error if it has one, and is unknown otherwise |
| Backends.RequestedName | jax/_src/xla_bridge.py:920 | the requested name is the first non-empty of the argument, `jax_xla_backend` and `jax_platform_name`, or none |
| Backends.ProcessCount | jax/_src/xla_bridge.py:1111-1115 | the count fails exactly when there are no devices; otherwise it is one more than the largest process index among the devices |
| Backends.MaxProcessIndex | jax/_src/xla_bridge.py:1115 | the largest process index among the devices |
| Backends.ProcessIndices | jax/_src/xla_bridge.py:1126-1139 | the indices are `0, 1, ..., process_count - 1` |
| Backends.DevicesOf | jax/_src/xla_bridge.py:1080 | the result holds exactly the devices with the given process index |
| Backends.DevicesOfSingle | jax/_src/xla_bridge.py:1080 | a single device is kept exactly when its process index matches |
| Backends.DevicesOfAppend | jax/_src/xla_bridge.py:1080 | selecting from a concatenation is concatenating the selections, so the devices keep their order |
| Backends.LocalDevices | jax/_src/xla_bridge.py:1053-1080 | `host_id` replaces the process index, and no index means the backend's own; a negative index is an unknown process index before the process count is asked; a backend without devices then fails to count its processes; an index at or past `process_count` is an unknown process index; otherwise the result is that process's devices, in the backend's order |
| Backends.LocalDevicesCover | jax/_src/xla_bridge.py:1076-1080 | every device is local to its own process and to no other |
| Backends.RegisterKeepsConsistent | jax/_src/xla_bridge.py:287-291 | registering a name with no live backend keeps the registry's state consistent |
| Backends.PassKeepsConsistent | jax/_src/xla_bridge.py:805-829 | the state a pass leaves is consistent: every cached backend is built by its factory, and the default is cached |
| Backends.Registry.constructor | jax/_src/xla_bridge.py:353-371 | after import, `cpu` (priority 0, fails loudly) and `tpu` (priority 300, fails quietly) are registered; the cache, errors, default and callbacks are empty; discovery has not run |
| Backends.Registry.KnownPlatforms | jax/_src/xla_bridge.py:695-701 | `known_platforms()` on the registry's current registrations |
| Backends.Registry.PassFrom | jax/_src/xla_bridge.py:789-827 | the pass `backends()` runs on an empty cache, from the current registrations and recorded errors |
| Backends.Registry.RegisterBackendFactory | jax/_src/xla_bridge.py:281-293 | a name that already has a live backend is refused and nothing changes; otherwise the registration is inserted or overwritten and nothing else changes |
| Backends.Registry.RegisterPlugin | jax/_src/xla_bridge.py:567-631 | both or neither of a path and a handle: nothing is registered; a factory with options is an error; otherwise the plugin is registered to fail loudly, as experimental unless it is `cuda` or `rocm`, with a topology factory over its handle, and the handle is returned |
| Backends.Registry.RegisterPluginCallbacks | jax/_src/xla_bridge.py:750-768 | after discovery, the callback is called at once with every registered handle in iteration order, up to and including a call that raises, and the raise is the result; before discovery, the callback is queued, not called, and nothing raises |
| Backends.Registry.RegisterDiscovered | jax/_src/xla_bridge.py:672-676 | the discovered plugins' registrations are applied in order, and the cache is left alone |
| Backends.Registry.DiscoverAndRegisterPlugins | jax/_src/xla_bridge.py:663-682 | the first call makes the discovered plugins' registrations, calls every queued callback with every handle, and closes the gate; if a registration raises, no callback is called; if a callback raises, the calls up to it are made; either error is returned and the gate stays open; once the gate is closed, a call changes nothing |
| Backends.Registry.FireQueuedCallbacks | jax/_src/xla_bridge.py:677-682 | after the registrations: a raising registration skips the callbacks; otherwise every queued callback is called with every handle until one raises; the gate closes only if nothing raised |
| Backends.CallsMade | jax/_src/xla_bridge.py:677-681 | a discovery makes at most the calls that are due, and all of them when nothing raises |
| Backends.CallbackFailureCalls | jax/_src/xla_bridge.py:762-765 | a callback that raises at call `k` of `n` due calls makes the first `k + 1` calls and raises its message; one that raises at no due call makes all `n` |
| Backends.Registry.InitializeBackends | jax/_src/xla_bridge.py:779-832 | a non-empty cache is returned unchanged; otherwise the cache, errors and default become those of the pass, and the result is the pass's outcome; a success returns the non-empty cache |
| Backends.Registry.GetBackends | jax/_src/xla_bridge.py:771-832 | `backends()`: discovery runs until it has completed once; an error it raises is returned and the cache is left alone; otherwise the cache is returned or built as above |
| Backends.Registry.ClearBackends | jax/_src/xla_bridge.py:872-881 | the cache, the errors and the default are dropped; registrations and the discovery flag stay |
| Backends.Registry.CanonicalizePlatform | jax/_src/xla_bridge.py:711-729 | a non-alias is returned with no state change; an alias resolves against the live cache; a discovery error is returned |
| Backends.Registry.GetBackendUncached | jax/_src/xla_bridge.py:912-937 | a client passes through with no state change; otherwise the requested name, or the deprecated flags, is resolved against the cache; a discovery error is returned |
| Roofline.FromAval | jax/experimental/roofline/roofline.py:61-69 | a value that is not a shaped array, and a dtype that is neither numpy nor a key type, are the two type errors; otherwise the shape and item size are kept |
| Roofline.Product | jax/experimental/roofline/roofline.py:73 | the product of the dimensions, 1 for a scalar |
| Roofline.Size | jax/experimental/roofline/roofline.py:71-73 | the number of elements of a shape is the product of its dimensions |
| Roofline.Bytes | jax/experimental/roofline/roofline.py:76-77 | the bytes of a shape are its number of elements times the item size of its dtype |
| Roofline.SizeOfScalarAndAppend | jax/experimental/roofline/roofline.py:71-73 | a scalar has size 1, and each dimension multiplies the size |
| Roofline.ProductAppend | jax/experimental/roofline/roofline.py:71-73 | the size of two blocks of dimensions one after the other is the product of their sizes |
| Roofline.ProductPrepend | jax/experimental/roofline/roofline.py:71-73 | a leading dimension multiplies the size |
| Roofline.ProductRemove | jax/experimental/roofline/roofline.py:71-73 | taking one dimension out divides it out of the size |
| Roofline.ProductPermutation | jax/experimental/roofline/roofline.py:71-73 | the size does not depend on the order of the dimensions |
| Roofline.ZeroDimensionIsEmpty | jax/experimental/roofline/roofline.py:71-77 | a shape with a zero dimension has no elements and no bytes |
| Roofline.SumBytes | jax/experimental/roofline/roofline.py:167-168 | the bytes of a list of shapes are the sum of their bytes, 0 for none |
| Roofline.SumBytesAppend | jax/experimental/roofline/roofline.py:167-168 | the byte sum of two lists together is the sum of their byte sums |
| Roofline.ShapesOf | jax/experimental/roofline/roofline.py:79-81 | converting a list of values fails exactly when one value fails; otherwise it gives one shape per value |
| Roofline.TotalBytes | jax/experimental/roofline/roofline.py:79-81 | a list of values fails with the first value that is not a valid shaped array; otherwise its total is the sum of the bytes of their shapes |
| Roofline.TotalBytesAppend | jax/experimental/roofline/roofline.py:79-81 | the total of two lists together fails exactly when one of them fails, and is otherwise the sum of their totals |
| Roofline.Zeros | jax/experimental/roofline/roofline.py:94-96 | every counter is 0 and both dictionaries are empty |
| Roofline.Merge | jax/experimental/roofline/roofline.py:99-100 | the keys are the union of the inputs' keys, and each value is the sum of the inputs' values, missing ones counting 0 |
| Roofline.Add | jax/experimental/roofline/roofline.py:98-110 | the counters add up, the peak is the larger of the two peaks, and the dictionaries merge |
| Roofline.AddCommutative | jax/experimental/roofline/roofline.py:98-110 | `a + b == b + a` |
| Roofline.AddAssociative | jax/experimental/roofline/roofline.py:98-110 | `(a + b) + c == a + (b + c)` |
| Roofline.MergeAssociative | jax/experimental/roofline/roofline.py:99-100 | merging dictionaries is associative |
| Roofline.ZerosIdentity | jax/experimental/roofline/roofline.py:94-110 | `zeros()` is a two-sided identity for `+` on results whose peak is not negative |
| Roofline.ZerosLiftsNegativePeak | jax/experimental/roofline/roofline.py:108 | on a negative peak, adding `zeros()` lifts the peak to 0, so the identity needs a non-negative peak |
| Roofline.Scale | jax/experimental/roofline/roofline.py:116-117 | scaling a dictionary keeps its keys and multiplies each value |
| Roofline.Mul | jax/experimental/roofline/roofline.py:112-124 | every counter, the peak and every dictionary value are multiplied by the constant, the same on either side |
| Roofline.MulOne | jax/experimental/roofline/roofline.py:112-121 | multiplying by 1 changes nothing |
| Roofline.MulDistributes | jax/experimental/roofline/roofline.py:98-121 | multiplying by a non-negative constant distributes over `+` |
| Roofline.ScaleDistributes | jax/experimental/roofline/roofline.py:99-117 | scaling distributes over merging |
| Roofline.MulCompose | jax/experimental/roofline/roofline.py:112-121 | multiplying by `c` and then by `d` is multiplying by `c * d` |
| Roofline.AddSelf | jax/experimental/roofline/roofline.py:98-121 | `r + r` is `r * 2` except the peak, which is kept rather than doubled |
| RooflineInterp.ApplyRule | jax/experimental/roofline/roofline.py:215-229 | the standard rule costs `zeros()`; a custom rule costs what the caller's rule computes from the equation and its operands, or raises, and its error then names the primitive and carries the rule's message |
| RooflineInterp.EqnCost | jax/experimental/roofline/roofline.py:190-229 | a nested jaxpr gives its own interpretation; otherwise a primitive without a rule raises, an operand that cannot be read is an error, and the rule is applied to the operands' shapes |
| RooflineInterp.VarIdsMeaning | jax/experimental/roofline/roofline.py:238-239 | a variable is among the operands exactly when some non-literal operand names it |
| RooflineInterp.WriteAll | jax/experimental/roofline/roofline.py:150-152 | each variable in turn is bound to its shape, a later write to the same variable winning |
| RooflineInterp.WriteAllKeys | jax/experimental/roofline/roofline.py:150-152 | writing binds exactly the written variables, on top of those already bound |
| RooflineInterp.WriteAllLast | jax/experimental/roofline/roofline.py:172-177 | each written variable is bound to the last shape written for it |
| RooflineInterp.WriteAllKeeps | jax/experimental/roofline/roofline.py:234 | a variable that is not written keeps its binding |
| RooflineInterp.MapBytesRemove | jax/experimental/roofline/roofline.py:180 | any entry can be taken out of the byte sum of an environment first |
| RooflineInterp.WriteAllFresh | jax/experimental/roofline/roofline.py:231-234 | binding fresh, distinct variables adds exactly their bytes to the environment |
| RooflineInterp.SumValues | jax/experimental/roofline/roofline.py:180 | the loop over the environment's entries computes their byte sum |
| RooflineInterp.ReadAll | jax/experimental/roofline/roofline.py:154-159 | each operand in order: a literal is its value's shape, a bound variable its binding, and an unbound variable or a bad literal is an error |
| RooflineInterp.ReadAllMeaning | jax/experimental/roofline/roofline.py:154-159 | reading succeeds exactly when every variable is bound and every literal has a shape; it then gives one shape per operand, a variable's being its bound shape |
| RooflineInterp.LastReader | jax/experimental/roofline/roofline.py:178 | the result is the last equation before `n` that reads the variable, or none when no such equation exists |
| RooflineInterp.LastUse | jax/experimental/roofline/roofline.py:178 | an output of the jaxpr is never freed; any other variable's last use is the last equation that reads it, or none |
| RooflineInterp.Dying | jax/experimental/roofline/roofline.py:239 | the variables freed by an equation are among its operands |
| RooflineInterp.DyingIsLastUse | jax/experimental/roofline/roofline.py:236-242 | a variable dies at an equation exactly when the equation reads it and is its last use |
| RooflineInterp.DistinctVarsMeaning | jax/experimental/roofline/roofline.py:242 | deduplication keeps every variable among the operands, each exactly once, and nothing else |
| RooflineInterp.Removed | jax/experimental/roofline/roofline.py:236-240 | the bindings of the operands that are variables dying at this equation, in order and once per operand; a dying operand that is not bound is an error |
| RooflineInterp.Operands | jax/experimental/roofline/roofline.py:236-242 | per operand, every operand counts; per variable, each variable counts once |
| RooflineInterp.RemovedDistinct | jax/experimental/roofline/roofline.py:237-242 | freeing distinct dying variables subtracts exactly the bytes they held in the environment |
| RooflineInterp.Advance | jax/experimental/roofline/roofline.py:231-244 | after an iteration, the peak is the larger of the old peak and the new live bytes, and the result has the equation's cost added |
| RooflineInterp.Step | jax/experimental/roofline/roofline.py:190-244 | a successful iteration has a cost, adds it to the result, and raises the peak to at least the live bytes |
| RooflineInterp.RunNext | jax/experimental/roofline/roofline.py:183 | one more iteration applies the loop body to the state the run reached |
| RooflineInterp.Fold | jax/experimental/roofline/roofline.py:183 | `n` iterations, each on the state the previous one left, stopping at the first error |
| RooflineInterp.StepOf | jax/experimental/roofline/roofline.py:183-244 | the loop body at an equation of the jaxpr; past the last equation it changes nothing |
| RooflineInterp.Run | jax/experimental/roofline/roofline.py:183-244 | the first `n` iterations of the loop over the equations |
| RooflineInterp.FoldKeeps | jax/experimental/roofline/roofline.py:183-244 | a property that every iteration keeps holds after any number of iterations |
| RooflineInterp.FoldPeakMonotone | jax/experimental/roofline/roofline.py:244 | when no iteration lowers the peak, no later state has a lower peak than an earlier one |
| RooflineInterp.FoldErrorSticks | jax/experimental/roofline/roofline.py:183-244 | an error ends the loop: every longer run fails with the same error |
| RooflineInterp.RunErrorSticks | jax/experimental/roofline/roofline.py:183-244 | an error ends the run over the equations: every longer run fails with the same error |
| RooflineInterp.RunPeak | jax/experimental/roofline/roofline.py:181-244 | the peak never falls below where it started, nor below the live bytes |
| RooflineInterp.RunPeakMonotone | jax/experimental/roofline/roofline.py:244 | the peak never falls from one equation to a later one |
| RooflineInterp.MissingRuleRaises | jax/experimental/roofline/roofline.py:209-214 | an equation without a nested jaxpr whose primitive has no rule makes the interpreter raise, naming the primitive |
| RooflineInterp.RaisingRuleRaises | jax/experimental/roofline/roofline.py:216-229 | an equation whose custom rule raises makes the interpreter raise with the rule's message, naming the primitive |
| RooflineInterp.InterpretationPeak | jax/experimental/roofline/roofline.py:180-247 | the reported peak is at least the bytes of the constants and inputs, and at least every rule's own peak |
| RooflineInterp.StandardStepCostsNothing | jax/experimental/roofline/roofline.py:330-334 | an equation whose primitive has the standard rule adds nothing to the costs |
| RooflineInterp.StandardRulesCostNothing | jax/experimental/roofline/roofline.py:330-334 | with only standard rules and no nested jaxprs, the costs stay zero |
| RooflineInterp.StepKeepsLiveBytes | jax/experimental/roofline/roofline.py:231-242 | a per-variable iteration keeps the live bytes equal to the bytes held in the environment, and binds only that equation's outputs |
| RooflineInterp.StepOfKeepsLiveBytes | jax/experimental/roofline/roofline.py:231-242 | on a single-assignment jaxpr, the loop body keeps the live-bytes invariant |
| RooflineInterp.RunKeepsLiveBytes | jax/experimental/roofline/roofline.py:183-244 | on a single-assignment jaxpr, every per-variable run keeps the live-bytes invariant |
| RooflineInterp.StartLiveBytes | jax/experimental/roofline/roofline.py:172-181 | before the first equation, the live bytes are the binders' bytes and only the binders are bound |
| RooflineInterp.LiveBytesMatchEnvironment | jax/experimental/roofline/roofline.py:180-244 | with per-variable freeing, every state the interpreter reaches has its live bytes equal to the bytes of the variables still in the environment |
| RooflineInterp.Binders | jax/experimental/roofline/roofline.py:170-177 | the constant variables, then the input variables, in the order they are written |
| RooflineInterp.Start | jax/experimental/roofline/roofline.py:170-181 | the binders' shapes are written, a bad one being an error; the live bytes and the peak both start at the bytes of the environment, and the result at zeros |
| RooflineInterp.Interpretation | jax/experimental/roofline/roofline.py:136-247 | the set-up, then one iteration per equation; the result is the summed costs with the peak added as `RooflineResult(peak_hbm_bytes=peak)`, or the first error |
| RooflineInterp.StepFields | jax/experimental/roofline/roofline.py:231-242 | an iteration binds the outputs and drops the dying variables, and the live bytes rise by the outputs' bytes and fall by the freed bytes |
| RooflineInterp.Begin | jax/experimental/roofline/roofline.py:172-181 | the set-up writes the binders' shapes and starts the live bytes and the peak at their sum |
| RooflineInterp.RuleTable.constructor | jax/experimental/roofline/roofline.py:133 | the rule table starts empty |
| RooflineInterp.RuleTable.RegisterRoofline | jax/experimental/roofline/roofline.py:322-327 | the primitive is mapped to the rule, and the rule is returned |
| RooflineInterp.RuleTable.RegisterStandardRoofline | jax/experimental/roofline/roofline.py:330-334 | the primitive is mapped to a rule that always costs `zeros()` |
| RooflineInterp.RuleTable.Iterate | jax/experimental/roofline/roofline.py:190-244 | one iteration is `Step` in the given removal mode: charge the cost, count the outputs as live, free the dying inputs once per operand (as written) or once per variable, and update the peak |
| RooflineInterp.RuleTable.RunEquations | jax/experimental/roofline/roofline.py:183-244 | the loop does one iteration per equation, in order, and stops at the first error; the result is the run over all the equations |
| RooflineInterp.RuleTable.Interpret | jax/experimental/roofline/roofline.py:136-247 | the interpreter returns the summed costs with the peak of the live bytes folded in, freeing each dying variable once |
| RooflineInterp.ExampleInterpretation | jax/experimental/roofline/roofline.py:236-242 | on `b = mul a a; d = broadcast k`, freeing per operand reports a peak of 16 bytes, and freeing per variable reports 20 |
| RooflineInterp.RepeatedOperandUnderstatesPeak | jax/experimental/roofline/roofline.py:236-242 | the source's per-operand freeing reports 16 bytes for a jaxpr that holds 20 bytes live at once |

## Left out

- Locks: the three `threading.Lock`s and the TPU timer. The model is sequential, and the once-only gates are booleans.
- Plugin loading and discovery: namespace and entry-point scanning, `initialize()`, dynamic loading and profiler registration are foreign calls. `Backends.Registry.DiscoverAndRegisterPlugins` takes their effect as a `Discovery`: the registrations they make, in order, and the point where discovery raises, if it does. `Backends.Registry.RegisterPlugin` takes the loaded handle as a parameter.
- `register_pjrt_plugin_factories_from_env` (xla_bridge.py:634-660): its loop over the parsed dictionary, and the JSON config files it reads, are folded into that discovery. Its parser, `PluginConfig.ParsePluginPaths`, is modelled.
- Client constructors (`make_cpu_client`, `make_tpu_client`, `make_pjrt_c_api_client` and the transfer server): they are foreign library calls. A factory is the value it produces.
- Environment and configuration reads: `os.getenv`, the `config` flags and the NVIDIA GPU probe are parameters. The flags are `OptionSettings`, `jaxPlatforms`, `xlaBackend` and `platformName`; the probe is `hasNvidiaGpu`.
- Diagnostics: logging, warnings, the at-fork handler and `_suggest_missing_backends` are output only.
- Error messages: their text is not modelled. Errors are the `InitError`, `BridgeError`, `OptionsError` and `InterpError` datatypes.
- Other queries: `util.cache` memoisation and the version probes on foreign objects are left out, as are `make_pjrt_topology`, `backends_are_initialized`, `default_backend`, `devices` and `device_count`.
- Backends.Registry.RegisterPlugin: a callable `options` is not modelled. The options are checked only against a custom factory and are not passed on to the default one.
- Roofline.Mul: only integer constants are modelled; `__mul__` by a float needs floating point.
- Roofline.ZerosIdentity: holds only for a non-negative peak, because `max(0, p)` lifts a negative peak to 0 (`Roofline.ZerosLiftsNegativePeak`). Every peak built from byte counts is non-negative.
- Roofline.MulDistributes: requires a non-negative constant, because a negative one turns the peak's `max` into a `min`.
- Nested jaxprs: an equation's nested `jaxpr` / `call_jaxpr` is given by the outcome of interpreting it, so the recursion itself is not modelled, and the rules' own cost formulas are the caller's `CustomRules`, which may raise.
- RooflineInterp.ApplyRule: a rule sees the equation's primitive, its operands and outputs (with their avals) and the operands' shapes, but not `eqn.params` and not the context's `mesh`, `name_stack`, `jaxpr_eqn_ctx` or `pin_lhs_in_vmem` / `pin_rhs_in_vmem` flags (roofline.py:217-228). So equations that differ only in their parameters cost the same here, as does one jaxpr interpreted under different meshes or pin flags.
- Roofline.Size: the int64 wrap-around of `np.prod` (roofline.py:73) is not modelled. The size here is the exact product of the dimensions, so a shape with more than 2^63 - 1 elements, such as `(2**32, 2**32)`, which numpy wraps to 0, is larger here. `Roofline.Bytes`, `Roofline.TotalBytes` and the interpreter's live bytes inherit the exact size.
- `core.last_used` and `core.clean_up_dead_vars` are not part of this model. Their effect is a variable's last reading equation (`RooflineInterp.LastUse`) and removing the dying variables from the environment.
- RooflineInterp.RuleTable.Interpret: frees each dying variable once, which is the corrected behaviour (see Findings). The per-operand behaviour of the source is `RooflineInterp.Step` in mode `PerOccurrence`, and `RooflineInterp.RuleTable.Iterate` and `RooflineInterp.RuleTable.RunEquations` run in either mode.
- Text.ParseInt: underscores between digits and non-ASCII digits and whitespace, which Python's `int()` also accepts, are not modelled.
- Devices: only `device_count()`, the device lists and the process indices of a backend are modelled.
- Backends.Registry.CanonicalizePlatform: when an alias is resolved on an empty cache, the contract does not state the result, because resolving first runs the initialisation pass. Only the non-alias and cached cases are stated.
- Backends.Registry.GetBackends: when a callback raises, the contract does not say whether the gate stays open. That depends on how many calls are due, and `Backends.Registry.DiscoverAndRegisterPlugins` states it.
- Backends.Registry.DiscoverAndRegisterPlugins: a raising callback is identified by its position in the firing order. A plugin that raises after registering part of itself is described by the registrations it made.
- Backends.Registry.GetBackendUncached: on an empty cache, the contract states only that a successful result matches the lookup on the cache the pass built.

## Findings

| source | as written | input that shows it | evidently intended | confidence | as-written member | corrected member |
|---|---|---|---|---|---|---|
| jax/experimental/roofline/roofline.py:236-242 | the bytes of a dying input are subtracted once for every operand that names it, while the variable is removed from the environment only once | `b = mul a a; d = broadcast_in_dim k`, with `a` and `k` 4-byte scalars, `d` 16 bytes, and outputs `b, d`: the live counter falls to 4 after the first equation, while 8 bytes are live, and the reported peak is 16 | each no-longer-needed input variable is freed once, so the live bytes equal the bytes held in the environment and the peak is 20 | medium, not executed | RooflineInterp.RepeatedOperandUnderstatesPeak | RooflineInterp.LiveBytesMatchEnvironment |
