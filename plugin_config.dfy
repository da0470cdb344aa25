/** The small text formats read by the backend bridge (jax/_src/xla_bridge.py):
    the `name<sep>path,...` plugin list, the `key:value;...` client options,
    the visible-device id lists and the `"A x B x C"` mock GPU topology. */
module PluginConfig {
  import opened Wrappers
  import opened Text

  // ---------------------------------------------------------------------
  // _get_pjrt_plugin_names_and_library_paths
  // ---------------------------------------------------------------------

  /** An entry of the plugin list that splits on the path separator into
      exactly two parts: the plugin name and its library path. Any other
      entry is malformed (the source logs it and skips it). */
  function NamePath(entry: string, pathSep: char): Option<(string, string)>
  {
    var parts := Split(entry, pathSep);
    if |parts| == 2 then Some((parts[0], parts[1])) else None
  }

  predicate DefinesName(entry: string, pathSep: char, name: string)
  {
    NamePath(entry, pathSep).Some? && NamePath(entry, pathSep).value.0 == name
  }

  /** The dictionary built from `entries` in order: malformed entries are
      skipped, later entries overwrite earlier ones with the same name. */
  function PluginPathsOf(entries: seq<string>, pathSep: char): map<string, string>
    decreases |entries|
  {
    if entries == [] then map[]
    else
      var m := PluginPathsOf(entries[..|entries| - 1], pathSep);
      match NamePath(entries[|entries| - 1], pathSep)
      case None => m
      case Some(np) => m[np.0 := np.1]
  }

  /** What `_get_pjrt_plugin_names_and_library_paths` returns. */
  function PluginPaths(pluginsFromEnv: string, pathSep: char): map<string, string>
  {
    if pluginsFromEnv == "" then map[] else PluginPathsOf(Split(pluginsFromEnv, ','), pathSep)
  }

  /** `_get_pjrt_plugin_names_and_library_paths`: the loop over the
      comma-separated entries that fills the dictionary. */
  method ParsePluginPaths(pluginsFromEnv: string, pathSep: char) returns (plugins: map<string, string>)
    ensures plugins == PluginPaths(pluginsFromEnv, pathSep)
    ensures pluginsFromEnv == "" ==> plugins == map[]
  {
    if pluginsFromEnv == "" {
      return map[];
    }
    var entries := Split(pluginsFromEnv, ',');
    plugins := map[];
    for i := 0 to |entries|
      invariant plugins == PluginPathsOf(entries[..i], pathSep)
    {
      assert entries[..i + 1][..i] == entries[..i];
      var parts := Split(entries[i], pathSep);
      if |parts| == 2 {
        plugins := plugins[parts[0] := parts[1]];
      }
    }
    assert entries[..|entries|] == entries;
  }

  /** A name is in the dictionary exactly when some well-formed entry names
      it, and it maps to the path of the LAST such entry. */
  lemma {:induction false} PluginPathsOfLookup(entries: seq<string>, pathSep: char, name: string)
    ensures name in PluginPathsOf(entries, pathSep) <==>
              exists i :: 0 <= i < |entries| && DefinesName(entries[i], pathSep, name)
    ensures forall i :: 0 <= i < |entries| && DefinesName(entries[i], pathSep, name) &&
                        (forall j :: i < j < |entries| ==> !DefinesName(entries[j], pathSep, name)) ==>
                          PluginPathsOf(entries, pathSep)[name] == NamePath(entries[i], pathSep).value.1
    decreases |entries|
  {
    if entries != [] {
      var n := |entries| - 1;
      var init := entries[..n];
      PluginPathsOfLookup(init, pathSep, name);
      assert forall i :: 0 <= i < n ==> init[i] == entries[i];
      if DefinesName(entries[n], pathSep, name) {
      } else {
        forall i | 0 <= i < |entries| && DefinesName(entries[i], pathSep, name) &&
                   (forall j :: i < j < |entries| ==> !DefinesName(entries[j], pathSep, name))
          ensures PluginPathsOf(entries, pathSep)[name] == NamePath(entries[i], pathSep).value.1
        {
          assert i < n;
        }
      }
    }
  }

  /** The entry `name<sep>path`. */
  function Entry(name: string, path: string, pathSep: char): string
  {
    name + [pathSep] + path
  }

  function Entries(pairs: seq<(string, string)>, pathSep: char): (r: seq<string>)
    ensures |r| == |pairs|
    ensures forall i :: 0 <= i < |pairs| ==> r[i] == Entry(pairs[i].0, pairs[i].1, pathSep)
    decreases |pairs|
  {
    if pairs == [] then [] else Entries(pairs[..|pairs| - 1], pathSep) + [Entry(pairs[|pairs| - 1].0, pairs[|pairs| - 1].1, pathSep)]
  }

  /** The dictionary `dict(pairs)`: later pairs overwrite earlier ones. */
  function PairsToMap(pairs: seq<(string, string)>): map<string, string>
    decreases |pairs|
  {
    if pairs == [] then map[] else PairsToMap(pairs[..|pairs| - 1])[pairs[|pairs| - 1].0 := pairs[|pairs| - 1].1]
  }

  /** A name and a path free of both separators make a well-formed entry. */
  lemma NamePathOfEntry(name: string, path: string, pathSep: char)
    requires pathSep !in name && pathSep !in path
    ensures NamePath(Entry(name, path, pathSep), pathSep) == Some((name, path))
  {
    SplitAfterPiece(name, pathSep, path);
    SplitNoSeparator(path, pathSep);
  }

  lemma {:induction false} PluginPathsOfEntries(pairs: seq<(string, string)>, pathSep: char)
    requires forall i :: 0 <= i < |pairs| ==> pathSep !in pairs[i].0 && pathSep !in pairs[i].1
    ensures PluginPathsOf(Entries(pairs, pathSep), pathSep) == PairsToMap(pairs)
    decreases |pairs|
  {
    if pairs != [] {
      var n := |pairs| - 1;
      PluginPathsOfEntries(pairs[..n], pathSep);
      assert Entries(pairs, pathSep)[..n] == Entries(pairs[..n], pathSep);
      NamePathOfEntry(pairs[n].0, pairs[n].1, pathSep);
    }
  }

  /** Round trip: writing a list of plugins out as `n1<sep>p1,n2<sep>p2,...`
      and parsing it back gives `dict(pairs)`, as long as no name or path
      contains ',' or the path separator. */
  lemma PluginPathsRoundTrip(pairs: seq<(string, string)>, pathSep: char)
    requires pathSep != ','
    requires forall i :: 0 <= i < |pairs| ==>
               pathSep !in pairs[i].0 && pathSep !in pairs[i].1 && ',' !in pairs[i].0 && ',' !in pairs[i].1
    ensures PluginPaths(Join(Entries(pairs, pathSep), ','), pathSep) == PairsToMap(pairs)
  {
    var es := Entries(pairs, pathSep);
    if pairs != [] {
      assert es[0] == pairs[0].0 + [pathSep] + pairs[0].1;
      assert pathSep in es[0];
      JoinStartsWith(es, ',');
      assert Join(es, ',') != "";
      forall i | 0 <= i < |es| ensures ',' !in es[i] {
        assert es[i] == pairs[i].0 + [pathSep] + pairs[i].1;
      }
      SplitJoin(es, ',');
      PluginPathsOfEntries(pairs, pathSep);
    }
  }

  lemma JoinStartsWith(xs: seq<string>, c: char)
    requires |xs| >= 1
    ensures |Join(xs, c)| >= |xs[0]| && Join(xs, c)[..|xs[0]|] == xs[0]
  {
  }

  // ---------------------------------------------------------------------
  // _options_from_jax_configs
  // ---------------------------------------------------------------------

  /** The values a client option can take. Floats are carried as Dafny reals
      and never computed with. */
  datatype OptionValue =
    | StrValue(s: string)
    | IntValue(i: int)
    | IntListValue(ids: seq<int>)
    | BoolValue(b: bool)
    | FloatValue(f: real)

  /** The value of the `jax_pjrt_client_create_options` setting. */
  datatype CreateOptionsSetting =
    | TextSetting(text: string)
    | DictSetting(options: map<string, OptionValue>)
    | NoSetting

  datatype OptionsError =
    | MalformedOption(option: string)   // RuntimeError: not exactly one ':'
    | BadVisibleDevices(devices: string) // ValueError from int()
    | BadTopology(topology: string)      // ValueError: not "<A> x <B> x <C>"

  /** The `key: value` text options parsed from `options` in order; the first
      option without exactly one ':' is the error. */
  function TextOptionsOf(options: seq<string>): Result<map<string, string>, OptionsError>
    decreases |options|
  {
    if options == [] then Ok(map[])
    else
      match TextOptionsOf(options[..|options| - 1])
      case Err(e) => Err(e)
      case Ok(m) =>
        var option := options[|options| - 1];
        var parts := Split(option, ':');
        if |parts| != 2 then Err(MalformedOption(option)) else Ok(m[parts[0] := parts[1]])
  }

  /** Once an option is malformed, the rest of the list does not matter. */
  lemma {:induction false} TextOptionsOfErrSticks(options: seq<string>, i: nat)
    requires i <= |options| && TextOptionsOf(options[..i]).Err?
    ensures TextOptionsOf(options) == TextOptionsOf(options[..i])
    decreases |options| - i
  {
    if i < |options| {
      assert options[..i + 1][..i] == options[..i];
      TextOptionsOfErrSticks(options, i + 1);
    } else {
      assert options[..i] == options;
    }
  }

  /** The option list of the text form: nothing for the empty text, otherwise
      the pieces between ';'. */
  function OptionList(text: string): seq<string>
  {
    if text == "" then [] else Split(text, ';')
  }

  function TextOptions(text: string): Result<map<string, string>, OptionsError>
  {
    TextOptionsOf(OptionList(text))
  }

  /** The string branch of `_options_from_jax_configs`: split on ';' and fill
      a dictionary from the `key:value` pieces, raising on a piece that does
      not have exactly one ':'. */
  method ParseTextOptions(text: string) returns (r: Result<map<string, string>, OptionsError>)
    ensures r == TextOptions(text)
  {
    var optionList: seq<string> := [];
    if text != "" {
      optionList := Split(text, ';');
    }
    var options: map<string, string> := map[];
    for i := 0 to |optionList|
      invariant TextOptionsOf(optionList[..i]) == Ok(options)
    {
      assert optionList[..i + 1][..i] == optionList[..i];
      var option := optionList[i];
      var parts := Split(option, ':');
      if |parts| != 2 {
        TextOptionsOfErrSticks(optionList, i + 1);
        return Err(MalformedOption(option));
      }
      options := options[parts[0] := parts[1]];
    }
    assert optionList[..|optionList|] == optionList;
    return Ok(options);
  }

  /** The text options parse exactly when every option has exactly one ':';
      otherwise the error names the first option that does not. */
  lemma {:induction false} TextOptionsOfOutcome(options: seq<string>)
    ensures TextOptionsOf(options).Ok? <==> forall i :: 0 <= i < |options| ==> Count(options[i], ':') == 1
    ensures TextOptionsOf(options).Err? ==>
              exists i :: 0 <= i < |options| && Count(options[i], ':') != 1 &&
                          TextOptionsOf(options).error == MalformedOption(options[i]) &&
                          forall j :: 0 <= j < i ==> Count(options[j], ':') == 1
    decreases |options|
  {
    if options != [] {
      var n := |options| - 1;
      TextOptionsOfOutcome(options[..n]);
      assert forall j :: 0 <= j < n ==> options[..n][j] == options[j];
      SplitPieces(options[n], ':');
    }
  }

  /** An empty setting gives no options. */
  lemma TextOptionsEmpty()
    ensures TextOptions("") == Ok(map[])
  {
  }

  /** A value read from a text option or a dictionary setting. */
  function AsOptionValues(m: map<string, string>): (r: map<string, OptionValue>)
    ensures r.Keys == m.Keys
    ensures forall k :: k in m ==> r[k] == StrValue(m[k])
  {
    map k | k in m :: StrValue(m[k])
  }

  /** The options that come from the create-options setting alone. */
  function BaseOptions(setting: CreateOptionsSetting): Result<map<string, OptionValue>, OptionsError>
  {
    match setting
    case TextSetting(text) =>
      (match TextOptions(text)
       case Ok(m) => Ok(AsOptionValues(m))
       case Err(e) => Err(e))
    case DictSetting(d) => Ok(d)
    case NoSetting => Ok(map[])
  }

  /** `[int(x) for x in devices.split(',')]`. */
  function ParseIntList(devices: string): Option<seq<int>>
  {
    ParseEach(ParseInt, Split(devices, ','))
  }

  /** `[parse(x) for x in xs]`, where one failing element makes the whole
      comprehension fail; otherwise element `i` of the result is what
      `parse` makes of `xs[i]`. */
  function ParseEach<T>(parse: string -> Option<T>, xs: seq<string>): (r: Option<seq<T>>)
    ensures r.None? <==> exists i :: 0 <= i < |xs| && parse(xs[i]).None?
    ensures r.Some? ==> |r.value| == |xs| && forall i :: 0 <= i < |xs| ==> parse(xs[i]) == Some(r.value[i])
    decreases |xs|
  {
    if xs == [] then Some([])
    else
      var rest := ParseEach(parse, xs[1..]);
      assert forall i :: 1 <= i < |xs| ==> xs[1..][i - 1] == xs[i];
      match (parse(xs[0]), rest)
      case (Some(v), Some(vs)) => Some([v] + vs)
      case (None, _) => None
      case (_, None) =>
        var j :| 0 <= j < |xs| - 1 && parse(xs[1..][j]).None?;
        assert parse(xs[j + 1]).None?;
        None
  }

  /** A list of texts each of which parses to the matching value parses to
      the list of those values. */
  lemma ParseEachPointwise<T>(parse: string -> Option<T>, xs: seq<string>, vs: seq<T>)
    requires |xs| == |vs|
    requires forall i :: 0 <= i < |xs| ==> parse(xs[i]) == Some(vs[i])
    ensures ParseEach(parse, xs) == Some(vs)
  {
    var r := ParseEach(parse, xs);
    assert r.Some?;
    assert r.value == vs;
  }

  function ShowInts(ns: seq<int>): (r: seq<string>)
    ensures |r| == |ns|
    ensures forall i :: 0 <= i < |ns| ==> r[i] == ShowInt(ns[i])
  {
    if ns == [] then [] else [ShowInt(ns[0])] + ShowInts(ns[1..])
  }

  lemma ParseShowInts(ns: seq<int>)
    ensures ParseEach(ParseInt, ShowInts(ns)) == Some(ns)
  {
    forall i | 0 <= i < |ns| ensures ParseInt(ShowInts(ns)[i]) == Some(ns[i]) {
      ParseShowInt(ns[i]);
    }
    ParseEachPointwise(ParseInt, ShowInts(ns), ns);
  }

  lemma ShowIntHasNoComma(n: int)
    ensures ',' !in ShowInt(n)
  {
    var s := ShowInt(n);
    if n < 0 {
      var d := ShowNat(-n);
      assert s == "-" + d;
      assert forall i :: 0 <= i < |s| ==> s[i] == '-' || IsDigit(s[i]) by {
        forall i | 0 <= i < |s| ensures s[i] == '-' || IsDigit(s[i]) {
          if i > 0 { assert s[i] == d[i - 1]; }
        }
      }
    }
  }

  /** Round trip: a non-empty list of device ids written as "i,j,k" parses
      back to the same list. */
  lemma DeviceListRoundTrip(ns: seq<int>)
    requires |ns| >= 1
    ensures ParseIntList(Join(ShowInts(ns), ',')) == Some(ns)
  {
    forall i | 0 <= i < |ns| ensures ',' !in ShowInts(ns)[i] {
      ShowIntHasNoComma(ns[i]);
    }
    SplitJoin(ShowInts(ns), ',');
    ParseShowInts(ns);
  }

  /** `get_num_nodes_from_gpu_topology`: the text is cut at its first two
      'x's; the number of nodes is slices times hosts per slice. The third
      part (devices per host) is not examined. */
  function GpuTopologyNodes(topology: string): Result<int, OptionsError>
  {
    match SplitOnce(topology, 'x')
    case None => Err(BadTopology(topology))
    case Some(first) =>
      match SplitOnce(first.1, 'x')
      case None => Err(BadTopology(topology))
      case Some(second) =>
        match (ParseInt(first.0), ParseInt(second.0))
        case (Some(slices), Some(hosts)) => Ok(slices * hosts)
        case _ => Err(BadTopology(topology))
  }

  /** The node count of a topology written out as "A x B x C" is A * B. */
  lemma GpuTopologyOfShown(slices: nat, hosts: nat, devices: nat)
    ensures GpuTopologyNodes(ShowInt(slices) + " x " + ShowInt(hosts) + " x " + ShowInt(devices))
            == Ok(slices * hosts)
  {
    var a, b, c := ShowInt(slices), ShowInt(hosts), ShowInt(devices);
    var t := a + " x " + b + " x " + c;
    NoLetterXInShownNat(slices);
    NoLetterXInShownNat(hosts);
    assert t == (a + " ") + ['x'] + (" " + b + " x " + c);
    var rest := " " + b + " x " + c;
    assert rest == (" " + b + " ") + ['x'] + (" " + c);
    assert 'x' !in a + " ";
    assert 'x' !in " " + b + " ";
    FirstCut(a + " ", 'x', rest);
    FirstCut(" " + b + " ", 'x', " " + c);
    ParseShowInt(slices);
    ParseShowInt(hosts);
    PaddedShowInt(slices);
    PaddedShowInt(hosts);
  }

  lemma NoLetterXInShownNat(n: nat)
    ensures 'x' !in ShowInt(n) && ShowInt(n) != []
    ensures !IsSpace(ShowInt(n)[0]) && !IsSpace(ShowInt(n)[|ShowInt(n)| - 1])
  {
    assert AllDigits(ShowInt(n));
  }

  /** Cutting `a + c + t` at its first `c`, when `a` holds none. */
  lemma {:induction false} FirstCut(a: string, c: char, t: string)
    requires c !in a
    ensures SplitOnce(a + [c] + t, c) == Some((a, t))
    decreases |a|
  {
    if a == [] {
      assert a + [c] + t == [c] + t;
      assert ([c] + t)[1..] == t;
    } else {
      assert (a + [c] + t)[1..] == a[1..] + [c] + t;
      FirstCut(a[1..], c, t);
      assert [a[0]] + a[1..] == a;
    }
  }

  /** A topology with a single 'x' (such as "2x4") is rejected. */
  lemma GpuTopologyNeedsTwoCuts(a: string, b: string)
    requires 'x' !in a && 'x' !in b
    ensures GpuTopologyNodes(a + "x" + b).Err?
  {
    FirstCut(a, 'x', b);
  }

  lemma PaddedShowInt(n: nat)
    ensures ParseInt(ShowInt(n) + " ") == Some(n)
    ensures ParseInt(" " + ShowInt(n) + " ") == Some(n)
  {
    var s := ShowInt(n);
    NoLetterXInShownNat(n);
    var p := s + " ";
    assert TrimLeft(p) == p;
    assert p[..|p| - 1] == s;
    assert TrimRight(p) == TrimRight(s) == s;
    var q := " " + s + " ";
    assert q[1..] == p;
    assert TrimLeft(q) == p;
    ParseShowInt(n);
    TrimNoSpace(s);
  }

  // ---- the whole of _options_from_jax_configs ----

  /** The settings the option builder reads, already resolved. */
  datatype OptionSettings = OptionSettings(
    createOptions: CreateOptionsSetting,
    cudaVisibleDevices: string,  // jax_cuda_visible_devices, "all" by default
    rocmVisibleDevices: string,  // jax_rocm_visible_devices, "all" by default
    mockGpuTopology: string,     // jax_mock_gpu_topology, "" turns mocking off
    mockNumGpuProcesses: int)    // mock_num_gpu_processes, 0 turns mocking off

  /** The option names the GPU builder may set itself. */
  const GpuKeys: set<string> := {"enable_mock_nccl", "num_nodes", "mock_gpu_topology", "visible_devices"}

  /** The four option names the GPU builder sets are distinct. */
  lemma GpuKeysDistinct()
    ensures "enable_mock_nccl" != "num_nodes" && "enable_mock_nccl" != "mock_gpu_topology"
    ensures "enable_mock_nccl" != "visible_devices" && "num_nodes" != "mock_gpu_topology"
    ensures "num_nodes" != "visible_devices" && "mock_gpu_topology" != "visible_devices"
  {
    assert "enable_mock_nccl"[0] == 'e' && "num_nodes"[0] == 'n';
    assert "mock_gpu_topology"[0] == 'm' && "visible_devices"[0] == 'v';
  }

  /** Option `k` of `r` is what `base` has under `k`, or absent in both. */
  predicate Keeps(r: map<string, OptionValue>, base: map<string, OptionValue>, k: string)
  {
    (k in r <==> k in base) && (k in base ==> r[k] == base[k])
  }

  /** The GPU options on top of `base`, once the device list (`ids`, absent
      for "all") and the node count `n` are known: the mock-NCCL flag is
      always set, the node count and the topology only when mocking is on,
      and every other option of `base` is kept. */
  function WithGpuOptions(base: map<string, OptionValue>, ids: Option<seq<int>>, n: int, topology: string)
    : (r: map<string, OptionValue>)
    ensures "enable_mock_nccl" in r && r["enable_mock_nccl"] == BoolValue(n > 0)
    ensures n > 0 ==> "num_nodes" in r && r["num_nodes"] == IntValue(n)
    ensures n > 0 && topology != "" ==> "mock_gpu_topology" in r && r["mock_gpu_topology"] == StrValue(topology)
    ensures ids.Some? ==> "visible_devices" in r && r["visible_devices"] == IntListValue(ids.value)
    ensures n <= 0 ==> Keeps(r, base, "num_nodes")
    ensures !(n > 0 && topology != "") ==> Keeps(r, base, "mock_gpu_topology")
    ensures ids.None? ==> Keeps(r, base, "visible_devices")
    ensures forall k :: k in base && k !in GpuKeys ==> k in r && r[k] == base[k]
    ensures forall k :: k in r ==> k in base || k in GpuKeys
  {
    GpuKeysDistinct();
    var withDevices := if ids.Some? then base["visible_devices" := IntListValue(ids.value)] else base;
    var withMock := withDevices["enable_mock_nccl" := BoolValue(n > 0)];
    var withNodes := if n > 0 then withMock["num_nodes" := IntValue(n)] else withMock;
    if n > 0 && topology != "" then withNodes["mock_gpu_topology" := StrValue(topology)] else withNodes
  }

  /** The options added for the two GPU plugins on top of `base`. */
  function GpuOptions(pluginName: string, s: OptionSettings, base: map<string, OptionValue>)
    : Result<map<string, OptionValue>, OptionsError>
    requires pluginName == "cuda" || pluginName == "rocm"
  {
    var visible := if pluginName == "cuda" then s.cudaVisibleDevices else s.rocmVisibleDevices;
    var devices := if visible != "all" then ParseIntList(visible) else Some([]);
    var processes := if s.mockGpuTopology != "" then GpuTopologyNodes(s.mockGpuTopology)
                     else Ok(s.mockNumGpuProcesses);
    if devices.None? then Err(BadVisibleDevices(visible))
    else if processes.Err? then Err(processes.error)
    else Ok(WithGpuOptions(base, if visible != "all" then devices else None, processes.value, s.mockGpuTopology))
  }

  /** What `_options_from_jax_configs(pluginName)` returns. */
  function ConfigOptions(pluginName: string, s: OptionSettings): Result<map<string, OptionValue>, OptionsError>
  {
    match BaseOptions(s.createOptions)
    case Err(e) => Err(e)
    case Ok(base) =>
      if pluginName == "cuda" || pluginName == "rocm" then GpuOptions(pluginName, s, base) else Ok(base)
  }

  /** The create-options part of `_options_from_jax_configs`: the text
      setting goes through the option-list loop, a dictionary is taken as it
      is, and no setting gives no options. */
  method CreateOptions(setting: CreateOptionsSetting) returns (r: Result<map<string, OptionValue>, OptionsError>)
    ensures r == BaseOptions(setting)
  {
    match setting {
      case TextSetting(text) =>
        var parsed := ParseTextOptions(text);
        if parsed.Err? {
          return Err(parsed.error);
        }
        return Ok(AsOptionValues(parsed.value));
      case DictSetting(d) =>
        return Ok(d);
      case NoSetting =>
        return Ok(map[]);
    }
  }

  /** `_options_from_jax_configs`: the create options, then the
      GPU-specific options. */
  method OptionsFromJaxConfigs(pluginName: string, s: OptionSettings)
    returns (r: Result<map<string, OptionValue>, OptionsError>)
    ensures r == ConfigOptions(pluginName, s)
  {
    var base := CreateOptions(s.createOptions);
    if base.Err? {
      return Err(base.error);
    }
    if pluginName == "cuda" || pluginName == "rocm" {
      r := GpuOptions(pluginName, s, base.value);
    } else {
      r := Ok(base.value);
    }
  }

  /** Plugins other than the two GPU ones get exactly the create options. */
  lemma NonGpuOptions(pluginName: string, s: OptionSettings)
    requires pluginName != "cuda" && pluginName != "rocm"
    ensures ConfigOptions(pluginName, s) == BaseOptions(s.createOptions)
  {
  }

  /** For a GPU plugin whose options build: the mock-NCCL flag is always set,
      the node count is present exactly when mocking is on, the device list is
      the parsed id list unless the setting is "all", and every other option
      comes from the create options unchanged. */
  lemma GpuOptionsContent(pluginName: string, s: OptionSettings)
    requires pluginName == "cuda" || pluginName == "rocm"
    requires ConfigOptions(pluginName, s).Ok?
    ensures var r := ConfigOptions(pluginName, s).value;
            var n := if s.mockGpuTopology != "" then GpuTopologyNodes(s.mockGpuTopology).value
                     else s.mockNumGpuProcesses;
            var visible := if pluginName == "cuda" then s.cudaVisibleDevices else s.rocmVisibleDevices;
            && r["enable_mock_nccl"] == BoolValue(n > 0)
            && (n > 0 ==> r["num_nodes"] == IntValue(n))
            && (n > 0 && s.mockGpuTopology != "" ==> r["mock_gpu_topology"] == StrValue(s.mockGpuTopology))
            && (visible != "all" ==> r["visible_devices"] == IntListValue(ParseIntList(visible).value))
            && (n <= 0 ==> Keeps(r, BaseOptions(s.createOptions).value, "num_nodes"))
            && (!(n > 0 && s.mockGpuTopology != "") ==> Keeps(r, BaseOptions(s.createOptions).value, "mock_gpu_topology"))
            && (visible == "all" ==> Keeps(r, BaseOptions(s.createOptions).value, "visible_devices"))
            && (forall k :: (k in BaseOptions(s.createOptions).value &&
                               k !in GpuKeys) ==>
                    k in r && r[k] == BaseOptions(s.createOptions).value[k])
  {
    var base := BaseOptions(s.createOptions).value;
    assert ConfigOptions(pluginName, s) == GpuOptions(pluginName, s, base);
  }

  /** A GPU device list that is not "all" and does not parse is an error. */
  lemma GpuOptionsBadDevices(pluginName: string, s: OptionSettings)
    requires pluginName == "cuda" || pluginName == "rocm"
    requires BaseOptions(s.createOptions).Ok?
    requires var v := if pluginName == "cuda" then s.cudaVisibleDevices else s.rocmVisibleDevices;
             v != "all" && ParseIntList(v).None?
    ensures ConfigOptions(pluginName, s).Err?
  {
  }
}
