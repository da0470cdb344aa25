/** Platform names, the alias table and its inversion
    (jax/_src/xla_bridge.py: `_platform_aliases`, `_alias_to_platforms`,
    `expand_platform_alias`, `canonicalize_platform`, `known_platforms`). */
module Platforms {
  import opened Wrappers

  /** The plugins that are not flagged experimental when they register. */
  const NonExperimentalPlugins: set<string> := {"cuda", "rocm"}

  /** The experimental plugins known to the code base. */
  const ExperimentalPlugins: set<string> := {"METAL"}

  /** `_platform_aliases` in its insertion order: concrete platform, alias. */
  const PlatformAliases: seq<(string, string)> := [("cuda", "gpu"), ("rocm", "gpu")]

  /** The concrete platforms of `alias`, in table order. */
  function PlatformsOf(pairs: seq<(string, string)>, alias: string): (r: seq<string>)
    ensures forall q :: q in r <==> exists i :: 0 <= i < |pairs| && pairs[i] == (q, alias)
    ensures (forall i :: 0 <= i < |pairs| ==> pairs[i].1 != alias) ==> r == []
    decreases |pairs|
  {
    if pairs == [] then []
    else
      var n := |pairs| - 1;
      var init := PlatformsOf(pairs[..n], alias);
      assert forall i :: 0 <= i < n ==> pairs[..n][i] == pairs[i];
      if pairs[n].1 == alias then init + [pairs[n].0] else init
  }

  /** The inversion of the alias table, one `setdefault(alias, []).append(p)`
      per entry. */
  function Invert(pairs: seq<(string, string)>): map<string, seq<string>>
    decreases |pairs|
  {
    if pairs == [] then map[]
    else
      var n := |pairs| - 1;
      var m := Invert(pairs[..n]);
      var alias := pairs[n].1;
      m[alias := (if alias in m then m[alias] else []) + [pairs[n].0]]
  }

  /** The inverted table has one key per alias, and each alias maps to its
      concrete platforms in the order the table lists them. */
  lemma {:induction false} InvertIsGrouping(pairs: seq<(string, string)>)
    ensures forall a :: a in Invert(pairs) <==> exists i :: 0 <= i < |pairs| && pairs[i].1 == a
    ensures forall a :: a in Invert(pairs) ==> Invert(pairs)[a] == PlatformsOf(pairs, a) && Invert(pairs)[a] != []
    decreases |pairs|
  {
    if pairs != [] {
      var n := |pairs| - 1;
      InvertIsGrouping(pairs[..n]);
      assert forall i :: 0 <= i < n ==> pairs[..n][i] == pairs[i];
      forall a | a in Invert(pairs[..n]) && a != pairs[n].1
        ensures PlatformsOf(pairs, a) == PlatformsOf(pairs[..n], a)
      {
      }
      var alias := pairs[n].1;
    }
  }

  /** The loop that builds `_alias_to_platforms` when the module loads. */
  method InvertPlatformAliases(pairs: seq<(string, string)>) returns (m: map<string, seq<string>>)
    ensures m == Invert(pairs)
  {
    m := map[];
    for i := 0 to |pairs|
      invariant m == Invert(pairs[..i])
    {
      assert pairs[..i + 1][..i] == pairs[..i];
      var (platform, alias) := pairs[i];
      var group := if alias in m then m[alias] else [];
      m := m[alias := group + [platform]];
    }
    assert pairs[..|pairs|] == pairs;
  }

  /** `_alias_to_platforms`. */
  function AliasToPlatforms(): map<string, seq<string>>
  {
    Invert(PlatformAliases)
  }

  /** The inversion of the built-in table maps "gpu" to ["cuda", "rocm"] and
      has no other key. */
  lemma AliasTable()
    ensures AliasToPlatforms() == map["gpu" := ["cuda", "rocm"]]
  {
    var first: seq<(string, string)> := [("cuda", "gpu")];
    assert first[..0] == [];
    assert [] + ["cuda"] == ["cuda"];
    assert Invert(first) == map["gpu" := ["cuda"]];
    assert PlatformAliases[..1] == first;
    assert ["cuda"] + ["rocm"] == ["cuda", "rocm"];
  }

  predicate IsAlias(platform: string)
  {
    platform in AliasToPlatforms()
  }

  /** `expand_platform_alias`. */
  function ExpandAlias(platform: string): (r: seq<string>)
    ensures |r| >= 1
  {
    if platform in AliasToPlatforms() then
      InvertIsGrouping(PlatformAliases);
      AliasToPlatforms()[platform]
    else [platform]
  }

  /** An alias expands to every concrete platform the table lists for it, in
      table order; any other name expands to itself. */
  lemma ExpandAliasMeaning(platform: string)
    ensures IsAlias(platform) ==> ExpandAlias(platform) == PlatformsOf(PlatformAliases, platform)
    ensures !IsAlias(platform) ==> ExpandAlias(platform) == [platform]
    ensures platform == "gpu" ==> ExpandAlias(platform) == ["cuda", "rocm"]
  {
    InvertIsGrouping(PlatformAliases);
    AliasTable();
  }

  datatype CanonicalizeError = NoPlatformForAlias(alias: string, present: set<string>)

  /** The first of `candidates` that is in `present`. */
  function FirstPresent(candidates: seq<string>, present: set<string>): (r: Option<string>)
    ensures r.None? <==> forall i :: 0 <= i < |candidates| ==> candidates[i] !in present
    ensures r.Some? ==> exists i :: 0 <= i < |candidates| && candidates[i] == r.value && r.value in present &&
                                    forall j :: 0 <= j < i ==> candidates[j] !in present
    decreases |candidates|
  {
    if candidates == [] then None
    else if candidates[0] in present then Some(candidates[0])
    else
      var r := FirstPresent(candidates[1..], present);
      assert forall i :: 1 <= i < |candidates| ==> candidates[1..][i - 1] == candidates[i];
      r
  }

  /** `canonicalize_platform` once the live cache is known: `present` is the
      set of platforms that have a live backend. */
  function Canonicalize(platform: string, present: set<string>): (r: Result<string, CanonicalizeError>)
    ensures !IsAlias(platform) ==> r == Ok(platform)
    ensures IsAlias(platform) && r.Ok? ==>
              r.value in present &&
              exists i :: 0 <= i < |ExpandAlias(platform)| && ExpandAlias(platform)[i] == r.value &&
                          forall j :: 0 <= j < i ==> ExpandAlias(platform)[j] !in present
    ensures IsAlias(platform) ==>
              (r.Err? <==> forall q :: q in ExpandAlias(platform) ==> q !in present)
    ensures r.Err? ==> r.error == NoPlatformForAlias(platform, present)
  {
    if !IsAlias(platform) then Ok(platform)
    else
      match FirstPresent(ExpandAlias(platform), present)
      case Some(q) => Ok(q)
      case None => Err(NoPlatformForAlias(platform, present))
  }

  /** "gpu" resolves to "cuda" whenever a CUDA backend is live, to "rocm" when
      only a ROCm backend is, and fails when neither is. */
  lemma CanonicalizeGpu(present: set<string>)
    ensures "cuda" in present ==> Canonicalize("gpu", present) == Ok("cuda")
    ensures "cuda" !in present && "rocm" in present ==> Canonicalize("gpu", present) == Ok("rocm")
    ensures "cuda" !in present && "rocm" !in present ==> Canonicalize("gpu", present).Err?
  {
    ExpandAliasMeaning("gpu");
  }

  /** `known_platforms()`, given the names that have a registration. */
  function KnownPlatforms(registered: set<string>): (r: set<string>)
    ensures registered <= r && NonExperimentalPlugins <= r && ExperimentalPlugins <= r
    ensures forall a :: IsAlias(a) ==> a in r
    ensures forall p :: p in r ==> p in registered || p in NonExperimentalPlugins || p in ExperimentalPlugins || IsAlias(p)
  {
    AliasTable();
    NonExperimentalPlugins + ExperimentalPlugins + registered + (set i | 0 <= i < |PlatformAliases| :: PlatformAliases[i].1)
  }

  /** `is_known_platform`. */
  predicate IsKnownPlatform(platform: string, registered: set<string>)
  {
    platform in KnownPlatforms(registered)
  }

  /** Every platform a known name expands to is itself known. */
  lemma ExpansionsAreKnown(platform: string, registered: set<string>)
    requires IsKnownPlatform(platform, registered)
    ensures forall q :: q in ExpandAlias(platform) ==> IsKnownPlatform(q, registered)
  {
    ExpandAliasMeaning(platform);
    AliasTable();
  }
}
