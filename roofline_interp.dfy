/** The roofline interpreter (jax/experimental/roofline/roofline.py): the rule
    table with `register_roofline` and `register_standard_roofline`, and
    `_roofline_interpreter`'s loop over the equations of a jaxpr, which sums
    the rules' costs and tracks the bytes live in HBM and their peak. */
module RooflineInterp {
  import opened Wrappers
  import opened Roofline

  type VarId = nat
  type Primitive = string

  /** A jaxpr variable: its identity and its abstract value. */
  datatype Var = Var(id: VarId, aval: Aval)

  /** An equation operand: a variable or a literal. */
  datatype Atom = VarAtom(v: Var) | Literal(aval: Aval)

  /** Why the interpreter raised. */
  datatype InterpError =
    | NoRule(primitive: Primitive)       // NotImplementedError
    | BadAval(error: ShapeError)         // TypeError from `from_aval`
    | UnboundVar(id: VarId)              // KeyError reading `env`
    | RuleRaised(primitive: Primitive, message: string)  // raised by a rule

  /** An equation's "jaxpr" or "call_jaxpr" parameter, represented by the
      outcome of interpreting it. */
  datatype Nested = NoNested | Nested(outcome: Result<RooflineResult, InterpError>)

  datatype Eqn = Eqn(primitive: Primitive, invars: seq<Atom>, outvars: seq<Var>, nested: Nested)

  datatype Jaxpr = Jaxpr(constvars: seq<Var>, invars: seq<Var>, outvars: seq<Atom>, eqns: seq<Eqn>)

  /** A registered rule: the one `register_standard_roofline` installs, or a
      rule of the caller's, identified by a number. */
  datatype Rule = StandardRule | CustomRule(id: nat)

  /** What the caller's rules compute, given the equation and its operands:
      a cost, or the message of the exception the rule raises. */
  type CustomRules = (nat, Eqn, seq<RooflineShape>) -> Result<RooflineResult, string>

  /** Calling a rule: the standard one costs nothing; a caller's rule gives
      its cost, or raises, and the exception names the equation's primitive. */
  function ApplyRule(rule: Rule, custom: CustomRules, eqn: Eqn, args: seq<RooflineShape>): (r: Result<RooflineResult, InterpError>)
    ensures rule.StandardRule? ==> r == Ok(Zeros())
    ensures rule.CustomRule? ==> (r.Ok? <==> custom(rule.id, eqn, args).Ok?)
    ensures rule.CustomRule? && r.Ok? ==> r.value == custom(rule.id, eqn, args).value
    ensures rule.CustomRule? && r.Err? ==> r.error == RuleRaised(eqn.primitive, custom(rule.id, eqn, args).error)
  {
    match rule
    case StandardRule => Ok(Zeros())
    case CustomRule(id) =>
      match custom(id, eqn, args)
      case Ok(cost) => Ok(cost)
      case Err(message) => Err(RuleRaised(eqn.primitive, message))
  }

  // ---------------------------------------------------------------------
  // Variables and the environment
  // ---------------------------------------------------------------------

  function Ids(vars: seq<Var>): seq<VarId>
  {
    seq(|vars|, i requires 0 <= i < |vars| => vars[i].id)
  }

  function Avals(vars: seq<Var>): seq<Aval>
  {
    seq(|vars|, i requires 0 <= i < |vars| => vars[i].aval)
  }

  /** The variables among `atoms`. */
  function VarIds(atoms: seq<Atom>): set<VarId>
    decreases |atoms|
  {
    if atoms == [] then {}
    else
      var n := |atoms| - 1;
      VarIds(atoms[..n]) + (if atoms[n].VarAtom? then {atoms[n].v.id} else {})
  }

  lemma {:induction false} VarIdsMeaning(atoms: seq<Atom>)
    ensures forall id :: id in VarIds(atoms) <==> exists j :: 0 <= j < |atoms| && atoms[j].VarAtom? && atoms[j].v.id == id
    decreases |atoms|
  {
    if atoms != [] {
      var n := |atoms| - 1;
      VarIdsMeaning(atoms[..n]);
      assert forall j :: 0 <= j < n ==> atoms[..n][j] == atoms[j];
    }
  }

  predicate Distinct(s: seq<VarId>)
  {
    forall i, j :: 0 <= i < j < |s| ==> s[i] != s[j]
  }

  /** `foreach(write, vars, shapes)`: later writes win. */
  function WriteAll(env: map<VarId, RooflineShape>, vars: seq<Var>, shapes: seq<RooflineShape>): map<VarId, RooflineShape>
    requires |vars| == |shapes|
    decreases |vars|
  {
    if vars == [] then env
    else
      var n := |vars| - 1;
      WriteAll(env, vars[..n], shapes[..n])[vars[n].id := shapes[n]]
  }

  /** Writing binds exactly the written variables besides those already
      bound. */
  lemma {:induction false} WriteAllKeys(env: map<VarId, RooflineShape>, vars: seq<Var>, shapes: seq<RooflineShape>)
    requires |vars| == |shapes|
    ensures WriteAll(env, vars, shapes).Keys == env.Keys + set v | v in vars :: v.id
    decreases |vars|
  {
    if vars != [] {
      var n := |vars| - 1;
      WriteAllKeys(env, vars[..n], shapes[..n]);
      assert vars == vars[..n] + [vars[n]];
    }
  }

  /** Each written variable is bound to the last shape written for it. */
  lemma {:induction false} WriteAllLast(env: map<VarId, RooflineShape>, vars: seq<Var>, shapes: seq<RooflineShape>, j: nat)
    requires |vars| == |shapes| && j < |vars|
    requires forall k :: j < k < |vars| ==> vars[k].id != vars[j].id
    ensures vars[j].id in WriteAll(env, vars, shapes) && WriteAll(env, vars, shapes)[vars[j].id] == shapes[j]
    decreases |vars|
  {
    var n := |vars| - 1;
    if j < n {
      WriteAllLast(env, vars[..n], shapes[..n], j);
    }
  }

  /** A variable that is not written keeps its binding. */
  lemma {:induction false} WriteAllKeeps(env: map<VarId, RooflineShape>, vars: seq<Var>, shapes: seq<RooflineShape>, id: VarId)
    requires |vars| == |shapes| && id in env
    requires forall k :: 0 <= k < |vars| ==> vars[k].id != id
    ensures id in WriteAll(env, vars, shapes) && WriteAll(env, vars, shapes)[id] == env[id]
    decreases |vars|
  {
    if vars != [] {
      var n := |vars| - 1;
      WriteAllKeeps(env, vars[..n], shapes[..n], id);
    }
  }

  /** The bytes held by an environment: `sum_bytes(env.values())`. */
  ghost function MapBytes(env: map<VarId, RooflineShape>): nat
    decreases |env|
  {
    if env == map[] then 0
    else
      var k :| k in env;
      Bytes(env[k]) + MapBytes(env - {k})
  }

  /** Any entry may be taken out of the sum first. */
  lemma {:induction false} MapBytesRemove(env: map<VarId, RooflineShape>, k: VarId)
    requires k in env
    ensures MapBytes(env) == Bytes(env[k]) + MapBytes(env - {k})
    decreases |env|
  {
    var j :| j in env && MapBytes(env) == Bytes(env[j]) + MapBytes(env - {j});
    if j != k {
      MapBytesRemove(env - {j}, k);
      MapBytesRemove(env - {k}, j);
      assert env - {j} - {k} == env - {k} - {j};
    }
  }

  /** Binding fresh variables adds exactly their bytes. */
  lemma {:induction false} WriteAllFresh(env: map<VarId, RooflineShape>, vars: seq<Var>, shapes: seq<RooflineShape>)
    requires |vars| == |shapes| && Distinct(Ids(vars))
    requires forall i :: 0 <= i < |vars| ==> vars[i].id !in env
    ensures MapBytes(WriteAll(env, vars, shapes)) == MapBytes(env) + SumBytes(shapes)
    decreases |vars|
  {
    if vars != [] {
      var n := |vars| - 1;
      var vs, ss := vars[..n], shapes[..n];
      var id := vars[n].id;
      assert Ids(vs) == Ids(vars)[..n];
      WriteAllFresh(env, vs, ss);
      var prefix := WriteAll(env, vs, ss);
      assert id !in prefix by {
        WriteAllKeys(env, vs, ss);
        forall i | 0 <= i < n ensures vs[i].id != id {
          assert vs[i].id == Ids(vars)[i] && id == Ids(vars)[n];
        }
      }
      MapBytesRemove(prefix[id := shapes[n]], id);
      assert prefix[id := shapes[n]] - {id} == prefix;
    }
  }

  /** The sum `current_hbm_bytes` starts from, computed by visiting the
      entries one at a time. */
  method SumValues(env: map<VarId, RooflineShape>) returns (total: nat)
    ensures total == MapBytes(env)
  {
    total := 0;
    var rest := env;
    while rest != map[]
      invariant total + MapBytes(rest) == MapBytes(env)
      decreases |rest|
    {
      var k :| k in rest;
      MapBytesRemove(rest, k);
      total := total + Bytes(rest[k]);
      rest := rest - {k};
    }
  }

  // ---------------------------------------------------------------------
  // Reading operands, last uses and dead variables
  // ---------------------------------------------------------------------

  /** `map(read, atoms)`: a literal's shape comes from its value, a
      variable's from the environment. */
  function ReadAll(env: map<VarId, RooflineShape>, atoms: seq<Atom>): Result<seq<RooflineShape>, InterpError>
    decreases |atoms|
  {
    if atoms == [] then Ok([])
    else
      var n := |atoms| - 1;
      match ReadAll(env, atoms[..n])
      case Err(e) => Err(e)
      case Ok(prefix) =>
        match atoms[n]
        case Literal(aval) =>
          (match FromAval(aval)
           case Err(e) => Err(BadAval(e))
           case Ok(s) => Ok(prefix + [s]))
        case VarAtom(v) =>
          if v.id in env then Ok(prefix + [env[v.id]]) else Err(UnboundVar(v.id))
  }

  /** Reading succeeds exactly when every variable operand is bound and
      every literal has a shape; it then gives one shape per operand, a
      variable's being the one bound to it. */
  lemma {:induction false} ReadAllMeaning(env: map<VarId, RooflineShape>, atoms: seq<Atom>)
    ensures ReadAll(env, atoms).Ok? <==>
              forall j :: 0 <= j < |atoms| ==>
                (if atoms[j].VarAtom? then atoms[j].v.id in env else FromAval(atoms[j].aval).Ok?)
    ensures ReadAll(env, atoms).Ok? ==>
              |ReadAll(env, atoms).value| == |atoms| &&
              forall j :: 0 <= j < |atoms| ==>
                ReadAll(env, atoms).value[j] ==
                  (if atoms[j].VarAtom? then env[atoms[j].v.id] else FromAval(atoms[j].aval).value)
    decreases |atoms|
  {
    if atoms != [] {
      var n := |atoms| - 1;
      ReadAllMeaning(env, atoms[..n]);
      assert forall j :: 0 <= j < n ==> atoms[..n][j] == atoms[j];
    }
  }

  /** The last equation before index `n` that reads `id`. */
  function LastReader(eqns: seq<Eqn>, id: VarId, n: nat): (r: Option<nat>)
    requires n <= |eqns|
    ensures r.Some? ==> r.value < n && id in VarIds(eqns[r.value].invars) &&
                        forall j :: r.value < j < n ==> id !in VarIds(eqns[j].invars)
    ensures r.None? ==> forall j :: 0 <= j < n ==> id !in VarIds(eqns[j].invars)
    decreases n
  {
    if n == 0 then None
    else if id in VarIds(eqns[n - 1].invars) then Some(n - 1)
    else LastReader(eqns, id, n - 1)
  }

  /** `core.last_used(jaxpr)[id]`: the last equation reading the variable,
      or None for an output of the jaxpr, which is never freed. */
  function LastUse(jaxpr: Jaxpr, id: VarId): Option<nat>
  {
    if id in VarIds(jaxpr.outvars) then None else LastReader(jaxpr.eqns, id, |jaxpr.eqns|)
  }

  /** The variables read by equation `i` or a later one. */
  function ReadFrom(jaxpr: Jaxpr, i: nat): set<VarId>
    requires i <= |jaxpr.eqns|
    decreases |jaxpr.eqns| - i
  {
    if i == |jaxpr.eqns| then {} else VarIds(jaxpr.eqns[i].invars) + ReadFrom(jaxpr, i + 1)
  }

  lemma {:induction false} ReadFromMeaning(jaxpr: Jaxpr, i: nat, id: VarId)
    requires i <= |jaxpr.eqns|
    ensures id in ReadFrom(jaxpr, i) <==> exists j :: i <= j < |jaxpr.eqns| && id in VarIds(jaxpr.eqns[j].invars)
    decreases |jaxpr.eqns| - i
  {
    if i < |jaxpr.eqns| {
      ReadFromMeaning(jaxpr, i + 1, id);
    }
  }

  /** The variables equation `i` reads for the last time: read by it, not
      an output of the jaxpr, and read by no later equation. */
  function Dying(jaxpr: Jaxpr, i: nat): (r: set<VarId>)
    requires i < |jaxpr.eqns|
    ensures r <= VarIds(jaxpr.eqns[i].invars)
  {
    VarIds(jaxpr.eqns[i].invars) - VarIds(jaxpr.outvars) - ReadFrom(jaxpr, i + 1)
  }

  /** A variable dies at equation `i` exactly when `core.last_used` maps it
      to that equation. */
  lemma DyingIsLastUse(jaxpr: Jaxpr, i: nat, id: VarId)
    requires i < |jaxpr.eqns|
    ensures id in Dying(jaxpr, i) <==> id in VarIds(jaxpr.eqns[i].invars) && LastUse(jaxpr, id) == Some(i)
  {
    ReadFromMeaning(jaxpr, i + 1, id);
  }

  /** `[env[v] for v in atoms if v is a variable in dies]`, in order and with
      repetitions. */
  function Removed(env: map<VarId, RooflineShape>, atoms: seq<Atom>, dies: set<VarId>): Result<seq<RooflineShape>, InterpError>
    decreases |atoms|
  {
    if atoms == [] then Ok([])
    else
      var n := |atoms| - 1;
      match Removed(env, atoms[..n], dies)
      case Err(e) => Err(e)
      case Ok(prefix) =>
        if atoms[n].VarAtom? && atoms[n].v.id in dies then
          if atoms[n].v.id in env then Ok(prefix + [env[atoms[n].v.id]]) else Err(UnboundVar(atoms[n].v.id))
        else Ok(prefix)
  }

  /** The variables of `atoms`, each once, in order of first occurrence. */
  function DistinctVars(atoms: seq<Atom>): seq<Atom>
    decreases |atoms|
  {
    if atoms == [] then []
    else
      var n := |atoms| - 1;
      var prefix := DistinctVars(atoms[..n]);
      if atoms[n].VarAtom? && atoms[n].v.id !in VarIds(prefix) then prefix + [atoms[n]] else prefix
  }

  /** Deduplication keeps only variables, each taken from `atoms`. */
  lemma {:induction false} DistinctVarsFrom(atoms: seq<Atom>)
    ensures forall j :: 0 <= j < |DistinctVars(atoms)| ==>
              DistinctVars(atoms)[j].VarAtom? && DistinctVars(atoms)[j] in atoms
    decreases |atoms|
  {
    if atoms != [] {
      var n := |atoms| - 1;
      DistinctVarsFrom(atoms[..n]);
      var prefix := DistinctVars(atoms[..n]);
      assert forall j :: 0 <= j < |prefix| ==> prefix[j] in atoms[..n] ==> prefix[j] in atoms;
    }
  }

  /** Deduplication keeps every variable of `atoms`, once each, and nothing
      else. */
  lemma {:induction false} DistinctVarsMeaning(atoms: seq<Atom>)
    ensures forall j :: 0 <= j < |DistinctVars(atoms)| ==> DistinctVars(atoms)[j].VarAtom?
    ensures forall j, k :: 0 <= j < k < |DistinctVars(atoms)| ==> DistinctVars(atoms)[j].v.id != DistinctVars(atoms)[k].v.id
    ensures VarIds(DistinctVars(atoms)) == VarIds(atoms)
    ensures forall j :: 0 <= j < |DistinctVars(atoms)| ==> DistinctVars(atoms)[j] in atoms
    decreases |atoms|
  {
    DistinctVarsFrom(atoms);
    if atoms != [] {
      var n := |atoms| - 1;
      DistinctVarsMeaning(atoms[..n]);
      var prefix := DistinctVars(atoms[..n]);
      assert forall j :: 0 <= j < n ==> atoms[..n][j] == atoms[j];
      VarIdsMeaning(prefix);
      assert (prefix + [atoms[n]])[..|prefix|] == prefix;
    }
  }

  /** Freeing distinct variables gives back exactly the bytes they held. */
  lemma {:induction false} RemovedDistinct(env: map<VarId, RooflineShape>, atoms: seq<Atom>, dies: set<VarId>)
    requires forall j :: 0 <= j < |atoms| ==> atoms[j].VarAtom?
    requires forall j, k :: 0 <= j < k < |atoms| ==> atoms[j].v.id != atoms[k].v.id
    requires Removed(env, atoms, dies).Ok?
    ensures VarIds(atoms) * dies <= env.Keys
    ensures SumBytes(Removed(env, atoms, dies).value) + MapBytes(env - (VarIds(atoms) * dies)) == MapBytes(env)
    decreases |atoms|
  {
    if atoms == [] {
      assert env - (VarIds(atoms) * dies) == env;
    } else {
      var n := |atoms| - 1;
      assert forall j :: 0 <= j < n ==> atoms[..n][j] == atoms[j];
      RemovedDistinct(env, atoms[..n], dies);
      var before := VarIds(atoms[..n]) * dies;
      var id := atoms[n].v.id;
      assert VarIds(atoms) == VarIds(atoms[..n]) + {id};
      if id in dies {
        VarIdsMeaning(atoms[..n]);
        assert id !in before;
        assert VarIds(atoms) * dies == before + {id};
        MapBytesRemove(env - before, id);
        assert env - before - {id} == env - (VarIds(atoms) * dies);
        SumBytesAppend(Removed(env, atoms[..n], dies).value, [env[id]]);
      } else {
        assert VarIds(atoms) * dies == before;
      }
    }
  }

  // ---------------------------------------------------------------------
  // One equation
  // ---------------------------------------------------------------------

  /** The state of the loop: `env`, `current_hbm_bytes`, `peak_hbm_bytes`
      and `result`. */
  datatype InterpState = InterpState(env: map<VarId, RooflineShape>, current: int, peak: int, result: RooflineResult)

  /** How the bytes of dying inputs are subtracted: once per operand that
      names them, or once per variable. */
  datatype Removal = PerOccurrence | PerVariable

  /** The operands whose bytes are subtracted when they die. */
  function Operands(mode: Removal, atoms: seq<Atom>): seq<Atom>
  {
    match mode
    case PerOccurrence => atoms
    case PerVariable => DistinctVars(atoms)
  }

  /** The cost of equation `eqn`: the nested jaxpr's result, or the rule of
      its primitive applied to its operands. */
  function EqnCost(rules: map<Primitive, Rule>, custom: CustomRules, env: map<VarId, RooflineShape>, eqn: Eqn)
    : Result<RooflineResult, InterpError>
  {
    match eqn.nested
    case Nested(outcome) => outcome
    case NoNested =>
      if eqn.primitive !in rules then Err(NoRule(eqn.primitive))
      else
        match ReadAll(env, eqn.invars)
        case Err(e) => Err(e)
        case Ok(args) => ApplyRule(rules[eqn.primitive], custom, eqn, args)
  }

  /** The rest of an iteration once the equation's cost is known: bind the
      outputs, then free the inputs used for the last time. */
  function Advance(mode: Removal, jaxpr: Jaxpr, i: nat, st: InterpState, cost: RooflineResult)
    : (r: Result<InterpState, InterpError>)
    requires i < |jaxpr.eqns|
    ensures r.Ok? ==> r.value.peak == Max(st.peak, r.value.current) && r.value.result == Add(st.result, cost)
  {
    var eqn := jaxpr.eqns[i];
    match ShapesOf(Avals(eqn.outvars))
    case Err(e) => Err(BadAval(e))
    case Ok(outShapes) =>
      var env1 := WriteAll(st.env, eqn.outvars, outShapes);
      var current1 := st.current + SumBytes(outShapes);
      var dies := Dying(jaxpr, i);
      match Removed(env1, Operands(mode, eqn.invars), dies)
      case Err(e) => Err(e)
      case Ok(removed) =>
        var current2 := current1 - SumBytes(removed);
        Ok(InterpState(env1 - dies, current2, Max(st.peak, current2), Add(st.result, cost)))
  }

  /** One iteration of the loop over the equations. */
  function Step(rules: map<Primitive, Rule>, custom: CustomRules, mode: Removal, jaxpr: Jaxpr, i: nat, st: InterpState)
    : (r: Result<InterpState, InterpError>)
    requires i < |jaxpr.eqns|
    ensures r.Ok? ==> r.value.peak == Max(st.peak, r.value.current)
    ensures r.Ok? ==> EqnCost(rules, custom, st.env, jaxpr.eqns[i]).Ok? &&
                      r.value.result == Add(st.result, EqnCost(rules, custom, st.env, jaxpr.eqns[i]).value)
  {
    match EqnCost(rules, custom, st.env, jaxpr.eqns[i])
    case Err(e) => Err(e)
    case Ok(cost) => Advance(mode, jaxpr, i, st, cost)
  }

  /** What one iteration of the loop does to the state at equation `i`. */
  type StepFn = (nat, InterpState) -> Result<InterpState, InterpError>

  /** `n` iterations of `step` from `st`, stopping at the first error. */
  function Fold(step: StepFn, n: nat, st: InterpState): Result<InterpState, InterpError>
    decreases n
  {
    if n == 0 then Ok(st)
    else
      match Fold(step, n - 1, st)
      case Err(e) => Err(e)
      case Ok(s) => step(n - 1, s)
  }

  /** The loop body over the equations of `jaxpr`; past the last equation
      it changes nothing. */
  function StepOf(rules: map<Primitive, Rule>, custom: CustomRules, mode: Removal, jaxpr: Jaxpr): StepFn
  {
    (i: nat, st: InterpState) => if i < |jaxpr.eqns| then Step(rules, custom, mode, jaxpr, i, st) else Ok(st)
  }

  /** The first `n` iterations over the equations, from `st`. */
  function Run(rules: map<Primitive, Rule>, custom: CustomRules, mode: Removal, jaxpr: Jaxpr, n: nat, st: InterpState)
    : Result<InterpState, InterpError>
  {
    Fold(StepOf(rules, custom, mode, jaxpr), n, st)
  }

  /** One more iteration applies the step to where the run stood. */
  lemma RunNext(rules: map<Primitive, Rule>, custom: CustomRules, mode: Removal, jaxpr: Jaxpr, i: nat, st: InterpState)
    requires i < |jaxpr.eqns| && Run(rules, custom, mode, jaxpr, i, st).Ok?
    ensures Run(rules, custom, mode, jaxpr, i + 1, st) == Step(rules, custom, mode, jaxpr, i, Run(rules, custom, mode, jaxpr, i, st).value)
  {
  }

  /** A property that every iteration keeps holds after any number of
      them. */
  lemma {:induction false} FoldKeeps(step: StepFn, inv: (nat, InterpState) -> bool, n: nat, st: InterpState)
    requires inv(0, st)
    requires forall i: nat, s: InterpState :: i < n && inv(i, s) && step(i, s).Ok? ==> inv(i + 1, step(i, s).value)
    requires Fold(step, n, st).Ok?
    ensures inv(n, Fold(step, n, st).value)
    decreases n
  {
    if n > 0 {
      FoldKeeps(step, inv, n - 1, st);
    }
  }

  /** When no iteration lowers the peak, no later state has a lower peak
      than an earlier one. */
  lemma {:induction false} FoldPeakMonotone(step: StepFn, k: nat, n: nat, st: InterpState)
    requires forall i: nat, s: InterpState :: step(i, s).Ok? ==> step(i, s).value.peak >= s.peak
    requires k <= n && Fold(step, n, st).Ok?
    ensures Fold(step, k, st).Ok? && Fold(step, k, st).value.peak <= Fold(step, n, st).value.peak
    decreases n
  {
    if k < n {
      FoldPeakMonotone(step, k, n - 1, st);
    }
  }

  /** An error ends the loop: every longer run fails with it. */
  lemma {:induction false} FoldErrorSticks(step: StepFn, k: nat, n: nat, st: InterpState)
    requires k <= n && Fold(step, k, st).Err?
    ensures Fold(step, n, st) == Fold(step, k, st)
    decreases n
  {
    if k < n {
      FoldErrorSticks(step, k, n - 1, st);
    }
  }

  /** An error ends the run over the equations: every longer run fails
      with it. */
  lemma RunErrorSticks(rules: map<Primitive, Rule>, custom: CustomRules, mode: Removal, jaxpr: Jaxpr,
                       k: nat, n: nat, st: InterpState)
    requires k <= n && Run(rules, custom, mode, jaxpr, k, st).Err?
    ensures Run(rules, custom, mode, jaxpr, n, st) == Run(rules, custom, mode, jaxpr, k, st)
  {
    FoldErrorSticks(StepOf(rules, custom, mode, jaxpr), k, n, st);
  }

  /** The constant and input variables, in the order they are written. */
  function Binders(jaxpr: Jaxpr): seq<Var>
  {
    jaxpr.constvars + jaxpr.invars
  }

  /** The state before the first equation: the binders' shapes written to
      `env`, and the live bytes and the peak both at the sum over `env`. */
  ghost function Start(jaxpr: Jaxpr): Result<InterpState, InterpError>
  {
    match ShapesOf(Avals(Binders(jaxpr)))
    case Err(e) => Err(BadAval(e))
    case Ok(shapes) =>
      var env := WriteAll(map[], Binders(jaxpr), shapes);
      Ok(InterpState(env, MapBytes(env), MapBytes(env), Zeros()))
  }

  /** `_roofline_interpreter(jaxpr)`: the summed costs, with the peak of the
      live bytes folded into `peak_hbm_bytes`. */
  ghost function Interpretation(rules: map<Primitive, Rule>, custom: CustomRules, mode: Removal, jaxpr: Jaxpr)
    : Result<RooflineResult, InterpError>
  {
    match Start(jaxpr)
    case Err(e) => Err(e)
    case Ok(s0) =>
      match Run(rules, custom, mode, jaxpr, |jaxpr.eqns|, s0)
      case Err(e) => Err(e)
      case Ok(st) => Ok(Add(st.result, PeakOnly(st.peak)))
  }

  // ---------------------------------------------------------------------
  // Properties of the loop
  // ---------------------------------------------------------------------

  /** The peak never drops below the live bytes, nor below where it
      started. */
  lemma RunPeak(rules: map<Primitive, Rule>, custom: CustomRules, mode: Removal, jaxpr: Jaxpr, n: nat, st: InterpState)
    requires Run(rules, custom, mode, jaxpr, n, st).Ok? && st.peak >= st.current
    ensures Run(rules, custom, mode, jaxpr, n, st).value.peak >= st.peak
    ensures Run(rules, custom, mode, jaxpr, n, st).value.peak >= Run(rules, custom, mode, jaxpr, n, st).value.current
  {
    var step := StepOf(rules, custom, mode, jaxpr);
    var inv := (i: nat, s: InterpState) => s.peak >= st.peak && s.peak >= s.current;
    forall i: nat, s: InterpState | i < n && inv(i, s) && step(i, s).Ok? ensures inv(i + 1, step(i, s).value) {
    }
    FoldKeeps(step, inv, n, st);
  }

  /** The peak never falls: a run that reaches `n` passed every earlier
      equation with a peak no higher. */
  lemma RunPeakMonotone(rules: map<Primitive, Rule>, custom: CustomRules, mode: Removal, jaxpr: Jaxpr,
                        k: nat, n: nat, st: InterpState)
    requires k <= n && Run(rules, custom, mode, jaxpr, n, st).Ok?
    ensures Run(rules, custom, mode, jaxpr, k, st).Ok?
    ensures Run(rules, custom, mode, jaxpr, k, st).value.peak <= Run(rules, custom, mode, jaxpr, n, st).value.peak
  {
    var step := StepOf(rules, custom, mode, jaxpr);
    forall i: nat, s: InterpState | step(i, s).Ok? ensures step(i, s).value.peak >= s.peak {
    }
    FoldPeakMonotone(step, k, n, st);
  }

  /** An equation without a nested jaxpr whose primitive has no rule makes
      the interpreter raise NotImplementedError naming the primitive. */
  lemma MissingRuleRaises(rules: map<Primitive, Rule>, custom: CustomRules, mode: Removal, jaxpr: Jaxpr, i: nat)
    requires i < |jaxpr.eqns| && Start(jaxpr).Ok?
    requires Run(rules, custom, mode, jaxpr, i, Start(jaxpr).value).Ok?
    requires jaxpr.eqns[i].nested.NoNested? && jaxpr.eqns[i].primitive !in rules
    ensures Interpretation(rules, custom, mode, jaxpr) == Err(NoRule(jaxpr.eqns[i].primitive))
  {
    FoldErrorSticks(StepOf(rules, custom, mode, jaxpr), i + 1, |jaxpr.eqns|, Start(jaxpr).value);
  }

  /** A rule that raises makes the interpreter raise with it, once the
      equations before it have run. */
  lemma RaisingRuleRaises(rules: map<Primitive, Rule>, custom: CustomRules, mode: Removal, jaxpr: Jaxpr, i: nat,
                          k: nat, message: string)
    requires i < |jaxpr.eqns| && Start(jaxpr).Ok?
    requires Run(rules, custom, mode, jaxpr, i, Start(jaxpr).value).Ok?
    requires var eqn := jaxpr.eqns[i];
             var args := ReadAll(Run(rules, custom, mode, jaxpr, i, Start(jaxpr).value).value.env, eqn.invars);
             && eqn.nested.NoNested? && eqn.primitive in rules && rules[eqn.primitive] == CustomRule(k)
             && args.Ok? && custom(k, eqn, args.value) == Err(message)
    ensures Interpretation(rules, custom, mode, jaxpr) == Err(RuleRaised(jaxpr.eqns[i].primitive, message))
  {
    FoldErrorSticks(StepOf(rules, custom, mode, jaxpr), i + 1, |jaxpr.eqns|, Start(jaxpr).value);
  }

  /** The reported peak is at least the bytes of the constants and inputs and
      at least every rule's own peak. */
  lemma InterpretationPeak(rules: map<Primitive, Rule>, custom: CustomRules, mode: Removal, jaxpr: Jaxpr)
    requires Interpretation(rules, custom, mode, jaxpr).Ok?
    ensures Interpretation(rules, custom, mode, jaxpr).value.peakHbmBytes >= Start(jaxpr).value.current
    ensures Interpretation(rules, custom, mode, jaxpr).value.peakHbmBytes >=
              Run(rules, custom, mode, jaxpr, |jaxpr.eqns|, Start(jaxpr).value).value.result.peakHbmBytes
  {
    RunPeak(rules, custom, mode, jaxpr, |jaxpr.eqns|, Start(jaxpr).value);
  }

  /** An equation without a nested jaxpr whose primitive has the standard
      rule adds nothing to the costs. */
  lemma StandardStepCostsNothing(rules: map<Primitive, Rule>, custom: CustomRules, mode: Removal,
                                 jaxpr: Jaxpr, i: nat, st: InterpState)
    requires i < |jaxpr.eqns| && Step(rules, custom, mode, jaxpr, i, st).Ok?
    requires jaxpr.eqns[i].nested.NoNested? && jaxpr.eqns[i].primitive in rules
    requires rules[jaxpr.eqns[i].primitive].StandardRule?
    ensures Step(rules, custom, mode, jaxpr, i, st).value.result == Add(st.result, Zeros())
  {
  }

  /** With only standard rules and no nested jaxprs, the costs stay zero. */
  lemma StandardRulesCostNothing(rules: map<Primitive, Rule>, custom: CustomRules, mode: Removal,
                                 jaxpr: Jaxpr, n: nat, st: InterpState)
    requires n <= |jaxpr.eqns| && Run(rules, custom, mode, jaxpr, n, st).Ok? && st.result == Zeros()
    requires forall i :: 0 <= i < n ==> jaxpr.eqns[i].nested.NoNested? && jaxpr.eqns[i].primitive in rules &&
                                        rules[jaxpr.eqns[i].primitive].StandardRule?
    ensures Run(rules, custom, mode, jaxpr, n, st).value.result == Zeros()
  {
    var step := StepOf(rules, custom, mode, jaxpr);
    var inv := (i: nat, s: InterpState) => s.result == Zeros();
    forall i: nat, s: InterpState | i < n && inv(i, s) && step(i, s).Ok? ensures inv(i + 1, step(i, s).value) {
      StandardStepCostsNothing(rules, custom, mode, jaxpr, i, s);
      ZerosIdentity(Zeros());
    }
    FoldKeeps(step, inv, n, st);
  }

  // ---------------------------------------------------------------------
  // Live bytes match the environment (per-variable removal)
  // ---------------------------------------------------------------------

  /** The variables bound before equation `i`: the binders and the outputs
      of every earlier equation. */
  function BoundBefore(jaxpr: Jaxpr, i: nat): (r: set<VarId>)
    requires i <= |jaxpr.eqns|
    decreases i
  {
    if i == 0 then set v | v in Binders(jaxpr) :: v.id
    else BoundBefore(jaxpr, i - 1) + set v | v in jaxpr.eqns[i - 1].outvars :: v.id
  }

  /** Equation `i` binds distinct variables, none of them bound before it. */
  predicate FreshOutputs(jaxpr: Jaxpr, i: nat)
    requires i < |jaxpr.eqns|
  {
    Distinct(Ids(jaxpr.eqns[i].outvars)) &&
    forall k :: 0 <= k < |jaxpr.eqns[i].outvars| ==> jaxpr.eqns[i].outvars[k].id !in BoundBefore(jaxpr, i)
  }

  /** Jaxprs are in single-assignment form: every equation binds fresh
      variables. */
  predicate SingleAssignment(jaxpr: Jaxpr)
  {
    forall i :: 0 <= i < |jaxpr.eqns| ==> FreshOutputs(jaxpr, i)
  }

  /** One per-variable step keeps the live bytes equal to the bytes held in
      the environment, and binds only the equation's outputs. */
  lemma StepKeepsLiveBytes(rules: map<Primitive, Rule>, custom: CustomRules, jaxpr: Jaxpr, i: nat, st: InterpState)
    requires i < |jaxpr.eqns| && FreshOutputs(jaxpr, i)
    requires st.current == MapBytes(st.env)
    requires st.env.Keys <= BoundBefore(jaxpr, i)
    requires Step(rules, custom, PerVariable, jaxpr, i, st).Ok?
    ensures Step(rules, custom, PerVariable, jaxpr, i, st).value.current == MapBytes(Step(rules, custom, PerVariable, jaxpr, i, st).value.env)
    ensures Step(rules, custom, PerVariable, jaxpr, i, st).value.env.Keys <= BoundBefore(jaxpr, i + 1)
  {
    var eqn := jaxpr.eqns[i];
    var outShapes := ShapesOf(Avals(eqn.outvars)).value;
    WriteAllFresh(st.env, eqn.outvars, outShapes);
    var env1 := WriteAll(st.env, eqn.outvars, outShapes);
    var dies := Dying(jaxpr, i);
    WriteAllKeys(st.env, eqn.outvars, outShapes);
    var operands := Operands(PerVariable, eqn.invars);
    DistinctVarsMeaning(eqn.invars);
    RemovedDistinct(env1, operands, dies);
    assert VarIds(operands) * dies == dies;
  }

  /** The live bytes equal the bytes held in the environment, and only
      variables bound before equation `i` are in it. */
  ghost predicate LiveBytesConsistent(jaxpr: Jaxpr, i: nat, st: InterpState)
    requires i <= |jaxpr.eqns|
  {
    st.current == MapBytes(st.env) && st.env.Keys <= BoundBefore(jaxpr, i)
  }

  /** The loop body over a single-assignment jaxpr keeps the live bytes
      consistent with the environment. */
  lemma StepOfKeepsLiveBytes(rules: map<Primitive, Rule>, custom: CustomRules, jaxpr: Jaxpr)
    requires SingleAssignment(jaxpr)
    ensures forall i: nat, s: InterpState ::
              i < |jaxpr.eqns| && LiveBytesConsistent(jaxpr, i, s) && StepOf(rules, custom, PerVariable, jaxpr)(i, s).Ok? ==>
              LiveBytesConsistent(jaxpr, i + 1, StepOf(rules, custom, PerVariable, jaxpr)(i, s).value)
  {
    forall i: nat, s: InterpState | i < |jaxpr.eqns| && LiveBytesConsistent(jaxpr, i, s) && StepOf(rules, custom, PerVariable, jaxpr)(i, s).Ok?
      ensures LiveBytesConsistent(jaxpr, i + 1, StepOf(rules, custom, PerVariable, jaxpr)(i, s).value)
    {
      assert FreshOutputs(jaxpr, i);
      StepKeepsLiveBytes(rules, custom, jaxpr, i, s);
    }
  }

  /** Over a single-assignment jaxpr, every per-variable run keeps the live
      bytes consistent with the environment. */
  lemma RunKeepsLiveBytes(rules: map<Primitive, Rule>, custom: CustomRules, jaxpr: Jaxpr, n: nat, st: InterpState)
    requires SingleAssignment(jaxpr) && n <= |jaxpr.eqns| && LiveBytesConsistent(jaxpr, 0, st)
    requires Run(rules, custom, PerVariable, jaxpr, n, st).Ok?
    ensures LiveBytesConsistent(jaxpr, n, Run(rules, custom, PerVariable, jaxpr, n, st).value)
  {
    StepOfKeepsLiveBytes(rules, custom, jaxpr);
    var inv := (i: nat, s: InterpState) => i <= |jaxpr.eqns| && LiveBytesConsistent(jaxpr, i, s);
    FoldKeeps(StepOf(rules, custom, PerVariable, jaxpr), inv, n, st);
  }

  /** Before the first equation the live bytes are those of the binders,
      and only they are bound. */
  lemma StartLiveBytes(jaxpr: Jaxpr)
    requires Start(jaxpr).Ok?
    ensures LiveBytesConsistent(jaxpr, 0, Start(jaxpr).value)
  {
    WriteAllKeys(map[], Binders(jaxpr), ShapesOf(Avals(Binders(jaxpr))).value);
  }

  /** With per-variable removal, every state the interpreter reaches has its
      live bytes equal to the bytes held by the variables still in the
      environment. */
  lemma LiveBytesMatchEnvironment(rules: map<Primitive, Rule>, custom: CustomRules, jaxpr: Jaxpr, n: nat)
    requires SingleAssignment(jaxpr) && n <= |jaxpr.eqns| && Start(jaxpr).Ok?
    requires Run(rules, custom, PerVariable, jaxpr, n, Start(jaxpr).value).Ok?
    ensures Run(rules, custom, PerVariable, jaxpr, n, Start(jaxpr).value).value.current ==
            MapBytes(Run(rules, custom, PerVariable, jaxpr, n, Start(jaxpr).value).value.env)
  {
    StartLiveBytes(jaxpr);
    RunKeepsLiveBytes(rules, custom, jaxpr, n, Start(jaxpr).value);
  }

  // ---------------------------------------------------------------------
  // The rule table and the interpreter
  // ---------------------------------------------------------------------

  /** The interpreter's set-up: write the shapes of the constants and inputs
      to `env`, and start the live bytes and the peak at their sum. */
  method Begin(jaxpr: Jaxpr) returns (r: Result<InterpState, InterpError>)
    ensures r == Start(jaxpr)
  {
    var binders := Binders(jaxpr);
    var binderShapes := ShapesOf(Avals(binders));
    if binderShapes.Err? {
      return Err(BadAval(binderShapes.error));
    }
    var env := WriteAll(map[], binders, binderShapes.value);
    var current: int := SumValues(env);
    return Ok(InterpState(env, current, current, Zeros()));
  }

  /** `_rooflines`. */
  class RuleTable {
    var rules: map<Primitive, Rule>

    constructor ()
      ensures rules == map[]
    {
      rules := map[];
    }

    /** `register_roofline(prim)(rule)`: installs the rule and returns it. */
    method RegisterRoofline(prim: Primitive, rule: Rule) returns (r: Rule)
      modifies this
      ensures rules == old(rules)[prim := rule] && r == rule
    {
      rules := rules[prim := rule];
      r := rule;
    }

    /** `register_standard_roofline(prim)`: installs the rule that costs
        nothing. */
    method RegisterStandardRoofline(prim: Primitive)
      modifies this
      ensures rules == old(rules)[prim := StandardRule]
      ensures forall custom: CustomRules, eqn: Eqn, args: seq<RooflineShape> ::
                ApplyRule(rules[prim], custom, eqn, args) == Ok(Zeros())
    {
      rules := rules[prim := StandardRule];
    }

    /** One iteration of the interpreter's loop, on equation `i`: charge
        the equation's cost, count its outputs as live, then free the inputs
        it uses for the last time, once per operand or once per variable
        as `mode` says. */
    method Iterate(jaxpr: Jaxpr, custom: CustomRules, mode: Removal, i: nat, st: InterpState)
      returns (r: Result<InterpState, InterpError>)
      requires i < |jaxpr.eqns|
      ensures r == Step(rules, custom, mode, jaxpr, i, st)
    {
      var eqn := jaxpr.eqns[i];
      var cost := EqnCost(rules, custom, st.env, eqn);
      if cost.Err? {
        return Err(cost.error);
      }
      var result := Add(st.result, cost.value);
      // Add bytes for the newly created outputs.
      var outShapes := ShapesOf(Avals(eqn.outvars));
      if outShapes.Err? {
        return Err(BadAval(outShapes.error));
      }
      var current := st.current + SumBytes(outShapes.value);
      var env := WriteAll(st.env, eqn.outvars, outShapes.value);
      // Remove bytes for the inputs no longer needed.
      var dies := Dying(jaxpr, i);
      var removed := Removed(env, Operands(mode, eqn.invars), dies);
      if removed.Err? {
        return Err(removed.error);
      }
      current := current - SumBytes(removed.value);
      r := Ok(InterpState(env - dies, current, Max(st.peak, current), result));
    }

    /** The interpreter's loop: one iteration per equation, in order,
        stopping at the first error. */
    method RunEquations(jaxpr: Jaxpr, custom: CustomRules, mode: Removal, s0: InterpState)
      returns (r: Result<InterpState, InterpError>)
      ensures r == Run(rules, custom, mode, jaxpr, |jaxpr.eqns|, s0)
    {
      var st := s0;
      for i := 0 to |jaxpr.eqns|
        invariant Run(rules, custom, mode, jaxpr, i, s0) == Ok(st)
      {
        RunNext(rules, custom, mode, jaxpr, i, s0);
        var next := Iterate(jaxpr, custom, mode, i, st);
        if next.Err? {
          RunErrorSticks(rules, custom, mode, jaxpr, i + 1, |jaxpr.eqns|, s0);
          return next;
        }
        st := next.value;
      }
      return Ok(st);
    }

    /** `_roofline_interpreter`, with each dying variable's bytes subtracted
        once: the set-up, the loop, and the peak folded into the summed
        costs. */
    method Interpret(jaxpr: Jaxpr, custom: CustomRules) returns (r: Result<RooflineResult, InterpError>)
      ensures r == Interpretation(rules, custom, PerVariable, jaxpr)
    {
      var start := Begin(jaxpr);
      if start.Err? {
        return Err(start.error);
      }
      var last := RunEquations(jaxpr, custom, PerVariable, start.value);
      if last.Err? {
        return Err(last.error);
      }
      return Ok(Add(last.value.result, PeakOnly(last.value.peak)));
    }
  }

  // ---------------------------------------------------------------------
  // Subtracting per operand double-counts a repeated input
  // ---------------------------------------------------------------------

  const Scalar4: Aval := ShapedArray([1], NumpyDtype(4))
  const Vector16: Aval := ShapedArray([4], NumpyDtype(4))
  const Shape4: RooflineShape := RooflineShape([1], 4)
  const Shape16: RooflineShape := RooflineShape([4], 4)

  /** `b = mul a a; d = broadcast k` returning `b` and `d`: `a` is read twice
      by the equation where it dies. */
  function RepeatedOperandJaxpr(): Jaxpr
  {
    var a := Var(0, Scalar4);
    var k := Var(1, Scalar4);
    var b := Var(2, Scalar4);
    var d := Var(3, Vector16);
    Jaxpr([], [a, k], [VarAtom(b), VarAtom(d)],
          [Eqn("mul", [VarAtom(a), VarAtom(a)], [b], NoNested),
           Eqn("broadcast_in_dim", [VarAtom(k)], [d], NoNested)])
  }

  function StandardRules(): map<Primitive, Rule>
  {
    map["mul" := StandardRule, "broadcast_in_dim" := StandardRule]
  }

  /** The shapes of the example's variables and their sizes in bytes. */
  lemma ExampleShapes()
    ensures Bytes(Shape4) == 4 && Bytes(Shape16) == 16
    ensures ShapesOf([Scalar4]) == Ok([Shape4]) && ShapesOf([Vector16]) == Ok([Shape16])
    ensures ShapesOf([Scalar4, Scalar4]) == Ok([Shape4, Shape4])
    ensures SumBytes([Shape4]) == 4 && SumBytes([Shape16]) == 16 && SumBytes([Shape4, Shape4]) == 8
  {
    assert [1][..0] == [] && [4][..0] == [];
    assert FromAval(Scalar4) == Ok(Shape4) && FromAval(Vector16) == Ok(Shape16);
    var none: seq<Aval> := [];
    assert ShapesOf(none) == Ok([]);
    assert [Scalar4][1..] == none && [Vector16][1..] == none;
    assert [Shape4] == [Shape4] + [] && [Shape16] == [Shape16] + [];
    assert ShapesOf([Scalar4]) == Ok([Shape4]);
    assert [Scalar4, Scalar4][1..] == [Scalar4];
    assert [Shape4] + [Shape4] == [Shape4, Shape4];
    assert [Shape4][..0] == [] && [Shape16][..0] == [] && [Shape4, Shape4][..1] == [Shape4];
  }

  /** The binders `a` and `k` hold 8 bytes before the first equation. */
  lemma ExampleStart()
    ensures Start(RepeatedOperandJaxpr()).Ok?
    ensures Start(RepeatedOperandJaxpr()).value.env == map[0 := Shape4, 1 := Shape4]
    ensures Start(RepeatedOperandJaxpr()).value.current == 8 && Start(RepeatedOperandJaxpr()).value.peak == 8
    ensures Start(RepeatedOperandJaxpr()).value.result == Zeros()
  {
    var j := RepeatedOperandJaxpr();
    ExampleShapes();
    var binders := [Var(0, Scalar4), Var(1, Scalar4)];
    assert Binders(j) == binders;
    assert Avals(binders) == [Scalar4, Scalar4];
    var env0 := map[0 := Shape4, 1 := Shape4];
    ExampleEnv();
    ExampleEnvBytes();
  }

  /** Writing the binders' shapes gives the environment holding `a` and
      `k`. */
  lemma ExampleEnv()
    ensures WriteAll(map[], [Var(0, Scalar4), Var(1, Scalar4)], [Shape4, Shape4]) == map[0 := Shape4, 1 := Shape4]
  {
    var binders := [Var(0, Scalar4), Var(1, Scalar4)];
    assert binders[..1] == [Var(0, Scalar4)];
    assert [Shape4, Shape4][..1] == [Shape4];
    assert WriteAll(map[], [Var(0, Scalar4)], [Shape4]) == map[0 := Shape4];
  }

  /** The environment holding `a` and `k` holds 8 bytes. */
  lemma ExampleEnvBytes()
    ensures MapBytes(map[0 := Shape4, 1 := Shape4]) == 8
  {
    var env0 := map[0 := Shape4, 1 := Shape4];
    ExampleShapes();
    MapBytesRemove(env0, 0);
    assert env0 - {0} == map[1 := Shape4];
    MapBytesRemove(map[1 := Shape4], 1);
    assert map[1 := Shape4] - {1} == map[];
  }

  /** `a` dies at the first equation and `k` at the second. */
  lemma ExampleDying()
    ensures Dying(RepeatedOperandJaxpr(), 0) == {0} && Dying(RepeatedOperandJaxpr(), 1) == {1}
  {
    var j := RepeatedOperandJaxpr();
    var a := VarAtom(Var(0, Scalar4));
    var k := VarAtom(Var(1, Scalar4));
    var b := VarAtom(Var(2, Scalar4));
    var d := VarAtom(Var(3, Vector16));
    var none: seq<Atom> := [];
    assert VarIds(none) == {};
    assert [b, d][..1] == [b] && [b][..0] == none && [a, a][..1] == [a] && [a][..0] == none && [k][..0] == none;
    assert VarIds([b]) == {2} && VarIds([a]) == {0};
    assert VarIds([b, d]) == {2, 3};
    assert VarIds([a, a]) == {0};
    assert VarIds([k]) == {1};
    assert j.outvars == [b, d] && j.eqns[0].invars == [a, a] && j.eqns[1].invars == [k];
    assert ReadFrom(j, 2) == {};
    assert ReadFrom(j, 1) == {1};
  }

  /** Deduplicating one variable, alone or repeated, keeps it once. */
  lemma DistinctVarsRepeated(x: Atom)
    requires x.VarAtom?
    ensures DistinctVars([x]) == [x] && DistinctVars([x, x]) == [x]
  {
    var none: seq<Atom> := [];
    assert [x][..0] == none && [x, x][..1] == [x];
    assert VarIds(none) == {};
    assert DistinctVars([x]) == [x];
    assert VarIds([x]) == {x.v.id};
  }

  /** A dying variable is freed once per operand naming it. */
  lemma RemovedRepeated(env: map<VarId, RooflineShape>, x: Atom, dies: set<VarId>)
    requires x.VarAtom? && x.v.id in dies && x.v.id in env
    ensures Removed(env, [x], dies) == Ok([env[x.v.id]])
    ensures Removed(env, [x, x], dies) == Ok([env[x.v.id], env[x.v.id]])
  {
    var none: seq<Atom> := [];
    var e: seq<RooflineShape> := [];
    assert [x][..0] == none && [x, x][..1] == [x];
    assert Removed(env, none, dies) == Ok(e);
    assert e + [env[x.v.id]] == [env[x.v.id]];
    assert Removed(env, [x], dies) == Ok([env[x.v.id]]);
    assert [env[x.v.id]] + [env[x.v.id]] == [env[x.v.id], env[x.v.id]];
  }

  /** A bound variable, alone or repeated, reads successfully. */
  lemma ReadAllRepeated(env: map<VarId, RooflineShape>, x: Atom)
    requires x.VarAtom? && x.v.id in env
    ensures ReadAll(env, [x]).Ok? && ReadAll(env, [x, x]).Ok?
  {
    var none: seq<Atom> := [];
    assert [x][..0] == none && [x, x][..1] == [x];
    assert ReadAll(env, none).Ok?;
  }

  /** One iteration on an equation that costs `cost`, given what its outputs
      convert to and what it frees, field by field. */
  lemma StepFields(rules: map<Primitive, Rule>, custom: CustomRules, mode: Removal, jaxpr: Jaxpr, i: nat,
                   st: InterpState, cost: RooflineResult, outShapes: seq<RooflineShape>, removed: seq<RooflineShape>)
    requires i < |jaxpr.eqns| && EqnCost(rules, custom, st.env, jaxpr.eqns[i]) == Ok(cost)
    requires ShapesOf(Avals(jaxpr.eqns[i].outvars)) == Ok(outShapes)
    requires Removed(WriteAll(st.env, jaxpr.eqns[i].outvars, outShapes), Operands(mode, jaxpr.eqns[i].invars),
                     Dying(jaxpr, i)) == Ok(removed)
    ensures Step(rules, custom, mode, jaxpr, i, st).Ok?
    ensures Step(rules, custom, mode, jaxpr, i, st).value.env == WriteAll(st.env, jaxpr.eqns[i].outvars, outShapes) - Dying(jaxpr, i)
    ensures Step(rules, custom, mode, jaxpr, i, st).value.current == st.current + SumBytes(outShapes) - SumBytes(removed)
    ensures Step(rules, custom, mode, jaxpr, i, st).value.result == Add(st.result, cost)
  {
  }

  /** The first equation, `b = mul a a`: `b` becomes live and `a` dies,
      freed twice per operand and once per variable. */
  lemma ExampleFirstStep(custom: CustomRules, mode: Removal, st: InterpState)
    requires st.env == map[0 := Shape4, 1 := Shape4] && st.current == 8 && st.peak == 8
    ensures Step(StandardRules(), custom, mode, RepeatedOperandJaxpr(), 0, st).Ok?
    ensures Step(StandardRules(), custom, mode, RepeatedOperandJaxpr(), 0, st).value.env == map[1 := Shape4, 2 := Shape4]
    ensures Step(StandardRules(), custom, mode, RepeatedOperandJaxpr(), 0, st).value.current == if mode == PerOccurrence then 4 else 8
    ensures Step(StandardRules(), custom, mode, RepeatedOperandJaxpr(), 0, st).value.peak == 8
    ensures Step(StandardRules(), custom, mode, RepeatedOperandJaxpr(), 0, st).value.result == Add(st.result, Zeros())
  {
    var j := RepeatedOperandJaxpr();
    var a := VarAtom(Var(0, Scalar4));
    ExampleShapes();
    ExampleDying();
    assert j.eqns[0].invars == [a, a] && Avals(j.eqns[0].outvars) == [Scalar4];
    ReadAllRepeated(st.env, a);
    assert EqnCost(StandardRules(), custom, st.env, j.eqns[0]) == Ok(Zeros());
    var env1 := st.env[2 := Shape4];
    assert WriteAll(st.env, j.eqns[0].outvars, [Shape4]) == env1;
    assert env1 - {0} == map[1 := Shape4, 2 := Shape4];
    DistinctVarsRepeated(a);
    RemovedRepeated(env1, a, {0});
    var removed := if mode == PerOccurrence then [Shape4, Shape4] else [Shape4];
    StepFields(StandardRules(), custom, mode, j, 0, st, Zeros(), [Shape4], removed);
  }

  /** The second equation, `d = broadcast k`: `d` becomes live and `k`
      dies. */
  lemma ExampleSecondStep(custom: CustomRules, mode: Removal, st: InterpState)
    requires st.env == map[1 := Shape4, 2 := Shape4] && st.peak == 8
    ensures Step(StandardRules(), custom, mode, RepeatedOperandJaxpr(), 1, st).Ok?
    ensures Step(StandardRules(), custom, mode, RepeatedOperandJaxpr(), 1, st).value.current == st.current + 12
    ensures Step(StandardRules(), custom, mode, RepeatedOperandJaxpr(), 1, st).value.peak == Max(8, st.current + 12)
    ensures Step(StandardRules(), custom, mode, RepeatedOperandJaxpr(), 1, st).value.result == Add(st.result, Zeros())
  {
    var j := RepeatedOperandJaxpr();
    var k := VarAtom(Var(1, Scalar4));
    ExampleShapes();
    ExampleDying();
    assert j.eqns[1].invars == [k] && Avals(j.eqns[1].outvars) == [Vector16];
    ReadAllRepeated(st.env, k);
    assert EqnCost(StandardRules(), custom, st.env, j.eqns[1]) == Ok(Zeros());
    var env3 := st.env[3 := Shape16];
    assert WriteAll(st.env, j.eqns[1].outvars, [Shape16]) == env3;
    DistinctVarsRepeated(k);
    RemovedRepeated(env3, k, {1});
    StepFields(StandardRules(), custom, mode, j, 1, st, Zeros(), [Shape16], [Shape4]);
  }

  /** Both equations, from the state after the binders. */
  lemma ExampleRun(custom: CustomRules, mode: Removal, s0: InterpState)
    requires s0.env == map[0 := Shape4, 1 := Shape4] && s0.current == 8 && s0.peak == 8 && s0.result.peakHbmBytes >= 0
    ensures Run(StandardRules(), custom, mode, RepeatedOperandJaxpr(), 2, s0).Ok?
    ensures Run(StandardRules(), custom, mode, RepeatedOperandJaxpr(), 2, s0).value.peak == if mode == PerOccurrence then 16 else 20
    ensures Run(StandardRules(), custom, mode, RepeatedOperandJaxpr(), 2, s0).value.result == s0.result
  {
    var j := RepeatedOperandJaxpr();
    var rules := StandardRules();
    assert Run(rules, custom, mode, j, 0, s0) == Ok(s0);
    RunNext(rules, custom, mode, j, 0, s0);
    ExampleFirstStep(custom, mode, s0);
    var s1 := Run(rules, custom, mode, j, 1, s0).value;
    ZerosIdentity(s0.result);
    RunNext(rules, custom, mode, j, 1, s0);
    ExampleSecondStep(custom, mode, s1);
    ZerosIdentity(s1.result);
  }

  lemma ExamplePeak(peak: int)
    requires peak >= 0
    ensures Add(Zeros(), PeakOnly(peak)) == PeakOnly(peak)
  {
    ZerosIdentity(PeakOnly(peak));
  }

  /** The interpretation of the example from its start and end states. */
  lemma ExampleFinish(custom: CustomRules, mode: Removal, s0: InterpState, last: InterpState)
    requires Start(RepeatedOperandJaxpr()) == Ok(s0)
    requires Run(StandardRules(), custom, mode, RepeatedOperandJaxpr(), 2, s0) == Ok(last)
    requires last.result == Zeros() && last.peak >= 0
    ensures Interpretation(StandardRules(), custom, mode, RepeatedOperandJaxpr()) == Ok(PeakOnly(last.peak))
  {
    ExamplePeak(last.peak);
  }

  /** The interpretation of the example, in either mode. */
  lemma ExampleInterpretation(custom: CustomRules, mode: Removal)
    ensures Interpretation(StandardRules(), custom, mode, RepeatedOperandJaxpr()) ==
            Ok(PeakOnly(if mode == PerOccurrence then 16 else 20))
  {
    ExampleStart();
    var s0 := Start(RepeatedOperandJaxpr()).value;
    ExampleRun(custom, mode, s0);
    var last := Run(StandardRules(), custom, mode, RepeatedOperandJaxpr(), 2, s0).value;
    ExampleFinish(custom, mode, s0, last);
  }

  /** Subtracting once per operand reports a peak of 16 bytes for this jaxpr,
      while 20 bytes (`b` and `d`) are live at once; subtracting once per
      variable reports 20. */
  lemma RepeatedOperandUnderstatesPeak(custom: CustomRules)
    ensures Interpretation(StandardRules(), custom, PerOccurrence, RepeatedOperandJaxpr()) == Ok(PeakOnly(16))
    ensures Interpretation(StandardRules(), custom, PerVariable, RepeatedOperandJaxpr()) == Ok(PeakOnly(20))
  {
    ExampleInterpretation(custom, PerOccurrence);
    ExampleInterpretation(custom, PerVariable);
  }
}
