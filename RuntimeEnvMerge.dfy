/**
 * _merge_runtime_env: merging a job's runtime environment (the parent) with
 * the one given for a task or actor (the child). A runtime environment is a
 * map from field names ("pip", "conda", ...) to values; the field
 * "env_vars" holds a map from environment-variable names to values and is
 * merged name by name, every other field as a whole. Without override a
 * field or variable set on both sides is a conflict and the merge has no
 * result; with override the child's setting wins.
 */
module RuntimeEnvMerge {
  import opened Wrappers

  const EnvVarsKey := "env_vars"

  /** A field's value: the env_vars dictionary, or any other value. */
  datatype Field<V> = EnvVars(vars: map<string, string>) | Plain(value: V)

  type RuntimeEnv<V> = map<string, Field<V>>

  /** The env_vars field, when present, holds a dictionary of variables. */
  ghost predicate WellFormed<V>(env: RuntimeEnv<V>) {
    EnvVarsKey in env ==> env[EnvVarsKey].EnvVars?
  }

  /** pop("env_vars", {}): the variables an environment sets, none when the field is absent. */
  function EnvVarsOf<V>(env: RuntimeEnv<V>): (vars: map<string, string>)
    requires WellFormed(env)
    ensures EnvVarsKey in env ==> env[EnvVarsKey] == EnvVars(vars)
    ensures EnvVarsKey !in env ==> vars == map[]
  {
    if EnvVarsKey in env then env[EnvVarsKey].vars else map[]
  }

  /** The fields other than env_vars. */
  function OtherFields<V>(env: RuntimeEnv<V>): (rest: RuntimeEnv<V>)
    ensures EnvVarsKey !in rest
    ensures forall k :: k != EnvVarsKey ==> (k in rest <==> k in env)
    ensures forall k :: k in rest ==> rest[k] == env[k]
  {
    env - {EnvVarsKey}
  }

  /**
   * pop("env_vars", {}) loses nothing: what is left sets no variables, and
   * putting the popped variables back gives the environment again.
   */
  lemma PopEnvVarsLosesNothing<V>(env: RuntimeEnv<V>)
    requires WellFormed(env)
    ensures EnvVarsOf(OtherFields(env)) == map[]
    ensures EnvVarsKey in env ==> OtherFields(env)[EnvVarsKey := EnvVars(EnvVarsOf(env))] == env
    ensures EnvVarsKey !in env ==> OtherFields(env) == env
  {
    if EnvVarsKey in env {
      assert OtherFields(env)[EnvVarsKey := EnvVars(EnvVarsOf(env))] == env;
    } else {
      assert OtherFields(env) == env;
    }
  }

  /**
   * Without override the merge fails when the fields other than env_vars
   * overlap, or the environment variables do.
   */
  predicate Conflict<V>(parent: RuntimeEnv<V>, child: RuntimeEnv<V>)
    requires WellFormed(parent) && WellFormed(child)
  {
    || OtherFields(parent).Keys * OtherFields(child).Keys != {}
    || EnvVarsOf(parent).Keys * EnvVarsOf(child).Keys != {}
  }

  /**
   * The merge of two present environments: None on a conflict without
   * override, otherwise the fields of both sides, the child's winning, with
   * the variables of both sides, the child's winning, under env_vars when
   * there is at least one.
   */
  function Merge<V>(parent: RuntimeEnv<V>, child: RuntimeEnv<V>, override: bool): (r: Option<RuntimeEnv<V>>)
    requires WellFormed(parent) && WellFormed(child)
    ensures r.None? ==> !override
    ensures r.Some? ==> WellFormed(r.value)
  {
    if !override && Conflict(parent, child) then None
    else
      var merged := OtherFields(parent) + OtherFields(child);
      var vars := EnvVarsOf(parent) + EnvVarsOf(child);
      if vars == map[] then Some(merged) else Some(merged[EnvVarsKey := EnvVars(vars)])
  }

  /**
   * _merge_runtime_env(parent, child, override): a missing environment counts
   * as empty, so it never causes a conflict.
   */
  function MergeRuntimeEnv<V>(parent: Option<RuntimeEnv<V>>, child: Option<RuntimeEnv<V>>, override: bool)
    : (r: Option<RuntimeEnv<V>>)
    requires WellFormed(parent.GetOr(map[])) && WellFormed(child.GetOr(map[]))
    ensures r.None? ==> !override && parent.Some? && child.Some?
    ensures r.Some? ==> WellFormed(r.value)
  {
    Merge(parent.GetOr(map[]), child.GetOr(map[]), override)
  }

  /**
   * The merge fails exactly when override is off and both sides set the
   * same field other than env_vars, or the same environment variable.
   */
  lemma MergeFailsIffShared<V>(parent: RuntimeEnv<V>, child: RuntimeEnv<V>, override: bool)
    requires WellFormed(parent) && WellFormed(child)
    ensures Merge(parent, child, override).None? <==>
      (!override &&
       ((exists k :: k != EnvVarsKey && k in parent && k in child)
        || (exists name :: name in EnvVarsOf(parent) && name in EnvVarsOf(child))))
  {
    if Conflict(parent, child) {
      if k :| k in OtherFields(parent).Keys * OtherFields(child).Keys {
        assert k != EnvVarsKey && k in parent && k in child;
      } else {
        var name :| name in EnvVarsOf(parent).Keys * EnvVarsOf(child).Keys;
        assert name in EnvVarsOf(parent) && name in EnvVarsOf(child);
      }
    } else {
      forall k | k != EnvVarsKey && k in parent
        ensures k !in child
      {
        assert k in OtherFields(parent).Keys;
      }
      forall name | name in EnvVarsOf(parent)
        ensures name !in EnvVarsOf(child)
      {
        assert name !in EnvVarsOf(parent).Keys * EnvVarsOf(child).Keys;
        assert name in EnvVarsOf(parent).Keys;
      }
    }
  }

  /**
   * A successful merge holds every field other than env_vars that either
   * side sets, with the child's value where both do.
   */
  lemma MergeFields<V>(parent: RuntimeEnv<V>, child: RuntimeEnv<V>, override: bool, k: string)
    requires WellFormed(parent) && WellFormed(child) && Merge(parent, child, override).Some?
    requires k != EnvVarsKey
    ensures var r := Merge(parent, child, override).value;
      && (k in r <==> k in parent || k in child)
      && (k in child ==> r[k] == child[k])
      && (k in parent && k !in child ==> r[k] == parent[k])
  {
  }

  /**
   * A successful merge holds env_vars exactly when either side sets a
   * variable; it then holds every variable either side sets, with the
   * child's value where both do.
   */
  lemma MergeEnvVars<V>(parent: RuntimeEnv<V>, child: RuntimeEnv<V>, override: bool, name: string)
    requires WellFormed(parent) && WellFormed(child) && Merge(parent, child, override).Some?
    ensures var r := Merge(parent, child, override).value;
      && (EnvVarsKey in r <==> EnvVarsOf(parent) != map[] || EnvVarsOf(child) != map[])
      && (name in EnvVarsOf(r) <==> name in EnvVarsOf(parent) || name in EnvVarsOf(child))
      && (name in EnvVarsOf(child) ==> EnvVarsOf(r)[name] == EnvVarsOf(child)[name])
      && (name in EnvVarsOf(parent) && name !in EnvVarsOf(child) ==> EnvVarsOf(r)[name] == EnvVarsOf(parent)[name])
  {
  }

  /** Two missing or empty environments merge to the empty environment, with or without override. */
  lemma MergeOfNothingIsEmpty<V>(parent: Option<RuntimeEnv<V>>, child: Option<RuntimeEnv<V>>, override: bool)
    requires parent.GetOr(map[]) == map[] && child.GetOr(map[]) == map[]
    ensures MergeRuntimeEnv(parent, child, override) == Some(map[])
  {
    assert OtherFields<V>(map[]) == map[];
  }

  /**
   * Merging an environment with a missing one, on either side, gives it
   * back, provided its env_vars field, if any, sets at least one variable.
   */
  lemma MergeWithMissingIsIdentity<V>(env: RuntimeEnv<V>, override: bool)
    requires WellFormed(env) && (EnvVarsKey in env ==> env[EnvVarsKey].vars != map[])
    ensures MergeRuntimeEnv(Some(env), None, override) == Some(env)
    ensures MergeRuntimeEnv(None, Some(env), override) == Some(env)
  {
    var empty: RuntimeEnv<V> := map[];
    assert OtherFields(empty) == map[];
    assert OtherFields(env) + OtherFields(empty) == OtherFields(env);
    assert OtherFields(empty) + OtherFields(env) == OtherFields(env);
    assert EnvVarsOf(env) + EnvVarsOf(empty) == EnvVarsOf(env);
    assert EnvVarsOf(empty) + EnvVarsOf(env) == EnvVarsOf(env);
    PopEnvVarsLosesNothing(env);
  }

  /** An env_vars field that sets no variable is dropped, so the identity above needs its proviso. */
  lemma EmptyEnvVarsIsDropped<V>(override: bool)
    ensures MergeRuntimeEnv<V>(Some(map[EnvVarsKey := EnvVars(map[])]), None, override) == Some(map[])
  {
    var env: RuntimeEnv<V> := map[EnvVarsKey := EnvVars(map[])];
    assert OtherFields(env) == map[];
  }

  /** dict.update with disjoint keys does not depend on the order. */
  lemma DisjointUnionCommutes<K, W>(a: map<K, W>, b: map<K, W>)
    requires a.Keys * b.Keys == {}
    ensures a + b == b + a
  {
    forall k | k in a
      ensures k !in b
    {
      assert k !in a.Keys * b.Keys;
    }
  }

  /** Without override the merge does not depend on which side is the parent. */
  lemma MergeWithoutOverrideCommutes<V>(parent: RuntimeEnv<V>, child: RuntimeEnv<V>)
    requires WellFormed(parent) && WellFormed(child)
    ensures Merge(parent, child, false) == Merge(child, parent, false)
  {
    if !Conflict(parent, child) {
      DisjointUnionCommutes(OtherFields(parent), OtherFields(child));
      DisjointUnionCommutes(EnvVarsOf(parent), EnvVarsOf(child));
    } else {
      assert Conflict(child, parent);
    }
  }

  /**
   * Override only decides conflicts: with it the merge always succeeds, and
   * where nothing is set on both sides it agrees with the merge without it.
   */
  lemma OverrideOnlyResolvesConflicts<V>(parent: RuntimeEnv<V>, child: RuntimeEnv<V>)
    requires WellFormed(parent) && WellFormed(child)
    ensures Merge(parent, child, true).Some?
    ensures !Conflict(parent, child) ==> Merge(parent, child, true) == Merge(parent, child, false)
  {
  }

  /** Disjoint fields and variables are all kept (the successful case of test_runtime_env_merge). */
  lemma MergeDisjointExample()
    ensures MergeRuntimeEnv(
      Some(map["conda" := Plain(["requests"]), EnvVarsKey := EnvVars(map["A" := "1"])]),
      Some(map["pip" := Plain(["requests"]), EnvVarsKey := EnvVars(map["B" := "2"])]), false)
      == Some(map["conda" := Plain(["requests"]), "pip" := Plain(["requests"]),
                  EnvVarsKey := EnvVars(map["A" := "1", "B" := "2"])])
  {
    var p: RuntimeEnv<seq<string>> := map["conda" := Plain(["requests"]), EnvVarsKey := EnvVars(map["A" := "1"])];
    var c: RuntimeEnv<seq<string>> := map["pip" := Plain(["requests"]), EnvVarsKey := EnvVars(map["B" := "2"])];
    assert OtherFields(p) == map["conda" := Plain(["requests"])];
    assert OtherFields(c) == map["pip" := Plain(["requests"])];
    assert !Conflict(p, c);
    var vars := EnvVarsOf(p) + EnvVarsOf(c);
    assert vars == map["A" := "1", "B" := "2"] && "A" in vars;
    assert (OtherFields(p) + OtherFields(c))[EnvVarsKey := EnvVars(vars)]
        == map["conda" := Plain(["requests"]), "pip" := Plain(["requests"]), EnvVarsKey := EnvVars(vars)];
  }

  /** A field set on both sides makes the merge fail without override. */
  lemma MergeSharedFieldExample()
    ensures MergeRuntimeEnv(
      Some(map["pip" := Plain(["requests"]), EnvVarsKey := EnvVars(map["A" := "1"])]),
      Some(map["pip" := Plain(["colors"]), EnvVarsKey := EnvVars(map["B" := "2"])]), false)
      == None
  {
    var p: RuntimeEnv<seq<string>> := map["pip" := Plain(["requests"]), EnvVarsKey := EnvVars(map["A" := "1"])];
    var c: RuntimeEnv<seq<string>> := map["pip" := Plain(["colors"]), EnvVarsKey := EnvVars(map["B" := "2"])];
    assert "pip" in OtherFields(p).Keys * OtherFields(c).Keys;
  }

  /** A variable set on both sides makes the merge fail without override. */
  lemma MergeSharedVariableExample()
    ensures MergeRuntimeEnv(
      Some(map["pip" := Plain(["requests"]), EnvVarsKey := EnvVars(map["A" := "1"])]),
      Some(map["conda" := Plain(["requests"]), EnvVarsKey := EnvVars(map["A" := "2"])]), false)
      == None
  {
    var p: RuntimeEnv<seq<string>> := map["pip" := Plain(["requests"]), EnvVarsKey := EnvVars(map["A" := "1"])];
    var c: RuntimeEnv<seq<string>> := map["conda" := Plain(["requests"]), EnvVarsKey := EnvVars(map["A" := "2"])];
    assert "A" in EnvVarsOf(p).Keys * EnvVarsOf(c).Keys;
  }

  /** With override the child's field wins and the variables are unioned. */
  lemma MergeOverrideFieldExample()
    ensures MergeRuntimeEnv(
      Some(map["pip" := Plain(["requests"]), EnvVarsKey := EnvVars(map["A" := "1"])]),
      Some(map["pip" := Plain(["colors"]), EnvVarsKey := EnvVars(map["B" := "2"])]), true)
      == Some(map["pip" := Plain(["colors"]), EnvVarsKey := EnvVars(map["A" := "1", "B" := "2"])])
  {
    var p: RuntimeEnv<seq<string>> := map["pip" := Plain(["requests"]), EnvVarsKey := EnvVars(map["A" := "1"])];
    var c: RuntimeEnv<seq<string>> := map["pip" := Plain(["colors"]), EnvVarsKey := EnvVars(map["B" := "2"])];
    assert OtherFields(p) == map["pip" := Plain(["requests"])];
    assert OtherFields(c) == map["pip" := Plain(["colors"])];
    var vars := EnvVarsOf(p) + EnvVarsOf(c);
    assert vars == map["A" := "1", "B" := "2"] && "A" in vars;
    assert (OtherFields(p) + OtherFields(c))[EnvVarsKey := EnvVars(vars)]
        == map["pip" := Plain(["colors"]), EnvVarsKey := EnvVars(vars)];
  }

  /** With override the child's variable wins too. */
  lemma MergeOverrideVariableExample()
    ensures MergeRuntimeEnv(
      Some(map["pip" := Plain(["requests"]), EnvVarsKey := EnvVars(map["A" := "1"])]),
      Some(map["pip" := Plain(["colors"]), "conda" := Plain(["requests"]), EnvVarsKey := EnvVars(map["A" := "2"])]), true)
      == Some(map["pip" := Plain(["colors"]), EnvVarsKey := EnvVars(map["A" := "2"]), "conda" := Plain(["requests"])])
  {
    var p: RuntimeEnv<seq<string>> := map["pip" := Plain(["requests"]), EnvVarsKey := EnvVars(map["A" := "1"])];
    var c: RuntimeEnv<seq<string>> :=
      map["pip" := Plain(["colors"]), "conda" := Plain(["requests"]), EnvVarsKey := EnvVars(map["A" := "2"])];
    assert OtherFields(p) == map["pip" := Plain(["requests"])];
    assert OtherFields(c) == map["pip" := Plain(["colors"]), "conda" := Plain(["requests"])];
    var vars := EnvVarsOf(p) + EnvVarsOf(c);
    assert vars == map["A" := "2"] && "A" in vars;
    assert (OtherFields(p) + OtherFields(c))[EnvVarsKey := EnvVars(vars)]
        == map["pip" := Plain(["colors"]), EnvVarsKey := EnvVars(vars), "conda" := Plain(["requests"])];
  }
}
