/**
 * `EnvContextManager`: a `with` block that sets some environment variables
 * on entry and puts the previous values back on exit.  The process
 * environment is an `Environ` object whose string map the manager updates
 * in place, as `os.environ.update` does.
 */
module EnvironmentVariableManager {
  import opened PyRuntime

  /** The process environment, `os.environ`. */
  class Environ {
    var vars: map<string, string>

    constructor (vars: map<string, string>)
      ensures this.vars == vars
    {
      this.vars := vars;
    }

    /** `os.environ.update(m)` */
    method Update(m: map<string, string>)
      modifies this
      ensures vars == old(vars) + m
    {
      vars := vars + m;
    }
  }

  /** `os.environ.get(key, "")` for every key of `keys`. */
  function Snapshot(env: map<string, string>, keys: set<string>): (s: map<string, string>)
    ensures s.Keys == keys
    ensures forall k :: k in keys ==> s[k] == (if k in env then env[k] else "")
  {
    map k | k in keys :: if k in env then env[k] else ""
  }

  /** The empty value for every key of `keys`. */
  function Blanks(keys: set<string>): (b: map<string, string>)
    ensures b.Keys == keys && forall k :: k in keys ==> b[k] == ""
  {
    map k | k in keys :: ""
  }

  class EnvContextManager {
    /** The `**kwargs` the manager was built with. */
    const envVars: map<string, string>
    /** `self.old_values`; None until `__enter__` has run. */
    var oldValues: Option<map<string, string>>

    constructor (envVars: map<string, string>)
      ensures this.envVars == envVars && oldValues == None
    {
      this.envVars := envVars;
      oldValues := None;
    }

    /** `__enter__`: remember the named keys' values ("" when unset), then set the new ones. */
    method Enter(environ: Environ)
      modifies this, environ
      ensures oldValues == Some(Snapshot(old(environ.vars), envVars.Keys))
      ensures environ.vars == old(environ.vars) + envVars
    {
      oldValues := Some(Snapshot(environ.vars, envVars.Keys));
      environ.Update(envVars);
    }

    /**
     * `__exit__`: put the remembered values back, whatever exception is
     * passing through; the result is the "suppress" flag, always false,
     * so the exception goes on.  Exiting a manager that was never entered
     * raises AttributeError (`self.old_values` does not exist).
     */
    method Exit(environ: Environ, exc: Option<Error>) returns (r: Result<bool>)
      modifies environ
      ensures oldValues.None? ==> r == Err(AttributeError) && environ.vars == old(environ.vars)
      ensures oldValues.Some? ==> r == Ok(false) && environ.vars == old(environ.vars) + oldValues.value
    {
      if oldValues.None? {
        return Err(AttributeError);
      }
      environ.Update(oldValues.value);
      r := Ok(false);
    }
  }

  /**
   * `with EnvContextManager(**envVars): body`, where `body` maps the
   * environment it runs in to the environment it leaves and the exception
   * it raises, if any.  The exception comes out of the block unchanged.
   */
  method WithScope(environ: Environ, envVars: map<string, string>,
                   body: map<string, string> -> (map<string, string>, Option<Error>))
    returns (exc: Option<Error>)
    modifies environ
    ensures var inside := body(old(environ.vars) + envVars);
      exc == inside.1 && environ.vars == inside.0 + Snapshot(old(environ.vars), envVars.Keys)
  {
    var manager := new EnvContextManager(envVars);
    manager.Enter(environ);
    var inside := body(environ.vars);
    environ.vars := inside.0;
    var suppress := manager.Exit(environ, inside.1);
    assert suppress == Ok(false);
    exc := inside.1;
  }

  // ---------------------------------------------------------------------
  // What entering and leaving does to the environment

  /** Inside the block every named key has its new value and every other key is untouched. */
  lemma EnterSetsNamedKeys(env: map<string, string>, envVars: map<string, string>)
    ensures forall k :: k in envVars ==> k in env + envVars && (env + envVars)[k] == envVars[k]
    ensures forall k :: k !in envVars ==> (k in env + envVars <==> k in env)
    ensures forall k :: k !in envVars && k in env ==> (env + envVars)[k] == env[k]
  {
  }

  /**
   * Leaving a block whose body left the environment alone gives back the
   * environment from before, except that a named key that was unset is now
   * set to "".
   */
  lemma {:induction false} EnterExitRestores(env: map<string, string>, envVars: map<string, string>)
    ensures (env + envVars) + Snapshot(env, envVars.Keys) == env + Blanks(envVars.Keys - env.Keys)
  {
    var lhs := (env + envVars) + Snapshot(env, envVars.Keys);
    var rhs := env + Blanks(envVars.Keys - env.Keys);
    assert lhs.Keys == rhs.Keys;
    forall k | k in lhs ensures lhs[k] == rhs[k] {
      if k in envVars {
        assert lhs[k] == Snapshot(env, envVars.Keys)[k];
      }
    }
  }

  /** When every named key was already set, the environment is restored exactly. */
  lemma EnterExitIdentity(env: map<string, string>, envVars: map<string, string>)
    requires envVars.Keys <= env.Keys
    ensures (env + envVars) + Snapshot(env, envVars.Keys) == env
  {
    EnterExitRestores(env, envVars);
    assert envVars.Keys - env.Keys == {};
    assert Blanks({}) == map[];
    assert env + map[] == env;
  }

  /**
   * Two managers nested on the same keys, as the application nests them
   * (the download path opens one around the renderer, which opens its
   * own): leaving the inner one gives the outer block's environment back,
   * and leaving the outer one then restores the original environment.
   */
  lemma NestedRestore(env: map<string, string>, outer: map<string, string>, inner: map<string, string>)
    requires inner.Keys == outer.Keys
    ensures var e1 := env + outer;
            (e1 + inner) + Snapshot(e1, inner.Keys) == e1
    ensures var e1 := env + outer;
            ((e1 + inner) + Snapshot(e1, inner.Keys)) + Snapshot(env, outer.Keys)
              == env + Blanks(outer.Keys - env.Keys)
  {
    var e1 := env + outer;
    EnterExitIdentity(e1, inner);
    EnterExitRestores(env, outer);
  }
}
