/**
 * The process environment as the configuration files read it: a finite map
 * from variable names to string values. A variable that is absent reads as
 * `undefined`; JavaScript treats both `undefined` and the empty string as
 * falsy, so "set" means present AND non-empty.
 */
module JsEnv {
  import opened Wrappers

  type Env = map<string, string>

  /** `process.env.KEY`: `undefined` when the variable is absent. */
  function Get(env: Env, key: string): Option<string> {
    if key in env then Some(env[key]) else None
  }

  /** JavaScript truthiness of a possibly-undefined string. */
  predicate Truthy(v: Option<string>) {
    v.Some? && v.value != ""
  }

  /** `!!process.env.KEY`, and the guard of `if (process.env.KEY)`. */
  predicate IsSet(env: Env, key: string) {
    Truthy(Get(env, key))
  }

  /** `process.env.KEY || fallback`. */
  function Or(env: Env, key: string, fallback: string): (r: string)
    ensures IsSet(env, key) ==> r == env[key]
    ensures !IsSet(env, key) ==> r == fallback
    ensures fallback != "" ==> r != ""
  {
    if IsSet(env, key) then env[key] else fallback
  }

  /** `process.env.KEY || undefined`: the empty string becomes `undefined`. */
  function OrUndefined(env: Env, key: string): (r: Option<string>)
    ensures r.Some? <==> IsSet(env, key)
    ensures r.Some? ==> r.value == env[key]
    ensures r.Some? <==> Truthy(r)
  {
    if IsSet(env, key) then Some(env[key]) else None
  }
}
