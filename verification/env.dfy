/** The process environment, which os.Getenv reads, as a finite map. */
module Env {

  type Environment = map<string, string>

  /** os.Getenv: the value of the variable, or "" when it is unset. */
  function Getenv(env: Environment, key: string): string {
    if key in env then env[key] else ""
  }

  /** The "value or default" rule shared by getEnvDefault in the Modbus
      client and the `get` helper of the adapter's loadEnv: a variable that
      is unset or set to "" yields the default, any other value is kept. */
  function GetDefault(env: Environment, key: string, def: string): (r: string)
    ensures Getenv(env, key) == "" ==> r == def
    ensures Getenv(env, key) != "" ==> r == Getenv(env, key)
    ensures def != "" ==> r != ""
  {
    var v := Getenv(env, key);
    if v != "" then v else def
  }

  /** Setting a variable to a non-empty value overrides the default;
      removing it brings the default back. */
  lemma GetDefaultUpdate(env: Environment, key: string, v: string, def: string)
    ensures v != "" ==> GetDefault(env[key := v], key, def) == v
    ensures GetDefault(env - {key}, key, def) == def
    ensures GetDefault(env[key := ""], key, def) == def
  {
  }
}
