/** The process environment both services read their configuration from. */
module Environment {
  type Env = map<string, string>

  /** `os.Getenv`: the value of a variable, the empty string when it is unset. */
  function Getenv(env: Env, name: string): (v: string)
    ensures name !in env ==> v == ""
    ensures name in env ==> v == env[name]
  {
    if name in env then env[name] else ""
  }
}
