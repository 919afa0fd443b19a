/** The process environment as read by `os.Getenv`. */
module EnvVars {

  /** Variables that are set; an unset variable is absent. */
  type Environment = map<string, string>

  /** `os.Getenv`: the value, or "" when the variable is unset. */
  function Getenv(env: Environment, name: string): string
  {
    if name in env then env[name] else ""
  }
}
