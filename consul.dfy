/** consul.go: the address of the Consul agent. */
module Consul {
  import opened EnvVars
  import opened Address

  /** NewConsulConnectAddress: CONSUL_HOST (default "127.0.0.1"), ':', CONSUL_PORT (default "8500"). */
  function ConsulConnectAddress(env: Environment): (addr: string)
    ensures Getenv(env, "CONSUL_HOST") == "" && Getenv(env, "CONSUL_PORT") == "" ==> addr == "127.0.0.1:8500"
  {
    var host := if Getenv(env, "CONSUL_HOST") == "" then "127.0.0.1" else Getenv(env, "CONSUL_HOST");
    var port := if Getenv(env, "CONSUL_PORT") == "" then "8500" else Getenv(env, "CONSUL_PORT");
    host + ":" + port
  }

  /**
   * Host and port are taken verbatim and independently: the address splits
   * into CONSUL_HOST (or its default) and CONSUL_PORT (or its default).
   */
  lemma ConsulSplits(env: Environment)
    requires ':' !in Getenv(env, "CONSUL_PORT")
    ensures HostOf(ConsulConnectAddress(env)) == (if Getenv(env, "CONSUL_HOST") == "" then "127.0.0.1" else Getenv(env, "CONSUL_HOST"))
    ensures PortOf(ConsulConnectAddress(env)) == (if Getenv(env, "CONSUL_PORT") == "" then "8500" else Getenv(env, "CONSUL_PORT"))
  {
    var host := if Getenv(env, "CONSUL_HOST") == "" then "127.0.0.1" else Getenv(env, "CONSUL_HOST");
    var port := if Getenv(env, "CONSUL_PORT") == "" then "8500" else Getenv(env, "CONSUL_PORT");
    SplitJoined(host, port);
  }
}
