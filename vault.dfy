/** vault.go: the address of the Vault server. */
module Vault {
  import opened EnvVars
  import opened Address

  /**
   * NewVaultConnectAddress. Both the host and the port are read from
   * VAULT_HOST; the port falls back to "8200" only when VAULT_HOST is empty.
   */
  function VaultConnectAddress(env: Environment): (addr: string)
    ensures Getenv(env, "VAULT_HOST") == "" ==> addr == "http://127.0.0.1:8200"
    ensures Getenv(env, "VAULT_HOST") != "" ==> addr == Getenv(env, "VAULT_HOST") + ":" + Getenv(env, "VAULT_HOST")
  {
    var host := if Getenv(env, "VAULT_HOST") == "" then "http://127.0.0.1" else Getenv(env, "VAULT_HOST");
    var port := if Getenv(env, "VAULT_HOST") == "" then "8200" else Getenv(env, "VAULT_HOST");
    host + ":" + port
  }

  /** With a colon-free VAULT_HOST, the address's port part is the host name itself. */
  lemma VaultPortIsHost(env: Environment)
    requires Getenv(env, "VAULT_HOST") != "" && ':' !in Getenv(env, "VAULT_HOST")
    ensures PortOf(VaultConnectAddress(env)) == Getenv(env, "VAULT_HOST")
    ensures HostOf(VaultConnectAddress(env)) == Getenv(env, "VAULT_HOST")
  {
    var h := Getenv(env, "VAULT_HOST");
    SplitJoined(h, h);
  }

  /**
   * With a VAULT_HOST that holds a colon itself, such as a scheme-qualified
   * "http://vault", the address's port part is what follows the last colon
   * of VAULT_HOST ("//vault"), never VAULT_HOST itself.
   */
  lemma VaultSchemeHost(env: Environment)
    requires ':' in Getenv(env, "VAULT_HOST")
    ensures PortOf(VaultConnectAddress(env)) == PortOf(Getenv(env, "VAULT_HOST"))
    ensures PortOf(VaultConnectAddress(env)) != Getenv(env, "VAULT_HOST")
    ensures HostOf(VaultConnectAddress(env)) == Getenv(env, "VAULT_HOST") + ":" + HostOf(Getenv(env, "VAULT_HOST"))
  {
    var h := Getenv(env, "VAULT_HOST");
    SplitAfterPrefix(h + ":", h);
    assert h + ":" + h == (h + ":") + h;
    var j := LastColon(h).value;
    assert h[j] == ':' && ':' !in h[j + 1..];
  }

  /** Unset, the address splits into the default scheme-qualified host and port 8200. */
  lemma VaultDefaultSplits(env: Environment)
    requires Getenv(env, "VAULT_HOST") == ""
    ensures HostOf(VaultConnectAddress(env)) == "http://127.0.0.1"
    ensures PortOf(VaultConnectAddress(env)) == "8200"
  {
    SplitJoined("http://127.0.0.1", "8200");
  }
}
