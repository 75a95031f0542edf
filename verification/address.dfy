/**
 * Bind-address resolution and the endpoint URL of the telemetry listener
 * (telemetryApi/listener.go). The environment lookup of `AWS_SAM_LOCAL` is a
 * parameter: `None` when the variable is unset, `Some(v)` when it is set to `v`.
 */
module Address {
  import opened Wrappers

  /** The fixed port the listener binds to. */
  const DefaultListenerPort: string := "4323"

  /** The value of AWS_SAM_LOCAL that selects the all-interfaces address. */
  const SamLocalTrue: string := "true"

  /** Address used under the local SAM harness: all interfaces, fixed port. */
  const LocalAddress: string := ":" + DefaultListenerPort

  /** Address used in the managed sandbox: the `sandbox` host alias, fixed port. */
  const SandboxAddress: string := "sandbox:" + DefaultListenerPort

  /** True when the environment selects the local (all-interfaces) address. */
  predicate IsSamLocal(env: Option<string>)
  {
    env.Some? && env.value == SamLocalTrue
  }

  /**
   * The address the server listens on. Only the exact value "true" selects the
   * all-interfaces form; absence or any other value selects the sandbox alias.
   */
  function ListenOnAddress(env: Option<string>): (addr: string)
    ensures addr == LocalAddress <==> env == Some("true")
    ensures addr == SandboxAddress <==> env != Some("true")
  {
    if IsSamLocal(env) then ":" + DefaultListenerPort else "sandbox:" + DefaultListenerPort
  }

  /** The URL `Start` hands back to the caller for the given bind address. */
  function EndpointUrl(addr: string): (url: string)
    ensures |url| == |addr| + 8
    ensures url[..7] == "http://" && url[|url| - 1] == '/'
    ensures url[7..|url| - 1] == addr
  {
    "http://" + addr + "/"
  }

  /** Reads the bind address back out of an endpoint URL, if it has that shape. */
  function AddressOfUrl(url: string): (addr: Option<string>)
    ensures addr.Some? <==> |url| >= 8 && url[..7] == "http://" && url[|url| - 1] == '/'
  {
    if |url| >= 8 && url[..7] == "http://" && url[|url| - 1] == '/' then Some(url[7..|url| - 1]) else None
  }

  /** Formatting an address as a URL and reading it back yields the address. */
  lemma UrlRoundTrip(addr: string)
    ensures AddressOfUrl(EndpointUrl(addr)) == Some(addr)
  {
  }

  /** Every URL that reads back as an address is exactly the formatting of it. */
  lemma UrlOfAddressIsUnique(url: string, addr: string)
    requires AddressOfUrl(url) == Some(addr)
    ensures EndpointUrl(addr) == url
  {
  }

  /**
   * Every resolved address ends in ':' followed by the fixed port, and what
   * precedes that suffix is the empty host or the `sandbox` alias.
   */
  lemma ListenOnAddressPort(env: Option<string>)
    ensures var addr := ListenOnAddress(env);
      |addr| >= |DefaultListenerPort| + 1 &&
      addr[|addr| - |DefaultListenerPort| - 1..] == ":" + DefaultListenerPort &&
      addr[..|addr| - |DefaultListenerPort| - 1] == (if IsSamLocal(env) then "" else "sandbox")
  {
  }

  /** The two URLs `Start` can return, one per environment case. */
  lemma StartUrlCases(env: Option<string>)
    ensures env == Some("true") ==> EndpointUrl(ListenOnAddress(env)) == "http://:4323/"
    ensures env != Some("true") ==> EndpointUrl(ListenOnAddress(env)) == "http://sandbox:4323/"
  {
  }
}
