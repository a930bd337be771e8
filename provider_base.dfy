/** What the concrete providers share (src/providers/base.ts): the configuration
    they receive, JavaScript truthiness of its fields, and how a start attempt
    ends. A start attempt is a promise that the first `resolve` or `reject`
    settles; later calls are ignored. */
module ProviderBase {
  import opened Wrappers
  import Strings

  /** The `ngrok` block of a tunnel's configuration. */
  datatype NgrokOptions = NgrokOptions(
    command: Option<string>,
    region: Option<string>,
    subdomain: Option<string>,
    auth: Option<string>)

  /** The configuration object a provider is constructed with. */
  datatype ProviderConfig = ProviderConfig(port: Option<int>, ngrok: Option<NgrokOptions>)

  /** A string option is truthy when present and not empty. */
  predicate Truthy(o: Option<string>) {
    o.Some? && o.value != ""
  }

  /** A port option is truthy when present and not zero. */
  predicate TruthyPort(o: Option<int>) {
    o.Some? && o.value != 0
  }

  /** `port || fallback`. */
  function PortOr(port: Option<int>, fallback: int): (p: int)
    ensures TruthyPort(port) ==> p == port.value
    ensures !TruthyPort(port) ==> p == fallback
  {
    if TruthyPort(port) then port.value else fallback
  }

  /** `(this.config.port || 3000).toString()`. */
  function PortText(config: ProviderConfig): string {
    Strings.IntToString(PortOr(config.port, 3000))
  }

  /** Why a start attempt rejected. */
  datatype StartError =
    | Timeout
    | TunnelFailed(output: string)
    | ExitedEarly(code: Option<int>)
    | SpawnFailed(message: string)

  /** The state of a start attempt's promise: pending, or settled once and for all. */
  type Settlement = Option<Result<string, StartError>>

  /** `resolve`/`reject` on a promise: only the first settlement counts. */
  function Settle(s: Settlement, r: Result<string, StartError>): (s': Settlement)
    ensures s.None? ==> s' == Some(r)
    ensures s.Some? ==> s' == s
  {
    if s.None? then Some(r) else s
  }
}
