/** Startup configuration: the Unsplash API key and the HTTP port, each
    resolved on its own by precedence (command line, then environment, then
    a default for the port only), with a record of where each value came
    from and a masked summary for the console. The command-line parser and
    the `.env` loader are replaced by their parsed values. */
module Config {
  import opened Wrappers
  import opened JsValues

  /** Provenance of a configuration value: "cli", "env" or "default". */
  datatype Source = FromCli | FromEnv | FromDefault

  function SourceTag(s: Source): string {
    match s
    case FromCli => "cli"
    case FromEnv => "env"
    case FromDefault => "default"
  }

  /** `--unsplash-api-key` and `--port` as the command-line parser leaves
      them; a non-numeric `--port` arrives as NaN. */
  datatype CliArgs = CliArgs(apiKey: Option<string>, port: Option<JsNumber>)

  /** `UNSPLASH_API_KEY` and `PORT` from the environment (or `.env`). */
  datatype Environment = Environment(apiKey: Option<string>, port: Option<string>)

  datatype ServerConfig = ServerConfig(
    apiKey: string,
    port: JsNumber,
    keySource: Source,
    portSource: Source)

  const DefaultPort: int := 3333

  /** Exit status of the process when no API key is available. */
  const MissingKeyExitCode: int := 1

  /** The only way resolution fails: neither source supplies a key. */
  datatype MissingKey = MissingKey

  /** JavaScript truthiness of an optional number: present, non-zero, not NaN. */
  predicate PortIsTruthy(p: Option<JsNumber>) {
    p.Some? && NumberIsTruthy(p.value)
  }

  /** The key as shown on the console: four asterisks, followed by the last
      four characters when the key is longer than four. */
  function MaskApiKey(key: string): (r: string)
    ensures |r| >= 4 && r[..4] == "****"
    ensures |key| <= 4 ==> r == "****"
    ensures |key| > 4 ==> |r| == 8 && r[4..] == key[|key| - 4..]
  {
    if |key| <= 4 then "****" else "****" + key[|key| - 4..]
  }

  /** Two keys mask alike exactly when both are short or both are long and
      end in the same four characters: nothing else of the key is visible. */
  lemma MaskRevealsOnlyLastFour(k1: string, k2: string)
    ensures MaskApiKey(k1) == MaskApiKey(k2) <==>
              || (|k1| <= 4 && |k2| <= 4)
              || (|k1| > 4 && |k2| > 4 && k1[|k1| - 4..] == k2[|k2| - 4..])
  {
    var m1, m2 := MaskApiKey(k1), MaskApiKey(k2);
    if m1 == m2 && |k1| > 4 {
      assert m1[4..] == m2[4..];
    }
  }

  /** API key by precedence: a non-empty command-line key, else a non-empty
      environment key, else none. */
  function ResolveKey(cli: Option<string>, env: Option<string>): (r: Option<(string, Source)>)
    ensures r.Some? <==> StringIsTruthy(cli) || StringIsTruthy(env)
    ensures StringIsTruthy(cli) ==> r == Some((cli.value, FromCli))
    ensures !StringIsTruthy(cli) && StringIsTruthy(env) ==> r == Some((env.value, FromEnv))
    ensures r.Some? ==> r.value.0 != "" && r.value.1 != FromDefault
  {
    if StringIsTruthy(cli) then Some((cli.value, FromCli))
    else if StringIsTruthy(env) then Some((env.value, FromEnv))
    else None
  }

  /** Port by precedence: a truthy (non-zero, non-NaN) command-line port,
      else a non-empty `PORT` read with `parseInt(_, 10)`, else 3333. */
  function ResolvePort(cli: Option<JsNumber>, env: Option<string>): (r: (JsNumber, Source))
    ensures PortIsTruthy(cli) ==> r == (cli.value, FromCli)
    ensures !PortIsTruthy(cli) && StringIsTruthy(env) ==> r == (ParseInt(env.value), FromEnv)
    ensures !PortIsTruthy(cli) && !StringIsTruthy(env) ==> r == (Int(DefaultPort), FromDefault)
  {
    if PortIsTruthy(cli) then (cli.value, FromCli)
    else if StringIsTruthy(env) then (ParseInt(env.value), FromEnv)
    else (Int(DefaultPort), FromDefault)
  }

  /** The configuration `getServerConfig` returns, or the missing-key failure
      that makes it exit. */
  function Resolve(cli: CliArgs, env: Environment): (r: Result<ServerConfig, MissingKey>)
    ensures r.Success? <==> StringIsTruthy(cli.apiKey) || StringIsTruthy(env.apiKey)
    ensures r.Success? ==> r.value.apiKey != "" && r.value.keySource != FromDefault
    ensures r.Success? ==> (r.value.apiKey, r.value.keySource) == ResolveKey(cli.apiKey, env.apiKey).value
    ensures r.Success? ==> (r.value.port, r.value.portSource) == ResolvePort(cli.port, env.port)
  {
    match ResolveKey(cli.apiKey, env.apiKey)
    case None => Failure(MissingKey)
    case Some((key, keySource)) =>
      var (port, portSource) := ResolvePort(cli.port, env.port);
      Success(ServerConfig(key, port, keySource, portSource))
  }

  /** The summary printed to the console outside stdio mode. */
  datatype ConfigSummary = ConfigSummary(
    maskedKey: string,
    keySource: string,
    port: JsNumber,
    portSource: string)

  function Summarize(cfg: ServerConfig, isStdioMode: bool): (r: Option<ConfigSummary>)
    ensures r.Some? <==> !isStdioMode
    ensures r.Some? ==> r.value.maskedKey == MaskApiKey(cfg.apiKey)
    ensures r.Some? ==> r.value.keySource == SourceTag(cfg.keySource)
    ensures r.Some? ==> r.value.port == cfg.port && r.value.portSource == SourceTag(cfg.portSource)
  {
    if isStdioMode then None
    else Some(ConfigSummary(MaskApiKey(cfg.apiKey), SourceTag(cfg.keySource), cfg.port, SourceTag(cfg.portSource)))
  }

  /** What `getServerConfig` amounts to: the process exits with status 1, or
      it returns a configuration, having printed a summary or not. */
  datatype StartupOutcome =
    | Exited(code: int)
    | Configured(config: ServerConfig, summary: Option<ConfigSummary>)

  function GetServerConfig(cli: CliArgs, env: Environment, isStdioMode: bool): (r: StartupOutcome)
    ensures r.Exited? <==> !StringIsTruthy(cli.apiKey) && !StringIsTruthy(env.apiKey)
    ensures r.Exited? ==> r.code == MissingKeyExitCode
    ensures r.Configured? ==> Resolve(cli, env) == Success(r.config) && r.config.apiKey != ""
    ensures r.Configured? ==> (r.summary.Some? <==> !isStdioMode)
    ensures r.Configured? && r.summary.Some? ==> r.summary.value.maskedKey == MaskApiKey(r.config.apiKey)
  {
    match Resolve(cli, env)
    case Failure(_) => Exited(MissingKeyExitCode)
    case Success(cfg) => Configured(cfg, Summarize(cfg, isStdioMode))
  }

  /** A non-empty command-line key is used whatever the environment holds. */
  lemma CliKeyOverridesEnv(key: string, env1: Option<string>, env2: Option<string>)
    requires key != ""
    ensures ResolveKey(Some(key), env1) == ResolveKey(Some(key), env2) == Some((key, FromCli))
  {
  }

  /** The key and the port are resolved independently of each other's inputs. */
  lemma KeyAndPortIndependent(cli1: CliArgs, env1: Environment, cli2: CliArgs, env2: Environment)
    requires Resolve(cli1, env1).Success? && Resolve(cli2, env2).Success?
    ensures cli1.apiKey == cli2.apiKey && env1.apiKey == env2.apiKey ==>
      Resolve(cli1, env1).value.apiKey == Resolve(cli2, env2).value.apiKey
      && Resolve(cli1, env1).value.keySource == Resolve(cli2, env2).value.keySource
    ensures cli1.port == cli2.port && env1.port == env2.port ==>
      Resolve(cli1, env1).value.port == Resolve(cli2, env2).value.port
      && Resolve(cli1, env1).value.portSource == Resolve(cli2, env2).value.portSource
  {
  }

  /** An environment `PORT` of "8080" yields the port 8080, from "env". */
  lemma EnvPortIsParsedInBaseTen()
    ensures ResolvePort(None, Some("8080")) == (Int(8080), FromEnv)
  {
    ParseEightyEighty();
  }

  lemma ParseEightyEighty()
    ensures ParseInt("8080") == Int(8080)
  {
    assert NatToDigits(8080) == "8080" by {
      assert NatToDigits(8) == "8";
      assert NatToDigits(80) == "80";
      assert NatToDigits(808) == "808";
    }
    ParseIntOfDecimal(8080);
  }

  /** Neither the raw key nor anything of it except its last four characters
      reaches the summary: configurations that differ only in keys masking
      alike print the same summary. */
  lemma SummaryHidesKey(cfg1: ServerConfig, cfg2: ServerConfig, isStdioMode: bool)
    requires cfg1.port == cfg2.port && cfg1.keySource == cfg2.keySource && cfg1.portSource == cfg2.portSource
    requires || (|cfg1.apiKey| <= 4 && |cfg2.apiKey| <= 4)
             || (&& |cfg1.apiKey| > 4 && |cfg2.apiKey| > 4
                 && cfg1.apiKey[|cfg1.apiKey| - 4..] == cfg2.apiKey[|cfg2.apiKey| - 4..])
    ensures Summarize(cfg1, isStdioMode) == Summarize(cfg2, isStdioMode)
  {
    MaskRevealsOnlyLastFour(cfg1.apiKey, cfg2.apiKey);
  }
}
