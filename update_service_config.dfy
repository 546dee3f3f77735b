/**
 * The auth service's `update-service-config` setup task: it rewrites the log, JWT, auth
 * defender, NATS and server sections of the service's configuration from the settings
 * read through viper, falling back to the default port when the configured one is out
 * of range, and validates the port it left behind. The viper reads are inputs.
 */
module UpdateServiceConfig {
  import opened Wrappers

  /** A `time.Duration`, in nanoseconds. */
  datatype Duration = Duration(nanoseconds: int)

  datatype LogConfig = LogConfig(maxLength: int, enableStdout: bool, level: string)

  datatype JwtConfig = JwtConfig(includeKid: bool, tokenDurationMins: int, certCommonName: string)

  datatype AuthDefender = AuthDefender(maxAttempts: int, intervalMins: int, lockoutDurationMins: int)

  datatype NatsEntityInfo = NatsEntityInfo(name: string, credentialValidity: Duration)

  datatype NatsConfig = NatsConfig(operator: NatsEntityInfo, account: NatsEntityInfo, userCredentialValidity: Duration)

  datatype ServerConfig = ServerConfig(
    port: int,
    readTimeout: Duration,
    readHeaderTimeout: Duration,
    writeTimeout: Duration,
    idleTimeout: Duration,
    maxHeaderBytes: int)

  /**
   * The sections of the service's configuration that the task does not write (database,
   * TLS, service URLs and the rest), kept as named values.
   */
  datatype OtherSections = OtherSections(values: map<string, string>)

  /** The service's configuration, which the task updates in place through its pointer. */
  class Configuration {
    var log: LogConfig
    var jwt: JwtConfig
    var authDefender: AuthDefender
    var nats: NatsConfig
    var server: ServerConfig
    var others: OtherSections

    constructor(log: LogConfig, jwt: JwtConfig, authDefender: AuthDefender, nats: NatsConfig,
                server: ServerConfig, others: OtherSections)
      ensures this.log == log && this.jwt == jwt && this.authDefender == authDefender
      ensures this.nats == nats && this.server == server && this.others == others
    {
      this.log := log;
      this.jwt := jwt;
      this.authDefender := authDefender;
      this.nats := nats;
      this.server := server;
      this.others := others;
    }
  }

  /** The values the task reads through viper, one per setting key. */
  datatype Settings = Settings(
    logMaxLength: int,
    logEnableStdout: bool,
    logLevel: string,
    jwtIncludeKid: bool,
    jwtTokenDurationMins: int,
    jwtCertCommonName: string,
    authDefenderMaxAttempts: int,
    authDefenderIntervalMins: int,
    authDefenderLockoutDurationMins: int,
    natsOperatorName: string,
    natsOperatorCredentialValidity: Duration,
    natsAccountName: string,
    natsAccountCredentialValidity: Duration,
    natsUserCredentialValidity: Duration)

  function LogSection(s: Settings): LogConfig {
    LogConfig(s.logMaxLength, s.logEnableStdout, s.logLevel)
  }

  function JwtSection(s: Settings): JwtConfig {
    JwtConfig(s.jwtIncludeKid, s.jwtTokenDurationMins, s.jwtCertCommonName)
  }

  function AuthDefenderSection(s: Settings): AuthDefender {
    AuthDefender(s.authDefenderMaxAttempts, s.authDefenderIntervalMins, s.authDefenderLockoutDurationMins)
  }

  function NatsSection(s: Settings): NatsConfig {
    NatsConfig(
      NatsEntityInfo(s.natsOperatorName, s.natsOperatorCredentialValidity),
      NatsEntityInfo(s.natsAccountName, s.natsAccountCredentialValidity),
      s.natsUserCredentialValidity)
  }

  const MinPort: int := 1024
  const MaxPort: int := 65535

  const InvalidPort: string := "Configured port is not valid"

  /** A port the service may listen on: neither privileged nor beyond 16 bits. */
  predicate ValidPort(port: int) {
    MinPort <= port <= MaxPort
  }

  /**
   * The server section the task writes: the task's server settings, with the default port
   * in place of a port out of range.
   */
  function ServerSection(serverConfig: ServerConfig, defaultPort: int): (r: ServerConfig)
    ensures r.(port := serverConfig.port) == serverConfig
    ensures ValidPort(serverConfig.port) ==> r == serverConfig
    ensures !ValidPort(serverConfig.port) ==> r.port == defaultPort
    ensures ValidPort(defaultPort) ==> ValidPort(r.port)
  {
    if serverConfig.port < 1024 || serverConfig.port > 65535 then serverConfig.(port := defaultPort)
    else serverConfig
  }

  /** Writing the server section a second time changes nothing, when the default port is valid. */
  lemma ServerSectionIdempotent(serverConfig: ServerConfig, defaultPort: int)
    requires ValidPort(defaultPort)
    ensures ServerSection(ServerSection(serverConfig, defaultPort), defaultPort) == ServerSection(serverConfig, defaultPort)
  {
    var r := ServerSection(serverConfig, defaultPort);
    assert ValidPort(r.port);
  }

  /** The port the task leaves behind is the configured one or the default, and nothing else. */
  lemma ServerSectionPort(serverConfig: ServerConfig, defaultPort: int)
    ensures ServerSection(serverConfig, defaultPort).port == serverConfig.port
      || ServerSection(serverConfig, defaultPort).port == defaultPort
    ensures ServerSection(serverConfig, defaultPort).port != serverConfig.port ==> !ValidPort(serverConfig.port)
  {
  }

  /**
   * The task. `appConfig` is the configuration its double pointer leads to; the console
   * writer is not modelled. The task is a value: `Run` works on its own copy of the server
   * settings, so the port fallback is seen in the configuration and never in the task.
   */
  datatype UpdateServiceConfig = UpdateServiceConfig(appConfig: Configuration, serverConfig: ServerConfig, defaultPort: int)
  {
    /** `Validate`: the configured server port must be in range. */
    function Validate(): (err: Option<string>)
      reads appConfig
      ensures err.None? <==> ValidPort(appConfig.server.port)
      ensures err.Some? ==> err.value == InvalidPort
    {
      if appConfig.server.port < 1024 || appConfig.server.port > 65535 then Some(InvalidPort) else None
    }

    /**
     * `Run`: replaces the log, JWT, auth defender and NATS sections by the settings read,
     * and the server section by the task's server settings with the port fallback; leaves
     * every other section alone and never fails.
     */
    method Run(settings: Settings) returns (err: Option<string>)
      modifies appConfig
      ensures err == None
      ensures appConfig.log == LogSection(settings)
      ensures appConfig.jwt == JwtSection(settings)
      ensures appConfig.authDefender == AuthDefenderSection(settings)
      ensures appConfig.nats == NatsSection(settings)
      ensures appConfig.server == ServerSection(serverConfig, defaultPort)
      ensures appConfig.others == old(appConfig.others)
      ensures ValidPort(defaultPort) ==> Validate() == None
    {
      appConfig.log := LogConfig(settings.logMaxLength, settings.logEnableStdout, settings.logLevel);
      appConfig.jwt := JwtConfig(settings.jwtIncludeKid, settings.jwtTokenDurationMins, settings.jwtCertCommonName);
      appConfig.authDefender := AuthDefender(
        settings.authDefenderMaxAttempts, settings.authDefenderIntervalMins, settings.authDefenderLockoutDurationMins);
      appConfig.nats := NatsConfig(
        NatsEntityInfo(settings.natsOperatorName, settings.natsOperatorCredentialValidity),
        NatsEntityInfo(settings.natsAccountName, settings.natsAccountCredentialValidity),
        settings.natsUserCredentialValidity);
      var uc := this;
      if uc.serverConfig.port < 1024 || uc.serverConfig.port > 65535 {
        uc := uc.(serverConfig := uc.serverConfig.(port := uc.defaultPort));
      }
      appConfig.server := uc.serverConfig;
      return None;
    }
  }

  /**
   * A task whose settings hold a valid port passes validation after it runs, whatever the
   * default; with an invalid port and an invalid default, validation fails after it runs.
   */
  lemma ValidateAfterRunIff(serverConfig: ServerConfig, defaultPort: int)
    ensures ValidPort(ServerSection(serverConfig, defaultPort).port)
      <==> ValidPort(serverConfig.port) || ValidPort(defaultPort)
  {
  }
}
