/**
 * Collaborators of the connection configuration whose code is not part of this
 * model: the enums HaMode, SslMode and IsolationLevel, java.time.Duration,
 * HostAddress, SslConfig, and the objects (event-loop resources, SSL context
 * customizers) the configuration only passes along. Their behaviour enters the
 * model only through a `Library` value handed to the operations that call them.
 */
module External {
  import opened JavaLang

  /** HaMode: only NONE is named by the configuration; the others are opaque. */
  datatype HaMode = NONE | OtherHaMode(name: string)

  /** SslMode: only DISABLE is named by the configuration; the others are opaque. */
  datatype SslMode = DISABLE | OtherSslMode(name: string)

  /** io.r2dbc.spi.IsolationLevel, identified by its SQL text. */
  datatype IsolationLevel = IsolationLevel(sql: string)

  /** java.time.Duration. */
  datatype Duration = Duration(seconds: int, nanos: nat)

  function OfSeconds(seconds: int): Duration {
    Duration(seconds, 0)
  }

  /** A parsed host entry. */
  datatype HostAddress = HostAddress(host: string, port: int)

  /**
   * Any other Java object, known only by its identity and its toString text
   * (LoopResources, an SslContextBuilder customizer function, ...).
   */
  datatype ObjectRef = ObjectRef(id: nat, text: string)

  /**
   * The TLS settings the configuration builds: the shared disabled instance, or
   * a record of the arguments handed to the SslConfig constructor.
   */
  datatype SslConfig =
    | DisableInstance
    | SslConfig(
        mode: SslMode,
        serverSslCert: Option<string>,
        clientSslCert: Option<string>,
        clientSslKey: Option<string>,
        clientSslPassword: Option<string>,
        tlsProtocol: Option<seq<string>>,
        customizer: Option<ObjectRef>)

  /**
   * The behaviour of code outside this model that the configuration calls. A
   * `None` result stands for the exception the call throws.
   */
  datatype Library = Library(
    haModeFrom: string -> Option<HaMode>,                      // HaMode.from
    sslModeFrom: string -> Option<SslMode>,                    // SslMode.from
    isolationLevelOf: string -> IsolationLevel,                // IsolationLevel.valueOf
    parseDuration: string -> Option<Duration>,                 // Duration.parse
    urlDecode: string -> Option<string>,                       // URLDecoder.decode(_, "UTF-8")
    parseHosts: (Option<string>, Int32) -> Option<seq<HostAddress>>,  // HostAddress.parse
    defaultLoopResources: ObjectRef,                           // TcpResources.get()
    durationText: Duration -> string,                          // Duration.toString
    hostsText: seq<HostAddress> -> string,                     // Arrays.toString(hosts.toArray())
    mapText: map<string, string> -> string,                    // HashMap.toString
    sslConfigText: SslConfig -> string,                        // SslConfig.toString
    isolationLevelText: IsolationLevel -> string,              // IsolationLevel.toString
    sslModeText: SslMode -> string,                            // SslMode.toString
    arrayText: seq<string> -> string)                          // String[].toString (identity)
}
