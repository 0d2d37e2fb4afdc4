/**
 * The immutable connection configuration: what a Builder's fields become once
 * the private constructor of MariadbConnectionConfiguration has filled in
 * defaults, turned empty strings into absent values and switched server-side
 * preparation off under multi-queries; and its toString, which masks the
 * password and the PAM passwords.
 */
module ConnectionConfiguration {
  import opened JavaLang
  import opened External
  import opened OptionValues

  const DEFAULT_PORT: Int32 := 3306
  const DEFAULT_PREPARE_CACHE_SIZE: Int32 := 250
  const DEFAULT_CONNECT_TIMEOUT_SECONDS: int := 10

  /** The fields of a Builder, in the order build() hands them to the private constructor. */
  datatype BuilderState = BuilderState(
    haMode: Option<string>,
    rsaPublicKey: Option<string>,
    cachingRsaPublicKey: Option<string>,
    allowPublicKeyRetrieval: bool,
    username: Option<string>,
    connectTimeout: Option<Duration>,
    tcpKeepAlive: Option<bool>,
    tcpAbortiveClose: Option<bool>,
    transactionReplay: Option<bool>,
    database: Option<string>,
    hostAddresses: Option<seq<HostAddress>>,
    host: Option<string>,
    sessionVariables: Option<map<string, string>>,
    connectionAttributes: Option<map<string, string>>,
    password: Option<string>,
    port: Int32,
    socket: Option<string>,
    allowMultiQueries: bool,
    allowPipelining: bool,
    useServerPrepStmts: bool,
    isolationLevel: Option<IsolationLevel>,
    autocommit: bool,
    tinyInt1isBit: bool,
    prepareCacheSize: Option<Int32>,
    tlsProtocol: Option<seq<string>>,
    serverSslCert: Option<string>,
    clientSslCert: Option<string>,
    clientSslKey: Option<string>,
    clientSslPassword: Option<string>,
    sslMode: SslMode,
    pamOtherPwd: Option<seq<string>>,
    restrictedAuth: Option<string>,
    loopResources: Option<ObjectRef>,
    sslContextBuilderCustomizer: Option<ObjectRef>)

  /**
   * The fields of a new Builder: port 3306, pipelining, autocommit and
   * tinyInt1isBit on, SSL disabled, and everything else null or false.
   */
  const NewBuilderState: BuilderState := BuilderState(
    haMode := None,
    rsaPublicKey := None,
    cachingRsaPublicKey := None,
    allowPublicKeyRetrieval := false,
    username := None,
    connectTimeout := None,
    tcpKeepAlive := None,
    tcpAbortiveClose := None,
    transactionReplay := None,
    database := None,
    hostAddresses := None,
    host := None,
    sessionVariables := None,
    connectionAttributes := None,
    password := None,
    port := DEFAULT_PORT,
    socket := None,
    allowMultiQueries := false,
    allowPipelining := true,
    useServerPrepStmts := false,
    isolationLevel := None,
    autocommit := true,
    tinyInt1isBit := true,
    prepareCacheSize := None,
    tlsProtocol := None,
    serverSslCert := None,
    clientSslCert := None,
    clientSslKey := None,
    clientSslPassword := None,
    sslMode := DISABLE,
    pamOtherPwd := None,
    restrictedAuth := None,
    loopResources := None,
    sslContextBuilderCustomizer := None)

  /** A built connection configuration. */
  datatype Configuration = Configuration(
    database: Option<string>,
    hostAddresses: seq<HostAddress>,
    haMode: HaMode,
    connectTimeout: Duration,
    tcpKeepAlive: bool,
    tcpAbortiveClose: bool,
    transactionReplay: bool,
    password: Option<string>,
    pamOtherPwd: Option<seq<string>>,
    port: Int32,
    prepareCacheSize: Int32,
    socket: Option<string>,
    username: Option<string>,
    allowMultiQueries: bool,
    allowPipelining: bool,
    connectionAttributes: Option<map<string, string>>,
    sessionVariables: Option<map<string, string>>,
    sslConfig: SslConfig,
    rsaPublicKey: Option<string>,
    cachingRsaPublicKey: Option<string>,
    allowPublicKeyRetrieval: bool,
    isolationLevel: Option<IsolationLevel>,
    useServerPrepStmts: bool,
    autocommit: bool,
    tinyInt1isBit: bool,
    restrictedAuth: Option<seq<string>>,
    loopResources: ObjectRef,
    sslContextBuilderCustomizer: Option<ObjectRef>)

  /** The value of a nullable field, or a default in its place. */
  function OrElse<T>(o: Option<T>, default: T): T {
    if o.Some? then o.value else default
  }

  /** A nullable string with the empty string read as null. */
  function NonEmpty(s: Option<string>): (r: Option<string>)
    ensures r != Some("")
    ensures r.Some? ==> r == s
    ensures s.Some? && s.value != "" ==> r == s
  {
    if s.Some? && s.value != "" then s else None
  }

  /** What every built configuration satisfies. */
  predicate Normalized(c: Configuration) {
    && c.database != Some("")
    && c.password != Some("")
    && !(c.allowMultiQueries && c.useServerPrepStmts)
  }

  /** HaMode.from of the configured name, NONE when there is none. */
  function ResolveHaMode(name: Option<string>, lib: Library): (r: Result<HaMode, ConfigError>)
    ensures name.None? ==> r == Success(NONE)
    ensures name.Some? ==> (r.Success? <==> lib.haModeFrom(name.value).Some?)
    ensures name.Some? && r.Success? ==> lib.haModeFrom(name.value) == Some(r.value)
    ensures name.Some? && r.Failure? ==> r.error == InvalidHaMode(name.value)
  {
    if name.None? then Success(NONE)
    else match lib.haModeFrom(name.value)
      case Some(m) => Success(m)
      case None => Failure(InvalidHaMode(name.value))
  }

  /** The explicit host list, or the one HostAddress.parse makes of host and port. */
  function ResolveHosts(b: BuilderState, lib: Library): (r: Result<seq<HostAddress>, ConfigError>)
    ensures b.hostAddresses.Some? ==> r == Success(b.hostAddresses.value)
    ensures b.hostAddresses.None? ==> (r.Success? <==> lib.parseHosts(b.host, b.port).Some?)
    ensures b.hostAddresses.None? && r.Success? ==> lib.parseHosts(b.host, b.port) == Some(r.value)
  {
    if b.hostAddresses.Some? then Success(b.hostAddresses.value)
    else match lib.parseHosts(b.host, b.port)
      case Some(h) => Success(h)
      case None => Failure(HostParse)
  }

  /** The field assignments of the private constructor once HA mode and hosts are known. */
  function Assemble(b: BuilderState, haMode: HaMode, hosts: seq<HostAddress>, lib: Library): Configuration {
    Configuration(
      database := NonEmpty(b.database),
      hostAddresses := hosts,
      haMode := haMode,
      connectTimeout := if b.connectTimeout.None? then OfSeconds(DEFAULT_CONNECT_TIMEOUT_SECONDS) else b.connectTimeout.value,
      tcpKeepAlive := if b.tcpKeepAlive.None? then false else b.tcpKeepAlive.value,
      tcpAbortiveClose := if b.tcpAbortiveClose.None? then false else b.tcpAbortiveClose.value,
      transactionReplay := if b.transactionReplay.None? then false else b.transactionReplay.value,
      password := NonEmpty(b.password),
      pamOtherPwd := b.pamOtherPwd,
      port := b.port,
      prepareCacheSize := if b.prepareCacheSize.None? then DEFAULT_PREPARE_CACHE_SIZE else b.prepareCacheSize.value,
      socket := b.socket,
      username := b.username,
      allowMultiQueries := b.allowMultiQueries,
      allowPipelining := b.allowPipelining,
      connectionAttributes := b.connectionAttributes,
      sessionVariables := b.sessionVariables,
      sslConfig :=
        if b.sslMode == DISABLE then DisableInstance
        else SslConfig(b.sslMode, b.serverSslCert, b.clientSslCert, b.clientSslKey,
                       b.clientSslPassword, b.tlsProtocol, b.sslContextBuilderCustomizer),
      rsaPublicKey := b.rsaPublicKey,
      cachingRsaPublicKey := b.cachingRsaPublicKey,
      allowPublicKeyRetrieval := b.allowPublicKeyRetrieval,
      isolationLevel := b.isolationLevel,
      useServerPrepStmts := !b.allowMultiQueries && b.useServerPrepStmts,
      autocommit := b.autocommit,
      tinyInt1isBit := b.tinyInt1isBit,
      restrictedAuth := if b.restrictedAuth.Some? then Some(Split(b.restrictedAuth.value, ',')) else None,
      loopResources := if b.loopResources.Some? then b.loopResources.value else lib.defaultLoopResources,
      sslContextBuilderCustomizer := b.sslContextBuilderCustomizer)
  }

  /**
   * The private constructor. It throws only where HaMode.from rejects the HA mode
   * name (checked first) or HostAddress.parse rejects the host, and what it builds
   * is always normalized.
   */
  function NewConfiguration(b: BuilderState, lib: Library): (r: Result<Configuration, ConfigError>)
    ensures r.Success? <==>
      && (b.haMode.Some? ==> lib.haModeFrom(b.haMode.value).Some?)
      && (b.hostAddresses.None? ==> lib.parseHosts(b.host, b.port).Some?)
    ensures b.haMode.Some? && lib.haModeFrom(b.haMode.value).None? ==>
      r == Failure(InvalidHaMode(b.haMode.value))
    ensures r.Success? ==> Normalized(r.value)
  {
    var haMode :- ResolveHaMode(b.haMode, lib);
    var hosts :- ResolveHosts(b, lib);
    Success(Assemble(b, haMode, hosts, lib))
  }

  /** A constructor that returns assembled the fields from the resolved HA mode and hosts. */
  lemma NewConfigurationAssembles(b: BuilderState, lib: Library)
    requires NewConfiguration(b, lib).Success?
    ensures ResolveHaMode(b.haMode, lib).Success? && ResolveHosts(b, lib).Success?
    ensures NewConfiguration(b, lib).value
         == Assemble(b, ResolveHaMode(b.haMode, lib).value, ResolveHosts(b, lib).value, lib)
  {
  }

  /** Absent options take their defaults; given ones are kept. */
  lemma NewConfigurationDefaults(b: BuilderState, lib: Library)
    requires NewConfiguration(b, lib).Success?
    ensures
      var c := NewConfiguration(b, lib).value;
      && (b.haMode.None? ==> c.haMode == NONE)
      && (b.haMode.Some? ==> lib.haModeFrom(b.haMode.value) == Some(c.haMode))
      && c.connectTimeout == OrElse(b.connectTimeout, OfSeconds(DEFAULT_CONNECT_TIMEOUT_SECONDS))
      && c.tcpKeepAlive == OrElse(b.tcpKeepAlive, false)
      && c.tcpAbortiveClose == OrElse(b.tcpAbortiveClose, false)
      && c.transactionReplay == OrElse(b.transactionReplay, false)
      && c.prepareCacheSize == OrElse(b.prepareCacheSize, DEFAULT_PREPARE_CACHE_SIZE)
      && c.loopResources == OrElse(b.loopResources, lib.defaultLoopResources)
  {
    NewConfigurationAssembles(b, lib);
  }

  /**
   * Empty database and password names become absent and non-empty ones are kept;
   * server-side preparation is on exactly when requested without multi-queries.
   */
  lemma NewConfigurationNormalizes(b: BuilderState, lib: Library)
    requires NewConfiguration(b, lib).Success?
    ensures
      var c := NewConfiguration(b, lib).value;
      && (c.database.None? <==> b.database.None? || b.database == Some(""))
      && (c.database.Some? ==> c.database == b.database)
      && (c.password.None? <==> b.password.None? || b.password == Some(""))
      && (c.password.Some? ==> c.password == b.password)
      && (c.useServerPrepStmts <==> !b.allowMultiQueries && b.useServerPrepStmts)
  {
    NewConfigurationAssembles(b, lib);
  }

  /**
   * TLS is the shared disabled instance exactly when the mode is DISABLE, and
   * otherwise carries the mode, certificates, key, key password, protocols and
   * customizer of the builder.
   */
  lemma NewConfigurationSsl(b: BuilderState, lib: Library)
    requires NewConfiguration(b, lib).Success?
    ensures
      var c := NewConfiguration(b, lib).value;
      && (c.sslConfig == DisableInstance <==> b.sslMode == DISABLE)
      && (b.sslMode != DISABLE ==> c.sslConfig == SslConfig(b.sslMode, b.serverSslCert,
            b.clientSslCert, b.clientSslKey, b.clientSslPassword, b.tlsProtocol,
            b.sslContextBuilderCustomizer))
  {
    NewConfigurationAssembles(b, lib);
  }

  /**
   * The host list is the explicit one when given and otherwise the parse of host
   * and port; the restricted plugin list is the ','-split of its string.
   */
  lemma NewConfigurationHosts(b: BuilderState, lib: Library)
    requires NewConfiguration(b, lib).Success?
    ensures
      var c := NewConfiguration(b, lib).value;
      && (b.hostAddresses.Some? ==> c.hostAddresses == b.hostAddresses.value)
      && (b.hostAddresses.None? ==> lib.parseHosts(b.host, b.port) == Some(c.hostAddresses))
      && (c.restrictedAuth.Some? <==> b.restrictedAuth.Some?)
      && (b.restrictedAuth.Some? ==> c.restrictedAuth.value == Split(b.restrictedAuth.value, ','))
  {
    NewConfigurationAssembles(b, lib);
  }

  /** Every other field is carried over from the builder unchanged. */
  lemma NewConfigurationCarriesOver(b: BuilderState, lib: Library)
    requires NewConfiguration(b, lib).Success?
    ensures
      var c := NewConfiguration(b, lib).value;
      && c.port == b.port && c.socket == b.socket && c.username == b.username
      && c.allowMultiQueries == b.allowMultiQueries && c.allowPipelining == b.allowPipelining
      && c.connectionAttributes == b.connectionAttributes
      && c.sessionVariables == b.sessionVariables
      && c.rsaPublicKey == b.rsaPublicKey && c.cachingRsaPublicKey == b.cachingRsaPublicKey
      && c.allowPublicKeyRetrieval == b.allowPublicKeyRetrieval
      && c.isolationLevel == b.isolationLevel && c.autocommit == b.autocommit
      && c.tinyInt1isBit == b.tinyInt1isBit && c.pamOtherPwd == b.pamOtherPwd
      && c.sslContextBuilderCustomizer == b.sslContextBuilderCustomizer
  {
    NewConfigurationAssembles(b, lib);
  }

  /**
   * A Builder left as new, given only an endpoint and a user name, builds a
   * configuration with every default: HA mode NONE, a 10 s connect timeout, no
   * keep-alive, abortive close or transaction replay, 250 cached prepared
   * statements, port 3306, text protocol, pipelining and autocommit on.
   */
  lemma NewBuilderDefaults(host: string, user: string, lib: Library)
    requires lib.parseHosts(Some(host), DEFAULT_PORT).Some?
    ensures
      var r := NewConfiguration(NewBuilderState.(host := Some(host), username := Some(user)), lib);
      && r.Success?
      && r.value.haMode == NONE
      && r.value.connectTimeout == Duration(10, 0)
      && !r.value.tcpKeepAlive && !r.value.tcpAbortiveClose && !r.value.transactionReplay
      && r.value.prepareCacheSize == 250 && r.value.port == 3306
      && !r.value.useServerPrepStmts && r.value.allowPipelining && r.value.autocommit
      && r.value.sslConfig == DisableInstance
      && r.value.database.None? && r.value.password.None?
  {
  }

  // ---------------------------------------------------------------------------
  // toString

  /** String.valueOf of a nullable string. */
  function Str(s: Option<string>): string {
    if s.None? then "null" else s.value
  }

  /** The password as toString shows it: "*" when one is set, nothing otherwise. */
  function HiddenPassword(password: Option<string>): (r: string)
    ensures r == "*" <==> password.Some?
    ensures r == "" <==> password.None?
  {
    if password.Some? then "*" else ""
  }

  /** "*,*,...,*": one star for each of n entries. */
  function Stars(n: nat): (r: string)
    requires n >= 1
    ensures |r| == 2 * n - 1
    ensures forall i :: 0 <= i < |r| ==> r[i] == if i % 2 == 0 then '*' else ','
  {
    if n == 1 then "*" else Stars(n - 1) + ",*"
  }

  /**
   * The PAM passwords as toString shows them: nothing when there are none, a star
   * per entry otherwise; an empty array makes deleteCharAt(-1) throw.
   */
  function HiddenPamPasswords(pam: Option<seq<string>>): (r: Result<string, ConfigError>)
    ensures r.Failure? <==> pam == Some([])
    ensures r.Failure? ==> r.error == StringIndexOutOfBounds
    ensures pam.None? ==> r == Success("")
    ensures pam.Some? && pam.value != [] ==> r == Success(Stars(|pam.value|))
  {
    if pam.None? then Success("")
    else if |pam.value| == 0 then Failure(StringIndexOutOfBounds)
    else Success(Stars(|pam.value|))
  }

  /**
   * The loop of both toString methods: append "*" and "," per PAM entry, then
   * delete the last character.
   */
  method HidePamPasswords(pam: Option<seq<string>>) returns (r: Result<string, ConfigError>)
    ensures r.Failure? <==> pam == Some([])
    ensures pam.None? ==> r == Success("")
    ensures pam.Some? && pam.value != [] ==>
      && r.Success?
      && |r.value| == 2 * |pam.value| - 1
      && forall i :: 0 <= i < |r.value| ==> r.value[i] == if i % 2 == 0 then '*' else ','
    ensures r == HiddenPamPasswords(pam)
  {
    var hidden: string := "";
    if pam.Some? {
      var entries := pam.value;
      for k := 0 to |entries|
        invariant |hidden| == 2 * k
        invariant forall i :: 0 <= i < |hidden| ==> hidden[i] == if i % 2 == 0 then '*' else ','
      {
        hidden := hidden + "*";
        hidden := hidden + ",";
      }
      if |hidden| == 0 {
        return Failure(StringIndexOutOfBounds);
      }
      hidden := hidden[..|hidden| - 1];
      assert hidden == Stars(|entries|);
    }
    return Success(hidden);
  }

  /** The values MariadbConnectionConfiguration.toString prints. */
  datatype ConfigurationField =
    | DatabaseField | HostAddressesField | ConnectTimeoutField | TcpKeepAliveField
    | TcpAbortiveCloseField | TransactionReplayField | PasswordField | PrepareCacheSizeField
    | SocketField | UsernameField | AllowMultiQueriesField | AllowPipeliningField
    | ConnectionAttributesField | SessionVariablesField | SslConfigField | RsaPublicKeyField
    | CachingRsaPublicKeyField | AllowPublicKeyRetrievalField | IsolationLevelField
    | UseServerPrepStmtsField | AutocommitField | TinyInt1isBitField | PamOtherPwdField
    | RestrictedAuthField

  /** The values toString prints, in its order. */
  const CONFIGURATION_LAYOUT: seq<ConfigurationField> := [
    DatabaseField, HostAddressesField, ConnectTimeoutField, TcpKeepAliveField,
    TcpAbortiveCloseField, TransactionReplayField, PasswordField, PrepareCacheSizeField,
    SocketField, UsernameField, AllowMultiQueriesField, AllowPipeliningField,
    ConnectionAttributesField, SessionVariablesField, SslConfigField, RsaPublicKeyField,
    CachingRsaPublicKeyField, AllowPublicKeyRetrievalField, IsolationLevelField,
    UseServerPrepStmtsField, AutocommitField, TinyInt1isBitField, PamOtherPwdField,
    RestrictedAuthField]

  /** The label printed before a value. */
  function ConfigurationLabel(f: ConfigurationField): string {
    match f
    case DatabaseField => "database='"
    case HostAddressesField => ", hosts={"
    case ConnectTimeoutField => ", connectTimeout="
    case TcpKeepAliveField => ", tcpKeepAlive="
    case TcpAbortiveCloseField => ", tcpAbortiveClose="
    case TransactionReplayField => ", transactionReplay="
    case PasswordField => ", password="
    case PrepareCacheSizeField => ", prepareCacheSize="
    case SocketField => ", socket='"
    case UsernameField => ", username='"
    case AllowMultiQueriesField => ", allowMultiQueries="
    case AllowPipeliningField => ", allowPipelining="
    case ConnectionAttributesField => ", connectionAttributes="
    case SessionVariablesField => ", sessionVariables="
    case SslConfigField => ", sslConfig="
    case RsaPublicKeyField => ", rsaPublicKey='"
    case CachingRsaPublicKeyField => ", cachingRsaPublicKey='"
    case AllowPublicKeyRetrievalField => ", allowPublicKeyRetrieval="
    case IsolationLevelField => ", isolationLevel="
    case UseServerPrepStmtsField => ", useServerPrepStmts="
    case AutocommitField => ", autocommit="
    case TinyInt1isBitField => ", tinyInt1isBit="
    case PamOtherPwdField => ", pamOtherPwd="
    case RestrictedAuthField => ", restrictedAuth="
  }

  /** What follows a value: the closing quote of a quoted value, the hosts' closing brace. */
  function ConfigurationCloser(f: ConfigurationField): string {
    match f
    case DatabaseField => "'"
    case SocketField => "'"
    case UsernameField => "'"
    case RsaPublicKeyField => "'"
    case CachingRsaPublicKeyField => "'"
    case HostAddressesField => "}"
    case _ => ""
  }

  /**
   * How one value prints. The password and the PAM passwords print as the texts
   * given for them, so nothing here reads a secret.
   */
  function ConfigurationFieldText(c: Configuration, lib: Library, hiddenPwd: string, hiddenPamPwd: string,
                                  f: ConfigurationField): string {
    match f
    case DatabaseField => Str(c.database)
    case HostAddressesField => lib.hostsText(c.hostAddresses)
    case ConnectTimeoutField => lib.durationText(c.connectTimeout)
    case TcpKeepAliveField => ShowBool(c.tcpKeepAlive)
    case TcpAbortiveCloseField => ShowBool(c.tcpAbortiveClose)
    case TransactionReplayField => ShowBool(c.transactionReplay)
    case PasswordField => hiddenPwd
    case PrepareCacheSizeField => Show(c.prepareCacheSize)
    case SocketField => Str(c.socket)
    case UsernameField => Str(c.username)
    case AllowMultiQueriesField => ShowBool(c.allowMultiQueries)
    case AllowPipeliningField => ShowBool(c.allowPipelining)
    case ConnectionAttributesField => MapStr(c.connectionAttributes, lib)
    case SessionVariablesField => MapStr(c.sessionVariables, lib)
    case SslConfigField => lib.sslConfigText(c.sslConfig)
    case RsaPublicKeyField => Str(c.rsaPublicKey)
    case CachingRsaPublicKeyField => Str(c.cachingRsaPublicKey)
    case AllowPublicKeyRetrievalField => ShowBool(c.allowPublicKeyRetrieval)
    case IsolationLevelField => IsolationStr(c.isolationLevel, lib)
    case UseServerPrepStmtsField => ShowBool(c.useServerPrepStmts)
    case AutocommitField => ShowBool(c.autocommit)
    case TinyInt1isBitField => ShowBool(c.tinyInt1isBit)
    case PamOtherPwdField => hiddenPamPwd
    case RestrictedAuthField => ArrayStr(c.restrictedAuth, lib)
  }

  /** Each label followed by its value and what closes it, in the layout's order. */
  function ConfigurationLayoutText(c: Configuration, lib: Library, hiddenPwd: string, hiddenPamPwd: string,
                                   layout: seq<ConfigurationField>): string
  {
    if layout == [] then ""
    else
      ConfigurationLabel(layout[0]) + ConfigurationFieldText(c, lib, hiddenPwd, hiddenPamPwd, layout[0])
      + ConfigurationCloser(layout[0])
      + ConfigurationLayoutText(c, lib, hiddenPwd, hiddenPamPwd, layout[1..])
  }

  /** The text around the given renderings of the secrets. */
  function ConfigurationShown(c: Configuration, lib: Library, hiddenPwd: string, hiddenPamPwd: string): string {
    "MariadbConnectionConfiguration{"
    + ConfigurationLayoutText(c, lib, hiddenPwd, hiddenPamPwd, CONFIGURATION_LAYOUT) + "}"
  }

  /** MariadbConnectionConfiguration.toString, or the exception it throws. */
  function ConfigurationText(c: Configuration, lib: Library): Result<string, ConfigError> {
    var hiddenPamPwd :- HiddenPamPasswords(c.pamOtherPwd);
    Success(ConfigurationShown(c, lib, HiddenPassword(c.password), hiddenPamPwd))
  }

  /** String.valueOf of a nullable map. */
  function MapStr(m: Option<map<string, string>>, lib: Library): string {
    if m.None? then "null" else lib.mapText(m.value)
  }

  /** String.valueOf of a nullable isolation level. */
  function IsolationStr(level: Option<IsolationLevel>, lib: Library): string {
    if level.None? then "null" else lib.isolationLevelText(level.value)
  }

  /** String.valueOf of a nullable String[]. */
  function ArrayStr(a: Option<seq<string>>, lib: Library): string {
    if a.None? then "null" else lib.arrayText(a.value)
  }

  /** MariadbConnectionConfiguration.toString. */
  method ConfigurationToString(c: Configuration, lib: Library) returns (r: Result<string, ConfigError>)
    ensures r == ConfigurationText(c, lib)
  {
    var hiddenPwd := "";
    if c.password.Some? {
      hiddenPwd := hiddenPwd + "*";
    }
    assert hiddenPwd == HiddenPassword(c.password);
    var hiddenPamPwd :- HidePamPasswords(c.pamOtherPwd);
    r := Success(ConfigurationShown(c, lib, hiddenPwd, hiddenPamPwd));
  }

  /** The values of the secrets themselves are never printed. */
  lemma {:induction false} ConfigurationLayoutIgnoresSecrets(c: Configuration, lib: Library, hiddenPwd: string,
      hiddenPamPwd: string, layout: seq<ConfigurationField>, password: Option<string>, pam: Option<seq<string>>)
    ensures ConfigurationLayoutText(c.(password := password, pamOtherPwd := pam), lib, hiddenPwd, hiddenPamPwd, layout)
         == ConfigurationLayoutText(c, lib, hiddenPwd, hiddenPamPwd, layout)
  {
    if layout != [] {
      ConfigurationFieldIgnoresSecrets(c, lib, hiddenPwd, hiddenPamPwd, layout[0], password, pam);
      ConfigurationLayoutIgnoresSecrets(c, lib, hiddenPwd, hiddenPamPwd, layout[1..], password, pam);
    }
  }

  lemma ConfigurationFieldIgnoresSecrets(c: Configuration, lib: Library, hiddenPwd: string,
      hiddenPamPwd: string, f: ConfigurationField, password: Option<string>, pam: Option<seq<string>>)
    ensures ConfigurationFieldText(c.(password := password, pamOtherPwd := pam), lib, hiddenPwd, hiddenPamPwd, f)
         == ConfigurationFieldText(c, lib, hiddenPwd, hiddenPamPwd, f)
  {
  }

  /**
   * toString shows no secret: replacing the password by any other password (or
   * null by null), and the PAM passwords by as many other ones (or null by
   * null), leaves the text unchanged.
   */
  lemma ConfigurationTextHidesSecrets(c: Configuration, lib: Library, password: Option<string>, pam: Option<seq<string>>)
    requires password.Some? == c.password.Some?
    requires pam.Some? == c.pamOtherPwd.Some?
    requires pam.Some? ==> |pam.value| == |c.pamOtherPwd.value|
    ensures ConfigurationText(c.(password := password, pamOtherPwd := pam), lib) == ConfigurationText(c, lib)
  {
    HiddenPamPasswordsByCount(pam, c.pamOtherPwd);
    var c' := c.(password := password, pamOtherPwd := pam);
    var hiddenPwd := HiddenPassword(c.password);
    assert HiddenPassword(c'.password) == hiddenPwd;
    if c.pamOtherPwd != Some([]) {
      var hiddenPamPwd := HiddenPamPasswords(c.pamOtherPwd).value;
      ConfigurationLayoutIgnoresSecrets(c, lib, hiddenPwd, hiddenPamPwd, CONFIGURATION_LAYOUT, password, pam);
    }
  }

  /** The masked PAM passwords depend only on whether there are any and how many. */
  lemma HiddenPamPasswordsByCount(p: Option<seq<string>>, q: Option<seq<string>>)
    requires p.Some? == q.Some?
    requires p.Some? ==> |p.value| == |q.value|
    ensures HiddenPamPasswords(p) == HiddenPamPasswords(q)
  {
  }
}
