/**
 * MariadbConnectionConfiguration.Builder: a mutable record of connection options
 * whose setters overwrite one field each, whose build() checks that exactly one
 * of host and socket is set and that a user name is set before running the
 * private constructor, and whose toString masks the secrets it holds.
 */
module ConfigBuilder {
  import opened JavaLang
  import opened External
  import opened OptionValues
  import opened ConnectionConfiguration

  const HOST_OR_SOCKET_REQUIRED: string := "host or socket must not be null"
  const HOST_AND_SOCKET_EXCLUSIVE: string :=
    "Connection must be configured for either host/port or socket usage but not both"
  const USERNAME_REQUIRED: string := "username must not be null"
  // socket(null) reports the host's message too
  const HOST_REQUIRED: string := "host must not be null"
  const LOOP_RESOURCES_REQUIRED: string := "loopResources must not be null"

  // ---------------------------------------------------------------------------
  // tlsProtocol(String...)

  /** The non-null entries of a varargs array, in their order. */
  function NonNull(xs: seq<Option<string>>): (r: seq<string>)
    ensures |r| <= |xs|
    ensures forall s :: s in r <==> Some(s) in xs
    ensures r == [] <==> forall i :: 0 <= i < |xs| ==> xs[i].None?
  {
    if xs == [] then []
    else
      var init := xs[..|xs| - 1];
      assert xs == init + [xs[|xs| - 1]];
      NonNull(init) + (if xs[|xs| - 1].Some? then [xs[|xs| - 1].value] else [])
  }

  /** A String[] none of whose entries is null. */
  function Wrap(ys: seq<string>): (r: seq<Option<string>>)
    ensures |r| == |ys|
    ensures forall i :: 0 <= i < |ys| ==> r[i] == Some(ys[i])
  {
    seq(|ys|, i requires 0 <= i < |ys| => Some(ys[i]))
  }

  /** Without null entries nothing is dropped. */
  lemma {:induction false} NonNullOfWrap(ys: seq<string>)
    ensures NonNull(Wrap(ys)) == ys
  {
    if ys != [] {
      var init := ys[..|ys| - 1];
      NonNullOfWrap(init);
      assert Wrap(ys)[..|ys| - 1] == Wrap(init);
    }
  }

  /** The loop of tlsProtocol(String...): copies the non-null entries in order. */
  method CopyNonNull(given: seq<Option<string>>) returns (kept: seq<string>)
    ensures kept == NonNull(given)
  {
    kept := [];
    for i := 0 to |given|
      invariant kept == NonNull(given[..i])
    {
      assert given[..i + 1][..i] == given[..i];
      if given[i].Some? {
        kept := kept + [given[i].value];
      }
    }
    assert given[..|given|] == given;
  }

  /**
   * The fields after tlsProtocol(protocols): null clears the list; otherwise the
   * non-null entries replace it, unless there are none.
   */
  function WithTlsProtocol(b: BuilderState, protocols: Option<seq<Option<string>>>): (r: BuilderState)
    ensures r.(tlsProtocol := b.tlsProtocol) == b
  {
    if protocols.None? then b.(tlsProtocol := None)
    else
      var kept := NonNull(protocols.value);
      if kept == [] then b else b.(tlsProtocol := Some(kept))
  }

  /**
   * A null argument to tlsProtocol clears the protocol list; an
   * array of nulls leaves it as it was; otherwise it becomes a non-empty list of
   * exactly the array's non-null entries.
   */
  lemma WithTlsProtocolSetsNonNull(b: BuilderState, protocols: Option<seq<Option<string>>>)
    ensures protocols.None? ==> WithTlsProtocol(b, protocols).tlsProtocol.None?
    ensures protocols.Some? && (forall i :: 0 <= i < |protocols.value| ==> protocols.value[i].None?) ==>
      WithTlsProtocol(b, protocols) == b
    ensures protocols.Some? && (exists i :: 0 <= i < |protocols.value| && protocols.value[i].Some?) ==>
      var stored := WithTlsProtocol(b, protocols).tlsProtocol;
      && stored.Some? && |stored.value| >= 1 && |stored.value| <= |protocols.value|
      && forall s :: s in stored.value <==> Some(s) in protocols.value
  {
    if protocols.Some? {
      var kept := NonNull(protocols.value);
      if kept == [] {
        assert WithTlsProtocol(b, protocols) == b;
      } else {
        assert WithTlsProtocol(b, protocols) == b.(tlsProtocol := Some(kept));
      }
    }
  }

  // ---------------------------------------------------------------------------
  // The Builder

  class Builder {
    var haMode: Option<string>
    var rsaPublicKey: Option<string>
    var cachingRsaPublicKey: Option<string>
    var allowPublicKeyRetrieval: bool
    var username: Option<string>
    var connectTimeout: Option<Duration>
    var tcpKeepAlive: Option<bool>
    var tcpAbortiveClose: Option<bool>
    var transactionReplay: Option<bool>
    var database: Option<string>
    var hostAddresses: Option<seq<HostAddress>>
    var host: Option<string>
    var sessionVariables: Option<map<string, string>>
    var connectionAttributes: Option<map<string, string>>
    var password: Option<string>
    var port: Int32
    var socket: Option<string>
    var allowMultiQueries: bool
    var allowPipelining: bool
    var useServerPrepStmts: bool
    var isolationLevel: Option<IsolationLevel>
    var autocommit: bool
    var tinyInt1isBit: bool
    var prepareCacheSize: Option<Int32>
    var tlsProtocol: Option<seq<string>>
    var serverSslCert: Option<string>
    var clientSslCert: Option<string>
    var clientSslKey: Option<string>
    var clientSslPassword: Option<string>
    var sslMode: SslMode
    var pamOtherPwd: Option<seq<string>>
    var restrictedAuth: Option<string>
    var loopResources: Option<ObjectRef>
    var sslContextBuilderCustomizer: Option<ObjectRef>

    /** The current field values. */
    function State(): BuilderState
      reads this
    {
      BuilderState(haMode, rsaPublicKey, cachingRsaPublicKey, allowPublicKeyRetrieval,
        username, connectTimeout, tcpKeepAlive, tcpAbortiveClose, transactionReplay,
        database, hostAddresses, host, sessionVariables, connectionAttributes, password,
        port, socket, allowMultiQueries, allowPipelining, useServerPrepStmts,
        isolationLevel, autocommit, tinyInt1isBit, prepareCacheSize, tlsProtocol,
        serverSslCert, clientSslCert, clientSslKey, clientSslPassword, sslMode,
        pamOtherPwd, restrictedAuth, loopResources, sslContextBuilderCustomizer)
    }

    /** A new Builder holds the field initialisers' values. */
    constructor ()
      ensures State() == NewBuilderState
    {
      haMode := None;
      rsaPublicKey := None;
      cachingRsaPublicKey := None;
      allowPublicKeyRetrieval := false;
      username := None;
      connectTimeout := None;
      tcpKeepAlive := None;
      tcpAbortiveClose := None;
      transactionReplay := None;
      database := None;
      hostAddresses := None;
      host := None;
      sessionVariables := None;
      connectionAttributes := None;
      password := None;
      port := DEFAULT_PORT;
      socket := None;
      allowMultiQueries := false;
      allowPipelining := true;
      useServerPrepStmts := false;
      isolationLevel := None;
      autocommit := true;
      tinyInt1isBit := true;
      prepareCacheSize := None;
      tlsProtocol := None;
      serverSslCert := None;
      clientSslCert := None;
      clientSslKey := None;
      clientSslPassword := None;
      sslMode := DISABLE;
      pamOtherPwd := None;
      restrictedAuth := None;
      loopResources := None;
      sslContextBuilderCustomizer := None;
    }

    /**
     * build(): rejects a builder with neither or both of host and socket, or
     * without a user name, in that order, and otherwise runs the private
     * constructor on the fields.
     */
    method Build(lib: Library) returns (r: Result<Configuration, ConfigError>)
      ensures host.None? && socket.None? ==> r == Failure(IllegalArgument(HOST_OR_SOCKET_REQUIRED))
      ensures host.Some? && socket.Some? ==> r == Failure(IllegalArgument(HOST_AND_SOCKET_EXCLUSIVE))
      ensures host.Some? != socket.Some? && username.None? ==>
        r == Failure(IllegalArgument(USERNAME_REQUIRED))
      ensures host.Some? != socket.Some? && username.Some? ==> r == NewConfiguration(State(), lib)
      ensures r.Success? ==> Normalized(r.value) && r.value.username.Some?
    {
      if host.None? && socket.None? {
        return Failure(IllegalArgument(HOST_OR_SOCKET_REQUIRED));
      }
      if host.Some? && socket.Some? {
        return Failure(IllegalArgument(HOST_AND_SOCKET_EXCLUSIVE));
      }
      if username.None? {
        return Failure(IllegalArgument(USERNAME_REQUIRED));
      }
      r := NewConfiguration(State(), lib);
      if r.Success? {
        NewConfigurationCarriesOver(State(), lib);
      }
    }

    method ConnectTimeout(connectTimeout: Option<Duration>)
      modifies this
      ensures State() == old(State()).(connectTimeout := connectTimeout)
    {
      this.connectTimeout := connectTimeout;
    }

    method HaMode(haMode: Option<string>)
      modifies this
      ensures State() == old(State()).(haMode := haMode)
    {
      this.haMode := haMode;
    }

    method HostAddresses(hostAddresses: Option<seq<HostAddress>>)
      modifies this
      ensures State() == old(State()).(hostAddresses := hostAddresses)
    {
      this.hostAddresses := hostAddresses;
    }

    method RestrictedAuth(restrictedAuth: Option<string>)
      modifies this
      ensures State() == old(State()).(restrictedAuth := restrictedAuth)
    {
      this.restrictedAuth := restrictedAuth;
    }

    method TcpKeepAlive(tcpKeepAlive: Option<bool>)
      modifies this
      ensures State() == old(State()).(tcpKeepAlive := tcpKeepAlive)
    {
      this.tcpKeepAlive := tcpKeepAlive;
    }

    method TcpAbortiveClose(tcpAbortiveClose: Option<bool>)
      modifies this
      ensures State() == old(State()).(tcpAbortiveClose := tcpAbortiveClose)
    {
      this.tcpAbortiveClose := tcpAbortiveClose;
    }

    method TransactionReplay(transactionReplay: Option<bool>)
      modifies this
      ensures State() == old(State()).(transactionReplay := transactionReplay)
    {
      this.transactionReplay := transactionReplay;
    }

    method ConnectionAttributes(connectionAttributes: Option<map<string, string>>)
      modifies this
      ensures State() == old(State()).(connectionAttributes := connectionAttributes)
    {
      this.connectionAttributes := connectionAttributes;
    }

    method SessionVariables(sessionVariables: Option<map<string, string>>)
      modifies this
      ensures State() == old(State()).(sessionVariables := sessionVariables)
    {
      this.sessionVariables := sessionVariables;
    }

    method PamOtherPwd(pamOtherPwd: Option<seq<string>>)
      modifies this
      ensures State() == old(State()).(pamOtherPwd := pamOtherPwd)
    {
      this.pamOtherPwd := pamOtherPwd;
    }

    method Database(database: Option<string>)
      modifies this
      ensures State() == old(State()).(database := database)
    {
      this.database := database;
    }

    /** host(h): Assert.requireNonNull throws on null and leaves the builder as it was. */
    method Host(host: Option<string>) returns (o: Outcome<ConfigError>)
      modifies this
      ensures host.None? ==> o == Fail(IllegalArgument(HOST_REQUIRED)) && State() == old(State())
      ensures host.Some? ==> o == Pass && State() == old(State()).(host := host)
    {
      if host.None? {
        return Fail(IllegalArgument(HOST_REQUIRED));
      }
      this.host := host;
      return Pass;
    }

    method Password(password: Option<string>)
      modifies this
      ensures State() == old(State()).(password := password)
    {
      this.password := password;
    }

    /** tlsProtocol(String...): copies the non-null entries into a fresh list. */
    method TlsProtocol(tlsProtocol: Option<seq<Option<string>>>)
      modifies this
      ensures State() == WithTlsProtocol(old(State()), tlsProtocol)
    {
      if tlsProtocol.None? {
        this.tlsProtocol := None;
        return;
      }
      var tmp := CopyNonNull(tlsProtocol.value);
      if tmp != [] {
        this.tlsProtocol := Some(tmp);
      }
    }

    method ServerSslCert(serverSslCert: Option<string>)
      modifies this
      ensures State() == old(State()).(serverSslCert := serverSslCert)
    {
      this.serverSslCert := serverSslCert;
    }

    method PrepareCacheSize(prepareCacheSize: Option<Int32>)
      modifies this
      ensures State() == old(State()).(prepareCacheSize := prepareCacheSize)
    {
      this.prepareCacheSize := prepareCacheSize;
    }

    method ClientSslCert(clientSslCert: Option<string>)
      modifies this
      ensures State() == old(State()).(clientSslCert := clientSslCert)
    {
      this.clientSslCert := clientSslCert;
    }

    method ClientSslKey(clientSslKey: Option<string>)
      modifies this
      ensures State() == old(State()).(clientSslKey := clientSslKey)
    {
      this.clientSslKey := clientSslKey;
    }

    method ClientSslPassword(clientSslPassword: Option<string>)
      modifies this
      ensures State() == old(State()).(clientSslPassword := clientSslPassword)
    {
      this.clientSslPassword := clientSslPassword;
    }

    /** sslMode(m): null stands for DISABLE. */
    method SslMode(sslMode: Option<SslMode>)
      modifies this
      ensures State() == old(State()).(sslMode := if sslMode.Some? then sslMode.value else DISABLE)
      ensures this.sslMode == DISABLE <==> sslMode.None? || sslMode == Some(DISABLE)
    {
      if sslMode.Some? {
        this.sslMode := sslMode.value;
      } else {
        this.sslMode := DISABLE;
      }
    }

    method RsaPublicKey(rsaPublicKey: Option<string>)
      modifies this
      ensures State() == old(State()).(rsaPublicKey := rsaPublicKey)
    {
      this.rsaPublicKey := rsaPublicKey;
    }

    method CachingRsaPublicKey(cachingRsaPublicKey: Option<string>)
      modifies this
      ensures State() == old(State()).(cachingRsaPublicKey := cachingRsaPublicKey)
    {
      this.cachingRsaPublicKey := cachingRsaPublicKey;
    }

    method AllowPublicKeyRetrieval(allowPublicKeyRetrieval: bool)
      modifies this
      ensures State() == old(State()).(allowPublicKeyRetrieval := allowPublicKeyRetrieval)
    {
      this.allowPublicKeyRetrieval := allowPublicKeyRetrieval;
    }

    method UseServerPrepStmts(useServerPrepStmts: bool)
      modifies this
      ensures State() == old(State()).(useServerPrepStmts := useServerPrepStmts)
    {
      this.useServerPrepStmts := useServerPrepStmts;
    }

    method IsolationLevel(isolationLevel: Option<IsolationLevel>)
      modifies this
      ensures State() == old(State()).(isolationLevel := isolationLevel)
    {
      this.isolationLevel := isolationLevel;
    }

    method Autocommit(autocommit: bool)
      modifies this
      ensures State() == old(State()).(autocommit := autocommit)
    {
      this.autocommit := autocommit;
    }

    method TinyInt1isBit(tinyInt1isBit: bool)
      modifies this
      ensures State() == old(State()).(tinyInt1isBit := tinyInt1isBit)
    {
      this.tinyInt1isBit := tinyInt1isBit;
    }

    method AllowPipelining(allowPipelining: bool)
      modifies this
      ensures State() == old(State()).(allowPipelining := allowPipelining)
    {
      this.allowPipelining := allowPipelining;
    }

    method Port(port: Int32)
      modifies this
      ensures State() == old(State()).(port := port)
    {
      this.port := port;
    }

    method AllowMultiQueries(allowMultiQueries: bool)
      modifies this
      ensures State() == old(State()).(allowMultiQueries := allowMultiQueries)
    {
      this.allowMultiQueries := allowMultiQueries;
    }

    /** socket(s): Assert.requireNonNull throws on null, with the host's message. */
    method Socket(socket: Option<string>) returns (o: Outcome<ConfigError>)
      modifies this
      ensures socket.None? ==> o == Fail(IllegalArgument(HOST_REQUIRED)) && State() == old(State())
      ensures socket.Some? ==> o == Pass && State() == old(State()).(socket := socket)
    {
      if socket.None? {
        return Fail(IllegalArgument(HOST_REQUIRED));
      }
      this.socket := socket;
      return Pass;
    }

    /** username(u): Assert.requireNonNull throws on null. */
    method Username(username: Option<string>) returns (o: Outcome<ConfigError>)
      modifies this
      ensures username.None? ==> o == Fail(IllegalArgument(USERNAME_REQUIRED)) && State() == old(State())
      ensures username.Some? ==> o == Pass && State() == old(State()).(username := username)
    {
      if username.None? {
        return Fail(IllegalArgument(USERNAME_REQUIRED));
      }
      this.username := username;
      return Pass;
    }

    /** loopResources(l): Assert.requireNonNull throws on null. */
    method LoopResources(loopResources: Option<ObjectRef>) returns (o: Outcome<ConfigError>)
      modifies this
      ensures loopResources.None? ==>
        o == Fail(IllegalArgument(LOOP_RESOURCES_REQUIRED)) && State() == old(State())
      ensures loopResources.Some? ==> o == Pass && State() == old(State()).(loopResources := loopResources)
    {
      if loopResources.None? {
        return Fail(IllegalArgument(LOOP_RESOURCES_REQUIRED));
      }
      this.loopResources := loopResources;
      return Pass;
    }

    method SslContextBuilderCustomizer(sslContextBuilderCustomizer: Option<ObjectRef>)
      modifies this
      ensures State() == old(State()).(sslContextBuilderCustomizer := sslContextBuilderCustomizer)
    {
      this.sslContextBuilderCustomizer := sslContextBuilderCustomizer;
    }

    /** Builder.toString, with the key password masked like the other secrets. */
    method ToString(lib: Library) returns (r: Result<string, ConfigError>)
      ensures r == BuilderText(State(), lib)
    {
      var hiddenPwd := "";
      if password.Some? {
        hiddenPwd := hiddenPwd + "*";
      }
      var hiddenPamPwd :- HidePamPasswords(pamOtherPwd);
      var hiddenSslPwd := "";
      if clientSslPassword.Some? {
        hiddenSslPwd := hiddenSslPwd + "*";
      }
      assert hiddenPwd == HiddenPassword(password);
      assert hiddenSslPwd == HiddenPassword(clientSslPassword);
      return Success(BuilderShown(State(), lib, hiddenPwd, hiddenSslPwd, hiddenPamPwd));
    }
  }

  // ---------------------------------------------------------------------------
  // Builder.toString

  /** String.valueOf of a nullable Boolean. */
  function FlagStr(b: Option<bool>): string {
    if b.None? then "null" else ShowBool(b.value)
  }

  /** String.valueOf of a nullable Integer. */
  function IntStr(n: Option<Int32>): string {
    if n.None? then "null" else Show(n.value)
  }

  /** String.valueOf of a nullable Duration. */
  function DurationStr(d: Option<Duration>, lib: Library): string {
    if d.None? then "null" else lib.durationText(d.value)
  }

  /** String.valueOf of a nullable List<String>. */
  function ListStr(xs: Option<seq<string>>): string {
    if xs.None? then "null" else ListText(xs.value)
  }

  /** The values Builder.toString prints. */
  datatype BuilderSetting =
    | RsaPublicKeySetting | CachingRsaPublicKeySetting | AllowPublicKeyRetrievalSetting
    | UsernameSetting | ConnectTimeoutSetting | TcpKeepAliveSetting | TcpAbortiveCloseSetting
    | TransactionReplaySetting | DatabaseSetting | HostSetting | SessionVariablesSetting
    | ConnectionAttributesSetting | PasswordSetting | RestrictedAuthSetting | PortSetting
    | HostAddressesSetting | SocketSetting | AllowMultiQueriesSetting | AllowPipeliningSetting
    | UseServerPrepStmtsSetting | IsolationLevelSetting | PrepareCacheSizeSetting
    | TlsProtocolSetting | ServerSslCertSetting | ClientSslCertSetting | ClientSslKeySetting
    | ClientSslPasswordSetting | SslModeSetting | PamOtherPwdSetting | TinyInt1isBitSetting
    | AutocommitSetting

  /**
   * The values Builder.toString prints, in its order: those before the key
   * password, the key password, and those after.
   */
  const BUILDER_LAYOUT: seq<BuilderSetting> :=
    BUILDER_HEAD_LAYOUT + [ClientSslPasswordSetting] + BUILDER_TAIL_LAYOUT

  const BUILDER_HEAD_LAYOUT: seq<BuilderSetting> := [
    RsaPublicKeySetting, CachingRsaPublicKeySetting, AllowPublicKeyRetrievalSetting, UsernameSetting,
    ConnectTimeoutSetting, TcpKeepAliveSetting, TcpAbortiveCloseSetting, TransactionReplaySetting,
    DatabaseSetting, HostSetting, SessionVariablesSetting, ConnectionAttributesSetting, PasswordSetting,
    RestrictedAuthSetting, PortSetting, HostAddressesSetting, SocketSetting, AllowMultiQueriesSetting,
    AllowPipeliningSetting, UseServerPrepStmtsSetting, IsolationLevelSetting, PrepareCacheSizeSetting,
    TlsProtocolSetting, ServerSslCertSetting, ClientSslCertSetting, ClientSslKeySetting]

  const BUILDER_TAIL_LAYOUT: seq<BuilderSetting> := [
    SslModeSetting, PamOtherPwdSetting, TinyInt1isBitSetting, AutocommitSetting]

  /**
   * The label printed before a value. The source labels the isolation level
   * "prepareCacheSize=" and the cache size "isolationLevel="; the swap is kept.
   */
  function BuilderLabel(f: BuilderSetting): string {
    match f
    case ClientSslPasswordSetting => ", clientSslPassword="
    case RsaPublicKeySetting => "rsaPublicKey="
    case CachingRsaPublicKeySetting => ", cachingRsaPublicKey="
    case AllowPublicKeyRetrievalSetting => ", allowPublicKeyRetrieval="
    case UsernameSetting => ", username="
    case ConnectTimeoutSetting => ", connectTimeout="
    case TcpKeepAliveSetting => ", tcpKeepAlive="
    case TcpAbortiveCloseSetting => ", tcpAbortiveClose="
    case TransactionReplaySetting => ", transactionReplay="
    case DatabaseSetting => ", database="
    case HostSetting => ", host="
    case SessionVariablesSetting => ", sessionVariables="
    case ConnectionAttributesSetting => ", connectionAttributes="
    case PasswordSetting => ", password="
    case RestrictedAuthSetting => ", restrictedAuth="
    case PortSetting => ", port="
    case HostAddressesSetting => ", hosts={"
    case SocketSetting => ", socket="
    case AllowMultiQueriesSetting => ", allowMultiQueries="
    case AllowPipeliningSetting => ", allowPipelining="
    case UseServerPrepStmtsSetting => ", useServerPrepStmts="
    case IsolationLevelSetting => ", prepareCacheSize="
    case PrepareCacheSizeSetting => ", isolationLevel="
    case TlsProtocolSetting => ", tlsProtocol="
    case ServerSslCertSetting => ", serverSslCert="
    case ClientSslCertSetting => ", clientSslCert="
    case ClientSslKeySetting => ", clientSslKey="
    case SslModeSetting => ", sslMode="
    case PamOtherPwdSetting => ", pamOtherPwd="
    case TinyInt1isBitSetting => ", tinyInt1isBit="
    case AutocommitSetting => ", autoCommit="
  }

  /**
   * How one value prints. The three secrets print as the texts given for them
   * (hiddenPwd, keyPwd, hiddenPamPwd), so nothing here reads a secret.
   */
  function BuilderSettingText(b: BuilderState, lib: Library, hiddenPwd: string, keyPwd: string,
                              hiddenPamPwd: string, f: BuilderSetting): string {
    match f
    case RsaPublicKeySetting => Str(b.rsaPublicKey)
    case CachingRsaPublicKeySetting => Str(b.cachingRsaPublicKey)
    case AllowPublicKeyRetrievalSetting => ShowBool(b.allowPublicKeyRetrieval)
    case UsernameSetting => Str(b.username)
    case ConnectTimeoutSetting => DurationStr(b.connectTimeout, lib)
    case TcpKeepAliveSetting => FlagStr(b.tcpKeepAlive)
    case TcpAbortiveCloseSetting => FlagStr(b.tcpAbortiveClose)
    case TransactionReplaySetting => FlagStr(b.transactionReplay)
    case DatabaseSetting => Str(b.database)
    case HostSetting => Str(b.host)
    case SessionVariablesSetting => MapStr(b.sessionVariables, lib)
    case ConnectionAttributesSetting => MapStr(b.connectionAttributes, lib)
    case PasswordSetting => hiddenPwd
    case RestrictedAuthSetting => Str(b.restrictedAuth)
    case PortSetting => Show(b.port)
    case HostAddressesSetting =>
      if b.hostAddresses.None? then "" else lib.hostsText(b.hostAddresses.value)
    case SocketSetting => Str(b.socket)
    case AllowMultiQueriesSetting => ShowBool(b.allowMultiQueries)
    case AllowPipeliningSetting => ShowBool(b.allowPipelining)
    case UseServerPrepStmtsSetting => ShowBool(b.useServerPrepStmts)
    case IsolationLevelSetting => IsolationStr(b.isolationLevel, lib)
    case PrepareCacheSizeSetting => IntStr(b.prepareCacheSize)
    case TlsProtocolSetting => ListStr(b.tlsProtocol)
    case ServerSslCertSetting => Str(b.serverSslCert)
    case ClientSslCertSetting => Str(b.clientSslCert)
    case ClientSslKeySetting => Str(b.clientSslKey)
    case ClientSslPasswordSetting => keyPwd
    case SslModeSetting => lib.sslModeText(b.sslMode)
    case PamOtherPwdSetting => hiddenPamPwd
    case TinyInt1isBitSetting => ShowBool(b.tinyInt1isBit)
    case AutocommitSetting => ShowBool(b.autocommit)
  }

  /** Each label followed by its value, in the layout's order; the hosts close with a brace. */
  function BuilderLayoutText(b: BuilderState, lib: Library, hiddenPwd: string, keyPwd: string,
                             hiddenPamPwd: string, layout: seq<BuilderSetting>): string
  {
    if layout == [] then ""
    else
      BuilderLabel(layout[0]) + BuilderSettingText(b, lib, hiddenPwd, keyPwd, hiddenPamPwd, layout[0])
      + (if layout[0].HostAddressesSetting? then "}" else "")
      + BuilderLayoutText(b, lib, hiddenPwd, keyPwd, hiddenPamPwd, layout[1..])
  }

  /** The text around the given renderings of the secrets. */
  function BuilderShown(b: BuilderState, lib: Library, hiddenPwd: string, keyPwd: string,
                        hiddenPamPwd: string): string {
    "Builder{" + BuilderLayoutText(b, lib, hiddenPwd, keyPwd, hiddenPamPwd, BUILDER_LAYOUT) + "}"
  }

  /** Builder.toString as the source writes it: the key password appears in clear. */
  function BuilderTextAsWritten(b: BuilderState, lib: Library): Result<string, ConfigError> {
    var hiddenPamPwd :- HiddenPamPasswords(b.pamOtherPwd);
    Success(BuilderShown(b, lib, HiddenPassword(b.password), Str(b.clientSslPassword), hiddenPamPwd))
  }

  /** Builder.toString with the key password masked as the password is. */
  function BuilderText(b: BuilderState, lib: Library): Result<string, ConfigError> {
    var hiddenPamPwd :- HiddenPamPasswords(b.pamOtherPwd);
    Success(BuilderShown(b, lib, HiddenPassword(b.password), HiddenPassword(b.clientSslPassword),
      hiddenPamPwd))
  }

  /** The text of a concatenation of layouts is the concatenation of their texts. */
  lemma {:induction false} BuilderLayoutAppend(b: BuilderState, lib: Library, hiddenPwd: string,
      keyPwd: string, hiddenPamPwd: string, xs: seq<BuilderSetting>, ys: seq<BuilderSetting>)
    ensures BuilderLayoutText(b, lib, hiddenPwd, keyPwd, hiddenPamPwd, xs + ys)
         == BuilderLayoutText(b, lib, hiddenPwd, keyPwd, hiddenPamPwd, xs)
            + BuilderLayoutText(b, lib, hiddenPwd, keyPwd, hiddenPamPwd, ys)
  {
    if xs == [] {
      assert xs + ys == ys;
    } else {
      var zs := xs + ys;
      assert zs[0] == xs[0];
      assert zs[1..] == xs[1..] + ys;
      BuilderLayoutAppend(b, lib, hiddenPwd, keyPwd, hiddenPamPwd, xs[1..], ys);
    }
  }

  /** A layout without the key password does not print it. */
  lemma {:induction false} BuilderLayoutIgnoresKey(b: BuilderState, lib: Library, hiddenPwd: string,
      keyPwd: string, otherKeyPwd: string, hiddenPamPwd: string, layout: seq<BuilderSetting>)
    requires ClientSslPasswordSetting !in layout
    ensures BuilderLayoutText(b, lib, hiddenPwd, keyPwd, hiddenPamPwd, layout)
         == BuilderLayoutText(b, lib, hiddenPwd, otherKeyPwd, hiddenPamPwd, layout)
  {
    if layout != [] {
      BuilderLayoutIgnoresKey(b, lib, hiddenPwd, keyPwd, otherKeyPwd, hiddenPamPwd, layout[1..]);
    }
  }

  /** The values of the secrets themselves are never printed. */
  lemma {:induction false} BuilderLayoutIgnoresSecrets(b: BuilderState, lib: Library, hiddenPwd: string,
      keyPwd: string, hiddenPamPwd: string, layout: seq<BuilderSetting>,
      password: Option<string>, sslPassword: Option<string>, pam: Option<seq<string>>)
    ensures BuilderLayoutText(b.(password := password, clientSslPassword := sslPassword, pamOtherPwd := pam),
              lib, hiddenPwd, keyPwd, hiddenPamPwd, layout)
         == BuilderLayoutText(b, lib, hiddenPwd, keyPwd, hiddenPamPwd, layout)
  {
    if layout != [] {
      BuilderSettingIgnoresSecrets(b, lib, hiddenPwd, keyPwd, hiddenPamPwd, layout[0], password, sslPassword, pam);
      BuilderLayoutIgnoresSecrets(b, lib, hiddenPwd, keyPwd, hiddenPamPwd, layout[1..], password, sslPassword, pam);
    }
  }

  lemma BuilderSettingIgnoresSecrets(b: BuilderState, lib: Library, hiddenPwd: string, keyPwd: string,
      hiddenPamPwd: string, f: BuilderSetting, password: Option<string>, sslPassword: Option<string>,
      pam: Option<seq<string>>)
    ensures BuilderSettingText(b.(password := password, clientSslPassword := sslPassword, pamOtherPwd := pam),
              lib, hiddenPwd, keyPwd, hiddenPamPwd, f)
         == BuilderSettingText(b, lib, hiddenPwd, keyPwd, hiddenPamPwd, f)
  {
    var b' := b.(password := password, clientSslPassword := sslPassword, pamOtherPwd := pam);
    assert b'.rsaPublicKey == b.rsaPublicKey && b'.cachingRsaPublicKey == b.cachingRsaPublicKey && b'.allowPublicKeyRetrieval == b.allowPublicKeyRetrieval;
    assert b'.username == b.username && b'.connectTimeout == b.connectTimeout && b'.tcpKeepAlive == b.tcpKeepAlive;
    assert b'.tcpAbortiveClose == b.tcpAbortiveClose && b'.transactionReplay == b.transactionReplay && b'.database == b.database;
    assert b'.host == b.host && b'.sessionVariables == b.sessionVariables && b'.connectionAttributes == b.connectionAttributes;
    assert b'.restrictedAuth == b.restrictedAuth && b'.port == b.port && b'.hostAddresses == b.hostAddresses;
    assert b'.socket == b.socket && b'.allowMultiQueries == b.allowMultiQueries && b'.allowPipelining == b.allowPipelining;
    assert b'.useServerPrepStmts == b.useServerPrepStmts && b'.isolationLevel == b.isolationLevel && b'.prepareCacheSize == b.prepareCacheSize;
    assert b'.tlsProtocol == b.tlsProtocol && b'.serverSslCert == b.serverSslCert && b'.clientSslCert == b.clientSslCert;
    assert b'.clientSslKey == b.clientSslKey && b'.sslMode == b.sslMode && b'.tinyInt1isBit == b.tinyInt1isBit;
    assert b'.autocommit == b.autocommit;
  }

  /** A string with a common prefix and suffix determines its middle. */
  lemma MiddleDetermined(p: string, a: string, l: string, x: string, y: string, c: string, q: string)
    requires p + (a + (l + x) + c) + q == p + (a + (l + y) + c) + q
    ensures x == y
  {
    var s := p + (a + (l + x) + c) + q;
    var s' := p + (a + (l + y) + c) + q;
    var at := |p| + |a| + |l|;
    assert |x| == |y|;
    assert s[at..at + |x|] == x;
    assert s'[at..at + |y|] == y;
  }

  /** The key password is printed once, between the head and the tail. */
  lemma KeyPasswordOnce()
    ensures ClientSslPasswordSetting !in BUILDER_HEAD_LAYOUT
    ensures ClientSslPasswordSetting !in BUILDER_TAIL_LAYOUT
  {
  }

  /** The key password's entry prints its label and the text given for it. */
  lemma BuilderKeyEntryText(b: BuilderState, lib: Library, hiddenPwd: string, keyPwd: string, hiddenPamPwd: string)
    ensures BuilderLayoutText(b, lib, hiddenPwd, keyPwd, hiddenPamPwd, [ClientSslPasswordSetting])
         == ", clientSslPassword=" + keyPwd
  {
    assert [ClientSslPasswordSetting][1..] == [];
  }

  /** The layout's text is the head's, the key password's, then the tail's. */
  lemma BuilderLayoutSplits(b: BuilderState, lib: Library, hiddenPwd: string, keyPwd: string, hiddenPamPwd: string)
    ensures BuilderLayoutText(b, lib, hiddenPwd, keyPwd, hiddenPamPwd, BUILDER_LAYOUT)
         == BuilderLayoutText(b, lib, hiddenPwd, "", hiddenPamPwd, BUILDER_HEAD_LAYOUT)
            + (", clientSslPassword=" + keyPwd)
            + BuilderLayoutText(b, lib, hiddenPwd, "", hiddenPamPwd, BUILDER_TAIL_LAYOUT)
  {
    var key := [ClientSslPasswordSetting];
    KeyPasswordOnce();
    BuilderLayoutIgnoresKey(b, lib, hiddenPwd, keyPwd, "", hiddenPamPwd, BUILDER_HEAD_LAYOUT);
    BuilderLayoutIgnoresKey(b, lib, hiddenPwd, keyPwd, "", hiddenPamPwd, BUILDER_TAIL_LAYOUT);
    BuilderKeyEntryText(b, lib, hiddenPwd, keyPwd, hiddenPamPwd);
    BuilderLayoutAppend(b, lib, hiddenPwd, keyPwd, hiddenPamPwd, BUILDER_HEAD_LAYOUT + key, BUILDER_TAIL_LAYOUT);
    BuilderLayoutAppend(b, lib, hiddenPwd, keyPwd, hiddenPamPwd, BUILDER_HEAD_LAYOUT, key);
  }

  /**
   * As written, the key password is printed verbatim: the text is a part that
   * does not depend on it, then the key password, then another such part.
   */
  lemma BuilderTextAsWrittenShowsKey(b: BuilderState, lib: Library, secret: string)
    requires b.pamOtherPwd != Some([])
    ensures BuilderTextAsWritten(b.(clientSslPassword := Some(secret)), lib).Success?
    ensures BuilderTextAsWritten(b.(clientSslPassword := Some(secret)), lib).value
         == "Builder{"
            + (BuilderLayoutText(b, lib, HiddenPassword(b.password), "",
                 HiddenPamPasswords(b.pamOtherPwd).value, BUILDER_HEAD_LAYOUT)
               + (", clientSslPassword=" + secret)
               + BuilderLayoutText(b, lib, HiddenPassword(b.password), "",
                   HiddenPamPasswords(b.pamOtherPwd).value, BUILDER_TAIL_LAYOUT))
            + "}"
  {
    var pwd := HiddenPassword(b.password);
    var pam := HiddenPamPasswords(b.pamOtherPwd).value;
    BuilderLayoutIgnoresSecrets(b, lib, pwd, secret, pam, BUILDER_LAYOUT, b.password, Some(secret), b.pamOtherPwd);
    BuilderLayoutSplits(b, lib, pwd, secret, pam);
  }

  /**
   * The source's Builder.toString leaks the key password: two builders that
   * differ only in it print differently.
   */
  lemma BuilderTextAsWrittenLeaks(b: BuilderState, lib: Library, secret1: string, secret2: string)
    requires b.pamOtherPwd != Some([])
    requires secret1 != secret2
    ensures BuilderTextAsWritten(b.(clientSslPassword := Some(secret1)), lib).Success?
    ensures BuilderTextAsWritten(b.(clientSslPassword := Some(secret1)), lib)
         != BuilderTextAsWritten(b.(clientSslPassword := Some(secret2)), lib)
  {
    BuilderTextAsWrittenShowsKey(b, lib, secret1);
    BuilderTextAsWrittenShowsKey(b, lib, secret2);
    var pwd := HiddenPassword(b.password);
    var pam := HiddenPamPasswords(b.pamOtherPwd).value;
    var head := BuilderLayoutText(b, lib, pwd, "", pam, BUILDER_HEAD_LAYOUT);
    var tail := BuilderLayoutText(b, lib, pwd, "", pam, BUILDER_TAIL_LAYOUT);
    var keyLabel := ", clientSslPassword=";
    if "Builder{" + (head + (keyLabel + secret1) + tail) + "}" == "Builder{" + (head + (keyLabel + secret2) + tail) + "}" {
      MiddleDetermined("Builder{", head, keyLabel, secret1, secret2, tail, "}");
    }
  }

  /**
   * Builder.toString shows no secret: the password, the key password and the PAM
   * passwords can be replaced by any others (null by null, and as many PAM
   * passwords) without changing the text.
   */
  lemma BuilderTextHidesSecrets(b: BuilderState, lib: Library, password: Option<string>,
      sslPassword: Option<string>, pam: Option<seq<string>>)
    requires password.Some? == b.password.Some?
    requires sslPassword.Some? == b.clientSslPassword.Some?
    requires pam.Some? == b.pamOtherPwd.Some?
    requires pam.Some? ==> |pam.value| == |b.pamOtherPwd.value|
    ensures BuilderText(b.(password := password, clientSslPassword := sslPassword, pamOtherPwd := pam), lib)
         == BuilderText(b, lib)
  {
    HiddenPamPasswordsByCount(pam, b.pamOtherPwd);
    var b' := b.(password := password, clientSslPassword := sslPassword, pamOtherPwd := pam);
    var hiddenPwd := HiddenPassword(b.password);
    var keyPwd := HiddenPassword(b.clientSslPassword);
    assert HiddenPassword(b'.password) == hiddenPwd;
    assert HiddenPassword(b'.clientSslPassword) == keyPwd;
    if b.pamOtherPwd != Some([]) {
      var hiddenPamPwd := HiddenPamPasswords(b.pamOtherPwd).value;
      BuilderLayoutIgnoresSecrets(b, lib, hiddenPwd, keyPwd, hiddenPamPwd, BUILDER_LAYOUT, password, sslPassword, pam);
    }
  }

  /** The builder's text fails exactly when the PAM password array is empty. */
  lemma BuilderTextFails(b: BuilderState, lib: Library)
    ensures BuilderText(b, lib).Failure? <==> b.pamOtherPwd == Some([])
  {
  }
}
