/**
 * MariadbConnectionConfiguration.fromOptions: a new Builder filled from a
 * connection-factory option bag, one option after another. The socket option,
 * when present, is used instead of the host; list-valued options are split
 * (session variables and connection attributes on ',' and '=', TLS protocols on
 * runs of ',', ';' and whitespace, PAM passwords on ',' and then URL-decoded in
 * place).
 */
module OptionMapping {
  import opened JavaLang
  import opened External
  import opened OptionValues
  import opened ConnectionConfiguration
  import opened ConfigBuilder

  /** The separators of the regular expression "[,;\\s]+". */
  const TLS_SEPARATORS: set<char> := {',', ';'} + JavaWhitespace

  // ---------------------------------------------------------------------------
  // URL-decoding the PAM passwords

  /**
   * The PAM passwords after URLDecoder.decode of each entry in turn, or the
   * exception of the first entry it rejects.
   */
  function UrlDecodeAll(xs: seq<string>, lib: Library): (r: Result<seq<string>, ConfigError>)
    ensures r.Success? ==> |r.value| == |xs|
    ensures r.Success? ==> forall i :: 0 <= i < |xs| ==> lib.urlDecode(xs[i]) == Some(r.value[i])
    ensures r.Failure? <==> exists i :: 0 <= i < |xs| && lib.urlDecode(xs[i]).None?
  {
    if xs == [] then Success([])
    else
      var init := xs[..|xs| - 1];
      var last := xs[|xs| - 1];
      assert forall i :: 0 <= i < |init| ==> init[i] == xs[i];
      var decoded :- UrlDecodeAll(init, lib);
      match lib.urlDecode(last)
      case Some(d) => Success(decoded + [d])
      case None => Failure(MalformedEscape(last))
  }

  /** Decoding stops at the first entry the decoder rejects. */
  lemma {:induction false} UrlDecodeAllFailsAt(xs: seq<string>, i: nat, lib: Library)
    requires i < |xs|
    requires UrlDecodeAll(xs[..i], lib).Success? && lib.urlDecode(xs[i]).None?
    ensures UrlDecodeAll(xs, lib) == Failure(MalformedEscape(xs[i]))
  {
    if |xs| == i + 1 {
      assert xs[..|xs| - 1] == xs[..i];
    } else {
      var init := xs[..|xs| - 1];
      assert init[..i] == xs[..i];
      UrlDecodeAllFailsAt(init, i, lib);
    }
  }

  /** The loop that URL-decodes the split PAM passwords in place. */
  method DecodeInPlace(pairs: array<string>, lib: Library) returns (r: Result<(), ConfigError>)
    modifies pairs
    ensures r.Failure? <==> UrlDecodeAll(old(pairs[..]), lib).Failure?
    ensures r.Failure? ==> r.error == UrlDecodeAll(old(pairs[..]), lib).error
    ensures r.Success? ==> pairs[..] == UrlDecodeAll(old(pairs[..]), lib).value
  {
    ghost var given := pairs[..];
    for i := 0 to pairs.Length
      invariant UrlDecodeAll(given[..i], lib) == Success(pairs[..i])
      invariant pairs[i..] == given[i..]
    {
      assert pairs[i] == given[i];
      var decoded := lib.urlDecode(pairs[i]);
      if decoded.None? {
        UrlDecodeAllFailsAt(given, i, lib);
        return Failure(MalformedEscape(pairs[i]));
      }
      assert given[..i + 1][..i] == given[..i];
      pairs[i] := decoded.value;
      assert pairs[..i + 1] == pairs[..i] + [decoded.value];
    }
    assert given[..pairs.Length] == given;
    assert pairs[..pairs.Length] == pairs[..];
    return Success(());
  }

  // ---------------------------------------------------------------------------
  // fromOptions, one option block at a time: each block's effect on the
  // builder's fields, and the method that has that effect through the setters

  /** True when a fallible block ended as its specification says. */
  predicate Completed(r: Result<(), ConfigError>, spec: Result<BuilderState, ConfigError>, state: BuilderState) {
    && (r.Failure? <==> spec.Failure?)
    && (r.Failure? ==> r.error == spec.error)
    && (r.Success? ==> state == spec.value)
  }

  /** Database, then socket when the option is present and host otherwise. */
  function ReadEndpoint(b: BuilderState, opts: Options): (r: Result<BuilderState, ConfigError>)
    ensures r.Success? ==> r.value == b.(database := r.value.database, host := r.value.host, socket := r.value.socket)
    ensures r.Success? ==> GetText(opts, DATABASE) == Success(r.value.database)
    ensures r.Success? && SOCKET in opts ==>
      r.value.socket.Some? && opts[SOCKET] == Text(r.value.socket.value) && r.value.host == b.host
    ensures r.Success? && SOCKET !in opts ==>
      r.value.host.Some? && HOST in opts && opts[HOST] == Text(r.value.host.value) && r.value.socket == b.socket
    ensures SOCKET !in opts && HOST !in opts && GetText(opts, DATABASE).Success? ==>
      r == Failure(NoSuchOption(HOST))
  {
    var database :- GetText(opts, DATABASE);
    var b1 := b.(database := database);
    if SOCKET in opts then
      var socket :- GetRequiredText(opts, SOCKET);
      Success(b1.(socket := Some(socket)))
    else
      var host :- GetRequiredText(opts, HOST);
      Success(b1.(host := Some(host)))
  }

  method ApplyEndpoint(b: Builder, opts: Options) returns (r: Result<(), ConfigError>)
    modifies b
    ensures Completed(r, ReadEndpoint(old(b.State()), opts), b.State())
  {
    var database :- GetText(opts, DATABASE);
    b.Database(database);
    if SOCKET in opts {
      var socket :- GetRequiredText(opts, SOCKET);
      var ignored := b.Socket(Some(socket));
    } else {
      var host :- GetRequiredText(opts, HOST);
      var ignored := b.Host(Some(host));
    }
    return Success(());
  }

  function ReadAllowMultiQueries(b: BuilderState, opts: Options, lib: Library): (r: BuilderState)
    ensures r == b.(allowMultiQueries := r.allowMultiQueries)
  {
    if ALLOW_MULTI_QUERIES in opts then b.(allowMultiQueries := BoolValue(opts[ALLOW_MULTI_QUERIES], lib)) else b
  }

  method ApplyAllowMultiQueries(b: Builder, opts: Options, lib: Library)
    modifies b
    ensures b.State() == ReadAllowMultiQueries(old(b.State()), opts, lib)
  {
    if ALLOW_MULTI_QUERIES in opts {
      b.AllowMultiQueries(BoolValue(opts[ALLOW_MULTI_QUERIES], lib));
    }
  }

  function ReadConnectTimeout(b: BuilderState, opts: Options, lib: Library): (r: Result<BuilderState, ConfigError>)
    ensures r.Success? ==> r.value == b.(connectTimeout := r.value.connectTimeout)
    ensures CONNECT_TIMEOUT !in opts ==> r == Success(b)
    ensures CONNECT_TIMEOUT in opts ==> (r.Success? <==> DurationValue(opts[CONNECT_TIMEOUT], lib).Success?)
    ensures r.Success? && CONNECT_TIMEOUT in opts ==>
      r.value.connectTimeout == Some(DurationValue(opts[CONNECT_TIMEOUT], lib).value)
  {
    if CONNECT_TIMEOUT in opts then
      var timeout :- DurationValue(opts[CONNECT_TIMEOUT], lib);
      Success(b.(connectTimeout := Some(timeout)))
    else Success(b)
  }

  method ApplyConnectTimeout(b: Builder, opts: Options, lib: Library) returns (r: Result<(), ConfigError>)
    modifies b
    ensures Completed(r, ReadConnectTimeout(old(b.State()), opts, lib), b.State())
  {
    if CONNECT_TIMEOUT in opts {
      var timeout :- DurationValue(opts[CONNECT_TIMEOUT], lib);
      b.ConnectTimeout(Some(timeout));
    }
    return Success(());
  }

  function ReadTcpKeepAlive(b: BuilderState, opts: Options, lib: Library): (r: BuilderState)
    ensures r == b.(tcpKeepAlive := r.tcpKeepAlive)
  {
    if TCP_KEEP_ALIVE in opts then b.(tcpKeepAlive := Some(BoolValue(opts[TCP_KEEP_ALIVE], lib))) else b
  }

  method ApplyTcpKeepAlive(b: Builder, opts: Options, lib: Library)
    modifies b
    ensures b.State() == ReadTcpKeepAlive(old(b.State()), opts, lib)
  {
    if TCP_KEEP_ALIVE in opts {
      b.TcpKeepAlive(Some(BoolValue(opts[TCP_KEEP_ALIVE], lib)));
    }
  }

  function ReadTcpAbortiveClose(b: BuilderState, opts: Options, lib: Library): (r: BuilderState)
    ensures r == b.(tcpAbortiveClose := r.tcpAbortiveClose)
  {
    if TCP_ABORTIVE_CLOSE in opts then b.(tcpAbortiveClose := Some(BoolValue(opts[TCP_ABORTIVE_CLOSE], lib))) else b
  }

  method ApplyTcpAbortiveClose(b: Builder, opts: Options, lib: Library)
    modifies b
    ensures b.State() == ReadTcpAbortiveClose(old(b.State()), opts, lib)
  {
    if TCP_ABORTIVE_CLOSE in opts {
      b.TcpAbortiveClose(Some(BoolValue(opts[TCP_ABORTIVE_CLOSE], lib)));
    }
  }

  function ReadTransactionReplay(b: BuilderState, opts: Options, lib: Library): (r: BuilderState)
    ensures r == b.(transactionReplay := r.transactionReplay)
  {
    if TRANSACTION_REPLAY in opts then b.(transactionReplay := Some(BoolValue(opts[TRANSACTION_REPLAY], lib))) else b
  }

  method ApplyTransactionReplay(b: Builder, opts: Options, lib: Library)
    modifies b
    ensures b.State() == ReadTransactionReplay(old(b.State()), opts, lib)
  {
    if TRANSACTION_REPLAY in opts {
      b.TransactionReplay(Some(BoolValue(opts[TRANSACTION_REPLAY], lib)));
    }
  }

  function ReadSessionVariables(b: BuilderState, opts: Options): (r: Result<BuilderState, ConfigError>)
    ensures r.Success? ==> r.value == b.(sessionVariables := r.value.sessionVariables)
  {
    if SESSION_VARIABLES in opts then
      var text :- GetText(opts, SESSION_VARIABLES);
      var variables :- MapFromString(text);
      Success(b.(sessionVariables := Some(variables)))
    else Success(b)
  }

  method ApplySessionVariables(b: Builder, opts: Options) returns (r: Result<(), ConfigError>)
    modifies b
    ensures Completed(r, ReadSessionVariables(old(b.State()), opts), b.State())
  {
    if SESSION_VARIABLES in opts {
      var text :- GetText(opts, SESSION_VARIABLES);
      var variables :- GetMapFromString(text);
      b.SessionVariables(Some(variables));
    }
    return Success(());
  }

  function ReadHaMode(b: BuilderState, opts: Options): (r: Result<BuilderState, ConfigError>)
    ensures r.Success? ==> r.value == b.(haMode := r.value.haMode)
    ensures HAMODE !in opts ==> r == Success(b)
    ensures HAMODE in opts ==> (r.Success? <==> opts[HAMODE].Text?)
    ensures r.Success? && HAMODE in opts ==> GetText(opts, HAMODE) == Success(r.value.haMode)
  {
    if HAMODE in opts then
      var haMode :- GetText(opts, HAMODE);
      Success(b.(haMode := haMode))
    else Success(b)
  }

  method ApplyHaMode(b: Builder, opts: Options) returns (r: Result<(), ConfigError>)
    modifies b
    ensures Completed(r, ReadHaMode(old(b.State()), opts), b.State())
  {
    if HAMODE in opts {
      var haMode :- GetText(opts, HAMODE);
      b.HaMode(haMode);
    }
    return Success(());
  }

  function ReadAllowPipelining(b: BuilderState, opts: Options, lib: Library): (r: BuilderState)
    ensures r == b.(allowPipelining := r.allowPipelining)
  {
    if ALLOW_PIPELINING in opts then b.(allowPipelining := BoolValue(opts[ALLOW_PIPELINING], lib)) else b
  }

  method ApplyAllowPipelining(b: Builder, opts: Options, lib: Library)
    modifies b
    ensures b.State() == ReadAllowPipelining(old(b.State()), opts, lib)
  {
    if ALLOW_PIPELINING in opts {
      b.AllowPipelining(BoolValue(opts[ALLOW_PIPELINING], lib));
    }
  }

  function ReadUseServerPrepare(b: BuilderState, opts: Options, lib: Library): (r: BuilderState)
    ensures r == b.(useServerPrepStmts := r.useServerPrepStmts)
  {
    if USE_SERVER_PREPARE in opts then b.(useServerPrepStmts := BoolValue(opts[USE_SERVER_PREPARE], lib)) else b
  }

  method ApplyUseServerPrepare(b: Builder, opts: Options, lib: Library)
    modifies b
    ensures b.State() == ReadUseServerPrepare(old(b.State()), opts, lib)
  {
    if USE_SERVER_PREPARE in opts {
      b.UseServerPrepStmts(BoolValue(opts[USE_SERVER_PREPARE], lib));
    }
  }

  /** IsolationLevel.valueOf of the level's name with '-' read as ' '. */
  function ReadIsolationLevel(b: BuilderState, opts: Options, lib: Library): (r: Result<BuilderState, ConfigError>)
    ensures r.Success? ==> r.value == b.(isolationLevel := r.value.isolationLevel)
  {
    if ISOLATION_LEVEL in opts then
      var level :- GetText(opts, ISOLATION_LEVEL);
      Success(b.(isolationLevel :=
        if level.None? then None else Some(lib.isolationLevelOf(Replace(level.value, '-', ' ')))))
    else Success(b)
  }

  method ApplyIsolationLevel(b: Builder, opts: Options, lib: Library) returns (r: Result<(), ConfigError>)
    modifies b
    ensures Completed(r, ReadIsolationLevel(old(b.State()), opts, lib), b.State())
  {
    if ISOLATION_LEVEL in opts {
      var level :- GetText(opts, ISOLATION_LEVEL);
      b.IsolationLevel(if level.None? then None else Some(lib.isolationLevelOf(Replace(level.value, '-', ' '))));
    }
    return Success(());
  }

  function ReadAutocommit(b: BuilderState, opts: Options, lib: Library): (r: BuilderState)
    ensures r == b.(autocommit := r.autocommit)
  {
    if AUTO_COMMIT in opts then b.(autocommit := BoolValue(opts[AUTO_COMMIT], lib)) else b
  }

  method ApplyAutocommit(b: Builder, opts: Options, lib: Library)
    modifies b
    ensures b.State() == ReadAutocommit(old(b.State()), opts, lib)
  {
    if AUTO_COMMIT in opts {
      b.Autocommit(BoolValue(opts[AUTO_COMMIT], lib));
    }
  }

  function ReadTinyIsBit(b: BuilderState, opts: Options, lib: Library): (r: BuilderState)
    ensures r == b.(tinyInt1isBit := r.tinyInt1isBit)
  {
    if TINY_IS_BIT in opts then b.(tinyInt1isBit := BoolValue(opts[TINY_IS_BIT], lib)) else b
  }

  method ApplyTinyIsBit(b: Builder, opts: Options, lib: Library)
    modifies b
    ensures b.State() == ReadTinyIsBit(old(b.State()), opts, lib)
  {
    if TINY_IS_BIT in opts {
      b.TinyInt1isBit(BoolValue(opts[TINY_IS_BIT], lib));
    }
  }

  function ReadConnectionAttributes(b: BuilderState, opts: Options): (r: Result<BuilderState, ConfigError>)
    ensures r.Success? ==> r.value == b.(connectionAttributes := r.value.connectionAttributes)
  {
    if CONNECTION_ATTRIBUTES in opts then
      var text :- GetText(opts, CONNECTION_ATTRIBUTES);
      var attributes :- MapFromString(text);
      Success(b.(connectionAttributes := Some(attributes)))
    else Success(b)
  }

  method ApplyConnectionAttributes(b: Builder, opts: Options) returns (r: Result<(), ConfigError>)
    modifies b
    ensures Completed(r, ReadConnectionAttributes(old(b.State()), opts), b.State())
  {
    if CONNECTION_ATTRIBUTES in opts {
      var text :- GetText(opts, CONNECTION_ATTRIBUTES);
      var attributes :- GetMapFromString(text);
      b.ConnectionAttributes(Some(attributes));
    }
    return Success(());
  }

  function ReadPrepareCacheSize(b: BuilderState, opts: Options, lib: Library): (r: Result<BuilderState, ConfigError>)
    ensures r.Success? ==> r.value == b.(prepareCacheSize := r.value.prepareCacheSize)
  {
    if PREPARE_CACHE_SIZE in opts then
      var size :- IntValue(opts[PREPARE_CACHE_SIZE], lib);
      Success(b.(prepareCacheSize := Some(size)))
    else Success(b)
  }

  method ApplyPrepareCacheSize(b: Builder, opts: Options, lib: Library) returns (r: Result<(), ConfigError>)
    modifies b
    ensures Completed(r, ReadPrepareCacheSize(old(b.State()), opts, lib), b.State())
  {
    if PREPARE_CACHE_SIZE in opts {
      var size :- IntValue(opts[PREPARE_CACHE_SIZE], lib);
      b.PrepareCacheSize(Some(size));
    }
    return Success(());
  }

  /** SslMode.from of a configured name. */
  function SslModeFrom(name: string, lib: Library): (r: Result<SslMode, ConfigError>)
    ensures r.Success? <==> lib.sslModeFrom(name).Some?
    ensures r.Success? ==> lib.sslModeFrom(name) == Some(r.value)
  {
    match lib.sslModeFrom(name)
    case Some(m) => Success(m)
    case None => Failure(InvalidSslMode(name))
  }

  function ReadSslMode(b: BuilderState, opts: Options, lib: Library): (r: Result<BuilderState, ConfigError>)
    ensures r.Success? ==> r.value == b.(sslMode := r.value.sslMode)
  {
    if SSL_MODE in opts then
      var name :- GetText(opts, SSL_MODE);
      var mode :- SslModeFrom(name.value, lib);
      Success(b.(sslMode := mode))
    else Success(b)
  }

  method ApplySslMode(b: Builder, opts: Options, lib: Library) returns (r: Result<(), ConfigError>)
    modifies b
    ensures Completed(r, ReadSslMode(old(b.State()), opts, lib), b.State())
  {
    if SSL_MODE in opts {
      var name :- GetText(opts, SSL_MODE);
      var mode :- SslModeFrom(name.value, lib);
      b.SslMode(Some(mode));
    }
    return Success(());
  }

  /** The certificates, key and key password: set whether present or not. */
  function ReadSslFiles(b: BuilderState, opts: Options): (r: Result<BuilderState, ConfigError>)
    ensures r.Success? ==> r.value == b.(serverSslCert := r.value.serverSslCert, clientSslCert := r.value.clientSslCert,
                                         clientSslKey := r.value.clientSslKey, clientSslPassword := r.value.clientSslPassword)
    ensures r.Success? ==> (r.value.clientSslPassword.Some? <==> CLIENT_SSL_PWD in opts)
    ensures r.Success? <==> GetText(opts, SERVER_SSL_CERT).Success? && GetText(opts, CLIENT_SSL_CERT).Success?
                            && GetText(opts, CLIENT_SSL_KEY).Success? && GetText(opts, CLIENT_SSL_PWD).Success?
    ensures r.Success? ==> && GetText(opts, SERVER_SSL_CERT) == Success(r.value.serverSslCert)
                           && GetText(opts, CLIENT_SSL_CERT) == Success(r.value.clientSslCert)
                           && GetText(opts, CLIENT_SSL_KEY) == Success(r.value.clientSslKey)
                           && GetText(opts, CLIENT_SSL_PWD) == Success(r.value.clientSslPassword)
  {
    var serverSslCert :- GetText(opts, SERVER_SSL_CERT);
    var clientSslCert :- GetText(opts, CLIENT_SSL_CERT);
    var clientSslKey :- GetText(opts, CLIENT_SSL_KEY);
    var clientSslPassword :- GetText(opts, CLIENT_SSL_PWD);
    Success(b.(serverSslCert := serverSslCert, clientSslCert := clientSslCert,
               clientSslKey := clientSslKey, clientSslPassword := clientSslPassword))
  }

  method ApplySslFiles(b: Builder, opts: Options) returns (r: Result<(), ConfigError>)
    modifies b
    ensures Completed(r, ReadSslFiles(old(b.State()), opts), b.State())
  {
    var serverSslCert :- GetText(opts, SERVER_SSL_CERT);
    b.ServerSslCert(serverSslCert);
    var clientSslCert :- GetText(opts, CLIENT_SSL_CERT);
    b.ClientSslCert(clientSslCert);
    var clientSslKey :- GetText(opts, CLIENT_SSL_KEY);
    b.ClientSslKey(clientSslKey);
    var clientSslPassword :- GetText(opts, CLIENT_SSL_PWD);
    b.ClientSslPassword(clientSslPassword);
    return Success(());
  }

  /** The protocol list split on runs of ',', ';' and whitespace. */
  function ReadTlsProtocol(b: BuilderState, opts: Options): (r: Result<BuilderState, ConfigError>)
    ensures r.Success? ==> r.value == b.(tlsProtocol := r.value.tlsProtocol)
    ensures r.Success? && TLS_PROTOCOL in opts ==> opts[TLS_PROTOCOL].Text?
    ensures r.Success? && TLS_PROTOCOL in opts && opts[TLS_PROTOCOL].Text? ==>
      var protocols := SplitOnRuns(opts[TLS_PROTOCOL].s, TLS_SEPARATORS);
      r.value.tlsProtocol == if protocols == [] then b.tlsProtocol else Some(protocols)
  {
    if TLS_PROTOCOL in opts then
      var text :- GetText(opts, TLS_PROTOCOL);
      var protocols := SplitOnRuns(text.value, TLS_SEPARATORS);
      NonNullOfWrap(protocols);
      Success(WithTlsProtocol(b, Some(Wrap(protocols))))
    else Success(b)
  }

  method ApplyTlsProtocol(b: Builder, opts: Options) returns (r: Result<(), ConfigError>)
    modifies b
    ensures Completed(r, ReadTlsProtocol(old(b.State()), opts), b.State())
  {
    if TLS_PROTOCOL in opts {
      var text :- GetText(opts, TLS_PROTOCOL);
      var protocols := SplitOnRuns(text.value, TLS_SEPARATORS);
      b.TlsProtocol(Some(Wrap(protocols)));
    }
    return Success(());
  }

  /** The password (which may be absent) and the user name (which may not). */
  function ReadCredentials(b: BuilderState, opts: Options): (r: Result<BuilderState, ConfigError>)
    ensures r.Success? ==> r.value == b.(password := r.value.password, username := r.value.username)
    ensures r.Success? ==> r.value.username.Some? && USER in opts && opts[USER] == Text(r.value.username.value)
    ensures r.Success? ==> GetText(opts, PASSWORD) == Success(r.value.password)
    ensures USER !in opts ==> r.Failure?
  {
    var password :- GetText(opts, PASSWORD);
    var username :- GetRequiredText(opts, USER);
    Success(b.(password := password, username := Some(username)))
  }

  method ApplyCredentials(b: Builder, opts: Options) returns (r: Result<(), ConfigError>)
    modifies b
    ensures Completed(r, ReadCredentials(old(b.State()), opts), b.State())
  {
    var password :- GetText(opts, PASSWORD);
    b.Password(password);
    var username :- GetRequiredText(opts, USER);
    var ignored := b.Username(Some(username));
    return Success(());
  }

  function ReadPort(b: BuilderState, opts: Options, lib: Library): (r: Result<BuilderState, ConfigError>)
    ensures r.Success? ==> r.value == b.(port := r.value.port)
  {
    if PORT in opts then
      var port :- IntValue(opts[PORT], lib);
      Success(b.(port := port))
    else Success(b)
  }

  method ApplyPort(b: Builder, opts: Options, lib: Library) returns (r: Result<(), ConfigError>)
    modifies b
    ensures Completed(r, ReadPort(old(b.State()), opts, lib), b.State())
  {
    if PORT in opts {
      var port :- IntValue(opts[PORT], lib);
      b.Port(port);
    }
    return Success(());
  }

  /** The PAM passwords split on ',' and URL-decoded one by one. */
  function ReadPamOtherPwd(b: BuilderState, opts: Options, lib: Library): (r: Result<BuilderState, ConfigError>)
    ensures r.Success? ==> r.value == b.(pamOtherPwd := r.value.pamOtherPwd)
  {
    if PAM_OTHER_PASSWORD in opts then
      var text :- GetText(opts, PAM_OTHER_PASSWORD);
      var passwords :- UrlDecodeAll(Split(text.value, ','), lib);
      Success(b.(pamOtherPwd := Some(passwords)))
    else Success(b)
  }

  method ApplyPamOtherPwd(b: Builder, opts: Options, lib: Library) returns (r: Result<(), ConfigError>)
    modifies b
    ensures Completed(r, ReadPamOtherPwd(old(b.State()), opts, lib), b.State())
  {
    if PAM_OTHER_PASSWORD in opts {
      var text :- GetText(opts, PAM_OTHER_PASSWORD);
      var pieces := Split(text.value, ',');
      var pairs := new string[|pieces|](i requires 0 <= i < |pieces| => pieces[i]);
      assert pairs[..] == pieces;
      var decoded :- DecodeInPlace(pairs, lib);
      b.PamOtherPwd(Some(pairs[..]));
    }
    return Success(());
  }

  function ReadLoopResources(b: BuilderState, opts: Options): (r: Result<BuilderState, ConfigError>)
    ensures r.Success? ==> r.value == b.(loopResources := r.value.loopResources)
    ensures LOOP_RESOURCES !in opts ==> r == Success(b)
    ensures LOOP_RESOURCES in opts ==> (r.Success? <==> opts[LOOP_RESOURCES].Other?)
    ensures r.Success? && LOOP_RESOURCES in opts ==> r.value.loopResources == Some(opts[LOOP_RESOURCES].obj)
  {
    if LOOP_RESOURCES in opts then
      var resources :- GetObject(opts, LOOP_RESOURCES);
      Success(b.(loopResources := Some(resources)))
    else Success(b)
  }

  method ApplyLoopResources(b: Builder, opts: Options) returns (r: Result<(), ConfigError>)
    modifies b
    ensures Completed(r, ReadLoopResources(old(b.State()), opts), b.State())
  {
    if LOOP_RESOURCES in opts {
      var resources :- GetObject(opts, LOOP_RESOURCES);
      var ignored := b.LoopResources(Some(resources));
    }
    return Success(());
  }

  function ReadSslContextBuilderCustomizer(b: BuilderState, opts: Options): (r: Result<BuilderState, ConfigError>)
    ensures r.Success? ==> r.value == b.(sslContextBuilderCustomizer := r.value.sslContextBuilderCustomizer)
    ensures SSL_CONTEXT_BUILDER_CUSTOMIZER !in opts ==> r == Success(b)
    ensures SSL_CONTEXT_BUILDER_CUSTOMIZER in opts ==> (r.Success? <==> opts[SSL_CONTEXT_BUILDER_CUSTOMIZER].Other?)
    ensures r.Success? && SSL_CONTEXT_BUILDER_CUSTOMIZER in opts ==>
      r.value.sslContextBuilderCustomizer == Some(opts[SSL_CONTEXT_BUILDER_CUSTOMIZER].obj)
  {
    if SSL_CONTEXT_BUILDER_CUSTOMIZER in opts then
      var customizer :- GetObject(opts, SSL_CONTEXT_BUILDER_CUSTOMIZER);
      Success(b.(sslContextBuilderCustomizer := Some(customizer)))
    else Success(b)
  }

  method ApplySslContextBuilderCustomizer(b: Builder, opts: Options) returns (r: Result<(), ConfigError>)
    modifies b
    ensures Completed(r, ReadSslContextBuilderCustomizer(old(b.State()), opts), b.State())
  {
    if SSL_CONTEXT_BUILDER_CUSTOMIZER in opts {
      var customizer :- GetObject(opts, SSL_CONTEXT_BUILDER_CUSTOMIZER);
      b.SslContextBuilderCustomizer(Some(customizer));
    }
    return Success(());
  }

  // ---------------------------------------------------------------------------
  // fromOptions

  /** The blocks up to the connect and socket behaviour. */
  function ReadTransport(opts: Options, lib: Library): (r: Result<BuilderState, ConfigError>)
    ensures r.Success? ==> r.value == NewBuilderState.(
      database := r.value.database, host := r.value.host, socket := r.value.socket,
      allowMultiQueries := r.value.allowMultiQueries, connectTimeout := r.value.connectTimeout,
      tcpKeepAlive := r.value.tcpKeepAlive, tcpAbortiveClose := r.value.tcpAbortiveClose,
      transactionReplay := r.value.transactionReplay)
    ensures r.Success? ==> GetText(opts, DATABASE) == Success(r.value.database)
    ensures r.Success? && SOCKET in opts ==>
      r.value.socket.Some? && opts[SOCKET] == Text(r.value.socket.value) && r.value.host.None?
    ensures r.Success? && SOCKET !in opts ==>
      r.value.host.Some? && HOST in opts && opts[HOST] == Text(r.value.host.value) && r.value.socket.None?
    ensures SOCKET !in opts && HOST !in opts && GetText(opts, DATABASE).Success? ==>
      r == Failure(NoSuchOption(HOST))
  {
    var b1 :- ReadEndpoint(NewBuilderState, opts);
    var b2 := ReadAllowMultiQueries(b1, opts, lib);
    var b3 :- ReadConnectTimeout(b2, opts, lib);
    var b4 := ReadTcpKeepAlive(b3, opts, lib);
    var b5 := ReadTcpAbortiveClose(b4, opts, lib);
    Success(ReadTransactionReplay(b5, opts, lib))
  }

  /** The session blocks, from session variables to the prepared-statement cache size. */
  function ReadSession(b: BuilderState, opts: Options, lib: Library): (r: Result<BuilderState, ConfigError>)
    ensures r.Success? ==> r.value.(
      sessionVariables := b.sessionVariables, haMode := b.haMode, allowPipelining := b.allowPipelining,
      useServerPrepStmts := b.useServerPrepStmts, isolationLevel := b.isolationLevel,
      autocommit := b.autocommit, tinyInt1isBit := b.tinyInt1isBit,
      connectionAttributes := b.connectionAttributes, prepareCacheSize := b.prepareCacheSize) == b
  {
    var b1 :- ReadSessionVariables(b, opts);
    var b2 :- ReadHaMode(b1, opts);
    var b3 := ReadAllowPipelining(b2, opts, lib);
    var b4 := ReadUseServerPrepare(b3, opts, lib);
    var b5 :- ReadIsolationLevel(b4, opts, lib);
    var b6 := ReadAutocommit(b5, opts, lib);
    var b7 := ReadTinyIsBit(b6, opts, lib);
    var b8 :- ReadConnectionAttributes(b7, opts);
    ReadPrepareCacheSize(b8, opts, lib)
  }

  /** The TLS blocks, the credentials, the port, the PAM passwords and the resources. */
  function ReadSecurity(b: BuilderState, opts: Options, lib: Library): (r: Result<BuilderState, ConfigError>)
    ensures r.Success? ==> r.value.(
      sslMode := b.sslMode, serverSslCert := b.serverSslCert, clientSslCert := b.clientSslCert,
      clientSslKey := b.clientSslKey, clientSslPassword := b.clientSslPassword,
      tlsProtocol := b.tlsProtocol, password := b.password, username := b.username, port := b.port,
      pamOtherPwd := b.pamOtherPwd, loopResources := b.loopResources,
      sslContextBuilderCustomizer := b.sslContextBuilderCustomizer) == b
  {
    var b1 :- ReadSslMode(b, opts, lib);
    var b2 :- ReadSslFiles(b1, opts);
    var b3 :- ReadTlsProtocol(b2, opts);
    var b4 :- ReadCredentials(b3, opts);
    var b5 :- ReadPort(b4, opts, lib);
    var b6 :- ReadPamOtherPwd(b5, opts, lib);
    var b7 :- ReadLoopResources(b6, opts);
    ReadSslContextBuilderCustomizer(b7, opts)
  }

  /** The fields of the builder fromOptions returns, or the exception it throws. */
  function FromOptionsSpec(opts: Options, lib: Library): Result<BuilderState, ConfigError> {
    var b1 :- ReadTransport(opts, lib);
    var b2 :- ReadSession(b1, opts, lib);
    ReadSecurity(b2, opts, lib)
  }

  method ApplyTransport(opts: Options, lib: Library) returns (r: Result<Builder, ConfigError>)
    ensures r.Failure? <==> ReadTransport(opts, lib).Failure?
    ensures r.Failure? ==> r.error == ReadTransport(opts, lib).error
    ensures r.Success? ==> fresh(r.value) && r.value.State() == ReadTransport(opts, lib).value
  {
    var b := new Builder();
    var endpoint :- ApplyEndpoint(b, opts);
    ApplyAllowMultiQueries(b, opts, lib);
    var timeout :- ApplyConnectTimeout(b, opts, lib);
    ApplyTcpKeepAlive(b, opts, lib);
    ApplyTcpAbortiveClose(b, opts, lib);
    ApplyTransactionReplay(b, opts, lib);
    return Success(b);
  }

  method ApplySession(b: Builder, opts: Options, lib: Library) returns (r: Result<(), ConfigError>)
    modifies b
    ensures Completed(r, ReadSession(old(b.State()), opts, lib), b.State())
  {
    var variables :- ApplySessionVariables(b, opts);
    var haMode :- ApplyHaMode(b, opts);
    ApplyAllowPipelining(b, opts, lib);
    ApplyUseServerPrepare(b, opts, lib);
    var level :- ApplyIsolationLevel(b, opts, lib);
    ApplyAutocommit(b, opts, lib);
    ApplyTinyIsBit(b, opts, lib);
    var attributes :- ApplyConnectionAttributes(b, opts);
    r := ApplyPrepareCacheSize(b, opts, lib);
  }

  method ApplySecurity(b: Builder, opts: Options, lib: Library) returns (r: Result<(), ConfigError>)
    modifies b
    ensures Completed(r, ReadSecurity(old(b.State()), opts, lib), b.State())
  {
    var mode :- ApplySslMode(b, opts, lib);
    var files :- ApplySslFiles(b, opts);
    var protocols :- ApplyTlsProtocol(b, opts);
    var credentials :- ApplyCredentials(b, opts);
    var port :- ApplyPort(b, opts, lib);
    var pam :- ApplyPamOtherPwd(b, opts, lib);
    var resources :- ApplyLoopResources(b, opts);
    r := ApplySslContextBuilderCustomizer(b, opts);
  }

  /** fromOptions: a new Builder, filled option by option. */
  method FromOptions(opts: Options, lib: Library) returns (r: Result<Builder, ConfigError>)
    ensures r.Failure? <==> FromOptionsSpec(opts, lib).Failure?
    ensures r.Failure? ==> r.error == FromOptionsSpec(opts, lib).error
    ensures r.Success? ==> fresh(r.value) && r.value.State() == FromOptionsSpec(opts, lib).value
  {
    var b :- ApplyTransport(opts, lib);
    var session :- ApplySession(b, opts, lib);
    var security :- ApplySecurity(b, opts, lib);
    return Success(b);
  }

  // ---------------------------------------------------------------------------
  // What fromOptions makes of the options

  /**
   * A socket option is used instead of the host, and the user name is always
   * taken from the options: a builder fromOptions returns passes the argument
   * checks of build.
   */
  lemma FromOptionsEndpoint(opts: Options, lib: Library)
    requires FromOptionsSpec(opts, lib).Success?
    ensures var s := FromOptionsSpec(opts, lib).value;
      && (SOCKET in opts ==> s.socket.Some? && opts[SOCKET] == Text(s.socket.value) && s.host.None?)
      && (SOCKET !in opts ==> s.host.Some? && HOST in opts && opts[HOST] == Text(s.host.value) && s.socket.None?)
      && s.username.Some? && USER in opts && opts[USER] == Text(s.username.value)
      && s.host.Some? != s.socket.Some?
      && GetText(opts, DATABASE) == Success(s.database)
  {

  }

  /** Without a user name fromOptions throws. */
  lemma FromOptionsNeedsUser(opts: Options, lib: Library)
    requires USER !in opts
    ensures FromOptionsSpec(opts, lib).Failure?
  {

  }

  /** Without socket and host fromOptions throws for the missing host. */
  lemma FromOptionsNeedsHost(opts: Options, lib: Library)
    requires SOCKET !in opts && HOST !in opts
    requires DATABASE !in opts || opts[DATABASE].Text?
    ensures FromOptionsSpec(opts, lib) == Failure(NoSuchOption(HOST))
  {
  }

  /**
   * The TLS protocol option is split on runs of separators; an empty split
   * leaves the protocols unset.
   */
  lemma FromOptionsTlsProtocol(opts: Options, lib: Library)
    requires FromOptionsSpec(opts, lib).Success?
    ensures TLS_PROTOCOL in opts ==> opts[TLS_PROTOCOL].Text?
    ensures var s := FromOptionsSpec(opts, lib).value;
      if TLS_PROTOCOL in opts && opts[TLS_PROTOCOL].Text? then
        var protocols := SplitOnRuns(opts[TLS_PROTOCOL].s, TLS_SEPARATORS);
        s.tlsProtocol == if protocols == [] then None else Some(protocols)
      else s.tlsProtocol.None?
  {
    var t := ReadTransport(opts, lib).value;
    var u := ReadSession(t, opts, lib).value;
    var b1 := ReadSslMode(u, opts, lib).value;
    var b2 := ReadSslFiles(b1, opts).value;
    assert b2.tlsProtocol == None;
    var b3 := ReadTlsProtocol(b2, opts).value;
    var b4 := ReadCredentials(b3, opts).value;
    var b5 := ReadPort(b4, opts, lib).value;
    var b6 := ReadPamOtherPwd(b5, opts, lib).value;
    var b7 := ReadLoopResources(b6, opts).value;
    assert FromOptionsSpec(opts, lib).value == ReadSslContextBuilderCustomizer(b7, opts).value;
    assert FromOptionsSpec(opts, lib).value.tlsProtocol == b3.tlsProtocol;
  }

  /** The PAM passwords are the option split on ',', each entry URL-decoded. */
  lemma FromOptionsPamPasswords(opts: Options, lib: Library)
    requires FromOptionsSpec(opts, lib).Success?
    ensures PAM_OTHER_PASSWORD in opts ==> opts[PAM_OTHER_PASSWORD].Text?
    ensures var s := FromOptionsSpec(opts, lib).value;
      if PAM_OTHER_PASSWORD in opts && opts[PAM_OTHER_PASSWORD].Text? then
        var pieces := Split(opts[PAM_OTHER_PASSWORD].s, ',');
        && s.pamOtherPwd.Some? && |s.pamOtherPwd.value| == |pieces|
        && forall i :: 0 <= i < |pieces| ==> lib.urlDecode(pieces[i]) == Some(s.pamOtherPwd.value[i])
      else s.pamOtherPwd.None?
  {
  }

  /** A boolean switch is set from its option when present and keeps its default otherwise. */
  lemma FromOptionsSwitches(opts: Options, lib: Library)
    requires FromOptionsSpec(opts, lib).Success?
    ensures var s := FromOptionsSpec(opts, lib).value;
      && s.allowMultiQueries == (if ALLOW_MULTI_QUERIES in opts then BoolValue(opts[ALLOW_MULTI_QUERIES], lib) else false)
      && s.allowPipelining == (if ALLOW_PIPELINING in opts then BoolValue(opts[ALLOW_PIPELINING], lib) else true)
      && s.useServerPrepStmts == (if USE_SERVER_PREPARE in opts then BoolValue(opts[USE_SERVER_PREPARE], lib) else false)
      && s.autocommit == (if AUTO_COMMIT in opts then BoolValue(opts[AUTO_COMMIT], lib) else true)
      && s.tinyInt1isBit == (if TINY_IS_BIT in opts then BoolValue(opts[TINY_IS_BIT], lib) else true)
      && s.tcpKeepAlive == (if TCP_KEEP_ALIVE in opts then Some(BoolValue(opts[TCP_KEEP_ALIVE], lib)) else None)
      && s.tcpAbortiveClose == (if TCP_ABORTIVE_CLOSE in opts then Some(BoolValue(opts[TCP_ABORTIVE_CLOSE], lib)) else None)
      && s.transactionReplay == (if TRANSACTION_REPLAY in opts then Some(BoolValue(opts[TRANSACTION_REPLAY], lib)) else None)
  {
  }

  /** The SSL mode is SslMode.from of the option, DISABLE without it; an unknown mode makes fromOptions throw. */
  lemma FromOptionsSslMode(opts: Options, lib: Library)
    ensures FromOptionsSpec(opts, lib).Success? && SSL_MODE !in opts ==> FromOptionsSpec(opts, lib).value.sslMode == DISABLE
    ensures FromOptionsSpec(opts, lib).Success? && SSL_MODE in opts ==>
      opts[SSL_MODE].Text? && lib.sslModeFrom(opts[SSL_MODE].s) == Some(FromOptionsSpec(opts, lib).value.sslMode)
    ensures SSL_MODE in opts && opts[SSL_MODE].Text? && lib.sslModeFrom(opts[SSL_MODE].s).None? ==>
      FromOptionsSpec(opts, lib).Failure?
  {
  }

  /** With only a host and a user, everything else keeps the builder's defaults. */
  lemma FromOptionsMinimal(host: string, user: string, lib: Library)
    ensures FromOptionsSpec(map[HOST := Text(host), USER := Text(user)], lib) ==
      Success(NewBuilderState.(host := Some(host), username := Some(user)))
  {
    var opts := map[HOST := Text(host), USER := Text(user)];
    var t := NewBuilderState.(host := Some(host));
    MinimalTransport(opts, host, user, lib);
    MinimalSession(opts, t, lib);
    MinimalSecurity(opts, t, user, lib);
  }

  lemma MinimalTransport(opts: Options, host: string, user: string, lib: Library)
    requires opts == map[HOST := Text(host), USER := Text(user)]
    ensures ReadTransport(opts, lib) == Success(NewBuilderState.(host := Some(host)))
  {
    assert ReadEndpoint(NewBuilderState, opts) == Success(NewBuilderState.(host := Some(host)));
  }

  lemma MinimalSession(opts: Options, b: BuilderState, lib: Library)
    requires opts.Keys == {HOST, USER}
    ensures ReadSession(b, opts, lib) == Success(b)
  {
  }

  lemma MinimalSecurity(opts: Options, b: BuilderState, user: string, lib: Library)
    requires opts.Keys == {HOST, USER} && opts[USER] == Text(user)
    requires b.serverSslCert.None? && b.clientSslCert.None? && b.clientSslKey.None?
    requires b.clientSslPassword.None? && b.password.None?
    ensures ReadSecurity(b, opts, lib) == Success(b.(username := Some(user)))
  {
    assert ReadSslFiles(b, opts) == Success(b);
    assert ReadCredentials(b, opts) == Success(b.(username := Some(user)));
  }

  /** Session variables and connection attributes are their option's text read by getMapFromString. */
  lemma FromOptionsMaps(opts: Options, lib: Library)
    requires FromOptionsSpec(opts, lib).Success?
    ensures SESSION_VARIABLES in opts ==> opts[SESSION_VARIABLES].Text?
    ensures CONNECTION_ATTRIBUTES in opts ==> opts[CONNECTION_ATTRIBUTES].Text?
    ensures var s := FromOptionsSpec(opts, lib).value;
      && (if SESSION_VARIABLES in opts && opts[SESSION_VARIABLES].Text? then
            var m := MapFromString(Some(opts[SESSION_VARIABLES].s));
            m.Success? && s.sessionVariables == Some(m.value)
          else s.sessionVariables.None?)
      && (if CONNECTION_ATTRIBUTES in opts && opts[CONNECTION_ATTRIBUTES].Text? then
            var m := MapFromString(Some(opts[CONNECTION_ATTRIBUTES].s));
            m.Success? && s.connectionAttributes == Some(m.value)
          else s.connectionAttributes.None?)
  {
  }

  /** The isolation level is looked up by its name with '-' read as a space. */
  lemma FromOptionsIsolationLevel(opts: Options, lib: Library)
    requires FromOptionsSpec(opts, lib).Success?
    ensures ISOLATION_LEVEL in opts ==> opts[ISOLATION_LEVEL].Text?
    ensures var s := FromOptionsSpec(opts, lib).value;
      if ISOLATION_LEVEL in opts && opts[ISOLATION_LEVEL].Text? then
        s.isolationLevel == Some(lib.isolationLevelOf(Replace(opts[ISOLATION_LEVEL].s, '-', ' ')))
      else s.isolationLevel.None?
  {
  }

  /** Port and prepared-statement cache size are read as Java ints; the port defaults to 3306. */
  lemma FromOptionsNumbers(opts: Options, lib: Library)
    requires FromOptionsSpec(opts, lib).Success?
    ensures var s := FromOptionsSpec(opts, lib).value;
      && (PORT in opts ==> IntValue(opts[PORT], lib) == Success(s.port))
      && (PORT !in opts ==> s.port == DEFAULT_PORT)
      && (PREPARE_CACHE_SIZE in opts ==> s.prepareCacheSize.Some? &&
                                         IntValue(opts[PREPARE_CACHE_SIZE], lib) == Success(s.prepareCacheSize.value))
      && (PREPARE_CACHE_SIZE !in opts ==> s.prepareCacheSize.None?)
  {
  }

  /** The connect timeout is durationValue of its option, and stays null without it. */
  lemma FromOptionsConnectTimeout(opts: Options, lib: Library)
    requires FromOptionsSpec(opts, lib).Success?
    ensures var s := FromOptionsSpec(opts, lib).value;
      && (CONNECT_TIMEOUT in opts ==>
            DurationValue(opts[CONNECT_TIMEOUT], lib).Success? &&
            s.connectTimeout == Some(DurationValue(opts[CONNECT_TIMEOUT], lib).value))
      && (CONNECT_TIMEOUT !in opts ==> s.connectTimeout.None?)
  {
  }

  /**
   * The HA mode, the certificate and key files, the key password and the password
   * are their options' Strings, or null when the option is absent.
   */
  lemma FromOptionsTexts(opts: Options, lib: Library)
    requires FromOptionsSpec(opts, lib).Success?
    ensures var s := FromOptionsSpec(opts, lib).value;
      && GetText(opts, HAMODE) == Success(s.haMode)
      && GetText(opts, SERVER_SSL_CERT) == Success(s.serverSslCert)
      && GetText(opts, CLIENT_SSL_CERT) == Success(s.clientSslCert)
      && GetText(opts, CLIENT_SSL_KEY) == Success(s.clientSslKey)
      && GetText(opts, CLIENT_SSL_PWD) == Success(s.clientSslPassword)
      && GetText(opts, PASSWORD) == Success(s.password)
  {
  }

  /** The event-loop resources and the SSL context customizer are the options' objects, or null. */
  lemma FromOptionsObjects(opts: Options, lib: Library)
    requires FromOptionsSpec(opts, lib).Success?
    ensures var s := FromOptionsSpec(opts, lib).value;
      && (LOOP_RESOURCES in opts ==>
            opts[LOOP_RESOURCES].Other? && s.loopResources == Some(opts[LOOP_RESOURCES].obj))
      && (LOOP_RESOURCES !in opts ==> s.loopResources.None?)
      && (SSL_CONTEXT_BUILDER_CUSTOMIZER in opts ==>
            opts[SSL_CONTEXT_BUILDER_CUSTOMIZER].Other? &&
            s.sslContextBuilderCustomizer == Some(opts[SSL_CONTEXT_BUILDER_CUSTOMIZER].obj))
      && (SSL_CONTEXT_BUILDER_CUSTOMIZER !in opts ==> s.sslContextBuilderCustomizer.None?)
  {
  }

  /**
   * A PAM option made of a single comma splits into no passwords at all; the
   * builder then holds an empty array, and its toString throws.
   */
  lemma FromOptionsCommaPam(opts: Options, lib: Library)
    requires FromOptionsSpec(opts, lib).Success?
    requires PAM_OTHER_PASSWORD in opts && opts[PAM_OTHER_PASSWORD] == Text(",")
    ensures FromOptionsSpec(opts, lib).value.pamOtherPwd == Some([])
    ensures BuilderText(FromOptionsSpec(opts, lib).value, lib).Failure?
  {
    assert Pieces(",", ',') == ["", ""] by {
      PiecesPrefix("", "", ',');
      PiecesWithoutSeparator("", ',');
      assert "" + [','] + "" == ",";
    }
    FromOptionsPamPasswords(opts, lib);
    BuilderTextFails(FromOptionsSpec(opts, lib).value, lib);
  }
}
