# MariaDB R2DBC connection configuration, modelled in Dafny

This project models `MariadbConnectionConfiguration` of the MariaDB R2DBC
connector and proves properties of the model. That class is the immutable
record of everything a connection needs: endpoint, credentials, TLS settings,
session options and event-loop resources. The model covers:

- **`Builder`** — a mutable record with one setter per option. Its `build()`
  checks the endpoint and the user name, then runs the private constructor.
  Here it is a Dafny `class` whose fields are the builder's fields; every
  setter is a method with a `modifies` clause.
- **The private constructor** — a pure function from a snapshot of the builder
  (`BuilderState`) to a `Configuration`. It supplies defaults, drops empty
  database and password strings, forbids server-side prepared statements
  together with multi-queries, and chooses the SSL configuration.
- **`boolValue`, `intValue`, `durationValue`** — coerce untyped option values.
  `intValue` truncates a Java `Number` to 32 bits, and the model does so
  explicitly.
- **`getMapFromString`** — splits `k=v,k2=v2` on `,` and then on `=`.
  `String.split` semantics are modelled, including the dropping of trailing
  empty strings.
- **`fromOptions`** — fills a new builder from a connection-factory option
  bag, one `if (hasOption(...))` block after another. Each block is a step
  function on `BuilderState` and a method that has the same effect through
  the setters. `FromOptionsSpec` chains the step functions. The
  `FromOptions` method calls the step methods in the order of the source and
  is proved equal to `FromOptionsSpec`: the same result, or the same
  exception.
- **The two `toString` methods** — with their masking of the password and the
  PAM passwords.

Java exceptions become `Result` failures carrying a `ConfigError` that names
the exception. Code outside this class is reached through a `Library` value
passed as a parameter: `HaMode.from`, `SslMode.from`, `IsolationLevel.valueOf`,
`Duration.parse`, `URLDecoder.decode`, `HostAddress.parse`, `TcpResources.get`
and the `toString` of foreign objects.

Modules:

- `JavaLang` — the Java library semantics the class relies on: 32-bit
  truncation, `Integer.parseInt`/`toString`, `Boolean.parseBoolean`,
  `String.split` on one character and on a run of characters, and
  `String.replace`.
- `External` — the foreign types and the `Library`.
- `OptionValues` — option keys, values, errors, coercions and
  `getMapFromString`.
- `ConnectionConfiguration` — the built configuration and its `toString`.
- `ConfigBuilder` — the builder and its `toString`.
- `OptionMapping` — `fromOptions`.

## Model

All source paths are `src/main/java/org/mariadb/r2dbc/MariadbConnectionConfiguration.java`.

| member | source | states |
|---|---|---|
| JavaLang.ToInt32 | src/main/java/org/mariadb/r2dbc/MariadbConnectionConfiguration.java:153 | `Number.intValue` keeps the value modulo 2^32 and leaves values already in the int range unchanged |
| JavaLang.ParseInt | src/main/java/org/mariadb/r2dbc/MariadbConnectionConfiguration.java:155 | `Integer.parseInt` accepts only an optional sign followed by at least one decimal digit and nothing else; a negative result needs a leading `-` |
| JavaLang.ParseIntRejects | src/main/java/org/mariadb/r2dbc/MariadbConnectionConfiguration.java:155 | NumberFormatException (None) for empty text, a lone sign, any non-digit after the sign, and a value outside the int range; well-formed in-range text is accepted |
| JavaLang.ParseIntRejectsExamples | src/main/java/org/mariadb/r2dbc/MariadbConnectionConfiguration.java:155 | `"33o6"`, `"+"` and `"1 "` are rejected |
| JavaLang.ParseShow | src/main/java/org/mariadb/r2dbc/MariadbConnectionConfiguration.java:155 | `Integer.parseInt` reads back every int's decimal text as that int |
| JavaLang.ParseBooleanSpellings | src/main/java/org/mariadb/r2dbc/MariadbConnectionConfiguration.java:141 | `Boolean.parseBoolean` is true exactly for the sixteen capitalisations of "true" |
| JavaLang.Split | src/main/java/org/mariadb/r2dbc/MariadbConnectionConfiguration.java:331-334 | `split` on one character: a string without the separator comes back whole; no piece contains the separator; no trailing empty piece |
| JavaLang.SplitOfJoin | src/main/java/org/mariadb/r2dbc/MariadbConnectionConfiguration.java:331 | splitting pieces joined by the separator gives back the pieces, provided no piece contains it and the last one is not empty |
| JavaLang.SplitDropsOnlyTrailingEmpty | src/main/java/org/mariadb/r2dbc/MariadbConnectionConfiguration.java:331 | `split` is the full list of pieces with only trailing empty pieces removed, and those pieces join back to the input |
| JavaLang.SplitLeadingEmpty | src/main/java/org/mariadb/r2dbc/MariadbConnectionConfiguration.java:334 | an item that starts with `=` but has other text splits into a leading empty key and at least one more piece |
| JavaLang.SplitOnRuns | src/main/java/org/mariadb/r2dbc/MariadbConnectionConfiguration.java:287 | `split("[,;\\s]+")`: text without separators comes back whole; otherwise no piece holds a separator, only the first piece can be empty, and no trailing empty piece is kept |
| JavaLang.SplitOnRunsLeadingEmpty | src/main/java/org/mariadb/r2dbc/MariadbConnectionConfiguration.java:287 | a text starting with a separator run, followed by any other character, splits with a leading empty string and at least one more piece |
| JavaLang.SplitOnRunsOfJoin | src/main/java/org/mariadb/r2dbc/MariadbConnectionConfiguration.java:287 | round trip: pieces without separators, all but the first non-empty, joined by one separator, split back into exactly those pieces |
| JavaLang.RunPiecesOfJoin | src/main/java/org/mariadb/r2dbc/MariadbConnectionConfiguration.java:287 | before trailing empties are dropped, the separator-run pieces of such a joined text are exactly the joined pieces |
| JavaLang.Replace | src/main/java/org/mariadb/r2dbc/MariadbConnectionConfiguration.java:234 | `replace("-", " ")` changes exactly the dashes and keeps the length |
| OptionValues.BoolValue | src/main/java/org/mariadb/r2dbc/MariadbConnectionConfiguration.java:137-142 | a Boolean is taken as it is; the String "1" is true |
| OptionValues.BoolValueOfText | src/main/java/org/mariadb/r2dbc/MariadbConnectionConfiguration.java:137-142 | a String is true exactly when it is "1" or "true" in any capitalisation |
| OptionValues.BoolValueOfNumber | src/main/java/org/mariadb/r2dbc/MariadbConnectionConfiguration.java:137-142 | a Number is never true: its text is not "true", and it is not the String "1" |
| OptionValues.IntValue | src/main/java/org/mariadb/r2dbc/MariadbConnectionConfiguration.java:151-156 | a Number is truncated to 32 bits (unchanged when in range); anything else (a Boolean, a String) is read by `Integer.parseInt` of its text: the result is the parsed int, and text parseInt rejects throws NumberFormatException on that text |
| OptionValues.IntValueOfShow | src/main/java/org/mariadb/r2dbc/MariadbConnectionConfiguration.java:151-156 | the decimal text of an int is read as that int |
| OptionValues.DurationValue | src/main/java/org/mariadb/r2dbc/MariadbConnectionConfiguration.java:144-149 | a Duration is taken as it is; anything else is `Duration.parse` of its text: the parsed Duration when it accepts, DateTimeParseException on that text otherwise |
| OptionValues.GetText | src/main/java/org/mariadb/r2dbc/MariadbConnectionConfiguration.java:160 | `(String) getValue`: an absent option is null; a present option succeeds exactly when it is a String and then yields that String |
| OptionValues.GetRequiredText | src/main/java/org/mariadb/r2dbc/MariadbConnectionConfiguration.java:165-167 | `(String) getRequiredValue`: an absent option throws NoSuchOption for that key; a present option succeeds exactly when it is a String, yielding that String, and otherwise throws ClassCast for that key |
| OptionValues.GetObject | src/main/java/org/mariadb/r2dbc/MariadbConnectionConfiguration.java:311-313 | the cast of a present option to an object type succeeds exactly when the value is such an object, and yields that object; otherwise it throws ClassCast |
| OptionValues.PairEntry | src/main/java/org/mariadb/r2dbc/MariadbConnectionConfiguration.java:334-335 | one item fails with IndexOutOfBounds exactly when it splits into no pieces on `=`; key and value never contain `=` |
| OptionValues.GetMapFromString | src/main/java/org/mariadb/r2dbc/MariadbConnectionConfiguration.java:328-339 | the loop over the items returns what `MapFromString` specifies (empty map for null or empty text) |
| OptionValues.PutAllFailure | src/main/java/org/mariadb/r2dbc/MariadbConnectionConfiguration.java:332-335 | the map fails exactly when some item splits into no pieces on `=`, always with IndexOutOfBounds |
| OptionValues.PutAllFailsFrom | src/main/java/org/mariadb/r2dbc/MariadbConnectionConfiguration.java:332-335 | one unreadable item anywhere makes the whole map fail |
| OptionValues.PutAllFailureCause | src/main/java/org/mariadb/r2dbc/MariadbConnectionConfiguration.java:332-335 | a failing list fails with IndexOutOfBounds, and some item in it splits into no pieces on `=` |
| OptionValues.PutAllReadable | src/main/java/org/mariadb/r2dbc/MariadbConnectionConfiguration.java:332-335 | when the map is built, every item was readable |
| OptionValues.PutAllStep | src/main/java/org/mariadb/r2dbc/MariadbConnectionConfiguration.java:332-335 | the map of n items is the map of the first n-1 items updated with the last item's entry |
| OptionValues.PutAllMapOf | src/main/java/org/mariadb/r2dbc/MariadbConnectionConfiguration.java:330-336 | a built map is `MapOf` of the items' entries in list order, every item being readable |
| OptionValues.PutAllKeys | src/main/java/org/mariadb/r2dbc/MariadbConnectionConfiguration.java:332-335 | a key is in the map exactly when some item has that key; no other entries are created |
| OptionValues.PutAllLastWins | src/main/java/org/mariadb/r2dbc/MariadbConnectionConfiguration.java:332-335 | a key's value comes from its last item: a later duplicate overwrites an earlier one |
| OptionValues.ItemEntry | src/main/java/org/mariadb/r2dbc/MariadbConnectionConfiguration.java:334-335 | an item `k=v` with a non-empty key, and neither part containing `,` or `=`, reads as the entry (k, v) |
| OptionValues.MapOfKeys | src/main/java/org/mariadb/r2dbc/MariadbConnectionConfiguration.java:335 | a key is in the map of entries exactly when some entry has it |
| OptionValues.MapOfLastWins | src/main/java/org/mariadb/r2dbc/MariadbConnectionConfiguration.java:335 | an entry whose key no later entry repeats gives that key its value: `put` overwrites |
| OptionValues.PutAllItems | src/main/java/org/mariadb/r2dbc/MariadbConnectionConfiguration.java:332-335 | a list of such items reads as the map of those entries |
| OptionValues.MapFromRendered | src/main/java/org/mariadb/r2dbc/MariadbConnectionConfiguration.java:328-339 | round trip: `getMapFromString` of entries written as `k=v` joined by `,` is the map of those entries |
| OptionValues.ItemsSplit | src/main/java/org/mariadb/r2dbc/MariadbConnectionConfiguration.java:331 | splitting a non-empty rendered list on `,` gives back its items, none lost or merged |
| ConnectionConfiguration.NonEmpty | src/main/java/org/mariadb/r2dbc/MariadbConnectionConfiguration.java:96 | a nullable string with the empty string read as null; any other string is kept |
| ConnectionConfiguration.ResolveHaMode | src/main/java/org/mariadb/r2dbc/MariadbConnectionConfiguration.java:91 | no HA mode gives NONE; otherwise `HaMode.from` of the name, whose rejection fails with that name |
| ConnectionConfiguration.ResolveHosts | src/main/java/org/mariadb/r2dbc/MariadbConnectionConfiguration.java:99-103 | given host addresses are kept; otherwise the result is `HostAddress.parse(host, port)`, failing when that fails |
| ConnectionConfiguration.NewConfiguration | src/main/java/org/mariadb/r2dbc/MariadbConnectionConfiguration.java:56-135 | the constructor succeeds exactly when the HA mode name and (without addresses) the host parse; a bad HA mode fails first; every result is normalized |
| ConnectionConfiguration.NewConfigurationDefaults | src/main/java/org/mariadb/r2dbc/MariadbConnectionConfiguration.java:91-132 | absent options become NONE, 10 s, false, false, false, cache size 250 and the shared TCP resources; given ones are kept |
| ConnectionConfiguration.NewConfigurationNormalizes | src/main/java/org/mariadb/r2dbc/MariadbConnectionConfiguration.java:96-133 | database and password are null exactly when absent or empty; useServerPrepStmts is `!allowMultiQueries && requested` |
| ConnectionConfiguration.NewConfigurationSsl | src/main/java/org/mariadb/r2dbc/MariadbConnectionConfiguration.java:112-124 | the SSL configuration is the shared disabled instance exactly when the mode is DISABLE, and otherwise carries the mode, files, key password, protocols and customizer |
| ConnectionConfiguration.NewConfigurationHosts | src/main/java/org/mariadb/r2dbc/MariadbConnectionConfiguration.java:98-103 | host addresses are the given ones or the parsed host; restrictedAuth is null exactly when absent, else its `,`-split |
| ConnectionConfiguration.NewConfigurationCarriesOver | src/main/java/org/mariadb/r2dbc/MariadbConnectionConfiguration.java:104-134 | every other field is copied from the builder unchanged |
| ConnectionConfiguration.NewBuilderDefaults | src/main/java/org/mariadb/r2dbc/MariadbConnectionConfiguration.java:91-133 | a fresh builder with only host and user builds port 3306, 10 s timeout, cache 250, pipelining and autocommit on, SSL disabled, no database or password |
| ConnectionConfiguration.HiddenPassword | src/main/java/org/mariadb/r2dbc/MariadbConnectionConfiguration.java:466-469 | the password shows as `*` exactly when set and as nothing exactly when null |
| ConnectionConfiguration.Stars | src/main/java/org/mariadb/r2dbc/MariadbConnectionConfiguration.java:470-477 | n stars separated by commas: length 2n-1, `*` at even positions and `,` at odd ones |
| ConnectionConfiguration.HiddenPamPasswords | src/main/java/org/mariadb/r2dbc/MariadbConnectionConfiguration.java:470-477 | null shows as nothing, n passwords as n stars; an empty array throws StringIndexOutOfBounds, and only it does |
| ConnectionConfiguration.HidePamPasswords | src/main/java/org/mariadb/r2dbc/MariadbConnectionConfiguration.java:470-477 | the loop builds the same text as `HiddenPamPasswords`, with the star/comma shape and the empty-array failure |
| ConnectionConfiguration.ConfigurationToString | src/main/java/org/mariadb/r2dbc/MariadbConnectionConfiguration.java:464-535 | the method builds the configuration's text as `ConfigurationText` describes it |
| ConnectionConfiguration.ConfigurationLayoutIgnoresSecrets | src/main/java/org/mariadb/r2dbc/MariadbConnectionConfiguration.java:464-535 | each field's text, and so the whole list, reads the password and PAM passwords only through their masked forms |
| ConnectionConfiguration.ConfigurationTextHidesSecrets | src/main/java/org/mariadb/r2dbc/MariadbConnectionConfiguration.java:464-535 | the text does not depend on the password's value or on the PAM passwords' values, only on whether each is null and on the PAM array's length; this holds whether or not each secret is set |
| ConnectionConfiguration.HiddenPamPasswordsByCount | src/main/java/org/mariadb/r2dbc/MariadbConnectionConfiguration.java:470-477 | the masked PAM passwords depend only on whether the array is null and on its length |
| ConfigBuilder.NonNull | src/main/java/org/mariadb/r2dbc/MariadbConnectionConfiguration.java:739-742 | keeps exactly the non-null protocols; it is empty exactly when all entries are null |
| ConfigBuilder.NonNullOfWrap | src/main/java/org/mariadb/r2dbc/MariadbConnectionConfiguration.java:739-742 | an array without nulls keeps every entry, in order |
| ConfigBuilder.WithTlsProtocolSetsNonNull | src/main/java/org/mariadb/r2dbc/MariadbConnectionConfiguration.java:734-745 | only the protocol list changes: null clears it, an all-null array leaves it as it was, otherwise it becomes the non-null entries |
| ConfigBuilder.Builder.constructor | src/main/java/org/mariadb/r2dbc/MariadbConnectionConfiguration.java:544-579 | a new builder has the field initialisers' values (port 3306, pipelining, autocommit and tinyInt1isBit on, SSL DISABLE, the rest null or false) |
| ConfigBuilder.Builder.Build | src/main/java/org/mariadb/r2dbc/MariadbConnectionConfiguration.java:586-636 | neither host nor socket, both, or no user name each fail with their IllegalArgumentException, in that order; otherwise the constructor's result, normalized and with a user name |
| ConfigBuilder.Builder.ConnectTimeout | src/main/java/org/mariadb/r2dbc/MariadbConnectionConfiguration.java:644-647 | sets connectTimeout, nothing else |
| ConfigBuilder.Builder.HaMode | src/main/java/org/mariadb/r2dbc/MariadbConnectionConfiguration.java:649-652 | sets haMode, nothing else |
| ConfigBuilder.Builder.HostAddresses | src/main/java/org/mariadb/r2dbc/MariadbConnectionConfiguration.java:654-657 | sets hostAddresses, nothing else |
| ConfigBuilder.Builder.RestrictedAuth | src/main/java/org/mariadb/r2dbc/MariadbConnectionConfiguration.java:659-662 | sets restrictedAuth, nothing else |
| ConfigBuilder.Builder.TcpKeepAlive | src/main/java/org/mariadb/r2dbc/MariadbConnectionConfiguration.java:664-667 | sets tcpKeepAlive, nothing else |
| ConfigBuilder.Builder.TcpAbortiveClose | src/main/java/org/mariadb/r2dbc/MariadbConnectionConfiguration.java:669-672 | sets tcpAbortiveClose, nothing else |
| ConfigBuilder.Builder.TransactionReplay | src/main/java/org/mariadb/r2dbc/MariadbConnectionConfiguration.java:674-677 | sets transactionReplay, nothing else |
| ConfigBuilder.Builder.ConnectionAttributes | src/main/java/org/mariadb/r2dbc/MariadbConnectionConfiguration.java:679-682 | sets connectionAttributes, nothing else |
| ConfigBuilder.Builder.SessionVariables | src/main/java/org/mariadb/r2dbc/MariadbConnectionConfiguration.java:684-687 | sets sessionVariables, nothing else |
| ConfigBuilder.Builder.PamOtherPwd | src/main/java/org/mariadb/r2dbc/MariadbConnectionConfiguration.java:689-692 | sets pamOtherPwd, nothing else |
| ConfigBuilder.Builder.Database | src/main/java/org/mariadb/r2dbc/MariadbConnectionConfiguration.java:700-703 | sets database, nothing else |
| ConfigBuilder.Builder.Host | src/main/java/org/mariadb/r2dbc/MariadbConnectionConfiguration.java:712-715 | null fails with "host must not be null" and changes nothing; otherwise sets host only |
| ConfigBuilder.Builder.Password | src/main/java/org/mariadb/r2dbc/MariadbConnectionConfiguration.java:723-726 | sets password, nothing else |
| ConfigBuilder.CopyNonNull | src/main/java/org/mariadb/r2dbc/MariadbConnectionConfiguration.java:738-741 | the loop keeps exactly the non-null protocols, in their order |
| ConfigBuilder.Builder.TlsProtocol | src/main/java/org/mariadb/r2dbc/MariadbConnectionConfiguration.java:734-745 | the loop collecting non-null protocols leaves the builder as `WithTlsProtocol` specifies |
| ConfigBuilder.Builder.ServerSslCert | src/main/java/org/mariadb/r2dbc/MariadbConnectionConfiguration.java:762-765 | sets serverSslCert, nothing else |
| ConfigBuilder.Builder.PrepareCacheSize | src/main/java/org/mariadb/r2dbc/MariadbConnectionConfiguration.java:779-782 | sets prepareCacheSize, nothing else |
| ConfigBuilder.Builder.ClientSslCert | src/main/java/org/mariadb/r2dbc/MariadbConnectionConfiguration.java:798-801 | sets clientSslCert, nothing else |
| ConfigBuilder.Builder.ClientSslKey | src/main/java/org/mariadb/r2dbc/MariadbConnectionConfiguration.java:809-812 | sets clientSslKey, nothing else |
| ConfigBuilder.Builder.ClientSslPassword | src/main/java/org/mariadb/r2dbc/MariadbConnectionConfiguration.java:820-823 | sets clientSslPassword, nothing else |
| ConfigBuilder.Builder.SslMode | src/main/java/org/mariadb/r2dbc/MariadbConnectionConfiguration.java:825-829 | sets sslMode, with null stored as DISABLE; the mode is DISABLE exactly when given null or DISABLE |
| ConfigBuilder.Builder.RsaPublicKey | src/main/java/org/mariadb/r2dbc/MariadbConnectionConfiguration.java:837-840 | sets rsaPublicKey, nothing else |
| ConfigBuilder.Builder.CachingRsaPublicKey | src/main/java/org/mariadb/r2dbc/MariadbConnectionConfiguration.java:848-851 | sets cachingRsaPublicKey, nothing else |
| ConfigBuilder.Builder.AllowPublicKeyRetrieval | src/main/java/org/mariadb/r2dbc/MariadbConnectionConfiguration.java:859-862 | sets allowPublicKeyRetrieval, nothing else |
| ConfigBuilder.Builder.UseServerPrepStmts | src/main/java/org/mariadb/r2dbc/MariadbConnectionConfiguration.java:870-873 | sets useServerPrepStmts, nothing else |
| ConfigBuilder.Builder.IsolationLevel | src/main/java/org/mariadb/r2dbc/MariadbConnectionConfiguration.java:881-884 | sets isolationLevel, nothing else |
| ConfigBuilder.Builder.Autocommit | src/main/java/org/mariadb/r2dbc/MariadbConnectionConfiguration.java:892-895 | sets autocommit, nothing else |
| ConfigBuilder.Builder.TinyInt1isBit | src/main/java/org/mariadb/r2dbc/MariadbConnectionConfiguration.java:904-907 | sets tinyInt1isBit, nothing else |
| ConfigBuilder.Builder.AllowPipelining | src/main/java/org/mariadb/r2dbc/MariadbConnectionConfiguration.java:915-918 | sets allowPipelining, nothing else |
| ConfigBuilder.Builder.Port | src/main/java/org/mariadb/r2dbc/MariadbConnectionConfiguration.java:926-929 | sets port, nothing else |
| ConfigBuilder.Builder.AllowMultiQueries | src/main/java/org/mariadb/r2dbc/MariadbConnectionConfiguration.java:937-940 | sets allowMultiQueries, nothing else |
| ConfigBuilder.Builder.Socket | src/main/java/org/mariadb/r2dbc/MariadbConnectionConfiguration.java:949-952 | null fails (with the host's message) and changes nothing; otherwise sets socket only |
| ConfigBuilder.Builder.Username | src/main/java/org/mariadb/r2dbc/MariadbConnectionConfiguration.java:954-957 | null fails with "username must not be null" and changes nothing; otherwise sets username only |
| ConfigBuilder.Builder.LoopResources | src/main/java/org/mariadb/r2dbc/MariadbConnectionConfiguration.java:959-962 | null fails with "loopResources must not be null" and changes nothing; otherwise sets loopResources only |
| ConfigBuilder.Builder.SslContextBuilderCustomizer | src/main/java/org/mariadb/r2dbc/MariadbConnectionConfiguration.java:964-968 | sets sslContextBuilderCustomizer, nothing else |
| ConfigBuilder.Builder.ToString | src/main/java/org/mariadb/r2dbc/MariadbConnectionConfiguration.java:975-1055 | the builder's text as `BuilderText` describes it, with the key password masked (see Findings) |
| ConfigBuilder.BuilderTextAsWrittenLeaks | src/main/java/org/mariadb/r2dbc/MariadbConnectionConfiguration.java:1044-1045 | as written, two builders that differ only in the key password print different texts |
| ConfigBuilder.BuilderTextAsWrittenShowsKey | src/main/java/org/mariadb/r2dbc/MariadbConnectionConfiguration.java:1044-1045 | as written, the key password appears verbatim after `clientSslPassword=`, between the settings before it and those after it |
| ConfigBuilder.BuilderLayoutSplits | src/main/java/org/mariadb/r2dbc/MariadbConnectionConfiguration.java:975-1055 | the builder's text is the settings before the key password, then `, clientSslPassword=` and the key password, then the settings after it |
| ConfigBuilder.BuilderLayoutIgnoresSecrets | src/main/java/org/mariadb/r2dbc/MariadbConnectionConfiguration.java:975-1055 | each setting's text, and so the whole list, reads the password, key password and PAM passwords only through their masked forms |
| ConfigBuilder.BuilderTextHidesSecrets | src/main/java/org/mariadb/r2dbc/MariadbConnectionConfiguration.java:975-1055 | the corrected text does not depend on the values of the password, the key password or the PAM passwords, only on whether each is null and on the PAM array's length; this holds whether or not each secret is set |
| ConfigBuilder.BuilderTextFails | src/main/java/org/mariadb/r2dbc/MariadbConnectionConfiguration.java:981-988 | the builder's toString throws exactly when the PAM array is empty |
| OptionMapping.UrlDecodeAll | src/main/java/org/mariadb/r2dbc/MariadbConnectionConfiguration.java:300-304 | decoding keeps the length, decodes entry by entry, and fails exactly when the decoder rejects some entry |
| OptionMapping.UrlDecodeAllFailsAt | src/main/java/org/mariadb/r2dbc/MariadbConnectionConfiguration.java:302-303 | decoding stops with the first entry the decoder rejects |
| OptionMapping.DecodeInPlace | src/main/java/org/mariadb/r2dbc/MariadbConnectionConfiguration.java:300-307 | the in-place loop over the array leaves it as `UrlDecodeAll` of its old contents, or fails as that does |
| OptionMapping.ReadEndpoint | src/main/java/org/mariadb/r2dbc/MariadbConnectionConfiguration.java:160-168 | only database, host and socket change; the database is the DATABASE option's String or null; with a socket option the socket is set and the host kept, otherwise the host is set and the socket kept; no socket and no host throws NoSuchOption(HOST) |
| OptionMapping.ApplyEndpoint | src/main/java/org/mariadb/r2dbc/MariadbConnectionConfiguration.java:160-168 | the setter calls change the builder as `ReadEndpoint` specifies, or fail as it does |
| OptionMapping.ReadAllowMultiQueries | src/main/java/org/mariadb/r2dbc/MariadbConnectionConfiguration.java:170-175 | only allowMultiQueries changes |
| OptionMapping.ApplyAllowMultiQueries | src/main/java/org/mariadb/r2dbc/MariadbConnectionConfiguration.java:170-175 | the block changes the builder as `ReadAllowMultiQueries` specifies |
| OptionMapping.ReadConnectTimeout | src/main/java/org/mariadb/r2dbc/MariadbConnectionConfiguration.java:177-181 | only connectTimeout changes; with the option it becomes `durationValue` of the option, and the step fails exactly when that does; without it nothing changes |
| OptionMapping.ApplyConnectTimeout | src/main/java/org/mariadb/r2dbc/MariadbConnectionConfiguration.java:177-181 | the block changes the builder as `ReadConnectTimeout` specifies, or fails as it does |
| OptionMapping.ReadTcpKeepAlive | src/main/java/org/mariadb/r2dbc/MariadbConnectionConfiguration.java:183-187 | only tcpKeepAlive changes |
| OptionMapping.ApplyTcpKeepAlive | src/main/java/org/mariadb/r2dbc/MariadbConnectionConfiguration.java:183-187 | the block changes the builder as `ReadTcpKeepAlive` specifies |
| OptionMapping.ReadTcpAbortiveClose | src/main/java/org/mariadb/r2dbc/MariadbConnectionConfiguration.java:189-194 | only tcpAbortiveClose changes |
| OptionMapping.ApplyTcpAbortiveClose | src/main/java/org/mariadb/r2dbc/MariadbConnectionConfiguration.java:189-194 | the block changes the builder as `ReadTcpAbortiveClose` specifies |
| OptionMapping.ReadTransactionReplay | src/main/java/org/mariadb/r2dbc/MariadbConnectionConfiguration.java:196-201 | only transactionReplay changes |
| OptionMapping.ApplyTransactionReplay | src/main/java/org/mariadb/r2dbc/MariadbConnectionConfiguration.java:196-201 | the block changes the builder as `ReadTransactionReplay` specifies |
| OptionMapping.ReadSessionVariables | src/main/java/org/mariadb/r2dbc/MariadbConnectionConfiguration.java:203-208 | only sessionVariables changes |
| OptionMapping.ApplySessionVariables | src/main/java/org/mariadb/r2dbc/MariadbConnectionConfiguration.java:203-208 | the block changes the builder as `ReadSessionVariables` specifies, or fails as it does |
| OptionMapping.ReadHaMode | src/main/java/org/mariadb/r2dbc/MariadbConnectionConfiguration.java:210-214 | only haMode changes; with the option it becomes the option's String, and a non-String throws; without it nothing changes |
| OptionMapping.ApplyHaMode | src/main/java/org/mariadb/r2dbc/MariadbConnectionConfiguration.java:210-214 | the block changes the builder as `ReadHaMode` specifies, or fails as it does |
| OptionMapping.ReadAllowPipelining | src/main/java/org/mariadb/r2dbc/MariadbConnectionConfiguration.java:216-221 | only allowPipelining changes |
| OptionMapping.ApplyAllowPipelining | src/main/java/org/mariadb/r2dbc/MariadbConnectionConfiguration.java:216-221 | the block changes the builder as `ReadAllowPipelining` specifies |
| OptionMapping.ReadUseServerPrepare | src/main/java/org/mariadb/r2dbc/MariadbConnectionConfiguration.java:223-228 | only useServerPrepStmts changes |
| OptionMapping.ApplyUseServerPrepare | src/main/java/org/mariadb/r2dbc/MariadbConnectionConfiguration.java:223-228 | the block changes the builder as `ReadUseServerPrepare` specifies |
| OptionMapping.ReadIsolationLevel | src/main/java/org/mariadb/r2dbc/MariadbConnectionConfiguration.java:229-235 | only isolationLevel changes |
| OptionMapping.ApplyIsolationLevel | src/main/java/org/mariadb/r2dbc/MariadbConnectionConfiguration.java:229-235 | the block changes the builder as `ReadIsolationLevel` specifies, or fails as it does |
| OptionMapping.ReadAutocommit | src/main/java/org/mariadb/r2dbc/MariadbConnectionConfiguration.java:237-241 | only autocommit changes |
| OptionMapping.ApplyAutocommit | src/main/java/org/mariadb/r2dbc/MariadbConnectionConfiguration.java:237-241 | the block changes the builder as `ReadAutocommit` specifies |
| OptionMapping.ReadTinyIsBit | src/main/java/org/mariadb/r2dbc/MariadbConnectionConfiguration.java:242-246 | only tinyInt1isBit changes |
| OptionMapping.ApplyTinyIsBit | src/main/java/org/mariadb/r2dbc/MariadbConnectionConfiguration.java:242-246 | the block changes the builder as `ReadTinyIsBit` specifies |
| OptionMapping.ReadConnectionAttributes | src/main/java/org/mariadb/r2dbc/MariadbConnectionConfiguration.java:248-255 | only connectionAttributes changes |
| OptionMapping.ApplyConnectionAttributes | src/main/java/org/mariadb/r2dbc/MariadbConnectionConfiguration.java:248-255 | the block changes the builder as `ReadConnectionAttributes` specifies, or fails as it does |
| OptionMapping.ReadPrepareCacheSize | src/main/java/org/mariadb/r2dbc/MariadbConnectionConfiguration.java:257-262 | only prepareCacheSize changes |
| OptionMapping.ApplyPrepareCacheSize | src/main/java/org/mariadb/r2dbc/MariadbConnectionConfiguration.java:257-262 | the block changes the builder as `ReadPrepareCacheSize` specifies, or fails as it does |
| OptionMapping.SslModeFrom | src/main/java/org/mariadb/r2dbc/MariadbConnectionConfiguration.java:266 | `SslMode.from` succeeds exactly when the library knows the name, and then yields that mode |
| OptionMapping.ReadSslMode | src/main/java/org/mariadb/r2dbc/MariadbConnectionConfiguration.java:264-269 | only sslMode changes |
| OptionMapping.ApplySslMode | src/main/java/org/mariadb/r2dbc/MariadbConnectionConfiguration.java:264-269 | the block changes the builder as `ReadSslMode` specifies, or fails as it does |
| OptionMapping.ReadSslFiles | src/main/java/org/mariadb/r2dbc/MariadbConnectionConfiguration.java:270-281 | only the certificates, key and key password change; each becomes its option's String, or null when absent; the step fails exactly when one of them is not a String |
| OptionMapping.ApplySslFiles | src/main/java/org/mariadb/r2dbc/MariadbConnectionConfiguration.java:270-281 | the four setter calls change the builder as `ReadSslFiles` specifies, or fail as it does |
| OptionMapping.ReadTlsProtocol | src/main/java/org/mariadb/r2dbc/MariadbConnectionConfiguration.java:283-289 | only tlsProtocol changes; it becomes the split of the option text on separator runs, unless that split is empty |
| OptionMapping.ApplyTlsProtocol | src/main/java/org/mariadb/r2dbc/MariadbConnectionConfiguration.java:283-289 | the block changes the builder as `ReadTlsProtocol` specifies, or fails as it does |
| OptionMapping.ReadCredentials | src/main/java/org/mariadb/r2dbc/MariadbConnectionConfiguration.java:290-291 | only password and username change; the password is the PASSWORD option's String or null; the user name is always set from the USER option, and without that option the step throws |
| OptionMapping.ApplyCredentials | src/main/java/org/mariadb/r2dbc/MariadbConnectionConfiguration.java:290-291 | the two setter calls change the builder as `ReadCredentials` specifies, or fail as it does |
| OptionMapping.ReadPort | src/main/java/org/mariadb/r2dbc/MariadbConnectionConfiguration.java:292-294 | only port changes |
| OptionMapping.ApplyPort | src/main/java/org/mariadb/r2dbc/MariadbConnectionConfiguration.java:292-294 | the block changes the builder as `ReadPort` specifies, or fails as it does |
| OptionMapping.ReadPamOtherPwd | src/main/java/org/mariadb/r2dbc/MariadbConnectionConfiguration.java:295-309 | only pamOtherPwd changes |
| OptionMapping.ApplyPamOtherPwd | src/main/java/org/mariadb/r2dbc/MariadbConnectionConfiguration.java:295-309 | splitting into a new array and decoding it in place change the builder as `ReadPamOtherPwd` specifies, or fail as it does |
| OptionMapping.ReadLoopResources | src/main/java/org/mariadb/r2dbc/MariadbConnectionConfiguration.java:310-315 | only loopResources changes; with the option it becomes the option's object, and another value throws; without it nothing changes |
| OptionMapping.ApplyLoopResources | src/main/java/org/mariadb/r2dbc/MariadbConnectionConfiguration.java:310-315 | the block changes the builder as `ReadLoopResources` specifies, or fails as it does |
| OptionMapping.ReadSslContextBuilderCustomizer | src/main/java/org/mariadb/r2dbc/MariadbConnectionConfiguration.java:317-323 | only sslContextBuilderCustomizer changes; with the option it becomes the option's object, and another value throws; without it nothing changes |
| OptionMapping.ApplySslContextBuilderCustomizer | src/main/java/org/mariadb/r2dbc/MariadbConnectionConfiguration.java:317-323 | the block changes the builder as `ReadSslContextBuilderCustomizer` specifies, or fails as it does |
| OptionMapping.ReadTransport | src/main/java/org/mariadb/r2dbc/MariadbConnectionConfiguration.java:159-201 | from a new builder, only the endpoint, multi-query and TCP fields change; the database is the DATABASE option; socket option present means socket set and host null, otherwise host set and socket null; no socket and no host throws NoSuchOption(HOST) |
| OptionMapping.ApplyTransport | src/main/java/org/mariadb/r2dbc/MariadbConnectionConfiguration.java:159-201 | a fresh builder after those blocks holds what `ReadTransport` specifies, or the same exception is reported |
| OptionMapping.ReadSession | src/main/java/org/mariadb/r2dbc/MariadbConnectionConfiguration.java:203-262 | only the nine session fields change |
| OptionMapping.ApplySession | src/main/java/org/mariadb/r2dbc/MariadbConnectionConfiguration.java:203-262 | those blocks change the builder as `ReadSession` specifies, or fail as it does |
| OptionMapping.ReadSecurity | src/main/java/org/mariadb/r2dbc/MariadbConnectionConfiguration.java:264-323 | only the TLS, credential, port, PAM and resource fields change |
| OptionMapping.ApplySecurity | src/main/java/org/mariadb/r2dbc/MariadbConnectionConfiguration.java:264-323 | those blocks change the builder as `ReadSecurity` specifies, or fail as it does |
| OptionMapping.FromOptions | src/main/java/org/mariadb/r2dbc/MariadbConnectionConfiguration.java:158-326 | fails exactly when `FromOptionsSpec` fails, with the same exception; otherwise returns a fresh builder holding `FromOptionsSpec`'s state |
| OptionMapping.FromOptionsEndpoint | src/main/java/org/mariadb/r2dbc/MariadbConnectionConfiguration.java:162-168 | a socket option gives the socket and never the host, otherwise the host; the user name is the USER option; so exactly one of host and socket is set and `build()`'s argument checks pass; the database is the DATABASE option's String or null |
| OptionMapping.FromOptionsNeedsUser | src/main/java/org/mariadb/r2dbc/MariadbConnectionConfiguration.java:291 | without a USER option fromOptions throws |
| OptionMapping.FromOptionsNeedsHost | src/main/java/org/mariadb/r2dbc/MariadbConnectionConfiguration.java:167 | without socket and host options, and with the database option absent or a String, fromOptions throws NoSuchOption(HOST) |
| OptionMapping.FromOptionsTlsProtocol | src/main/java/org/mariadb/r2dbc/MariadbConnectionConfiguration.java:283-289 | the protocols are the option's split on runs of `,`, `;` and whitespace, null when that split is empty or the option absent |
| OptionMapping.FromOptionsPamPasswords | src/main/java/org/mariadb/r2dbc/MariadbConnectionConfiguration.java:295-309 | the PAM passwords are the option's `,`-split, each entry URL-decoded, with the same length; null without the option |
| OptionMapping.FromOptionsSwitches | src/main/java/org/mariadb/r2dbc/MariadbConnectionConfiguration.java:170-246 | each boolean switch is `boolValue` of its option when present and keeps the builder default otherwise |
| OptionMapping.FromOptionsSslMode | src/main/java/org/mariadb/r2dbc/MariadbConnectionConfiguration.java:264-269 | the SSL mode is `SslMode.from` of the option, DISABLE without it; an unknown mode makes fromOptions throw |
| OptionMapping.FromOptionsMinimal | src/main/java/org/mariadb/r2dbc/MariadbConnectionConfiguration.java:158-326 | options holding only a host and a user give a new builder with just those two fields set |
| OptionMapping.FromOptionsMaps | src/main/java/org/mariadb/r2dbc/MariadbConnectionConfiguration.java:203-255 | session variables and connection attributes are `getMapFromString` of their option, null without it |
| OptionMapping.FromOptionsIsolationLevel | src/main/java/org/mariadb/r2dbc/MariadbConnectionConfiguration.java:229-235 | the isolation level is `IsolationLevel.valueOf` of the option's text with `-` replaced by a space, null without it |
| OptionMapping.FromOptionsNumbers | src/main/java/org/mariadb/r2dbc/MariadbConnectionConfiguration.java:257-294 | port and cache size are `intValue` of their options; without the option the port is 3306 and the cache size null |
| OptionMapping.FromOptionsConnectTimeout | src/main/java/org/mariadb/r2dbc/MariadbConnectionConfiguration.java:177-181 | the connect timeout is `durationValue` of its option, or null without it |
| OptionMapping.FromOptionsTexts | src/main/java/org/mariadb/r2dbc/MariadbConnectionConfiguration.java:210-291 | the HA mode (210-214), the server certificate, client certificate, client key and key password (270-281) and the password (290) are their options' Strings, or null when the option is absent |
| OptionMapping.FromOptionsObjects | src/main/java/org/mariadb/r2dbc/MariadbConnectionConfiguration.java:310-323 | the event-loop resources and the SSL context customizer are their options' objects, or null |
| OptionMapping.FromOptionsCommaPam | src/main/java/org/mariadb/r2dbc/MariadbConnectionConfiguration.java:295-309 | a PAM option of a single `,` leaves an empty password array, and the builder's toString then throws |

## Left out

- Foreign calls are parameters of the model: `HaMode.from`, `SslMode.from`, `IsolationLevel.valueOf`, `Duration.parse`, `URLDecoder.decode`, `HostAddress.parse`, `TcpResources.get`, and the `toString` of durations, maps, host lists, SSL configurations, isolation levels, SSL modes and arrays. They are fields of a `Library` value, and a `None` result stands for the exception a call throws. Their own behaviour is not part of this model.
- The `UnsupportedEncodingException` that the PAM decoding loop swallows is not modelled: UTF-8 is always supported.
- The configuration's getters and `clone()` are plain field reads and an identity copy.
- `Builder.IsolationLevel` models only the setter. The class's own `setIsolationLevel` is not part of this model.
- Option values are a closed datatype: String, Boolean, Number, Duration, or another object known by identity and text. A `CharSequence` password that is not a `String` cannot be expressed.
- `Integer.parseInt` and `Boolean.parseBoolean` are modelled on ASCII digits and ASCII case. Unicode digits and non-ASCII case folding are not modelled.
- OptionValues.IntValue: a `Number` holding a fraction (`Double`, `BigDecimal`) is not modelled, only whole numbers.
- Arrays stored in the builder (`pamOtherPwd`, `tlsProtocol`'s varargs) are values. Aliasing between the caller's array and the builder's field is not captured. `DecodeInPlace` does keep the in-place update of the array that fromOptions allocates.
- ConfigBuilder.Builder.ToString: models the corrected text, with the key password masked; the text as written is `ConfigBuilder.BuilderTextAsWritten` (see Findings).
- The labels `prepareCacheSize=` and `isolationLevel=` in the builder's text are swapped in the source (lines 1032-1035). They are kept swapped in `ConfigBuilder.BuilderLabel`, and no property depends on them.
- `getMapFromString` throws `ArrayIndexOutOfBoundsException` on an item made only of `=` characters. This is modelled as a failure (`OptionValues.PutAllFailure`) and not treated as a defect.
- An empty PAM array makes both `toString` methods throw at `deleteCharAt(-1)`. This is modelled as a failure (`ConnectionConfiguration.HiddenPamPasswords`, `ConfigBuilder.BuilderTextFails`).
- Concurrency: the builder is documented as not thread-safe and is modelled as single-threaded.

## Findings

| source | as written | input that shows it | evidently intended | confidence | as-written member | corrected member |
|---|---|---|---|---|---|---|
| src/main/java/org/mariadb/r2dbc/MariadbConnectionConfiguration.java:1044-1045 | `Builder.toString` appends `clientSslPassword` in clear, although the same method masks the password and the PAM passwords | a builder whose client key password is `"secret"` prints `clientSslPassword=secret` | the key password masked like the password: `*` when set, nothing when null | medium, not executed | ConfigBuilder.BuilderTextAsWrittenLeaks | ConfigBuilder.BuilderTextHidesSecrets |
