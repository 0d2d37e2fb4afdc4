/**
 * Reading option values: the option keys and values of a connection-factory
 * option bag, the exceptions configuration raises, the static coercions
 * boolValue, intValue and durationValue, and getMapFromString, which reads
 * `k=v,k2=v2` lists (MariadbConnectionConfiguration.java).
 */
module OptionValues {
  import opened JavaLang
  import opened External

  /** The options fromOptions reads, named after their Java constants. */
  datatype OptionKey =
    // io.r2dbc.spi.ConnectionFactoryOptions
    | DATABASE | HOST | PORT | USER | PASSWORD | CONNECT_TIMEOUT
    // MariadbConnectionFactoryProvider
    | SOCKET | ALLOW_MULTI_QUERIES | TCP_KEEP_ALIVE | TCP_ABORTIVE_CLOSE | TRANSACTION_REPLAY
    | SESSION_VARIABLES | HAMODE | ALLOW_PIPELINING | USE_SERVER_PREPARE | ISOLATION_LEVEL
    | AUTO_COMMIT | TINY_IS_BIT | CONNECTION_ATTRIBUTES | PREPARE_CACHE_SIZE | SSL_MODE
    | SERVER_SSL_CERT | CLIENT_SSL_CERT | CLIENT_SSL_KEY | CLIENT_SSL_PWD | TLS_PROTOCOL
    | PAM_OTHER_PASSWORD | LOOP_RESOURCES | SSL_CONTEXT_BUILDER_CUSTOMIZER

  /** An option value: a Java object of one of the classes configuration distinguishes. */
  datatype Value =
    | Text(s: string)        // String
    | Flag(b: bool)          // Boolean
    | Number(n: int)         // an integral Number (Integer, Long, ...)
    | Dur(d: Duration)       // Duration
    | Other(obj: ObjectRef)  // any other object

  /** The option bag: an option is present exactly when it has a (non-null) value. */
  type Options = map<OptionKey, Value>

  /** The exceptions configuration lets escape. */
  datatype ConfigError =
    | IllegalArgument(message: string)  // IllegalArgumentException
    | NoSuchOption(key: OptionKey)      // getRequiredValue of an absent option
    | ClassCast(key: OptionKey)         // an option value of an unexpected class
    | NumberFormat(text: string)        // Integer.parseInt
    | DateTimeParse(text: string)       // Duration.parse
    | InvalidHaMode(name: string)       // HaMode.from
    | InvalidSslMode(name: string)      // SslMode.from
    | MalformedEscape(text: string)     // URLDecoder.decode
    | HostParse                         // HostAddress.parse
    | IndexOutOfBounds                  // an array index out of range
    | StringIndexOutOfBounds            // StringBuilder.deleteCharAt out of range

  /** value.toString(). */
  function ValueText(v: Value, lib: Library): string {
    match v
    case Text(s) => s
    case Flag(b) => ShowBool(b)
    case Number(n) => Show(n)
    case Dur(d) => lib.durationText(d)
    case Other(o) => o.text
  }

  /**
   * boolValue: a Boolean is taken as it is; anything else is true when its text
   * is "true" in any capitalisation, or when it is the String "1".
   */
  function BoolValue(v: Value, lib: Library): (r: bool)
    ensures v.Flag? ==> r == v.b
    ensures v == Text("1") ==> r
  {
    if v.Flag? then v.b else ParseBoolean(ValueText(v, lib)) || v == Text("1")
  }

  /** A String option is true exactly for "1" and the sixteen capitalisations of "true". */
  lemma BoolValueOfText(s: string, lib: Library)
    ensures BoolValue(Text(s), lib) <==>
      s == "1" || (|s| == 4 && s[0] in "tT" && s[1] in "rR" && s[2] in "uU" && s[3] in "eE")
  {
    ParseBooleanSpellings(s);
  }

  lemma ShowStartsWithDigitOrMinus(n: int)
    ensures |Show(n)| >= 1 && (Show(n)[0] == '-' || IsDigit(Show(n)[0]))
  {
    if n >= 0 {
      assert IsDigit(Digits(n)[0]);
    }
  }

  /** A Number option is never true: its text is a decimal, and it is not the String "1". */
  lemma BoolValueOfNumber(n: int, lib: Library)
    ensures !BoolValue(Number(n), lib)
  {
    ShowStartsWithDigitOrMinus(n);
    ParseBooleanSpellings(Show(n));
  }

  /**
   * intValue: a Number is narrowed to int as Number.intValue does; anything else
   * is parsed from its text by Integer.parseInt.
   */
  function IntValue(v: Value, lib: Library): (r: Result<Int32, ConfigError>)
    ensures v.Number? ==> r.Success? && (r.value - v.n) % TWO_TO_32 == 0
    ensures v.Number? && -0x8000_0000 <= v.n < 0x8000_0000 ==> r == Success(v.n)
    ensures v.Flag? ==> r == Failure(NumberFormat(ShowBool(v.b)))
    ensures !v.Number? ==> (r.Success? <==> ParseInt(ValueText(v, lib)).Some?)
    ensures !v.Number? && r.Success? ==> ParseInt(ValueText(v, lib)) == Some(r.value)
    ensures !v.Number? && r.Failure? ==> r.error == NumberFormat(ValueText(v, lib))
  {
    if v.Number? then Success(ToInt32(v.n))
    else
      var text := ValueText(v, lib);
      match ParseInt(text)
      case Some(n) => Success(n)
      case None => Failure(NumberFormat(text))
  }

  /** A String option holding the decimal text of an int reads back as that int. */
  lemma IntValueOfShow(n: Int32, lib: Library)
    ensures IntValue(Text(Show(n)), lib) == Success(n)
  {
    ParseShow(n);
  }

  /** durationValue: a Duration is taken as it is; anything else goes through Duration.parse. */
  function DurationValue(v: Value, lib: Library): (r: Result<Duration, ConfigError>)
    ensures v.Dur? ==> r == Success(v.d)
    ensures !v.Dur? ==> (r.Success? <==> lib.parseDuration(ValueText(v, lib)).Some?)
    ensures !v.Dur? && r.Success? ==> lib.parseDuration(ValueText(v, lib)) == Some(r.value)
    ensures !v.Dur? && r.Failure? ==> r.error == DateTimeParse(ValueText(v, lib))
  {
    if v.Dur? then Success(v.d)
    else
      var text := ValueText(v, lib);
      match lib.parseDuration(text)
      case Some(d) => Success(d)
      case None => Failure(DateTimeParse(text))
  }

  // ---------------------------------------------------------------------------
  // Casting option values

  /** (String) options.getValue(key): null when absent, a ClassCastException for a non-String. */
  function GetText(opts: Options, key: OptionKey): (r: Result<Option<string>, ConfigError>)
    ensures key !in opts ==> r == Success(None)
    ensures key in opts ==> (r.Success? <==> opts[key].Text?)
    ensures r.Success? ==> (r.value.Some? <==> key in opts)
    ensures r.Success? && r.value.Some? ==> opts[key] == Text(r.value.value)
  {
    if key !in opts then Success(None)
    else match opts[key]
      case Text(s) => Success(Some(s))
      case _ => Failure(ClassCast(key))
  }

  /** (String) options.getRequiredValue(key). */
  function GetRequiredText(opts: Options, key: OptionKey): (r: Result<string, ConfigError>)
    ensures key !in opts ==> r == Failure(NoSuchOption(key))
    ensures key in opts ==> (r.Success? <==> opts[key].Text?)
    ensures key in opts && r.Failure? ==> r.error == ClassCast(key)
    ensures r.Success? ==> key in opts && opts[key] == Text(r.value)
  {
    if key !in opts then Failure(NoSuchOption(key))
    else match opts[key]
      case Text(s) => Success(s)
      case _ => Failure(ClassCast(key))
  }

  /** (LoopResources) or (Function) options.getValue(key) for a present option. */
  function GetObject(opts: Options, key: OptionKey): (r: Result<ObjectRef, ConfigError>)
    requires key in opts
    ensures r.Success? <==> opts[key].Other?
    ensures r.Success? ==> opts[key] == Other(r.value)
    ensures r.Failure? ==> r.error == ClassCast(key)
  {
    match opts[key]
    case Other(o) => Success(o)
    case _ => Failure(ClassCast(key))
  }

  // ---------------------------------------------------------------------------
  // getMapFromString

  /**
   * One `key=value` item: the key is its first `=`-piece and the value its second
   * piece, or "" when there is none. An item made only of `=` splits into nothing,
   * and reading its key throws.
   */
  function PairEntry(pair: string): (r: Result<(string, string), ConfigError>)
    ensures r.Failure? <==> Split(pair, '=') == []
    ensures r.Failure? ==> r.error == IndexOutOfBounds
    ensures r.Success? ==> '=' !in r.value.0 && '=' !in r.value.1
  {
    var keyValue := Split(pair, '=');
    if |keyValue| == 0 then Failure(IndexOutOfBounds)
    else Success((keyValue[0], if |keyValue| > 1 then keyValue[1] else ""))
  }

  /** The map after putting the items one after another into an empty map. */
  function PutAll(pairs: seq<string>): Result<map<string, string>, ConfigError> {
    if pairs == [] then Success(map[])
    else
      var m :- PutAll(pairs[..|pairs| - 1]);
      var kv :- PairEntry(pairs[|pairs| - 1]);
      Success(m[kv.0 := kv.1])
  }

  /** What getMapFromString returns (or throws) for a possibly null string. */
  function MapFromString(s: Option<string>): Result<map<string, string>, ConfigError> {
    if s.None? || s.value == "" then Success(map[]) else PutAll(Split(s.value, ','))
  }

  /** getMapFromString: splits on ',' and puts each item's key and value into a fresh map. */
  method GetMapFromString(s: Option<string>) returns (r: Result<map<string, string>, ConfigError>)
    ensures r == MapFromString(s)
  {
    var m: map<string, string> := map[];
    if s.Some? && s.value != "" {
      var pairs := Split(s.value, ',');
      var i := 0;
      while i < |pairs|
        invariant 0 <= i <= |pairs|
        invariant PutAll(pairs[..i]) == Success(m)
      {
        var pair := pairs[i];
        var keyValue := Split(pair, '=');
        assert pairs[..i + 1][..i] == pairs[..i];
        if |keyValue| == 0 {
          PutAllFailsFrom(pairs, i);
          return Failure(IndexOutOfBounds);
        }
        m := m[keyValue[0] := if |keyValue| > 1 then keyValue[1] else ""];
        i := i + 1;
      }
      assert pairs[..i] == pairs;
    }
    return Success(m);
  }

  /** Once an item cannot be read, the whole list fails with the same exception. */
  lemma {:induction false} PutAllFailsFrom(pairs: seq<string>, i: nat)
    requires i < |pairs| && PairEntry(pairs[i]).Failure?
    ensures PutAll(pairs) == Failure(IndexOutOfBounds)
    decreases |pairs|
  {
    var n := |pairs| - 1;
    if i < n {
      PutAllFailsFrom(pairs[..n], i);
    } else if PutAll(pairs[..n]).Failure? {
      PutAllFailureCause(pairs[..n]);
    }
  }

  /** A failing list fails with IndexOutOfBounds, on an item made of '=' characters only. */
  lemma {:induction false} PutAllFailureCause(pairs: seq<string>)
    requires PutAll(pairs).Failure?
    ensures PutAll(pairs).error == IndexOutOfBounds
    ensures exists i :: 0 <= i < |pairs| && Split(pairs[i], '=') == []
    decreases |pairs|
  {
    var n := |pairs| - 1;
    var prefix := pairs[..n];
    if PutAll(prefix).Failure? {
      PutAllFailureCause(prefix);
      var i :| 0 <= i < n && Split(prefix[i], '=') == [];
      assert pairs[i] == prefix[i];
    } else {
      assert Split(pairs[n], '=') == [];
    }
  }

  /** Every item of a list getMapFromString accepts has a key. */
  lemma {:induction false} PutAllReadable(pairs: seq<string>)
    requires PutAll(pairs).Success?
    ensures forall i :: 0 <= i < |pairs| ==> PairEntry(pairs[i]).Success?
    decreases |pairs|
  {
    if pairs != [] {
      var n := |pairs| - 1;
      var prefix := pairs[..n];
      PutAllReadable(prefix);
      forall i | 0 <= i < n
        ensures PairEntry(pairs[i]).Success?
      {
        assert pairs[i] == prefix[i];
      }
    }
  }

  /** getMapFromString throws exactly when some item consists of '=' characters only. */
  lemma PutAllFailure(pairs: seq<string>)
    ensures PutAll(pairs).Failure? <==> exists i :: 0 <= i < |pairs| && Split(pairs[i], '=') == []
    ensures PutAll(pairs).Failure? ==> PutAll(pairs).error == IndexOutOfBounds
  {
    if PutAll(pairs).Failure? {
      PutAllFailureCause(pairs);
    } else {
      PutAllReadable(pairs);
    }
  }

  /** The item `pair` can be read and has key `k`. */
  predicate HasKey(pair: string, k: string) {
    PairEntry(pair).Success? && PairEntry(pair).value.0 == k
  }

  lemma PutAllStep(pairs: seq<string>, m: map<string, string>)
    requires pairs != [] && PutAll(pairs) == Success(m)
    ensures PutAll(pairs[..|pairs| - 1]).Success? && PairEntry(pairs[|pairs| - 1]).Success?
    ensures m == PutAll(pairs[..|pairs| - 1]).value[PairEntry(pairs[|pairs| - 1]).value.0 := PairEntry(pairs[|pairs| - 1]).value.1]
  {
  }

  /** The entries of a list whose items can all be read, in order. */
  function Entries(pairs: seq<string>): (r: seq<(string, string)>)
    requires forall i :: 0 <= i < |pairs| ==> PairEntry(pairs[i]).Success?
    ensures |r| == |pairs|
    ensures forall i :: 0 <= i < |pairs| ==> r[i] == PairEntry(pairs[i]).value
  {
    seq(|pairs|, i requires 0 <= i < |pairs| => PairEntry(pairs[i]).value)
  }

  /** The map getMapFromString builds is the map of its items' entries, put in order. */
  lemma {:induction false} PutAllMapOf(pairs: seq<string>, m: map<string, string>)
    requires PutAll(pairs) == Success(m)
    ensures forall i :: 0 <= i < |pairs| ==> PairEntry(pairs[i]).Success?
    ensures m == MapOf(Entries(pairs))
    decreases |pairs|
  {
    PutAllReadable(pairs);
    if pairs != [] {
      var n := |pairs| - 1;
      PutAllStep(pairs, m);
      PutAllMapOf(pairs[..n], PutAll(pairs[..n]).value);
      assert Entries(pairs)[..n] == Entries(pairs[..n]);
    }
  }

  /** The map getMapFromString builds has exactly the keys of the items: no other entries. */
  lemma PutAllKeys(pairs: seq<string>, m: map<string, string>, k: string)
    requires PutAll(pairs) == Success(m)
    ensures k in m <==> exists i :: 0 <= i < |pairs| && HasKey(pairs[i], k)
  {
    PutAllMapOf(pairs, m);
    var entries := Entries(pairs);
    MapOfKeys(entries, k);
    assert forall i :: 0 <= i < |pairs| ==> (HasKey(pairs[i], k) <==> entries[i].0 == k);
  }

  /** A key holds the value of the last item that has that key: later items overwrite earlier ones. */
  lemma PutAllLastWins(pairs: seq<string>, m: map<string, string>, i: nat)
    requires PutAll(pairs) == Success(m)
    requires i < |pairs| && PairEntry(pairs[i]).Success?
    requires forall j :: i < j < |pairs| && PairEntry(pairs[j]).Success? ==>
      PairEntry(pairs[j]).value.0 != PairEntry(pairs[i]).value.0
    ensures PairEntry(pairs[i]).value.0 in m
    ensures m[PairEntry(pairs[i]).value.0] == PairEntry(pairs[i]).value.1
  {
    PutAllMapOf(pairs, m);
    MapOfLastWins(Entries(pairs), i);
  }

  // ---------------------------------------------------------------------------
  // getMapFromString reads back a rendered list of entries

  /** The map built by putting the entries one after another: later keys win. */
  function MapOf(entries: seq<(string, string)>): map<string, string> {
    if entries == [] then map[]
    else MapOf(entries[..|entries| - 1])[entries[|entries| - 1].0 := entries[|entries| - 1].1]
  }

  /** A key is in the map of the entries exactly when some entry has that key. */
  lemma {:induction false} MapOfKeys(entries: seq<(string, string)>, k: string)
    ensures k in MapOf(entries) <==> exists i :: 0 <= i < |entries| && entries[i].0 == k
    decreases |entries|
  {
    if entries != [] {
      var n := |entries| - 1;
      var prefix := entries[..n];
      MapOfKeys(prefix, k);
      if k != entries[n].0 {
        if k in MapOf(prefix) {
          var i :| 0 <= i < n && prefix[i].0 == k;
          assert entries[i] == prefix[i];
        }
        if exists i :: 0 <= i < |entries| && entries[i].0 == k {
          var i :| 0 <= i < |entries| && entries[i].0 == k;
          assert prefix[i] == entries[i];
        }
      }
    }
  }

  /** An entry whose key no later entry repeats gives that key its value. */
  lemma {:induction false} MapOfLastWins(entries: seq<(string, string)>, i: nat)
    requires i < |entries|
    requires forall j :: i < j < |entries| ==> entries[j].0 != entries[i].0
    ensures entries[i].0 in MapOf(entries)
    ensures MapOf(entries)[entries[i].0] == entries[i].1
    decreases |entries|
  {
    var n := |entries| - 1;
    if i < n {
      var prefix := entries[..n];
      assert prefix[i] == entries[i];
      MapOfLastWins(prefix, i);
    }
  }

  /** The `key=value` items of a list of entries. */
  function Items(entries: seq<(string, string)>): (r: seq<string>)
    ensures |r| == |entries|
    ensures forall i :: 0 <= i < |r| ==> r[i] == entries[i].0 + "=" + entries[i].1
  {
    if entries == [] then []
    else Items(entries[..|entries| - 1]) + [entries[|entries| - 1].0 + "=" + entries[|entries| - 1].1]
  }

  /** A key or value that can stand in a `k=v,k2=v2` list. */
  predicate Plain(s: string) {
    ',' !in s && '=' !in s
  }

  lemma ItemEntry(k: string, v: string)
    requires k != "" && Plain(k) && Plain(v)
    ensures PairEntry(k + "=" + v) == Success((k, v))
  {
    var item := k + "=" + v;
    assert Join([k, v], '=') == item;
    assert item[|k|] == '=';
    PiecesOfJoin([k, v], '=');
  }

  lemma {:induction false} PutAllItems(entries: seq<(string, string)>)
    requires forall i :: 0 <= i < |entries| ==> entries[i].0 != "" && Plain(entries[i].0) && Plain(entries[i].1)
    ensures PutAll(Items(entries)) == Success(MapOf(entries))
    decreases |entries|
  {
    if entries != [] {
      var n := |entries| - 1;
      PutAllItems(entries[..n]);
      assert Items(entries)[..n] == Items(entries[..n]);
      ItemEntry(entries[n].0, entries[n].1);
    }
  }

  /**
   * For keys and values free of ',' and '=' with non-empty keys, getMapFromString
   * of the rendered list `k1=v1,k2=v2,...` is the map of the entries, later ones
   * overwriting earlier ones.
   */
  lemma MapFromRendered(entries: seq<(string, string)>)
    requires forall i :: 0 <= i < |entries| ==> entries[i].0 != "" && Plain(entries[i].0) && Plain(entries[i].1)
    ensures MapFromString(Some(Join(Items(entries), ','))) == Success(MapOf(entries))
  {
    PutAllItems(entries);
    if entries != [] {
      ItemsSplit(entries);
    }
  }

  /** A non-empty rendered list is not "", and splitting it on ',' gives back its items. */
  lemma ItemsSplit(entries: seq<(string, string)>)
    requires entries != []
    requires forall i :: 0 <= i < |entries| ==> entries[i].0 != "" && Plain(entries[i].0) && Plain(entries[i].1)
    ensures Join(Items(entries), ',') != ""
    ensures Split(Join(Items(entries), ','), ',') == Items(entries)
  {
    var items := Items(entries);
    ItemsPlain(entries);
    SplitOfJoin(items, ',');
    if |items| == 1 {
      assert Join(items, ',') != "";
    } else {
      JoinHasSeparator(items, ',');
    }
  }

  /** Each rendered item is non-empty and free of ','. */
  lemma ItemsPlain(entries: seq<(string, string)>)
    requires forall i :: 0 <= i < |entries| ==> entries[i].0 != "" && Plain(entries[i].0) && Plain(entries[i].1)
    ensures forall i :: 0 <= i < |entries| ==> Items(entries)[i] != "" && ',' !in Items(entries)[i]
  {
    forall i | 0 <= i < |entries|
      ensures Items(entries)[i] != "" && ',' !in Items(entries)[i]
    {
      var (k, v) := entries[i];
      assert Items(entries)[i] == k + "=" + v;
      assert (k + "=" + v)[|k|] == '=';
    }
  }
}
