/**
 * The parts of the Java platform that the connection configuration relies on,
 * stated as functions: nullable references, 32-bit integers, Integer.toString
 * and Integer.parseInt, String.equalsIgnoreCase and Boolean.parseBoolean,
 * String.split (with a one-character literal and with a run of separator
 * characters), String.replace on characters and AbstractCollection.toString.
 */
module JavaLang {

  /** A Java reference that may be null. */
  datatype Option<+T> = None | Some(value: T)

  /** A value, or the exception that was thrown instead. */
  datatype Result<+T, +E> = Success(value: T) | Failure(error: E) {
    predicate IsFailure() { Failure? }

    function PropagateFailure<U>(): Result<U, E>
      requires Failure?
    {
      Failure(error)
    }

    function Extract(): T
      requires Success?
    {
      value
    }
  }

  /** Completion of a void Java method: normal, or by an exception. */
  datatype Outcome<+E> = Pass | Fail(error: E)

  // ---------------------------------------------------------------------------
  // int

  const TWO_TO_32: int := 0x1_0000_0000

  /** Java's `int`. */
  type Int32 = x: int | -0x8000_0000 <= x < 0x8000_0000

  /** Number.intValue() of an integral number: the low 32 bits, two's complement. */
  function ToInt32(n: int): (r: Int32)
    ensures (r - n) % TWO_TO_32 == 0
    ensures -0x8000_0000 <= n < 0x8000_0000 ==> r == n
  {
    var low := n % TWO_TO_32;
    assert n == TWO_TO_32 * (n / TWO_TO_32) + low;
    if low < 0x8000_0000 then low else low - TWO_TO_32
  }

  // ---------------------------------------------------------------------------
  // Integer.toString and Integer.parseInt (radix 10, ASCII digits)

  predicate IsDigit(c: char) { '0' <= c <= '9' }

  predicate AllDigits(s: string) { forall i :: 0 <= i < |s| ==> IsDigit(s[i]) }

  function DigitChar(d: nat): (c: char)
    requires d < 10
    ensures IsDigit(c) && c as int - '0' as int == d
  {
    ('0' as int + d) as char
  }

  /** The decimal digits of `n`, most significant first, without leading zeros. */
  function Digits(n: nat): (r: string)
    ensures |r| >= 1 && AllDigits(r)
    ensures n > 0 ==> r[0] != '0'
    decreases n
  {
    if n < 10 then [DigitChar(n)] else Digits(n / 10) + [DigitChar(n % 10)]
  }

  /** String.valueOf(int) / Integer.toString(int). */
  function Show(n: int): string {
    if n < 0 then "-" + Digits(-n) else Digits(n)
  }

  /** The number a non-empty run of decimal digits stands for. */
  function DigitsValue(s: string): nat
    requires AllDigits(s)
  {
    if s == [] then 0 else DigitsValue(s[..|s| - 1]) * 10 + (s[|s| - 1] as int - '0' as int)
  }

  /**
   * Integer.parseInt(s): an optional sign, then at least one decimal digit, and the
   * value must fit in an int. None stands for the NumberFormatException.
   */
  function ParseInt(s: string): (r: Option<Int32>)
    ensures r.Some? ==> |s| >= 1 && (s[0] == '-' || s[0] == '+' || IsDigit(s[0]))
    ensures r.Some? ==> |Unsigned(s)| >= 1 && AllDigits(Unsigned(s))
    ensures r.Some? && r.value < 0 ==> s[0] == '-'
  {
    if s == [] then None
    else
      var body := Unsigned(s);
      if body == [] || !AllDigits(body) then None
      else
        var v := SignedValue(s);
        if -0x8000_0000 <= v < 0x8000_0000 then Some(v) else None
  }

  /** The text after an optional leading sign. */
  function Unsigned(s: string): (r: string)
    requires s != []
    ensures |r| == |s| || |r| == |s| - 1
  {
    if s[0] == '-' || s[0] == '+' then s[1..] else s
  }

  /** The number a sign and a run of digits stand for, before the int range check. */
  function SignedValue(s: string): int
    requires s != [] && AllDigits(Unsigned(s))
  {
    if s[0] == '-' then -(DigitsValue(Unsigned(s)) as int) else DigitsValue(Unsigned(s))
  }

  /**
   * Integer.parseInt throws NumberFormatException for the empty text, for a lone
   * sign, for any character after the sign that is not a digit, and for a
   * number outside the int range; it accepts everything else.
   */
  lemma ParseIntRejects(s: string)
    ensures s == [] ==> ParseInt(s).None?
    ensures s != [] && (Unsigned(s) == [] || !AllDigits(Unsigned(s))) ==> ParseInt(s).None?
    ensures s != [] && Unsigned(s) != [] && AllDigits(Unsigned(s)) ==>
      (ParseInt(s).Some? <==> -0x8000_0000 <= SignedValue(s) < 0x8000_0000)
  {
  }

  /** Some texts parseInt refuses: a letter among the digits, a lone sign, a trailing space. */
  lemma ParseIntRejectsExamples()
    ensures ParseInt("33o6").None? && ParseInt("+").None? && ParseInt("1 ").None?
  {
    assert !IsDigit("33o6"[2]);
    assert !IsDigit("1 "[1]);
  }

  lemma {:induction false} DigitsValueOfDigits(n: nat)
    ensures DigitsValue(Digits(n)) == n
    decreases n
  {
    if n >= 10 {
      var d := Digits(n / 10);
      DigitsValueOfDigits(n / 10);
      assert (d + [DigitChar(n % 10)])[..|d|] == d;
    }
  }

  /** Integer.parseInt reads back exactly what Integer.toString wrote. */
  lemma ParseShow(n: Int32)
    ensures ParseInt(Show(n)) == Some(n)
  {
    var m: nat := if n < 0 then -(n as int) else n;
    var d := Digits(m);
    DigitsValueOfDigits(m);
    var s := Show(n);
    if n < 0 {
      assert s == "-" + d;
      assert s[0] == '-' && s[1..] == d;
    } else {
      assert s == d && s[0] != '-' && s[0] != '+';
    }
  }

  // ---------------------------------------------------------------------------
  // equalsIgnoreCase and Boolean.parseBoolean

  function ToUpperAscii(c: char): char {
    if 'a' <= c <= 'z' then (c as int - 32) as char else c
  }

  function ToLowerAscii(c: char): char {
    if 'A' <= c <= 'Z' then (c as int + 32) as char else c
  }

  /** The per-character test of String.regionMatches(ignoreCase = true, ...). */
  predicate CharsEqualIgnoreCase(a: char, b: char) {
    a == b
    || ToUpperAscii(a) == ToUpperAscii(b)
    || ToLowerAscii(ToUpperAscii(a)) == ToLowerAscii(ToUpperAscii(b))
  }

  predicate EqualsIgnoreCase(a: string, b: string) {
    |a| == |b| && forall i :: 0 <= i < |a| ==> CharsEqualIgnoreCase(a[i], b[i])
  }

  /** Boolean.parseBoolean on a non-null string. */
  predicate ParseBoolean(s: string) {
    EqualsIgnoreCase(s, "true")
  }

  /** Boolean.parseBoolean accepts exactly the sixteen capitalisations of "true". */
  lemma ParseBooleanSpellings(s: string)
    ensures ParseBoolean(s) <==>
      |s| == 4 && s[0] in "tT" && s[1] in "rR" && s[2] in "uU" && s[3] in "eE"
  {
    if ParseBoolean(s) {
      assert CharsEqualIgnoreCase(s[0], 't');
      assert CharsEqualIgnoreCase(s[1], 'r');
      assert CharsEqualIgnoreCase(s[2], 'u');
      assert CharsEqualIgnoreCase(s[3], 'e');
    }
  }

  /** String.valueOf(boolean). */
  function ShowBool(b: bool): string {
    if b then "true" else "false"
  }

  // ---------------------------------------------------------------------------
  // String.split with a one-character literal separator

  /** Joins strings with a separator character between each two. */
  function Join(xs: seq<string>, sep: char): string {
    if |xs| == 0 then "" else if |xs| == 1 then xs[0] else xs[0] + [sep] + Join(xs[1..], sep)
  }

  /** Every piece between separators, including empty ones, before any is dropped. */
  function Pieces(s: string, sep: char): (r: seq<string>)
    ensures |r| >= 1
    ensures forall i :: 0 <= i < |r| ==> sep !in r[i]
  {
    if s == [] then [""]
    else
      var rest := Pieces(s[1..], sep);
      if s[0] == sep then [""] + rest else [[s[0]] + rest[0]] + rest[1..]
  }

  /** Removes the empty strings at the end of a sequence. */
  function DropTrailingEmpty(xs: seq<string>): (r: seq<string>)
    ensures r <= xs
    ensures r == [] || r[|r| - 1] != ""
    ensures forall i :: |r| <= i < |xs| ==> xs[i] == ""
  {
    if xs != [] && xs[|xs| - 1] == "" then DropTrailingEmpty(xs[..|xs| - 1]) else xs
  }

  /**
   * s.split(String.valueOf(sep)) for a separator that is not a regular-expression
   * metacharacter: the whole string when the separator does not occur, otherwise
   * the pieces with trailing empty strings removed (leading ones are kept).
   */
  function Split(s: string, sep: char): (r: seq<string>)
    ensures sep !in s ==> r == [s]
    ensures forall i :: 0 <= i < |r| ==> sep !in r[i]
    ensures sep in s ==> r == [] || r[|r| - 1] != ""
  {
    if sep !in s then [s] else DropTrailingEmpty(Pieces(s, sep))
  }

  lemma {:induction false} JoinPieces(s: string, sep: char)
    ensures Join(Pieces(s, sep), sep) == s
  {
    if s != [] {
      JoinPieces(s[1..], sep);
      var rest := Pieces(s[1..], sep);
      if |rest| > 1 {
        assert rest == [rest[0]] + rest[1..];
      }
    }
  }

  lemma {:induction false} PiecesPrefix(a: string, b: string, sep: char)
    requires sep !in a
    ensures Pieces(a + [sep] + b, sep) == [a] + Pieces(b, sep)
  {
    if a != [] {
      PiecesPrefix(a[1..], b, sep);
      assert (a + [sep] + b)[1..] == a[1..] + [sep] + b;
      assert [a[0]] + a[1..] == a;
    } else {
      assert (a + [sep] + b)[1..] == b;
    }
  }

  /** Splitting what Join produced gives the parts back, as long as no part holds the separator. */
  lemma {:induction false} PiecesOfJoin(xs: seq<string>, sep: char)
    requires |xs| >= 1
    requires forall i :: 0 <= i < |xs| ==> sep !in xs[i]
    ensures Pieces(Join(xs, sep), sep) == xs
  {
    if |xs| == 1 {
      PiecesWithoutSeparator(xs[0], sep);
    } else {
      PiecesOfJoin(xs[1..], sep);
      PiecesPrefix(xs[0], Join(xs[1..], sep), sep);
    }
  }

  lemma {:induction false} PiecesWithoutSeparator(s: string, sep: char)
    requires sep !in s
    ensures Pieces(s, sep) == [s]
  {
    if s != [] {
      PiecesWithoutSeparator(s[1..], sep);
      assert [s[0]] + s[1..] == s;
    }
  }

  lemma {:induction false} JoinHasSeparator(xs: seq<string>, sep: char)
    requires |xs| >= 2
    ensures sep in Join(xs, sep)
  {
    assert Join(xs, sep)[|xs[0]|] == sep;
  }

  /**
   * Java's split undoes Join when no part holds the separator and the last
   * part is not empty (or is the only one).
   */
  lemma SplitOfJoin(xs: seq<string>, sep: char)
    requires |xs| >= 1
    requires forall i :: 0 <= i < |xs| ==> sep !in xs[i]
    requires |xs| == 1 || xs[|xs| - 1] != ""
    ensures Split(Join(xs, sep), sep) == xs
  {
    if |xs| >= 2 {
      JoinHasSeparator(xs, sep);
      PiecesOfJoin(xs, sep);
    }
  }

  /**
   * What split returns is the start of the pieces between separators; the
   * pieces it leaves out are all empty, and joining all pieces restores s.
   */
  lemma SplitDropsOnlyTrailingEmpty(s: string, sep: char)
    requires sep in s
    ensures Split(s, sep) <= Pieces(s, sep)
    ensures forall i :: |Split(s, sep)| <= i < |Pieces(s, sep)| ==> Pieces(s, sep)[i] == ""
    ensures Join(Pieces(s, sep), sep) == s
  {
    JoinPieces(s, sep);
  }

  /** A separator at the start of the string gives a leading empty string. */
  lemma SplitLeadingEmpty(s: string, sep: char, k: nat)
    requires |s| > 0 && s[0] == sep
    requires k < |s| && s[k] != sep
    ensures |Split(s, sep)| >= 2 && Split(s, sep)[0] == ""
  {
    var p := Pieces(s, sep);
    JoinPieces(s, sep);
    var j := NonEmptyPieceAfter(s, sep, k);
    assert p[0] == "";
    assert j >= 1;
  }

  /** Some piece after the first is not empty when a non-separator follows a leading separator. */
  lemma {:induction false} NonEmptyPieceAfter(s: string, sep: char, k: nat) returns (j: nat)
    requires |s| > 0 && s[0] == sep
    requires k < |s| && s[k] != sep
    ensures 1 <= j < |Pieces(s, sep)| && Pieces(s, sep)[j] != ""
    decreases k
  {
    var rest := Pieces(s[1..], sep);
    if s[1] != sep {
      assert rest[0] != "";
      j := 1;
    } else {
      var j' := NonEmptyPieceAfter(s[1..], sep, k - 1);
      j := j' + 1;
    }
  }

  // ---------------------------------------------------------------------------
  // String.split with the regular expression "[<separators>]+"

  /** Pieces between maximal runs of separator characters, before trailing ones are dropped. */
  function RunPieces(s: string, seps: set<char>): (r: seq<string>)
    ensures |r| >= 1
    ensures forall i :: 0 <= i < |r| ==> forall c :: c in seps ==> c !in r[i]
    ensures |s| > 0 && s[0] !in seps ==> r[0] != "" && r[0][0] == s[0]
    ensures forall i :: 0 < i < |r| - 1 ==> r[i] != ""
  {
    if s == [] then [""]
    else
      var rest := RunPieces(s[1..], seps);
      if s[0] in seps then
        if |s| > 1 && s[1] in seps then rest else [""] + rest
      else
        [[s[0]] + rest[0]] + rest[1..]
  }

  predicate HasAny(s: string, seps: set<char>) {
    exists i :: 0 <= i < |s| && s[i] in seps
  }

  /**
   * s.split("[...]+") for a class of separator characters: runs of separators act
   * as one, a leading run gives a leading empty string, trailing empty strings are
   * dropped, and a string without separators comes back whole.
   */
  function SplitOnRuns(s: string, seps: set<char>): (r: seq<string>)
    ensures !HasAny(s, seps) ==> r == [s]
    ensures HasAny(s, seps) ==> r == [] || r[|r| - 1] != ""
    ensures HasAny(s, seps) ==> forall i :: 0 < i < |r| ==> r[i] != ""
    ensures HasAny(s, seps) ==> forall i :: 0 <= i < |r| ==> forall c :: c in seps ==> c !in r[i]
  {
    if !HasAny(s, seps) then [s] else DropTrailingEmpty(RunPieces(s, seps))
  }

  /** A text that starts with a separator run followed by another character splits with a leading "". */
  lemma SplitOnRunsLeadingEmpty(s: string, seps: set<char>, k: nat)
    requires |s| > 0 && s[0] in seps
    requires k < |s| && s[k] !in seps
    ensures |SplitOnRuns(s, seps)| >= 2 && SplitOnRuns(s, seps)[0] == ""
  {
    var p := RunPieces(s, seps);
    var j := NonEmptyRunPieceAfter(s, seps, k);
    assert HasAny(s, seps);
  }

  /** A leading separator gives an empty first piece and a non-empty piece after it. */
  lemma {:induction false} NonEmptyRunPieceAfter(s: string, seps: set<char>, k: nat) returns (j: nat)
    requires |s| > 0 && s[0] in seps
    requires k < |s| && s[k] !in seps
    ensures RunPieces(s, seps)[0] == ""
    ensures 1 <= j < |RunPieces(s, seps)| && RunPieces(s, seps)[j] != ""
    decreases k
  {
    var rest := RunPieces(s[1..], seps);
    if s[1] !in seps {
      assert rest[0] != "";
      j := 1;
    } else {
      j := NonEmptyRunPieceAfter(s[1..], seps, k - 1);
    }
  }

  /** A text free of separators is a single piece. */
  lemma {:induction false} RunPiecesPlain(s: string, seps: set<char>)
    requires forall c :: c in seps ==> c !in s
    ensures RunPieces(s, seps) == [s]
  {
    if s != [] {
      RunPiecesPlain(s[1..], seps);
      assert [s[0]] + s[1..] == s;
    }
  }

  /** Separator-free text in front of t joins t's first piece. */
  lemma {:induction false} RunPiecesPrefix(a: string, t: string, seps: set<char>)
    requires forall c :: c in seps ==> c !in a
    ensures RunPieces(a + t, seps) == [a + RunPieces(t, seps)[0]] + RunPieces(t, seps)[1..]
  {
    var r := RunPieces(t, seps);
    if a != [] {
      RunPiecesPrefix(a[1..], t, seps);
      assert a[0] !in seps;
      assert (a + t)[1..] == a[1..] + t;
      assert [a[0]] + (a[1..] + r[0]) == a + r[0];
    } else {
      assert a + t == t;
      assert a + r[0] == r[0];
      assert [r[0]] + r[1..] == r;
    }
  }

  /**
   * Joining pieces with one separator and splitting on separator runs gives the
   * pieces back, when no piece holds a separator and every piece after the first
   * is non-empty.
   */
  lemma {:induction false} RunPiecesOfJoin(xs: seq<string>, c: char, seps: set<char>)
    requires c in seps && |xs| >= 1
    requires forall i, d :: 0 <= i < |xs| && d in seps ==> d !in xs[i]
    requires forall i :: 0 < i < |xs| ==> xs[i] != ""
    ensures RunPieces(Join(xs, c), seps) == xs
    decreases |xs|
  {
    if |xs| == 1 {
      RunPiecesPlain(xs[0], seps);
    } else {
      var t := Join(xs[1..], c);
      RunPiecesOfJoin(xs[1..], c, seps);
      assert t[0] == xs[1][0] by {
        if |xs| > 2 {
          assert t == xs[1] + [c] + Join(xs[2..], c);
        }
      }
      assert RunPieces([c] + t, seps) == [""] + RunPieces(t, seps) by {
        assert ([c] + t)[1..] == t;
      }
      assert Join(xs, c) == xs[0] + ([c] + t);
      RunPiecesPrefix(xs[0], [c] + t, seps);
      assert xs[0] + "" == xs[0];
      assert [xs[0]] + xs[1..] == xs;
    }
  }

  /** String.split on separator runs reads back pieces joined with a separator. */
  lemma SplitOnRunsOfJoin(xs: seq<string>, c: char, seps: set<char>)
    requires c in seps && |xs| >= 1
    requires forall i, d :: 0 <= i < |xs| && d in seps ==> d !in xs[i]
    requires forall i :: 0 < i < |xs| ==> xs[i] != ""
    ensures SplitOnRuns(Join(xs, c), seps) == xs
  {
    RunPiecesOfJoin(xs, c, seps);
    if |xs| == 1 {
      assert Join(xs, c) == xs[0];
    } else {
      var s := Join(xs, c);
      assert s == xs[0] + [c] + Join(xs[1..], c);
      assert s[|xs[0]|] == c;
      assert HasAny(s, seps);
    }
  }

  /** The characters the regular expression \s matches in Java. */
  const JavaWhitespace: set<char> := {' ', '\t', '\n', '\U{B}', '\U{C}', '\r'}

  // ---------------------------------------------------------------------------
  // String.replace(char, char) and AbstractCollection.toString

  /** s.replace(from, to) for one-character strings. */
  function Replace(s: string, from: char, to: char): (r: string)
    ensures |r| == |s|
    ensures forall i :: 0 <= i < |s| ==> r[i] == if s[i] == from then to else s[i]
  {
    if s == [] then [] else [if s[0] == from then to else s[0]] + Replace(s[1..], from, to)
  }

  /** Joins strings with ", " between each two. */
  function CommaSpaceJoin(xs: seq<string>): string {
    if |xs| == 0 then "" else if |xs| == 1 then xs[0] else xs[0] + ", " + CommaSpaceJoin(xs[1..])
  }

  /** AbstractCollection.toString of a list of strings: "[a, b]". */
  function ListText(xs: seq<string>): string {
    "[" + CommaSpaceJoin(xs) + "]"
  }
}
