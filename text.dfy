/** The pieces of java.lang.String and java.lang.Integer/Long behaviour that the
    command layer relies on: trim, isBlank, split, parseInt/parseLong, decimal
    rendering, joining and hashCode. Strings are sequences of `char`. */
module JavaText {
  import opened Base

  // ---------------------------------------------------------------- trim

  /** `String.trim` removes every leading and trailing char whose code is at most U+0020. */
  predicate IsTrimmed(c: char) { c <= ' ' }

  function TrimStart(s: string): (r: string)
    ensures |r| <= |s|
    ensures r == [] || !IsTrimmed(r[0])
  {
    if s != [] && IsTrimmed(s[0]) then TrimStart(s[1..]) else s
  }

  function TrimEnd(s: string): (r: string)
    ensures |r| <= |s| && r == s[..|r|]
    ensures r == [] || !IsTrimmed(r[|r| - 1])
  {
    if s != [] && IsTrimmed(s[|s| - 1]) then TrimEnd(s[..|s| - 1]) else s
  }

  /** What `TrimStart` keeps is a suffix of its argument, and every char
      it cuts off is at most U+0020. These are lemmas rather than part of
      the functions' contracts, so that proofs which only trim a line do
      not reason about every char of it. */
  lemma {:induction false} TrimStartSuffix(s: string)
    ensures TrimStart(s) == s[|s| - |TrimStart(s)|..]
    ensures forall k :: 0 <= k < |s| - |TrimStart(s)| ==> IsTrimmed(s[k])
    decreases |s|
  {
    if s != [] && IsTrimmed(s[0]) {
      TrimStartSuffix(s[1..]);
      assert s[1..][|s[1..]| - |TrimStart(s[1..])|..] == s[|s| - |TrimStart(s)|..];
    }
  }

  /** Every char `TrimEnd` cuts off is at most U+0020. */
  lemma {:induction false} TrimEndDrops(s: string)
    ensures forall k :: |TrimEnd(s)| <= k < |s| ==> IsTrimmed(s[k])
    decreases |s|
  {
    if s != [] && IsTrimmed(s[|s| - 1]) {
      TrimEndDrops(s[..|s| - 1]);
    }
  }

  /** Java's `s.trim()`: the longest infix of `s` that neither starts nor ends
      with a char at most U+0020; everything cut off is such a char. */
  function Trim(s: string): (r: string)
    ensures |r| <= |s|
    ensures r == [] || (!IsTrimmed(r[0]) && !IsTrimmed(r[|r| - 1]))
    ensures |r| <= |TrimStart(s)| && r == TrimStart(s)[..|r|]
  {
    TrimEnd(TrimStart(s))
  }

  lemma {:induction false} TrimStartFixed(s: string)
    requires s == [] || !IsTrimmed(s[0])
    ensures TrimStart(s) == s
  {
  }

  lemma {:induction false} TrimEndFixed(s: string)
    requires s == [] || !IsTrimmed(s[|s| - 1])
    ensures TrimEnd(s) == s
  {
  }

  /** Trimming twice is trimming once: a script argument that was trimmed
      when the line was split is the same path once `ExecuteScript` trims it again. */
  lemma TrimIdempotent(s: string)
    ensures Trim(Trim(s)) == Trim(s)
  {
    var r := Trim(s);
    TrimStartFixed(r);
    TrimEndFixed(r);
  }

  // ---------------------------------------------------------------- blank

  /** `Character.isWhitespace`: the ASCII separators and the Unicode space,
      line and paragraph separators other than the no-break spaces. */
  predicate IsJavaWhitespace(c: char) {
    c == ' ' || ('\t' <= c <= '\r') || ('\U{1C}' <= c <= '\U{1F}')
    || c == '\U{1680}' || ('\U{2000}' <= c <= '\U{2006}') || ('\U{2008}' <= c <= '\U{200A}')
    || c == '\U{2028}' || c == '\U{2029}' || c == '\U{205F}' || c == '\U{3000}'
  }

  /** `String.isBlank`: empty or only whitespace. */
  predicate IsBlank(s: string) {
    forall k :: 0 <= k < |s| ==> IsJavaWhitespace(s[k])
  }

  // ---------------------------------------------------------------- search and split

  predicate StartsWith(s: string, prefix: string) {
    |prefix| <= |s| && s[..|prefix|] == prefix
  }

  /** Index of the first occurrence of `c` in `s`, if any. */
  function IndexOf(s: string, c: char): (r: Option<nat>)
    ensures r.None? <==> c !in s
    ensures r.Some? ==> r.value < |s| && s[r.value] == c && c !in s[..r.value]
  {
    if s == [] then None
    else if s[0] == c then Some(0)
    else match IndexOf(s[1..], c)
      case None => None
      case Some(i) => assert s[1..][..i] == s[1..i + 1]; Some(i + 1)
  }

  /** The pieces of `s` between occurrences of `c`, empty pieces included
      (there is always one more piece than occurrences). */
  function SplitOn(s: string, c: char): (r: seq<string>)
    ensures |r| >= 1
    ensures forall k :: 0 <= k < |r| ==> c !in r[k]
    decreases |s|
  {
    match IndexOf(s, c)
    case None => [s]
    case Some(i) => [s[..i]] + SplitOn(s[i + 1..], c)
  }

  function DropTrailingEmpty(parts: seq<string>): (r: seq<string>)
    ensures |r| <= |parts| && r == parts[..|r|]
    ensures r == [] || r[|r| - 1] != []
  {
    if parts != [] && parts[|parts| - 1] == [] then DropTrailingEmpty(parts[..|parts| - 1]) else parts
  }

  /** Java's `s.split(String.valueOf(c))` with the default limit: when `c`
      does not occur the result is `[s]`, otherwise the pieces with trailing
      empty ones removed. */
  function JavaSplit(s: string, c: char): seq<string>
  {
    if c !in s then [s] else DropTrailingEmpty(SplitOn(s, c))
  }

  /** Java's `(s + " ").split(" ", 2)`: the text before the first space and
      the text after it. */
  function SplitAtFirstSpace(s: string): (r: (string, string))
    ensures ' ' !in r.0
    ensures s + " " == r.0 + " " + r.1
  {
    var t := s + " ";
    var i := IndexOf(t, ' ').value;
    assert t[..i] + " " + t[i + 1..] == t;
    (t[..i], t[i + 1..])
  }

  /** The characters matched by the regular expression `\s`. */
  predicate IsRegexSpace(c: char) {
    c == ' ' || c == '\t' || c == '\n' || c == '\U{B}' || c == '\U{C}' || c == '\r'
  }

  function FirstRegexSpace(s: string): (r: Option<nat>)
    ensures r.None? ==> forall k :: 0 <= k < |s| ==> !IsRegexSpace(s[k])
    ensures r.Some? ==> r.value < |s| && IsRegexSpace(s[r.value])
    ensures r.Some? ==> forall k :: 0 <= k < r.value ==> !IsRegexSpace(s[k])
  {
    if s == [] then None
    else if IsRegexSpace(s[0]) then Some(0)
    else match FirstRegexSpace(s[1..])
      case None => None
      case Some(i) => Some(i + 1)
  }

  function SkipRegexSpaces(s: string): (r: string)
    ensures |r| <= |s| && r == s[|s| - |r|..]
    ensures r == [] || !IsRegexSpace(r[0])
  {
    if s != [] && IsRegexSpace(s[0]) then SkipRegexSpaces(s[1..]) else s
  }

  /** The pieces of `s` between maximal runs of `\s`, empty pieces included. */
  function SplitOnSpaceRuns(s: string): (r: seq<string>)
    ensures |r| >= 1
    ensures forall k :: 0 <= k < |r| ==> forall j :: 0 <= j < |r[k]| ==> !IsRegexSpace(r[k][j])
    decreases |s|
  {
    match FirstRegexSpace(s)
    case None => [s]
    case Some(i) => [s[..i]] + SplitOnSpaceRuns(SkipRegexSpaces(s[i + 1..]))
  }

  /** Java's `s.split("\\s+")`. */
  function SplitWords(s: string): seq<string>
  {
    if FirstRegexSpace(s).None? then [s] else DropTrailingEmpty(SplitOnSpaceRuns(s))
  }

  // ---------------------------------------------------------------- join

  /** `Collectors.joining(sep)` / `String.join(sep, parts)`. */
  function Join(parts: seq<string>, sep: string): string
  {
    if |parts| == 0 then ""
    else if |parts| == 1 then parts[0]
    else parts[0] + sep + Join(parts[1..], sep)
  }

  /** Joining one more piece adds a separator and the piece at the end. */
  lemma {:induction false} JoinSnoc(parts: seq<string>, last: string, sep: string)
    requires parts != []
    ensures Join(parts + [last], sep) == Join(parts, sep) + sep + last
  {
    if |parts| > 1 {
      assert (parts + [last])[1..] == parts[1..] + [last];
      JoinSnoc(parts[1..], last, sep);
    }
  }

  function TotalLength(parts: seq<string>): nat
  {
    if parts == [] then 0 else |parts[0]| + TotalLength(parts[1..])
  }

  /** The joined text is the pieces plus one separator between each two. */
  lemma {:induction false} JoinLength(parts: seq<string>, sep: string)
    requires parts != []
    ensures |Join(parts, sep)| == TotalLength(parts) + |sep| * (|parts| - 1)
  {
    if |parts| > 1 {
      JoinLength(parts[1..], sep);
    }
  }

  /** The first `c` of `p + [c] + rest` is the one after `p` when `p` has
      none. */
  lemma SplitAfterPiece(p: string, c: char, rest: string)
    requires c !in p
    ensures SplitOn(p + [c] + rest, c) == [p] + SplitOn(rest, c)
  {
    var s := p + [c] + rest;
    assert s[..|p|] == p;
    assert s[|p|] == c;
    assert s[|p| + 1..] == rest;
  }

  /** Joining with a one-char separator that no piece contains loses
      nothing: splitting the result at that char gives the pieces back. */
  lemma {:induction false} SplitJoin(parts: seq<string>, c: char)
    requires parts != []
    requires forall k :: 0 <= k < |parts| ==> c !in parts[k]
    ensures SplitOn(Join(parts, [c]), c) == parts
  {
    if |parts| > 1 {
      assert Join(parts, [c]) == parts[0] + [c] + Join(parts[1..], [c]);
      SplitAfterPiece(parts[0], c, Join(parts[1..], [c]));
      SplitJoin(parts[1..], c);
    }
  }

  // ---------------------------------------------------------------- UTF-16

  /** The UTF-16 code units Java stores for one char: the value itself
      below U+10000, otherwise a high surrogate then a low surrogate. */
  function Units(c: char): (r: seq<int>)
    ensures |r| == if c as int < 0x1_0000 then 1 else 2
    ensures forall k :: 0 <= k < |r| ==> 0 <= r[k] < 0x1_0000
    ensures |r| == 1 <==> !(0xD800 <= r[0] < 0xDC00)
  {
    var v := c as int;
    if v < 0x1_0000 then [v]
    else [0xD800 + (v - 0x1_0000) / 0x400, 0xDC00 + (v - 0x1_0000) % 0x400]
  }

  /** A Java string's code units. */
  function Utf16(s: string): (r: seq<int>)
    ensures |s| <= |r| <= 2 * |s|
  {
    if s == [] then [] else Units(s[0]) + Utf16(s[1..])
  }

  /** Different chars have different units. */
  lemma UnitsInjective(a: char, b: char)
    requires Units(a) == Units(b)
    ensures a == b
  {
    var u, v := a as int, b as int;
    if u >= 0x1_0000 {
      assert (u - 0x1_0000) / 0x400 == (v - 0x1_0000) / 0x400;
      assert (u - 0x1_0000) % 0x400 == (v - 0x1_0000) % 0x400;
    }
  }

  /** The encoding loses nothing: strings with the same units are equal. */
  lemma {:induction false} Utf16Injective(a: string, b: string)
    requires Utf16(a) == Utf16(b)
    ensures a == b
  {
    if a != [] {
      var ua, ub := Units(a[0]), Units(b[0]);
      assert Utf16(a)[0] == ua[0] && Utf16(b)[0] == ub[0];
      assert |ua| == |ub|;
      assert Utf16(a)[..|ua|] == ua && Utf16(b)[..|ub|] == ub;
      UnitsInjective(a[0], b[0]);
      assert Utf16(a)[|ua|..] == Utf16(a[1..]) && Utf16(b)[|ub|..] == Utf16(b[1..]);
      Utf16Injective(a[1..], b[1..]);
    }
  }

  // ---------------------------------------------------------------- order

  /** Lexicographic order on code units, a proper prefix coming first. */
  predicate UnitsLe(a: seq<int>, b: seq<int>)
  {
    a == [] || (b != [] && (a[0] < b[0] || (a[0] == b[0] && UnitsLe(a[1..], b[1..]))))
  }

  /** `a.compareTo(b) <= 0`: `String.compareTo` compares UTF-16 units. */
  predicate StrLe(a: string, b: string)
  {
    UnitsLe(Utf16(a), Utf16(b))
  }

  lemma {:induction false} UnitsLeTotal(a: seq<int>, b: seq<int>)
    ensures UnitsLe(a, b) || UnitsLe(b, a)
  {
    if a != [] && b != [] && a[0] == b[0] {
      UnitsLeTotal(a[1..], b[1..]);
    }
  }

  lemma {:induction false} UnitsLeAntisymmetric(a: seq<int>, b: seq<int>)
    requires UnitsLe(a, b) && UnitsLe(b, a)
    ensures a == b
  {
    if a != [] {
      UnitsLeAntisymmetric(a[1..], b[1..]);
    }
  }

  /** The order is total, so it can drive a sort, and `compareTo` is 0 only
      for equal strings. */
  lemma StrLeTotal(a: string, b: string)
    ensures StrLe(a, b) || StrLe(b, a)
    ensures StrLe(a, b) && StrLe(b, a) ==> a == b
  {
    UnitsLeTotal(Utf16(a), Utf16(b));
    if StrLe(a, b) && StrLe(b, a) {
      UnitsLeAntisymmetric(Utf16(a), Utf16(b));
      Utf16Injective(a, b);
    }
  }

  // ---------------------------------------------------------------- numbers

  predicate IsDigit(c: char) { '0' <= c <= '9' }

  predicate AllDigits(s: string) { forall k :: 0 <= k < |s| ==> IsDigit(s[k]) }

  function DigitsValue(s: string): nat
    requires AllDigits(s)
  {
    if s == [] then 0 else DigitsValue(s[..|s| - 1]) * 10 + (s[|s| - 1] as int - '0' as int)
  }

  /** `Integer.parseInt` (bounds INT_MIN..INT_MAX) and `Long.parseLong`
      (bounds LONG_MIN..LONG_MAX): an optional sign then at least one ASCII
      digit, and a value within the bounds; anything else is a
      NumberFormatException, here `None`. */
  function ParseInteger(s: string, lo: int, hi: int): (r: Option<int>)
    ensures r.Some? ==> lo <= r.value <= hi
    ensures r.Some? ==> s != [] && (s[0] == '-' || s[0] == '+' || IsDigit(s[0]))
  {
    if s == [] then None
    else
      var body := if s[0] == '-' || s[0] == '+' then s[1..] else s;
      if body == [] || !AllDigits(body) then None
      else
        var v: int := if s[0] == '-' then -(DigitsValue(body) as int) else DigitsValue(body);
        if lo <= v <= hi then Some(v) else None
  }

  function ParseInt(s: string): (r: Option<int>)
  {
    ParseInteger(s, INT_MIN, INT_MAX)
  }

  function ParseLong(s: string): (r: Option<int>)
  {
    ParseInteger(s, LONG_MIN, LONG_MAX)
  }

  function DigitChar(d: nat): char
    requires d < 10
  {
    ('0' as int + d) as char
  }

  /** Decimal rendering of a natural number, most significant digit first. */
  function NatToString(n: nat): (r: string)
    ensures r != [] && AllDigits(r)
  {
    if n < 10 then [DigitChar(n)] else NatToString(n / 10) + [DigitChar(n % 10)]
  }

  /** `String.valueOf(int)` / `Long.toString`. */
  function IntToString(x: int): string
  {
    if x < 0 then "-" + NatToString(-x) else NatToString(x)
  }

  lemma {:induction false} DigitsOfNatToString(n: nat)
    ensures DigitsValue(NatToString(n)) == n
  {
    if n >= 10 {
      DigitsOfNatToString(n / 10);
      var t := NatToString(n / 10);
      var s := t + [DigitChar(n % 10)];
      assert s[..|s| - 1] == t;
    }
  }

  /** Rendering a number in decimal and parsing it back gives the number,
      for every value inside the parser's bounds. */
  lemma ParseIntToString(x: int, lo: int, hi: int)
    requires lo <= x <= hi
    ensures ParseInteger(IntToString(x), lo, hi) == Some(x)
  {
    var digits := NatToString(if x < 0 then -x else x);
    DigitsOfNatToString(if x < 0 then -x else x);
    assert IsDigit(digits[0]);
    var s := IntToString(x);
    if x < 0 {
      assert s == "-" + digits && s[1..] == digits;
    } else {
      assert s == digits;
    }
  }

  // ---------------------------------------------------------------- hashing

  /** h = 31 * h + u over code units, in `int` arithmetic. */
  function UnitsHash(u: seq<int>): (r: int)
    ensures INT_MIN <= r <= INT_MAX
  {
    if u == [] then 0 else Wrap32(31 * UnitsHash(u[..|u| - 1]) + u[|u| - 1])
  }

  /** `String.hashCode`: the hash runs over the UTF-16 units. */
  function StringHash(s: string): (r: int)
    ensures INT_MIN <= r <= INT_MAX
  {
    UnitsHash(Utf16(s))
  }

  lemma {:induction false} Utf16Append(a: string, b: string)
    ensures Utf16(a + b) == Utf16(a) + Utf16(b)
  {
    if a == [] {
      assert a + b == b;
    } else {
      assert (a + b)[0] == a[0] && (a + b)[1..] == a[1..] + b;
      Utf16Append(a[1..], b);
      assert Utf16(a + b) == Units(a[0]) + (Utf16(a[1..]) + Utf16(b));
    }
  }

  /** One more unit is one more hash step. */
  lemma UnitsHashSnoc(u: seq<int>, x: int)
    ensures UnitsHash(u + [x]) == Wrap32(31 * UnitsHash(u) + x)
  {
    assert (u + [x])[..|u|] == u;
  }

  /** The hash steps over `u`, starting from `h`. */
  function HashFrom(h: int, u: seq<int>): int
    decreases |u|
  {
    if u == [] then h else HashFrom(Wrap32(31 * h + u[0]), u[1..])
  }

  lemma {:induction false} UnitsHashConcat(e: seq<int>, u: seq<int>)
    ensures UnitsHash(e + u) == HashFrom(UnitsHash(e), u)
    decreases |u|
  {
    if u == [] {
      assert e + u == e;
    } else {
      assert e + u == (e + [u[0]]) + u[1..];
      UnitsHashSnoc(e, u[0]);
      UnitsHashConcat(e + [u[0]], u[1..]);
    }
  }

  /** Hashing `a + b` carries on from the hash of `a` over the units of
      `b`: a char below U+10000 is one step, any other char two, one per
      surrogate. */
  lemma HashAppend(a: string, b: string)
    ensures StringHash(a + b) == HashFrom(StringHash(a), Utf16(b))
  {
    Utf16Append(a, b);
    UnitsHashConcat(Utf16(a), Utf16(b));
  }
}
