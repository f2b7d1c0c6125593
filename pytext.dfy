/** The parts of Python's `str` and of the builtins `int()`, `float()` and `sorted()`
    that the telemetry script relies on, as functions over `seq<char>`. */
module PyText {
  import opened Wrappers

  /** `str.isspace()` on the ASCII range: space, the controls 0x09-0x0D and the
      separators 0x1C-0x1F. */
  predicate IsSpace(c: char) {
    c == ' ' || (9 <= c as int <= 13) || (28 <= c as int <= 31)
  }

  predicate IsDigit(c: char) {
    '0' <= c <= '9'
  }

  /** `s.startswith(prefix)` */
  predicate StartsWith(s: string, prefix: string) {
    |prefix| <= |s| && s[..|prefix|] == prefix
  }

  /** `s.endswith(suffix)` */
  predicate EndsWith(s: string, suffix: string) {
    |suffix| <= |s| && s[|s| - |suffix|..] == suffix
  }

  /** `s.lstrip()`: the suffix left after dropping the leading whitespace. */
  function LStrip(s: string): (r: string)
    ensures |r| <= |s| && r == s[|s| - |r|..]
    ensures r == [] || !IsSpace(r[0])
    ensures forall i :: 0 <= i < |s| - |r| ==> IsSpace(s[i])
  {
    if s != [] && IsSpace(s[0]) then LStrip(s[1..]) else s
  }

  /** `s.rstrip()`: the prefix left after dropping the trailing whitespace. */
  function RStrip(s: string): (r: string)
    ensures |r| <= |s| && r == s[..|r|]
    ensures r == [] || !IsSpace(r[|r| - 1])
    ensures forall i :: |r| <= i < |s| ==> IsSpace(s[i])
  {
    if s != [] && IsSpace(s[|s| - 1]) then RStrip(s[..|s| - 1]) else s
  }

  /** `s.strip()` */
  function Strip(s: string): (r: string)
    ensures |r| <= |s|
    ensures r == [] || (!IsSpace(r[0]) && !IsSpace(r[|r| - 1]))
  {
    RStrip(LStrip(s))
  }

  /** A string that neither starts nor ends with whitespace is its own strip. */
  lemma StripTrimmed(s: string)
    requires s == [] || (!IsSpace(s[0]) && !IsSpace(s[|s| - 1]))
    ensures Strip(s) == s
  {
  }

  /** The length of the longest prefix of `s` without whitespace. */
  function TokenLen(s: string): (n: nat)
    ensures n <= |s|
    ensures forall i :: 0 <= i < n ==> !IsSpace(s[i])
    ensures n < |s| ==> IsSpace(s[n])
  {
    if s == [] || IsSpace(s[0]) then 0 else 1 + TokenLen(s[1..])
  }

  predicate NoSpace(s: string) {
    forall i :: 0 <= i < |s| ==> !IsSpace(s[i])
  }

  /** `s.split()`: the maximal runs of non-whitespace characters, in order. */
  function SplitWhitespace(s: string): (parts: seq<string>)
    ensures forall k :: 0 <= k < |parts| ==> parts[k] != [] && NoSpace(parts[k])
    decreases |s|
  {
    var t := LStrip(s);
    if t == [] then []
    else
      var n := TokenLen(t);
      var rest := SplitWhitespace(t[n..]);
      TokenIsWord(t);
      WordsCons(t[..n], rest);
      [t[..n]] + rest
  }

  /** The token at the start of text that starts with a non-space is a word. */
  lemma TokenIsWord(t: string)
    requires t != [] && !IsSpace(t[0])
    ensures t[..TokenLen(t)] != [] && NoSpace(t[..TokenLen(t)])
  {
  }

  /** A word before a list of words is a list of words. */
  lemma WordsCons(word: string, rest: seq<string>)
    requires word != [] && NoSpace(word)
    requires forall k :: 0 <= k < |rest| ==> rest[k] != [] && NoSpace(rest[k])
    ensures forall k :: 0 <= k < |[word] + rest| ==> ([word] + rest)[k] != [] && NoSpace(([word] + rest)[k])
  {
  }

  /** The index of the first `c` in `s`, or `|s|` when there is none. */
  function IndexOf(s: string, c: char): (i: nat)
    ensures i <= |s|
    ensures i < |s| ==> s[i] == c
    ensures forall j :: 0 <= j < i ==> s[j] != c
  {
    if s == [] || s[0] == c then 0 else 1 + IndexOf(s[1..], c)
  }

  /** Leading whitespace does not change `s.split()`. */
  lemma SplitWhitespaceSkip(s: string)
    requires s != [] && IsSpace(s[0])
    ensures SplitWhitespace(s) == SplitWhitespace(s[1..])
  {
  }

  /** A token followed by whitespace (or nothing) is the first part. */
  lemma SplitWhitespaceToken(tok: string, rest: string)
    requires tok != [] && NoSpace(tok)
    requires rest == [] || IsSpace(rest[0])
    ensures SplitWhitespace(tok + rest) == [tok] + SplitWhitespace(rest)
  {
    var s := tok + rest;
    assert forall i :: 0 <= i < |tok| ==> s[i] == tok[i];
    assert rest != [] ==> s[|tok|] == rest[0];
    assert LStrip(s) == s;
    assert TokenLen(s) == |tok|;
    assert s[..|tok|] == tok && s[|tok|..] == rest;
  }

  /** A space, a token and whitespace (or nothing) split to the token first. */
  lemma SplitSpacedToken(tok: string, rest: string)
    requires tok != [] && NoSpace(tok)
    requires rest == [] || IsSpace(rest[0])
    ensures SplitWhitespace(" " + (tok + rest)) == [tok] + SplitWhitespace(rest)
  {
    SplitWhitespaceSkip(" " + (tok + rest));
    assert (" " + (tok + rest))[1..] == tok + rest;
    SplitWhitespaceToken(tok, rest);
  }

  /** Two tokens separated by a space, then whitespace or nothing. */
  lemma SplitTwoTokens(first: string, second: string, rest: string)
    requires first != [] && NoSpace(first) && second != [] && NoSpace(second)
    requires rest == [] || IsSpace(rest[0])
    ensures SplitWhitespace(first + (" " + (second + rest))) == [first, second] + SplitWhitespace(rest)
  {
    var tail := " " + (second + rest);
    SplitWhitespaceToken(first, tail);
    SplitSpacedToken(second, rest);
    ConsTwo(first, second, SplitWhitespace(rest));
  }

  /** The second field of such a line is the second token. */
  lemma SecondToken(first: string, second: string, rest: string)
    requires first != [] && NoSpace(first) && second != [] && NoSpace(second)
    requires rest == [] || IsSpace(rest[0])
    ensures var parts := SplitWhitespace(first + (" " + (second + rest)));
      |parts| >= 2 && parts[1] == second
  {
    SplitTwoTokens(first, second, rest);
    SecondOfCons(SplitWhitespace(first + (" " + (second + rest))), first, second, SplitWhitespace(rest));
  }

  /** The second element of `[a, b] + more` is `b`. */
  lemma SecondOfCons<T>(parts: seq<T>, a: T, b: T, more: seq<T>)
    requires parts == [a, b] + more
    ensures |parts| >= 2 && parts[1] == b
  {
  }

  /** Consing two elements one at a time is consing both. */
  lemma ConsTwo<T>(a: T, b: T, more: seq<T>)
    ensures [a] + ([b] + more) == [a, b] + more
  {
    assert [a] + ([b] + more) == [a, b] + more;
  }

  /** `s.split(sep)` for a one-character separator: empty fields are kept, so there is
      always one more field than there are separators. */
  function SplitOn(s: string, sep: char): (parts: seq<string>)
    ensures |parts| >= 1
    ensures forall k :: 0 <= k < |parts| ==> sep !in parts[k]
    ensures |parts| >= 2 <==> sep in s
    decreases |s|
  {
    var i := IndexOf(s, sep);
    if i == |s| then [s] else [s[..i]] + SplitOn(s[i + 1..], sep)
  }

  /** Two fields without the separator, joined by it, split back into the two. */
  lemma SplitOnPair(a: string, b: string, sep: char)
    requires sep !in a && sep !in b
    ensures SplitOn(a + [sep] + b, sep) == [a, b]
  {
    var s := a + [sep] + b;
    assert forall j :: 0 <= j < |a| ==> s[j] == a[j] && a[j] in a;
    assert s[|a|] == sep;
    assert IndexOf(s, sep) == |a|;
    assert s[..|a|] == a;
    assert s[|a| + 1..] == b by {
      assert forall j :: 0 <= j < |b| ==> s[|a| + 1..][j] == b[j];
    }
    assert IndexOf(b, sep) == |b|;
  }

  /** `sep.join(parts)` */
  function Join(parts: seq<string>, sep: char): string {
    if |parts| <= 1 then (if parts == [] then [] else parts[0])
    else parts[0] + [sep] + Join(parts[1..], sep)
  }

  /** Splitting and joining on the same separator gives back the original string. */
  lemma {:induction false} JoinSplitOn(s: string, sep: char)
    ensures Join(SplitOn(s, sep), sep) == s
    decreases |s|
  {
    var i := IndexOf(s, sep);
    if i < |s| {
      var rest := SplitOn(s[i + 1..], sep);
      JoinSplitOn(s[i + 1..], sep);
      assert SplitOn(s, sep) == [s[..i]] + rest;
      assert (s[..i] + [sep]) + s[i + 1..] == s;
    }
  }

  /** `f.readline()`: everything up to and including the first newline, or the whole
      rest when there is no newline. */
  function ReadLine(s: string): (line: string)
    ensures StartsWith(s, line)
    ensures s != [] ==> line != []
    ensures forall i :: 0 <= i < |line| - 1 ==> line[i] != '\n'
    ensures |line| < |s| ==> line[|line| - 1] == '\n'
  {
    var i := IndexOf(s, '\n');
    if i == |s| then s else s[..i + 1]
  }

  /** Iterating over a text file: its lines, each with its newline. */
  function Lines(s: string): (lines: seq<string>)
    ensures forall k :: 0 <= k < |lines| ==> lines[k] != []
    decreases |s|
  {
    if s == [] then [] else var l := ReadLine(s); [l] + Lines(s[|l|..])
  }

  function Concat(ls: seq<string>): string {
    if ls == [] then [] else ls[0] + Concat(ls[1..])
  }

  /** `Concat` of a line before more lines is the line before their `Concat`. */
  lemma ConcatCons(l: string, ls: seq<string>)
    ensures Concat([l] + ls) == l + Concat(ls)
  {
    assert ([l] + ls)[1..] == ls;
  }

  /** Putting the lines back together takes the first line, then the rest. */
  lemma ConcatLinesStep(s: string)
    requires s != []
    ensures var l := ReadLine(s);
      Concat(Lines(s)) == l + Concat(Lines(s[|l|..])) && l + s[|l|..] == s
  {
    var l := ReadLine(s);
    ConcatCons(l, Lines(s[|l|..]));
    assert s[..|l|] == l;
  }

  /** The lines of a file put back together are the file, and the first of them is
      what `readline()` returns. */
  lemma {:induction false} LinesConcat(s: string)
    ensures Concat(Lines(s)) == s
    ensures s != [] ==> Lines(s)[0] == ReadLine(s)
    decreases |s|
  {
    if s != [] {
      LinesConcat(s[|ReadLine(s)|..]);
      ConcatLinesStep(s);
    }
  }

  /** A line ending in its only newline, followed by anything, is the first line
      of the file. */
  predicate IsLine(l: string) {
    l != [] && l[|l| - 1] == '\n' && forall i :: 0 <= i < |l| - 1 ==> l[i] != '\n'
  }

  /** Text that differs from `prefix` at some index does not start with it. */
  lemma NotPrefixAt(s: string, prefix: string, k: nat)
    requires k < |s| && k < |prefix| && s[k] != prefix[k]
    ensures !StartsWith(s, prefix)
  {
    if |prefix| <= |s| {
      assert s[..|prefix|][k] == s[k];
    }
  }

  /** Two lines, then anything. */
  lemma LinesCons2(l1: string, l2: string, rest: string)
    requires IsLine(l1) && IsLine(l2)
    ensures Lines(l1 + (l2 + rest)) == [l1, l2] + Lines(rest)
  {
    LinesCons(l2, rest);
    LinesCons(l1, l2 + rest);
  }

  /** Three lines, then anything. */
  lemma LinesCons3(l1: string, l2: string, l3: string, rest: string)
    requires IsLine(l1) && IsLine(l2) && IsLine(l3)
    ensures Lines(l1 + (l2 + (l3 + rest))) == [l1, l2, l3] + Lines(rest)
  {
    var r2 := l2 + (l3 + rest);
    LinesCons2(l2, l3, rest);
    LinesCons(l1, r2);
    var tail := Lines(rest);
    assert [l1] + ([l2, l3] + tail) == [l1, l2, l3] + tail;
  }

  /** The same, read line by line. */
  lemma FirstThreeLines(l1: string, l2: string, l3: string, rest: string)
    requires IsLine(l1) && IsLine(l2) && IsLine(l3)
    ensures var ls := Lines(l1 + (l2 + (l3 + rest))); |ls| >= 3 && ls[0] == l1 && ls[1] == l2 && ls[2] == l3
  {
    LinesCons3(l1, l2, l3, rest);
  }

  lemma LinesCons(l: string, rest: string)
    requires IsLine(l)
    ensures Lines(l + rest) == [l] + Lines(rest)
  {
    var s := l + rest;
    assert s[|l| - 1] == '\n';
    assert forall j :: 0 <= j < |l| - 1 ==> s[j] == l[j];
    assert IndexOf(s, '\n') == |l| - 1;
    assert ReadLine(s) == l;
    assert s[|l|..] == rest;
  }

  function DigitValue(c: char): nat
    requires IsDigit(c)
    ensures DigitValue(c) <= 9
  {
    c as int - '0' as int
  }

  function DigitChar(d: nat): (c: char)
    requires d <= 9
    ensures IsDigit(c) && DigitValue(c) == d
  {
    ('0' as int + d) as char
  }

  /** Python's `digitpart`: one or more digits, with single underscores allowed
      between two digits. */
  predicate DigitGroup(s: string) {
    |s| > 0 && IsDigit(s[0]) && DigitGroupTail(s[1..])
  }

  /** What may follow the first digit of a digit group: `(['_'] digit)*`. */
  predicate DigitGroupTail(s: string)
    decreases |s|
  {
    || s == []
    || (IsDigit(s[0]) && DigitGroupTail(s[1..]))
    || (|s| >= 2 && s[0] == '_' && IsDigit(s[1]) && DigitGroupTail(s[2..]))
  }

  lemma {:induction false} AllDigitsGroupTail(s: string)
    requires forall i :: 0 <= i < |s| ==> IsDigit(s[i])
    ensures DigitGroupTail(s)
    decreases |s|
  {
    if s != [] {
      AllDigitsGroupTail(s[1..]);
    }
  }

  /** The decimal value of the digits in `s`, underscores ignored. */
  function DigitsValue(s: string): nat {
    if s == [] then 0
    else if IsDigit(s[|s| - 1]) then DigitsValue(s[..|s| - 1]) * 10 + DigitValue(s[|s| - 1])
    else DigitsValue(s[..|s| - 1])
  }

  /** The number of digits in `s`. */
  function DigitCount(s: string): nat {
    if s == [] then 0
    else (if IsDigit(s[0]) then 1 else 0) + DigitCount(s[1..])
  }

  function Pow10(n: nat): (p: nat)
    ensures p >= 1
  {
    if n == 0 then 1 else 10 * Pow10(n - 1)
  }

  /** `int(s)` in base 10: surrounding whitespace, an optional sign and a digit
      group; anything else raises, which is `None` here. */
  function ParseInt(s: string): (r: Option<int>)
    ensures r.Some? ==> Strip(s) != []
  {
    var t := Strip(s);
    if |t| > 0 && (t[0] == '-' || t[0] == '+') then
      if DigitGroup(t[1..]) then
        Some(if t[0] == '-' then -(DigitsValue(t[1..]) as int) else DigitsValue(t[1..]))
      else None
    else if DigitGroup(t) then Some(DigitsValue(t))
    else None
  }

  /** The unsigned part of `float(s)` in positional notation: `ddd`, `ddd.ddd`,
      `ddd.` or `.ddd`. */
  function ParseUnsignedDecimal(t: string): (r: Option<real>)
    ensures r.Some? ==> r.value >= 0.0
  {
    var k := IndexOf(t, '.');
    if k == |t| then
      if DigitGroup(t) then Some(DigitsValue(t) as real) else None
    else
      var whole, frac := t[..k], t[k + 1..];
      if (whole == [] && frac == []) || (whole != [] && !DigitGroup(whole))
         || (frac != [] && !DigitGroup(frac)) then None
      else Some(DigitsValue(whole) as real + DigitsValue(frac) as real / Pow10(DigitCount(frac)) as real)
  }

  /** `float(s)` for decimal notation with an optional sign and surrounding
      whitespace. */
  function ParseFloat(s: string): (r: Option<real>)
    ensures r.Some? ==> Strip(s) != []
  {
    var t := Strip(s);
    if |t| > 0 && (t[0] == '-' || t[0] == '+') then
      match ParseUnsignedDecimal(t[1..])
      case None => None
      case Some(v) => Some(if t[0] == '-' then -v else v)
    else ParseUnsignedDecimal(t)
  }

  /** `str(n)` for a natural number. */
  function ShowNat(n: nat): (s: string)
    ensures s != [] && forall i :: 0 <= i < |s| ==> IsDigit(s[i])
  {
    if n < 10 then [DigitChar(n)] else ShowNat(n / 10) + [DigitChar(n % 10)]
  }

  /** `str(n)` */
  function ShowInt(n: int): string {
    if n < 0 then "-" + ShowNat(-n) else ShowNat(n)
  }

  lemma {:induction false} ShowNatValue(n: nat)
    ensures DigitGroup(ShowNat(n)) && DigitsValue(ShowNat(n)) == n
    ensures DigitCount(ShowNat(n)) == |ShowNat(n)|
  {
    var s := ShowNat(n);
    AllDigitsGroupTail(s[1..]);
    if n >= 10 {
      ShowNatValue(n / 10);
      assert s[..|s| - 1] == ShowNat(n / 10);
      DigitCountSnoc(ShowNat(n / 10), DigitChar(n % 10));
    }
  }

  lemma {:induction false} DigitCountSnoc(s: string, c: char)
    ensures DigitCount(s + [c]) == DigitCount(s) + (if IsDigit(c) then 1 else 0)
    decreases |s|
  {
    if s != [] {
      assert (s + [c])[1..] == s[1..] + [c];
      DigitCountSnoc(s[1..], c);
    }
  }

  /** `int(str(n)) == n`: the parser accepts what Python prints for an integer. */
  lemma ParseIntShowInt(n: int)
    ensures ParseInt(ShowInt(n)) == Some(n)
  {
    if n < 0 {
      ParseIntNegative(-n);
    } else {
      ParseIntNatural(n);
    }
  }

  /** `int(str(m))` for a natural number. */
  lemma ParseIntNatural(m: nat)
    ensures ParseInt(ShowNat(m)) == Some(m)
  {
    var s := ShowNat(m);
    ShowNatValue(m);
    StripTrimmed(s);
    assert IsDigit(s[0]);
  }

  /** `int(str(-m))`: the minus sign and the digits of `m`. */
  lemma ParseIntNegative(m: nat)
    ensures ParseInt("-" + ShowNat(m)) == Some(-(m as int))
  {
    ShowNatValue(m);
    ShowNatEndsInDigit(m);
    ParseIntMinus(ShowNat(m), m);
  }

  /** A minus sign before a digit group negates its value. */
  lemma ParseIntMinus(d: string, v: nat)
    requires d != [] && IsDigit(d[|d| - 1])
    requires DigitGroup(d) && DigitsValue(d) == v
    ensures ParseInt("-" + d) == Some(-(v as int))
  {
    MinusTail(d);
    MinusStrip(d);
    ParseIntNegated("-" + d, v);
  }

  /** A stripped `-` followed by a digit group parses to its negation. */
  lemma ParseIntNegated(s: string, v: nat)
    requires Strip(s) == s && s != [] && s[0] == '-'
    requires DigitGroup(s[1..]) && DigitsValue(s[1..]) == v
    ensures ParseInt(s) == Some(-(v as int))
  {
  }

  /** `float(str(n)) == n` for an integer `n`. */
  lemma ParseFloatShowInt(n: int)
    ensures ParseFloat(ShowInt(n)) == Some(n as real)
  {
    if n < 0 {
      ParseFloatNegative(-n);
    } else {
      ParseFloatNatural(n);
    }
  }

  /** `float(str(m))` for a natural number. */
  lemma ParseFloatNatural(m: nat)
    ensures ParseFloat(ShowNat(m)) == Some(m as real)
  {
    var s := ShowNat(m);
    ParseUnsignedShowNat(m);
    StripTrimmed(s);
    assert IsDigit(s[0]);
  }

  /** `float(str(-m))`: the minus sign and the digits of `m`. */
  lemma ParseFloatNegative(m: nat)
    ensures ParseFloat("-" + ShowNat(m)) == Some(-(m as real))
  {
    ParseUnsignedShowNat(m);
    ShowNatEndsInDigit(m);
    ParseFloatMinus(ShowNat(m), m as real);
  }

  /** `str(m)` ends in a digit. */
  lemma ShowNatEndsInDigit(m: nat)
    ensures ShowNat(m) != [] && IsDigit(ShowNat(m)[|ShowNat(m)| - 1])
  {
  }

  /** A minus sign before an unsigned decimal that ends in a digit negates it. */
  lemma ParseFloatMinus(d: string, v: real)
    requires d != [] && IsDigit(d[|d| - 1])
    requires ParseUnsignedDecimal(d) == Some(v)
    ensures ParseFloat("-" + d) == Some(-v)
  {
    MinusTail(d);
    MinusStrip(d);
    ParseFloatNegated("-" + d, v);
  }

  /** A stripped `-` followed by an unsigned decimal parses to its negation. */
  lemma ParseFloatNegated(s: string, v: real)
    requires Strip(s) == s && s != [] && s[0] == '-'
    requires ParseUnsignedDecimal(s[1..]) == Some(v)
    ensures ParseFloat(s) == Some(-v)
  {
  }

  /** The minus sign is the first character of `"-" + d`, and `d` is the rest. */
  lemma MinusTail(d: string)
    ensures ("-" + d) != [] && ("-" + d)[0] == '-' && ("-" + d)[1..] == d
  {
  }

  /** `("-" + d).strip()` is unchanged when `d` ends in a digit. */
  lemma MinusStrip(d: string)
    requires d != [] && IsDigit(d[|d| - 1])
    ensures Strip("-" + d) == "-" + d
  {
    var s := "-" + d;
    assert s[|s| - 1] == d[|d| - 1];
    StripTrimmed(s);
  }

  /** The digits of `str(m)` as an unsigned decimal are `m`. */
  lemma ParseUnsignedShowNat(m: nat)
    ensures ParseUnsignedDecimal(ShowNat(m)) == Some(m as real)
  {
    ShowNatValue(m);
    assert IndexOf(ShowNat(m), '.') == |ShowNat(m)|;
  }

  /** Python's `<=` on `str`: lexicographic by code point, a prefix first. */
  predicate LexLe(a: string, b: string)
    decreases |a|
  {
    a == [] || (b != [] && (a[0] < b[0] || (a[0] == b[0] && LexLe(a[1..], b[1..]))))
  }

  lemma {:induction false} LexLeTotal(a: string, b: string)
    ensures LexLe(a, b) || LexLe(b, a)
    decreases |a|
  {
    if a != [] && b != [] && a[0] == b[0] {
      LexLeTotal(a[1..], b[1..]);
    }
  }

  lemma {:induction false} LexLeTrans(a: string, b: string, c: string)
    requires LexLe(a, b) && LexLe(b, c)
    ensures LexLe(a, c)
    decreases |a|
  {
    if a != [] && a[0] == b[0] && b[0] == c[0] {
      LexLeTrans(a[1..], b[1..], c[1..]);
    }
  }

  lemma {:induction false} LexLeAntisymmetric(a: string, b: string)
    requires LexLe(a, b) && LexLe(b, a)
    ensures a == b
    decreases |a|
  {
    if a != [] {
      LexLeAntisymmetric(a[1..], b[1..]);
      assert a == [a[0]] + a[1..] && b == [b[0]] + b[1..];
    }
  }

  predicate SortedStrings(s: seq<string>) {
    forall i, j :: 0 <= i < j < |s| ==> LexLe(s[i], s[j])
  }

  /** Insert `x` before the first element it does not exceed. */
  function Insert(x: string, s: seq<string>): (r: seq<string>)
    ensures multiset(r) == multiset(s) + multiset{x}
  {
    if s == [] then [x]
    else if LexLe(x, s[0]) then [x] + s
    else
      assert s == [s[0]] + s[1..];
      [s[0]] + Insert(x, s[1..])
  }

  /** `sorted(s)` on a list of `str`. */
  function SortStrings(s: seq<string>): (r: seq<string>)
    ensures multiset(r) == multiset(s)
  {
    if s == [] then []
    else
      assert s == [s[0]] + s[1..];
      Insert(s[0], SortStrings(s[1..]))
  }

  lemma {:induction false} InsertSorted(x: string, s: seq<string>)
    requires SortedStrings(s)
    ensures SortedStrings(Insert(x, s))
  {
    if s == [] {
    } else if LexLe(x, s[0]) {
      forall j | 0 < j < |s| ensures LexLe(x, s[j]) {
        LexLeTrans(x, s[0], s[j]);
      }
    } else {
      LexLeTotal(x, s[0]);
      InsertSorted(x, s[1..]);
      var r := Insert(x, s[1..]);
      forall j | 0 <= j < |r| ensures LexLe(s[0], r[j]) {
        assert r[j] in multiset(r);
        if r[j] != x {
          assert r[j] in multiset(s[1..]);
          var k :| 0 <= k < |s[1..]| && s[1..][k] == r[j];
          assert s[k + 1] == r[j];
        }
      }
    }
  }

  /** `sorted` returns its argument's strings, each as often, in ascending order. */
  lemma {:induction false} SortStringsSorted(s: seq<string>)
    ensures SortedStrings(SortStrings(s)) && multiset(SortStrings(s)) == multiset(s)
  {
    if s != [] {
      SortStringsSorted(s[1..]);
      InsertSorted(s[0], SortStrings(s[1..]));
    }
  }
}
