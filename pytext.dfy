/**
 * The Python string operations the core relies on, written out so that the
 * parsers and the identifier formats can be reasoned about: `str.split()`,
 * `str.split(sep)`, `str.strip()`, `int(s, 16)`, `f'{n:02x}'`, `f'{n}'`,
 * `str.lower()` and `str.replace(old, '')`.
 */
module PyText {
  import opened Values

  /** The characters `str.isspace()` accepts (and `str.split()` splits on). */
  predicate IsSpace(c: char) {
    c == ' ' || ('\t' <= c <= '\r') || ('\U{1C}' <= c <= '\U{1F}') ||
    c == '\U{85}' || c == '\U{A0}' || c == '\U{1680}' || ('\U{2000}' <= c <= '\U{200A}') ||
    c == '\U{2028}' || c == '\U{2029}' || c == '\U{202F}' || c == '\U{205F}' || c == '\U{3000}'
  }

  predicate NoSpace(s: string) {
    forall i :: 0 <= i < |s| ==> !IsSpace(s[i])
  }

  /** `s` with its leading whitespace removed. */
  function TrimLeft(s: string): (r: string)
    ensures |r| <= |s| && r == s[|s| - |r|..]
    ensures r == [] || !IsSpace(r[0])
    ensures forall i :: 0 <= i < |s| - |r| ==> IsSpace(s[i])
  {
    if s != [] && IsSpace(s[0]) then TrimLeft(s[1..]) else s
  }

  /** `s` with its trailing whitespace removed. */
  function TrimRight(s: string): (r: string)
    ensures |r| <= |s| && r == s[..|r|]
    ensures r == [] || !IsSpace(r[|r| - 1])
    ensures forall i :: |r| <= i < |s| ==> IsSpace(s[i])
  {
    if s != [] && IsSpace(s[|s| - 1]) then TrimRight(s[..|s| - 1]) else s
  }

  /** `s.strip()` */
  function Strip(s: string): string {
    TrimRight(TrimLeft(s))
  }

  /** The length of the longest prefix of `s` without whitespace. */
  function WordLength(s: string): (n: nat)
    ensures n <= |s| && NoSpace(s[..n])
    ensures n < |s| ==> IsSpace(s[n])
  {
    if s == [] || IsSpace(s[0]) then 0
    else
      var m := WordLength(s[1..]);
      assert s[..m + 1] == [s[0]] + s[1..][..m];
      m + 1
  }

  /** `s.split()`: the maximal runs of non-whitespace characters, in order. */
  function Split(s: string): (r: seq<string>)
    ensures forall i :: 0 <= i < |r| ==> r[i] != [] && NoSpace(r[i])
    decreases |s|
  {
    var t := TrimLeft(s);
    if t == [] then []
    else
      var n := WordLength(t);
      var rest := Split(t[n..]);
      WordsAppend(t[..n], rest);
      [t[..n]] + rest
  }

  lemma WordsAppend(word: string, rest: seq<string>)
    requires word != [] && NoSpace(word)
    requires forall i :: 0 <= i < |rest| ==> rest[i] != [] && NoSpace(rest[i])
    ensures forall i :: 0 <= i < |rest| + 1 ==> ([word] + rest)[i] != [] && NoSpace(([word] + rest)[i])
  {
    forall i | 0 <= i < |rest| + 1
      ensures ([word] + rest)[i] != [] && NoSpace(([word] + rest)[i])
    {
      if i > 0 {
        assert ([word] + rest)[i] == rest[i - 1];
      }
    }
  }

  /** The characters of `s` that are not whitespace, in order. */
  function NonSpace(s: string): (r: string)
    ensures NoSpace(r)
    decreases |s|
  {
    if s == [] then []
    else if IsSpace(s[0]) then NonSpace(s[1..])
    else
      var rest := NonSpace(s[1..]);
      assert forall i :: 1 <= i < |rest| + 1 ==> ([s[0]] + rest)[i] == rest[i - 1];
      [s[0]] + rest
  }

  /** The words run together: `''.join(words)`. */
  function Concat(words: seq<string>): string {
    if words == [] then [] else words[0] + Concat(words[1..])
  }

  lemma {:induction false} NonSpaceAppend(a: string, b: string)
    ensures NonSpace(a + b) == NonSpace(a) + NonSpace(b)
    decreases |a|
  {
    if a != [] {
      assert (a + b)[0] == a[0] && (a + b)[1..] == a[1..] + b;
      NonSpaceAppend(a[1..], b);
    } else {
      assert a + b == b;
    }
  }

  lemma {:induction false} NonSpaceOfWord(w: string)
    requires NoSpace(w)
    ensures NonSpace(w) == w
    decreases |w|
  {
    if w != [] {
      NonSpaceOfWord(w[1..]);
      assert w == [w[0]] + w[1..];
    }
  }

  lemma {:induction false} NonSpaceOfSpaces(s: string)
    requires forall i :: 0 <= i < |s| ==> IsSpace(s[i])
    ensures NonSpace(s) == []
    decreases |s|
  {
    if s != [] {
      NonSpaceOfSpaces(s[1..]);
    }
  }

  /** `s.split()` drops the whitespace and nothing else: the words hold every other character, in order. */
  lemma {:induction false} SplitKeepsText(s: string)
    ensures Concat(Split(s)) == NonSpace(s)
    decreases |s|
  {
    var t := TrimLeft(s);
    NonSpaceTrimmed(s);
    if t != [] {
      var n := WordLength(t);
      SplitKeepsText(t[n..]);
      SplitUnfold(s);
      ConcatCons(t[..n], Split(t[n..]));
      NonSpaceWordThenRest(t, n);
    }
  }

  /** One step of `split()`: skip the leading whitespace, take a word, split the rest. */
  lemma SplitUnfold(s: string)
    requires TrimLeft(s) != []
    ensures var t := TrimLeft(s);
            Split(s) == [t[..WordLength(t)]] + Split(t[WordLength(t)..])
  {
  }

  lemma ConcatCons(w: string, ws: seq<string>)
    ensures Concat([w] + ws) == w + Concat(ws)
  {
    assert ([w] + ws)[1..] == ws;
  }

  lemma NonSpaceTrimmed(s: string)
    ensures NonSpace(s) == NonSpace(TrimLeft(s))
  {
    var t := TrimLeft(s);
    assert s == s[..|s| - |t|] + t;
    NonSpaceOfSpaces(s[..|s| - |t|]);
    NonSpaceAppend(s[..|s| - |t|], t);
  }

  lemma NonSpaceWordThenRest(t: string, n: nat)
    requires n <= |t| && NoSpace(t[..n])
    ensures NonSpace(t) == t[..n] + NonSpace(t[n..])
  {
    assert t == t[..n] + t[n..];
    NonSpaceAppend(t[..n], t[n..]);
    NonSpaceOfWord(t[..n]);
  }

  /** Leading whitespace makes no difference to `split()`. */
  lemma SplitSkipsSpace(c: char, s: string)
    requires IsSpace(c)
    ensures Split([c] + s) == Split(s)
  {
    assert ([c] + s)[1..] == s;
  }

  /** A word directly followed by whitespace (or by nothing) is the first field of `split()`. */
  lemma SplitFirstWord(w: string, rest: string)
    requires w != [] && NoSpace(w) && (rest == [] || IsSpace(rest[0]))
    ensures Split(w + rest) == [w] + Split(rest)
  {
    var s := w + rest;
    assert s[0] == w[0];
    assert TrimLeft(s) == s;
    WordLengthOfWord(w, rest);
    assert s[..|w|] == w && s[|w|..] == rest;
  }

  lemma {:induction false} WordLengthOfWord(w: string, rest: string)
    requires NoSpace(w) && (rest == [] || IsSpace(rest[0]))
    ensures WordLength(w + rest) == |w|
    decreases |w|
  {
    if w != [] {
      assert (w + rest)[1..] == w[1..] + rest;
      WordLengthOfWord(w[1..], rest);
    } else {
      assert w + rest == rest;
    }
  }

  lemma HeadTail<T>(s: seq<T>)
    requires s != []
    ensures s == [s[0]] + s[1..]
  {
  }

  /** Non-empty fields without whitespace: what `split()` returns. */
  predicate Words(ws: seq<string>) {
    forall i :: 0 <= i < |ws| ==> ws[i] != [] && NoSpace(ws[i])
  }

  lemma WordsTail(ws: seq<string>)
    requires ws != [] && Words(ws)
    ensures Words(ws[1..]) && ws[0] != [] && NoSpace(ws[0])
  {
    forall i | 0 <= i < |ws| - 1
      ensures ws[1..][i] != [] && NoSpace(ws[1..][i])
    {
      assert ws[1..][i] == ws[i + 1];
    }
  }

  /** Splitting words joined by single spaces gives the words back. */
  lemma {:induction false} SplitJoined(words: seq<string>)
    requires |words| >= 1 && Words(words)
    ensures Split(Join(words, ' ')) == words
    decreases |words|
  {
    WordsTail(words);
    if |words| == 1 {
      SplitFirstWord(words[0], []);
      assert words[0] + [] == words[0];
    } else {
      SplitJoined(words[1..]);
      SplitJoinedStep(words);
    }
  }

  lemma SplitJoinedStep(words: seq<string>)
    requires |words| >= 2 && words[0] != [] && NoSpace(words[0])
    requires Split(Join(words[1..], ' ')) == words[1..]
    ensures Split(Join(words, ' ')) == words
  {
    SplitWordThenSpace(words[0], ' ', Join(words[1..], ' '));
    HeadTail(words);
  }

  /** A word, one whitespace character, then more text: the word, then the fields of the text. */
  lemma SplitWordThenSpace(w: string, c: char, rest: string)
    requires w != [] && NoSpace(w) && IsSpace(c)
    ensures Split(w + [c] + rest) == [w] + Split(rest)
  {
    var s := w + [c] + rest;
    assert s[..|w|] == w;
    assert s[|w|..] == [c] + rest;
    assert s == w + ([c] + rest);
    SplitFirstWord(w, [c] + rest);
    SplitSkipsSpace(c, rest);
  }

  /** The index of the first `sep` in `s`. */
  function IndexOf(s: string, sep: char): (i: nat)
    requires sep in s
    ensures i < |s| && s[i] == sep && sep !in s[..i]
  {
    if s[0] == sep then 0
    else
      var j := IndexOf(s[1..], sep);
      assert s[..j + 1] == [s[0]] + s[1..][..j];
      j + 1
  }

  /** `s.split(sep)` for a one-character separator. */
  function SplitOn(s: string, sep: char): (r: seq<string>)
    ensures |r| >= 1
    ensures forall i :: 0 <= i < |r| ==> sep !in r[i]
    decreases |s|
  {
    if sep !in s then [s]
    else
      var i := IndexOf(s, sep);
      [s[..i]] + SplitOn(s[i + 1..], sep)
  }

  /** `sep.join(parts)` */
  function Join(parts: seq<string>, sep: char): string
    requires |parts| >= 1
  {
    if |parts| == 1 then parts[0] else parts[0] + [sep] + Join(parts[1..], sep)
  }

  /** Splitting on a separator and joining again gives the original text back. */
  lemma {:induction false} JoinSplitOn(s: string, sep: char)
    ensures Join(SplitOn(s, sep), sep) == s
    decreases |s|
  {
    if sep in s {
      var i := IndexOf(s, sep);
      var head, tail := s[..i], SplitOn(s[i + 1..], sep);
      JoinSplitOn(s[i + 1..], sep);
      var parts := [head] + tail;
      assert SplitOn(s, sep) == parts;
      assert parts[0] == head && parts[1..] == tail && |parts| > 1;
      assert Join(parts, sep) == head + [sep] + s[i + 1..];
      PartsAround(s, i);
    } else {
      assert SplitOn(s, sep) == [s];
    }
  }

  lemma PartsAround(s: string, i: nat)
    requires i < |s|
    ensures s[..i] + [s[i]] + s[i + 1..] == s
  {
  }

  /** Splitting text that does not contain the separator gives that text alone. */
  lemma {:induction false} SplitOnHead(first: string, rest: string, sep: char)
    requires sep !in first
    ensures SplitOn(first + [sep] + rest, sep) == [first] + SplitOn(rest, sep)
  {
    var s := first + [sep] + rest;
    assert s[|first|] == sep;
    var i := IndexOf(s, sep);
    assert s[..|first|] == first;
    assert s[i + 1..] == rest;
  }

  // ---------------------------------------------------------------------------
  // int(s, 16)

  predicate IsHexDigit(c: char) {
    ('0' <= c <= '9') || ('a' <= c <= 'f') || ('A' <= c <= 'F')
  }

  function DigitValue(c: char): (d: nat)
    requires IsHexDigit(c)
    ensures d < 16
  {
    if '0' <= c <= '9' then c as int - '0' as int
    else if 'a' <= c <= 'f' then c as int - 'a' as int + 10
    else c as int - 'A' as int + 10
  }

  /**
   * Hex digits with Python's digit-grouping underscores: only digits and `_`,
   * no `__`, and not ending with `_`.
   */
  predicate Grouped(s: string) {
    && s != []
    && s[|s| - 1] != '_'
    && (forall i :: 0 <= i < |s| ==> IsHexDigit(s[i]) || s[i] == '_')
    && NoDoubleUnderscore(s)
  }

  predicate NoDoubleUnderscore(s: string) {
    |s| < 2 || (!(s[0] == '_' && s[1] == '_') && NoDoubleUnderscore(s[1..]))
  }

  /** The number the hex digits of `s` denote, underscores ignored. */
  function HexValue(s: string): nat
    requires forall i :: 0 <= i < |s| ==> IsHexDigit(s[i]) || s[i] == '_'
  {
    if s == [] then 0
    else if s[|s| - 1] == '_' then HexValue(s[..|s| - 1])
    else HexValue(s[..|s| - 1]) * 16 + DigitValue(s[|s| - 1])
  }

  /** The magnitude part of `int(s, 16)`: an optional `0x` prefix, then grouped digits. */
  function ParseMagnitude(s: string): (r: Option<nat>)
  {
    if |s| >= 2 && s[0] == '0' && (s[1] == 'x' || s[1] == 'X') then
      if Grouped(s[2..]) then Some(HexValue(s[2..])) else None
    else if Grouped(s) && s[0] != '_' then Some(HexValue(s))
    else None
  }

  /**
   * `int(s, 16)` on a string without surrounding whitespace: `None` where Python
   * raises `ValueError`. Non-ASCII digits are not accepted here.
   */
  function ParseHex(s: string): (r: Option<int>)
    ensures s == [] ==> r == None
  {
    if s != [] && (s[0] == '+' || s[0] == '-') then
      match ParseMagnitude(s[1..])
      case None => None
      case Some(n) => Some(if s[0] == '-' then 0 - n else n as int)
    else
      match ParseMagnitude(s)
      case None => None
      case Some(n) => Some(n)
  }

  /** The placeholders i2cdetect prints for an absent or busy address are not numbers. */
  lemma PlaceholdersDoNotParse()
    ensures ParseHex("--") == None && ParseHex("UU") == None
  {
    assert !Grouped("-");
    assert !IsHexDigit('U');
    assert !Grouped("UU");
  }

  // ---------------------------------------------------------------------------
  // f'{n:x}', f'{n:02x}', f'{n}'

  function HexChar(d: nat): (c: char)
    requires d < 16
    ensures IsHexDigit(c) && DigitValue(c) == d && c != '_' && c != 'x' && c != 'X'
  {
    if d < 10 then ('0' as int + d) as char else ('a' as int + d - 10) as char
  }

  /** `f'{n:x}'`: lower-case hex without leading zeros. */
  function Hex(n: nat): (r: string)
    ensures r != []
    ensures forall i :: 0 <= i < |r| ==> IsHexDigit(r[i]) && r[i] != '_' && r[i] != 'x' && r[i] != 'X'
    ensures n >= 16 ==> r[0] != '0'
    ensures n < 16 ==> |r| == 1
    ensures n < 256 ==> |r| <= 2
  {
    if n < 16 then [HexChar(n)] else Hex(n / 16) + [HexChar(n % 16)]
  }

  /** `f'{n:02x}'`: lower-case hex, zero-padded to at least two characters. */
  function Hex2(n: nat): (r: string)
    ensures |r| >= 2
    ensures n < 256 ==> |r| == 2
  {
    if n < 16 then ['0'] + Hex(n) else Hex(n)
  }

  function DecimalDigit(d: nat): char
    requires d < 10
  {
    ('0' as int + d) as char
  }

  /** `f'{n}'` for a non-negative integer. */
  function Decimal(n: nat): (r: string)
    ensures r != []
    ensures n < 10 ==> r == [DecimalDigit(n)]
  {
    if n < 10 then [DecimalDigit(n)] else Decimal(n / 10) + [DecimalDigit(n % 10)]
  }

  lemma {:induction false} HexValueOfHex(n: nat)
    ensures forall i :: 0 <= i < |Hex(n)| ==> IsHexDigit(Hex(n)[i]) || Hex(n)[i] == '_'
    ensures HexValue(Hex(n)) == n
  {
    if n >= 16 {
      HexValueOfHex(n / 16);
      var r := Hex(n);
      assert r[..|r| - 1] == Hex(n / 16);
    }
  }

  lemma {:induction false} HexValueLeadingZero(s: string)
    requires forall i :: 0 <= i < |s| ==> IsHexDigit(s[i]) || s[i] == '_'
    ensures forall i :: 0 <= i < |['0'] + s| ==> IsHexDigit((['0'] + s)[i]) || (['0'] + s)[i] == '_'
    ensures HexValue(['0'] + s) == HexValue(s)
    decreases |s|
  {
    if s != [] {
      var t := ['0'] + s;
      assert t[..|t| - 1] == ['0'] + s[..|s| - 1];
      HexValueLeadingZero(s[..|s| - 1]);
    }
  }

  lemma {:induction false} NoUnderscoreNoDouble(s: string)
    requires forall i :: 0 <= i < |s| ==> s[i] != '_'
    ensures NoDoubleUnderscore(s)
    decreases |s|
  {
    if |s| >= 2 {
      NoUnderscoreNoDouble(s[1..]);
    }
  }

  /** Formatting an address as `02x` and parsing it with `int(_, 16)` gives the address back. */
  lemma Hex2RoundTrip(n: nat)
    ensures ParseHex(Hex2(n)) == Some(n)
  {
    var h := Hex(n);
    HexValueOfHex(n);
    var r := Hex2(n);
    if n < 16 {
      HexValueLeadingZero(h);
      assert r == ['0'] + h;
      assert |r| == 2 && r[1] == h[0];
      assert Grouped(r);
    } else {
      assert r == h;
      NoUnderscoreNoDouble(r);
      assert Grouped(r);
      assert !(r[0] == '0');
    }
    assert r[0] != '+' && r[0] != '-';
  }

  /** Distinct addresses get distinct `02x` renderings. */
  lemma Hex2Injective(m: nat, n: nat)
    requires Hex2(m) == Hex2(n)
    ensures m == n
  {
    Hex2RoundTrip(m);
    Hex2RoundTrip(n);
  }

  // ---------------------------------------------------------------------------
  // str.lower() and str.replace(old, '')

  /** `c.lower()` for ASCII letters. */
  function LowerChar(c: char): char {
    if 'A' <= c <= 'Z' then (c as int - 'A' as int + 'a' as int) as char else c
  }

  /** `s.lower()` (ASCII letters only). */
  function Lower(s: string): (r: string)
    ensures |r| == |s|
    ensures forall i :: 0 <= i < |s| ==> r[i] == LowerChar(s[i])
  {
    seq(|s|, i requires 0 <= i < |s| => LowerChar(s[i]))
  }

  /** Lower-casing twice is lower-casing once. */
  lemma LowerIdempotent(s: string)
    ensures Lower(Lower(s)) == Lower(s)
  {
    var l := Lower(s);
    forall i | 0 <= i < |s| ensures Lower(l)[i] == l[i] {
      assert LowerChar(LowerChar(s[i])) == LowerChar(s[i]);
    }
  }

  /** `s.replace(old, '')`: every non-overlapping occurrence, scanning left to right, removed. */
  function RemoveAll(s: string, pat: string): (r: string)
    requires pat != []
    ensures |r| <= |s|
    decreases |s|
  {
    if |s| < |pat| then s
    else if s[..|pat|] == pat then RemoveAll(s[|pat|..], pat)
    else [s[0]] + RemoveAll(s[1..], pat)
  }
}
