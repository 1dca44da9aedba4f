/**
 * The string operations the models use, with Python's meaning:
 * `str.strip()`, `str.split()` with no separator, `sep.join(parts)`,
 * slicing `s[:n]`, `int(digits)` and `f"{n:06d}"`.
 */
module Text {
  import opened Wrappers

  // ---------------------------------------------------------------------
  // Whitespace, strip and split

  /**
   * The characters Python's `str.strip()` and `str.split()` treat as
   * whitespace: tab to carriage return, the separators U+001C to U+001F,
   * the space, U+0085, the no-break space and the other Unicode space and
   * line separators.
   */
  predicate IsSpace(c: char) {
    || '\t' <= c <= '\r'
    || '\U{1C}' <= c <= ' '
    || c == '\U{85}' || c == '\U{A0}' || c == '\U{1680}'
    || '\U{2000}' <= c <= '\U{200A}'
    || c == '\U{2028}' || c == '\U{2029}' || c == '\U{202F}' || c == '\U{205F}' || c == '\U{3000}'
  }

  predicate AllSpace(s: string) {
    forall i :: 0 <= i < |s| ==> IsSpace(s[i])
  }

  predicate NoSpace(s: string) {
    forall i :: 0 <= i < |s| ==> !IsSpace(s[i])
  }

  /** `s.lstrip()`: the suffix left once the leading whitespace is gone. */
  function StripLeft(s: string): (r: string)
    ensures |r| <= |s|
    ensures r == [] || !IsSpace(r[0])
  {
    if |s| > 0 && IsSpace(s[0]) then StripLeft(s[1..]) else s
  }

  /** What `lstrip` removes is whitespace. */
  lemma {:induction false} StripLeftRemovesSpace(s: string)
    ensures StripLeft(s) == s[|s| - |StripLeft(s)|..]
    ensures AllSpace(s[..|s| - |StripLeft(s)|])
  {
    if |s| > 0 && IsSpace(s[0]) {
      StripLeftRemovesSpace(s[1..]);
      var k := |s| - |StripLeft(s)|;
      assert s[..k] == [s[0]] + s[1..][..k - 1];
    }
  }

  /** `s.rstrip()`: the prefix left once the trailing whitespace is gone. */
  function StripRight(s: string): (r: string)
    ensures |r| <= |s|
    ensures r == [] || !IsSpace(r[|r| - 1])
  {
    if |s| > 0 && IsSpace(s[|s| - 1]) then StripRight(s[..|s| - 1]) else s
  }

  /** What `rstrip` removes is whitespace. */
  lemma {:induction false} StripRightRemovesSpace(s: string)
    ensures StripRight(s) == s[..|StripRight(s)|]
    ensures AllSpace(s[|StripRight(s)|..])
  {
    if |s| > 0 && IsSpace(s[|s| - 1]) {
      StripRightRemovesSpace(s[..|s| - 1]);
      var k := |StripRight(s)|;
      assert s[k..] == s[..|s| - 1][k..] + [s[|s| - 1]];
    }
  }

  /** `s.strip()`. */
  function Strip(s: string): (r: string)
  {
    StripRight(StripLeft(s))
  }

  /** Stripping leaves nothing exactly when the string is all whitespace; stripping twice changes nothing. */
  lemma StripProperties(s: string)
    ensures Strip(s) == [] <==> AllSpace(s)
    ensures Strip(s) != [] ==> !IsSpace(Strip(s)[0]) && !IsSpace(Strip(s)[|Strip(s)| - 1])
    ensures Strip(Strip(s)) == Strip(s)
  {
    var l := StripLeft(s);
    var r := StripRight(l);
    StripLeftRemovesSpace(s);
    StripRightRemovesSpace(l);
    if r == [] {
      assert l == [];
      assert s[..|s| - |l|] == s;
    } else {
      assert r[0] == l[0];
      assert s[|s| - |l|] == l[0];
    }
  }

  /** The leading run of non-whitespace characters. */
  function TakeWord(s: string): (w: string)
    ensures |w| <= |s| && w == s[..|w|]
    ensures NoSpace(w)
    ensures |w| < |s| ==> IsSpace(s[|w|])
  {
    if |s| == 0 || IsSpace(s[0]) then [] else [s[0]] + TakeWord(s[1..])
  }

  /** Non-empty strings without whitespace, as `split()` produces. */
  predicate AreWords(ws: seq<string>) {
    forall i :: 0 <= i < |ws| ==> ws[i] != [] && NoSpace(ws[i])
  }

  lemma WordsCons(w: string, ws: seq<string>)
    requires w != [] && NoSpace(w) && AreWords(ws)
    ensures AreWords([w] + ws)
  {
    forall i | 0 <= i < |[w] + ws|
      ensures ([w] + ws)[i] != [] && NoSpace(([w] + ws)[i])
    {
      if i > 0 {
        assert ([w] + ws)[i] == ws[i - 1];
      }
    }
  }

  /** `s.split()`: the maximal runs of non-whitespace, in order. */
  function Words(s: string): (r: seq<string>)
    ensures AreWords(r)
    decreases |s|
  {
    var t := StripLeft(s);
    if t == [] then []
    else
      var w := TakeWord(t);
      var rest := Words(t[|w|..]);
      WordsCons(w, rest);
      [w] + rest
  }

  /** `' '.join(words)`, and more generally `sep.join(parts)`. */
  function Join(parts: seq<string>, sep: string): (r: string)
  {
    if |parts| == 0 then ""
    else if |parts| == 1 then parts[0]
    else parts[0] + sep + Join(parts[1..], sep)
  }

  /**
   * `split()` undoes `' '.join`: joining non-empty, whitespace-free words
   * with single spaces and splitting again gives the same words back.
   */
  lemma {:induction false} WordsOfJoin(ws: seq<string>)
    requires AreWords(ws)
    ensures Words(Join(ws, " ")) == ws
  {
    if |ws| == 0 {
      assert Words("") == [];
    } else if |ws| == 1 {
      JoinOne(ws);
    } else {
      WordsTail(ws);
      var tail := ws[1..];
      WordsOfJoin(tail);
      JoinCons(ws);
      WordSpaceThen(ws[0], Join(tail, " "), tail);
      HeadTail(ws);
      SplitBack(Join(ws, " "), ws[0], Join(tail, " "), tail, ws);
    }
  }

  /** A sequence is its first element followed by the rest. */
  lemma HeadTail<T>(s: seq<T>)
    requires |s| > 0
    ensures [s[0]] + s[1..] == s
  {
  }

  /** Chains the equalities of the inductive step of `WordsOfJoin`. */
  lemma SplitBack(joined: string, w: string, rest: string, tail: seq<string>, ws: seq<string>)
    requires joined == w + (" " + rest)
    requires Words(w + (" " + rest)) == [w] + tail
    requires [w] + tail == ws
    ensures Words(joined) == ws
  {
  }

  /** One word joined alone splits back into itself. */
  lemma JoinOne(ws: seq<string>)
    requires |ws| == 1 && AreWords(ws)
    ensures Words(Join(ws, " ")) == ws
  {
    var w := ws[0];
    assert Join(ws, " ") == w;
    assert w != [] && NoSpace(w);
    OneWord(w);
    assert ws == [w];
  }

  /** A single word splits into itself. */
  lemma OneWord(w: string)
    requires w != [] && NoSpace(w)
    ensures Words(w) == [w]
  {
    WordThen(w, "");
    assert w + "" == w;
    assert Words("") == [];
  }

  /** Dropping the first word leaves words. */
  lemma WordsTail(ws: seq<string>)
    requires |ws| > 0 && AreWords(ws)
    ensures AreWords(ws[1..]) && ws[0] != [] && NoSpace(ws[0])
  {
    forall i | 0 <= i < |ws| - 1
      ensures ws[1..][i] != [] && NoSpace(ws[1..][i])
    {
      assert ws[1..][i] == ws[i + 1];
    }
  }

  /** Joining a part in front of others puts the separator after it. */
  lemma JoinCons(ws: seq<string>)
    requires |ws| > 1
    ensures Join(ws, " ") == ws[0] + (" " + Join(ws[1..], " "))
  {
  }

  /** A word, a space and a text: the word, then the text's words. */
  lemma WordSpaceThen(w: string, rest: string, tail: seq<string>)
    requires w != [] && NoSpace(w) && Words(rest) == tail
    ensures Words(w + (" " + rest)) == [w] + tail
  {
    WordThen(w, " " + rest);
    SpaceThen(rest);
  }

  /** A leading space changes no word. */
  lemma SpaceThen(s: string)
    ensures Words(" " + s) == Words(s)
  {
    assert (" " + s)[1..] == s;
    WordsSkipsLeadingSpace(" " + s);
  }

  /** A word followed by nothing or by whitespace is split off whole. */
  lemma WordThen(w: string, tail: string)
    requires w != [] && NoSpace(w)
    requires tail == [] || IsSpace(tail[0])
    ensures Words(w + tail) == [w] + Words(tail)
  {
    TakeWholeWord(w, tail);
  }

  /** Splitting only looks past leading whitespace. */
  lemma WordsSkipsLeadingSpace(s: string)
    requires |s| > 0 && IsSpace(s[0])
    ensures Words(s) == Words(s[1..])
  {
    assert StripLeft(s) == StripLeft(s[1..]);
  }

  lemma {:induction false} TakeWholeWord(w: string, tail: string)
    requires w != [] && NoSpace(w)
    requires tail == [] || IsSpace(tail[0])
    ensures TakeWord(w + tail) == w
    ensures StripLeft(w + tail) == w + tail
    ensures (w + tail)[|w|..] == tail
  {
    if |w| == 1 {
      assert (w + tail)[1..] == tail;
      if tail != [] {
        assert TakeWord(tail) == [];
      }
    } else {
      assert (w + tail)[1..] == w[1..] + tail;
      TakeWholeWord(w[1..], tail);
    }
  }

  /** A string has no words exactly when it is all whitespace. */
  lemma WordsEmpty(s: string)
    ensures Words(s) == [] <==> AllSpace(s)
  {
    var t := StripLeft(s);
    StripLeftRemovesSpace(s);
    if t == [] {
      assert s[..|s| - |t|] == s;
    } else {
      assert !IsSpace(s[|s| - |t|]);
    }
  }

  // ---------------------------------------------------------------------
  // Joining the non-empty parts

  /** `[part for part in parts if part]`. */
  function NonEmpty(parts: seq<string>): (r: seq<string>)
    ensures |r| <= |parts|
    ensures forall i :: 0 <= i < |r| ==> r[i] != []
  {
    if |parts| == 0 then []
    else if parts[0] == [] then NonEmpty(parts[1..])
    else [parts[0]] + NonEmpty(parts[1..])
  }

  lemma {:induction false} NonEmptyAppend(a: seq<string>, b: seq<string>)
    ensures NonEmpty(a + b) == NonEmpty(a) + NonEmpty(b)
  {
    if |a| == 0 {
      assert a + b == b;
    } else {
      assert (a + b)[1..] == a[1..] + b;
      NonEmptyAppend(a[1..], b);
    }
  }

  /**
   * An empty part anywhere contributes nothing to the joined text.
   */
  lemma JoinSkipsEmpty(a: seq<string>, b: seq<string>, sep: string)
    ensures Join(NonEmpty(a + [""] + b), sep) == Join(NonEmpty(a + b), sep)
  {
    NonEmptyAppend(a + [""], b);
    NonEmptyAppend(a, [""]);
    NonEmptyAppend(a, b);
    assert [""][1..] == [];
    assert NonEmpty([""]) == [];
    assert NonEmpty(a + [""]) == NonEmpty(a);
  }

  lemma {:induction false} NonEmptyOfBlanks(a: seq<string>)
    requires forall i :: 0 <= i < |a| ==> a[i] == []
    ensures NonEmpty(a) == []
  {
    if |a| > 0 {
      NonEmptyOfBlanks(a[1..]);
    }
  }

  lemma {:induction false} NonEmptyKeepsAll(a: seq<string>)
    requires forall i :: 0 <= i < |a| ==> a[i] != []
    ensures NonEmpty(a) == a
  {
    if |a| > 0 {
      NonEmptyKeepsAll(a[1..]);
    }
  }

  // ---------------------------------------------------------------------
  // Prefixes

  /** `s[:n]`: the first `n` characters, or all of them when there are fewer. */
  function Truncate(s: string, n: nat): (r: string)
    ensures |r| == if |s| <= n then |s| else n
    ensures r == s[..|r|]
  {
    if |s| <= n then s else s[..n]
  }

  // ---------------------------------------------------------------------
  // Decimal digits

  predicate IsDigit(c: char) {
    '0' <= c <= '9'
  }

  predicate AllDigits(s: string) {
    forall i :: 0 <= i < |s| ==> IsDigit(s[i])
  }

  function DigitChar(d: nat): (c: char)
    requires d < 10
    ensures IsDigit(c) && DigitValue(c) == d
  {
    (48 + d) as char
  }

  function DigitValue(c: char): nat
    requires IsDigit(c)
  {
    (c as int - 48) as nat
  }

  /** `str(n)` for a natural number: its decimal digits, without leading zeros. */
  function NatToString(n: nat): (r: string)
    ensures |r| >= 1 && AllDigits(r)
  {
    if n < 10 then [DigitChar(n)] else NatToString(n / 10) + [DigitChar(n % 10)]
  }

  /** The value of a string of decimal digits (`""` reads as 0). */
  function DigitsValue(s: string): nat
    requires AllDigits(s)
  {
    if |s| == 0 then 0 else DigitsValue(s[..|s| - 1]) * 10 + DigitValue(s[|s| - 1])
  }

  lemma {:induction false} DigitsOfNat(n: nat)
    ensures DigitsValue(NatToString(n)) == n
  {
    if n >= 10 {
      var r := NatToString(n);
      assert r[..|r| - 1] == NatToString(n / 10);
      DigitsOfNat(n / 10);
    }
  }

  /** `'0' * k`. */
  function Zeros(k: nat): (r: string)
    ensures |r| == k && AllDigits(r)
    ensures forall i :: 0 <= i < k ==> r[i] == '0'
  {
    if k == 0 then "" else "0" + Zeros(k - 1)
  }

  /** Leading zeros do not change the value. */
  lemma {:induction false} LeadingZeros(k: nat, s: string)
    requires AllDigits(s)
    ensures DigitsValue(Zeros(k) + s) == DigitsValue(s)
  {
    if |s| == 0 {
      assert Zeros(k) + s == Zeros(k);
      ZerosValue(k);
    } else {
      var t := Zeros(k) + s;
      assert t[..|t| - 1] == Zeros(k) + s[..|s| - 1];
      LeadingZeros(k, s[..|s| - 1]);
    }
  }

  lemma {:induction false} ZerosValue(k: nat)
    ensures DigitsValue(Zeros(k)) == 0
  {
    if k > 0 {
      var z := Zeros(k);
      var p := z[..k - 1];
      assert forall i | 0 <= i < k - 1 :: p[i] == Zeros(k - 1)[i];
      assert p == Zeros(k - 1);
      ZerosValue(k - 1);
    }
  }

  /** `f"{n:0{width}d}"` for a natural number: zero-padded on the left to `width`. */
  function ZeroPad(n: nat, width: nat): (r: string)
    ensures AllDigits(r) && |r| >= width && |r| >= 1
    ensures DigitsValue(r) == n
  {
    var d := NatToString(n);
    DigitsOfNat(n);
    var k := if |d| < width then width - |d| else 0;
    LeadingZeros(k, d);
    Zeros(k) + d
  }

  /**
   * What `int()` reads as a number once whitespace and sign are gone:
   * digits, with single underscores allowed between two digits.
   */
  predicate DigitGroups(s: string)
    decreases |s|
  {
    && s != [] && IsDigit(s[0])
    && (|s| == 1 || DigitGroups(if s[1] == '_' then s[2..] else s[1..]))
  }

  lemma {:induction false} DigitGroupsChars(s: string)
    requires DigitGroups(s)
    ensures forall i :: 0 <= i < |s| ==> IsDigit(s[i]) || s[i] == '_'
    decreases |s|
  {
    if |s| > 1 {
      var k := if s[1] == '_' then 2 else 1;
      DigitGroupsChars(s[k..]);
      assert forall i :: k <= i < |s| ==> s[i] == s[k..][i - k];
    }
  }

  lemma {:induction false} DigitsAreGroups(s: string)
    requires s != [] && AllDigits(s)
    ensures DigitGroups(s)
    decreases |s|
  {
    if |s| > 1 {
      DigitsAreGroups(s[1..]);
    }
  }

  /** The digits of `s` with its underscores dropped. */
  function Ungroup(s: string): (r: string)
    ensures |r| <= |s|
    ensures (forall i :: 0 <= i < |s| ==> IsDigit(s[i]) || s[i] == '_') ==> AllDigits(r)
    ensures AllDigits(s) ==> r == s
  {
    if s == [] then []
    else if s[0] == '_' then Ungroup(s[1..])
    else [s[0]] + Ungroup(s[1..])
  }

  /** `s` without one leading `+`. */
  function Unsigned(s: string): (r: string)
  {
    if s != [] && s[0] == '+' then s[1..] else s
  }

  /**
   * `int(s)` on a string without a minus sign: whitespace around the number
   * is ignored, one leading `+` is allowed, and underscores may group the
   * ASCII digits. `None` stands for Python's `ValueError`. A plain run of
   * digits is read directly; `ParseNatIsGrouped` shows the general reading
   * gives the same value.
   */
  function ParseNat(s: string): Option<nat>
  {
    if s != [] && AllDigits(s) then Some(DigitsValue(s)) else ParseGrouped(s)
  }

  /** The general reading behind `ParseNat`: strip, drop one `+`, then digit groups. */
  function ParseGrouped(s: string): Option<nat>
  {
    var t := Unsigned(Strip(s));
    if DigitGroups(t) then
      DigitGroupsChars(t);
      Some(DigitsValue(Ungroup(t)))
    else None
  }

  /** A string of ASCII digits reads as its decimal value. */
  lemma ParseNatDigits(s: string)
    requires s != [] && AllDigits(s)
    ensures ParseNat(s) == Some(DigitsValue(s))
    ensures ParseGrouped(s) == Some(DigitsValue(s))
  {
    StripPlain(s);
    assert Unsigned(s) == s by { assert s[0] != '+'; }
    ParseGroupedDigits(s, s);
  }

  /** A string with no whitespace at either end is its own `strip()`. */
  lemma StripPlain(s: string)
    requires s != [] && !IsSpace(s[0]) && !IsSpace(s[|s| - 1])
    ensures Strip(s) == s
  {
    StripLeftSkips([], s);
    StripRightSkips(s, []);
    assert [] + s == s && s + [] == s;
  }

  /** Once stripped and unsigned to plain digits, the general reading gives their value. */
  lemma ParseGroupedDigits(s: string, t: string)
    requires Unsigned(Strip(s)) == t && t != [] && AllDigits(t)
    ensures ParseGrouped(s) == Some(DigitsValue(t))
  {
    DigitsAreGroups(t);
  }

  /** Reading plain digits directly agrees with the general reading. */
  lemma ParseNatIsGrouped(s: string)
    ensures ParseNat(s) == ParseGrouped(s)
  {
    if s != [] && AllDigits(s) {
      ParseNatDigits(s);
    }
  }

  /** Whitespace in front of a string that does not start with whitespace is what `lstrip` removes. */
  lemma {:induction false} StripLeftSkips(w: string, s: string)
    requires AllSpace(w) && (s == [] || !IsSpace(s[0]))
    ensures StripLeft(w + s) == s
  {
    if w != [] {
      assert (w + s)[1..] == w[1..] + s;
      StripLeftSkips(w[1..], s);
    }
  }

  /** Whitespace after a string that does not end with whitespace is what `rstrip` removes. */
  lemma {:induction false} StripRightSkips(s: string, w: string)
    requires AllSpace(w) && (s == [] || !IsSpace(s[|s| - 1]))
    ensures StripRight(s + w) == s
  {
    if w != [] {
      assert (s + w)[..|s + w| - 1] == s + w[..|w| - 1];
      StripRightSkips(s, w[..|w| - 1]);
    } else {
      assert s + w == s;
    }
  }

  /** `int()` reads a number the same with or without whitespace around it. */
  lemma ParseNatIgnoresSpace(before: string, s: string, after: string)
    requires AllSpace(before) && AllSpace(after)
    requires s != [] && !IsSpace(s[0]) && !IsSpace(s[|s| - 1])
    ensures ParseNat(before + s + after) == ParseNat(s)
  {
    ParseNatIsGrouped(before + s + after);
    ParseNatIsGrouped(s);
    StripAround(before, s, after);
    SameStripSameReading(before + s + after, s);
  }

  /** Whitespace around a string with no whitespace at either end is what `strip()` removes. */
  lemma StripAround(before: string, s: string, after: string)
    requires AllSpace(before) && AllSpace(after)
    requires s != [] && !IsSpace(s[0]) && !IsSpace(s[|s| - 1])
    ensures Strip(before + s + after) == Strip(s)
  {
    assert before + s + after == before + (s + after);
    StripLeftSkips(before, s + after);
    StripRightSkips(s, after);
    StripPlain(s);
  }

  lemma SameStripSameReading(x: string, y: string)
    requires Strip(x) == Strip(y)
    ensures ParseGrouped(x) == ParseGrouped(y)
  {
  }

  /** A leading `+` does not change the number `int()` reads. */
  lemma ParseNatPlus(s: string)
    requires s != [] && AllDigits(s)
    ensures ParseNat("+" + s) == Some(DigitsValue(s))
  {
    var t := "+" + s;
    ParseNatIsGrouped(t);
    StripPlain(t);
    assert Unsigned(t) == s by { assert t[1..] == s; }
    ParseGroupedDigits(t, s);
  }

  /** `int()` accepts a single underscore between digits. */
  lemma ParseNatUnderscore()
    ensures ParseNat("1_0") == Some(10)
  {
    var t := "1_0";
    assert Strip(t) == t by {
      StripLeftSkips([], t);
      StripRightSkips(t, []);
      assert [] + t == t && t + [] == t;
    }
    assert Unsigned(t) == t by { assert t[0] == '1' && t[0] != '+'; }
    assert DigitGroups(t) by { assert t[2..] == "0"; }
    assert Ungroup(t) == "10" by { assert t[1..] == "_0" && "_0"[1..] == "0"; }
    assert DigitsValue("10") == 10 by { assert "10"[..1] == "1"; }
  }

  /** `int()` refuses a doubled underscore. */
  lemma ParseNatDoubleUnderscore()
    ensures ParseNat("1__0") == None
  {
    var u := "1__0";
    assert Strip(u) == u by {
      StripLeftSkips([], u);
      StripRightSkips(u, []);
      assert [] + u == u && u + [] == u;
    }
    assert Unsigned(u) == u by { assert u[0] == '1' && u[0] != '+'; }
    assert !DigitGroups(u) by { assert u[2..] == "_0"; }
  }

  /** `s.split(sep)[-1]`: everything after the last `sep`, or all of `s` without one. */
  function LastSegment(s: string, sep: char): (r: string)
    ensures |r| <= |s|
    ensures sep !in r
  {
    if |s| == 0 then ""
    else if s[|s| - 1] == sep then ""
    else LastSegment(s[..|s| - 1], sep) + [s[|s| - 1]]
  }

  /** The last segment is a suffix of `s`, preceded by the separator unless it is all of `s`. */
  lemma {:induction false} LastSegmentIsSuffix(s: string, sep: char)
    ensures LastSegment(s, sep) == s[|s| - |LastSegment(s, sep)|..]
    ensures |LastSegment(s, sep)| < |s| ==> s[|s| - |LastSegment(s, sep)| - 1] == sep
  {
    if |s| > 0 && s[|s| - 1] != sep {
      var t := s[..|s| - 1];
      LastSegmentIsSuffix(t, sep);
      var r := LastSegment(t, sep);
      assert LastSegment(s, sep) == r + [s[|s| - 1]];
      var k := |t| - |r|;
      assert s[k..] == s[k..|s| - 1] + [s[|s| - 1]];
      assert s[k..|s| - 1] == t[k..];
      if |r| < |t| {
        assert s[k - 1] == t[k - 1];
      }
    }
  }

  /** A string without the separator is its own last segment, whatever precedes the separator. */
  lemma LastSegmentAfter(prefix: string, sep: char, tail: string)
    requires sep !in tail
    ensures LastSegment(prefix + [sep] + tail, sep) == tail
  {
    var s := prefix + [sep] + tail;
    var r := LastSegment(s, sep);
    LastSegmentIsSuffix(s, sep);
    assert s[|s| - |tail| - 1] == sep;
    assert s[|s| - |tail|..] == tail;
  }
}
