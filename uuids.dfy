/**
 * How Django's `UUIDField` reads a lookup value (`objects.get(id=value)`):
 * the value goes through `uuid.UUID(hex=value)`, and a `ValueError` there
 * surfaces as `ValidationError`. Ids are stored and printed in the
 * canonical form `str(uuid)`: 32 lower-case hex digits grouped 8-4-4-4-12.
 */
module Uuids {
  import opened Wrappers

  predicate IsHexDigit(c: char) {
    '0' <= c <= '9' || 'a' <= c <= 'f' || 'A' <= c <= 'F'
  }

  predicate IsLowerHexDigit(c: char) {
    '0' <= c <= '9' || 'a' <= c <= 'f'
  }

  predicate AllHex(s: string) {
    forall i :: 0 <= i < |s| ==> IsHexDigit(s[i])
  }

  /** The positions of the four dashes in the canonical form. */
  predicate DashAt(i: int) {
    i == 8 || i == 13 || i == 18 || i == 23
  }

  /** `s == str(u)` for some UUID `u`. */
  predicate IsCanonical(s: string) {
    |s| == 36 && forall i :: 0 <= i < 36 ==> if DashAt(i) then s[i] == '-' else IsLowerHexDigit(s[i])
  }

  function Lower(c: char): char {
    if 'A' <= c <= 'F' then (c as int - 'A' as int + 'a' as int) as char else c
  }

  function Upper(c: char): char {
    if 'a' <= c <= 'f' then (c as int - 'a' as int + 'A' as int) as char else c
  }

  function Lowered(s: string): string {
    seq(|s|, i requires 0 <= i < |s| => Lower(s[i]))
  }

  /** `s.upper()` on a string whose only letters are hex digits. */
  function Uppered(s: string): string {
    seq(|s|, i requires 0 <= i < |s| => Upper(s[i]))
  }

  /** `s.replace(pat, '')`: occurrences are removed left to right, without overlap. */
  function RemoveAll(s: string, pat: string): (r: string)
    requires pat != []
    ensures |r| <= |s|
    decreases |s|
  {
    if |s| < |pat| then s
    else if s[..|pat|] == pat then RemoveAll(s[|pat|..], pat)
    else [s[0]] + RemoveAll(s[1..], pat)
  }

  predicate IsBrace(c: char) {
    c == '{' || c == '}'
  }

  /** `s.strip('{}')`. */
  function StripBraces(s: string): (r: string)
    ensures |r| <= |s|
    decreases |s|
  {
    if s == [] then s
    else if IsBrace(s[0]) then StripBraces(s[1..])
    else if IsBrace(s[|s| - 1]) then StripBraces(s[..|s| - 1])
    else s
  }

  /** `s.replace('-', '')`. */
  function WithoutDashes(s: string): string
  {
    if s == [] then [] else (if s[0] == '-' then [] else [s[0]]) + WithoutDashes(s[1..])
  }

  /** The digits `uuid.UUID(hex=s)` reads: `urn:` and `uuid:` removed, braces stripped, dashes removed. */
  function HexOf(s: string): string {
    WithoutDashes(StripBraces(RemoveAll(RemoveAll(s, "urn:"), "uuid:")))
  }

  /** `str(uuid.UUID(hex=h))` for 32 hex digits. */
  function Format(h: string): string
    requires |h| == 32
  {
    var l := Lowered(h);
    l[..8] + "-" + l[8..12] + "-" + l[12..16] + "-" + l[16..20] + "-" + l[20..]
  }

  /**
   * The canonical id a lookup value names, or `None` for the
   * `ValidationError` a malformed value raises: after `HexOf` exactly 32
   * hex digits must remain.
   */
  function Parse(s: string): (r: Option<string>)
    ensures r.Some? ==> IsCanonical(r.value)
    ensures r.Some? <==> |HexOf(s)| == 32 && AllHex(HexOf(s))
  {
    var h := HexOf(s);
    if |h| == 32 && AllHex(h) then
      FormatIsCanonical(h);
      Some(Format(h))
    else None
  }

  /** 32 hex digits format as a canonical id. */
  lemma FormatIsCanonical(h: string)
    requires |h| == 32 && AllHex(h)
    ensures IsCanonical(Format(h))
  {
    var l := Lowered(h);
    var f := Format(h);
    forall i | 0 <= i < 36
      ensures if DashAt(i) then f[i] == '-' else IsLowerHexDigit(f[i])
    {
      if i < 8 { assert f[i] == l[i]; }
      else if 8 < i < 13 { assert f[i] == l[i - 1]; }
      else if 13 < i < 18 { assert f[i] == l[i - 2]; }
      else if 18 < i < 23 { assert f[i] == l[i - 3]; }
      else if 23 < i { assert f[i] == l[i - 4]; }
    }
  }

  /** The 32 digits of a canonical id, its dashes left out. */
  function Digits(c: string): string
    requires |c| == 36
  {
    c[..8] + (c[9..13] + (c[14..18] + (c[19..23] + c[24..])))
  }

  lemma {:induction false} WithoutDashesAppend(a: string, b: string)
    ensures WithoutDashes(a + b) == WithoutDashes(a) + WithoutDashes(b)
  {
    if a != [] {
      assert (a + b)[1..] == a[1..] + b;
      WithoutDashesAppend(a[1..], b);
    } else {
      assert a + b == b;
    }
  }

  lemma {:induction false} WithoutDashesKeeps(s: string)
    requires '-' !in s
    ensures WithoutDashes(s) == s
  {
    if s != [] {
      WithoutDashesKeeps(s[1..]);
      assert s == [s[0]] + s[1..];
    }
  }

  /** Removing a pattern containing `:` from a string without `:` changes nothing. */
  lemma {:induction false} RemoveAllAbsent(s: string, pat: string)
    requires ':' in pat && ':' !in s
    ensures RemoveAll(s, pat) == s
    decreases |s|
  {
    if |s| >= |pat| {
      var j :| 0 <= j < |pat| && pat[j] == ':';
      assert s[..|pat|][j] != ':';
      RemoveAllAbsent(s[1..], pat);
      assert s == [s[0]] + s[1..];
    }
  }

  /** Removing the dashes of `s[i..]` whose first dash is at `j` keeps everything before it. */
  lemma SplitAtDash(s: string, i: nat, j: nat)
    requires i <= j < |s| && s[j] == '-' && '-' !in s[i..j]
    ensures WithoutDashes(s[i..]) == s[i..j] + WithoutDashes(s[j + 1..])
  {
    assert s[i..] == s[i..j] + s[j..];
    WithoutDashesAppend(s[i..j], s[j..]);
    WithoutDashesKeeps(s[i..j]);
    assert s[j..][0] == '-' && s[j..][1..] == s[j + 1..];
    assert WithoutDashes(s[j..]) == WithoutDashes(s[j + 1..]);
  }

  /** A stretch of a canonical id between two dashes holds no dash. */
  lemma NoDashBetween(c: string, lo: nat, hi: nat)
    requires IsCanonical(c) && lo <= hi <= 36
    requires forall i :: lo <= i < hi ==> !DashAt(i)
    ensures '-' !in c[lo..hi]
  {
    forall i | 0 <= i < hi - lo
      ensures c[lo..hi][i] != '-'
    {
      assert c[lo..hi][i] == c[lo + i];
      assert !DashAt(lo + i);
    }
  }

  /** Dropping the dashes of a canonical id leaves its 32 digits. */
  lemma DashesOfCanonical(c: string)
    requires IsCanonical(c)
    ensures WithoutDashes(c) == Digits(c)
  {
    assert DashAt(8) && DashAt(13) && DashAt(18) && DashAt(23);
    NoDashBetween(c, 0, 8);
    NoDashBetween(c, 9, 13);
    NoDashBetween(c, 14, 18);
    NoDashBetween(c, 19, 23);
    NoDashBetween(c, 24, 36);
    DashesAt(c);
  }

  /** Dropping the dashes of a string with dashes exactly where a canonical id has them. */
  lemma DashesAt(c: string)
    requires |c| == 36 && c[8] == '-' && c[13] == '-' && c[18] == '-' && c[23] == '-'
    requires '-' !in c[..8] && '-' !in c[9..13] && '-' !in c[14..18] && '-' !in c[19..23] && '-' !in c[24..]
    ensures WithoutDashes(c) == Digits(c)
  {
    assert c[0..] == c && c[0..8] == c[..8];
    SplitAtDash(c, 0, 8);
    SplitAtDash(c, 9, 13);
    SplitAtDash(c, 14, 18);
    SplitAtDash(c, 19, 23);
    WithoutDashesKeeps(c[24..]);
  }

  /** The digits of a canonical id are 32 hex digits that format back to it. */
  lemma FormatDigits(c: string)
    requires IsCanonical(c)
    ensures |Digits(c)| == 32 && AllHex(Digits(c))
    ensures Format(Digits(c)) == c
  {
    var h := Digits(c);
    forall i | 0 <= i < 32
      ensures IsLowerHexDigit(h[i])
    {
      if i < 8 { assert h[i] == c[i]; }
      else if i < 12 { assert h[i] == c[i + 1]; }
      else if i < 16 { assert h[i] == c[i + 2]; }
      else if i < 20 { assert h[i] == c[i + 3]; }
      else { assert h[i] == c[i + 4]; }
    }
    assert Lowered(h) == h;
    var f := Format(h);
    forall i | 0 <= i < 36
      ensures f[i] == c[i]
    {
      if i < 8 { assert f[i] == h[i]; }
      else if 8 < i < 13 { assert f[i] == h[i - 1]; }
      else if 13 < i < 18 { assert f[i] == h[i - 2]; }
      else if 18 < i < 23 { assert f[i] == h[i - 3]; }
      else if 23 < i { assert f[i] == h[i - 4]; }
    }
  }

  /** A string without `:` and without a brace at either end loses only its dashes. */
  lemma HexOfPlain(s: string)
    requires ':' !in s && s != [] && !IsBrace(s[0]) && !IsBrace(s[|s| - 1])
    ensures HexOf(s) == WithoutDashes(s)
  {
    RemoveAllAbsent(s, "urn:");
    RemoveAllAbsent(s, "uuid:");
  }

  /** A value whose digits are those of a canonical id names that id. */
  lemma ParseOfDigits(s: string, c: string)
    requires IsCanonical(c) && HexOf(s) == Digits(c)
    ensures Parse(s) == Some(c)
  {
    FormatDigits(c);
  }

  /** A canonical id reads back as itself: `str(UUID(str(u))) == str(u)`. */
  lemma ParseCanonical(c: string)
    requires IsCanonical(c)
    ensures Parse(c) == Some(c)
  {
    assert ':' !in c by {
      forall i | 0 <= i < |c| ensures c[i] != ':' { }
    }
    assert !DashAt(0) && !DashAt(35);
    HexOfPlain(c);
    DashesOfCanonical(c);
    ParseOfDigits(c, c);
  }

  /** Braces around a canonical id are stripped: `{...}` names the same id. */
  lemma ParseBraced(c: string)
    requires IsCanonical(c)
    ensures Parse("{" + c + "}") == Some(c)
  {
    var s := "{" + c + "}";
    assert ':' !in s by {
      forall i | 0 <= i < |s| ensures s[i] != ':' {
        if 0 < i < |s| - 1 { assert s[i] == c[i - 1]; }
      }
    }
    RemoveAllAbsent(s, "urn:");
    RemoveAllAbsent(s, "uuid:");
    assert !DashAt(0) && !DashAt(35);
    assert s[1..] == c + "}" && (c + "}")[..|c|] == c;
    assert StripBraces(c) == c;
    assert StripBraces(c + "}") == c;
    assert HexOf(s) == WithoutDashes(c);
    DashesOfCanonical(c);
    ParseOfDigits(s, c);
  }

  lemma {:induction false} WithoutDashesUpper(s: string)
    ensures WithoutDashes(Uppered(s)) == Uppered(WithoutDashes(s))
  {
    if s != [] {
      WithoutDashesUpper(s[1..]);
      assert Uppered(s)[1..] == Uppered(s[1..]);
      var head := if s[0] == '-' then [] else [s[0]];
      assert Uppered(head + WithoutDashes(s[1..])) == Uppered(head) + Uppered(WithoutDashes(s[1..]));
    }
  }

  /** Upper-casing hex digits changes neither their validity nor their canonical form. */
  lemma FormatUpper(h: string)
    requires |h| == 32 && AllHex(h)
    ensures AllHex(Uppered(h)) && Format(Uppered(h)) == Format(h)
  {
    assert Lowered(Uppered(h)) == Lowered(h);
  }

  /** The upper-case spelling of a canonical id names the same id. */
  lemma ParseUpperCase(c: string)
    requires IsCanonical(c)
    ensures Parse(Uppered(c)) == Some(c)
  {
    var u := Uppered(c);
    assert ':' !in u by {
      forall i | 0 <= i < |u| ensures u[i] != ':' { }
    }
    assert !DashAt(0) && !DashAt(35);
    HexOfPlain(u);
    WithoutDashesUpper(c);
    DashesOfCanonical(c);
    FormatDigits(c);
    FormatUpper(Digits(c));
  }

  /** Strings that are not 32 hex digits once read are refused. */
  lemma ParseRejects()
    ensures Parse("abc") == None
    ensures Parse("") == None
  {
    assert RemoveAll("abc", "urn:") == "abc";
    assert RemoveAll("abc", "uuid:") == "abc";
  }
}
