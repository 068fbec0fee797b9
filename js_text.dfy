// The JavaScript string built-ins the components rely on: `trim`, `length`
// (UTF-16 code units), `String(n)` on a non-negative integer, ASCII
// `toLowerCase`, `repeat`, `Array.prototype.join`, and substring occurrence
// for stating what a generated text contains.

module JsText {

  // ---------------------------------------------------------------------
  // Whitespace and trim

  /** ECMAScript WhiteSpace and LineTerminator code points, which `trim` removes. */
  predicate IsWhitespace(c: char) {
    c == '\t' || c == '\n' || c == '\U{000B}' || c == '\U{000C}' || c == '\r' ||
    c == ' ' || c == '\U{00A0}' || c == '\U{1680}' ||
    ('\U{2000}' <= c <= '\U{200A}') ||
    c == '\U{2028}' || c == '\U{2029}' || c == '\U{202F}' || c == '\U{205F}' ||
    c == '\U{3000}' || c == '\U{FEFF}'
  }

  predicate AllWhitespace(s: string) {
    forall i :: 0 <= i < |s| ==> IsWhitespace(s[i])
  }

  /** `s` holds at least one character that is not whitespace. */
  predicate HasVisible(s: string) {
    exists i :: 0 <= i < |s| && !IsWhitespace(s[i])
  }

  /** `String.prototype.trimStart`: drops the leading whitespace. */
  function TrimStart(s: string): (r: string)
    ensures |r| <= |s|
    decreases |s|
  {
    if |s| > 0 && IsWhitespace(s[0]) then TrimStart(s[1..]) else s
  }

  /** `String.prototype.trimEnd`: drops the trailing whitespace. */
  function TrimEnd(s: string): (r: string)
    ensures |r| <= |s|
    decreases |s|
  {
    if |s| > 0 && IsWhitespace(s[|s| - 1]) then TrimEnd(s[..|s| - 1]) else s
  }

  /** `String.prototype.trim`. */
  function Trim(s: string): (r: string)
    ensures |r| <= |s|
    ensures r == [] || (!IsWhitespace(r[0]) && !IsWhitespace(r[|r| - 1]))
  {
    TrimStartSpec(s);
    TrimEndSpec(TrimStart(s));
    TrimEnd(TrimStart(s))
  }

  /** trimStart keeps a suffix, drops only whitespace, and leaves the text
      empty or starting with a visible character. */
  lemma {:induction false} TrimStartSpec(s: string)
    ensures TrimStart(s) == s[|s| - |TrimStart(s)|..]
    ensures AllWhitespace(s[..|s| - |TrimStart(s)|])
    ensures TrimStart(s) == [] || !IsWhitespace(TrimStart(s)[0])
    decreases |s|
  {
    if |s| > 0 && IsWhitespace(s[0]) {
      TrimStartSpec(s[1..]);
      var k := |s| - |TrimStart(s)|;
      forall i | 0 <= i < k ensures IsWhitespace(s[..k][i]) {
        if i > 0 { assert s[..k][i] == s[1..][..k - 1][i - 1]; }
      }
    }
  }

  /** trimEnd keeps a prefix, drops only whitespace, and leaves the text
      empty or ending with a visible character. */
  lemma {:induction false} TrimEndSpec(s: string)
    ensures TrimEnd(s) == s[..|TrimEnd(s)|]
    ensures AllWhitespace(s[|TrimEnd(s)|..])
    ensures TrimEnd(s) == [] || !IsWhitespace(TrimEnd(s)[|TrimEnd(s)| - 1])
    decreases |s|
  {
    if |s| > 0 && IsWhitespace(s[|s| - 1]) {
      var s' := s[..|s| - 1];
      TrimEndSpec(s');
      var k := |TrimEnd(s)|;
      forall j | 0 <= j < |s| - k ensures IsWhitespace(s[k..][j]) {
        if k + j < |s| - 1 { assert s[k..][j] == s'[k..][j]; }
      }
    }
  }

  /** Trim keeps a contiguous part of its input, drops only whitespace around
      it, and leaves no whitespace at either end. */
  lemma TrimProperties(s: string)
    ensures exists a, b :: 0 <= a <= b <= |s| && Trim(s) == s[a..b]
              && AllWhitespace(s[..a]) && AllWhitespace(s[b..])
    ensures Trim(s) == [] || (!IsWhitespace(Trim(s)[0]) && !IsWhitespace(Trim(s)[|Trim(s)| - 1]))
  {
    var t := TrimStart(s);
    TrimStartSpec(s);
    TrimEndSpec(t);
    var a := |s| - |t|;
    var b := a + |TrimEnd(t)|;
    assert t == s[a..];
    assert Trim(s) == t[..b - a];
    assert forall k :: 0 <= k < b - a ==> t[..b - a][k] == s[a..b][k];
    assert Trim(s) == s[a..b];
    assert forall k :: 0 <= k < |s| - b ==> s[b..][k] == t[|TrimEnd(t)|..][k];
    assert s[b..] == t[|TrimEnd(t)|..];
    if Trim(s) != [] {
      assert Trim(s)[0] == t[0];
    }
  }

  /** trimStart keeps every visible character. */
  lemma {:induction false} TrimStartKeepsVisible(s: string)
    ensures HasVisible(TrimStart(s)) <==> HasVisible(s)
    decreases |s|
  {
    if |s| > 0 && IsWhitespace(s[0]) {
      TrimStartKeepsVisible(s[1..]);
      if HasVisible(s) {
        var i :| 0 <= i < |s| && !IsWhitespace(s[i]);
        assert s[1..][i - 1] == s[i];
      }
      if HasVisible(s[1..]) {
        var i :| 0 <= i < |s[1..]| && !IsWhitespace(s[1..][i]);
        assert s[i + 1] == s[1..][i];
      }
    }
  }

  /** trimEnd leaves something exactly when there is a visible character. */
  lemma TrimEndEmptyIff(s: string)
    ensures |TrimEnd(s)| > 0 <==> HasVisible(s)
  {
    var r := TrimEnd(s);
    TrimEndSpec(s);
    if HasVisible(s) {
      var i :| 0 <= i < |s| && !IsWhitespace(s[i]);
    }
    if |r| > 0 {
      assert s[|r| - 1] == r[|r| - 1];
    }
  }

  /** Trimming leaves something exactly when the text has a visible character. */
  lemma TrimEmptyIff(s: string)
    ensures |Trim(s)| > 0 <==> HasVisible(s)
  {
    TrimStartKeepsVisible(s);
    TrimEndEmptyIff(TrimStart(s));
  }

  /** Trailing whitespace of a suffix that still has a visible character never
      reaches back into the text before it. */
  lemma {:induction false} TrimEndAppend(a: string, b: string)
    requires HasVisible(b)
    ensures TrimEnd(a + b) == a + TrimEnd(b)
    decreases |b|
  {
    var i :| 0 <= i < |b| && !IsWhitespace(b[i]);
    TrimEndSpec(b);
    assert (a + b)[|a + b| - 1] == b[|b| - 1];
    if IsWhitespace(b[|b| - 1]) {
      var b' := b[..|b| - 1];
      assert b'[i] == b[i];
      assert (a + b)[..|a + b| - 1] == a + b';
      TrimEndAppend(a, b');
    }
  }

  /** Whitespace appended to a text is all that trimEnd takes off it. */
  lemma {:induction false} TrimEndDropsWhitespace(a: string, w: string)
    requires AllWhitespace(w)
    ensures TrimEnd(a + w) == TrimEnd(a)
    decreases |w|
  {
    if |w| > 0 {
      assert (a + w)[..|a + w| - 1] == a + w[..|w| - 1];
      TrimEndDropsWhitespace(a, w[..|w| - 1]);
    } else {
      assert a + w == a;
    }
  }

  /** trimEnd never reaches back past a visible character. */
  lemma TrimEndKeepsVisibleEnd(a: string, b: string)
    requires |a| > 0 && !IsWhitespace(a[|a| - 1])
    ensures a <= TrimEnd(a + b)
  {
    var s := a + b;
    TrimEndSpec(s);
    var r := TrimEnd(s);
    assert forall k :: |r| <= k < |s| ==> IsWhitespace(s[k]) by {
      forall k | |r| <= k < |s| ensures IsWhitespace(s[k]) {
        assert s[|r|..][k - |r|] == s[k];
      }
    }
    assert s[|a| - 1] == a[|a| - 1];
    assert s[..|a|] == a;
  }

  /** A text that starts with a visible character is left alone by trimStart. */
  lemma TrimStartVisibleHead(s: string)
    requires |s| > 0 && !IsWhitespace(s[0])
    ensures TrimStart(s) == s
  {
  }

  // ---------------------------------------------------------------------
  // `length`: UTF-16 code units

  /** JavaScript counts a character outside the Basic Multilingual Plane as
      two code units (a surrogate pair). */
  function CodeUnits(c: char): (n: nat)
    ensures 1 <= n <= 2
  {
    if c as int > 0xFFFF then 2 else 1
  }

  /** `s.length`. */
  function Utf16Length(s: string): (n: nat)
    ensures |s| <= n <= 2 * |s|
    ensures (forall i :: 0 <= i < |s| ==> s[i] as int <= 0xFFFF) ==> n == |s|
  {
    if s == [] then 0 else CodeUnits(s[0]) + Utf16Length(s[1..])
  }

  // ---------------------------------------------------------------------
  // Decimal rendering of a non-negative integer (template interpolation)

  predicate IsDigit(c: char) {
    '0' <= c <= '9'
  }

  function DigitChar(d: nat): (c: char)
    requires d < 10
    ensures IsDigit(c) && c as int - '0' as int == d
  {
    ('0' as int + d) as char
  }

  /** `${n}` for a natural number: its decimal digits, no sign, no leading zero. */
  function NatToString(n: nat): (r: string)
    ensures |r| > 0
    ensures forall i :: 0 <= i < |r| ==> IsDigit(r[i])
    ensures (n < 10) <==> (|r| == 1)
  {
    if n < 10 then [DigitChar(n)] else NatToString(n / 10) + [DigitChar(n % 10)]
  }

  /** Different numbers render differently. */
  lemma {:induction false} NatToStringInjective(m: nat, n: nat)
    requires NatToString(m) == NatToString(n)
    ensures m == n
    decreases m
  {
    var s := NatToString(m);
    assert s[|s| - 1] == DigitChar(if m < 10 then m else m % 10);
    assert s[|s| - 1] == DigitChar(if n < 10 then n else n % 10);
    if m >= 10 {
      assert n >= 10;
      assert NatToString(m / 10) == s[..|s| - 1] == NatToString(n / 10);
      NatToStringInjective(m / 10, n / 10);
    }
  }

  /** The number a run of decimal digits denotes, read left to right. */
  function DecimalValue(s: string): int {
    if s == [] then 0 else DecimalValue(s[..|s| - 1]) * 10 + (s[|s| - 1] as int - '0' as int)
  }

  /** Reading the rendering back gives the number, and the rendering starts
      with '0' only for zero itself (no leading zero). */
  lemma {:induction false} NatToStringValue(n: nat)
    ensures DecimalValue(NatToString(n)) == n
    ensures NatToString(n)[0] == '0' <==> n == 0
    decreases n
  {
    var s := NatToString(n);
    if n < 10 {
      assert s[..0] == [];
    } else {
      NatToStringValue(n / 10);
      var h := NatToString(n / 10);
      assert s[..|s| - 1] == h;
      assert s[|s| - 1] == DigitChar(n % 10);
      assert s[0] == h[0];
    }
  }

  // ---------------------------------------------------------------------
  // Other built-ins

  /** `toLowerCase` on the ASCII letters; other characters are kept. */
  function ToLowerAscii(s: string): (r: string)
    ensures |r| == |s|
    ensures forall i :: 0 <= i < |s| ==> (r[i] == if 'A' <= s[i] <= 'Z' then (s[i] as int + 32) as char else s[i])
  {
    if s == [] then []
    else [if 'A' <= s[0] <= 'Z' then (s[0] as int + 32) as char else s[0]] + ToLowerAscii(s[1..])
  }

  /** `c.repeat(n)` for a one-character string `c`. */
  function Repeat(c: char, n: nat): (r: string)
    ensures |r| == n && forall i :: 0 <= i < n ==> r[i] == c
  {
    if n == 0 then [] else [c] + Repeat(c, n - 1)
  }

  /** `parts.join(sep)`. */
  function Join(parts: seq<string>, sep: string): (r: string)
    ensures parts != [] ==> parts[0] <= r
  {
    if parts == [] then []
    else if |parts| == 1 then parts[0]
    else Join(parts[..|parts| - 1], sep) + sep + parts[|parts| - 1]
  }

  // ---------------------------------------------------------------------
  // Substring occurrence

  predicate OccursAt(needle: string, hay: string, i: nat) {
    i + |needle| <= |hay| && hay[i..i + |needle|] == needle
  }

  /** `hay.includes(needle)`. */
  predicate Contains(hay: string, needle: string) {
    exists i: nat | i <= |hay| :: OccursAt(needle, hay, i)
  }

  /** A text contains every text it is built from. */
  lemma ContainsPart(a: string, b: string, c: string)
    ensures Contains(a + b + c, b)
  {
    assert (a + b + c)[|a|..|a| + |b|] == b;
    assert OccursAt(b, a + b + c, |a|);
  }

  /** A joined text contains each of its parts. */
  lemma {:induction false} JoinContains(parts: seq<string>, sep: string, i: nat)
    requires i < |parts|
    ensures Contains(Join(parts, sep), parts[i])
    decreases |parts|
  {
    var n := |parts| - 1;
    if n == 0 {
      ContainsPart([], parts[0], []);
      assert [] + parts[0] + [] == parts[0];
    } else {
      var front := Join(parts[..n], sep);
      if i == n {
        ContainsPart(front + sep, parts[n], []);
        assert front + sep + parts[n] + [] == Join(parts, sep);
      } else {
        JoinContains(parts[..n], sep, i);
        assert parts[..n][i] == parts[i];
        ContainsPart([], front, sep + parts[n]);
        assert [] + front + (sep + parts[n]) == Join(parts, sep);
        ContainsTransitive(Join(parts, sep), front, parts[i]);
      }
    }
  }

  /** Containment carries over to a text that contains the container. */
  lemma ContainsTransitive(hay: string, mid: string, needle: string)
    requires Contains(hay, mid) && Contains(mid, needle)
    ensures Contains(hay, needle)
  {
    var i: nat :| i <= |hay| && OccursAt(mid, hay, i);
    var j: nat :| j <= |mid| && OccursAt(needle, mid, j);
    assert i + j + |needle| <= |hay|;
    forall k | 0 <= k < |needle| ensures hay[i + j + k] == needle[k] {
      assert mid[j..j + |needle|][k] == mid[j + k];
      assert hay[i..i + |mid|][j + k] == hay[i + j + k];
    }
    assert hay[i + j..i + j + |needle|] == needle;
    assert OccursAt(needle, hay, i + j);
  }
}
