/** The JavaScript `String` built-ins the ingestion code relies on, for strings of
    Basic Multilingual Plane characters. Lower-casing is modelled for ASCII,
    Latin-1 and Latin Extended-A, the scripts the federations publish in. */
module JsText {
  import opened Common

  /** ECMAScript WhiteSpace and LineTerminator: what `trim` strips and `\s` matches. */
  predicate IsWhitespace(c: char)
  {
    var n := c as int;
    (9 <= n <= 13) || n == 32 || n == 0xA0 || n == 0x1680 || (0x2000 <= n <= 0x200A)
    || n == 0x2028 || n == 0x2029 || n == 0x202F || n == 0x205F || n == 0x3000 || n == 0xFEFF
  }

  /** The first index at or after `i` that is not whitespace, or `|s|`. */
  function SkipLeading(s: string, i: nat): (j: nat)
    requires i <= |s|
    ensures i <= j <= |s| && (j < |s| ==> !IsWhitespace(s[j]))
    ensures forall k :: i <= k < j ==> IsWhitespace(s[k])
    decreases |s| - i
  {
    if i < |s| && IsWhitespace(s[i]) then SkipLeading(s, i + 1) else i
  }

  /** The end of `s[..j]` once its trailing whitespace is dropped. */
  function SkipTrailing(s: string, j: nat): (e: nat)
    requires j <= |s|
    ensures e <= j && (e > 0 ==> !IsWhitespace(s[e - 1]))
    ensures forall k :: e <= k < j ==> IsWhitespace(s[k])
  {
    if j > 0 && IsWhitespace(s[j - 1]) then SkipTrailing(s, j - 1) else j
  }

  /** `String.prototype.trimStart`. */
  function TrimStart(s: string): (r: string)
    ensures |r| <= |s| && r == s[|s| - |r|..]
    ensures r == [] || !IsWhitespace(r[0])
    ensures forall i :: 0 <= i < |s| - |r| ==> IsWhitespace(s[i])
  {
    s[SkipLeading(s, 0)..]
  }

  /** `String.prototype.trim`. */
  function Trim(s: string): (r: string)
    ensures |r| <= |s|
    ensures r != [] ==> !IsWhitespace(r[0]) && !IsWhitespace(r[|r| - 1])
  {
    var a := SkipLeading(s, 0);
    var e := SkipTrailing(s, |s|);
    if e <= a then [] else s[a..e]
  }

  lemma TrimUntouched(s: string)
    requires s != [] ==> !IsWhitespace(s[0]) && !IsWhitespace(s[|s| - 1])
    ensures Trim(s) == s
  {
  }

  /** `toLowerCase` of one character; U+0130 is the one character that lower-cases
      to two (i followed by a combining dot above). */
  function LowerChar(c: char): (r: string)
    ensures |r| == 1 || c == '\U{130}'
  {
    var n := c as int;
    if (65 <= n <= 90) || (0xC0 <= n <= 0xDE && n != 0xD7) then [(n + 32) as char]
    else if n == 0x130 then ['i', '\U{307}']
    else if (0x100 <= n <= 0x12F || 0x132 <= n <= 0x137 || 0x14A <= n <= 0x177) && n % 2 == 0 then [(n + 1) as char]
    else if (0x139 <= n <= 0x148 || 0x179 <= n <= 0x17E) && n % 2 == 1 then [(n + 1) as char]
    else if n == 0x178 then ['\U{FF}']
    else [c]
  }

  /** `String.prototype.toLowerCase`. */
  function LowerCase(s: string): (r: string)
    ensures |r| >= |s|
  {
    if s == [] then [] else LowerChar(s[0]) + LowerCase(s[1..])
  }

  /** Lower-casing keeps the length when no U+0130 occurs. */
  lemma {:induction false} LowerCaseLength(s: string)
    requires forall i :: 0 <= i < |s| ==> s[i] != '\U{130}'
    ensures |LowerCase(s)| == |s|
  {
    if s != [] {
      LowerCaseLength(s[1..]);
    }
  }

  lemma LowerCaseAppend(s: string, t: string)
    ensures LowerCase(s + t) == LowerCase(s) + LowerCase(t)
  {
    if s == [] {
      assert s + t == t;
    } else {
      assert (s + t)[0] == s[0];
      assert (s + t)[1..] == s[1..] + t;
      LowerCaseAppend(s[1..], t);
    }
  }

  /** Text without upper-case letters is its own lower-case form (here: text of
      ASCII lower-case letters and `_`). */
  lemma {:induction false} LowerCaseOfLower(s: string)
    requires forall i :: 0 <= i < |s| ==> 'a' <= s[i] <= 'z' || s[i] == '_'
    ensures LowerCase(s) == s
  {
    if s != [] {
      LowerCaseOfLower(s[1..]);
    }
  }

  predicate OccursAt(s: string, t: string, k: int)
  {
    0 <= k && k + |t| <= |s| && s[k..k + |t|] == t
  }

  function IndexFrom(s: string, t: string, from: nat): (k: int)
    ensures k == -1 || (from <= k && OccursAt(s, t, k))
    ensures forall j :: from <= j && (k == -1 || j < k) ==> !OccursAt(s, t, j)
    decreases |s| - from
  {
    if from + |t| > |s| then -1
    else if s[from..from + |t|] == t then from
    else IndexFrom(s, t, from + 1)
  }

  /** `String.prototype.indexOf`: the first occurrence of `t`, or -1. */
  function IndexOf(s: string, t: string): (k: int)
    ensures k == -1 || OccursAt(s, t, k)
    ensures forall j :: 0 <= j && (k == -1 || j < k) ==> !OccursAt(s, t, j)
  {
    IndexFrom(s, t, 0)
  }

  /** `String.prototype.includes` (and a regex test on a literal pattern). */
  predicate Includes(s: string, t: string)
  {
    IndexOf(s, t) >= 0
  }

  /** `String.prototype.endsWith`. */
  predicate EndsWith(s: string, t: string)
  {
    |t| <= |s| && s[|s| - |t|..] == t
  }

  /** `String.prototype.lastIndexOf` for a one-character pattern. */
  function LastIndexOf(s: string, c: char): (k: int)
    ensures -1 <= k < |s|
    ensures k >= 0 ==> s[k] == c
    ensures forall j :: k < j < |s| ==> s[j] != c
  {
    if s == [] then -1
    else if s[|s| - 1] == c then |s| - 1
    else LastIndexOf(s[..|s| - 1], c)
  }

  /** `String.prototype.replace` with a string pattern: only the first
      occurrence is replaced. */
  function ReplaceFirst(s: string, pattern: string, replacement: string): (r: string)
    ensures !Includes(s, pattern) ==> r == s
    ensures Includes(s, pattern) ==>
      r == s[..IndexOf(s, pattern)] + replacement + s[IndexOf(s, pattern) + |pattern|..]
  {
    var k := IndexOf(s, pattern);
    if k < 0 then s else s[..k] + replacement + s[k + |pattern|..]
  }

  /** `String.prototype.slice(start, end)`, where a negative bound counts from the end. */
  function Slice(s: string, start: int, end: int): (r: string)
    ensures |r| <= |s|
  {
    var from := if start < 0 then (if |s| + start < 0 then 0 else |s| + start)
                else (if start > |s| then |s| else start);
    var to := if end < 0 then (if |s| + end < 0 then 0 else |s| + end)
              else (if end > |s| then |s| else end);
    if from >= to then [] else s[from..to]
  }

  /** `String.prototype.split` with a non-empty separator. */
  function Split(s: string, sep: string): (parts: seq<string>)
    requires sep != []
    ensures |parts| >= 1
    ensures forall i :: 0 <= i < |parts| ==> !Includes(parts[i], sep)
    decreases |s|
  {
    var k := IndexOf(s, sep);
    if k < 0 then [s]
    else
      assert !OccursAt(s[..k], sep, IndexOf(s[..k], sep)) || IndexOf(s[..k], sep) == -1 by {
        if IndexOf(s[..k], sep) >= 0 {
          var j := IndexOf(s[..k], sep);
          assert s[..k][j..j + |sep|] == s[j..j + |sep|];
          assert OccursAt(s, sep, j);
        }
      }
      [s[..k]] + Split(s[k + |sep|..], sep)
  }

  /** `Array.prototype.join`. */
  function Join(parts: seq<string>, sep: string): string
  {
    if parts == [] then []
    else if |parts| == 1 then parts[0]
    else parts[0] + sep + Join(parts[1..], sep)
  }

  /** Joining what `Split` cut at the same separator gives back the string. */
  lemma {:induction false} JoinSplit(s: string, sep: string)
    requires sep != []
    ensures Join(Split(s, sep), sep) == s
    decreases |s|
  {
    var k := IndexOf(s, sep);
    if k >= 0 {
      var rest := s[k + |sep|..];
      var parts := Split(s, sep);
      assert parts == [s[..k]] + Split(rest, sep);
      assert parts[1..] == Split(rest, sep);
      JoinSplit(rest, sep);
      assert Join(parts, sep) == s[..k] + sep + rest;
      assert s[k..k + |sep|] == sep;
      assert s == s[..k] + s[k..k + |sep|] + rest;
    }
  }

  function DigitValue(c: char): int
  {
    if '0' <= c <= '9' then c as int - '0' as int
    else if 'a' <= c <= 'z' then c as int - 'a' as int + 10
    else if 'A' <= c <= 'Z' then c as int - 'A' as int + 10
    else 36
  }

  predicate IsDigit(c: char, radix: int)
  {
    DigitValue(c) < radix
  }

  /** The longest prefix of `s` made of digits of the given radix. */
  function DigitPrefix(s: string, radix: int): (d: string)
    ensures d <= s
    ensures forall i :: 0 <= i < |d| ==> IsDigit(d[i], radix)
    ensures |d| < |s| ==> !IsDigit(s[|d|], radix)
  {
    if s == [] || !IsDigit(s[0], radix) then [] else [s[0]] + DigitPrefix(s[1..], radix)
  }

  function DigitsValue(d: string, radix: int): int
  {
    if d == [] then 0 else DigitsValue(d[..|d| - 1], radix) * radix + DigitValue(d[|d| - 1])
  }

  /** `parseInt(s)` without a radix: leading whitespace, an optional sign, a `0x`
      prefix for hexadecimal, then the longest run of digits; `None` is NaN. */
  function ParseInt(s: string): (r: Option<int>)
  {
    var t := TrimStart(s);
    if t != [] && t[0] == '-' then
      match ParseUnsigned(t[1..])
      case None => None
      case Some(v) => Some(-v)
    else if t != [] && t[0] == '+' then ParseUnsigned(t[1..])
    else ParseUnsigned(t)
  }

  /** The digits after the sign: a `0x` or `0X` prefix selects hexadecimal. */
  function ParseUnsigned(u: string): (r: Option<int>)
  {
    var hex := |u| >= 2 && u[0] == '0' && (u[1] == 'x' || u[1] == 'X');
    var radix := if hex then 16 else 10;
    var digits := DigitPrefix(if hex then u[2..] else u, radix);
    if digits == [] then None else Some(DigitsValue(digits, radix))
  }

  /** `String(n)` for a natural number. */
  function NatString(n: nat): (s: string)
    ensures s != [] && forall i :: 0 <= i < |s| ==> '0' <= s[i] <= '9'
  {
    if n < 10 then [(n + '0' as int) as char] else NatString(n / 10) + [(n % 10 + '0' as int) as char]
  }

  /** `String(n)` for an integer. */
  function IntString(n: int): string
  {
    if n < 0 then "-" + NatString(-n) else NatString(n)
  }

  lemma {:induction false} NatStringValue(n: nat)
    ensures DigitsValue(NatString(n), 10) == n
  {
    if n >= 10 {
      NatStringValue(n / 10);
      var s := NatString(n);
      assert s[..|s| - 1] == NatString(n / 10);
    }
  }

  lemma DecimalDigitsArePrefix(s: string)
    requires forall i :: 0 <= i < |s| ==> '0' <= s[i] <= '9'
    ensures DigitPrefix(s, 10) == s
  {
    if s != [] {
      DecimalDigitsArePrefix(s[1..]);
    }
  }

  /** `parseInt` reads back what `String` printed. */
  lemma ParseUnsignedString(m: nat)
    ensures ParseUnsigned(NatString(m)) == Some(m)
  {
    var d := NatString(m);
    assert !(|d| >= 2 && d[0] == '0' && (d[1] == 'x' || d[1] == 'X'));
    DecimalDigitsArePrefix(d);
    NatStringValue(m);
  }

  /** Nothing to skip when the text starts with a sign or a digit. */
  lemma TrimStartSignOrDigit(s: string)
    requires s != [] && (s[0] == '-' || '0' <= s[0] <= '9')
    ensures TrimStart(s) == s
  {
    assert !IsWhitespace(s[0]);
    assert SkipLeading(s, 0) == 0;
  }

  /** `parseInt` reads back what `String` printed. */
  lemma ParseIntString(n: int)
    ensures ParseInt(IntString(n)) == Some(n)
  {
    var m: nat := if n < 0 then -n else n;
    var d := NatString(m);
    ParseUnsignedString(m);
    var s := IntString(n);
    TrimStartSignOrDigit(s);
    if n < 0 {
      assert s[1..] == d;
    }
  }
}
