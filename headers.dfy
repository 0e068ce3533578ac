/** What the two providers share when they read a competition header: the
    libraries they call without inspecting (title-casing, tag stripping, the
    md5-of-slug fingerprint, sprintf url templating), the removal of the first
    parenthesised word of a place, and the `YYYYMMDD` day stamp the id is built from. */
module Headers {
  import opened Common
  import opened JsText
  import opened Competitions

  /** Library calls the model does not look into:
      `titleize`, `stripTags` and `slugify` (underscore.string), `md5`,
      `format(template, arg)` for `sprintf`, and `searchKey(s)` for
      `encodeURIComponent(s.toUpperCase())`. */
  datatype Libs = Libs(
    titleize: string -> string,
    stripTags: string -> string,
    slugify: string -> string,
    md5: string -> string,
    format: (string, string) -> string,
    searchKey: string -> string)

  /** `\w`: ASCII letters, digits and underscore. */
  predicate IsWordChar(c: char)
  {
    ('a' <= c <= 'z') || ('A' <= c <= 'Z') || ('0' <= c <= '9') || c == '_'
  }

  predicate AllSpaces(s: string, i: int, j: int)
    requires 0 <= i <= j <= |s|
  {
    forall k :: i <= k < j ==> IsWhitespace(s[k])
  }

  predicate AllWord(s: string, i: int, j: int)
    requires 0 <= i <= j <= |s|
  {
    forall k :: i <= k < j ==> IsWordChar(s[k])
  }

  /** The end of the longest run of whitespace starting at `i`. */
  function SkipSpaces(s: string, i: nat): (j: nat)
    requires i <= |s|
    ensures i <= j <= |s| && AllSpaces(s, i, j)
    ensures j < |s| ==> !IsWhitespace(s[j])
    decreases |s| - i
  {
    if i < |s| && IsWhitespace(s[i]) then SkipSpaces(s, i + 1) else i
  }

  /** The end of the longest run of word characters starting at `i`. */
  function SkipWord(s: string, i: nat): (j: nat)
    requires i <= |s|
    ensures i <= j <= |s| && AllWord(s, i, j)
    ensures j < |s| ==> !IsWordChar(s[j])
    decreases |s| - i
  {
    if i < |s| && IsWordChar(s[i]) then SkipWord(s, i + 1) else i
  }

  lemma {:induction false} SkipSpacesEnds(s: string, i: nat, j: nat)
    requires i <= j <= |s| && AllSpaces(s, i, j) && (j < |s| ==> !IsWhitespace(s[j]))
    ensures SkipSpaces(s, i) == j
    decreases j - i
  {
    if i < j {
      SkipSpacesEnds(s, i + 1, j);
    }
  }

  lemma {:induction false} SkipWordEnds(s: string, i: nat, j: nat)
    requires i <= j <= |s| && AllWord(s, i, j) && (j < |s| ==> !IsWordChar(s[j]))
    ensures SkipWord(s, i) == j
    decreases j - i
  {
    if i < j {
      SkipWordEnds(s, i + 1, j);
    }
  }

  /** The regular expression `/\(\s*\w+\s*\)/` matches `s[p..e]`. */
  predicate ParenMatch(s: string, p: int, e: int)
  {
    0 <= p && p + 3 <= e <= |s| && s[p] == '(' && s[e - 1] == ')' &&
    exists a, b :: p + 1 <= a < b <= e - 1 && AllSpaces(s, p + 1, a) && AllWord(s, a, b) && AllSpaces(s, b, e - 1)
  }

  /** Where the match starting at `p` ends, or -1. Whitespace and word characters
      are disjoint, so each part of the pattern takes its longest run. */
  function ParenEnd(s: string, p: nat): int
  {
    if p >= |s| || s[p] != '(' then -1
    else
      var a := SkipSpaces(s, p + 1);
      var b := SkipWord(s, a);
      var c := SkipSpaces(s, b);
      if a < b && c < |s| && s[c] == ')' then c + 1 else -1
  }

  lemma ParenMatchEnds(s: string, p: nat, e: int)
    requires ParenMatch(s, p, e)
    ensures ParenEnd(s, p) == e
  {
    var a, b :| p + 1 <= a < b <= e - 1 && AllSpaces(s, p + 1, a) && AllWord(s, a, b) && AllSpaces(s, b, e - 1);
    SkipSpacesEnds(s, p + 1, a);
    SkipWordEnds(s, a, b);
    SkipSpacesEnds(s, b, e - 1);
  }

  lemma ParenEndMatches(s: string, p: nat)
    requires ParenEnd(s, p) >= 0
    ensures ParenMatch(s, p, ParenEnd(s, p))
  {
    var a := SkipSpaces(s, p + 1);
    var b := SkipWord(s, a);
    assert AllSpaces(s, p + 1, a) && AllWord(s, a, b) && AllSpaces(s, b, ParenEnd(s, p) - 1);
  }

  /** Backtracking cannot find another match: `ParenEnd` is exactly the regex. */
  lemma ParenEndIsMatch(s: string, p: nat, e: int)
    ensures ParenEnd(s, p) == e && e >= 0 <==> ParenMatch(s, p, e)
  {
    if ParenMatch(s, p, e) {
      ParenMatchEnds(s, p, e);
    }
    if ParenEnd(s, p) == e && e >= 0 {
      ParenEndMatches(s, p);
    }
  }

  /** The first position at or after `from` where the pattern matches, or -1. */
  function FirstParen(s: string, from: nat): (p: int)
    ensures p == -1 || (from <= p < |s| && ParenEnd(s, p) >= 0)
    decreases |s| - from
  {
    if from >= |s| then -1
    else if ParenEnd(s, from) >= 0 then from
    else FirstParen(s, from + 1)
  }

  /** No match starts between `from` and the position found. */
  lemma {:induction false} FirstParenIsFirst(s: string, from: nat, q: nat)
    requires from <= q && (FirstParen(s, from) == -1 || q < FirstParen(s, from))
    ensures ParenEnd(s, q) < 0
    decreases |s| - from
  {
    if from >= |s| {
      NoParenPastEnd(s, q);
    } else {
      NoParenAtStart(s, from);
      if from < q {
        FirstParenIsFirst(s, from + 1, q);
      }
    }
  }

  lemma NoParenPastEnd(s: string, q: nat)
    requires q >= |s|
    ensures ParenEnd(s, q) < 0
  {
  }

  /** Helper: when the search from `p` does not stop at `p`, no match starts there. */
  lemma NoParenAtStart(s: string, p: nat)
    requires p < |s| && (FirstParen(s, p) == -1 || p < FirstParen(s, p))
    ensures ParenEnd(s, p) < 0
    ensures FirstParen(s, p) == FirstParen(s, p + 1)
  {
  }

  /** `s.replace(/\(\s*\w+\s*\)/, '')`: the leftmost parenthesised word is cut out. */
  function RemoveParenthesised(s: string): (r: string)
    ensures |r| <= |s|
  {
    var p := FirstParen(s, 0);
    if p < 0 then s else s[..p] + s[ParenEnd(s, p)..]
  }

  /** The string is untouched when the regex matches nowhere; otherwise exactly
      the leftmost match is removed. */
  lemma RemoveParenthesisedLeftmost(s: string)
    ensures (forall p, e :: !ParenMatch(s, p, e)) ==> RemoveParenthesised(s) == s
    ensures (exists p, e :: ParenMatch(s, p, e)) ==>
      exists p, e :: ParenMatch(s, p, e) && RemoveParenthesised(s) == s[..p] + s[e..] &&
        forall q, f :: 0 <= q < p ==> !ParenMatch(s, q, f)
  {
    var p := FirstParen(s, 0);
    if p >= 0 {
      var e := ParenEnd(s, p);
      ParenEndIsMatch(s, p, e);
      forall q, f | 0 <= q < p
        ensures !ParenMatch(s, q, f)
      {
        FirstParenIsFirst(s, 0, q);
        ParenEndIsMatch(s, q, f);
      }
    } else {
      forall q, f
        ensures !ParenMatch(s, q, f)
      {
        if 0 <= q {
          FirstParenIsFirst(s, 0, q);
          ParenEndIsMatch(s, q, f);
        }
      }
    }
  }

  /** A position without an opening parenthesis starts no match. */
  lemma FirstParenSkips(s: string, from: nat)
    requires from < |s| && s[from] != '('
    ensures FirstParen(s, from) == FirstParen(s, from + 1)
  {
  }

  /** The match in the example below: the spaces and the word inside the parentheses. */
  lemma ParenExampleMatch(s: string)
    requires s == "Paris ( 75 )"
    ensures ParenEnd(s, 6) == 12
  {
    assert s[6] == '(' && s[7] == ' ' && s[8] == '7' && s[9] == '5' && s[10] == ' ' && s[11] == ')';
    assert SkipSpaces(s, 7) == 8;
    assert SkipWord(s, 8) == 10;
    assert SkipSpaces(s, 10) == 11;
  }

  lemma ParenExampleFirst(s: string)
    requires s == "Paris ( 75 )"
    ensures FirstParen(s, 0) == 6
  {
    ParenExampleMatch(s);
    assert FirstParen(s, 6) == 6;
    FirstParenSkips(s, 5);
    FirstParenSkips(s, 4);
    FirstParenSkips(s, 3);
    FirstParenSkips(s, 2);
    FirstParenSkips(s, 1);
    FirstParenSkips(s, 0);
  }

  lemma RemovedAt(s: string, p: nat, e: nat)
    requires FirstParen(s, 0) == p && ParenEnd(s, p) == e
    ensures RemoveParenthesised(s) == s[..p] + s[e..]
  {
  }

  /** An example taken from a federation listing. */
  lemma RemoveParenthesisedExample(s: string)
    requires s == "Paris ( 75 )"
    ensures RemoveParenthesised(s) == "Paris "
  {
    ParenExampleFirst(s);
    ParenExampleMatch(s);
    RemovedAt(s, 6, 12);
    assert s[..6] == "Paris " && s[12..] == [];
  }

  /** One decimal digit: the last digit of `n`. */
  function Digit(n: nat): char
  {
    ((n % 10) + '0' as int) as char
  }

  /** A day moment.js can print with `YYYYMMDD`. */
  predicate Printable(d: Date)
  {
    0 <= d.year <= 9999 && 0 <= d.month <= 11 && 1 <= d.day <= 31
  }

  /** A valid moment of a listing, as a calendar day. */
  type Day = d: Date | Printable(d) witness Date(1970, 0, 1)

  /** `date.format('YYYYMMDD')`: four-digit year, then the 1-based month and the
      day on two digits each. */
  function Ymd(d: Date): (r: string)
    requires Printable(d)
    ensures |r| == 8 && forall i :: 0 <= i < 8 ==> '0' <= r[i] <= '9'
  {
    var y: nat := d.year;
    var m: nat := d.month + 1;
    var day: nat := d.day;
    [Digit(y / 10 / 10 / 10), Digit(y / 10 / 10), Digit(y / 10), Digit(y), Digit(m / 10), Digit(m), Digit(day / 10), Digit(day)]
  }

  /** A number is its last digit and the number of tens. */
  lemma TensAndUnits(n: nat, k: nat)
    requires n / 10 == k / 10 && n % 10 == k % 10
    ensures n == k
  {
  }

  lemma DigitInjective(a: nat, b: nat)
    requires Digit(a) == Digit(b)
    ensures a % 10 == b % 10
  {
  }

  /** Four digits determine a number below 10000. */
  lemma DigitsDetermine(n: nat, k: nat)
    requires n < 10000 && k < 10000
    requires Digit(n / 10 / 10 / 10) == Digit(k / 10 / 10 / 10) && Digit(n / 10 / 10) == Digit(k / 10 / 10)
    requires Digit(n / 10) == Digit(k / 10) && Digit(n) == Digit(k)
    ensures n == k
  {
    DigitInjective(n, k);
    ThreeDigitsDetermine(n / 10, k / 10);
    TensAndUnits(n, k);
  }

  /** Three digits determine a number below 1000. */
  lemma ThreeDigitsDetermine(n: nat, k: nat)
    requires n < 1000 && k < 1000
    requires Digit(n / 10 / 10) == Digit(k / 10 / 10) && Digit(n / 10) == Digit(k / 10) && Digit(n) == Digit(k)
    ensures n == k
  {
    DigitInjective(n, k);
    TwoDigitsDetermine(n / 10, k / 10);
    TensAndUnits(n, k);
  }

  /** Two digits determine a number below 100. */
  lemma TwoDigitsDetermine(n: nat, k: nat)
    requires n < 100 && k < 100
    requires Digit(n / 10) == Digit(k / 10) && Digit(n) == Digit(k)
    ensures n == k
  {
    DigitInjective(n / 10, k / 10);
    DigitInjective(n, k);
    TensAndUnits(n, k);
  }

  /** Two printable days with the same stamp are the same day, so headers made
      of the same place on the same day, and only those, share an id. */
  lemma YmdInjective(d1: Date, d2: Date)
    requires Printable(d1) && Printable(d2)
    ensures Ymd(d1) == Ymd(d2) <==> d1 == d2
  {
    if Ymd(d1) == Ymd(d2) {
      var s1, s2 := Ymd(d1), Ymd(d2);
      assert s1[0] == s2[0] && s1[1] == s2[1] && s1[2] == s2[2] && s1[3] == s2[3];
      DigitsDetermine(d1.year, d2.year);
      assert s1[4] == s2[4] && s1[5] == s2[5];
      TwoDigitsDetermine(d1.month + 1, d2.month + 1);
      assert s1[6] == s2[6] && s1[7] == s2[7];
      TwoDigitsDetermine(d1.day, d2.day);
    }
  }

  /** The id of a competition: `md5(slugify(place) + date.format('YYYYMMDD'))`. */
  function Fingerprint(libs: Libs, place: string, d: Date): string
    requires Printable(d)
  {
    libs.md5(libs.slugify(place) + Ymd(d))
  }

  /** Places with the same slug on the same day get the same id, whatever
      `slugify` and `md5` compute. */
  lemma SameSlugSameFingerprint(libs: Libs, p1: string, d1: Date, p2: string, d2: Date)
    requires Printable(d1) && Printable(d2)
    requires libs.slugify(p1) == libs.slugify(p2) && d1 == d2
    ensures Fingerprint(libs, p1, d1) == Fingerprint(libs, p2, d2)
  {
  }

  /** With a collision-free `md5`, two ids coincide exactly when the places have
      the same slug and the days are the same: the stamp has a fixed length, so
      the hashed text splits back into slug and day. */
  lemma FingerprintSame(libs: Libs, p1: string, d1: Date, p2: string, d2: Date)
    requires Printable(d1) && Printable(d2)
    requires forall a, b :: libs.md5(a) == libs.md5(b) ==> a == b
    ensures Fingerprint(libs, p1, d1) == Fingerprint(libs, p2, d2) <==>
      libs.slugify(p1) == libs.slugify(p2) && d1 == d2
  {
    var s1, s2 := libs.slugify(p1), libs.slugify(p2);
    if Fingerprint(libs, p1, d1) == Fingerprint(libs, p2, d2) {
      var t1, t2 := s1 + Ymd(d1), s2 + Ymd(d2);
      assert t1 == t2;
      assert |s1| == |s2|;
      assert t1[..|s1|] == s1 && t2[..|s2|] == s2;
      assert t1[|s1|..] == Ymd(d1) && t2[|s2|..] == Ymd(d2);
      YmdInjective(d1, d2);
    }
  }
}
