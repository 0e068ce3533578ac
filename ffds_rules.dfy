/** The text and calendar rules of the FFDS provider (server/lib/providers/ffds.js
    and its older copy lib/providers/ffds.js): the couple-name splitter, the
    contest-title cleaner, the season window, and the `NumManif` href pattern. */
module FfdsRules {
  import opened Common
  import opened JsText
  import opened Sanitize
  import opened Competitions
  import opened Headers

  // ---------------------------------------------------------------------------
  // cleanNames

  /** Upper-case by char code: A-Z and À-Ý. */
  predicate IsUpper(c: char)
  {
    (65 <= c as int <= 90) || (192 <= c as int <= 221)
  }

  /** Space, apostrophe and hyphen separate the parts of a name. */
  predicate IsSeparator(c: char)
  {
    c == ' ' || c == '\'' || c == '-'
  }

  /** Everything else is treated as lower-case. */
  predicate IsLower(c: char)
  {
    !IsUpper(c) && !IsSeparator(c)
  }

  /** The state of the per-dancer scan: the given-name and surname buffers, and
      whether the previous character was upper-case. */
  datatype Buffers = Buffers(first: string, last: string, prevUpper: bool)

  /** One character of the scan. Upper-case letters go to the surname; a
      separator follows the previous letter's buffer; a lower-case letter goes to
      the given name, taking with it the upper-case letter just before it. */
  function Step(b: Buffers, c: char): Buffers
    requires b.prevUpper ==> b.last != []
  {
    if IsUpper(c) then Buffers(b.first, b.last + [c], true)
    else if IsSeparator(c) then
      if b.prevUpper then Buffers(b.first, b.last + [c], false) else Buffers(b.first + [c], b.last, false)
    else if b.prevUpper then Buffers(b.first + [b.last[|b.last| - 1], c], b.last[..|b.last| - 1], false)
    else Buffers(b.first + [c], b.last, false)
  }

  /** The scan of a whole dancer text. After an upper-case letter, that letter
      ends the surname buffer. */
  function Scan(s: string): (b: Buffers)
    ensures b.prevUpper ==> s != [] && b.last != [] && b.last[|b.last| - 1] == s[|s| - 1]
  {
    if s == [] then Buffers("", "", false) else Step(Scan(s[..|s| - 1]), s[|s| - 1])
  }

  /** One more character is one more step. */
  lemma ScanSnoc(s: string, c: char)
    ensures Scan(s + [c]) == Step(Scan(s), c)
  {
    assert (s + [c])[..|s|] == s;
  }

  /** A step puts its character in one buffer, or moves a letter between them. */
  lemma StepConserves(b: Buffers, c: char)
    requires b.prevUpper ==> b.last != []
    ensures multiset(Step(b, c).first) + multiset(Step(b, c).last) == multiset(b.first) + multiset(b.last) + multiset{c}
    ensures |Step(b, c).first| + |Step(b, c).last| == |b.first| + |b.last| + 1
  {
    if !IsUpper(c) && !IsSeparator(c) && b.prevUpper {
      assert b.last == b.last[..|b.last| - 1] + [b.last[|b.last| - 1]];
    }
  }

  /** Every character lands in exactly one buffer. */
  lemma {:induction false} ScanConserves(s: string)
    ensures multiset(Scan(s).first) + multiset(Scan(s).last) == multiset(s)
    ensures |Scan(s).first| + |Scan(s).last| == |s|
  {
    if s != [] {
      var p := s[..|s| - 1];
      var c := s[|s| - 1];
      assert s == p + [c];
      ScanConserves(p);
      StepConserves(Scan(p), c);
    }
  }

  /** The surname buffer holds upper-case letters and separators only. */
  lemma {:induction false} ScanSurname(s: string)
    ensures forall i :: 0 <= i < |Scan(s).last| ==> !IsLower(Scan(s).last[i])
  {
    if s != [] {
      var p := s[..|s| - 1];
      ScanSurname(p);
      var b := Scan(p);
      var last := Scan(s).last;
      forall i | 0 <= i < |last|
        ensures !IsLower(last[i])
      {
        if i < |b.last| {
          assert last[i] == b.last[i];
        }
      }
    }
  }

  /** Every lower-case character ends in the given name. */
  lemma ScanGivenName(s: string)
    ensures forall c :: IsLower(c) ==> multiset(Scan(s).first)[c] == multiset(s)[c]
  {
    ScanSurname(s);
    ScanConserves(s);
    var last := Scan(s).last;
    forall c | IsLower(c)
      ensures multiset(Scan(s).first)[c] == multiset(s)[c]
    {
      assert c !in last;
    }
  }

  /** "LE Jo": the surname's capitals and the separator go to the surname
      buffer, and the given name's capital moves over at its first small letter. */
  lemma ScanExample()
    ensures Scan("LE Jo") == Buffers("Jo", "LE ", false)
  {
    ScanSnoc("LE", ' ');
    assert "LE" + [' '] == "LE ";
    ScanSnoc("LE ", 'J');
    assert "LE " + ['J'] == "LE J";
    ScanSnoc("LE J", 'o');
    assert "LE J" + ['o'] == "LE Jo";
  }

  /** The server copy removes dots from names; the older copy calls
      `removeAccents` without that flag and keeps them. */
  function RemovesDots(tree: Tree): bool
  {
    tree == Server
  }

  /** One dancer: tags stripped, scanned, and printed as "given surname", each
      part accent-folded. */
  function DancerName(tree: Tree, libs: Libs, raw: string): string
  {
    var b := Scan(libs.stripTags(raw));
    RemoveAccents(b.first, RemovesDots(tree)) + " " + RemoveAccents(b.last, RemovesDots(tree))
  }

  /** `cleanNames(names)`: "couple inconnu" when the lower-cased text contains it;
      otherwise the two dancers around the first `<br>`, title-cased and joined by
      " - ". A text without `<br>` has no second dancer, and `titleize(undefined)`
      is `titleize('')`. */
  function CleanNamesOf(tree: Tree, libs: Libs, names: string): string
  {
    if Includes(LowerCase(names), "couple inconnu") then "couple inconnu"
    else
      var parts := Split(names, "<br>");
      libs.titleize(DancerName(tree, libs, parts[0])) + " - " +
      libs.titleize(if |parts| >= 2 then DancerName(tree, libs, parts[1]) else "")
  }

  lemma NoDotIn(r: string)
    requires Folded(r, true)
    ensures '.' !in r
  {
  }

  /** The server copy never leaves a dot in a dancer's name. */
  lemma DancerNameNoDots(libs: Libs, raw: string)
    ensures '.' !in DancerName(Server, libs, raw)
  {
    var b := Scan(libs.stripTags(raw));
    RemoveAccentsFoldsEverything(b.first, true);
    RemoveAccentsFoldsEverything(b.last, true);
    NoDotIn(RemoveAccents(b.first, true));
    NoDotIn(RemoveAccents(b.last, true));
  }

  /** The scan loop of one dancer, as the source writes it with `slice`. */
  method SplitDancer(dancer: string) returns (first: string, last: string)
    ensures first == Scan(dancer).first && last == Scan(dancer).last
  {
    first, last := "", "";
    var prevUpper := false;
    var i := 0;
    while i < |dancer|
      invariant 0 <= i <= |dancer|
      invariant Scan(dancer[..i]) == Buffers(first, last, prevUpper)
    {
      assert dancer[..i + 1] == dancer[..i] + [dancer[i]];
      assert dancer[..i + 1][..i] == dancer[..i];
      var c := dancer[i];
      if IsUpper(c) {
        last := last + [c];
        prevUpper := true;
      } else if IsSeparator(c) {
        if prevUpper {
          last := last + [c];
        } else {
          first := first + [c];
        }
        prevUpper := false;
      } else if prevUpper {
        assert dancer[i - 1..i + 1] == [last[|last| - 1], c];
        last := last[..|last| - 1];
        first := first + dancer[i - 1..i + 1];
        prevUpper := false;
      } else {
        first := first + [c];
      }
      i := i + 1;
    }
    assert dancer[..i] == dancer;
  }

  method Dancer(tree: Tree, libs: Libs, raw: string) returns (r: string)
    ensures r == DancerName(tree, libs, raw)
  {
    var first, last := SplitDancer(libs.stripTags(raw));
    r := RemoveAccents(first, RemovesDots(tree)) + " " + RemoveAccents(last, RemovesDots(tree));
  }

  /** `cleanNames`: the unknown-couple short cut, then the two dancers. */
  method CleanNames(tree: Tree, libs: Libs, names: string) returns (r: string)
    ensures r == CleanNamesOf(tree, libs, names)
  {
    if Includes(LowerCase(names), "couple inconnu") {
      return "couple inconnu";
    }
    var parts := Split(names, "<br>");
    var a := Dancer(tree, libs, parts[0]);
    var b := "";
    if |parts| >= 2 {
      b := Dancer(tree, libs, parts[1]);
    }
    r := libs.titleize(a) + " - " + libs.titleize(b);
  }

  // ---------------------------------------------------------------------------
  // cleanContest

  /** `cleanContest(original)`: the first "Compétition à points", then the first
      "Compétition sans points", are cut out, and the rest trimmed. */
  function CleanContest(original: string): (r: string)
    ensures |r| <= |original|
    ensures r != [] ==> !IsWhitespace(r[0]) && !IsWhitespace(r[|r| - 1])
  {
    Trim(ReplaceFirst(ReplaceFirst(original, "Compétition à points", ""), "Compétition sans points", ""))
  }

  /** A title with neither label is only trimmed. */
  lemma CleanContestPlain(original: string)
    requires !Includes(original, "Compétition à points") && !Includes(original, "Compétition sans points")
    ensures CleanContest(original) == Trim(original)
  {
  }

  // ---------------------------------------------------------------------------
  // The season window

  /** `isFirstHalf(date)`: up to 14 August included (months are 0-based). */
  predicate IsFirstHalf(d: Date)
  {
    d.month < 7 || (d.month == 7 && d.day <= 14)
  }

  /** `isWithinSeason(year, date)`: the second half of `year` or the first half of
      the year after. */
  predicate IsWithinSeason(year: int, d: Date)
  {
    (year == d.year && !IsFirstHalf(d)) || (year + 1 == d.year && IsFirstHalf(d))
  }

  /** The season a day belongs to. */
  function SeasonOf(d: Date): int
  {
    if IsFirstHalf(d) then d.year - 1 else d.year
  }

  /** Each day lies in exactly one season. */
  lemma SeasonUnique(year: int, d: Date)
    ensures IsWithinSeason(year, d) <==> year == SeasonOf(d)
  {
  }

  lemma SeasonBoundary()
    ensures IsFirstHalf(Date(2017, 7, 14)) && !IsFirstHalf(Date(2017, 7, 15))
    ensures IsWithinSeason(2016, Date(2017, 7, 14)) && IsWithinSeason(2017, Date(2017, 7, 15))
  {
  }

  // ---------------------------------------------------------------------------
  // The `NumManif` pattern of a header's href

  predicate IsAsciiDigit(c: char)
  {
    '0' <= c <= '9'
  }

  /** The longest run of ASCII digits ending the string. */
  function TrailingDigits(s: string): (d: string)
    ensures |d| <= |s| && d == s[|s| - |d|..]
    ensures forall i :: 0 <= i < |d| ==> IsAsciiDigit(d[i])
    ensures |d| < |s| ==> !IsAsciiDigit(s[|s| - |d| - 1])
  {
    if s == [] || !IsAsciiDigit(s[|s| - 1]) then [] else TrailingDigits(s[..|s| - 1]) + [s[|s| - 1]]
  }

  /** `/NumManif=(\d+)$/` matches at `p`. */
  predicate NumManifAt(s: string, p: int)
  {
    0 <= p && p + 9 < |s| && s[p..p + 9] == "NumManif=" &&
    forall j :: p + 9 <= j < |s| ==> IsAsciiDigit(s[j])
  }

  /** The first group of `href.match(/NumManif=(\d+)$/)`, or `None` for no match. */
  function NumManif(href: string): Option<string>
  {
    var d := TrailingDigits(href);
    if d != [] && EndsWith(href[..|href| - |d|], "NumManif=") then Some(d) else None
  }

  /** `NumManif` is the regex: it matches exactly when some position does, and
      then captures what follows that position's `=`. */
  lemma NumManifIsMatch(s: string)
    ensures NumManif(s).Some? <==> exists p :: NumManifAt(s, p)
    ensures forall p :: NumManifAt(s, p) ==> NumManif(s) == Some(s[p + 9..])
  {
    var d := TrailingDigits(s);
    var k := |s| - |d|;
    if NumManif(s).Some? {
      var p := k - 9;
      assert s[..k][k - 9..] == s[p..p + 9];
      assert NumManifAt(s, p);
    }
    forall p | NumManifAt(s, p)
      ensures NumManif(s) == Some(s[p + 9..])
    {
      assert s[p + 8] == '=';
      assert k == p + 9;
      assert s[..k][k - 9..] == s[p..p + 9];
    }
  }

  lemma NumManifExample()
    ensures NumManif("Resultats.php?NumManif=1432") == Some("1432")
  {
    var s := "Resultats.php?NumManif=1432";
    assert s[14..23] == "NumManif=";
    assert s[23..] == "1432";
    assert NumManifAt(s, 14);
    NumManifIsMatch(s);
  }

  /** The digits must end the href. */
  lemma NumManifNotAtEnd()
    ensures NumManif("x.php?NumManif=14&y=1") == None
  {
    var t := "x.php?NumManif=14&y=1";
    assert t[..|t| - 1] == "x.php?NumManif=14&y=";
    assert TrailingDigits(t[..|t| - 1]) == [];
    assert TrailingDigits(t) == "1";
    assert t[..|t| - 1][11] == 'n';
  }
}
