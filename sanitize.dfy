/** Text normalisation of server/lib/utils/sanitize.js: accent folding and the
    replacement of characters that would break storage. */
module Sanitize {
  import opened Common
  import opened JsText

  /** The per-character choice of `removeAccents`, one code-point table per base letter,
      tried in the source's order. */
  function FoldChar(c: char, removeDots: bool): char
  {
    var code := c as int;
    if (224 <= code <= 230) || (code == 257 || code == 259 || code == 261) then 'a'
    else if (code == 231 || code == 263 || code == 265 || code == 267 || code == 269) then 'c'
    else if (code == 240 || code == 271 || code == 273) then 'd'
    else if (232 <= code <= 235) || (code == 275 || code == 277 || code == 279 || code == 281 || code == 283) then 'e'
    else if (code == 285 || code == 287 || code == 289 || code == 291) then 'g'
    else if (code == 293 || code == 295) then 'h'
    else if (236 <= code <= 239) || (code == 297 || code == 299 || code == 301 || code == 303 || code == 305) then 'i'
    else if (code == 307 || code == 309) then 'j'
    else if (code == 311 || code == 312) then 'k'
    else if (code == 314 || code == 316 || code == 318 || code == 320 || code == 322) then 'l'
    else if (code == 241 || code == 324 || code == 326 || code == 328 || code == 329 || code == 331) then 'n'
    else if (242 <= code <= 246) || (code == 333 || code == 335 || code == 337 || code == 339) then 'o'
    else if (code == 341 || code == 343 || code == 345) then 'r'
    else if (code == 347 || code == 349 || code == 351 || code == 353) then 's'
    else if (code == 355 || code == 357 || code == 359) then 't'
    else if (249 <= code <= 252) || (code == 361 || code == 363 || code == 365 || code == 367 || code == 369 || code == 371) then 'u'
    else if (code == 253 || code == 375) then 'y'
    else if (code == 378 || code == 380 || code == 382) then 'z'
    else if removeDots && code == 46 then ' '
    else c
  }

  /** The accented letters of each base letter, written out as characters
      (the fixture table of server/test/utils/sanitize.js). */
  function BaseLetter(c: char): (r: Option<char>)
    ensures r.Some? ==> 'a' <= r.value <= 'z'
  {
    if c in "àáâãäåæāăą" then Some('a')
    else if c in "çćĉċč" then Some('c')
    else if c in "ðďđ" then Some('d')
    else if c in "èéêëēĕėęě" then Some('e')
    else if c in "ĝğġģ" then Some('g')
    else if c in "ĥħ" then Some('h')
    else if c in "ìíîïĩīĭįı" then Some('i')
    else if c in "ĳĵ" then Some('j')
    else if c in "ķĸ" then Some('k')
    else if c in "ĺļľŀł" then Some('l')
    else if c in "ñńņňŉŋ" then Some('n')
    else if c in "òóôõöōŏőœ" then Some('o')
    else if c in "ŕŗř" then Some('r')
    else if c in "śŝşš" then Some('s')
    else if c in "ţťŧ" then Some('t')
    else if c in "ùúûüũūŭůűų" then Some('u')
    else if c in "ýŷ" then Some('y')
    else if c in "źżž" then Some('z')
    else None
  }

  predicate IsAccented(c: char)
  {
    BaseLetter(c).Some?
  }

  /** Each letter of `fixture` lies beyond ASCII and folds to `base`. */
  predicate FoldsTo(fixture: string, base: char, removeDots: bool)
  {
    forall i :: 0 <= i < |fixture| ==> 224 <= fixture[i] as int && FoldChar(fixture[i], removeDots) == base
  }

  /** Two fixture runs that fold to the same letter fold to it together. */
  lemma FoldsToConcat(a: string, b: string, base: char, removeDots: bool)
    requires FoldsTo(a, base, removeDots) && FoldsTo(b, base, removeDots)
    ensures FoldsTo(a + b, base, removeDots)
  {
    forall i | 0 <= i < |a + b|
      ensures 224 <= (a + b)[i] as int && FoldChar((a + b)[i], removeDots) == base
    {
      if i >= |a| {
        assert (a + b)[i] == b[i - |a|];
      }
    }
  }

  lemma FoldsA(removeDots: bool)
    ensures FoldsTo("àáâãäåæāăą", 'a', removeDots)
  {
  }

  lemma FoldsC(removeDots: bool)
    ensures FoldsTo("çćĉċč", 'c', removeDots)
  {
  }

  lemma FoldsD(removeDots: bool)
    ensures FoldsTo("ðďđ", 'd', removeDots)
  {
  }

  lemma FoldsE(removeDots: bool)
    ensures FoldsTo("èéêëēĕėęě", 'e', removeDots)
  {
  }

  lemma FoldsG(removeDots: bool)
    ensures FoldsTo("ĝğġģ", 'g', removeDots)
  {
  }

  lemma FoldsH(removeDots: bool)
    ensures FoldsTo("ĥħ", 'h', removeDots)
  {
  }

  lemma FoldsI(removeDots: bool)
    ensures FoldsTo("ìíîïĩīĭįı", 'i', removeDots)
  {
  }

  lemma FoldsJ(removeDots: bool)
    ensures FoldsTo("ĳĵ", 'j', removeDots)
  {
  }

  lemma FoldsK(removeDots: bool)
    ensures FoldsTo("ķĸ", 'k', removeDots)
  {
  }

  lemma FoldsL(removeDots: bool)
    ensures FoldsTo("ĺļľŀł", 'l', removeDots)
  {
  }

  lemma FoldsN(removeDots: bool)
    ensures FoldsTo("ñńņňŉŋ", 'n', removeDots)
  {
  }

  lemma FoldsOGrave(removeDots: bool)
    ensures FoldsTo("òóôõö", 'o', removeDots)
  {
  }

  lemma FoldsOMacron(removeDots: bool)
    ensures FoldsTo("ōŏőœ", 'o', removeDots)
  {
  }

  lemma FoldsO(removeDots: bool)
    ensures FoldsTo("òóôõöōŏőœ", 'o', removeDots)
  {
    FoldsOGrave(removeDots);
    FoldsOMacron(removeDots);
    FoldsToConcat("òóôõö", "ōŏőœ", 'o', removeDots);
    assert "òóôõö" + "ōŏőœ" == "òóôõöōŏőœ";
  }

  lemma FoldsR(removeDots: bool)
    ensures FoldsTo("ŕŗř", 'r', removeDots)
  {
  }

  lemma FoldsS(removeDots: bool)
    ensures FoldsTo("śŝşš", 's', removeDots)
  {
  }

  lemma FoldsT(removeDots: bool)
    ensures FoldsTo("ţťŧ", 't', removeDots)
  {
  }

  lemma FoldsUGrave(removeDots: bool)
    ensures FoldsTo("ùúûüũ", 'u', removeDots)
  {
  }

  lemma FoldsUMacron(removeDots: bool)
    ensures FoldsTo("ūŭůűų", 'u', removeDots)
  {
  }

  lemma FoldsU(removeDots: bool)
    ensures FoldsTo("ùúûüũūŭůűų", 'u', removeDots)
  {
    FoldsUGrave(removeDots);
    FoldsUMacron(removeDots);
    FoldsToConcat("ùúûüũ", "ūŭůűų", 'u', removeDots);
    assert "ùúûüũ" + "ūŭůűų" == "ùúûüũūŭůűų";
  }

  lemma FoldsY(removeDots: bool)
    ensures FoldsTo("ýŷ", 'y', removeDots)
  {
  }

  lemma FoldsZ(removeDots: bool)
    ensures FoldsTo("źżž", 'z', removeDots)
  {
  }

  /** Every accented letter of the table folds to its base letter. */
  lemma AccentedFolds(c: char, removeDots: bool)
    requires IsAccented(c)
    ensures FoldChar(c, removeDots) == BaseLetter(c).value
  {
    FoldsA(removeDots);
    FoldsC(removeDots);
    FoldsD(removeDots);
    FoldsE(removeDots);
    FoldsG(removeDots);
    FoldsH(removeDots);
    FoldsI(removeDots);
    FoldsJ(removeDots);
    FoldsK(removeDots);
    FoldsL(removeDots);
    FoldsN(removeDots);
    FoldsO(removeDots);
    FoldsR(removeDots);
    FoldsS(removeDots);
    FoldsT(removeDots);
    FoldsU(removeDots);
    FoldsY(removeDots);
    FoldsZ(removeDots);
  }

  /** Every other character is kept, except a dot when dots are removed. */
  lemma OthersKept(c: char, removeDots: bool)
    requires !IsAccented(c)
    ensures FoldChar(c, removeDots) == (if removeDots && c == '.' then ' ' else c)
  {
  }

  /** The code tables fold exactly the listed accented letters to their base letter,
      fold '.' to a space only when asked to, and leave every other character alone. */
  lemma FoldCharMatchesTable(c: char, removeDots: bool)
    ensures IsAccented(c) ==> FoldChar(c, removeDots) == BaseLetter(c).value
    ensures !IsAccented(c) ==> FoldChar(c, removeDots) == (if removeDots && c == '.' then ' ' else c)
  {
    if IsAccented(c) {
      AccentedFolds(c, removeDots);
    } else {
      OthersKept(c, removeDots);
    }
  }

  /** Character-wise folding, the `Array.from(str).map(...)` of `removeAccents`. */
  function FoldAll(s: string, removeDots: bool): (r: string)
    ensures |r| == |s|
    ensures forall i :: 0 <= i < |s| ==> r[i] == FoldChar(s[i], removeDots)
  {
    if s == [] then [] else [FoldChar(s[0], removeDots)] + FoldAll(s[1..], removeDots)
  }

  /** `removeAccents(value, removeDots)`: lower-case, trim, then fold each character. */
  function RemoveAccents(value: string, removeDots: bool): (r: string)
    ensures |r| == |Trim(LowerCase(value))|
    ensures forall i :: 0 <= i < |r| ==> r[i] == FoldChar(Trim(LowerCase(value))[i], removeDots)
  {
    FoldAll(Trim(LowerCase(value)), removeDots)
  }

  lemma AsciiNotAccented(c: char)
    requires c as int < 128
    ensures !IsAccented(c)
  {
    FoldsA(false);
    FoldsC(false);
    FoldsD(false);
    FoldsE(false);
    FoldsG(false);
    FoldsH(false);
    FoldsI(false);
    FoldsJ(false);
    FoldsK(false);
    FoldsL(false);
    FoldsN(false);
    FoldsO(false);
    FoldsR(false);
    FoldsS(false);
    FoldsT(false);
    FoldsU(false);
    FoldsY(false);
    FoldsZ(false);
  }

  /** A folded character is neither accented nor, when dots are removed, a dot;
      it is whitespace only when it was whitespace or a removed dot. */
  lemma FoldCharResult(c: char, removeDots: bool)
    ensures !IsAccented(FoldChar(c, removeDots))
    ensures removeDots ==> FoldChar(c, removeDots) != '.'
    ensures IsWhitespace(FoldChar(c, removeDots)) ==> IsWhitespace(c) || (removeDots && c == '.')
  {
    if IsAccented(c) {
      FoldsToLetter(c, removeDots);
      LetterNotAccented(FoldChar(c, removeDots));
    } else {
      OthersKept(c, removeDots);
      AsciiNotAccented(' ');
    }
  }

  lemma FoldsToLetter(c: char, removeDots: bool)
    requires IsAccented(c)
    ensures 'a' <= FoldChar(c, removeDots) <= 'z'
  {
    AccentedFolds(c, removeDots);
  }

  lemma LetterNotAccented(c: char)
    requires 'a' <= c <= 'z'
    ensures !IsAccented(c) && !IsWhitespace(c)
  {
    AsciiNotAccented(c);
  }

  /** No accented letter in `r`, and no dot either when dots are removed. */
  predicate Folded(r: string, removeDots: bool)
  {
    forall i :: 0 <= i < |r| ==> !IsAccented(r[i]) && (removeDots ==> r[i] != '.')
  }

  /** No accented letter survives, nor a dot when dots are removed. */
  lemma RemoveAccentsFoldsEverything(value: string, removeDots: bool)
    ensures Folded(RemoveAccents(value, removeDots), removeDots)
  {
    var t := Trim(LowerCase(value));
    var r := RemoveAccents(value, removeDots);
    forall i | 0 <= i < |r|
      ensures !IsAccented(r[i]) && (removeDots ==> r[i] != '.')
    {
      FoldCharResult(t[i], removeDots);
    }
  }

  /** The result starts and ends with a character that is not whitespace, unless
      that character is a dot turned into a space. */
  lemma RemoveAccentsTrimmed(value: string, removeDots: bool)
    ensures var r := RemoveAccents(value, removeDots);
      r != [] ==>
        (IsWhitespace(r[0]) ==> removeDots && Trim(LowerCase(value))[0] == '.') &&
        (IsWhitespace(r[|r| - 1]) ==> removeDots && Trim(LowerCase(value))[|r| - 1] == '.')
  {
    var t := Trim(LowerCase(value));
    if t != [] {
      FoldCharResult(t[0], removeDots);
      FoldCharResult(t[|t| - 1], removeDots);
    }
  }

  /** Folding a lower-case, trimmed text. */
  lemma FoldAllExamples()
    ensures FoldAll("é", false) == "e"
    ensures FoldAll("à.b", true) == "a b"
    ensures FoldAll("à.b", false) == "a.b"
  {
    FoldAllAcute();
    FoldAllDot(true);
    FoldAllDot(false);
    FoldsPlain();
  }

  lemma FoldAllAcute()
    ensures FoldAll("é", false) == "e"
  {
    assert FoldChar('é', false) == 'e';
  }

  lemma FoldsPlain()
    ensures FoldChar('à', true) == 'a' && FoldChar('à', false) == 'a'
    ensures FoldChar('.', true) == ' ' && FoldChar('.', false) == '.'
    ensures FoldChar('b', true) == 'b' && FoldChar('b', false) == 'b'
  {
  }

  lemma FoldAllDot(removeDots: bool)
    ensures FoldAll("à.b", removeDots) == [FoldChar('à', removeDots), FoldChar('.', removeDots), FoldChar('b', removeDots)]
  {
    var s := "à.b";
    assert s[1..][1..] == "b";
  }

  predicate IsUnallowed(c: char)
  {
    127 <= c as int <= 191
  }

  /** `replaceUnallowed`: every code 127 to 191 becomes a space, the rest is kept. */
  function ReplaceUnallowed(body: string): (r: string)
    ensures |r| == |body|
    ensures forall i :: 0 <= i < |body| ==> !IsUnallowed(r[i])
    ensures forall i :: 0 <= i < |body| ==> IsUnallowed(body[i]) ==> r[i] == ' '
    ensures forall i :: 0 <= i < |body| ==> !IsUnallowed(body[i]) ==> r[i] == body[i]
  {
    if body == [] then []
    else [if IsUnallowed(body[0]) then ' ' else body[0]] + ReplaceUnallowed(body[1..])
  }

  lemma ReplaceUnallowedIdempotent(body: string)
    ensures ReplaceUnallowed(ReplaceUnallowed(body)) == ReplaceUnallowed(body)
  {
    var r := ReplaceUnallowed(body);
    assert ReplaceUnallowed(r) == r by {
      var rr := ReplaceUnallowed(r);
      assert forall i :: 0 <= i < |r| ==> rr[i] == r[i];
    }
  }
}
