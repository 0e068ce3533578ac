# palmares-server ingestion core, modelled in Dafny

Palmarès gathers dance-sport competition results from two federations:
- FFDS, the French federation. Its provider scrapes HTML listings.
- WDSF, the world federation. Its provider reads a CSV calendar and HTML ranking pages.

The competitions found are merged by id and sorted by date. New ones are stored in MongoDB and served by a small REST API.

This project models the core of that pipeline:
- **Competition model.** The constructor and its JSON view (`Competitions`).
- **Text normalisation.** Accent folding and removal of unallowed characters (`Sanitize`). The JavaScript string built-ins the code relies on are in `JsText`.
- **Provider helpers.**
  - The FFDS name/contest/season rules (`FfdsRules`).
  - The header rules both providers share: the parenthesised-word regex and the `YYYYMMDD` stamp (`Headers`).
- **Shared utilities.**
  - The merge engine and the request-error handler (`Merge`).
  - The serial promise runner (`Promises`).
  - The lodash-style list helpers (`Seqs`).
- **The two providers.** FFDS covers both copies of the code, selected by `Common.Tree`: `server/lib/` and the older `lib/` (`Ffds`). WDSF is `Wdsf`.
- **The update orchestrator.** It includes the single-flight behaviour of concurrent `update` calls (`Palmares`).
- **MongoDB storage.** The pure helpers of both copies (`Mongo`).
- **Competition API endpoints** (`Api`).

**How the model is written.**
- Objects the code mutates in place are Dafny classes: `Competition`, the FFDS `Provider` with its cached groups, and `Palmares` with its cached ids and in-flight state.
- The loops of the source are methods. Each method is proved against a specification function on values, and the properties the source promises are proved as lemmas about those functions.
- Network pages, library calls and storage results are parameters (function values):
  - the HTTP pages a provider fetches;
  - `titleize`, `stripTags`, `slugify`, `md5` and `sprintf`;
  - the result of a MongoDB call.
- Dates are taken as already parsed; "today" and the current year are parameters.

## Model

| member | source | states |
|---|---|---|
| Competitions.DateLeTotal | server/lib/utils/index.js:33 | the date order `sortBy('date')` uses is total and antisymmetric |
| Competitions.Build | server/lib/models/competition.js:12-26 | construction fails exactly when the id is missing, with the "no id" error |
| Competitions.BuildFields | server/lib/models/competition.js:12-26 | any present id (even empty) is accepted; the given fields are copied, `contests` defaults to [], a non-array `dataUrls` becomes [url] |
| Competitions.BuildAttrsOf | server/lib/models/competition.js:12-33 | rebuilding a competition from its own JSON gives the same JSON |
| Competitions.BuildExamples | server/test/models/provider.js:5-43 | the test cases: no id throws; a string `dataUrls` is replaced by [url]; an array is kept even without the url |
| Competitions.Competition.ToJson | server/lib/models/competition.js:31-33 | the JSON view carries every field unchanged |
| Competitions.Competition.FromJson | server/lib/models/competition.js:12-26 | a fresh competition whose JSON is the given one |
| Competitions.Competition.Create | server/lib/models/competition.js:12-26 | `new Competition(attrs)` fails iff the id is missing; otherwise a fresh object whose JSON is `Build(attrs)` |
| Competitions.Jsons | server/lib/models/competition.js:31-33 | the JSON of a list has one entry per competition |
| Competitions.JsonsAt | server/lib/models/competition.js:31-33 | entry k of the JSON list is competition k's JSON |
| JsText.Trim | server/lib/utils/sanitize.js:9 | `trim` drops only whitespace and leaves no whitespace at either end |
| JsText.TrimStart | server/lib/providers/ffds.js:206 | `parseInt` skips only the leading whitespace |
| JsText.TrimUntouched | server/lib/utils/sanitize.js:9 | text with no whitespace at either end is unchanged by `trim` |
| JsText.LowerCase | server/lib/utils/sanitize.js:9 | `toLowerCase` never shortens the text |
| JsText.LowerCaseLength | server/lib/utils/sanitize.js:9 | without U+0130, lower-casing keeps the length |
| JsText.LowerCaseAppend | server/lib/storages/mongodb.js:55 | lower-casing distributes over concatenation |
| JsText.LowerCaseOfLower | server/lib/storages/mongodb.js:55 | text of lower-case letters and `_` is its own lower-case form |
| JsText.IndexOf | lib/providers/wdsf.js:73 | `indexOf` returns the first occurrence, or -1 when there is none |
| JsText.LastIndexOf | lib/providers/wdsf.js:37 | `lastIndexOf` returns the last occurrence of the character, or -1 |
| JsText.ReplaceFirst | lib/providers/ffds.js:91 | a string pattern replaces only its first occurrence; no occurrence leaves the text as is |
| JsText.Slice | lib/providers/wdsf.js:37 | `slice` never yields more than the text |
| JsText.Split | server/lib/providers/ffds.js:44 | `split` gives at least one part, and no part contains the separator |
| JsText.JoinSplit | server/lib/providers/ffds.js:44 | joining the parts of a split with the separator gives back the text |
| JsText.DigitPrefix | server/lib/providers/ffds.js:206 | the longest run of digits that starts the text |
| JsText.NatString | lib/providers/wdsf.js:82 | `String(n)` is a non-empty run of decimal digits |
| JsText.NatStringValue | lib/providers/wdsf.js:82 | the digits of `String(n)` denote n |
| JsText.ParseUnsignedString | lib/providers/wdsf.js:82 | `parseInt` reads back the digits `String` prints |
| JsText.ParseIntString | server/lib/providers/ffds.js:206 | `parseInt(String(n)) == n` for every integer, negative ones included |
| Sanitize.BaseLetter | server/lib/utils/sanitize.js:12-65 | the base letter of every accented letter of the table is in a..z |
| Sanitize.FoldsToConcat | server/lib/utils/sanitize.js:13-65 | two runs that fold to one letter fold to it together |
| Sanitize.FoldsA | server/lib/utils/sanitize.js:13-14 | à..æ, ā, ă, ą fold to 'a' |
| Sanitize.FoldsC | server/lib/utils/sanitize.js:16-17 | ç, ć, ĉ, ċ, č fold to 'c' |
| Sanitize.FoldsD | server/lib/utils/sanitize.js:19-20 | ð, ď, đ fold to 'd' |
| Sanitize.FoldsE | server/lib/utils/sanitize.js:22-23 | è..ë, ē, ĕ, ė, ę, ě fold to 'e' |
| Sanitize.FoldsG | server/lib/utils/sanitize.js:25-26 | ĝ, ğ, ġ, ģ fold to 'g' |
| Sanitize.FoldsH | server/lib/utils/sanitize.js:28-29 | ĥ, ħ fold to 'h' |
| Sanitize.FoldsI | server/lib/utils/sanitize.js:31-32 | ì..ï, ĩ, ī, ĭ, į, ı fold to 'i' |
| Sanitize.FoldsJ | server/lib/utils/sanitize.js:34-35 | ĳ, ĵ fold to 'j' |
| Sanitize.FoldsK | server/lib/utils/sanitize.js:37-38 | ķ, ĸ fold to 'k' |
| Sanitize.FoldsL | server/lib/utils/sanitize.js:40-41 | ĺ, ļ, ľ, ŀ, ł fold to 'l' |
| Sanitize.FoldsN | server/lib/utils/sanitize.js:43-44 | ñ, ń, ņ, ň, ŉ, ŋ fold to 'n' |
| Sanitize.FoldsOGrave | server/lib/utils/sanitize.js:46-47 | ò..ö fold to 'o' |
| Sanitize.FoldsOMacron | server/lib/utils/sanitize.js:46-47 | ō, ŏ, ő, œ fold to 'o' |
| Sanitize.FoldsO | server/lib/utils/sanitize.js:46-47 | the whole 'o' row folds to 'o' |
| Sanitize.FoldsR | server/lib/utils/sanitize.js:49-50 | ŕ, ŗ, ř fold to 'r' |
| Sanitize.FoldsS | server/lib/utils/sanitize.js:52-53 | ś, ŝ, ş, š fold to 's' |
| Sanitize.FoldsT | server/lib/utils/sanitize.js:55-56 | ţ, ť, ŧ fold to 't' |
| Sanitize.FoldsUGrave | server/lib/utils/sanitize.js:58-59 | ù..ü, ũ fold to 'u' |
| Sanitize.FoldsUMacron | server/lib/utils/sanitize.js:58-59 | ū, ŭ, ů, ű, ų fold to 'u' |
| Sanitize.FoldsU | server/lib/utils/sanitize.js:58-59 | the whole 'u' row folds to 'u' |
| Sanitize.FoldsY | server/lib/utils/sanitize.js:61-62 | ý, ŷ fold to 'y' |
| Sanitize.FoldsZ | server/lib/utils/sanitize.js:64-65 | ź, ż, ž fold to 'z' |
| Sanitize.AccentedFolds | server/lib/utils/sanitize.js:12-65 | every accented letter of the table folds to its base letter |
| Sanitize.OthersKept | server/lib/utils/sanitize.js:66-69 | every other character is kept, except a dot when dots are removed, which becomes a space |
| Sanitize.FoldCharMatchesTable | server/lib/utils/sanitize.js:12-69 | the fold is exactly the table: base letter for listed letters, identity (dot rule aside) elsewhere |
| Sanitize.FoldAll | server/lib/utils/sanitize.js:10-70 | the map/join folds character by character and keeps the length |
| Sanitize.RemoveAccents | server/lib/utils/sanitize.js:8-71 | the result is the trimmed lower-cased text, folded character by character |
| Sanitize.AsciiNotAccented | server/lib/utils/sanitize.js:12-65 | no ASCII character is in the accent table |
| Sanitize.FoldCharResult | server/lib/utils/sanitize.js:12-69 | a folded character is never accented, never a dot when dots are removed, and whitespace only if it came from whitespace or a removed dot |
| Sanitize.FoldsToLetter | server/lib/utils/sanitize.js:12-65 | an accented letter folds to a letter a..z |
| Sanitize.LetterNotAccented | server/lib/utils/sanitize.js:12-65 | a base letter is neither accented nor whitespace |
| Sanitize.RemoveAccentsFoldsEverything | server/lib/utils/sanitize.js:8-71 | no accented letter survives `removeAccents`, nor a dot when dots are removed |
| Sanitize.RemoveAccentsTrimmed | server/lib/utils/sanitize.js:8-71 | the result has no whitespace at either end unless a removed dot was there |
| Sanitize.FoldAllExamples | server/lib/utils/sanitize.js:8-71 | 'é' becomes 'e'; "à.b" becomes "a b" with dots removed and "a.b" without |
| Sanitize.FoldAllAcute | server/lib/utils/sanitize.js:22-23 | 'é' folds to 'e' |
| Sanitize.FoldsPlain | server/lib/utils/sanitize.js:13-69 | 'à' folds to 'a'; '.' becomes ' ' only with dots removed; 'b' is kept |
| Sanitize.FoldAllDot | server/lib/utils/sanitize.js:10-70 | folding a text folds each of its characters |
| Sanitize.ReplaceUnallowed | server/lib/utils/sanitize.js:80-84 | same length; codes 127..191 become spaces, everything else is kept |
| Sanitize.ReplaceUnallowedIdempotent | server/lib/utils/sanitize.js:80-84 | replacing unallowed characters twice is replacing them once |
| Seqs.AppendNewKeepsPrefix | server/lib/utils/index.js:39-41 | pushing urls unless present keeps the existing ones in front |
| Seqs.AppendNewElements | server/lib/utils/index.js:39-41 | after the pushes, a url is present iff it was there or was pushed |
| Seqs.AppendNewNoDuplicates | server/lib/utils/index.js:39-41 | a list without duplicates stays without duplicates |
| Seqs.FirstIndex | server/lib/providers/ffds.js:305 | the position of a value's first occurrence, or the length when it does not occur |
| Seqs.AppendNewFirstOrder | server/lib/providers/ffds.js:305 | pushing values unless present lists them in the order of their first occurrences |
| Seqs.Uniq | server/lib/providers/ffds.js:305 | `uniq` keeps each value once, keeps exactly the values given, and lists them in the order of their first occurrences |
| Seqs.Map | lib/palmares.js:36 | `map` keeps the length |
| Seqs.MapMember | lib/palmares.js:36 | a value is in the map iff some element maps to it |
| Seqs.Filter | lib/palmares.js:39 | `filter` never lengthens |
| Seqs.FilterMember | lib/palmares.js:39 | `filter` keeps exactly the elements that pass |
| Seqs.FilterAll | lib/palmares.js:49 | a filter everything passes returns its input |
| Seqs.MapFilterMember | lib/providers/wdsf.js:139-140 | filter-then-map yields a value iff some passing element maps to it |
| Seqs.FilterAppend | lib/palmares.js:49 | filtering a concatenation filters each part |
| Seqs.RecordAllAppend | server/lib/providers/ffds.js:201-212 | recording two runs of rows is recording their concatenation |
| Seqs.FirstByKeyNext | server/lib/providers/ffds.js:201-212 | the next heat's rows are recorded on top of the earlier heats |
| Seqs.FirstByKeyKeys | server/lib/providers/ffds.js:201-212 | the couples recorded are exactly the couples of the rows |
| Seqs.FirstByKeyWins | server/lib/providers/ffds.js:205-207 | a couple keeps the rank of its first row (the final comes first) |
| Seqs.AssignAllAppend | lib/providers/wdsf.js:79-88 | assigning two runs of rows is assigning their concatenation |
| Seqs.LastByKeyNext | lib/providers/wdsf.js:79-88 | the next heat's rows are assigned on top of the earlier heats |
| Seqs.LastByKeyKeys | lib/providers/wdsf.js:79-88 | the couples recorded are exactly those of rows with an integer rank |
| Seqs.LastByKeyWins | lib/providers/wdsf.js:83-86 | a couple holds the rank of its last row with an integer rank |
| Seqs.LastByKeyDefined | lib/providers/wdsf.js:83-86 | every rank recorded is a number, never NaN |
| Seqs.FlattenMember | server/lib/providers/ffds.js:305 | a value is in the flattened list iff it is in one of the parts |
| Seqs.Present | lib/providers/wdsf.js:152 | `filter(n => n)` never lengthens |
| Seqs.PresentMember | lib/providers/wdsf.js:152 | exactly the defined contests are kept |
| Seqs.PresentEmpty | lib/providers/wdsf.js:152 | nothing is kept iff no contest is defined |
| Promises.FirstFailure | lib/utils/promises.js:7-16 | the index of the first rejecting task: every earlier task resolves |
| Promises.RunSerially | lib/utils/promises.js:7-16 | the loop settles as the chain does, and calls exactly the tasks up to the first rejection |
| Promises.SeriallyStops | lib/utils/promises.js:7-16 | a rejection in a prefix rejects the whole chain, whatever follows |
| Promises.SeriallyOrdered | lib/utils/promises.js:7-16 | the chain resolves iff every task resolves, with their results in task order |
| Promises.SeriallyFirstRejection | lib/utils/promises.js:7-16 | a rejecting chain rejects with the error of the first rejecting task |
| Merge.HandleRequestError | server/lib/utils/index.js:18-24 | a Boom error with the message iff the status is truthy; server data is {url, body}, legacy data is the body; anything else is rethrown as is |
| Merge.Ids | lib/palmares.js:57 | the ids of a list, position by position |
| Merge.FindId | server/lib/utils/index.js:36 | `find` by id: the first entry with the id, or none at all |
| Merge.FirstWithId | server/lib/utils/index.js:34-36 | the first candidate carrying the id, or none |
| Merge.MergeStepIds | server/lib/utils/index.js:35-45 | a step adds an id only for a new truthy candidate, and never reorders ids |
| Merge.MergedFirstSeen | server/lib/utils/index.js:34-48 | the merged entries come in the order their ids first occur |
| Merge.MergedComplete | server/lib/utils/index.js:34-48 | every id carried by a candidate has an entry |
| Merge.MergedEntries | server/lib/utils/index.js:34-48 | each entry is the first candidate with its id, whose data urls gained every later url once |
| Merge.MergedUniqueIds | server/lib/utils/index.js:34-48 | no id appears twice in the merge |
| Merge.SortByDateMultiset | server/lib/utils/index.js:33 | `sortBy('date')` is a permutation |
| Merge.SortByDateSorted | server/lib/utils/index.js:33 | `sortBy('date')` orders by date |
| Merge.SortByDateStable | server/lib/utils/index.js:33 | the sort is stable: entries of one date keep their order |
| Merge.SortByDateOfSorted | server/lib/utils/index.js:33 | a list in date order is left as it is |
| Merge.SortByDateUniqueIds | server/lib/utils/index.js:33 | sorting keeps ids unique |
| Merge.MergeResultProperties | server/lib/utils/index.js:32-49 | `mergeCompetitions`: date order, each candidate id exactly once, the first candidate's fields kept, urls merged without repetition |
| Merge.MergedOfUnique | server/lib/utils/index.js:34-48 | merging candidates with distinct ids returns them as they are |
| Merge.MergeResultIdempotent | server/lib/utils/index.js:32-49 | merging a merge result again changes nothing |
| Merge.Snapshot | server/lib/utils/index.js:35 | the candidates as values, null as a falsy one |
| Merge.SnapshotAt | server/lib/utils/index.js:35 | candidate k's value is its JSON, or none for null |
| Merge.JsonsConcat | lib/palmares.js:34 | the JSON of a concatenation is the concatenation of the JSON |
| Merge.FindById | server/lib/utils/index.js:36 | the loop finds the index `FindId` describes |
| Merge.InsertByDate | server/lib/utils/index.js:33 | inserting a competition after every one not later than it: the value insertion, and a permutation |
| Merge.SortCompetitions | server/lib/utils/index.js:33 | sorting competition objects: values sorted as `SortByDate`, and a permutation of the objects |
| Merge.MergeInto | server/lib/utils/index.js:36-45 | one reduce step on objects: the new JSON list is the value step; only `c` can join the list |
| Merge.PushUrl | server/lib/utils/index.js:41 | `existing.dataUrls.push(url)` changes only that competition's urls |
| Merge.MergeCandidate | server/lib/utils/index.js:35-46 | one reduce step over the candidate array; the later candidates are untouched |
| Merge.MergeAll | server/lib/utils/index.js:34-48 | the reduce on objects gives the value merge of the candidates as they were passed |
| Merge.MergeCompetitions | server/lib/utils/index.js:32-49 | `mergeCompetitions` on objects: its JSON is `MergeResult` of the candidates, drawn only from them |
| FfdsRules.Scan | server/lib/providers/ffds.js:51-77 | after an upper-case letter the surname ends with the last character read |
| FfdsRules.ScanSnoc | server/lib/providers/ffds.js:51-77 | the scan reads the text left to right, one character at a time |
| FfdsRules.StepConserves | server/lib/providers/ffds.js:52-76 | one step puts each character into one buffer, or moves one letter between them |
| FfdsRules.ScanConserves | server/lib/providers/ffds.js:51-77 | every character of a dancer lands in exactly one of the two name parts |
| FfdsRules.ScanSurname | server/lib/providers/ffds.js:51-77 | the surname holds upper-case letters and separators only |
| FfdsRules.ScanGivenName | server/lib/providers/ffds.js:51-77 | every lower-case character ends in the given name |
| FfdsRules.ScanExample | server/lib/providers/ffds.js:51-77 | "LE Jo" splits into given name "Jo" and surname "LE " |
| FfdsRules.NoDotIn | server/lib/providers/ffds.js:79 | text with dots folded away holds no dot |
| FfdsRules.DancerNameNoDots | server/lib/providers/ffds.js:44-80 | the server copy never leaves a dot in a dancer's name |
| FfdsRules.SplitDancer | server/lib/providers/ffds.js:51-77 | the `slice` loop yields the buffers of `Scan` |
| FfdsRules.Dancer | server/lib/providers/ffds.js:44-81 | one dancer's printed name |
| FfdsRules.CleanNames | server/lib/providers/ffds.js:39-82 | `cleanNames`: the unknown-couple short cut, then each dancer cleaned and joined by " - " |
| FfdsRules.CleanContest | server/lib/providers/ffds.js:90-91 | the title never lengthens and has no whitespace at either end |
| FfdsRules.CleanContestPlain | server/lib/providers/ffds.js:90-91 | a title with neither label is only trimmed |
| FfdsRules.SeasonUnique | server/lib/providers/ffds.js:99-110 | each day lies in exactly one season (mid-August to mid-August) |
| FfdsRules.SeasonBoundary | server/lib/providers/ffds.js:99-110 | 14 August is in the first half and still in the previous season; 15 August starts the new one |
| FfdsRules.TrailingDigits | server/lib/providers/ffds.js:148 | the longest run of digits that ends the href |
| FfdsRules.NumManifIsMatch | server/lib/providers/ffds.js:148 | `NumManif` matches exactly when the regex does, and captures the digits up to the end |
| FfdsRules.NumManifExample | server/lib/providers/ffds.js:148 | "Resultats.php?NumManif=1432" gives "1432" |
| FfdsRules.NumManifNotAtEnd | server/lib/providers/ffds.js:148 | digits that do not end the href give no match |
| Headers.SkipSpaces | server/lib/providers/ffds.js:163 | the end of the longest run of whitespace |
| Headers.SkipWord | server/lib/providers/ffds.js:163 | the end of the longest run of word characters |
| Headers.ParenEndIsMatch | server/lib/providers/ffds.js:163 | the matcher finds a match at p exactly where the regex `/\(\s*\w+\s*\)/` matches |
| Headers.FirstParen | server/lib/providers/ffds.js:163 | the first position where the pattern matches, or -1 |
| Headers.FirstParenIsFirst | server/lib/providers/ffds.js:163 | no match starts before the position found |
| Headers.RemoveParenthesised | lib/providers/wdsf.js:34 | the replacement never lengthens the text |
| Headers.RemoveParenthesisedLeftmost | server/lib/providers/ffds.js:163 | no match leaves the text unchanged; otherwise exactly the leftmost match is cut out |
| Headers.RemoveParenthesisedExample | server/lib/providers/ffds.js:163 | "Paris ( 75 )" becomes "Paris " |
| Headers.Ymd | server/lib/providers/ffds.js:165 | `format('YYYYMMDD')` prints eight digits |
| Headers.YmdInjective | lib/providers/wdsf.js:41 | two printable days have the same stamp iff they are the same day |
| Headers.SameSlugSameFingerprint | server/lib/providers/ffds.js:165 | places with the same slug on the same day get the same id, for any `slugify` and `md5` |
| Headers.FingerprintSame | lib/providers/wdsf.js:41 | with a collision-free md5, two ids coincide iff the slugs and the days do |
| Ffds.HeaderAttrs | server/lib/providers/ffds.js:142-168 | `extractHeader`: every attribute set it gives has an id |
| Ffds.HeaderOfIds | server/lib/providers/ffds.js:166-167 | the constructor never throws on a listing row |
| Ffds.HeaderJsons | server/lib/providers/ffds.js:267-268 | one candidate per listing row |
| Ffds.HeaderJsonsAt | server/lib/providers/ffds.js:267-268 | row k gives candidate k |
| Ffds.HeaderRejects | server/lib/providers/ffds.js:142-161 | a row gives no competition iff its href is missing or empty, does not end with NumManif digits, or its day is invalid or outside the season |
| Ffds.HeaderAccepted | server/lib/providers/ffds.js:152-167 | an accepted row: url and only data url are the details page of its number; no contests; id is the fingerprint of place and day; provider is the configured name (legacy: 'ffds') |
| Ffds.HeaderSameSlugSameId | server/lib/providers/ffds.js:165 | two accepted rows whose places have the same slug, on the same day, share an id |
| Ffds.HeaderSameId | server/lib/providers/ffds.js:165 | with a collision-free md5, two accepted rows share an id iff their places have the same slug and their days are the same |
| Ffds.ExtractHeader | server/lib/providers/ffds.js:167 | no competition iff no attributes; otherwise a fresh one with the candidate's JSON |
| Ffds.ExtractHeaders | server/lib/providers/ffds.js:267-268 | the `map` over the rows gives the candidates row by row |
| Ffds.FillHeat | server/lib/providers/ffds.js:202-211 | the rows of one heat recorded in order, a known couple keeping its rank |
| Ffds.FillRanking | server/lib/providers/ffds.js:201-212 | `results` holds the first rank of each couple over the heats in page order |
| Ffds.ExtractRanking | server/lib/providers/ffds.js:184-223 | the contest of the page: cleaned title and first-seen ranks; a failed request goes through `handleRequestError` |
| Ffds.ContestUrls | server/lib/providers/ffds.js:294 | each link gives the site url, '/', then the href, in order |
| Ffds.Provider.constructor | server/lib/providers/ffds.js:240-250 | the options are kept and no groups are cached |
| Ffds.Provider.ListResults | server/lib/providers/ffds.js:253-278 | a failed listing is handled by `handleRequestError`; otherwise the merge of the rows' candidates, all fresh |
| Ffds.Provider.GetDetails | server/lib/providers/ffds.js:281-319 | links of every data url in turn; a links failure rejects and leaves contests alone; contests reset, then each distinct link's ranking in turn; a ranking failure rejects with contests empty; no links gives no contests |
| Ffds.Provider.SearchGroups | server/lib/providers/ffds.js:322-355 | loads and caches the trimmed group list unless cached; a load failure rejects and caches nothing; returns the names that match the trimmed lower-cased query |
| Ffds.Provider.GetGroupCouples | server/lib/providers/ffds.js:358-392 | a missing or empty name is rejected without loading; else groups loaded if needed, the first group of that lower-cased name looked up, `NoGroupFound` or its couples |
| Ffds.Provider.SearchCouples | server/lib/providers/ffds.js:395-413 | the couples of the search page for the given text, or the handled request error |
| Ffds.Stored | server/lib/providers/ffds.js:338-339 | the cached groups, one per option, names trimmed |
| Ffds.NamesOfFiltered | server/lib/providers/ffds.js:351-354 | a name is in `map('name')` of a filter iff a kept group has it |
| Ffds.MatchingNamesExact | server/lib/providers/ffds.js:351-354 | a name is returned iff some group of that name matches the query |
| Ffds.EmptyQueryMatchesAll | server/lib/providers/ffds.js:322-354 | the default empty query returns every group name, in order |
| Ffds.Names | server/lib/providers/ffds.js:353 | `map('name')` keeps the length |
| Ffds.NamesAt | server/lib/providers/ffds.js:353 | name k is group k's name |
| Ffds.FindGroup | server/lib/providers/ffds.js:371 | `find` by lower-cased name gives a group of that name or none |
| Ffds.FindGroupIsFirst | server/lib/providers/ffds.js:371-374 | the group found is the first of that name; none is found only when no group has it |
| Ffds.CoupleNames | server/lib/providers/ffds.js:118-127 | one couple per row |
| Ffds.CoupleNamesAt | server/lib/providers/ffds.js:118-127 | row k gives the cleaned names of its first cell |
| Ffds.ExtractNames | server/lib/providers/ffds.js:118-127 | `extractNames`: each couple row's names, cleaned, in page order |
| Ffds.FetchCouples | server/lib/providers/ffds.js:376-391 | the couples of the page, or the request error through `handleRequestError` |
| Ffds.CouplesOfGroup | server/lib/providers/ffds.js:371-391 | `NoGroupFound` naming the group, or the couples page of the first group of that name |
| Wdsf.CompetitionBasePrefix | lib/providers/wdsf.js:37 | the competition url is the contest url up to and including its last '/', or empty |
| Wdsf.CompetitionBaseIdempotent | lib/providers/wdsf.js:37 | truncating the competition url again changes nothing |
| Wdsf.PlaceRule | lib/providers/wdsf.js:34 | only the leftmost parenthesised word of the folded location is removed before trimming and title-casing |
| Wdsf.HeaderAttrs | lib/providers/wdsf.js:31-43 | every record's attributes carry an id |
| Wdsf.HeaderOfIds | lib/providers/wdsf.js:41-42 | the constructor never throws on a calendar record |
| Wdsf.HeaderFields | lib/providers/wdsf.js:31-43 | a record's competition: provider 'wdsf', the truncated url as only data url, no contests, the parsed date, id the fingerprint of place and day |
| Wdsf.HeaderSameSlugSameId | lib/providers/wdsf.js:41 | two records whose places have the same slug, on the same day, share an id |
| Wdsf.HeaderSameId | lib/providers/wdsf.js:41 | with a collision-free md5, two records share an id iff their places have the same slug and their days are the same |
| Wdsf.HeaderJsons | lib/providers/wdsf.js:108-111 | one candidate per record |
| Wdsf.HeaderJsonsAt | lib/providers/wdsf.js:108-111 | record k gives competition k |
| Wdsf.EveryRecordListed | lib/providers/wdsf.js:108-113 | with no season filter, every record's id is in the merged list |
| Wdsf.ExtractHeader | lib/providers/wdsf.js:42 | a fresh competition with the record's JSON |
| Wdsf.ExtractHeaders | lib/providers/wdsf.js:108-111 | the parser loop pushes one fresh competition per record, in order |
| Wdsf.ListResults | lib/providers/wdsf.js:100-119 | the calendar of the year, merged; a failed request goes through `handleRequestError` |
| Wdsf.RankingUrlEnds | lib/providers/wdsf.js:58 | the url asked for ends with '/Ranking', is the url itself when it already does, and adding it twice adds it once |
| Wdsf.SubtitleCut | lib/providers/wdsf.js:73 | the text before 'taken', or all but its last character when 'taken' is absent (`slice(0, -1)`) |
| Wdsf.RankingSkips | lib/providers/wdsf.js:52-91 | a contest is given iff the url is no participants list, the page loads, and it says neither 'Not ranked yet' nor 'Cancelled'; a participants list makes no request |
| Wdsf.FillHeat | lib/providers/wdsf.js:80-87 | the rows of one heat, recording couples with an integer rank, later rows overwriting |
| Wdsf.FillRanking | lib/providers/wdsf.js:79-88 | `results` holds each couple's last integer rank over the heats in page order |
| Wdsf.ExtractRanking | lib/providers/wdsf.js:52-91 | the contest `RankingOf` describes; no request for a participants list, otherwise a request of the ranking url |
| Wdsf.KeptLinksMember | lib/providers/wdsf.js:139-140 | a url is kept iff some link that is not 'Upcoming' gives it |
| Wdsf.DayUrls | lib/providers/wdsf.js:132-141 | one url list per day heading |
| Wdsf.DayUrlsAt | lib/providers/wdsf.js:133-141 | heading k gives the links of table k, or none when its day is not the competition's |
| Wdsf.DayUrlsMember | lib/providers/wdsf.js:132-141 | a page links to a contest exactly through a table of the competition's day |
| Wdsf.ContestUrls | lib/providers/wdsf.js:144 | `flow(flattenDeep, uniq)`: every contest url once |
| Wdsf.ContestUrlsOf | lib/providers/wdsf.js:126-144 | when every data url loads, a url is fetched iff some table of the competition's day links to it |
| Wdsf.GetDetails | lib/providers/wdsf.js:124-156 | links of every data url in turn; a links failure rejects and leaves contests alone; otherwise the defined contests of every distinct url, in order; a ranking failure rejects with contests empty |
| Wdsf.AllSkipped | lib/providers/wdsf.js:147-152 | contests that are all skipped give an empty contest list and no error |
| Palmares.FetchedMember | lib/palmares.js:36-50 | a competition comes out of a provider iff it is listed with an unknown id and has contests after `getDetails`; a failed `getDetails` leaves no contests |
| Palmares.GatheredNext | lib/palmares.js:34-52 | the gathering of one more provider |
| Palmares.GatheredStops | lib/palmares.js:34-52 | a rejection stays a rejection whatever providers follow |
| Palmares.GatheredFails | lib/palmares.js:34-52 | `Promise.all` rejects iff one of the tasks does |
| Palmares.GatheredMember | lib/palmares.js:34-52 | the values gathered are exactly those the tasks give |
| Palmares.FetchedAllFails | lib/palmares.js:34-52 | the fetch rejects iff some provider's listing rejects |
| Palmares.FetchedAllNew | lib/palmares.js:34-52 | every competition fetched comes from one provider, with an unknown id and contests |
| Palmares.SavedIdsAll | lib/palmares.js:55-58 | when every save succeeds, the ids gained are exactly the ids returned |
| Palmares.OutcomeOfSaves | lib/palmares.js:55-59 | once the providers have answered, the saves decide the outcome |
| Palmares.LoadedOnlyWhileNull | lib/palmares.js:29-31 | the ids are read from storage only while none are cached |
| Palmares.UpdateSucceeds | lib/palmares.js:27-60 | a successful update returns new competitions with contests only, and the cached ids become the old ids plus theirs |
| Palmares.ListingRejected | lib/palmares.js:34-52 | a rejected listing rejects the update, and no new id is cached |
| Palmares.Detail | lib/palmares.js:41-46 | `getDetails`, a failure leaving empty contests |
| Palmares.DetailAll | lib/palmares.js:40-47 | the pool details every new competition, each a fresh object |
| Palmares.KeepWithContests | lib/palmares.js:49 | `filter(({contests}) => contests.length)` on objects |
| Palmares.FetchProvider | lib/palmares.js:36-50 | the async function of one provider gives `Fetched`, as fresh objects |
| Palmares.FetchAll | lib/palmares.js:34-52 | all providers in provider order give `FetchedAll` |
| Palmares.SaveAll | lib/palmares.js:55-58 | every save is made; the ids of the saved ones in order, and the first error |
| Palmares.Callers | lib/palmares.js:92-108 | one waiter per waiting call |
| Palmares.CallersAt | lib/palmares.js:92-108 | waiter k is call k |
| Palmares.Replies | lib/palmares.js:96-105 | every waiter gets the same outcome |
| Palmares.RepliesAt | lib/palmares.js:96-105 | reply k goes to waiter k with the outcome |
| Palmares.ArriveAllQueues | lib/palmares.js:92-110 | calls during a run start nothing; the run keeps its year and they queue in arrival order |
| Palmares.SingleFlight | lib/palmares.js:90-124 | concurrent calls: only the first runs, with its year; each later call gets the same outcome; the instance leaves `updateInProgress`; a next call runs afresh |
| Palmares.Palmares.constructor | lib/palmares.js:73-81 | storage and providers kept, no ids cached, no run in flight |
| Palmares.Palmares.Run | lib/palmares.js:27-60 | `update(instance, year)`: outcome and cached ids as `UpdateOutcome` describes; the returned competitions are fresh |
| Palmares.Palmares.Begin | lib/palmares.js:92-110 | joins the run in flight, or starts one iff none is in flight |
| Palmares.Palmares.Complete | lib/palmares.js:114-122 | leaves `updateInProgress` and emits the outcome to every waiter, on success and on failure alike |
| Palmares.Palmares.Update | lib/palmares.js:90-124 | a call during a run waits and starts nothing; otherwise it runs, settles and replies to the waiters |
| Mongo.Serialize | server/lib/storages/mongodb.js:24-28 | the id goes to `_id`; every other field is kept |
| Mongo.Deserialize | server/lib/storages/mongodb.js:38-45 | a missing document stays missing; otherwise construction fails iff there is no `_id`, and `_id` becomes the id |
| Mongo.DeserializeSerialize | server/lib/storages/mongodb.js:24-45 | deserialising a serialised competition gives it back |
| Mongo.SerializeDeserialize | server/lib/storages/mongodb.js:24-45 | a complete document is stored back unchanged |
| Mongo.GetCollectionName | server/lib/storages/mongodb.js:54-60 | the corrected check: succeeds iff the lower-cased class name is registered, with that name; otherwise "Unsupported model class name" |
| Mongo.GetCollectionNameAsWritten | server/lib/storages/mongodb.js:54-60 | the check as written: any success returns the lower-cased name |
| Mongo.InheritedKeyAccepted | server/lib/storages/mongodb.js:56 | a class whose lower-cased name is `constructor` or `__proto__` passes the check as written but is rejected by the corrected one |
| Mongo.ConstructorAccepted | server/lib/storages/mongodb.js:56 | the class name `constructor` is that input |
| Mongo.CollectionNameChecksAgree | server/lib/storages/mongodb.js:54-60 | both checks agree on every other name |
| Mongo.CollectionName | server/lib/storages/mongodb.js:113 | the collection fails exactly when the class is unsupported |
| Mongo.CollectionNameSuffix | server/lib/storages/mongodb.js:113 | no suffix (or the legacy copy) gives the model name; a server suffix comes after the model name |
| Mongo.ProjectionKeys | server/lib/storages/mongodb.js:67-75 | a key is projected iff some field maps to it; every value is 1; `_id` is never a key |
| Mongo.MakeFilter | server/lib/storages/mongodb.js:67-75 | a non-array gives an empty projection; an array gives `Projection` of its fields |
| Mongo.ProjectionOfId | lib/palmares.js:30 | the projection `['id']` (and `['_id']`) selects `id` alone |
| Mongo.RemoveAllOutcome | server/lib/storages/mongodb.js:157-170 | rejects iff the class is unsupported or the drop fails with an error other than code 26, and then with that error |
| Mongo.RemoveAllRethrows | server/lib/storages/mongodb.js:165 | an error without a code (or with code 0) is rethrown |
| Api.Criteria | lib/api/competition.js:18 | a non-empty provider filters on it; an absent or empty one filters nothing |
| Api.ReportedSize | lib/api/competition.js:22 | the count when below the size asked for, the size otherwise |
| Api.List | lib/api/competition.js:17-24 | the storage's compact values with the offset and the capped size; a storage error is the reply |
| Api.ListSize | lib/api/competition.js:22 | the size reported never exceeds what was asked nor what was found, and is the count when fewer were found |
| Api.FindById | lib/api/competition.js:48-51 | the competition found, a 404 "no competition with id ..." when none, or the storage error |
| Api.FetchedYear | lib/api/competition.js:70 | the desired year when truthy, the current year otherwise |
| Api.GroupOfNext | lib/api/competition.js:75-82 | one more competition joins its provider's group |
| Api.GroupOfEmpty | lib/api/competition.js:75-82 | a provider with no competitions has an empty group |
| Api.GroupedContents | lib/api/competition.js:75-82 | a group exists iff its provider occurs, and holds that provider's competitions, compacted, in order |
| Api.GroupByProvider | lib/api/competition.js:75-82 | the `reduce` over competition objects builds `Grouped` |

## Left out

- HTTP, MongoDB and logging: requests, driver calls, the cached connection and every `logger` call. Pages and storage replies are function parameters; a request error is a value.
- The HTML parser (cheerio) and the CSV parser (csv-parser): pages are taken as already parsed into rows, cells and links. Parser errors are not modelled.
- Library calls taken as opaque functions: `titleize`, `stripTags`, `slugify`, `md5`, `sprintf` and the URI encoding of the search page. The id is built from them as `md5(slugify(place) + YYYYMMDD)`. `slugify` may give two places one slug. The collision-freedom of `md5` is an explicit hypothesis where it is used.
- Wdsf.GetDetails: `replaceUnallowed` is applied to each extracted string, not to the raw page before cheerio decodes its entities (lib/providers/wdsf.js:131). An entity that decodes into U+007F to U+00BF, such as `&nbsp;`, survives in the source but becomes a space in the model.
- moment.js: dates are taken as already parsed calendar days; "today" and the current year are parameters. Time zones are not modelled.
- Joi option validation in every constructor.
- Concurrency:
  - `Promise.all`, `runWithPool` and the parallel saves are modelled as running one after the other.
  - A rejection is taken as the first in list order.
  - The event bus and `updateInProgress` are modelled as the `Flight` state of one instance.
- Wdsf.ListResults: the one-argument `handleRequestError(message)` catch (lib/providers/wdsf.js:118 and 142, 149) is modelled as the curried handler it is evidently meant to be.
- Api.GroupByProvider: the handler destructures `{competitions, year}` from the array `update` returns (lib/api/competition.js:71). The grouping is modelled over that list, and the `year` of the reply is not modelled.
- Competitions.Build: an attribute given as `null` and one left out are both `None`. So an explicit `contests: null` becomes `[]`, where `Object.assign` (server/lib/models/competition.js:18) keeps the `null`. No caller in the model passes a null `contests`.
- Api.Grouped: the test `provider in groups` on `{}` (lib/api/competition.js:77) also finds the keys every object inherits. A provider named `constructor`, `toString` or `__proto__` would skip the `groups[provider] = []` line and then fail on `.push`. The model groups such a provider like any other. Provider names come from the configured providers.
- `deserialize` builds a `Competition` only; the lookup of other model classes is not modelled.
- Mongo.MakeFilter: the mapping of a field `_id` to the key `id` is modelled as written.
- Palmares.Palmares.Run: assigns the final cached ids once, rather than pushing one id per save; the final state is the same.
- The storage's `find` sort, skip and limit, and `findById`, are function parameters.
- JsText: characters beyond the Basic Multilingual Plane, and case mappings outside ASCII, Latin-1 and Latin Extended-A (U+0100 to U+017E, with U+0130 becoming two characters and U+0178 becoming U+00FF).
- Part of another component:
  - lib/models/ranking.js;
  - the storage base classes;
  - the server, its plugins and authentication;
  - the client code.
- Where the project's documented behaviour and its code differ, the model follows the code:
  - a `dataUrls` array given to the constructor is kept even when it lacks the url (server/lib/models/competition.js:23-25);
  - `update` returns the array of new competitions, not an object with a year (lib/palmares.js:59).
- Ffds: the legacy copy of each FFDS operation is the same model with `Tree` set to `Legacy`, with these differences:
  - names are not stripped of dots;
  - the provider is named 'ffds';
  - Boom errors carry the body only.

## Findings

| source | as written | input that shows it | evidently intended | confidence | as-written member | corrected member |
|---|---|---|---|---|---|---|
| server/lib/storages/mongodb.js:56 (and lib/storages/mongodb.js:55) | `!(name in classes)` also finds keys every object inherits, two of which are lower-case | a model class named `constructor` (or `Constructor`) | accept only the registered model names | not executed | Mongo.GetCollectionNameAsWritten, Mongo.ConstructorAccepted | Mongo.GetCollectionName, Mongo.InheritedKeyAccepted |
