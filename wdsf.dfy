/** The WDSF provider (lib/providers/wdsf.js): the competition calendar as CSV
    records, the contest links of a competition's pages, and each contest's
    ranking page. Records and pages come already parsed into the strings the
    source reads. `replaceUnallowed` maps one character to one, and the model
    applies it to each extracted string rather than to the raw page. */
module Wdsf {
  import opened Common
  import opened Seqs
  import opened JsText
  import opened Sanitize
  import opened Competitions
  import opened Merge
  import opened Promises
  import opened Headers

  /** The provider options the code reads. */
  datatype Opts = Opts(name: string, url: string, list: string)

  /** A calendar record: the `Location`, the `Date` as parsed with the configured
      format, and the `CompetitionUrl` of one contest. */
  datatype CsvRecord = CsvRecord(location: string, date: Day, competitionUrl: string)

  /** A ranking row: the first cell's text (the rank) and the second's (the couple). */
  datatype RankRow = RankRow(rankCell: string, nameCell: string)

  /** A ranking page: its whole text, the first `h1`, the element after it, and
      the rows of each `.list` heat. */
  datatype RankingPage = RankingPage(body: string, heading: string, subtitle: string, heats: seq<seq<RankRow>>)

  /** A link of a contest table: its text and its `href`. */
  datatype Link = Link(text: string, href: string)

  /** A day of a competition page: the `h3` parsed as 'D MMMM YYYY' (`None` when
      it is no date) and the links of the table of the same rank. */
  datatype DayTable = DayTable(day: Option<Date>, links: seq<Link>)

  /** The federation's pages, by url, as request-promise resolves or rejects them. */
  datatype Site = Site(
    listing: string -> Result<seq<CsvRecord>, RequestError>,
    details: Url -> Result<seq<DayTable>, RequestError>,
    ranking: string -> Result<RankingPage, RequestError>)

  // ---------------------------------------------------------------------------
  // Calendar headers

  /** `url.slice(0, url.lastIndexOf('/') + 1)`: the contest part is cut off. */
  function CompetitionBase(u: string): string
  {
    Slice(u, 0, LastIndexOf(u, '/') + 1)
  }

  /** The competition url is the prefix of the contest url up to and including
      its last '/', and empty when it has none. */
  lemma CompetitionBasePrefix(u: string)
    ensures var r := CompetitionBase(u);
      r <= u && (r == [] <==> '/' !in u) && (r != [] ==> r[|r| - 1] == '/') &&
      forall j :: |r| <= j < |u| ==> u[j] != '/'
  {
    var k := LastIndexOf(u, '/');
    if k < 0 {
      assert CompetitionBase(u) == [];
    } else {
      assert CompetitionBase(u) == u[..k + 1];
    }
  }

  /** Truncating a competition url again changes nothing. */
  lemma CompetitionBaseIdempotent(u: string)
    ensures CompetitionBase(CompetitionBase(u)) == CompetitionBase(u)
  {
    var k := LastIndexOf(u, '/');
    if k >= 0 {
      var r := u[..k + 1];
      assert CompetitionBase(u) == r;
      assert LastIndexOf(r, '/') == k;
    }
  }

  /** The place a folded location gives: cut of its first parenthesised word,
      trimmed and title-cased. */
  function PlaceOfFolded(libs: Libs, s: string): string
  {
    libs.titleize(Trim(RemoveParenthesised(s)))
  }

  /** The place: accent-folded, then `PlaceOfFolded`. */
  function Place(libs: Libs, location: string): string
  {
    PlaceOfFolded(libs, RemoveAccents(location, false))
  }

  /** Only the leftmost parenthesised word of the folded location is removed. */
  lemma PlaceRule(libs: Libs, s: string)
    ensures (forall p, e :: !ParenMatch(s, p, e)) ==> PlaceOfFolded(libs, s) == libs.titleize(Trim(s))
    ensures (exists p, e :: ParenMatch(s, p, e)) ==>
      exists p, e :: ParenMatch(s, p, e) && (forall q, f :: 0 <= q < p ==> !ParenMatch(s, q, f)) &&
        PlaceOfFolded(libs, s) == libs.titleize(Trim(s[..p] + s[e..]))
  {
    RemoveParenthesisedLeftmost(s);
  }

  /** `extractHeader(record, opts)`: the attributes handed to the constructor.
      Every record gives a competition: there is no season filter. */
  function HeaderAttrs(libs: Libs, rec: CsvRecord): (a: Attrs)
    ensures a.id.Some?
  {
    var place := Place(libs, rec.location);
    Attrs(Some(Fingerprint(libs, place, rec.date)), place, rec.date, "wdsf",
          Some(CompetitionBase(rec.competitionUrl)), None, None)
  }

  function HeaderOf(libs: Libs): CsvRecord -> Attrs
  {
    rec => HeaderAttrs(libs, rec)
  }

  lemma HeaderOfIds(libs: Libs)
    ensures forall rec :: HeaderOf(libs)(rec).id.Some?
  {
    forall rec
      ensures HeaderOf(libs)(rec).id.Some?
    {
      var a := HeaderAttrs(libs, rec);
      assert a.id.Some?;
    }
  }

  /** The competition a record gives, as JSON. */
  function HeaderJson(libs: Libs, rec: CsvRecord): Json
  {
    Build(HeaderAttrs(libs, rec)).value
  }

  /** A record's competition: provider 'wdsf', the truncated url as its only data
      url, no contests, and the fingerprint of place and day as id. */
  lemma HeaderFields(libs: Libs, rec: CsvRecord)
    ensures var j := HeaderJson(libs, rec);
      j.url == Some(CompetitionBase(rec.competitionUrl)) && j.dataUrls == [j.url] && j.contests == [] &&
      j.provider == "wdsf" && j.place == Place(libs, rec.location) && j.date == rec.date &&
      j.id == Fingerprint(libs, Place(libs, rec.location), rec.date)
  {
    BuildFields(HeaderAttrs(libs, rec));
  }

  /** Two records whose places have the same slug, on the same day, share an id:
      those are the duplicates the merge folds. */
  lemma HeaderSameSlugSameId(libs: Libs, r1: CsvRecord, r2: CsvRecord)
    requires libs.slugify(Place(libs, r1.location)) == libs.slugify(Place(libs, r2.location)) && r1.date == r2.date
    ensures HeaderJson(libs, r1).id == HeaderJson(libs, r2).id
  {
    BuildFields(HeaderAttrs(libs, r1));
    BuildFields(HeaderAttrs(libs, r2));
  }

  /** With a collision-free `md5`, two records share an id exactly when their
      places have the same slug and their days are the same. */
  lemma HeaderSameId(libs: Libs, r1: CsvRecord, r2: CsvRecord)
    requires forall a, b :: libs.md5(a) == libs.md5(b) ==> a == b
    ensures HeaderJson(libs, r1).id == HeaderJson(libs, r2).id <==>
      libs.slugify(Place(libs, r1.location)) == libs.slugify(Place(libs, r2.location)) && r1.date == r2.date
  {
    HeaderFields(libs, r1);
    HeaderFields(libs, r2);
    FingerprintSame(libs, Place(libs, r1.location), r1.date, Place(libs, r2.location), r2.date);
  }

  /** The candidate some attributes give, `None` when the constructor refuses them. */
  function Built(a: Attrs): Option<Json>
  {
    if a.id.Some? then Some(Build(a).value) else None
  }

  /** The candidates of a calendar, record by record (`HeaderJsonsAt`). */
  function HeaderJsons(header: CsvRecord -> Attrs, recs: seq<CsvRecord>): (r: seq<Option<Json>>)
    ensures |r| == |recs|
  {
    if recs == [] then [] else HeaderJsons(header, recs[..|recs| - 1]) + [Built(header(recs[|recs| - 1]))]
  }

  /** Each record gives its own competition, in calendar order. */
  lemma {:induction false} HeaderJsonsAt(libs: Libs, recs: seq<CsvRecord>, k: nat)
    requires k < |recs|
    ensures HeaderJsons(HeaderOf(libs), recs)[k] == Some(HeaderJson(libs, recs[k]))
  {
    if k < |recs| - 1 {
      assert recs[..|recs| - 1][k] == recs[k];
      HeaderJsonsAt(libs, recs[..|recs| - 1], k);
    }
  }

  lemma HeaderJsonsNext(header: CsvRecord -> Attrs, recs: seq<CsvRecord>, i: nat)
    requires i < |recs|
    ensures HeaderJsons(header, recs[..i + 1]) == HeaderJsons(header, recs[..i]) + [Built(header(recs[i]))]
  {
    assert recs[..i + 1][..i] == recs[..i];
  }

  /** No season filter: the id of every record's competition is in the merged list. */
  lemma EveryRecordListed(libs: Libs, recs: seq<CsvRecord>, k: nat)
    requires k < |recs|
    ensures FindId(MergeResult(HeaderJsons(HeaderOf(libs), recs)), HeaderJson(libs, recs[k]).id) >= 0
  {
    HeaderJsonsAt(libs, recs, k);
    MergeResultProperties(HeaderJsons(HeaderOf(libs), recs));
  }

  /** The calendar url of a year. */
  function ListUrl(libs: Libs, opts: Opts, year: int): string
  {
    libs.format(opts.url + "/" + opts.list, IntString(year))
  }

  /** `new Competition(data)`. */
  method ExtractHeader(a: Attrs) returns (c: Competition)
    requires a.id.Some?
    ensures fresh(c) && Some(c.ToJson()) == Built(a)
  {
    var made := Competition.Create(a);
    c := made.value;
  }

  /** The parser's `readable` loop: one competition per record, in order. */
  method ExtractHeaders(header: CsvRecord -> Attrs, recs: seq<CsvRecord>) returns (competitions: seq<Competition?>)
    requires forall rec :: header(rec).id.Some?
    ensures Snapshot(competitions) == HeaderJsons(header, recs)
    ensures forall c :: c in competitions ==> c != null && fresh(c)
  {
    competitions := [];
    var i := 0;
    while i < |recs|
      invariant 0 <= i <= |recs|
      invariant forall c :: c in competitions ==> c != null && fresh(c)
      invariant Snapshot(competitions) == HeaderJsons(header, recs[..i])
    {
      HeaderJsonsNext(header, recs, i);
      var c := ExtractHeader(header(recs[i]));
      SnapshotSnoc(competitions, c);
      competitions := competitions + [c];
      i := i + 1;
    }
    assert recs[..i] == recs;
  }

  /** `listResults(year)`: the calendar of the year, each record's header, merged. */
  method ListResults(libs: Libs, opts: Opts, year: int, site: Site) returns (r: Result<seq<Competition>, Error>)
    ensures var page := site.listing(ListUrl(libs, opts, year));
      (page.Failure? ==> r == Failure(HandleRequestError(Legacy, "failed to fetch results from " + opts.name, page.error))) &&
      (page.Success? ==> r.Success? && Jsons(r.value) == MergeResult(HeaderJsons(HeaderOf(libs), page.value)))
    ensures r.Success? ==> forall c :: c in r.value ==> fresh(c)
  {
    var page := site.listing(ListUrl(libs, opts, year));
    if page.Failure? {
      return Failure(HandleRequestError(Legacy, "failed to fetch results from " + opts.name, page.error));
    }
    HeaderOfIds(libs);
    var candidates := ExtractHeaders(HeaderOf(libs), page.value);
    var merged := MergeCompetitions(candidates);
    r := Success(merged);
  }

  // ---------------------------------------------------------------------------
  // Rankings

  /** The ranking page of a contest url. */
  function RankingUrl(url: string): string
  {
    if EndsWith(url, "/Ranking") then url else url + "/Ranking"
  }

  /** The url asked for always ends with '/Ranking', is the url itself when it
      already does, and asking again changes nothing. */
  lemma RankingUrlEnds(url: string)
    ensures EndsWith(RankingUrl(url), "/Ranking")
    ensures EndsWith(url, "/Ranking") ==> RankingUrl(url) == url
    ensures RankingUrl(RankingUrl(url)) == RankingUrl(url)
  {
    var t := "/Ranking";
    var v := url + t;
    assert v[|v| - |t|..] == t;
  }

  /** The contest title: the heading without 'Ranking of ', then, when there is a
      subtitle, a space and the subtitle's text before 'taken', without the
      federation sentence, trimmed. */
  function Title(page: RankingPage): string
  {
    var title := ReplaceFirst(ReplaceUnallowed(page.heading), "Ranking of ", "");
    var sub := ReplaceUnallowed(page.subtitle);
    if sub == "" then title
    else title + " " + Trim(ReplaceFirst(Slice(sub, 0, IndexOf(sub, "taken")), "The following results are from the WDSF", ""))
  }

  /** `subtitle.slice(0, subtitle.indexOf('taken'))`: the text before 'taken', or,
      when it is absent, everything but the last character (`slice(0, -1)`). */
  lemma SubtitleCut(sub: string)
    requires sub != ""
    ensures Includes(sub, "taken") ==> Slice(sub, 0, IndexOf(sub, "taken")) == sub[..IndexOf(sub, "taken")]
    ensures !Includes(sub, "taken") ==> Slice(sub, 0, IndexOf(sub, "taken")) == sub[..|sub| - 1]
  {
  }

  /** The couple of a row: accent-folded and title-cased. */
  function RankName(libs: Libs, row: RankRow): string
  {
    libs.titleize(RemoveAccents(ReplaceUnallowed(row.nameCell), false))
  }

  /** `parseInt` of the rank cell; `None` is NaN. */
  function RankValue(row: RankRow): Option<int>
  {
    ParseInt(ReplaceUnallowed(row.rankCell))
  }

  function NameOf(libs: Libs): RankRow -> string
  {
    row => RankName(libs, row)
  }

  /** The contest a ranking page gives: rows without an integer rank are skipped
      and a later row of the same couple overwrites an earlier one
      (`Seqs.LastByKeyKeys`, `Seqs.LastByKeyWins`). */
  function ContestOf(libs: Libs, page: RankingPage): Contest
  {
    Contest(Title(page), LastByKey(Flatten(page.heats), NameOf(libs), RankValue))
  }

  /** `extractRanking(url)` before the caller's catch: no contest and no request
      for a participants list; no contest for a page not ranked yet or cancelled. */
  function RankingOf(libs: Libs, site: Site, url: string): Result<Option<Contest>, RequestError>
  {
    if EndsWith(url, "/Participants") then Success(None)
    else
      match site.ranking(RankingUrl(url))
      case Failure(err) => Failure(err)
      case Success(page) =>
        var body := ReplaceUnallowed(page.body);
        if Includes(body, "Not ranked yet") || Includes(body, "Cancelled") then Success(None)
        else Success(Some(ContestOf(libs, page)))
  }

  /** A contest is given exactly for a url that is no participants list, whose
      ranking page loads and says neither 'Not ranked yet' nor 'Cancelled'. */
  lemma RankingSkips(libs: Libs, site: Site, url: string)
    ensures RankingOf(libs, site, url).Success? && RankingOf(libs, site, url).value.Some? <==>
      !EndsWith(url, "/Participants") && site.ranking(RankingUrl(url)).Success? &&
      !Includes(ReplaceUnallowed(site.ranking(RankingUrl(url)).value.body), "Not ranked yet") &&
      !Includes(ReplaceUnallowed(site.ranking(RankingUrl(url)).value.body), "Cancelled")
    ensures EndsWith(url, "/Participants") ==> RankingOf(libs, site, url) == Success(None)
  {
  }

  /** The inner `forEach`: the rows of one heat, in order. */
  method FillHeat(names: RankRow -> string, m: map<string, Option<int>>, heat: seq<RankRow>) returns (results: map<string, Option<int>>)
    ensures results == AssignAll(m, heat, names, RankValue)
  {
    results := m;
    var j := 0;
    while j < |heat|
      invariant 0 <= j <= |heat|
      invariant results == AssignAll(m, heat[..j], names, RankValue)
    {
      AssignAllNext(m, heat, j, names, RankValue);
      var rank := RankValue(heat[j]);
      if rank.Some? {
        results := results[names(heat[j]) := rank];
      }
      j := j + 1;
    }
    assert heat[..j] == heat;
  }

  /** The heats in page order. */
  method FillRanking(names: RankRow -> string, heats: seq<seq<RankRow>>) returns (results: map<string, Option<int>>)
    ensures results == LastByKey(Flatten(heats), names, RankValue)
  {
    results := map[];
    var i := 0;
    while i < |heats|
      invariant 0 <= i <= |heats|
      invariant results == LastByKey(Flatten(heats[..i]), names, RankValue)
    {
      LastByKeyNext(heats, i, names, RankValue);
      results := FillHeat(names, results, heats[i]);
      i := i + 1;
    }
    assert heats[..i] == heats;
  }

  /** `extractRanking(url)`; `requested` is the url of the request it makes. */
  method ExtractRanking(libs: Libs, site: Site, url: string) returns (r: Result<Option<Contest>, RequestError>, requested: Option<string>)
    ensures r == RankingOf(libs, site, url)
    ensures requested.None? <==> EndsWith(url, "/Participants")
    ensures requested.Some? ==> requested.value == RankingUrl(url)
  {
    if EndsWith(url, "/Participants") {
      return Success(None), None;
    }
    requested := Some(RankingUrl(url));
    var page := site.ranking(requested.value);
    if page.Failure? {
      return Failure(page.error), requested;
    }
    var body := ReplaceUnallowed(page.value.body);
    if Includes(body, "Not ranked yet") {
      return Success(None), requested;
    }
    if Includes(body, "Cancelled") {
      return Success(None), requested;
    }
    var results := FillRanking(NameOf(libs), page.value.heats);
    r := Success(Some(Contest(Title(page.value), results)));
  }

  // ---------------------------------------------------------------------------
  // Details

  predicate IsUpcoming(l: Link)
  {
    ReplaceUnallowed(l.text) == "Upcoming"
  }

  /** A link's url: the site url and the href, without separator. */
  function LinkUrl(opts: Opts, l: Link): string
  {
    opts.url + ReplaceUnallowed(l.href)
  }

  function Shown(): Link -> bool
  {
    l => !IsUpcoming(l)
  }

  function LinkUrlOf(opts: Opts): Link -> string
  {
    l => LinkUrl(opts, l)
  }

  /** The urls of a table's links, 'Upcoming' ones left out. */
  function KeptLinks(opts: Opts, links: seq<Link>): seq<string>
  {
    Map(Filter(links, Shown()), LinkUrlOf(opts))
  }

  /** A url is kept exactly when some link that is not 'Upcoming' gives it. */
  lemma KeptLinksMember(opts: Opts, links: seq<Link>, u: string)
    ensures u in KeptLinks(opts, links) <==> exists k :: 0 <= k < |links| && !IsUpcoming(links[k]) && LinkUrl(opts, links[k]) == u
  {
    MapFilterMember(links, Shown(), LinkUrlOf(opts), u);
  }

  /** The links of a day table, or none when its day is not the competition's. */
  function TableUrls(opts: Opts, date: Date, t: DayTable): seq<string>
  {
    if t.day == Some(date) then KeptLinks(opts, t.links) else []
  }

  /** The `map` over the day headings of a page (`DayUrlsAt`). */
  function DayUrls(opts: Opts, date: Date, tables: seq<DayTable>): (r: seq<seq<string>>)
    ensures |r| == |tables|
  {
    if tables == [] then [] else DayUrls(opts, date, tables[..|tables| - 1]) + [TableUrls(opts, date, tables[|tables| - 1])]
  }

  lemma {:induction false} DayUrlsAt(opts: Opts, date: Date, tables: seq<DayTable>, k: nat)
    requires k < |tables|
    ensures DayUrls(opts, date, tables)[k] == TableUrls(opts, date, tables[k])
  {
    if k < |tables| - 1 {
      assert tables[..|tables| - 1][k] == tables[k];
      DayUrlsAt(opts, date, tables[..|tables| - 1], k);
    }
  }

  /** A page links to a contest exactly through a table of the competition's day. */
  lemma DayUrlsMember(opts: Opts, date: Date, tables: seq<DayTable>, u: string)
    ensures u in Flatten(DayUrls(opts, date, tables)) <==>
      exists k :: 0 <= k < |tables| && tables[k].day == Some(date) && u in KeptLinks(opts, tables[k].links)
  {
    var d := DayUrls(opts, date, tables);
    FlattenMember(d, u);
    if u in Flatten(d) {
      var i :| 0 <= i < |d| && u in d[i];
      DayUrlsAt(opts, date, tables, i);
    }
    if exists k :: 0 <= k < |tables| && tables[k].day == Some(date) && u in KeptLinks(opts, tables[k].links) {
      var k :| 0 <= k < |tables| && tables[k].day == Some(date) && u in KeptLinks(opts, tables[k].links);
      DayUrlsAt(opts, date, tables, k);
    }
  }

  /** `flow(flattenDeep, uniq)`: every contest url once, in first-seen order. */
  function ContestUrls(pages: seq<seq<seq<string>>>): (r: seq<string>)
    ensures NoDuplicates(r)
  {
    Uniq(Flatten(Flatten(pages)))
  }

  /** The task fetching the contest urls of one data url. */
  function LinkTask(opts: Opts, site: Site, place: string, date: Date, url: Url): Task<seq<seq<string>>, Error>
  {
    () => match site.details(url)
          case Failure(err) => Failure(HandleRequestError(Legacy, "failed to fetch contests from " + opts.name + " " + place, err))
          case Success(tables) => Success(DayUrls(opts, date, tables))
  }

  function LinkTasks(opts: Opts, site: Site, place: string, date: Date, urls: seq<Url>): seq<Task<seq<seq<string>>, Error>>
  {
    seq(|urls|, k requires 0 <= k < |urls| => LinkTask(opts, site, place, date, urls[k]))
  }

  /** When every data url loads, a contest url is fetched exactly when a table of
      the competition's day on one of those pages links to it. */
  lemma ContestUrlsOf(opts: Opts, site: Site, place: string, date: Date, urls: seq<Url>, u: string)
    requires Serially(LinkTasks(opts, site, place, date, urls)).Success?
    ensures forall i :: 0 <= i < |urls| ==> site.details(urls[i]).Success?
    ensures u in ContestUrls(Serially(LinkTasks(opts, site, place, date, urls)).value) <==>
      exists i :: 0 <= i < |urls| && u in Flatten(DayUrls(opts, date, site.details(urls[i]).value))
  {
    var tasks := LinkTasks(opts, site, place, date, urls);
    SeriallyOrdered(tasks);
    var pages := Serially(tasks).value;
    forall i | 0 <= i < |urls|
      ensures site.details(urls[i]).Success? && pages[i] == DayUrls(opts, date, site.details(urls[i]).value)
    {
      assert tasks[i]().Success?;
    }
    FlattenMember(Flatten(pages), u);
    if u in Flatten(Flatten(pages)) {
      var i :| 0 <= i < |Flatten(pages)| && u in Flatten(pages)[i];
      FlattenMember(pages, Flatten(pages)[i]);
      var j :| 0 <= j < |pages| && Flatten(pages)[i] in pages[j];
      FlattenMember(pages[j], u);
    }
    if exists i :: 0 <= i < |urls| && u in Flatten(DayUrls(opts, date, site.details(urls[i]).value)) {
      var i :| 0 <= i < |urls| && u in Flatten(DayUrls(opts, date, site.details(urls[i]).value));
      FlattenMember(pages[i], u);
      var k :| 0 <= k < |pages[i]| && u in pages[i][k];
      FlattenMember(pages, pages[i][k]);
      FlattenMember(Flatten(pages), u);
    }
  }

  /** The task fetching one contest; a rejection goes through `handleRequestError`. */
  function RankingTask(libs: Libs, opts: Opts, site: Site, place: string, url: string): Task<Option<Contest>, Error>
  {
    () => match RankingOf(libs, site, url)
          case Failure(err) => Failure(HandleRequestError(Legacy, "failed to fetch contest ranking from " + opts.name + " " + place, err))
          case Success(c) => Success(c)
  }

  function RankingTasks(libs: Libs, opts: Opts, site: Site, place: string, urls: seq<string>): seq<Task<Option<Contest>, Error>>
  {
    seq(|urls|, k requires 0 <= k < |urls| => RankingTask(libs, opts, site, place, urls[k]))
  }

  /** `getDetails(competition)`: the contest urls of every data url, in turn; then
      `contests` is reset and each distinct url's ranking fetched in turn, and the
      contests given are kept. A failed page leaves `contests` as it was; a failed
      ranking leaves it empty. */
  method GetDetails(libs: Libs, opts: Opts, c: Competition, site: Site) returns (r: Result<Competition, Error>)
    modifies c`contests
    ensures var links := Serially(LinkTasks(opts, site, c.place, c.date, c.dataUrls));
      (links.Failure? ==> r == Failure(links.error) && c.contests == old(c.contests)) &&
      (links.Success? ==>
        var ranks := Serially(RankingTasks(libs, opts, site, c.place, ContestUrls(links.value)));
        (ranks.Success? ==> r == Success(c) && c.contests == Present(ranks.value)) &&
        (ranks.Failure? ==> r == Failure(ranks.error) && c.contests == []))
  {
    var links, _ := RunSerially(LinkTasks(opts, site, c.place, c.date, c.dataUrls));
    if links.Failure? {
      return Failure(links.error);
    }
    var urls := ContestUrls(links.value);
    c.contests := [];
    var ranks, _ := RunSerially(RankingTasks(libs, opts, site, c.place, urls));
    if ranks.Failure? {
      return Failure(ranks.error);
    }
    c.contests := Present(ranks.value);
    r := Success(c);
  }

  /** Contests that are all skipped (cancelled, not ranked yet, participants
      only) leave the competition without contests. */
  lemma AllSkipped(libs: Libs, opts: Opts, site: Site, place: string, urls: seq<string>)
    requires forall k :: 0 <= k < |urls| ==> RankingOf(libs, site, urls[k]) == Success(None)
    ensures Serially(RankingTasks(libs, opts, site, place, urls)).Success?
    ensures Present(Serially(RankingTasks(libs, opts, site, place, urls)).value) == []
  {
    var tasks := RankingTasks(libs, opts, site, place, urls);
    forall k | 0 <= k < |tasks|
      ensures tasks[k]() == Success(None)
    {
    }
    FirstFailureAt(tasks, |tasks|);
    SeriallyOrdered(tasks);
    PresentEmpty(Serially(tasks).value);
  }
}
