/** The FFDS provider (server/lib/providers/ffds.js, and lib/providers/ffds.js
    when `tree` is `Legacy`): listing headers, contest rankings, competition
    details, and the cached group list. Pages come already parsed as the cell
    strings the source reads; `replaceUnallowed` maps one character to one and
    never touches markup, so the model applies it to each extracted string. */
module Ffds {
  import opened Common
  import opened Seqs
  import opened JsText
  import opened Sanitize
  import opened Competitions
  import opened Merge
  import opened Promises
  import opened Headers
  import opened FfdsRules

  /** The provider options the code reads. */
  datatype Opts = Opts(name: string, url: string, list: string, details: string, clubs: string, couples: string, search: string)

  /** A row of the competition listing: the first cell's text, the second cell
      parsed as a day (`None` for an invalid moment), and the last cell's link. */
  datatype ListRow = ListRow(placeCell: string, date: Option<Day>, href: Option<string>)

  /** A row of a ranking heat: the rank cell's text and the names cell's markup. */
  datatype RankRow = RankRow(rankCell: string, namesCell: string)

  /** A ranking page: the `h3` text and the rows of each heat, final first. */
  datatype RankingPage = RankingPage(heading: string, heats: seq<seq<RankRow>>)

  /** An entry of the club selector. */
  datatype Group = Group(id: string, name: string)

  /** The federation's pages, by url, as request-promise resolves or rejects them. */
  datatype Site = Site(
    listing: string -> Result<seq<ListRow>, RequestError>,
    contestLinks: Url -> Result<seq<string>, RequestError>,
    ranking: string -> Result<RankingPage, RequestError>,
    groups: string -> Result<seq<Group>, RequestError>,
    coupleCells: string -> Result<seq<string>, RequestError>)

  // ---------------------------------------------------------------------------
  // Listing headers

  /** The server copy names the provider after its options; the older copy writes 'ffds'. */
  function ProviderName(tree: Tree, opts: Opts): string
  {
    if tree == Server then opts.name else "ffds"
  }

  /** The place as first read: trimmed, lower-cased, title-cased. */
  function RawPlace(libs: Libs, row: ListRow): string
  {
    libs.titleize(LowerCase(Trim(ReplaceUnallowed(row.placeCell))))
  }

  /** The href, with '' for a missing attribute. */
  function Href(row: ListRow): string
  {
    if row.href.Some? then ReplaceUnallowed(row.href.value) else ""
  }

  /** The place after its first parenthesised word is removed. */
  function PlaceOf(libs: Libs, row: ListRow): string
  {
    Trim(RemoveParenthesised(RawPlace(libs, row)))
  }

  /** `extractHeader(line, opts, year)`: the attributes handed to the competition
      constructor, or `None` for the rows that yield no competition. */
  function HeaderAttrs(tree: Tree, libs: Libs, opts: Opts, year: int, row: ListRow): (r: Option<Attrs>)
    ensures r.Some? ==> r.value.id.Some?
  {
    var href := Href(row);
    if href == "" then None
    else
      match NumManif(href)
      case None => None
      case Some(num) =>
        if row.date.None? || !IsWithinSeason(year, row.date.value) then None
        else
          var place := PlaceOf(libs, row);
          var id := Fingerprint(libs, place, row.date.value);
          Some(Attrs(Some(id), place, row.date.value, ProviderName(tree, opts),
                     Some(libs.format(opts.url + "/" + opts.details, num)), None, None))
  }

  /** The row function of the listing's `map`. */
  function HeaderOf(tree: Tree, libs: Libs, opts: Opts, year: int): ListRow -> Option<Attrs>
  {
    row => HeaderAttrs(tree, libs, opts, year, row)
  }

  /** Every attribute set the listing's rows give has an id, so the constructor
      never throws there. */
  lemma HeaderOfIds(tree: Tree, libs: Libs, opts: Opts, year: int)
    ensures forall row :: HeaderOf(tree, libs, opts, year)(row).Some? ==> HeaderOf(tree, libs, opts, year)(row).value.id.Some?
  {
    forall row | HeaderOf(tree, libs, opts, year)(row).Some?
      ensures HeaderOf(tree, libs, opts, year)(row).value.id.Some?
    {
      var a := HeaderAttrs(tree, libs, opts, year, row);
      assert a.Some? ==> a.value.id.Some?;
    }
  }

  /** The competition some attributes give, as JSON: `None` for no attributes
      (and for attributes without id, which the constructor refuses). */
  function Candidate(a: Option<Attrs>): Option<Json>
  {
    if a.Some? && a.value.id.Some? then Some(Build(a.value).value) else None
  }

  /** The competition a row gives, as JSON. */
  function HeaderJson(tree: Tree, libs: Libs, opts: Opts, year: int, row: ListRow): Option<Json>
  {
    Candidate(HeaderAttrs(tree, libs, opts, year, row))
  }

  /** The candidates of a listing, row by row (`HeaderJsonsAt`). */
  function HeaderJsons(header: ListRow -> Option<Attrs>, rows: seq<ListRow>): (r: seq<Option<Json>>)
    ensures |r| == |rows|
  {
    if rows == [] then [] else HeaderJsons(header, rows[..|rows| - 1]) + [Candidate(header(rows[|rows| - 1]))]
  }

  /** Each row gives its own candidate, in listing order. */
  lemma {:induction false} HeaderJsonsAt(tree: Tree, libs: Libs, opts: Opts, year: int, rows: seq<ListRow>, k: nat)
    requires k < |rows|
    ensures HeaderJsons(HeaderOf(tree, libs, opts, year), rows)[k] == HeaderJson(tree, libs, opts, year, rows[k])
  {
    if k < |rows| - 1 {
      assert rows[..|rows| - 1][k] == rows[k];
      HeaderJsonsAt(tree, libs, opts, year, rows[..|rows| - 1], k);
    }
  }

  /** The rows up to `i`, then row `i`. */
  lemma HeaderJsonsNext(header: ListRow -> Option<Attrs>, rows: seq<ListRow>, i: nat)
    requires i < |rows|
    ensures HeaderJsons(header, rows[..i + 1]) == HeaderJsons(header, rows[..i]) + [Candidate(header(rows[i]))]
  {
    assert rows[..i + 1][..i] == rows[..i];
  }

  /** A row is dropped exactly when its href is missing or empty, does not end with
      `NumManif=<digits>`, or its day is invalid or outside the season. */
  lemma HeaderRejects(tree: Tree, libs: Libs, opts: Opts, year: int, row: ListRow)
    ensures HeaderAttrs(tree, libs, opts, year, row).None? <==>
      Href(row) == "" || (forall p :: !NumManifAt(Href(row), p)) ||
      row.date.None? || !IsWithinSeason(year, row.date.value)
  {
    NumManifIsMatch(Href(row));
  }

  /** An accepted row: the competition's only data url is the details page of its
      `NumManif` number, and the id is the fingerprint of the place and the day. */
  lemma HeaderAccepted(tree: Tree, libs: Libs, opts: Opts, year: int, row: ListRow, p: int)
    requires Href(row) != "" && NumManifAt(Href(row), p)
    requires row.date.Some? && IsWithinSeason(year, row.date.value)
    ensures var j := HeaderJson(tree, libs, opts, year, row);
      j.Some? &&
      j.value.url == Some(libs.format(opts.url + "/" + opts.details, Href(row)[p + 9..])) &&
      j.value.dataUrls == [j.value.url] && j.value.contests == [] &&
      j.value.id == Fingerprint(libs, PlaceOf(libs, row), row.date.value) &&
      j.value.date == row.date.value && j.value.provider == (if tree == Server then opts.name else "ffds")
  {
    NumManifIsMatch(Href(row));
  }

  /** Two accepted rows whose places have the same slug, on the same day, share
      an id: those are the duplicates the merge folds. */
  lemma HeaderSameSlugSameId(tree: Tree, libs: Libs, opts: Opts, year: int, r1: ListRow, r2: ListRow)
    requires HeaderJson(tree, libs, opts, year, r1).Some? && HeaderJson(tree, libs, opts, year, r2).Some?
    requires libs.slugify(PlaceOf(libs, r1)) == libs.slugify(PlaceOf(libs, r2)) && r1.date == r2.date
    ensures HeaderJson(tree, libs, opts, year, r1).value.id == HeaderJson(tree, libs, opts, year, r2).value.id
  {
  }

  /** With a collision-free `md5`, two accepted rows share an id exactly when
      their places have the same slug and their days are the same. */
  lemma HeaderSameId(tree: Tree, libs: Libs, opts: Opts, year: int, r1: ListRow, r2: ListRow)
    requires forall a, b :: libs.md5(a) == libs.md5(b) ==> a == b
    requires HeaderJson(tree, libs, opts, year, r1).Some? && HeaderJson(tree, libs, opts, year, r2).Some?
    ensures HeaderJson(tree, libs, opts, year, r1).value.id == HeaderJson(tree, libs, opts, year, r2).value.id <==>
      libs.slugify(PlaceOf(libs, r1)) == libs.slugify(PlaceOf(libs, r2)) && r1.date == r2.date
  {
    FingerprintSame(libs, PlaceOf(libs, r1), r1.date.value, PlaceOf(libs, r2), r2.date.value);
  }

  /** `listResults(year)` asks for the current list within the season of today,
      and for the archive otherwise. */
  function ListUrl(opts: Opts, year: int, today: Date): string
  {
    opts.url + "/" + opts.list + (if IsWithinSeason(year, today) then "" else "?Archives")
  }

  /** `new Competition(data)` on the attributes of a row, or no competition. */
  method ExtractHeader(a: Option<Attrs>) returns (c: Competition?)
    requires a.Some? ==> a.value.id.Some?
    ensures c == null <==> a.None?
    ensures c != null ==> fresh(c) && c.ToJson() == Candidate(a).value
  {
    if a.None? {
      return null;
    }
    var built := Competition.Create(a.value);
    c := built.value;
  }

  // ---------------------------------------------------------------------------
  // Rankings

  function RankName(tree: Tree, libs: Libs, row: RankRow): string
  {
    CleanNamesOf(tree, libs, ReplaceUnallowed(row.namesCell))
  }

  function RankValue(row: RankRow): Option<int>
  {
    ParseInt(ReplaceUnallowed(row.rankCell))
  }

  /** The couple a row names, as a function of the row. */
  function NameOf(tree: Tree, libs: Libs): RankRow -> string
  {
    row => RankName(tree, libs, row)
  }

  /** The `results` object after the rows in order: a couple already recorded
      keeps its rank (`Seqs.FirstByKeyKeys` and `Seqs.FirstByKeyWins`). */
  function FirstSeen(tree: Tree, libs: Libs, rows: seq<RankRow>): map<string, Option<int>>
  {
    FirstByKey(rows, NameOf(tree, libs), RankValue)
  }

  /** The contest a ranking page gives. */
  function ContestOf(tree: Tree, libs: Libs, page: RankingPage): Contest
  {
    Contest(CleanContest(ReplaceUnallowed(page.heading)), FirstSeen(tree, libs, Flatten(page.heats)))
  }

  /** `extractRanking(url, ...)`: the contest, or the error a failed request becomes. */
  function RankingOf(tree: Tree, libs: Libs, opts: Opts, site: Site, place: string, url: string): Result<Contest, Error>
  {
    match site.ranking(url)
    case Failure(err) => Failure(HandleRequestError(tree, "failed to fetch contest ranking from " + opts.name + " " + place, err))
    case Success(page) => Success(ContestOf(tree, libs, page))
  }

  /** The inner `each`: the rows of one heat, in order; `names` is the
      `cleanNames` of a row's names cell. */
  method FillHeat(names: RankRow -> string, m: map<string, Option<int>>, heat: seq<RankRow>) returns (results: map<string, Option<int>>)
    ensures results == RecordAll(m, heat, names, RankValue)
  {
    results := m;
    var j := 0;
    while j < |heat|
      invariant 0 <= j <= |heat|
      invariant results == RecordAll(m, heat[..j], names, RankValue)
    {
      RecordAllNext(m, heat, j, names, RankValue);
      var n := names(heat[j]);
      if n !in results {
        results := results[n := RankValue(heat[j])];
      }
      j := j + 1;
    }
    assert heat[..j] == heat;
  }

  /** The nested `each` that fills `results`: the heats in page order. */
  method FillRanking(names: RankRow -> string, heats: seq<seq<RankRow>>) returns (results: map<string, Option<int>>)
    ensures results == FirstByKey(Flatten(heats), names, RankValue)
  {
    results := map[];
    var i := 0;
    while i < |heats|
      invariant 0 <= i <= |heats|
      invariant results == FirstByKey(Flatten(heats[..i]), names, RankValue)
    {
      FirstByKeyNext(heats, i, names, RankValue);
      results := FillHeat(names, results, heats[i]);
      i := i + 1;
    }
    assert heats[..i] == heats;
  }

  method ExtractRanking(tree: Tree, libs: Libs, opts: Opts, site: Site, place: string, url: string)
    returns (r: Result<Contest, Error>)
    ensures r == RankingOf(tree, libs, opts, site, place, url)
  {
    var page := site.ranking(url);
    if page.Failure? {
      return Failure(HandleRequestError(tree, "failed to fetch contest ranking from " + opts.name + " " + place, page.error));
    }
    var results := FillRanking(NameOf(tree, libs), page.value.heats);
    r := Success(Contest(CleanContest(ReplaceUnallowed(page.value.heading)), results));
  }

  // ---------------------------------------------------------------------------
  // Details

  /** The contest urls a details page links to. */
  function ContestUrls(opts: Opts, hrefs: seq<string>): (r: seq<string>)
    ensures |r| == |hrefs| && forall k :: 0 <= k < |hrefs| ==> r[k] == opts.url + "/" + ReplaceUnallowed(hrefs[k])
  {
    if hrefs == [] then [] else ContestUrls(opts, hrefs[..|hrefs| - 1]) + [opts.url + "/" + ReplaceUnallowed(hrefs[|hrefs| - 1])]
  }

  /** The task fetching the contest links of one data url. */
  function LinkTask(tree: Tree, opts: Opts, site: Site, place: string, url: Url): Task<seq<string>, Error>
  {
    () => match site.contestLinks(url)
          case Failure(err) => Failure(HandleRequestError(tree, "failed to fetch contests from " + opts.name + " " + place, err))
          case Success(hrefs) => Success(ContestUrls(opts, hrefs))
  }

  function LinkTasks(tree: Tree, opts: Opts, site: Site, place: string, urls: seq<Url>): seq<Task<seq<string>, Error>>
  {
    seq(|urls|, k requires 0 <= k < |urls| => LinkTask(tree, opts, site, place, urls[k]))
  }

  function RankingTasks(tree: Tree, libs: Libs, opts: Opts, site: Site, place: string, urls: seq<string>): seq<Task<Contest, Error>>
  {
    seq(|urls|, k requires 0 <= k < |urls| => () => RankingOf(tree, libs, opts, site, place, urls[k]))
  }

  /** The `map` over the listing rows: one candidate per row, `null` where the
      row gives no competition. */
  method ExtractHeaders(header: ListRow -> Option<Attrs>, rows: seq<ListRow>) returns (candidates: seq<Competition?>)
    requires forall row :: header(row).Some? ==> header(row).value.id.Some?
    ensures Snapshot(candidates) == HeaderJsons(header, rows)
    ensures forall c :: c in candidates && c != null ==> fresh(c)
  {
    candidates := [];
    var i := 0;
    while i < |rows|
      invariant 0 <= i <= |rows|
      invariant forall c :: c in candidates && c != null ==> fresh(c)
      invariant Snapshot(candidates) == HeaderJsons(header, rows[..i])
    {
      HeaderJsonsNext(header, rows, i);
      var c := ExtractHeader(header(rows[i]));
      SnapshotSnoc(candidates, c);
      candidates := candidates + [c];
      i := i + 1;
    }
    assert rows[..i] == rows;
  }

  class Provider {
    const tree: Tree
    const libs: Libs
    const opts: Opts
    /** The group list, fetched once; `None` until then. */
    var groups: Option<seq<Group>>

    constructor (tree: Tree, libs: Libs, opts: Opts)
      ensures this.tree == tree && this.libs == libs && this.opts == opts && groups == None
    {
      this.tree, this.libs, this.opts := tree, libs, opts;
      groups := None;
    }

    /** `listResults(year)`: the listing of the season (or the archive), each row's
        header, merged. */
    method ListResults(year: int, today: Date, site: Site) returns (r: Result<seq<Competition>, Error>)
      ensures var page := site.listing(ListUrl(opts, year, today));
        (page.Failure? ==> r == Failure(HandleRequestError(tree, "failed to fetch results from " + opts.name, page.error))) &&
        (page.Success? ==> r.Success? && Jsons(r.value) == MergeResult(HeaderJsons(HeaderOf(tree, libs, opts, year), page.value)))
      ensures r.Success? ==> forall c :: c in r.value ==> fresh(c)
    {
      var page := site.listing(ListUrl(opts, year, today));
      if page.Failure? {
        return Failure(HandleRequestError(tree, "failed to fetch results from " + opts.name, page.error));
      }
      HeaderOfIds(tree, libs, opts, year);
      var candidates := ExtractHeaders(HeaderOf(tree, libs, opts, year), page.value);
      var merged := MergeCompetitions(candidates);
      r := Success(merged);
    }

    /** `getDetails(competition)`: the contest links of every data url, in turn;
        then `contests` is reset and each distinct link's ranking fetched in turn.
        A failed links request leaves `contests` as it was; a failed ranking
        leaves it empty. */
    method GetDetails(c: Competition, site: Site) returns (r: Result<Competition, Error>)
      modifies c`contests
      ensures var links := Serially(LinkTasks(tree, opts, site, c.place, c.dataUrls));
        (links.Failure? ==> r == Failure(links.error) && c.contests == old(c.contests)) &&
        (links.Success? ==>
          var ranks := Serially(RankingTasks(tree, libs, opts, site, c.place, Uniq(Flatten(links.value))));
          (ranks.Success? ==> r == Success(c) && c.contests == ranks.value) &&
          (ranks.Failure? ==> r == Failure(ranks.error) && c.contests == []))
      ensures r.Success? && Flatten(Serially(LinkTasks(tree, opts, site, c.place, c.dataUrls)).value) == [] ==> c.contests == []
    {
      var links, _ := RunSerially(LinkTasks(tree, opts, site, c.place, c.dataUrls));
      if links.Failure? {
        return Failure(links.error);
      }
      var urls := Uniq(Flatten(links.value));
      c.contests := [];
      if urls == [] {
        assert RankingTasks(tree, libs, opts, site, c.place, urls) == [];
        return Success(c);
      }
      var ranks, _ := RunSerially(RankingTasks(tree, libs, opts, site, c.place, urls));
      if ranks.Failure? {
        return Failure(ranks.error);
      }
      c.contests := ranks.value;
      r := Success(c);
    }

    // -------------------------------------------------------------------------
    // Groups

    /** `searchGroups(searched)`: loads the group list unless cached, then
        returns, in order, the names whose lower-cased form contains the
        trimmed, lower-cased query. */
    method SearchGroups(searched: Option<string>, site: Site) returns (r: Result<seq<string>, Error>)
      modifies this`groups
      ensures old(groups).Some? ==> groups == old(groups) && r == Success(MatchingNames(groups.value, Query(searched)))
      ensures old(groups).None? ==>
        var page := site.groups(opts.url + "/" + opts.clubs);
        (page.Failure? ==> groups == None && r == Failure(HandleRequestError(tree, "failed to fetch group list from " + opts.name, page.error))) &&
        (page.Success? ==> groups == Some(Stored(page.value)) && r == Success(MatchingNames(groups.value, Query(searched))))
    {
      if groups.None? {
        var page := site.groups(opts.url + "/" + opts.clubs);
        if page.Failure? {
          return Failure(HandleRequestError(tree, "failed to fetch group list from " + opts.name, page.error));
        }
        groups := Some(Stored(page.value));
      }
      r := Success(MatchingNames(groups.value, Query(searched)));
    }

    /** `getGroupCouples(searched)`: rejects a missing or empty name, loads the
        groups if needed, finds the group whose lower-cased name equals the
        trimmed, lower-cased name, and reads its couples. */
    method GetGroupCouples(searched: Option<string>, site: Site) returns (r: Result<seq<string>, Error>)
      modifies this`groups
      ensures searched.None? ==> r == Failure(Invalid("group parameter", Required)) && groups == old(groups)
      ensures searched == Some("") ==> r == Failure(Invalid("group parameter", NotEmpty)) && groups == old(groups)
      ensures searched.Some? && searched.value != "" ==>
        var loaded := Loaded(old(groups), site.groups(opts.url + "/" + opts.clubs));
        groups == (if loaded.Success? then Some(loaded.value) else None) &&
        (loaded.Failure? ==> r == Failure(HandleRequestError(tree, "failed to fetch group list from " + opts.name, loaded.error))) &&
        (loaded.Success? ==> GroupCouplesOf(tree, libs, opts, site, loaded.value, searched.value, r))
    {
      if searched.None? {
        return Failure(Invalid("group parameter", Required));
      }
      if searched.value == "" {
        return Failure(Invalid("group parameter", NotEmpty));
      }
      if groups.None? {
        var loading := SearchGroups(Some(""), site);
        if loading.Failure? {
          return Failure(loading.error);
        }
      }
      r := CouplesOfGroup(tree, libs, opts, site, groups.value, searched.value);
    }

    /** `searchCouples(searched)`: the couples the search page lists. */
    method SearchCouples(searched: Option<string>, site: Site) returns (r: Result<seq<string>, Error>)
      ensures FetchedCouples(tree, libs, site, libs.format(opts.url + "/" + opts.search, libs.searchKey(Given(searched))),
                             "failed to fetch couples from " + opts.name, r)
    {
      r := FetchCouples(tree, libs, site, libs.format(opts.url + "/" + opts.search, libs.searchKey(Given(searched))),
                        "failed to fetch couples from " + opts.name);
    }
  }

  /** An argument that defaults to ''. */
  function Given(s: Option<string>): string
  {
    if s.Some? then s.value else ""
  }

  /** The search string: trimmed, then lower-cased. */
  function Query(searched: Option<string>): string
  {
    LowerCase(Trim(Given(searched)))
  }

  /** The cached groups: names trimmed. */
  function Stored(gs: seq<Group>): (r: seq<Group>)
    ensures |r| == |gs| && forall k :: 0 <= k < |gs| ==>
      r[k] == Group(ReplaceUnallowed(gs[k].id), Trim(ReplaceUnallowed(gs[k].name)))
  {
    if gs == [] then [] else Stored(gs[..|gs| - 1]) + [Group(ReplaceUnallowed(gs[|gs| - 1].id), Trim(ReplaceUnallowed(gs[|gs| - 1].name)))]
  }

  /** The group list in use after a lookup: the cached one, else the fetched one. */
  function Loaded(cached: Option<seq<Group>>, page: Result<seq<Group>, RequestError>): Result<seq<Group>, RequestError>
  {
    if cached.Some? then Success(cached.value)
    else if page.Failure? then Failure(page.error)
    else Success(Stored(page.value))
  }

  predicate Matches(g: Group, q: string)
  {
    Includes(LowerCase(g.name), q)
  }

  function MatchesQuery(q: string): Group -> bool
  {
    g => Matches(g, q)
  }

  /** `filter` then `map('name')`: the names of the matching groups, in order. */
  function MatchingNames(gs: seq<Group>, q: string): seq<string>
  {
    Names(Filter(gs, MatchesQuery(q)))
  }

  /** The names of the groups a filter keeps are the names of the kept groups. */
  lemma NamesOfFiltered(gs: seq<Group>, keep: Group -> bool, n: string)
    ensures n in Names(Filter(gs, keep)) <==> exists k :: 0 <= k < |gs| && gs[k].name == n && keep(gs[k])
  {
    var f := Filter(gs, keep);
    if n in Names(f) {
      var i :| 0 <= i < |Names(f)| && Names(f)[i] == n;
      FilteredNameKept(gs, keep, i);
    }
    if exists k :: 0 <= k < |gs| && gs[k].name == n && keep(gs[k]) {
      var k :| 0 <= k < |gs| && gs[k].name == n && keep(gs[k]);
      KeptNameFiltered(gs, keep, k);
    }
  }

  lemma FilteredNameKept(gs: seq<Group>, keep: Group -> bool, i: nat)
    requires i < |Filter(gs, keep)|
    ensures exists k :: 0 <= k < |gs| && gs[k].name == Names(Filter(gs, keep))[i] && keep(gs[k])
  {
    var f := Filter(gs, keep);
    NamesAt(f, i);
    assert f[i] in f;
    FilterMember(gs, keep, f[i]);
    var k :| 0 <= k < |gs| && gs[k] == f[i];
    assert gs[k].name == Names(f)[i] && keep(gs[k]);
  }

  lemma KeptNameFiltered(gs: seq<Group>, keep: Group -> bool, k: nat)
    requires k < |gs| && keep(gs[k])
    ensures gs[k].name in Names(Filter(gs, keep))
  {
    var f := Filter(gs, keep);
    FilterMember(gs, keep, gs[k]);
    var i :| 0 <= i < |f| && f[i] == gs[k];
    NamesAt(f, i);
  }

  /** A name is returned exactly when some group of that name matches. */
  lemma MatchingNamesExact(gs: seq<Group>, q: string, n: string)
    ensures n in MatchingNames(gs, q) <==> exists k :: 0 <= k < |gs| && gs[k].name == n && Matches(gs[k], q)
  {
    NamesOfFiltered(gs, MatchesQuery(q), n);
    assert forall k :: 0 <= k < |gs| ==> (MatchesQuery(q)(gs[k]) <==> Matches(gs[k], q));
  }

  /** An empty query matches every group: the search returns every name, in
      list order. */
  lemma EmptyQueryMatchesAll(gs: seq<Group>)
    ensures MatchingNames(gs, "") == Names(gs)
  {
    forall k | 0 <= k < |gs|
      ensures MatchesQuery("")(gs[k])
    {
      assert OccursAt(LowerCase(gs[k].name), "", 0);
    }
    FilterAll(gs, MatchesQuery(""));
  }

  /** `map('name')` (`NamesAt`). */
  function Names(gs: seq<Group>): (r: seq<string>)
    ensures |r| == |gs|
  {
    if gs == [] then [] else Names(gs[..|gs| - 1]) + [gs[|gs| - 1].name]
  }

  lemma {:induction false} NamesAt(gs: seq<Group>, k: nat)
    requires k < |gs|
    ensures Names(gs)[k] == gs[k].name
  {
    if k < |gs| - 1 {
      assert gs[..|gs| - 1][k] == gs[k];
      NamesAt(gs[..|gs| - 1], k);
    }
  }

  /** `groups.find(group => group.name.toLowerCase() === key)`, as an index
      (`FindGroupIsFirst`). */
  function FindGroup(gs: seq<Group>, key: string): (k: int)
    ensures -1 <= k < |gs|
    ensures k >= 0 ==> LowerCase(gs[k].name) == key
  {
    if gs == [] then -1
    else
      var k := FindGroup(gs[..|gs| - 1], key);
      if k >= 0 then k else if LowerCase(gs[|gs| - 1].name) == key then |gs| - 1 else -1
  }

  /** The group found is the first of that name, and none is found only when no
      group has it. */
  lemma {:induction false} FindGroupIsFirst(gs: seq<Group>, key: string, j: nat)
    requires j < |gs|
    ensures FindGroup(gs, key) < 0 ==> LowerCase(gs[j].name) != key
    ensures j < FindGroup(gs, key) ==> LowerCase(gs[j].name) != key
  {
    var p := gs[..|gs| - 1];
    if j < |p| {
      assert p[j] == gs[j];
      FindGroupIsFirst(p, key, j);
    }
  }

  /** The text `extractNames` hands to `cleanNames` for one couple row. */
  function NameCell(cell: string): string
  {
    ReplaceFirst(Trim(ReplaceUnallowed(cell)), " / ", "<br>")
  }

  /** The couples of the rows of a couples page, in page order (`CoupleNamesAt`). */
  function CoupleNames(tree: Tree, libs: Libs, cells: seq<string>): (r: seq<string>)
    ensures |r| == |cells|
  {
    if cells == [] then [] else CoupleNames(tree, libs, cells[..|cells| - 1]) + [CleanNamesOf(tree, libs, NameCell(cells[|cells| - 1]))]
  }

  /** Row `k` gives the `k`-th couple. */
  lemma {:induction false} CoupleNamesAt(tree: Tree, libs: Libs, cells: seq<string>, k: nat)
    requires k < |cells|
    ensures CoupleNames(tree, libs, cells)[k] == CleanNamesOf(tree, libs, NameCell(cells[k]))
  {
    if k < |cells| - 1 {
      assert cells[..|cells| - 1][k] == cells[k];
      CoupleNamesAt(tree, libs, cells[..|cells| - 1], k);
    }
  }

  lemma CoupleNamesNext(tree: Tree, libs: Libs, cells: seq<string>, i: nat)
    requires i < |cells|
    ensures CoupleNames(tree, libs, cells[..i + 1]) == CoupleNames(tree, libs, cells[..i]) + [CleanNamesOf(tree, libs, NameCell(cells[i]))]
  {
    assert cells[..i + 1][..i] == cells[..i];
  }

  /** `extractNames(body)`: each couple row's names, cleaned, in page order. */
  method ExtractNames(tree: Tree, libs: Libs, cells: seq<string>) returns (names: seq<string>)
    ensures names == CoupleNames(tree, libs, cells)
  {
    names := [];
    var i := 0;
    while i < |cells|
      invariant 0 <= i <= |cells|
      invariant names == CoupleNames(tree, libs, cells[..i])
    {
      CoupleNamesNext(tree, libs, cells, i);
      var n := CleanNames(tree, libs, NameCell(cells[i]));
      names := names + [n];
      i := i + 1;
    }
    assert cells[..i] == cells;
  }

  /** The outcome of fetching a couples page: the rejection as `handleRequestError`
      turns it, or the page's couples. */
  ghost predicate FetchedCouples(tree: Tree, libs: Libs, site: Site, url: string, message: string, r: Result<seq<string>, Error>)
  {
    var page := site.coupleCells(url);
    (page.Failure? ==> r == Failure(HandleRequestError(tree, message, page.error))) &&
    (page.Success? ==> r == Success(CoupleNames(tree, libs, page.value)))
  }

  method FetchCouples(tree: Tree, libs: Libs, site: Site, url: string, message: string) returns (r: Result<seq<string>, Error>)
    ensures FetchedCouples(tree, libs, site, url, message, r)
  {
    var page := site.coupleCells(url);
    if page.Failure? {
      return Failure(HandleRequestError(tree, message, page.error));
    }
    var names := ExtractNames(tree, libs, page.value);
    r := Success(names);
  }

  /** The outcome of looking a group up by name in a loaded list: `NoGroupFound`,
      or the couples page of the first group of that name. */
  ghost predicate GroupCouplesOf(tree: Tree, libs: Libs, opts: Opts, site: Site, gs: seq<Group>, name: string, r: Result<seq<string>, Error>)
  {
    var k := FindGroup(gs, LowerCase(Trim(name)));
    (k < 0 ==> r == Failure(NoGroupFound(name))) &&
    (k >= 0 ==> FetchedCouples(tree, libs, site, libs.format(opts.url + "/" + opts.couples, gs[k].id),
                               "failed to fetch couples of group " + name + " from " + opts.name, r))
  }

  method CouplesOfGroup(tree: Tree, libs: Libs, opts: Opts, site: Site, gs: seq<Group>, name: string) returns (r: Result<seq<string>, Error>)
    ensures GroupCouplesOf(tree, libs, opts, site, gs, name, r)
  {
    var k := FindGroup(gs, LowerCase(Trim(name)));
    if k < 0 {
      return Failure(NoGroupFound(name));
    }
    r := FetchCouples(tree, libs, site, libs.format(opts.url + "/" + opts.couples, gs[k].id),
                      "failed to fetch couples of group " + name + " from " + opts.name);
  }
}
