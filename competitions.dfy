/** The competition model of server/lib/models/competition.js: an event over one or
    several days, its contests, and the urls its data come from. */
module Competitions {
  import opened Common

  /** A calendar day; `month` is 0-based, as moment.js counts months. */
  datatype Date = Date(year: int, month: int, day: int)

  /** Chronological order on days. */
  predicate DateLe(a: Date, b: Date)
  {
    a.year < b.year || (a.year == b.year && (a.month < b.month || (a.month == b.month && a.day <= b.day)))
  }

  lemma DateLeTotal(a: Date, b: Date)
    ensures DateLe(a, b) || DateLe(b, a)
    ensures DateLe(a, b) && DateLe(b, a) ==> a == b
  {
  }

  /** One contest of a competition: its title and the rank of each couple; `None`
      is the NaN that parseInt gives for a rank cell without digits. */
  datatype Contest = Contest(title: string, results: map<string, Option<int>>)

  /** A data url; `None` is the null url a competition gets when none is given. */
  type Url = Option<string>

  /** The attributes handed to the constructor. `None` is an attribute that is absent
      or null; `dataUrls` is `None` whenever the attribute is not an array. */
  datatype Attrs = Attrs(
    id: Option<string>,
    place: string,
    date: Date,
    provider: string,
    url: Url,
    dataUrls: Option<seq<Url>>,
    contests: Option<seq<Contest>>)

  /** The plain representation `toJSON` gives of a competition. */
  datatype Json = Json(
    id: string,
    place: string,
    date: Date,
    provider: string,
    url: Url,
    dataUrls: seq<Url>,
    contests: seq<Contest>)

  /** What the constructor builds from `a`, or the error it throws. */
  function Build(a: Attrs): (r: Result<Json, Error>)
    ensures r.Failure? <==> a.id.None?
    ensures r.Failure? ==> r.error == NoId
  {
    if a.id.None? then Failure(NoId)
    else
      var url := a.url;
      var contests := if a.contests.Some? then a.contests.value else [];
      var dataUrls := if a.dataUrls.Some? then a.dataUrls.value else [url];
      Success(Json(a.id.value, a.place, a.date, a.provider, url, dataUrls, contests))
  }

  /** The attributes a competition's own JSON gives when handed back to the constructor. */
  function AttrsOf(j: Json): Attrs
  {
    Attrs(Some(j.id), j.place, j.date, j.provider, j.url, Some(j.dataUrls), Some(j.contests))
  }

  /** Any id is accepted, the empty one too; the fields given are copied, `contests`
      defaults to [] and a `dataUrls` that is not an array becomes [url]. */
  lemma BuildFields(a: Attrs)
    requires a.id.Some?
    ensures Build(a).Success?
    ensures var j := Build(a).value;
      j.id == a.id.value && j.place == a.place && j.date == a.date &&
      j.provider == a.provider && j.url == a.url &&
      j.contests == (if a.contests.Some? then a.contests.value else []) &&
      (a.dataUrls.None? ==> j.dataUrls == [a.url]) &&
      (a.dataUrls.Some? ==> j.dataUrls == a.dataUrls.value)
  {
  }

  /** Rebuilding a competition from its own JSON gives the same JSON. */
  lemma BuildAttrsOf(j: Json)
    ensures Build(AttrsOf(j)) == Success(j)
  {
  }

  /** The cases of server/test/models/provider.js: an array `dataUrls` is kept even
      when it misses the url, a string one is replaced by [url]. */
  lemma BuildExamples()
    ensures Build(Attrs(None, "", Date(2017, 1, 17), "", None, None, None)) == Failure(NoId)
    ensures Build(Attrs(Some(""), "", Date(2017, 1, 17), "", Some("url1"), None, None)).value.dataUrls == [Some("url1")]
    ensures var j := Build(Attrs(Some(""), "", Date(2017, 1, 17), "", Some("url1"), Some([Some("url2")]), None)).value;
      j.dataUrls == [Some("url2")] && j.url !in j.dataUrls
  {
  }

  class Competition {
    var id: string
    var place: string
    var date: Date
    var provider: string
    var url: Url
    var dataUrls: seq<Url>
    var contests: seq<Contest>

    /** `toJSON`: every field as it is. */
    function ToJson(): (j: Json)
      reads this
      ensures j.id == id && j.place == place && j.date == date && j.provider == provider
      ensures j.url == url && j.dataUrls == dataUrls && j.contests == contests
    {
      Json(id, place, date, provider, url, dataUrls, contests)
    }

    constructor FromJson(j: Json)
      ensures ToJson() == j
    {
      id, place, date, provider := j.id, j.place, j.date, j.provider;
      url, dataUrls, contests := j.url, j.dataUrls, j.contests;
    }

    /** `new Competition(attrs)`: fails when the id is missing, otherwise a fresh object
        whose JSON is what `Build` describes. */
    static method Create(a: Attrs) returns (r: Result<Competition, Error>)
      ensures r.Failure? <==> a.id.None?
      ensures r.Failure? ==> r.error == NoId
      ensures r.Success? ==> fresh(r.value) && r.value.ToJson() == Build(a).value
    {
      if a.id.None? {
        return Failure(NoId);
      }
      var c := new Competition.FromJson(Json(a.id.value, a.place, a.date, a.provider, a.url, [], []));
      if a.contests.Some? {
        c.contests := a.contests.value;
      }
      if a.dataUrls.Some? {
        c.dataUrls := a.dataUrls.value;
      } else {
        c.dataUrls := [c.url];
      }
      return Success(c);
    }
  }

  /** The JSON of each competition of a list. */
  function Jsons(cs: seq<Competition>): (r: seq<Json>)
    reads cs
    ensures |r| == |cs|
  {
    if cs == [] then [] else Jsons(cs[..|cs| - 1]) + [cs[|cs| - 1].ToJson()]
  }

  /** Each competition's JSON, in place. */
  lemma {:induction false} JsonsAt(cs: seq<Competition>, k: int)
    requires 0 <= k < |cs|
    ensures Jsons(cs)[k] == cs[k].ToJson()
  {
    if k < |cs| - 1 {
      assert cs[..|cs| - 1][k] == cs[k];
      JsonsAt(cs[..|cs| - 1], k);
    }
  }
}
