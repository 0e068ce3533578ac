/** The competition endpoints of lib/api/competition.js: the criteria and the
    reported size of the paginated list, the 404 of a lookup by id, the year an
    update fetches, and the grouping of an update's competitions by provider. */
module Api {
  import opened Common
  import opened Seqs
  import opened Competitions

  // ---------------------------------------------------------------------------
  // GET /api/competition

  /** The fields of the compact listing. */
  const CompactFields: seq<string> := ["id", "place", "provider", "date", "url", "dataUrls"]

  /** The page the list endpoint replies with. */
  datatype Page = Page(offset: int, size: int, values: seq<Json>)

  /** The storage's `find`, with the criteria, the fields, the offset and the size. */
  type Finder = (map<string, string>, seq<string>, int, int) -> Result<seq<Json>, Error>

  /** `provider ? {provider} : {}`: an absent or empty provider filters nothing. */
  function Criteria(provider: Option<string>): (c: map<string, string>)
    ensures provider.Some? && provider.value != "" ==> c == map["provider" := provider.value]
    ensures provider.None? || provider.value == "" ==> c == map[]
  {
    if provider.Some? && provider.value != "" then map["provider" := provider.value] else map[]
  }

  /** The reported size: the number of values, capped by the size asked for. */
  function ReportedSize(count: nat, size: int): (r: int)
    ensures r <= size && (r == count || r == size)
    ensures count < size ==> r == count
    ensures size <= count ==> r == size
  {
    if count < size then count else size
  }

  /** The list handler: the compact competitions the storage finds, and the size
      report; a storage error is the reply. */
  function List(find: Finder, offset: int, size: int, provider: Option<string>): (r: Result<Page, Error>)
    ensures var found := find(Criteria(provider), CompactFields, offset, size);
      (r.Failure? <==> found.Failure?) &&
      (r.Failure? ==> r.error == found.error) &&
      (r.Success? ==>
        r.value.offset == offset && r.value.values == found.value && r.value.size == ReportedSize(|found.value|, size))
  {
    match find(Criteria(provider), CompactFields, offset, size)
    case Failure(e) => Failure(e)
    case Success(values) => Success(Page(offset, ReportedSize(|values|, size), values))
  }

  /** The size reported never exceeds what was asked for nor what was found,
      and is exactly the count when fewer values were found. */
  lemma ListSize(find: Finder, offset: int, size: int, provider: Option<string>)
    requires List(find, offset, size, provider).Success?
    ensures var p := List(find, offset, size, provider).value;
      p.size <= size && p.size <= |p.values| && (|p.values| <= size ==> p.size == |p.values|)
  {
  }

  // ---------------------------------------------------------------------------
  // GET /api/competition/{id}

  /** The HTTP status a failed handler replies with: Boom errors carry theirs,
      `notFound` is a 404, anything else is a 500. */
  function Status(e: Error): int
  {
    match e
    case Boom(s, _, _) => s
    case NotFound(_) => 404
    case _ => 500
  }

  /** The lookup handler: the competition, or a 404 naming the id. */
  function FindById(findById: string -> Result<Option<Json>, Error>, id: string): (r: Result<Json, Error>)
    ensures findById(id) == Success(None) ==>
      r == Failure(NotFound("no competition with id " + id)) && Status(r.error) == 404
    ensures findById(id).Success? && findById(id).value.Some? ==> r == Success(findById(id).value.value)
    ensures findById(id).Failure? ==> r == Failure(findById(id).error)
  {
    match findById(id)
    case Failure(e) => Failure(e)
    case Success(None) => Failure(NotFound("no competition with id " + id))
    case Success(Some(c)) => Success(c)
  }

  // ---------------------------------------------------------------------------
  // PUT /api/competition/update

  /** `desiredYear || new Date().getFullYear()`: an absent or zero year means
      the current one. */
  function FetchedYear(desired: Option<int>, current: int): (y: int)
    ensures Truthy(desired) ==> y == desired.value
    ensures !Truthy(desired) ==> y == current
  {
    if Truthy(desired) then desired.value else current
  }

  /** A competition as the update response lists it. */
  datatype Compact = Compact(place: string, date: Date, id: string)

  function CompactOf(j: Json): Compact
  {
    Compact(j.place, j.date, j.id)
  }

  /** The `reduce`: each competition pushed, compacted, onto its provider's group. */
  function Grouped(js: seq<Json>): map<string, seq<Compact>>
  {
    if js == [] then map[]
    else
      var g := Grouped(js[..|js| - 1]);
      var last := js[|js| - 1];
      g[last.provider := (if last.provider in g then g[last.provider] else []) + [CompactOf(last)]]
  }

  function FromProvider(p: string): Json -> bool
  {
    (j: Json) => j.provider == p
  }

  function CompactOfAll(): Json -> Compact
  {
    (j: Json) => CompactOf(j)
  }

  /** The group of provider `p`: its competitions, compacted, in their order. */
  function GroupOf(js: seq<Json>, p: string): seq<Compact>
  {
    Map(Filter(js, FromProvider(p)), CompactOfAll())
  }

  lemma GroupOfNext(js: seq<Json>, p: string)
    requires js != []
    ensures GroupOf(js, p) == GroupOf(js[..|js| - 1], p) + (if js[|js| - 1].provider == p then [CompactOf(js[|js| - 1])] else [])
  {
    var f := Filter(js[..|js| - 1], FromProvider(p));
    if js[|js| - 1].provider == p {
      assert Filter(js, FromProvider(p)) == f + [js[|js| - 1]];
      assert (f + [js[|js| - 1]])[..|f|] == f;
      assert Map(f + [js[|js| - 1]], CompactOfAll()) == Map(f, CompactOfAll()) + [CompactOf(js[|js| - 1])];
      assert GroupOf(js, p) == Map(f + [js[|js| - 1]], CompactOfAll());
    } else {
      assert Filter(js, FromProvider(p)) == f;
    }
    assert GroupOf(js[..|js| - 1], p) == Map(f, CompactOfAll());
  }

  lemma {:induction false} GroupOfEmpty(js: seq<Json>, p: string)
    requires forall k :: 0 <= k < |js| ==> js[k].provider != p
    ensures GroupOf(js, p) == []
  {
    if js != [] {
      GroupOfEmpty(js[..|js| - 1], p);
      GroupOfNext(js, p);
    }
  }

  /** There is a group for exactly the providers that occur, and each holds the
      provider's competitions, each once, in their original order. */
  lemma {:induction false} GroupedContents(js: seq<Json>, p: string)
    ensures p in Grouped(js) <==> exists k :: 0 <= k < |js| && js[k].provider == p
    ensures p in Grouped(js) ==> Grouped(js)[p] == GroupOf(js, p)
  {
    if js != [] {
      var q := js[..|js| - 1];
      GroupedContents(q, p);
      GroupOfNext(js, p);
      if exists k :: 0 <= k < |q| && q[k].provider == p {
        var k :| 0 <= k < |q| && q[k].provider == p;
        assert js[k] == q[k];
      }
      if exists k :: 0 <= k < |js| && js[k].provider == p {
        var k :| 0 <= k < |js| && js[k].provider == p;
        if k < |q| {
          assert q[k] == js[k];
        }
      }
      if p !in Grouped(q) && js[|js| - 1].provider == p {
        assert forall k :: 0 <= k < |q| ==> q[k].provider != p;
        GroupOfEmpty(q, p);
      }
    }
  }

  /** The grouping of the update response, over the competitions `update`
      returns. */
  method GroupByProvider(competitions: seq<Competition>) returns (groups: map<string, seq<Compact>>)
    ensures groups == Grouped(Jsons(competitions))
  {
    ghost var js := Jsons(competitions);
    groups := map[];
    var i := 0;
    while i < |competitions|
      invariant 0 <= i <= |competitions|
      invariant groups == Grouped(js[..i])
    {
      JsonsAt(competitions, i);
      assert js[..i + 1][..i] == js[..i];
      var c := competitions[i];
      if !(c.provider in groups) {
        groups := groups[c.provider := []];
      }
      groups := groups[c.provider := groups[c.provider] + [Compact(c.place, c.date, c.id)]];
      i := i + 1;
    }
    assert js[..i] == js;
  }
}
