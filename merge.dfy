/** The merge engine and the request-error handler of server/lib/utils/index.js
    (and of its older copy lib/utils/index.js). */
module Merge {
  import opened Common
  import opened Seqs
  import opened Competitions

  /** `handleRequestError`: always an error. One carrying a truthy HTTP status becomes
      a Boom error with that status and the given message; the server tree attaches
      the url and the body, the older tree the body alone. Any other error is thrown
      again unchanged. */
  function HandleRequestError(tree: Tree, message: string, err: RequestError): (e: Error)
    ensures e.Boom? <==> Truthy(err.statusCode)
    ensures e.Boom? ==> e.status == err.statusCode.value && e.message == message
    ensures e.Boom? && tree == Server ==> e.data == UrlAndBody(err.url, err.body)
    ensures e.Boom? && tree == Legacy ==> e.data == Body(err.body)
    ensures !e.Boom? ==> e == Rethrown(err)
  {
    if Truthy(err.statusCode) then
      Boom(err.statusCode.value, message, if tree == Server then UrlAndBody(err.url, err.body) else Body(err.body))
    else Rethrown(err)
  }

  /** The ids of a list of competitions. */
  function Ids(s: seq<Json>): (r: seq<string>)
    ensures |r| == |s| && forall k :: 0 <= k < |s| ==> r[k] == s[k].id
  {
    if s == [] then [] else Ids(s[..|s| - 1]) + [s[|s| - 1].id]
  }

  /** `merged.find(({id}) => id === extracted.id)`, as an index: the first entry with
      that id, or -1. */
  function FindId(s: seq<Json>, id: string): (k: int)
    ensures -1 <= k < |s|
    ensures k >= 0 ==> s[k].id == id && forall j :: 0 <= j < k ==> s[j].id != id
    ensures k == -1 ==> forall j :: 0 <= j < |s| ==> s[j].id != id
  {
    if s == [] then -1
    else
      var k := FindId(s[..|s| - 1], id);
      if k >= 0 then k else if s[|s| - 1].id == id then |s| - 1 else -1
  }

  /** The body of the `reduce`: a falsy candidate is skipped, a new id is pushed, and a
      known id only adds its url to the kept entry, unless already there. */
  function MergeStep(merged: seq<Json>, extracted: Option<Json>): seq<Json>
  {
    if extracted.None? then merged
    else
      var e := extracted.value;
      var k := FindId(merged, e.id);
      if k < 0 then merged + [e]
      else if e.url in merged[k].dataUrls then merged
      else merged[k := merged[k].(dataUrls := merged[k].dataUrls + [e.url])]
  }

  /** The `reduce` over all candidates, before sorting. */
  function Merged(cs: seq<Option<Json>>): seq<Json>
  {
    if cs == [] then [] else MergeStep(Merged(cs[..|cs| - 1]), cs[|cs| - 1])
  }

  predicate HasId(c: Option<Json>, id: string)
  {
    c.Some? && c.value.id == id
  }

  /** The first candidate carrying `id`, or -1. */
  function FirstWithId(cs: seq<Option<Json>>, id: string): (k: int)
    ensures -1 <= k < |cs|
    ensures k >= 0 ==> HasId(cs[k], id) && forall j :: 0 <= j < k ==> !HasId(cs[j], id)
    ensures k == -1 ==> forall j :: 0 <= j < |cs| ==> !HasId(cs[j], id)
  {
    if cs == [] then -1
    else
      var k := FirstWithId(cs[..|cs| - 1], id);
      if k >= 0 then k else if HasId(cs[|cs| - 1], id) then |cs| - 1 else -1
  }

  /** The urls of the candidates carrying `id`, in order. */
  function UrlsWithId(cs: seq<Option<Json>>, id: string): seq<Url>
  {
    if cs == [] then []
    else UrlsWithId(cs[..|cs| - 1], id) + (if HasId(cs[|cs| - 1], id) then [cs[|cs| - 1].value.url] else [])
  }

  /** The entry the merge keeps for `id`: the first candidate with that id, whose
      `dataUrls` gain the urls of the later ones, each at most once, in order. */
  function KeptEntry(cs: seq<Option<Json>>, id: string): Json
    requires FirstWithId(cs, id) >= 0
  {
    var k := FirstWithId(cs, id);
    var first := cs[k].value;
    first.(dataUrls := AppendNew(first.dataUrls, UrlsWithId(cs[k + 1..], id)))
  }

  lemma UrlsWithIdSnoc(p: seq<Option<Json>>, x: Option<Json>, k: int, id: string)
    requires 0 <= k <= |p|
    ensures UrlsWithId((p + [x])[k..], id) == UrlsWithId(p[k..], id) + (if HasId(x, id) then [x.value.url] else [])
  {
    assert (p + [x])[k..] == p[k..] + [x];
    assert (p[k..] + [x])[..|p[k..] + [x]| - 1] == p[k..];
  }

  lemma UrlsWithIdNone(cs: seq<Option<Json>>, id: string)
    requires forall j :: 0 <= j < |cs| ==> !HasId(cs[j], id)
    ensures UrlsWithId(cs, id) == []
  {
    if cs != [] {
      UrlsWithIdNone(cs[..|cs| - 1], id);
    }
  }

  /** A merge step adds an id only when the candidate's id is new; it never changes
      the ids already there. */
  lemma MergeStepIds(mp: seq<Json>, x: Option<Json>)
    ensures var m := MergeStep(mp, x);
      var added := x.Some? && FindId(mp, x.value.id) < 0;
      |m| == |mp| + (if added then 1 else 0) &&
      (forall i :: 0 <= i < |mp| ==> m[i].id == mp[i].id) &&
      (added ==> m[|mp|] == x.value)
  {
  }

  lemma AppendNewSnoc<T>(acc: seq<T>, xs: seq<T>, u: T)
    ensures AppendNew(acc, xs + [u]) == (var r := AppendNew(acc, xs); if u in r then r else r + [u])
  {
    assert (xs + [u])[..|xs|] == xs;
  }

  lemma FirstWithIdSnoc(p: seq<Option<Json>>, x: Option<Json>, id: string)
    ensures FirstWithId(p + [x], id) ==
      (if FirstWithId(p, id) >= 0 then FirstWithId(p, id) else if HasId(x, id) then |p| else -1)
  {
    assert (p + [x])[..|p|] == p;
  }

  /** The entries come in the order in which their ids first occur among the candidates,
      so no id appears twice. */
  lemma {:induction false} MergedFirstSeen(cs: seq<Option<Json>>)
    ensures forall i :: 0 <= i < |Merged(cs)| ==> FirstWithId(cs, Merged(cs)[i].id) >= 0
    ensures forall i, j :: 0 <= i < j < |Merged(cs)| ==>
      FirstWithId(cs, Merged(cs)[i].id) < FirstWithId(cs, Merged(cs)[j].id)
  {
    if cs != [] {
      var p := cs[..|cs| - 1];
      var x := cs[|cs| - 1];
      assert cs == p + [x];
      MergedFirstSeen(p);
      var mp := Merged(p);
      MergeStepIds(mp, x);
      var m := Merged(cs);
      forall i | 0 <= i < |mp|
        ensures FirstWithId(cs, m[i].id) == FirstWithId(p, mp[i].id) >= 0
      {
        assert FirstWithId(p, mp[i].id) >= 0;
        FirstWithIdSnoc(p, x, mp[i].id);
      }
      if x.Some? && FindId(mp, x.value.id) < 0 {
        var id := x.value.id;
        FirstWithIdSnoc(p, x, id);
        if FirstWithId(p, id) >= 0 {
          MergedComplete(p);
          assert false;
        }
        assert FirstWithId(cs, m[|mp|].id) == |p|;
      }
    }
  }

  /** Every id carried by a candidate has an entry. */
  lemma {:induction false} MergedComplete(cs: seq<Option<Json>>)
    ensures forall k :: 0 <= k < |cs| && cs[k].Some? ==> FindId(Merged(cs), cs[k].value.id) >= 0
  {
    if cs != [] {
      var p := cs[..|cs| - 1];
      var x := cs[|cs| - 1];
      MergedComplete(p);
      var mp := Merged(p);
      var m := Merged(cs);
      MergeStepIds(mp, x);
      forall k | 0 <= k < |cs| && cs[k].Some?
        ensures FindId(m, cs[k].value.id) >= 0
      {
        if k < |p| {
          assert p[k] == cs[k];
          var f := FindId(mp, cs[k].value.id);
          assert m[f].id == cs[k].value.id;
        } else if FindId(mp, x.value.id) < 0 {
          assert m[|mp|].id == x.value.id;
        } else {
          var f := FindId(mp, x.value.id);
          assert m[f].id == x.value.id;
        }
      }
    }
  }

  /** Every entry is the kept entry of its id: the first candidate with that id, with
      the later candidates' urls appended when new. */
  lemma {:induction false} MergedEntries(cs: seq<Option<Json>>)
    ensures forall i :: 0 <= i < |Merged(cs)| ==>
      FirstWithId(cs, Merged(cs)[i].id) >= 0 && Merged(cs)[i] == KeptEntry(cs, Merged(cs)[i].id)
  {
    MergedFirstSeen(cs);
    if cs != [] {
      var p := cs[..|cs| - 1];
      var x := cs[|cs| - 1];
      MergedEntries(p);
      assert cs == p + [x];
      forall i | 0 <= i < |Merged(cs)|
        ensures Merged(cs)[i] == KeptEntry(cs, Merged(cs)[i].id)
      {
        MergedEntryStep(p, x, i);
      }
    }
  }

  /** One step of the induction above: the entry at `i` after the candidate `x`. */
  lemma MergedEntryStep(p: seq<Option<Json>>, x: Option<Json>, i: int)
    requires forall i :: 0 <= i < |Merged(p)| ==>
      FirstWithId(p, Merged(p)[i].id) >= 0 && Merged(p)[i] == KeptEntry(p, Merged(p)[i].id)
    requires 0 <= i < |Merged(p + [x])|
    ensures FirstWithId(p + [x], Merged(p + [x])[i].id) >= 0
    ensures Merged(p + [x])[i] == KeptEntry(p + [x], Merged(p + [x])[i].id)
  {
    var cs := p + [x];
    assert cs[..|cs| - 1] == p;
    var mp := Merged(p);
    assert Merged(cs) == MergeStep(mp, x);
    MergeStepIds(mp, x);
    if i < |mp| {
      MergedEntryKept(p, x, i);
    } else {
      var id := x.value.id;
      FirstWithIdSnoc(p, x, id);
      if FirstWithId(p, id) >= 0 {
        MergedComplete(p);
        assert false;
      }
      assert cs[|p| + 1..] == [];
    }
  }

  lemma MergedSnoc(p: seq<Option<Json>>, x: Option<Json>)
    ensures Merged(p + [x]) == MergeStep(Merged(p), x)
  {
    assert (p + [x])[..|p|] == p;
  }

  /** The merge of one more candidate of a list. */
  lemma MergedPrefixNext(cs: seq<Option<Json>>, i: nat)
    requires i < |cs|
    ensures Merged(cs[..i + 1]) == MergeStep(Merged(cs[..i]), cs[i])
  {
    assert cs[..i + 1][..i] == cs[..i];
  }

  /** An entry already there keeps being the kept entry of its id. */
  lemma MergedEntryKept(p: seq<Option<Json>>, x: Option<Json>, i: int)
    requires 0 <= i < |Merged(p)|
    requires FirstWithId(p, Merged(p)[i].id) >= 0 && Merged(p)[i] == KeptEntry(p, Merged(p)[i].id)
    ensures Merged(p + [x])[i].id == Merged(p)[i].id
    ensures FirstWithId(p + [x], Merged(p)[i].id) == FirstWithId(p, Merged(p)[i].id)
    ensures Merged(p + [x])[i] == KeptEntry(p + [x], Merged(p)[i].id)
  {
    MergedSnoc(p, x);
    MergeStepIds(Merged(p), x);
    if HasId(x, Merged(p)[i].id) {
      MergedEntryGrows(p, x, i);
    } else {
      MergedEntrySame(p, x, i);
    }
  }

  /** A later candidate with the entry's id: its url joins the entry unless present. */
  lemma MergedEntryGrows(p: seq<Option<Json>>, x: Option<Json>, i: int)
    requires 0 <= i < |Merged(p)| && HasId(x, Merged(p)[i].id)
    requires FirstWithId(p, Merged(p)[i].id) >= 0 && Merged(p)[i] == KeptEntry(p, Merged(p)[i].id)
    ensures FirstWithId(p + [x], Merged(p)[i].id) == FirstWithId(p, Merged(p)[i].id)
    ensures MergeStep(Merged(p), x)[i] == KeptEntry(p + [x], Merged(p)[i].id)
  {
    MergedUniqueIds(p);
    MergeStepSame(Merged(p), x, i);
    KeptEntryGrows(p, x, Merged(p)[i].id);
  }

  /** A later candidate with another id leaves the entry alone. */
  lemma MergedEntrySame(p: seq<Option<Json>>, x: Option<Json>, i: int)
    requires 0 <= i < |Merged(p)| && !HasId(x, Merged(p)[i].id)
    requires FirstWithId(p, Merged(p)[i].id) >= 0 && Merged(p)[i] == KeptEntry(p, Merged(p)[i].id)
    ensures FirstWithId(p + [x], Merged(p)[i].id) == FirstWithId(p, Merged(p)[i].id)
    ensures MergeStep(Merged(p), x)[i] == KeptEntry(p + [x], Merged(p)[i].id)
  {
    MergeStepOther(Merged(p), x, i);
    KeptEntryUnchanged(p, x, Merged(p)[i].id);
  }

  /** A step on a candidate with the id of entry `i` of a list without repeated ids. */
  lemma MergeStepSame(mp: seq<Json>, x: Option<Json>, i: int)
    requires 0 <= i < |mp| && HasId(x, mp[i].id) && UniqueIds(mp)
    ensures MergeStep(mp, x)[i] ==
      if x.value.url in mp[i].dataUrls then mp[i] else mp[i].(dataUrls := mp[i].dataUrls + [x.value.url])
  {
    assert FindId(mp, x.value.id) == i;
  }

  /** A step on a candidate with another id leaves entry `i` alone. */
  lemma MergeStepOther(mp: seq<Json>, x: Option<Json>, i: int)
    requires 0 <= i < |mp| && !HasId(x, mp[i].id)
    ensures MergeStep(mp, x)[i] == mp[i]
  {
    if x.Some? {
      var k := FindId(mp, x.value.id);
      if k >= 0 {
        assert k != i;
      }
    }
  }

  /** The kept entry, from the position of the first candidate and the later urls. */
  lemma KeptEntryIs(cs: seq<Option<Json>>, id: string, f: int, u: seq<Url>)
    requires FirstWithId(cs, id) == f >= 0 && UrlsWithId(cs[f + 1..], id) == u
    ensures KeptEntry(cs, id) == cs[f].value.(dataUrls := AppendNew(cs[f].value.dataUrls, u))
  {
  }

  lemma KeptEntryGrows(p: seq<Option<Json>>, x: Option<Json>, id: string)
    requires FirstWithId(p, id) >= 0 && HasId(x, id)
    ensures FirstWithId(p + [x], id) == FirstWithId(p, id)
    ensures var old_ := KeptEntry(p, id);
      KeptEntry(p + [x], id) ==
        if x.value.url in old_.dataUrls then old_ else old_.(dataUrls := old_.dataUrls + [x.value.url])
  {
    var cs := p + [x];
    FirstWithIdSnoc(p, x, id);
    var f := FirstWithId(p, id);
    UrlsWithIdSnoc(p, x, f + 1, id);
    var u0 := UrlsWithId(p[f + 1..], id);
    assert cs[f] == p[f];
    var first := p[f].value;
    KeptEntryIs(p, id, f, u0);
    KeptEntryIs(cs, id, f, u0 + [x.value.url]);
    AppendNewSnoc(first.dataUrls, u0, x.value.url);
  }

  lemma KeptEntryUnchanged(p: seq<Option<Json>>, x: Option<Json>, id: string)
    requires FirstWithId(p, id) >= 0 && !HasId(x, id)
    ensures FirstWithId(p + [x], id) == FirstWithId(p, id)
    ensures KeptEntry(p + [x], id) == KeptEntry(p, id)
  {
    var cs := p + [x];
    FirstWithIdSnoc(p, x, id);
    var f := FirstWithId(p, id);
    UrlsWithIdSnoc(p, x, f + 1, id);
    var u0 := UrlsWithId(p[f + 1..], id);
    assert cs[f] == p[f];
    KeptEntryIs(p, id, f, u0);
    KeptEntryIs(cs, id, f, u0);
  }

  predicate UniqueIds(s: seq<Json>)
  {
    forall i, j :: 0 <= i < j < |s| ==> s[i].id != s[j].id
  }

  /** No id appears twice in the merge. */
  lemma MergedUniqueIds(cs: seq<Option<Json>>)
    ensures UniqueIds(Merged(cs))
  {
    MergedFirstSeen(cs);
  }

  /** `sortBy('date')`, which is stable: `x` is inserted after every entry whose date
      is not later than its own. */
  function Insert(x: Json, s: seq<Json>): seq<Json>
  {
    if s == [] then [x]
    else if DateLe(s[|s| - 1].date, x.date) then s + [x]
    else Insert(x, s[..|s| - 1]) + [s[|s| - 1]]
  }

  function SortByDate(s: seq<Json>): seq<Json>
  {
    if s == [] then [] else Insert(s[|s| - 1], SortByDate(s[..|s| - 1]))
  }

  lemma {:induction false} InsertMultiset(x: Json, s: seq<Json>)
    ensures multiset(Insert(x, s)) == multiset(s) + multiset{x}
  {
    if s != [] && !DateLe(s[|s| - 1].date, x.date) {
      var p := s[..|s| - 1];
      assert s == p + [s[|s| - 1]];
      InsertMultiset(x, p);
    }
  }

  /** The sort is a permutation. */
  lemma {:induction false} SortByDateMultiset(s: seq<Json>)
    ensures multiset(SortByDate(s)) == multiset(s)
  {
    if s != [] {
      var p := s[..|s| - 1];
      assert s == p + [s[|s| - 1]];
      assert multiset(s) == multiset(p) + multiset{s[|s| - 1]};
      SortByDateMultiset(p);
      InsertMultiset(s[|s| - 1], SortByDate(p));
    }
  }

  predicate SortedByDate(s: seq<Json>)
  {
    forall i, j :: 0 <= i < j < |s| ==> DateLe(s[i].date, s[j].date)
  }

  /** Helper: an entry no earlier than every entry of a sorted list can follow it. */
  lemma SortedSnoc(r: seq<Json>, y: Json)
    requires SortedByDate(r) && forall i :: 0 <= i < |r| ==> DateLe(r[i].date, y.date)
    ensures SortedByDate(r + [y])
  {
  }

  /** Helper: what the insertion is placed before is no earlier than what it holds. */
  lemma InsertBelow(x: Json, p: seq<Json>, y: Json)
    requires forall i :: 0 <= i < |p| ==> DateLe(p[i].date, y.date)
    requires DateLe(x.date, y.date)
    ensures forall i :: 0 <= i < |Insert(x, p)| ==> DateLe(Insert(x, p)[i].date, y.date)
  {
    var r := Insert(x, p);
    InsertMultiset(x, p);
    forall i | 0 <= i < |r|
      ensures DateLe(r[i].date, y.date)
    {
      assert r[i] in multiset(r);
      if r[i] != x {
        assert r[i] in multiset(p);
      }
    }
  }

  lemma {:induction false} InsertSorted(x: Json, s: seq<Json>)
    requires SortedByDate(s)
    ensures SortedByDate(Insert(x, s))
  {
    if s == [] {
    } else if DateLe(s[|s| - 1].date, x.date) {
      SortedSnoc(s, x);
    } else {
      var p := s[..|s| - 1];
      InsertSorted(x, p);
      DateLeTotal(x.date, s[|s| - 1].date);
      InsertBelow(x, p, s[|s| - 1]);
      SortedSnoc(Insert(x, p), s[|s| - 1]);
    }
  }

  /** The sort orders by date. */
  lemma {:induction false} SortByDateSorted(s: seq<Json>)
    ensures SortedByDate(SortByDate(s))
  {
    if s != [] {
      SortByDateSorted(s[..|s| - 1]);
      InsertSorted(s[|s| - 1], SortByDate(s[..|s| - 1]));
    }
  }

  /** The entries dated `d`, in order. */
  function OnDate(s: seq<Json>, d: Date): seq<Json>
  {
    if s == [] then []
    else OnDate(s[..|s| - 1], d) + (if s[|s| - 1].date == d then [s[|s| - 1]] else [])
  }

  lemma OnDateSnoc(s: seq<Json>, x: Json, d: Date)
    ensures OnDate(s + [x], d) == OnDate(s, d) + (if x.date == d then [x] else [])
  {
    assert (s + [x])[..|s|] == s;
  }

  lemma {:induction false} InsertOnDate(x: Json, s: seq<Json>, d: Date)
    ensures OnDate(Insert(x, s), d) == OnDate(s, d) + (if x.date == d then [x] else [])
  {
    if s == [] {
      OnDateSnoc([], x, d);
    } else if DateLe(s[|s| - 1].date, x.date) {
      OnDateSnoc(s, x, d);
    } else {
      var p := s[..|s| - 1];
      var last := s[|s| - 1];
      assert s == p + [last];
      InsertOnDate(x, p, d);
      OnDateSnoc(Insert(x, p), last, d);
      OnDateSnoc(p, last, d);
    }
  }

  /** The sort is stable: the entries of any one date keep their relative order. */
  lemma {:induction false} SortByDateStable(s: seq<Json>, d: Date)
    ensures OnDate(SortByDate(s), d) == OnDate(s, d)
  {
    if s != [] {
      var p := s[..|s| - 1];
      var last := s[|s| - 1];
      assert s == p + [last];
      OnDateSnoc(p, last, d);
      var q := SortByDate(p);
      assert SortByDate(s) == Insert(last, q);
      SortByDateStable(p, d);
      InsertOnDate(last, q, d);
    }
  }

  /** A list already in date order is left as it is. */
  lemma {:induction false} SortByDateOfSorted(s: seq<Json>)
    requires SortedByDate(s)
    ensures SortByDate(s) == s
  {
    if s != [] {
      var p := s[..|s| - 1];
      SortByDateOfSorted(p);
      assert s == p + [s[|s| - 1]];
      if p != [] {
        assert DateLe(p[|p| - 1].date, s[|s| - 1].date);
      }
    }
  }

  lemma {:induction false} InsertUniqueIds(x: Json, s: seq<Json>)
    requires UniqueIds(s) && forall k :: 0 <= k < |s| ==> s[k].id != x.id
    ensures UniqueIds(Insert(x, s))
  {
    if s != [] && !DateLe(s[|s| - 1].date, x.date) {
      var p := s[..|s| - 1];
      InsertUniqueIds(x, p);
      var r := Insert(x, p);
      InsertMultiset(x, p);
      forall i | 0 <= i < |r|
        ensures r[i].id != s[|s| - 1].id
      {
        assert r[i] in multiset(r);
        if r[i] != x {
          assert r[i] in p;
        }
      }
    }
  }

  lemma {:induction false} SortByDateUniqueIds(s: seq<Json>)
    requires UniqueIds(s)
    ensures UniqueIds(SortByDate(s))
  {
    if s != [] {
      var p := s[..|s| - 1];
      SortByDateUniqueIds(p);
      var q := SortByDate(p);
      SortByDateMultiset(p);
      forall k | 0 <= k < |q|
        ensures q[k].id != s[|s| - 1].id
      {
        assert q[k] in multiset(q);
        assert q[k] in p;
      }
      InsertUniqueIds(s[|s| - 1], q);
    }
  }

  /** `mergeCompetitions`: the merge, sorted by date. */
  function MergeResult(cs: seq<Option<Json>>): seq<Json>
  {
    SortByDate(Merged(cs))
  }

  /** The result is in date order, has each candidate id exactly once, keeps for each
      id its first candidate with the later urls appended, and keeps first-seen order
      among entries of the same date. */
  lemma MergeResultProperties(cs: seq<Option<Json>>)
    ensures var r := MergeResult(cs);
      SortedByDate(r) && UniqueIds(r) &&
      multiset(r) == multiset(Merged(cs)) &&
      (forall d :: OnDate(r, d) == OnDate(Merged(cs), d)) &&
      (forall i :: 0 <= i < |r| ==> FirstWithId(cs, r[i].id) >= 0 && r[i] == KeptEntry(cs, r[i].id)) &&
      (forall k :: 0 <= k < |cs| && cs[k].Some? ==> FindId(r, cs[k].value.id) >= 0)
  {
    var m := Merged(cs);
    var r := MergeResult(cs);
    SortByDateSorted(m);
    SortByDateMultiset(m);
    MergedUniqueIds(cs);
    SortByDateUniqueIds(m);
    forall d ensures OnDate(r, d) == OnDate(m, d) {
      SortByDateStable(m, d);
    }
    MergedEntries(cs);
    forall i | 0 <= i < |r|
      ensures FirstWithId(cs, r[i].id) >= 0 && r[i] == KeptEntry(cs, r[i].id)
    {
      assert r[i] in multiset(r);
      assert r[i] in m;
    }
    MergedComplete(cs);
    forall k | 0 <= k < |cs| && cs[k].Some?
      ensures FindId(r, cs[k].value.id) >= 0
    {
      var f := FindId(m, cs[k].value.id);
      assert m[f] in multiset(m);
      assert m[f] in r;
    }
  }

  /** Every entry of a list, as a candidate. */
  function Candidates(s: seq<Json>): (r: seq<Option<Json>>)
    ensures |r| == |s| && forall k :: 0 <= k < |s| ==> r[k] == Some(s[k])
  {
    if s == [] then [] else Candidates(s[..|s| - 1]) + [Some(s[|s| - 1])]
  }

  lemma {:induction false} MergedOfUnique(s: seq<Json>)
    requires UniqueIds(s)
    ensures Merged(Candidates(s)) == s
  {
    if s != [] {
      var p := s[..|s| - 1];
      MergedOfUnique(p);
      assert Candidates(s)[..|s| - 1] == Candidates(p);
      assert FindId(p, s[|s| - 1].id) == -1;
      assert s == p + [s[|s| - 1]];
    }
  }

  /** Merging a merge result again changes nothing. */
  lemma MergeResultIdempotent(cs: seq<Option<Json>>)
    ensures MergeResult(Candidates(MergeResult(cs))) == MergeResult(cs)
  {
    var r := MergeResult(cs);
    MergeResultProperties(cs);
    MergedOfUnique(r);
    SortByDateOfSorted(r);
  }

  // ---- The in-place algorithm over competition objects ----

  /** The candidates as values; null stands for any falsy candidate. */
  function Snapshot(cs: seq<Competition?>): (r: seq<Option<Json>>)
    reads cs
    ensures |r| == |cs|
  {
    if cs == [] then []
    else Snapshot(cs[..|cs| - 1]) + [if cs[|cs| - 1] == null then None else Some(cs[|cs| - 1].ToJson())]
  }

  /** Entry `k` is the value of candidate `k`. */
  lemma {:induction false} SnapshotAt(cs: seq<Competition?>, k: nat)
    requires k < |cs|
    ensures Snapshot(cs)[k] == if cs[k] == null then None else Some(cs[k].ToJson())
  {
    if k < |cs| - 1 {
      assert cs[..|cs| - 1][k] == cs[k];
      SnapshotAt(cs[..|cs| - 1], k);
    }
  }

  /** One more candidate adds its value, or `None` for a null one. */
  lemma SnapshotSnoc(cs: seq<Competition?>, c: Competition?)
    ensures Snapshot(cs + [c]) == Snapshot(cs) + [if c == null then None else Some(c.ToJson())]
  {
    assert (cs + [c])[..|cs|] == cs;
  }

  /** A list of values that agrees with the competitions one by one is their JSON. */
  lemma JsonsOf(cs: seq<Competition>, e: seq<Json>)
    requires |e| == |cs| && forall k :: 0 <= k < |cs| ==> e[k] == cs[k].ToJson()
    ensures Jsons(cs) == e
  {
    forall k | 0 <= k < |cs|
      ensures Jsons(cs)[k] == e[k]
    {
      JsonsAt(cs, k);
    }
  }

  lemma JsonsConcat(a: seq<Competition>, b: seq<Competition>)
    ensures Jsons(a + b) == Jsons(a) + Jsons(b)
  {
    forall k | 0 <= k < |a| + |b|
      ensures (Jsons(a) + Jsons(b))[k] == (a + b)[k].ToJson()
    {
      if k < |a| {
        JsonsAt(a, k);
      } else {
        JsonsAt(b, k - |a|);
      }
    }
    JsonsOf(a + b, Jsons(a) + Jsons(b));
  }

  /** The index of the first competition of `merged` with that id, or -1. */
  method FindById(merged: seq<Competition>, id: string) returns (k: int)
    ensures k == FindId(Jsons(merged), id)
  {
    ghost var js := Jsons(merged);
    k := 0;
    while k < |merged| && merged[k].id != id
      invariant 0 <= k <= |merged|
      invariant forall j :: 0 <= j < k ==> js[j].id != id
    {
      JsonsAt(merged, k);
      k := k + 1;
    }
    if k == |merged| {
      k := -1;
    } else {
      JsonsAt(merged, k);
    }
  }

  /** Inserts `x` after every competition whose date is not later than its own. */
  method InsertByDate(x: Competition, s: seq<Competition>) returns (r: seq<Competition>)
    ensures Jsons(r) == Insert(x.ToJson(), Jsons(s))
    ensures multiset(r) == multiset(s) + multiset{x}
  {
    var j := |s|;
    InsertFromEnd(x.ToJson(), Jsons(s));
    while j > 0 && !DateLe(s[j - 1].date, x.date)
      invariant 0 <= j <= |s|
      invariant Insert(x.ToJson(), Jsons(s)) == Insert(x.ToJson(), Jsons(s)[..j]) + Jsons(s)[j..]
    {
      InsertPastAt(x, s, j);
      j := j - 1;
    }
    r := s[..j] + [x] + s[j..];
    InsertedAt(x, s, j);
    MultisetInsertAt(s, j, x);
  }

  lemma InsertFromEnd(xj: Json, js: seq<Json>)
    ensures Insert(xj, js) == Insert(xj, js[..|js|]) + js[|js|..]
  {
    assert js[..|js|] == js && js[|js|..] == [];
  }

  /** The loop of `InsertByDate` moves past a competition dated after `x`. */
  lemma InsertPastAt(x: Competition, s: seq<Competition>, j: int)
    requires 0 < j <= |s| && !DateLe(s[j - 1].date, x.date)
    requires Insert(x.ToJson(), Jsons(s)) == Insert(x.ToJson(), Jsons(s)[..j]) + Jsons(s)[j..]
    ensures Insert(x.ToJson(), Jsons(s)) == Insert(x.ToJson(), Jsons(s)[..j - 1]) + Jsons(s)[j - 1..]
  {
    JsonsAt(s, j - 1);
    InsertPast(x.ToJson(), Jsons(s), j);
  }

  /** Where the loop of `InsertByDate` stops, `x` goes. */
  lemma InsertedAt(x: Competition, s: seq<Competition>, j: int)
    requires 0 <= j <= |s| && (j == 0 || DateLe(s[j - 1].date, x.date))
    requires Insert(x.ToJson(), Jsons(s)) == Insert(x.ToJson(), Jsons(s)[..j]) + Jsons(s)[j..]
    ensures Jsons(s[..j] + [x] + s[j..]) == Insert(x.ToJson(), Jsons(s))
  {
    InsertStopsAt(x, s, j);
    JsonsInsertAt(s, j, x);
  }

  lemma InsertStopsAt(x: Competition, s: seq<Competition>, j: int)
    requires 0 <= j <= |s| && (j == 0 || DateLe(s[j - 1].date, x.date))
    ensures Insert(x.ToJson(), Jsons(s)[..j]) == Jsons(s)[..j] + [x.ToJson()]
  {
    if j > 0 {
      JsonsAt(s, j - 1);
    }
    InsertStops(x.ToJson(), Jsons(s), j);
  }

  lemma MultisetInsertAt<T>(s: seq<T>, j: int, x: T)
    requires 0 <= j <= |s|
    ensures multiset(s[..j] + [x] + s[j..]) == multiset(s) + multiset{x}
  {
    assert s == s[..j] + s[j..];
  }

  lemma JsonsTake(s: seq<Competition>, j: int)
    requires 0 <= j <= |s|
    ensures Jsons(s[..j]) == Jsons(s)[..j]
  {
    forall k | 0 <= k < j
      ensures Jsons(s)[..j][k] == s[..j][k].ToJson()
    {
      JsonsAt(s, k);
    }
    JsonsOf(s[..j], Jsons(s)[..j]);
  }

  lemma JsonsDrop(s: seq<Competition>, j: int)
    requires 0 <= j <= |s|
    ensures Jsons(s[j..]) == Jsons(s)[j..]
  {
    forall k | 0 <= k < |s| - j
      ensures Jsons(s)[j..][k] == s[j..][k].ToJson()
    {
      JsonsAt(s, j + k);
    }
    JsonsOf(s[j..], Jsons(s)[j..]);
  }

  lemma JsonsInsertAt(s: seq<Competition>, j: int, x: Competition)
    requires 0 <= j <= |s|
    ensures Jsons(s[..j] + [x] + s[j..]) == Jsons(s)[..j] + [x.ToJson()] + Jsons(s)[j..]
  {
    JsonsConcat(s[..j], [x]);
    JsonsConcat(s[..j] + [x], s[j..]);
    JsonsAt([x], 0);
    JsonsTake(s, j);
    JsonsDrop(s, j);
  }

  /** The insertion stops before an entry not later than `xj`, or at the front. */
  lemma InsertStops(xj: Json, js: seq<Json>, j: int)
    requires 0 <= j <= |js| && (j == 0 || DateLe(js[j - 1].date, xj.date))
    ensures Insert(xj, js[..j]) == js[..j] + [xj]
  {
  }

  lemma InsertPast(xj: Json, js: seq<Json>, j: int)
    requires 0 < j <= |js| && !DateLe(js[j - 1].date, xj.date)
    ensures Insert(xj, js[..j]) + js[j..] == Insert(xj, js[..j - 1]) + js[j - 1..]
  {
    assert js[..j][..j - 1] == js[..j - 1];
    assert js[j - 1..] == [js[j - 1]] + js[j..];
  }

  lemma SortByDatePrefixStep(js: seq<Json>, i: int)
    requires 0 <= i < |js|
    ensures SortByDate(js[..i + 1]) == Insert(js[i], SortByDate(js[..i]))
  {
    assert js[..i + 1][..i] == js[..i];
  }

  lemma MultisetPrefixStep<T>(s: seq<T>, i: int)
    requires 0 <= i <= |s|
    ensures i < |s| ==> multiset(s[..i + 1]) == multiset(s[..i]) + multiset{s[i]}
    ensures i == |s| ==> multiset(s[..i]) == multiset(s)
  {
    if i < |s| {
      assert s[..i + 1] == s[..i] + [s[i]];
    } else {
      assert s[..i] == s;
    }
  }

  /** `sortBy('date')` over competition objects. */
  method SortCompetitions(s: seq<Competition>) returns (r: seq<Competition>)
    ensures Jsons(r) == SortByDate(Jsons(s))
    ensures multiset(r) == multiset(s)
  {
    r := [];
    var i := 0;
    while i < |s|
      invariant 0 <= i <= |s|
      invariant Jsons(r) == SortByDate(Jsons(s)[..i])
      invariant multiset(r) == multiset(s[..i])
    {
      ghost var before := r;
      r := InsertByDate(s[i], r);
      SortStep(s, i, before, r);
      MultisetPrefixStep(s, i);
      i := i + 1;
    }
    assert Jsons(s)[..|s|] == Jsons(s);
    MultisetPrefixStep(s, |s|);
  }

  /** One iteration of `SortCompetitions`: the next competition is inserted. */
  lemma SortStep(s: seq<Competition>, i: int, before: seq<Competition>, after: seq<Competition>)
    requires 0 <= i < |s|
    requires Jsons(before) == SortByDate(Jsons(s)[..i])
    requires Jsons(after) == Insert(s[i].ToJson(), Jsons(before))
    ensures Jsons(after) == SortByDate(Jsons(s)[..i + 1])
  {
    JsonsAt(s, i);
    SortByDatePrefixStep(Jsons(s), i);
  }

  /** One step of the `reduce` on objects: the existing competition with `c`'s id gains
      `c`'s url if it lacks it, or `c` is pushed. `e` is the value `c` had as a
      candidate; it differs from `c`'s current value only when `c` itself was kept
      earlier and gained urls since. */
  method MergeInto(merged: seq<Competition>, c: Competition, ghost e: Json) returns (r: seq<Competition>)
    requires UniqueIds(Jsons(merged))
    requires e.id == c.id && e.url == c.url && (c !in merged ==> e == c.ToJson())
    modifies (set x | x in merged)`dataUrls
    ensures Jsons(r) == MergeStep(old(Jsons(merged)), Some(e))
    ensures forall x :: x in r ==> x in merged || x == c
    ensures forall x :: x in merged ==> x in r
  {
    ghost var before := Jsons(merged);
    var k := FindById(merged, c.id);
    if k < 0 {
      if c in merged {
        var t :| 0 <= t < |merged| && merged[t] == c;
        JsonsAt(merged, t);
        assert false;
      }
      JsonsConcat(merged, [c]);
      JsonsAt([c], 0);
      r := merged + [c];
    } else {
      JsonsAt(merged, k);
      r := merged;
      if c.url !in merged[k].dataUrls {
        PushUrl(merged, k, merged[k], c.url);
      }
    }
  }

  /** `existing.dataUrls.push(url)` on the `k`-th kept competition; the others are
      distinct objects, since their ids differ. */
  method PushUrl(merged: seq<Competition>, k: nat, existing: Competition, url: Url)
    requires k < |merged| && merged[k] == existing && UniqueIds(Jsons(merged))
    modifies existing`dataUrls
    ensures Jsons(merged) == old(Jsons(merged))[k := old(Jsons(merged))[k].(dataUrls := old(existing.dataUrls) + [url])]
  {
    ghost var before := Jsons(merged);
    forall m | 0 <= m < |merged|
      ensures before[m] == merged[m].ToJson()
    {
      JsonsAt(merged, m);
    }
    existing.dataUrls := existing.dataUrls + [url];
    forall m | 0 <= m < |merged| && m != k
      ensures merged[m] != existing
    {
      assert before[m].id != before[k].id;
    }
    JsonsOf(merged, before[k := before[k].(dataUrls := before[k].dataUrls + [url])]);
  }

  /** The candidates from `i` on still hold the values they were passed with,
      except those already kept, whose urls may have grown. */
  ghost predicate Pending(candidates: seq<Competition?>, snap: seq<Option<Json>>, merged: seq<Competition>, i: nat)
    reads candidates
  {
    |snap| == |candidates| &&
    forall k :: i <= k < |candidates| ==>
      (snap[k].Some? <==> candidates[k] != null) &&
      (candidates[k] != null ==>
         snap[k].value.id == candidates[k].id && snap[k].value.url == candidates[k].url &&
         (candidates[k] !in merged ==> snap[k].value == candidates[k].ToJson()))
  }

  /** One iteration of the `reduce`: merges `candidates[i]`, if truthy. */
  method MergeCandidate(candidates: seq<Competition?>, i: nat, merged: seq<Competition>, ghost snap: seq<Option<Json>>)
    returns (r: seq<Competition>)
    requires i < |candidates| && Pending(candidates, snap, merged, i)
    requires Jsons(merged) == Merged(snap[..i])
    requires forall c :: c in merged ==> c in candidates
    modifies (set x | x in merged)`dataUrls
    ensures Pending(candidates, snap, r, i + 1)
    ensures Jsons(r) == Merged(snap[..i + 1])
    ensures forall c :: c in r ==> c in candidates
  {
    MergedUniqueIds(snap[..i]);
    MergedPrefixNext(snap, i);
    var c := candidates[i];
    if c != null {
      r := MergeInto(merged, c, snap[i].value);
    } else {
      r := merged;
    }
  }

  /** The `reduce` of `mergeCompetitions` on objects: each candidate is merged
      into the kept list in turn; only kept competitions gain urls. */
  method MergeAll(candidates: seq<Competition?>) returns (merged: seq<Competition>)
    modifies (set c | c in candidates && c != null)`dataUrls
    ensures Jsons(merged) == Merged(old(Snapshot(candidates)))
    ensures forall c :: c in merged ==> c in candidates
  {
    ghost var snap := Snapshot(candidates);
    forall k | 0 <= k < |candidates|
      ensures snap[k] == if candidates[k] == null then None else Some(candidates[k].ToJson())
    {
      SnapshotAt(candidates, k);
    }
    merged := [];
    var i := 0;
    while i < |candidates|
      invariant 0 <= i <= |candidates|
      invariant Pending(candidates, snap, merged, i)
      invariant Jsons(merged) == Merged(snap[..i])
      invariant forall c :: c in merged ==> c in candidates
    {
      merged := MergeCandidate(candidates, i, merged, snap);
      i := i + 1;
    }
    assert snap[..|candidates|] == snap;
  }

  /** `mergeCompetitions(candidates)`: drops falsy candidates, keeps the first
      competition of each id, pushes onto its `dataUrls` the url of each later
      duplicate that it lacks, and sorts the kept competitions by date. Only the
      `dataUrls` of kept competitions change. */
  method MergeCompetitions(candidates: seq<Competition?>) returns (result: seq<Competition>)
    modifies (set c | c in candidates && c != null)`dataUrls
    ensures Jsons(result) == MergeResult(old(Snapshot(candidates)))
    ensures forall c :: c in result ==> c in candidates
  {
    var merged := MergeAll(candidates);
    result := SortCompetitions(merged);
    forall c | c in result
      ensures c in candidates
    {
      assert c in multiset(result);
      assert c in merged;
    }
  }
}
