/** The pure helpers of the MongoDB storage (server/lib/storages/mongodb.js and
    its older copy lib/storages/mongodb.js): the document a competition is
    stored as, the collection a model class maps to, the projection built from
    a list of fields, and the error `removeAll` tolerates. The driver calls
    themselves are not modelled. */
module Mongo {
  import opened Common
  import opened JsText
  import opened Competitions

  // ---------------------------------------------------------------------------
  // Documents

  /** A stored document: a competition's JSON with `id` renamed to `_id`.
      `None` marks a field the document does not have. */
  datatype Doc = Doc(
    _id: Option<string>,
    place: string,
    date: Date,
    provider: string,
    url: Url,
    dataUrls: Option<seq<Url>>,
    contests: Option<seq<Contest>>)

  /** `serialize`: the id goes to `_id`, every other field is kept. */
  function Serialize(j: Json): (d: Doc)
    ensures d._id == Some(j.id)
    ensures d.dataUrls == Some(j.dataUrls) && d.contests == Some(j.contests)
  {
    Doc(Some(j.id), j.place, j.date, j.provider, j.url, Some(j.dataUrls), Some(j.contests))
  }

  /** The attributes `deserialize` hands to the constructor: `_id` becomes `id`. */
  function AttrsOfDoc(d: Doc): Attrs
  {
    Attrs(d._id, d.place, d.date, d.provider, d.url, d.dataUrls, d.contests)
  }

  /** `deserialize`: a missing document (`null`) is returned as it is; otherwise
      the competition built from it, which fails when it has no `_id`. */
  function Deserialize(d: Option<Doc>): (r: Result<Option<Json>, Error>)
    ensures d.None? ==> r == Success(None)
    ensures d.Some? ==> (r.Failure? <==> d.value._id.None?)
    ensures r.Success? && d.Some? ==> r.value.Some? && r.value.value.id == d.value._id.value
  {
    if d.None? then Success(None)
    else
      match Build(AttrsOfDoc(d.value))
      case Failure(e) => Failure(e)
      case Success(j) => Success(Some(j))
  }

  /** Deserializing a serialized competition gives back the same JSON. */
  lemma DeserializeSerialize(j: Json)
    ensures Deserialize(Some(Serialize(j))) == Success(Some(j))
  {
    assert AttrsOfDoc(Serialize(j)) == AttrsOf(j);
    BuildAttrsOf(j);
  }

  /** A document with an `_id` and every field present is stored back unchanged. */
  lemma SerializeDeserialize(d: Doc)
    requires d._id.Some? && d.dataUrls.Some? && d.contests.Some?
    ensures Deserialize(Some(d)).Success?
    ensures Serialize(Deserialize(Some(d)).value.value) == d
  {
    BuildFields(AttrsOfDoc(d));
  }

  // ---------------------------------------------------------------------------
  // Collections

  /** The keys of the `classes` registry. */
  predicate Registered(name: string)
  {
    name == "competition"
  }

  /** `getCollectionName`: the lower-cased class name, which must be registered. */
  function GetCollectionName(className: string): (r: Result<string, Error>)
    ensures r.Success? <==> Registered(LowerCase(className))
    ensures r.Success? ==> r.value == LowerCase(className)
    ensures r.Failure? ==> r.error == UnsupportedModel(LowerCase(className))
    ensures r.Failure? ==> Message(r.error) == "Unsupported model class " + LowerCase(className)
  {
    var name := LowerCase(className);
    if Registered(name) then Success(name) else Failure(UnsupportedModel(name))
  }

  /** The same check as written: JavaScript's `in` also finds the keys every
      object inherits, and two of them are lower-case. */
  function GetCollectionNameAsWritten(className: string): (r: Result<string, Error>)
    ensures r.Success? ==> r.value == LowerCase(className)
  {
    var name := LowerCase(className);
    if Registered(name) || name == "constructor" || name == "__proto__" then Success(name)
    else Failure(UnsupportedModel(name))
  }

  /** A class whose lower-cased name is `constructor` or `__proto__` (a class
      named `Constructor`, say) passes the check as written though no such
      model is registered; the corrected check rejects it. */
  lemma InheritedKeyAccepted(className: string)
    requires LowerCase(className) == "constructor" || LowerCase(className) == "__proto__"
    ensures GetCollectionNameAsWritten(className) == Success(LowerCase(className))
    ensures GetCollectionName(className) == Failure(UnsupportedModel(LowerCase(className)))
  {
  }

  /** The input that shows it: a class named `constructor`. */
  lemma ConstructorAccepted()
    ensures GetCollectionNameAsWritten("constructor") == Success("constructor")
    ensures GetCollectionName("constructor").Failure?
  {
    LowerCaseOfLower("constructor");
  }

  /** The two checks agree on every name but the inherited keys. */
  lemma CollectionNameChecksAgree(className: string)
    requires LowerCase(className) != "constructor" && LowerCase(className) != "__proto__"
    ensures GetCollectionNameAsWritten(className) == GetCollectionName(className)
  {
  }

  /** The collection a model class is stored in: the server copy appends the
      configured suffix (or nothing), the older copy has no suffix. */
  function CollectionName(tree: Tree, suffix: Option<string>, className: string): (r: Result<string, Error>)
    ensures r.Failure? <==> GetCollectionName(className).Failure?
    ensures r.Failure? ==> r == GetCollectionName(className)
  {
    match GetCollectionName(className)
    case Failure(e) => Failure(e)
    case Success(name) =>
      Success(if tree.Server? && suffix.Some? then name + suffix.value else name)
  }

  /** Without a suffix both copies use the model name itself; with one, the
      server copy's name starts with the model name and ends with the suffix. */
  lemma CollectionNameSuffix(tree: Tree, suffix: Option<string>, className: string)
    requires GetCollectionName(className).Success?
    ensures var name := CollectionName(tree, suffix, className).value;
      (tree.Legacy? || suffix.None? ==> name == LowerCase(className)) &&
      (tree.Server? && suffix.Some? ==> |LowerCase(className)| <= |name| && name[..|LowerCase(className)|] == LowerCase(className) && EndsWith(name, suffix.value))
  {
    if tree.Server? && suffix.Some? {
      var name := CollectionName(tree, suffix, className).value;
      assert name[..|LowerCase(className)|] == LowerCase(className);
      assert name[|name| - |suffix.value|..] == suffix.value;
    }
  }

  // ---------------------------------------------------------------------------
  // Projections

  /** The projection key of a field: `_id` is stored under `id`. */
  function FilterKey(field: string): string
  {
    if field == "_id" then "id" else field
  }

  /** The projection `makeFilter` builds from an array of fields. */
  function Projection(fields: seq<string>): map<string, int>
  {
    if fields == [] then map[]
    else Projection(fields[..|fields| - 1])[FilterKey(fields[|fields| - 1]) := 1]
  }

  /** A key is projected exactly when some listed field maps to it; every
      projected value is 1, and `_id` is never a key. */
  lemma {:induction false} ProjectionKeys(fields: seq<string>, key: string)
    ensures key in Projection(fields) <==> exists i :: 0 <= i < |fields| && FilterKey(fields[i]) == key
    ensures key in Projection(fields) ==> Projection(fields)[key] == 1
    ensures "_id" !in Projection(fields)
  {
    if fields != [] {
      var p := fields[..|fields| - 1];
      ProjectionKeys(p, key);
      if exists i :: 0 <= i < |p| && FilterKey(p[i]) == key {
        var i :| 0 <= i < |p| && FilterKey(p[i]) == key;
        assert fields[i] == p[i];
      }
      if exists i :: 0 <= i < |fields| && FilterKey(fields[i]) == key {
        var i :| 0 <= i < |fields| && FilterKey(fields[i]) == key;
        if i < |p| {
          assert p[i] == fields[i];
        }
      }
    }
  }

  /** `makeFilter`: an empty projection unless the argument is an array (`Some`). */
  method MakeFilter(filtered: Option<seq<string>>) returns (filter: map<string, int>)
    ensures filtered.None? ==> filter == map[]
    ensures filtered.Some? ==> filter == Projection(filtered.value)
  {
    filter := map[];
    if filtered.Some? {
      var fields := filtered.value;
      var i := 0;
      while i < |fields|
        invariant 0 <= i <= |fields|
        invariant filter == Projection(fields[..i])
      {
        assert fields[..i + 1][..i] == fields[..i];
        filter := filter[FilterKey(fields[i]) := 1];
        i := i + 1;
      }
      assert fields[..i] == fields;
    }
  }

  /** The projection `update` asks for, `['id']`, selects `id` alone. */
  lemma ProjectionOfId()
    ensures Projection(["id"]) == map["id" := 1]
    ensures Projection(["_id"]) == map["id" := 1]
  {
    assert ["id"][..0] == [];
    assert ["_id"][..0] == [];
  }

  // ---------------------------------------------------------------------------
  // removeAll

  /** The error a missing collection gives (`ns not found`, code 26). */
  predicate Tolerated(e: Error)
  {
    e.Database? && e.code == Some(26)
  }

  /** `removeAll`: locating the collection and dropping it; a drop of a
      collection that does not exist is not an error, every other error is
      rethrown, the unsupported model class too. */
  function RemoveAll(tree: Tree, suffix: Option<string>, className: string, drop: string -> Result<(), Error>): (r: Result<(), Error>)
  {
    var attempt := match CollectionName(tree, suffix, className)
      case Failure(e) => Failure(e)
      case Success(name) => drop(name);
    if attempt.Failure? && Tolerated(attempt.error) then Success(()) else attempt
  }

  /** `removeAll` rejects exactly when the class is unsupported, or the drop
      fails with an error other than code 26, and then with that error. */
  lemma RemoveAllOutcome(tree: Tree, suffix: Option<string>, className: string, drop: string -> Result<(), Error>)
    ensures var r := RemoveAll(tree, suffix, className, drop);
      var c := CollectionName(tree, suffix, className);
      (c.Failure? ==> r == Failure(UnsupportedModel(LowerCase(className)))) &&
      (c.Success? ==> (r.Failure? <==> drop(c.value).Failure? && !Tolerated(drop(c.value).error))) &&
      (c.Success? && r.Failure? ==> r == drop(c.value))
  {
  }

  /** An error without a code, or with code 0, is rethrown. */
  lemma RemoveAllRethrows(tree: Tree, suffix: Option<string>, className: string, drop: string -> Result<(), Error>, code: Option<int>)
    requires GetCollectionName(className).Success?
    requires !Truthy(code)
    requires drop(CollectionName(tree, suffix, className).value) == Failure(Database(code))
    ensures RemoveAll(tree, suffix, className, drop) == Failure(Database(code))
  {
  }
}
