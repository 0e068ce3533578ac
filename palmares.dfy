/** The update orchestrator of lib/palmares.js: the module-level `update` that
    loads the known ids once, lists every provider's competitions, keeps the new
    ones, fetches their details, keeps those with contests, saves them and
    records their ids; and the single-flight rule of `Palmares.update`, as an
    explicit state machine. Providers and storage are the calls the orchestrator
    makes, as function values; the providers' `Promise.all`, the pool and the
    parallel saves run one after the other here. */
module Palmares {
  import opened Common
  import opened Seqs
  import opened Competitions
  import opened Merge

  /** A provider as `update` uses it: the competitions `listResults(year)` gives,
      and the contests `getDetails(competition)` leaves on a competition. */
  datatype Source = Source(
    listResults: int -> Result<seq<Json>, Error>,
    getDetails: Json -> Result<seq<Contest>, Error>)

  /** The storage calls: the ids of the stored competitions, and `save`. */
  datatype Storage = Storage(
    findIds: Result<seq<string>, Error>,
    save: Json -> Result<(), Error>)

  // ---------------------------------------------------------------------------
  // One provider

  function IsNew(known: seq<string>): Json -> bool
  {
    (j: Json) => j.id !in known
  }

  /** A competition after `getDetails`: the contests it gives, or [] when it fails. */
  function Detailed(src: Source, j: Json): Json
  {
    j.(contests := if src.getDetails(j).Success? then src.getDetails(j).value else [])
  }

  function DetailOf(src: Source): Json -> Json
  {
    (j: Json) => Detailed(src, j)
  }

  function HasContests(): Json -> bool
  {
    (j: Json) => j.contests != []
  }

  /** The async function of one provider: its new competitions, detailed, with
      the ones without contests dropped. */
  function Fetched(src: Source, known: seq<string>, year: int): Result<seq<Json>, Error>
  {
    match src.listResults(year)
    case Failure(e) => Failure(e)
    case Success(listed) => Success(Filter(Map(Filter(listed, IsNew(known)), DetailOf(src)), HasContests()))
  }

  /** A competition comes out of a provider exactly when the provider lists it
      with an unknown id and its details give it contests; a failed `getDetails`
      gives none, so that competition is dropped. */
  lemma FetchedMember(src: Source, known: seq<string>, year: int, x: Json)
    requires src.listResults(year).Success?
    ensures var listed := src.listResults(year).value;
      x in Fetched(src, known, year).value <==>
        x.contests != [] && exists k :: 0 <= k < |listed| && listed[k].id !in known && Detailed(src, listed[k]) == x
    ensures forall j :: src.getDetails(j).Failure? ==> Detailed(src, j).contests == []
  {
    var listed := src.listResults(year).value;
    var detailed := Map(Filter(listed, IsNew(known)), DetailOf(src));
    FilterMember(detailed, HasContests(), x);
    MapFilterMember(listed, IsNew(known), DetailOf(src), x);
  }

  // ---------------------------------------------------------------------------
  // All providers

  /** `flatten(await Promise.all(tasks))` over results computed by `f`: the
      values in order, or the first rejection in list order. */
  function Gathered<S, T, E>(srcs: seq<S>, f: S -> Result<seq<T>, E>): Result<seq<T>, E>
  {
    if srcs == [] then Success([])
    else
      match Gathered(srcs[..|srcs| - 1], f)
      case Failure(e) => Failure(e)
      case Success(before) =>
        match f(srcs[|srcs| - 1])
        case Failure(e) => Failure(e)
        case Success(more) => Success(before + more)
  }

  lemma GatheredNext<S, T, E>(srcs: seq<S>, f: S -> Result<seq<T>, E>, i: nat)
    requires i < |srcs|
    ensures Gathered(srcs[..i + 1], f) ==
      match Gathered(srcs[..i], f)
      case Failure(e) => Failure(e)
      case Success(before) =>
        match f(srcs[i])
        case Failure(e) => Failure(e)
        case Success(more) => Success(before + more)
  {
    assert srcs[..i + 1][..i] == srcs[..i];
  }

  /** A rejection stays a rejection whatever follows. */
  lemma {:induction false} GatheredStops<S, T, E>(srcs: seq<S>, f: S -> Result<seq<T>, E>, n: nat)
    requires n <= |srcs| && Gathered(srcs[..n], f).Failure?
    ensures Gathered(srcs, f) == Gathered(srcs[..n], f)
  {
    if n < |srcs| {
      var p := srcs[..|srcs| - 1];
      assert p[..n] == srcs[..n];
      GatheredStops(p, f, n);
    } else {
      assert srcs[..n] == srcs;
    }
  }

  /** The gathering rejects exactly when one of the tasks does. */
  lemma {:induction false} GatheredFails<S, T, E>(srcs: seq<S>, f: S -> Result<seq<T>, E>)
    ensures Gathered(srcs, f).Failure? <==> exists i :: 0 <= i < |srcs| && f(srcs[i]).Failure?
  {
    if srcs != [] {
      var p := srcs[..|srcs| - 1];
      GatheredFails(p, f);
      if exists i :: 0 <= i < |p| && f(p[i]).Failure? {
        var i :| 0 <= i < |p| && f(p[i]).Failure?;
        assert srcs[i] == p[i];
      }
      if exists i :: 0 <= i < |srcs| && f(srcs[i]).Failure? {
        var i :| 0 <= i < |srcs| && f(srcs[i]).Failure?;
        if i < |p| {
          assert p[i] == srcs[i];
        }
      }
    }
  }

  /** `x` is among what the task on `s` gives. */
  predicate GivenBy<S, T(==), E>(f: S -> Result<seq<T>, E>, s: S, x: T)
  {
    f(s).Success? && x in f(s).value
  }

  /** The values gathered are exactly those the tasks give. */
  lemma {:induction false} GatheredMember<S, T, E>(srcs: seq<S>, f: S -> Result<seq<T>, E>, x: T)
    requires Gathered(srcs, f).Success?
    ensures x in Gathered(srcs, f).value <==> exists i :: 0 <= i < |srcs| && GivenBy(f, srcs[i], x)
  {
    if srcs != [] {
      var p := srcs[..|srcs| - 1];
      GatheredMember(p, f, x);
      assert Gathered(srcs, f).value == Gathered(p, f).value + f(srcs[|srcs| - 1]).value;
      if x in Gathered(p, f).value {
        var i :| 0 <= i < |p| && GivenBy(f, p[i], x);
        assert srcs[i] == p[i];
      } else if x in f(srcs[|srcs| - 1]).value {
        assert GivenBy(f, srcs[|srcs| - 1], x);
      } else {
        forall i | 0 <= i < |srcs|
          ensures !GivenBy(f, srcs[i], x)
        {
          if i < |p| {
            assert srcs[i] == p[i];
          }
        }
      }
    }
  }

  function FetchOf(known: seq<string>, year: int): Source -> Result<seq<Json>, Error>
  {
    src => Fetched(src, known, year)
  }

  /** The new competitions of every provider, in provider order, or the first
      provider's rejection. */
  function FetchedAll(srcs: seq<Source>, known: seq<string>, year: int): Result<seq<Json>, Error>
  {
    Gathered(srcs, FetchOf(known, year))
  }

  /** The update fails exactly when some provider's listing rejects. */
  lemma FetchedAllFails(srcs: seq<Source>, known: seq<string>, year: int)
    ensures FetchedAll(srcs, known, year).Failure? <==> exists i :: 0 <= i < |srcs| && srcs[i].listResults(year).Failure?
  {
    GatheredFails(srcs, FetchOf(known, year));
    assert forall i :: 0 <= i < |srcs| ==> (FetchOf(known, year)(srcs[i]).Failure? <==> srcs[i].listResults(year).Failure?);
  }

  /** Every competition returned comes from one provider, has an unknown id and
      has contests. */
  lemma FetchedAllNew(srcs: seq<Source>, known: seq<string>, year: int, x: Json)
    requires FetchedAll(srcs, known, year).Success? && x in FetchedAll(srcs, known, year).value
    ensures exists i :: 0 <= i < |srcs| && srcs[i].listResults(year).Success? && x in Fetched(srcs[i], known, year).value
    ensures x.id !in known && x.contests != []
  {
    GatheredMember(srcs, FetchOf(known, year), x);
    var i :| 0 <= i < |srcs| && GivenBy(FetchOf(known, year), srcs[i], x);
    FetchedMember(srcs[i], known, year, x);
  }
  // ---------------------------------------------------------------------------
  // Saving

  /** The ids `competitionIds` gains: those of the competitions saved, in order. */
  function SavedIds(save: Json -> Result<(), Error>, news: seq<Json>): seq<string>
  {
    if news == [] then []
    else SavedIds(save, news[..|news| - 1]) + (if save(news[|news| - 1]).Success? then [news[|news| - 1].id] else [])
  }

  /** The first rejected save, if any. */
  function SaveError(save: Json -> Result<(), Error>, news: seq<Json>): Option<Error>
  {
    if news == [] then None
    else
      var e := SaveError(save, news[..|news| - 1]);
      if e.Some? then e
      else if save(news[|news| - 1]).Failure? then Some(save(news[|news| - 1]).error) else None
  }

  /** When every save succeeds, the ids gained are exactly the ids returned. */
  lemma {:induction false} SavedIdsAll(save: Json -> Result<(), Error>, news: seq<Json>)
    requires SaveError(save, news).None?
    ensures SavedIds(save, news) == Ids(news)
  {
    if news != [] {
      SavedIdsAll(save, news[..|news| - 1]);
    }
  }

  // ---------------------------------------------------------------------------
  // The whole run

  /** The ids in use: the cached ones, else those the storage gives. */
  function Loaded(cached: Option<seq<string>>, find: Result<seq<string>, Error>): Result<seq<string>, Error>
  {
    if cached.Some? then Success(cached.value) else find
  }

  /** What `update(instance, year)` settles with, and the instance's
      `competitionIds` afterwards. */
  function UpdateOutcome(storage: Storage, srcs: seq<Source>, cached: Option<seq<string>>, year: int): (Result<seq<Json>, Error>, Option<seq<string>>)
  {
    match Loaded(cached, storage.findIds)
    case Failure(e) => (Failure(e), cached)
    case Success(known) =>
      match FetchedAll(srcs, known, year)
      case Failure(e) => (Failure(e), Some(known))
      case Success(news) =>
        var ids := Some(known + SavedIds(storage.save, news));
        match SaveError(storage.save, news)
        case Some(e) => (Failure(e), ids)
        case None => (Success(news), ids)
  }

  /** The outcome once the providers have answered: the saves decide it. */
  lemma OutcomeOfSaves(storage: Storage, srcs: seq<Source>, cached: Option<seq<string>>, year: int, known: seq<string>, news: seq<Json>)
    requires Loaded(cached, storage.findIds) == Success(known) && FetchedAll(srcs, known, year) == Success(news)
    ensures UpdateOutcome(storage, srcs, cached, year) ==
      (if SaveError(storage.save, news).Some? then Failure(SaveError(storage.save, news).value) else Success(news),
       Some(known + SavedIds(storage.save, news)))
  {
  }

  /** The ids are read from storage only while none are cached. */
  lemma LoadedOnlyWhileNull(storage: Storage, srcs: seq<Source>, ids: seq<string>, year: int, other: Result<seq<string>, Error>)
    ensures UpdateOutcome(storage, srcs, Some(ids), year) == UpdateOutcome(storage.(findIds := other), srcs, Some(ids), year)
    ensures UpdateOutcome(storage, srcs, None, year) == UpdateOutcome(storage, srcs, if storage.findIds.Success? then Some(storage.findIds.value) else None, year)
  {
  }

  /** A successful update returns only competitions with unknown ids and with
      contests, and the ids gain exactly the ids returned. */
  lemma UpdateSucceeds(storage: Storage, srcs: seq<Source>, cached: Option<seq<string>>, year: int)
    requires UpdateOutcome(storage, srcs, cached, year).0.Success?
    ensures var (r, ids) := UpdateOutcome(storage, srcs, cached, year);
      var known := Loaded(cached, storage.findIds).value;
      ids == Some(known + Ids(r.value)) &&
      forall k :: 0 <= k < |r.value| ==> r.value[k].id !in known && r.value[k].contests != []
  {
    var known := Loaded(cached, storage.findIds).value;
    var news := FetchedAll(srcs, known, year).value;
    SavedIdsAll(storage.save, news);
    forall k | 0 <= k < |news|
      ensures news[k].id !in known && news[k].contests != []
    {
      FetchedAllNew(srcs, known, year, news[k]);
    }
  }

  /** When a provider's listing rejects, the update rejects and the ids gain
      nothing. */
  lemma ListingRejected(storage: Storage, srcs: seq<Source>, cached: Option<seq<string>>, year: int, i: nat)
    requires i < |srcs| && srcs[i].listResults(year).Failure?
    ensures var (r, ids) := UpdateOutcome(storage, srcs, cached, year);
      r.Failure? && (ids == cached || (cached.None? && ids == Some(storage.findIds.value)))
  {
    if Loaded(cached, storage.findIds).Success? {
      FetchedAllFails(srcs, Loaded(cached, storage.findIds).value, year);
    }
  }

  // ---------------------------------------------------------------------------
  // The run, step by step

  /** `provider.getDetails(competition)` on a fresh competition; a rejection
      leaves it without contests. */
  method Detail(src: Source, j: Json) returns (c: Competition)
    ensures fresh(c) && c.ToJson() == Detailed(src, j)
  {
    c := new Competition.FromJson(j);
    var details := src.getDetails(c.ToJson());
    if details.Success? {
      c.contests := details.value;
    } else {
      c.contests := [];
    }
  }

  /** The pool of `getDetails` calls over a provider's new competitions. */
  method DetailAll(src: Source, candidates: seq<Json>) returns (detailed: seq<Competition>)
    ensures Jsons(detailed) == Map(candidates, DetailOf(src))
    ensures forall c :: c in detailed ==> fresh(c)
  {
    detailed := [];
    var i := 0;
    while i < |candidates|
      invariant 0 <= i <= |candidates|
      invariant forall c :: c in detailed ==> fresh(c)
      invariant Jsons(detailed) == Map(candidates[..i], DetailOf(src))
    {
      var c := Detail(src, candidates[i]);
      MapNext(candidates, DetailOf(src), i);
      JsonsConcat(detailed, [c]);
      detailed := detailed + [c];
      i := i + 1;
    }
    assert candidates[..i] == candidates;
  }

  /** `competitions.filter(({contests}) => contests.length)`. */
  method KeepWithContests(detailed: seq<Competition>) returns (kept: seq<Competition>)
    ensures Jsons(kept) == Filter(Jsons(detailed), HasContests())
    ensures forall c :: c in kept ==> c in detailed
  {
    ghost var js := Jsons(detailed);
    kept := [];
    var k := 0;
    while k < |detailed|
      invariant 0 <= k <= |detailed|
      invariant forall c :: c in kept ==> c in detailed
      invariant Jsons(kept) == Filter(js[..k], HasContests())
    {
      JsonsAt(detailed, k);
      FilterNext(js, HasContests(), k);
      assert HasContests()(js[k]) == (detailed[k].contests != []);
      if detailed[k].contests != [] {
        JsonsConcat(kept, [detailed[k]]);
        kept := kept + [detailed[k]];
      }
      k := k + 1;
    }
    assert js[..k] == js;
  }

  /** The async function `update` runs for one provider. */
  method FetchProvider(src: Source, known: seq<string>, year: int) returns (r: Result<seq<Competition>, Error>)
    ensures var f := Fetched(src, known, year);
      (f.Failure? ==> r == Failure(f.error)) && (f.Success? ==> r.Success? && Jsons(r.value) == f.value)
    ensures r.Success? ==> forall c :: c in r.value ==> fresh(c)
  {
    var listed := src.listResults(year);
    if listed.Failure? {
      return Failure(listed.error);
    }
    var detailed := DetailAll(src, Filter(listed.value, IsNew(known)));
    var kept := KeepWithContests(detailed);
    r := Success(kept);
  }

  /** `flatten(await Promise.all(...))` over the providers, one after the other. */
  method FetchAll(srcs: seq<Source>, known: seq<string>, year: int) returns (r: Result<seq<Competition>, Error>)
    ensures var f := FetchedAll(srcs, known, year);
      (f.Failure? ==> r == Failure(f.error)) && (f.Success? ==> r.Success? && Jsons(r.value) == f.value)
    ensures r.Success? ==> forall c :: c in r.value ==> fresh(c)
  {
    var news: seq<Competition> := [];
    var i := 0;
    while i < |srcs|
      invariant 0 <= i <= |srcs|
      invariant forall c :: c in news ==> fresh(c)
      invariant FetchedAll(srcs[..i], known, year) == Success(Jsons(news))
    {
      GatheredNext(srcs, FetchOf(known, year), i);
      var got := FetchProvider(srcs[i], known, year);
      if got.Failure? {
        GatheredStops(srcs, FetchOf(known, year), i + 1);
        return Failure(got.error);
      }
      JsonsConcat(news, got.value);
      news := news + got.value;
      i := i + 1;
    }
    assert srcs[..i] == srcs;
    r := Success(news);
  }

  /** The saves of the new competitions: the ids of those saved, in order, and
      the first rejection. */
  method SaveAll(save: Json -> Result<(), Error>, news: seq<Competition>) returns (saved: seq<string>, failed: Option<Error>)
    ensures saved == SavedIds(save, Jsons(news)) && failed == SaveError(save, Jsons(news))
  {
    ghost var js := Jsons(news);
    saved, failed := [], None;
    var j := 0;
    while j < |news|
      invariant 0 <= j <= |news|
      invariant saved == SavedIds(save, js[..j]) && failed == SaveError(save, js[..j])
    {
      JsonsAt(news, j);
      assert js[..j + 1][..j] == js[..j];
      var r := save(news[j].ToJson());
      if r.Success? {
        saved := saved + [news[j].id];
      } else if failed.None? {
        failed := Some(r.error);
      }
      j := j + 1;
    }
    assert js[..j] == js;
  }

  // ---------------------------------------------------------------------------
  // Single flight

  /** One call of `palmares.update(year)`; `caller` tells the calls apart. */
  datatype Call = Call(caller: nat, year: int)

  /** The in-flight result handed to a waiting call. */
  datatype Reply = Reply(caller: nat, outcome: Result<seq<Json>, Error>)

  /** Whether the instance is in `updateInProgress`: the year its run was
      started with, and the callers listening for its `update` event. */
  datatype Flight = Idle | Running(year: int, waiters: seq<nat>)

  /** A call: it starts a run when none is in flight, and waits otherwise. */
  function Arrive(f: Flight, call: Call): Flight
  {
    match f
    case Idle => Running(call.year, [])
    case Running(y, ws) => Running(y, ws + [call.caller])
  }

  function ArriveAll(f: Flight, calls: seq<Call>): Flight
  {
    if calls == [] then f else Arrive(ArriveAll(f, calls[..|calls| - 1]), calls[|calls| - 1])
  }

  function Callers(calls: seq<Call>): (r: seq<nat>)
    ensures |r| == |calls|
  {
    if calls == [] then [] else Callers(calls[..|calls| - 1]) + [calls[|calls| - 1].caller]
  }

  lemma {:induction false} CallersAt(calls: seq<Call>, k: nat)
    requires k < |calls|
    ensures Callers(calls)[k] == calls[k].caller
  {
    if k < |calls| - 1 {
      assert calls[..|calls| - 1][k] == calls[k];
      CallersAt(calls[..|calls| - 1], k);
    }
  }

  /** The same outcome for every waiter, in the order they came. */
  function Replies(ws: seq<nat>, outcome: Result<seq<Json>, Error>): (r: seq<Reply>)
    ensures |r| == |ws|
  {
    if ws == [] then [] else Replies(ws[..|ws| - 1], outcome) + [Reply(ws[|ws| - 1], outcome)]
  }

  lemma {:induction false} RepliesAt(ws: seq<nat>, outcome: Result<seq<Json>, Error>, k: nat)
    requires k < |ws|
    ensures Replies(ws, outcome)[k] == Reply(ws[k], outcome)
  {
    if k < |ws| - 1 {
      assert ws[..|ws| - 1][k] == ws[k];
      RepliesAt(ws[..|ws| - 1], outcome, k);
    }
  }

  /** The end of a run, on success and on failure alike: the instance leaves
      `updateInProgress` and every waiter gets the outcome. */
  function Settle(f: Flight, outcome: Result<seq<Json>, Error>): (Flight, seq<Reply>)
  {
    match f
    case Idle => (Idle, [])
    case Running(_, ws) => (Idle, Replies(ws, outcome))
  }

  /** Calls that come while a run is in flight start nothing: the run keeps the
      year it started with, whatever year they pass, and they queue up. */
  lemma {:induction false} ArriveAllQueues(f: Flight, calls: seq<Call>)
    requires f.Running? || calls != []
    ensures var g := ArriveAll(f, calls);
      g.Running? &&
      (f.Running? ==> g.year == f.year && g.waiters == f.waiters + Callers(calls)) &&
      (f.Idle? ==> g.year == calls[0].year && g.waiters == Callers(calls[1..]))
  {
    if f.Running? {
      if calls != [] {
        ArriveAllQueues(f, calls[..|calls| - 1]);
      }
    } else if |calls| > 1 {
      var p := calls[..|calls| - 1];
      ArriveAllQueues(f, p);
      assert p[1..] == calls[1..|calls| - 1];
      assert calls[1..][..|calls[1..]| - 1] == calls[1..|calls| - 1];
    }
  }

  /** Simultaneous calls: only the first runs, with its year; when the run
      ends, each later call gets the same outcome, and the next call starts a
      fresh run. */
  lemma SingleFlight(calls: seq<Call>, outcome: Result<seq<Json>, Error>, next: Call)
    requires calls != []
    ensures ArriveAll(Idle, calls).year == calls[0].year
    ensures var (g, replies) := Settle(ArriveAll(Idle, calls), outcome);
      g == Idle && |replies| == |calls| - 1 &&
      (forall k :: 0 <= k < |replies| ==> replies[k] == Reply(calls[k + 1].caller, outcome)) &&
      Arrive(g, next) == Running(next.year, [])
  {
    ArriveAllQueues(Idle, calls);
    var ws := Callers(calls[1..]);
    forall k | 0 <= k < |calls| - 1
      ensures Replies(ws, outcome)[k] == Reply(calls[k + 1].caller, outcome)
    {
      RepliesAt(ws, outcome, k);
      CallersAt(calls[1..], k);
    }
  }

  /** The outcome of a run, as values. */
  function Outcome(r: Result<seq<Competition>, Error>): Result<seq<Json>, Error>
    reads if r.Success? then set c | c in r.value else {}
  {
    if r.Success? then Success(Jsons(r.value)) else Failure(r.error)
  }

  class Palmares {
    const storage: Storage
    const providers: seq<Source>
    var competitionIds: Option<seq<string>>
    var flight: Flight

    constructor (storage: Storage, providers: seq<Source>)
      ensures this.storage == storage && this.providers == providers
      ensures competitionIds == None && flight == Idle
    {
      this.storage, this.providers := storage, providers;
      competitionIds := None;
      flight := Idle;
    }

    /** The module-level `update(instance, year)` on this instance. */
    method Run(year: int) returns (r: Result<seq<Competition>, Error>)
      modifies this`competitionIds
      ensures Outcome(r) == UpdateOutcome(storage, providers, old(competitionIds), year).0
      ensures competitionIds == UpdateOutcome(storage, providers, old(competitionIds), year).1
      ensures r.Success? ==> forall c :: c in r.value ==> fresh(c)
    {
      if competitionIds.None? {
        if storage.findIds.Failure? {
          return Failure(storage.findIds.error);
        }
        competitionIds := Some(storage.findIds.value);
      }
      var known := competitionIds.value;
      assert Loaded(old(competitionIds), storage.findIds) == Success(known);
      var fetched := FetchAll(providers, known, year);
      if fetched.Failure? {
        return Failure(fetched.error);
      }
      var news := fetched.value;
      var saved, failed := SaveAll(storage.save, news);
      OutcomeOfSaves(storage, providers, old(competitionIds), year, known, Jsons(news));
      competitionIds := Some(known + saved);
      if failed.Some? {
        return Failure(failed.value);
      }
      r := Success(news);
    }

    /** The start of `Palmares.update(year)`: join the run in flight, or start one. */
    method Begin(call: Call) returns (started: bool)
      modifies this`flight
      ensures flight == Arrive(old(flight), call)
      ensures started <==> old(flight).Idle?
    {
      started := flight.Idle?;
      if started {
        flight := Running(call.year, []);
      } else {
        flight := Running(flight.year, flight.waiters + [call.caller]);
      }
    }

    /** The end of a run: leave `updateInProgress` and emit the outcome to every
        listener. */
    method Complete(outcome: Result<seq<Json>, Error>) returns (replies: seq<Reply>)
      modifies this`flight
      ensures (flight, replies) == Settle(old(flight), outcome)
    {
      replies := [];
      if flight.Running? {
        var ws := flight.waiters;
        var i := 0;
        while i < |ws|
          invariant 0 <= i <= |ws|
          invariant replies == Replies(ws[..i], outcome)
        {
          assert ws[..i + 1][..i] == ws[..i];
          replies := replies + [Reply(ws[i], outcome)];
          i := i + 1;
        }
        assert ws[..i] == ws;
      }
      flight := Idle;
    }

    /** `Palmares.update(year)`: a call made while a run is in flight waits for
        that run (`None`); otherwise it runs, settles, and returns the outcome. */
    method Update(call: Call) returns (r: Option<Result<seq<Competition>, Error>>, replies: seq<Reply>)
      modifies this`flight, this`competitionIds
      ensures old(flight).Running? ==>
        r.None? && replies == [] && flight == Arrive(old(flight), call) && competitionIds == old(competitionIds)
      ensures old(flight).Idle? ==>
        r.Some? && flight == Idle && replies == [] &&
        (Outcome(r.value), competitionIds) == UpdateOutcome(storage, providers, old(competitionIds), call.year)
    {
      var started := Begin(call);
      if !started {
        return None, [];
      }
      var outcome := Run(call.year);
      replies := Complete(Outcome(outcome));
      r := Some(outcome);
    }
  }
}
