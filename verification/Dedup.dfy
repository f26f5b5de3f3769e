// The seen-map and its shared per-URL records: the three critical sections as functions on
// a value, which the pipeline's state machine steps with, and as the methods of the object
// itself, which are proved to do what those functions say.
module Dedup {
  import opened Model
  import opened ResultCache

  // The shared record of one URL. O names an occurrence; origin is the one that created
  // the record and is history only.
  datatype UrlState<O> = UrlState(done: bool, result: Result, occs: seq<O>, origin: O)

  // add, first occurrence: a cache hit is done at once, a miss holds the occurrence.
  function Register<O>(seen: map<string, UrlState<O>>, key: string, occ: O, hit: Option<Result>, blank: Result)
    : map<string, UrlState<O>>
  {
    match hit
    case Some(r) => seen[key := UrlState(true, r, [], occ)]
    case None => seen[key := UrlState(false, blank, [occ], occ)]
  }

  // add, later occurrence: recorded unless the URL is already done.
  function Join<O>(seen: map<string, UrlState<O>>, key: string, occ: O): map<string, UrlState<O>>
    requires key in seen
  {
    if seen[key].done then seen else seen[key := seen[key].(occs := seen[key].occs + [occ])]
  }

  // complete: the outcome is fixed and the waiting occurrences are handed over.
  function Settle<O>(seen: map<string, UrlState<O>>, key: string, res: Result): map<string, UrlState<O>>
    requires key in seen
  {
    seen[key := seen[key].(done := true, result := res, occs := [])]
  }

  // resultFromCache.
  function ResultFromCache(t: Target, host: string, e: Entry): Result {
    Blank(t).(state := e.state, statusCode := e.statusCode, host := host, fromCache := true)
  }

  datatype CheckJob = CheckJob(key: string, host: string, sample: Target)

  // What the part of add under d.mu comes back with.
  datatype Registration =
    | Joining(record: UrlRecord)     // add goes on to lock the record
    | Served(emit: Result)           // a cache hit, emitted at once
    | Created(job: CheckJob)         // a check to enqueue

  class UrlRecord {
    var done: bool
    var result: Result
    var occs: seq<Target>
    ghost const origin: Target

    constructor (done: bool, result: Result, occs: seq<Target>, ghost origin: Target)
      ensures View() == UrlState(done, result, occs, origin)
      ensures this.done == done && this.result == result && this.occs == occs
    {
      this.done, this.result, this.occs, this.origin := done, result, occs, origin;
    }

    ghost function View(): UrlState<Target>
      reads this
    {
      UrlState(done, result, occs, origin)
    }

    // The part of complete under st.mu.
    method Take(res: Result) returns (waiting: seq<Target>)
      modifies this
      ensures View() == old(View()).(done := true, result := res, occs := [])
      ensures waiting == old(View()).occs
    {
      done := true;
      result := res;
      waiting := occs;
      occs := [];
    }
  }

  class SeenMap {
    var seen: map<string, UrlRecord>
    const cache: Cache

    // Every key has a record of its own.
    ghost predicate Valid()
      reads this
    {
      forall k, l :: k in seen && l in seen && k != l ==> seen[k] != seen[l]
    }

    ghost function View(): map<string, UrlState<Target>>
      reads this, seen.Values
    {
      map k | k in seen :: seen[k].View()
    }

    constructor (cache: Cache)
      ensures Valid() && View() == map[] && this.cache == cache
    {
      this.cache := cache;
      seen := map[];
    }

    // add, the part under d.mu. hostOf is the host of the link's URL.
    method Lookup(key: string, t: Target, hostOf: string, now: int) returns (r: Registration)
      requires Valid()
      modifies this`seen
      ensures Valid()
      ensures key in old(seen) ==> r == Joining(old(seen)[key]) && seen == old(seen)
      ensures key !in old(seen) ==>
                && seen.Keys == old(seen).Keys + {key}
                && fresh(seen[key])
                && (forall k :: k in old(seen) ==> seen[k] == old(seen)[k])
                && match ResultCache.Lookup(cache.View(), key, now) {
                     case Some(e) =>
                       var hit := ResultFromCache(t, hostOf, e);
                       && View() == Register(old(View()), key, t, Some(hit), Blank(t))
                       && r == Served(ResultFor(t, hit, false))
                     case None =>
                       && View() == Register(old(View()), key, t, None, Blank(t))
                       && r == Created(CheckJob(key, hostOf, t))
                   }
      // Spelled out: a cache hit is reported as the entry, at once, and its record holds
      // nobody; a miss holds the occurrence.
      ensures key !in old(seen) && r.Served? ==>
                && key in cache.entries
                && var e := cache.entries[key];
                   && r.emit == Result(t, e.state, e.statusCode, hostOf, 0, false, 0, true, false, "", None)
                   && seen[key].done && seen[key].result == r.emit && seen[key].occs == []
      ensures key !in old(seen) && !r.Served? ==> r == Created(CheckJob(key, hostOf, t)) && !seen[key].done && seen[key].occs == [t]
    {
      hide ResultCache.Lookup, UrlRecord.View, ResultFromCache, ResultFor;
      if key in seen {
        return Joining(seen[key]);
      }
      var ent := cache.Get(key, now);
      var record;
      if ent.Some? {
        var hit := ResultFromCache(t, hostOf, ent.value);
        HitReported(t, hostOf, ent.value);
        record := new UrlRecord(true, hit, [], t);
        r := Served(ResultFor(t, hit, false));
      } else {
        record := new UrlRecord(false, Blank(t), [t], t);
        r := Created(CheckJob(key, hostOf, t));
      }
      Insert(key, record);
    }

    static lemma HitReported(t: Target, host: string, e: Entry)
      ensures ResultFromCache(t, host, e) == Result(t, e.state, e.statusCode, host, 0, false, 0, true, false, "", None)
      ensures ResultFor(t, ResultFromCache(t, host, e), false) == ResultFromCache(t, host, e)
    {
    }

    method Insert(key: string, record: UrlRecord)
      requires Valid() && key !in seen && record !in seen.Values
      modifies this`seen
      ensures Valid() && seen == old(seen)[key := record]
      ensures View() == old(View())[key := record.View()]
    {
      seen := seen[key := record];
    }

    // add, the part under st.mu: emits from a finished record, else waits in it.
    method JoinRecord(ghost key: string, record: UrlRecord, t: Target) returns (emit: Option<Result>)
      requires Valid() && key in seen && seen[key] == record
      modifies record
      ensures Valid() && seen == old(seen)
      ensures View() == Join(old(View()), key, t)
      ensures emit == if old(record.done) then Some(ResultFor(t, old(record.result), true)) else None
      // Spelled out: a finished record's outcome, about this link, marked reused; or one
      // more occurrence held.
      ensures old(record.done) ==>
                && record.done && record.occs == old(record.occs) && record.result == old(record.result)
                && var base := old(record.result);
                   emit == Some(Result(t, base.state, base.statusCode, base.host, 0, false, 0, base.fromCache, true, base.detail, None))
      ensures !old(record.done) ==> emit == None && !record.done && record.occs == old(record.occs) + [t]
    {
      if record.done {
        return Some(ResultFor(t, record.result, true));
      }
      record.occs := record.occs + [t];
      emit := None;
    }

    // complete: fixes the outcome and takes the occurrences in one critical section.
    method Complete(key: string, res: Result) returns (occs: seq<Target>)
      requires Valid() && key in seen
      modifies seen[key]
      ensures Valid() && seen == old(seen)
      ensures View() == Settle(old(View()), key, res)
      ensures occs == old(View())[key].occs
      ensures seen[key].done && seen[key].result == res && seen[key].occs == []
    {
      hide Settle;
      var record := seen[key];
      occs := record.Take(res);
      OneChanged(old(View()), View(), key, res);
    }

    // A map in which one record was settled.
    static lemma OneChanged(before: map<string, UrlState<Target>>, after: map<string, UrlState<Target>>, key: string, res: Result)
      requires key in before && after.Keys == before.Keys
      requires after[key] == before[key].(done := true, result := res, occs := [])
      requires forall k :: k in before && k != key ==> after[k] == before[k]
      ensures after == Settle(before, key, res)
    {
    }

    // add as a caller sees it when nothing lands between its two parts.
    method Add(key: string, t: Target, hostOf: string, now: int) returns (job: Option<CheckJob>, emit: seq<Result>)
      requires Valid()
      modifies this`seen, if key in seen then {seen[key]} else {}
      ensures Valid()
      ensures View() ==
              if key in old(seen) then Join(old(View()), key, t)
              else
                Register(old(View()), key, t,
                         match ResultCache.Lookup(old(cache.View()), key, now)
                         case Some(e) => Some(ResultFromCache(t, hostOf, e))
                         case None => None,
                         Blank(t))
      ensures key in View()
      ensures emit == if View()[key].done then [ResultFor(t, View()[key].result, key in old(seen))] else []
      ensures !View()[key].done ==> View()[key].occs == (if key in old(seen) then old(View())[key].occs else []) + [t]
      ensures job == if key !in old(seen) && emit == [] then Some(CheckJob(key, hostOf, t)) else None
    {
      var r := Lookup(key, t, hostOf, now);
      match r
      case Served(res) => job, emit := None, [res];
      case Created(j) => job, emit := Some(j), [];
      case Joining(record) =>
        var res := JoinRecord(key, record, t);
        job, emit := None, if res.Some? then [res.value] else [];
    }
  }
}
