// Two clean runs over the same links in which every URL's check came out the same: however
// their goroutines interleaved, they report the same, up to which occurrence of a URL is the
// one that was not reused.
module Reruns {
  import opened Model
  import opened ResultCache
  import opened Dedup
  import opened Pipeline
  import opened Stages
  import opened Jobs
  import opened Records
  import opened Fanout
  import opened Outcomes
  import opened Gauging
  import opened Safety
  import opened Termination
  import opened Runs
  import opened Guarantees
  import Report

  function Bare(r: Result): Result {
    r.(reused := false)
  }

  function Bares(rs: seq<Result>): seq<Result> {
    seq(|rs|, i requires 0 <= i < |rs| => Bare(rs[i]))
  }

  predicate SameOutcome(a: Result, b: Result) {
    a.state == b.state && a.statusCode == b.statusCode && a.host == b.host && a.fromCache == b.fromCache && a.detail == b.detail
  }

  // The checks, or the cache entries, came out the same in both runs.
  ghost predicate SameChecks(s: State, t: State) {
    forall k :: k in s.seen && k in t.seen ==> SameOutcome(s.seen[k].result, t.seen[k].result)
  }

  // ---------------------------------------------------------------- the same results

  lemma SameEmission(c: Config, s: State, t: State, e: Emission, f: Emission)
    requires EmissionSound(c, s.seen, e) && EmissionSound(c, t.seen, f) && e.occ == f.occ && SameChecks(s, t)
    ensures Bare(e.res) == Bare(f.res)
  {
  }

  lemma {:induction false} TimesRemove(fs: seq<Emission>, j: nat, o: Occ)
    requires j < |fs|
    ensures Times(fs[..j] + fs[j + 1..], o) + (if fs[j].occ == o then 1 else 0) == Times(fs, o)
    decreases |fs|
  {
    var n := |fs| - 1;
    if j == n {
      assert fs[..j] + fs[j + 1..] == fs[..n];
    } else {
      TimesRemove(fs[..n], j, o);
      var rest := fs[..j] + fs[j + 1..];
      assert rest[..|rest| - 1] == fs[..n][..j] + fs[..n][j + 1..];
    }
  }

  ghost predicate Agree(es: seq<Emission>, fs: seq<Emission>) {
    forall e, f :: e in es && f in fs && e.occ == f.occ ==> Bare(e.res) == Bare(f.res)
  }

  lemma BaresAppend(es: seq<Emission>)
    requires es != []
    ensures multiset(Bares(ResultsOf(es))) == multiset(Bares(ResultsOf(es[..|es| - 1]))) + multiset{Bare(es[|es| - 1].res)}
  {
    hide Bares, Bare;
    BaresSnoc(ResultsOf(es[..|es| - 1]), es[|es| - 1].res);
  }

  lemma BaresSnoc(rs: seq<Result>, r: Result)
    ensures Bares(rs + [r]) == Bares(rs) + [Bare(r)]
  {
  }

  lemma {:induction false} BaresRemove(fs: seq<Emission>, j: nat)
    requires j < |fs|
    ensures multiset(Bares(ResultsOf(fs))) == multiset(Bares(ResultsOf(fs[..j] + fs[j + 1..]))) + multiset{Bare(fs[j].res)}
    decreases |fs|
  {
    hide Bares, ResultsOf;
    var n := |fs| - 1;
    BaresAppend(fs);
    if j == n {
      assert fs[..j] + fs[j + 1..] == fs[..n];
    } else {
      var rest := fs[..j] + fs[j + 1..];
      BaresRemove(fs[..n], j);
      BaresAppend(rest);
      assert rest[..|rest| - 1] == fs[..n][..j] + fs[..n][j + 1..] && rest[|rest| - 1] == fs[n];
    }
  }

  // Two lists with the same occurrences, and the same bare result for each, hold the same
  // bare results.
  lemma {:induction false} SameBares(es: seq<Emission>, fs: seq<Emission>)
    requires Agree(es, fs) && forall o :: Times(es, o) == Times(fs, o)
    ensures multiset(Bares(ResultsOf(es))) == multiset(Bares(ResultsOf(fs)))
    decreases |es|
  {
    hide Bares, ResultsOf;
    if es == [] {
      if fs != [] { assert Times(fs, fs[|fs| - 1].occ) > 0; }
    } else {
      var n := |es| - 1;
      var e := es[n];
      assert Times(es, e.occ) > 0;
      var j := TimesMember(fs, e.occ);
      var rest := fs[..j] + fs[j + 1..];
      forall o
        ensures Times(es[..n], o) == Times(rest, o)
      {
        TimesRemove(fs, j, o);
      }
      assert e in es && fs[j] in fs;
      assert forall f :: f in rest ==> f in fs;
      SameBares(es[..n], rest);
      BaresAppend(es);
      BaresRemove(fs, j);
    }
  }

  lemma OnceEach(c: Config, s: State, t: State)
    requires Reachable(c, s) && Final(s) && Clean(s) && Reachable(c, t) && Final(t) && Clean(t)
    ensures forall o :: Times(s.results, o) == Times(t.results, o)
  {
    hide Reachable, Inv, Times;
    ReachableInv(c, s);
    ReachableInv(c, t);
    forall o
      ensures Times(s.results, o) == Times(t.results, o)
    {
      if Valid(c, o) {
        CleanRunComplete(c, s, o);
        CleanRunComplete(c, t, o);
      } else {
        NoStrangers(c, s, o);
        NoStrangers(c, t, o);
      }
    }
  }

  lemma NoStrangers(c: Config, s: State, o: Occ)
    requires Inv(c, s) && !Valid(c, o)
    ensures Times(s.results, o) == 0
  {
    hide Flow, Tracked, Recorded, Gauged, Sourced, Conserved, Reported, Times;
    TimesValid(c, s, o);
  }

  lemma TimesValid(c: Config, s: State, o: Occ)
    requires Reported(c, s.seen, s.results)
    ensures Times(s.results, o) > 0 ==> Valid(c, o)
  {
    if Times(s.results, o) > 0 {
      var j := TimesMember(s.results, o);
      assert EmissionSound(c, s.seen, s.results[j]);
    }
  }

  lemma AllAgree(c: Config, s: State, t: State)
    requires Reachable(c, s) && Reachable(c, t) && SameChecks(s, t)
    ensures Agree(s.results, t.results)
  {
    hide Reachable, Flow, Tracked, Recorded, Gauged, Sourced, Conserved, EmissionSound, SameChecks, Bare;
    ReachableInv(c, s);
    ReachableInv(c, t);
    forall e, f | e in s.results && f in t.results && e.occ == f.occ
      ensures Bare(e.res) == Bare(f.res)
    {
      SameEmission(c, s, t, e, f);
    }
  }

  // Two clean runs with the same checks report the same results, reused marks apart.
  lemma SameResults(c: Config, s: State, t: State)
    requires Reachable(c, s) && Final(s) && Clean(s) && Reachable(c, t) && Final(t) && Clean(t) && SameChecks(s, t)
    ensures multiset(Bares(ResultsOf(s.results))) == multiset(Bares(ResultsOf(t.results)))
  {
    hide Reachable, Times, Agree, SameChecks;
    OnceEach(c, s, t);
    AllAgree(c, s, t);
    SameBares(s.results, t.results);
  }

  // ---------------------------------------------------------------- the same report

  // Links in one place with one URL are the same link.
  ghost predicate PlacesDecide(c: Config) {
    forall o, p :: Valid(c, o) && Valid(c, p) && Report.KeyOf(Blank(LinkAt(c, o).target)) == Report.KeyOf(Blank(LinkAt(c, p).target))
                   ==> LinkAt(c, o) == LinkAt(c, p)
  }

  function LinkAt(c: Config, o: Occ): Link
    requires Valid(c, o)
  {
    c.sources[o.src][o.pos]
  }

  lemma SameLinkSameBare(c: Config, seen: Seen, e: Emission, f: Emission)
    requires EmissionSound(c, seen, e) && EmissionSound(c, seen, f) && LinkAt(c, e.occ) == LinkAt(c, f.occ)
    ensures Bare(e.res) == Bare(f.res)
  {
  }

  lemma PlaceOfResult(c: Config, seen: Seen, e: Emission)
    requires EmissionSound(c, seen, e)
    ensures Report.KeyOf(Bare(e.res)) == Report.KeyOf(Blank(LinkAt(c, e.occ).target))
  {
  }

  lemma {:induction false} BareMember(es: seq<Emission>, x: Result) returns (e: Emission)
    requires x in Bares(ResultsOf(es))
    ensures e in es && Bare(e.res) == x
    decreases |es|
  {
    var n := |es| - 1;
    BaresSnoc(ResultsOf(es[..n]), es[n].res);
    if x == Bare(es[n].res) {
      e := es[n];
    } else {
      e := BareMember(es[..n], x);
    }
  }

  lemma BareKeysDecide(c: Config, s: State)
    requires Reachable(c, s) && PlacesDecide(c)
    ensures Report.KeysDecide(Bares(ResultsOf(s.results)))
  {
    hide Reachable, Flow, Tracked, Recorded, Gauged, Sourced, Conserved, EmissionSound, Bares, ResultsOf, Bare, Report.KeyOf;
    ReachableInv(c, s);
    forall x, y | x in Bares(ResultsOf(s.results)) && y in Bares(ResultsOf(s.results)) && Report.KeyOf(x) == Report.KeyOf(y)
      ensures x == y
    {
      var e := BareMember(s.results, x);
      var f := BareMember(s.results, y);
      assert EmissionSound(c, s.seen, e) && EmissionSound(c, s.seen, f);
      SoundIsValid(c, s.seen, e);
      SoundIsValid(c, s.seen, f);
      PlaceOfResult(c, s.seen, e);
      PlaceOfResult(c, s.seen, f);
      SameLinkSameBare(c, s.seen, e, f);
    }
  }

  lemma SoundIsValid(c: Config, seen: Seen, e: Emission)
    requires EmissionSound(c, seen, e)
    ensures Valid(c, e.occ)
  {
  }

  // The order of the report does not look at the mark.
  lemma {:induction false} InsertBare(r: Result, rs: seq<Result>)
    ensures Bares(Report.Insert(r, rs)) == Report.Insert(Bare(r), Bares(rs))
  {
    hide Report.KeyLess;
    if rs != [] {
      InsertBare(r, rs[1..]);
      assert Bares(rs)[1..] == Bares(rs[1..]);
      assert Report.KeyOf(Bares(rs)[0]) == Report.KeyOf(rs[0]) && Report.KeyOf(Bare(r)) == Report.KeyOf(r);
    }
  }

  lemma {:induction false} SortBare(rs: seq<Result>)
    ensures Bares(Report.SortResults(rs)) == Report.SortResults(Bares(rs))
  {
    hide Report.Insert;
    if rs != [] {
      SortBare(rs[1..]);
      InsertBare(rs[0], Report.SortResults(rs[1..]));
      assert Bares(rs)[1..] == Bares(rs[1..]);
    }
  }

  // When links in one place with one URL are the same link, two clean runs with the same
  // checks print the same report line by line, reused marks apart.
  lemma SameReport(c: Config, s: State, t: State)
    requires Reachable(c, s) && Final(s) && Clean(s) && Reachable(c, t) && Final(t) && Clean(t) && SameChecks(s, t)
    requires PlacesDecide(c)
    ensures Bares(Report.SortResults(ResultsOf(s.results))) == Bares(Report.SortResults(ResultsOf(t.results)))
  {
    hide Reachable, PlacesDecide, SameChecks, Bares, ResultsOf, Report.SortResults, Report.KeysDecide;
    SameResults(c, s, t);
    BareKeysDecide(c, s);
    SortBare(ResultsOf(s.results));
    SortBare(ResultsOf(t.results));
    Report.AnyOrderSameReport(Bares(ResultsOf(s.results)), Bares(ResultsOf(t.results)));
  }
}
