// The final report: a deterministic order, groups by file, the summary's counters, and the
// progress gauges the collector keeps while results arrive.
module Report {
  import opened Model

  // ---------------------------------------------------------------- the order of the report

  // Byte order on strings.
  predicate StringLess(a: string, b: string) {
    b != [] && (a == [] || a[0] < b[0] || (a[0] == b[0] && StringLess(a[1..], b[1..])))
  }

  datatype SortKey = SortKey(sourceFile: string, line: int, url: string)

  function KeyOf(r: Result): SortKey {
    SortKey(r.target.sourceFile, r.target.line, r.target.url)
  }

  predicate KeyLess(a: SortKey, b: SortKey) {
    if a.sourceFile != b.sourceFile then StringLess(a.sourceFile, b.sourceFile)
    else if a.line != b.line then a.line < b.line
    else StringLess(a.url, b.url)
  }

  lemma StringTotal(a: string, b: string)
    ensures StringLess(a, b) || StringLess(b, a) || a == b
    ensures !(StringLess(a, b) && StringLess(b, a)) && !StringLess(a, a)
  {
    if a != [] && b != [] && a[0] == b[0] {
      StringTotal(a[1..], b[1..]);
      assert a == [a[0]] + a[1..] && b == [b[0]] + b[1..];
    }
  }

  // Byte order by the first position where two strings part: there the first one ends, or
  // has the smaller byte.
  ghost predicate Precedes(a: string, b: string) {
    exists n: nat :: n <= |a| && n < |b| && a[..n] == b[..n] && (n == |a| || a[n] < b[n])
  }

  lemma {:induction false} StringLessIsByteOrder(a: string, b: string)
    ensures StringLess(a, b) <==> Precedes(a, b)
  {
    if a != [] && b != [] && a[0] == b[0] {
      StringLessIsByteOrder(a[1..], b[1..]);
      if Precedes(a[1..], b[1..]) {
        var n: nat :| n <= |a[1..]| && n < |b[1..]| && a[1..][..n] == b[1..][..n] && (n == |a[1..]| || a[1..][n] < b[1..][n]);
        assert a[..n + 1] == [a[0]] + a[1..][..n] && b[..n + 1] == [b[0]] + b[1..][..n];
        assert n + 1 <= |a| && n + 1 < |b| && a[..n + 1] == b[..n + 1] && (n + 1 == |a| || a[n + 1] < b[n + 1]);
      }
      if Precedes(a, b) {
        var n: nat :| n <= |a| && n < |b| && a[..n] == b[..n] && (n == |a| || a[n] < b[n]);
        assert a[1..][..n - 1] == a[..n][1..] && b[1..][..n - 1] == b[..n][1..];
        assert n - 1 <= |a[1..]| && (n - 1 == |a[1..]| || a[1..][n - 1] < b[1..][n - 1]);
      }
    } else if StringLess(a, b) {
      assert a[..0] == b[..0];
    } else if b != [] {
      assert forall n: nat :: 0 < n <= |a| && n < |b| ==> a[..n][0] == a[0] && b[..n][0] == b[0];
    }
  }

  lemma StringTransitive(a: string, b: string, c: string)
    requires StringLess(a, b) && StringLess(b, c)
    ensures StringLess(a, c)
  {
  }

  lemma KeyTotal(a: SortKey, b: SortKey)
    ensures KeyLess(a, b) || KeyLess(b, a) || a == b
    ensures !(KeyLess(a, b) && KeyLess(b, a)) && !KeyLess(a, a)
  {
    StringTotal(a.sourceFile, b.sourceFile);
    StringTotal(a.url, b.url);
    StringTotal(a.url, a.url);
  }

  lemma KeyTransitive(a: SortKey, b: SortKey, c: SortKey)
    ensures KeyLess(a, b) && KeyLess(b, c) ==> KeyLess(a, c)
    ensures KeyLess(a, b) && !KeyLess(c, b) ==> KeyLess(a, c)
  {
    if KeyLess(a, b) && KeyLess(b, c) {
      StringTotal(a.sourceFile, c.sourceFile);
      StringTotal(b.sourceFile, c.sourceFile);
      if StringLess(a.sourceFile, b.sourceFile) && StringLess(b.sourceFile, c.sourceFile) {
        StringTransitive(a.sourceFile, b.sourceFile, c.sourceFile);
      }
      if StringLess(a.url, b.url) && StringLess(b.url, c.url) {
        StringTransitive(a.url, b.url, c.url);
      }
    } else {
      KeyTotal(b, c);
    }
  }

  ghost predicate Sorted(rs: seq<Result>) {
    forall i, j :: 0 <= i < j < |rs| ==> !KeyLess(KeyOf(rs[j]), KeyOf(rs[i]))
  }

  // The results with one key, in the order they come.
  function WithKey(rs: seq<Result>, k: SortKey): seq<Result> {
    if rs == [] then []
    else (if rs[0].target.sourceFile == k.sourceFile && rs[0].target.line == k.line && rs[0].target.url == k.url then [rs[0]] else [])
         + WithKey(rs[1..], k)
  }

  // What the library's stable sort promises.
  ghost predicate StablySorted(input: seq<Result>, output: seq<Result>) {
    Sorted(output) && forall k :: WithKey(output, k) == WithKey(input, k)
  }

  function Insert(r: Result, rs: seq<Result>): seq<Result> {
    if rs == [] || !KeyLess(KeyOf(rs[0]), KeyOf(r)) then [r] + rs else [rs[0]] + Insert(r, rs[1..])
  }

  function SortResults(rs: seq<Result>): seq<Result> {
    if rs == [] then [] else Insert(rs[0], SortResults(rs[1..]))
  }

  lemma WithKeyCons(r: Result, rs: seq<Result>, k: SortKey)
    ensures WithKey([r] + rs, k) == (if KeyOf(r) == k then [r] else []) + WithKey(rs, k)
  {
    assert ([r] + rs)[1..] == rs;
  }

  lemma {:induction false} InsertWithKey(r: Result, rs: seq<Result>, k: SortKey)
    ensures WithKey(Insert(r, rs), k) == WithKey([r] + rs, k)
  {
    hide KeyLess, WithKey;
    if rs != [] && KeyLess(KeyOf(rs[0]), KeyOf(r)) {
      InsertWithKey(r, rs[1..], k);
      WithKeyCons(rs[0], Insert(r, rs[1..]), k);
      WithKeyCons(r, rs[1..], k);
      WithKeyCons(r, rs, k);
      WithKeyStep(rs, k);
      KeyTotal(KeyOf(r), KeyOf(r));
    }
  }

  lemma {:induction false} InsertHas(r: Result, rs: seq<Result>)
    ensures forall x :: x in Insert(r, rs) <==> x == r || x in rs
  {
    hide KeyLess;
    if rs != [] {
      InsertHas(r, rs[1..]);
      assert forall x :: x in rs <==> x == rs[0] || x in rs[1..];
    }
  }

  lemma SortedCons(r: Result, rs: seq<Result>)
    requires Sorted(rs) && forall x :: x in rs ==> !KeyLess(KeyOf(x), KeyOf(r))
    ensures Sorted([r] + rs)
  {
    hide KeyLess;
  }

  lemma {:induction false} InsertSorted(r: Result, rs: seq<Result>)
    requires Sorted(rs)
    ensures Sorted(Insert(r, rs))
  {
    hide KeyLess, KeyOf;
    if rs != [] {
      if KeyLess(KeyOf(rs[0]), KeyOf(r)) {
        InsertSorted(r, rs[1..]);
        InsertHas(r, rs[1..]);
        forall x | x in Insert(r, rs[1..])
          ensures !KeyLess(KeyOf(x), KeyOf(rs[0]))
        {
          KeyTotal(KeyOf(x), KeyOf(rs[0]));
          if x in rs { HeadLeast(rs, x); }
        }
        SortedCons(rs[0], Insert(r, rs[1..]));
      } else {
        forall x | x in rs
          ensures !KeyLess(KeyOf(x), KeyOf(r))
        {
          HeadLeast(rs, x);
          KeyTransitive(KeyOf(x), KeyOf(r), KeyOf(rs[0]));
        }
        SortedCons(r, rs);
      }
    }
  }

  // The report's order meets the library's promise, so the two are the same by SortUnique.
  lemma {:induction false} SortResultsStable(rs: seq<Result>)
    ensures StablySorted(rs, SortResults(rs))
  {
    if rs != [] {
      SortResultsStable(rs[1..]);
      InsertSorted(rs[0], SortResults(rs[1..]));
      forall k
        ensures WithKey(SortResults(rs), k) == WithKey(rs, k)
      {
        InsertWithKey(rs[0], SortResults(rs[1..]), k);
        WithKeyCons(rs[0], SortResults(rs[1..]), k);
      }
    }
  }

  // The place of a link in the report: by file in byte order, then by line going up, then by
  // URL in byte order.
  ghost predicate NotAfter(a: Target, b: Target) {
    || Precedes(a.sourceFile, b.sourceFile)
    || (a.sourceFile == b.sourceFile && a.line < b.line)
    || (a.sourceFile == b.sourceFile && a.line == b.line && (a.url == b.url || Precedes(a.url, b.url)))
  }

  lemma KeyOrder(a: Result, b: Result)
    ensures !KeyLess(KeyOf(b), KeyOf(a)) <==> NotAfter(a.target, b.target)
  {
    hide Precedes, StringLess;
    StringLessIsByteOrder(a.target.sourceFile, b.target.sourceFile);
    StringLessIsByteOrder(b.target.sourceFile, a.target.sourceFile);
    StringLessIsByteOrder(a.target.url, b.target.url);
    StringLessIsByteOrder(b.target.url, a.target.url);
    StringTotal(a.target.sourceFile, b.target.sourceFile);
    StringTotal(a.target.url, b.target.url);
  }

  // The report lists every result once, by file, line and URL, and results with the same
  // three in the order they arrived.
  lemma SortResultsInOrder(rs: seq<Result>)
    ensures multiset(SortResults(rs)) == multiset(rs)
    ensures forall i, j :: 0 <= i < j < |SortResults(rs)| ==> NotAfter(SortResults(rs)[i].target, SortResults(rs)[j].target)
    ensures forall k :: WithKey(SortResults(rs), k) == WithKey(rs, k)
  {
    hide KeyLess, KeyOf, NotAfter, SortResults, WithKey;
    SortMembers(rs);
    SortResultsStable(rs);
    var out := SortResults(rs);
    forall i, j | 0 <= i < j < |out|
      ensures NotAfter(out[i].target, out[j].target)
    {
      KeyOrder(out[i], out[j]);
    }
  }

  lemma WithKeyMember(rs: seq<Result>, k: SortKey)
    ensures forall x :: x in WithKey(rs, k) <==> x in rs && KeyOf(x) == k
  {
  }

  // The head of a sorted list is the first result with the least key.
  lemma HeadLeast(rs: seq<Result>, x: Result)
    requires Sorted(rs) && x in rs
    ensures !KeyLess(KeyOf(x), KeyOf(rs[0]))
  {
    KeyTotal(KeyOf(x), KeyOf(x));
  }

  // Two sorted lists that agree on every key start with the same result.
  lemma SameHead(a: seq<Result>, b: seq<Result>)
    requires Sorted(a) && Sorted(b) && forall k :: WithKey(a, k) == WithKey(b, k)
    requires a != []
    ensures b != [] && KeyOf(a[0]) == KeyOf(b[0]) && a[0] == b[0]
  {
    var k := KeyOf(a[0]);
    assert WithKey(a, k) == WithKey(b, k);
    WithKeyMember(b, k);
    assert a[0] in WithKey(a, k);
    HeadLeast(b, a[0]);
    var l := KeyOf(b[0]);
    assert WithKey(a, l) == WithKey(b, l);
    WithKeyMember(a, l);
    assert b[0] in WithKey(b, l);
    HeadLeast(a, b[0]);
    KeyTotal(k, l);
    assert WithKey(a, k)[0] == a[0] && WithKey(b, k)[0] == b[0];
  }

  // The library's promise leaves no freedom.
  lemma {:induction false} SortUnique(a: seq<Result>, b: seq<Result>)
    requires Sorted(a) && Sorted(b) && forall k :: WithKey(a, k) == WithKey(b, k)
    ensures a == b
  {
    if a == [] {
      if b != [] {
        SameHead(b, a);
      }
    } else {
      SameHead(a, b);
      assert a == [a[0]] + a[1..] && b == [b[0]] + b[1..];
      forall m
        ensures WithKey(a[1..], m) == WithKey(b[1..], m)
      {
        assert WithKey(a, m) == WithKey(b, m);
        var head := if KeyOf(a[0]) == m then [a[0]] else [];
        assert WithKey(a[1..], m) == WithKey(a, m)[|head|..] && WithKey(b[1..], m) == WithKey(b, m)[|head|..];
      }
      SortUnique(a[1..], b[1..]);
    }
  }

  // ---------------------------------------------------------------- when Add's order shows

  // Any two results with the same sort key are the same result.
  ghost predicate KeysDecide(rs: seq<Result>) {
    forall x, y :: x in rs && y in rs && KeyOf(x) == KeyOf(y) ==> x == y
  }

  // A list all of whose members are x is determined by how many there are.
  lemma {:induction false} WithKeyCounts(rs: seq<Result>, x: Result)
    requires KeysDecide(rs) && x in rs
    ensures WithKey(rs, KeyOf(x)) == seq(multiset(rs)[x], _ => x)
  {
    WithKeyMember(rs, KeyOf(x));
    WithKeyLength(rs, x);
    var w := WithKey(rs, KeyOf(x));
    forall i | 0 <= i < |w|
      ensures w[i] == x
    {
      assert w[i] in w;
    }
  }

  lemma {:induction false} WithKeyLength(rs: seq<Result>, x: Result)
    requires forall y :: y in rs && KeyOf(y) == KeyOf(x) ==> y == x
    ensures |WithKey(rs, KeyOf(x))| == multiset(rs)[x]
  {
    hide KeyOf, WithKey;
    WithKeyStep(rs, KeyOf(x));
    if rs != [] {
      WithKeyLength(rs[1..], x);
      FirstCounts(rs, x);
      assert rs[0] in rs;
      assert forall y :: y in rs[1..] ==> y in rs;
    }
  }

  lemma WithKeyStep(rs: seq<Result>, k: SortKey)
    ensures rs == [] ==> WithKey(rs, k) == []
    ensures rs != [] ==> WithKey(rs, k) == (if KeyOf(rs[0]) == k then [rs[0]] else []) + WithKey(rs[1..], k)
  {
  }

  lemma FirstCounts(rs: seq<Result>, x: Result)
    requires rs != []
    ensures multiset(rs)[x] == multiset(rs[1..])[x] + if rs[0] == x then 1 else 0
  {
    assert rs == [rs[0]] + rs[1..];
  }

  lemma WithKeyAbsent(rs: seq<Result>, k: SortKey)
    requires forall x :: x in rs ==> KeyOf(x) != k
    ensures WithKey(rs, k) == []
  {
    hide WithKey, KeyOf;
    WithKeyStep(rs, k);
    if rs != [] {
      assert rs[0] in rs;
      WithKeyAbsent(rs[1..], k);
    }
  }

  // Whatever order results arrive in, the report is the same.
  lemma AnyOrderSameReport(rs: seq<Result>, ps: seq<Result>)
    requires KeysDecide(rs) && multiset(ps) == multiset(rs)
    ensures SortResults(ps) == SortResults(rs)
  {
    SortResultsStable(rs);
    SortResultsStable(ps);
    assert forall x :: x in ps <==> x in multiset(ps);
    assert forall x :: x in rs <==> x in multiset(rs);
    forall k
      ensures WithKey(ps, k) == WithKey(rs, k)
    {
      if x :| x in rs && KeyOf(x) == k {
        WithKeyCounts(rs, x);
        WithKeyCounts(ps, x);
      } else {
        WithKeyAbsent(rs, k);
        WithKeyAbsent(ps, k);
      }
    }
    SortUnique(SortResults(ps), SortResults(rs));
  }

  lemma WithKeyConcat(a: seq<Result>, b: seq<Result>, k: SortKey)
    ensures WithKey(a + b, k) == WithKey(a, k) + WithKey(b, k)
  {
    hide KeyOf, WithKey;
    WithKeyStep(a, k);
    if a == [] {
      assert a + b == b;
    } else {
      assert a + b == [a[0]] + (a[1..] + b);
      WithKeyCons(a[0], a[1..] + b, k);
      WithKeyConcat(a[1..], b, k);
    }
  }

  lemma ExchangeSameMembers(rs: seq<Result>, i: nat, j: nat)
    requires i < j < |rs|
    ensures multiset(rs[i := rs[j]][j := rs[i]]) == multiset(rs)
  {
  }

  // The first place where two lists differ shows in the results with that key.
  lemma DifferShows(pre: seq<Result>, x: Result, a: seq<Result>, y: Result, b: seq<Result>)
    requires KeyOf(x) == KeyOf(y) && x != y
    ensures WithKey(pre + [x] + a, KeyOf(x)) != WithKey(pre + [y] + b, KeyOf(x))
  {
    var k := KeyOf(x);
    assert pre + [x] + a == pre + ([x] + a) && pre + [y] + b == pre + ([y] + b);
    WithKeyConcat(pre, [x] + a, k);
    WithKeyConcat(pre, [y] + b, k);
    WithKeyCons(x, a, k);
    WithKeyCons(y, b, k);
    assert WithKey(pre + [x] + a, k)[|WithKey(pre, k)|] == x && WithKey(pre + [y] + b, k)[|WithKey(pre, k)|] == y;
  }

  // Exchanging two different results with the same key changes the report.
  lemma OrderShows(rs: seq<Result>, i: nat, j: nat) returns (ps: seq<Result>)
    requires i < j < |rs| && KeyOf(rs[i]) == KeyOf(rs[j]) && rs[i] != rs[j]
    ensures multiset(ps) == multiset(rs) && SortResults(ps) != SortResults(rs)
  {
    ps := rs[i := rs[j]][j := rs[i]];
    ExchangeSameMembers(rs, i, j);
    assert rs == rs[..i] + [rs[i]] + rs[i + 1..] && ps == rs[..i] + [rs[j]] + ps[i + 1..];
    DifferShows(rs[..i], rs[i], rs[i + 1..], rs[j], ps[i + 1..]);
    SortResultsStable(rs);
    SortResultsStable(ps);
    hide SortResults, WithKey, KeyLess;
  }

  // The report is independent of the order of Add exactly when no two different results
  // share a source file, line and URL.
  lemma DeterministicReport(rs: seq<Result>)
    ensures (forall ps :: multiset(ps) == multiset(rs) ==> SortResults(ps) == SortResults(rs)) <==> KeysDecide(rs)
  {
    hide SortResults, KeyLess;
    if KeysDecide(rs) {
      forall ps | multiset(ps) == multiset(rs)
        ensures SortResults(ps) == SortResults(rs)
      {
        AnyOrderSameReport(rs, ps);
      }
    } else {
      var x, y :| x in rs && y in rs && KeyOf(x) == KeyOf(y) && x != y;
      var i, j :| 0 <= i < |rs| && 0 <= j < |rs| && rs[i] == x && rs[j] == y;
      var ps;
      if i < j { ps := OrderShows(rs, i, j); } else { ps := OrderShows(rs, j, i); }
    }
  }

  // ---------------------------------------------------------------- groups by file

  function Concat(gs: seq<seq<Result>>): seq<Result> {
    if gs == [] then [] else Concat(gs[..|gs| - 1]) + gs[|gs| - 1]
  }

  // A group is one file's.
  ghost predicate OneFile(g: seq<Result>) {
    g != [] && forall j :: 0 <= j < |g| ==> g[j].target.sourceFile == g[0].target.sourceFile
  }

  // Each group is one file's, and neighbours are different files'.
  ghost predicate Grouped(gs: seq<seq<Result>>) {
    && (forall i :: 0 <= i < |gs| ==> OneFile(gs[i]))
    && (forall i :: 0 < i < |gs| ==> gs[i - 1][0].target.sourceFile != gs[i][0].target.sourceFile)
  }

  lemma OneFileGrows(g: seq<Result>, r: Result)
    requires g == [] || (OneFile(g) && g[0].target.sourceFile == r.target.sourceFile)
    ensures OneFile(g + [r])
  {
  }

  lemma GroupGrows(gs: seq<seq<Result>>, r: Result)
    requires gs != [] && Grouped(gs) && gs[|gs| - 1][0].target.sourceFile == r.target.sourceFile
    ensures
      var gs' := gs[|gs| - 1 := gs[|gs| - 1] + [r]];
      Grouped(gs') && Concat(gs') == Concat(gs) + [r]
  {
    var n := |gs| - 1;
    var gs' := gs[n := gs[n] + [r]];
    OneFileGrows(gs[n], r);
    assert gs'[..n] == gs[..n];
  }

  lemma GroupOpens(gs: seq<seq<Result>>, r: Result)
    requires Grouped(gs) && (gs != [] ==> gs[|gs| - 1][0].target.sourceFile != r.target.sourceFile)
    ensures Grouped(gs + [[r]]) && Concat(gs + [[r]]) == Concat(gs) + [r]
  {
    OneFileGrows([], r);
    assert [] + [r] == [r];
    GroupedSnoc(gs, [r]);
    assert (gs + [[r]])[..|gs|] == gs;
  }

  lemma GroupedSnoc(gs: seq<seq<Result>>, g: seq<Result>)
    requires Grouped(gs) && OneFile(g)
    requires gs != [] ==> gs[|gs| - 1][0].target.sourceFile != g[0].target.sourceFile
    ensures Grouped(gs + [g])
  {
    var gs' := gs + [g];
    forall i | 0 <= i < |gs'|
      ensures OneFile(gs'[i])
    {
      if i < |gs| { assert gs'[i] == gs[i]; }
    }
    forall i | 0 < i < |gs'|
      ensures gs'[i - 1][0].target.sourceFile != gs'[i][0].target.sourceFile
    {
      assert gs'[i - 1] == gs[i - 1];
      if i < |gs| { assert gs'[i] == gs[i]; }
    }
  }

  method GroupByFile(results: seq<Result>) returns (groups: seq<seq<Result>>)
    ensures Concat(groups) == results && Grouped(groups)
  {
    hide Concat;
    groups := [];
    NoGroups();
    for i := 0 to |results|
      invariant Concat(groups) == results[..i] && Grouped(groups)
    {
      var r, n := results[i], |groups|;
      assert results[..i + 1] == results[..i] + [r];
      if n > 0 && groups[n - 1][0].target.sourceFile == r.target.sourceFile {
        GroupGrows(groups, r);
        groups := groups[n - 1 := groups[n - 1] + [r]];
      } else {
        GroupOpens(groups, r);
        groups := groups + [[r]];
      }
    }
    assert results[..|results|] == results;
  }

  lemma NoGroups()
    ensures Concat([]) == []
  {
  }

  lemma {:induction false} ConcatHas(gs: seq<seq<Result>>, i: nat, j: nat) returns (k: nat)
    requires i < |gs| && j < |gs[i]|
    ensures k < |Concat(gs)| && Concat(gs)[k] == gs[i][j]
    ensures i == |gs| - 1 ==> k == |Concat(gs[..i])| + j
    ensures i < |gs| - 1 ==> k < |Concat(gs[..|gs| - 1])|
  {
    var n := |gs| - 1;
    if i == n {
      k := |Concat(gs[..n])| + j;
    } else {
      k := ConcatHas(gs[..n], i, j);
    }
  }

  // An earlier group's results come before a later group's.
  lemma {:induction false} ConcatOrder(gs: seq<seq<Result>>, i: nat, l: nat)
    requires i < l < |gs| && Sorted(Concat(gs)) && gs[i] != [] && gs[l] != []
    ensures !KeyLess(KeyOf(gs[l][0]), KeyOf(gs[i][0]))
  {
    var n := |gs| - 1;
    if l == n {
      var a := ConcatHas(gs, i, 0);
      var b := ConcatHas(gs, l, 0);
    } else {
      assert Concat(gs[..n]) == Concat(gs)[..|Concat(gs[..n])|];
      ConcatOrder(gs[..n], i, l);
    }
  }

  lemma GroupsIncrease(gs: seq<seq<Result>>, i: nat, l: nat)
    requires Sorted(Concat(gs)) && Grouped(gs) && i < l < |gs|
    ensures StringLess(gs[i][0].target.sourceFile, gs[l][0].target.sourceFile)
    decreases l - i
  {
    hide Concat, StringLess;
    var a, b := gs[l - 1][0].target.sourceFile, gs[l][0].target.sourceFile;
    ConcatOrder(gs, l - 1, l);
    StringTotal(a, b);
    if i < l - 1 {
      GroupsIncrease(gs, i, l - 1);
      StringTransitive(gs[i][0].target.sourceFile, a, b);
    }
  }

  // In the report's order every file has exactly one group, and the groups come in byte
  // order of their files.
  lemma OneGroupPerFile(rs: seq<Result>, gs: seq<seq<Result>>, i: nat, l: nat)
    requires Concat(gs) == SortResults(rs) && Grouped(gs) && i < l < |gs|
    ensures Precedes(gs[i][0].target.sourceFile, gs[l][0].target.sourceFile)
    ensures gs[i][0].target.sourceFile != gs[l][0].target.sourceFile
  {
    hide Concat, SortResults, StringLess, Precedes;
    SortResultsStable(rs);
    GroupsIncrease(gs, i, l);
    var a, b := gs[i][0].target.sourceFile, gs[l][0].target.sourceFile;
    StringLessIsByteOrder(a, b);
    StringTotal(a, b);
  }

  // ---------------------------------------------------------------- the summary

  predicate IsAlive(r: Result) { r.state.StateAlive? }
  predicate IsDead(r: Result) { r.state.StateDead? }
  predicate IsIgnored(r: Result) { r.state.StateIgnored? }
  predicate IsErrored(r: Result) { r.state.StateError? }
  predicate IsCached(r: Result) { r.fromCache }
  predicate IsReused(r: Result) { !r.fromCache && r.reused }

  function Count(rs: seq<Result>, p: Result -> bool): (n: nat)
    ensures n <= |rs|
    ensures n > 0 <==> exists r :: r in rs && p(r)
  {
    if rs == [] then 0
    else
      assert rs == rs[..|rs| - 1] + [rs[|rs| - 1]];
      Count(rs[..|rs| - 1], p) + if p(rs[|rs| - 1]) then 1 else 0
  }

  lemma CountSnoc(rs: seq<Result>, r: Result, p: Result -> bool)
    ensures Count(rs + [r], p) == Count(rs, p) + if p(r) then 1 else 0
  {
    assert (rs + [r])[..|rs|] == rs;
  }

  lemma WithoutMember(rs: seq<Result>, i: nat)
    requires i < |rs|
    ensures rs == rs[..i] + [rs[i]] + rs[i + 1..]
    ensures multiset(rs[..i] + rs[i + 1..]) == multiset(rs) - multiset{rs[i]}
  {
    assert rs == rs[..i] + [rs[i]] + rs[i + 1..];
  }

  // A counter sees how often each result occurs, not where.
  lemma {:induction false} CountMembers(a: seq<Result>, b: seq<Result>, p: Result -> bool)
    requires multiset(a) == multiset(b)
    ensures Count(a, p) == Count(b, p)
  {
    hide Count;
    assert |a| == |multiset(a)| && |b| == |multiset(b)|;
    if a != [] {
      assert a[0] in multiset(b);
      var i :| 0 <= i < |b| && b[i] == a[0];
      WithoutMember(a, 0);
      WithoutMember(b, i);
      CountMembers(a[..0] + a[1..], b[..i] + b[i + 1..], p);
      CountInsert(a[..0], a[0], a[1..], p);
      CountInsert(b[..i], b[i], b[i + 1..], p);
    }
  }

  lemma {:induction false} CountInsert(a: seq<Result>, x: Result, b: seq<Result>, p: Result -> bool)
    ensures Count(a + [x] + b, p) == Count(a + b, p) + if p(x) then 1 else 0
    decreases |b|
  {
    if b == [] {
      assert a + [x] + b == a + [x] && a + b == a;
      CountSnoc(a, x, p);
    } else {
      var n := |b| - 1;
      assert a + [x] + b == (a + [x] + b[..n]) + [b[n]] && a + b == (a + b[..n]) + [b[n]];
      CountInsert(a, x, b[..n], p);
      CountSnoc(a + [x] + b[..n], b[n], p);
      CountSnoc(a + b[..n], b[n], p);
    }
  }

  datatype Summary = Summary(
    total: nat,
    alive: nat,
    dead: nat,
    ignored: nat,
    errored: nat,
    cached: nat,
    reused: nat,
    exitCode: nat,
    results: seq<Result>)

  ghost predicate Summarizes(s: Summary, rs: seq<Result>, errorFails: bool) {
    && s.total == |rs|
    && Counts(s, rs)
    && s.exitCode == if (exists r :: r in rs && IsDead(r)) || (errorFails && exists r :: r in rs && IsErrored(r)) then 1 else 0
  }

  ghost predicate Counts(s: Summary, rs: seq<Result>) {
    && s.alive == Count(rs, IsAlive)
    && s.dead == Count(rs, IsDead)
    && s.ignored == Count(rs, IsIgnored)
    && s.errored == Count(rs, IsErrored)
    && s.cached == Count(rs, IsCached)
    && s.reused == Count(rs, IsReused)
    && s.alive + s.dead + s.ignored + s.errored == |rs|
  }

  lemma CountsNext(s: Summary, s': Summary, results: seq<Result>, i: nat)
    requires i < |results| && Counts(s, results[..i])
    requires s'.alive == s.alive + if results[i].state.StateAlive? then 1 else 0
    requires s'.dead == s.dead + if results[i].state.StateDead? then 1 else 0
    requires s'.ignored == s.ignored + if results[i].state.StateIgnored? then 1 else 0
    requires s'.errored == s.errored + if results[i].state.StateError? then 1 else 0
    requires s'.cached == s.cached + if results[i].fromCache then 1 else 0
    requires s'.reused == s.reused + if !results[i].fromCache && results[i].reused then 1 else 0
    ensures Counts(s', results[..i + 1])
  {
    hide Count;
    var r := results[i];
    assert results[..i + 1] == results[..i] + [r];
    CountSnoc(results[..i], r, IsAlive);
    CountSnoc(results[..i], r, IsDead);
    CountSnoc(results[..i], r, IsIgnored);
    CountSnoc(results[..i], r, IsErrored);
    CountSnoc(results[..i], r, IsCached);
    CountSnoc(results[..i], r, IsReused);
  }

  lemma CountsNothing(s: Summary, results: seq<Result>)
    requires s.alive == s.dead == s.ignored == s.errored == s.cached == s.reused == 0
    ensures Counts(s, results[..0])
  {
  }

  lemma CountsAll(s: Summary, rs: seq<Result>)
    requires Counts(s, rs)
    ensures s.alive + s.dead + s.ignored + s.errored == |rs|
    ensures s.dead > 0 <==> exists r :: r in rs && IsDead(r)
    ensures s.errored > 0 <==> exists r :: r in rs && IsErrored(r)
    ensures forall code :: Counts(s.(exitCode := code), rs)
  {
  }

  method Summarize(results: seq<Result>, errorFails: bool) returns (s: Summary)
    ensures Summarizes(s, results, errorFails) && s.results == results
    ensures s.alive + s.dead + s.ignored + s.errored == s.total
  {
    hide Count, Counts;
    s := Summary(|results|, 0, 0, 0, 0, 0, 0, 0, results);
    CountsNothing(s, results);
    for i := 0 to |results|
      invariant s.total == |results| && s.results == results && s.exitCode == 0
      invariant Counts(s, results[..i])
    {
      var r := results[i];
      ghost var before := s;
      match r.state {
        case StateAlive => s := s.(alive := s.alive + 1);
        case StateDead => s := s.(dead := s.dead + 1);
        case StateIgnored => s := s.(ignored := s.ignored + 1);
        case StateError => s := s.(errored := s.errored + 1);
      }
      if r.fromCache {
        s := s.(cached := s.cached + 1);
      } else if r.reused {
        s := s.(reused := s.reused + 1);
      }
      CountsNext(before, s, results, i);
    }
    assert results[..|results|] == results;
    CountsAll(s, results);
    if s.dead > 0 || (errorFails && s.errored > 0) {
      s := s.(exitCode := 1);
    }
  }

  lemma {:induction false} InsertMembers(r: Result, rs: seq<Result>)
    ensures multiset(Insert(r, rs)) == multiset(rs) + multiset{r}
  {
    if rs != [] && KeyLess(KeyOf(rs[0]), KeyOf(r)) {
      InsertMembers(r, rs[1..]);
      assert rs == [rs[0]] + rs[1..];
    }
  }

  lemma {:induction false} SortMembers(rs: seq<Result>)
    ensures multiset(SortResults(rs)) == multiset(rs)
  {
    if rs != [] {
      SortMembers(rs[1..]);
      InsertMembers(rs[0], SortResults(rs[1..]));
      assert rs == [rs[0]] + rs[1..];
    }
  }

  // The counters and the exit code never depend on the order of Add.
  lemma AnyOrderSameSummary(rs: seq<Result>, ps: seq<Result>, s: Summary, t: Summary, errorFails: bool)
    requires multiset(ps) == multiset(rs)
    requires Summarizes(s, SortResults(rs), errorFails) && Summarizes(t, SortResults(ps), errorFails)
    ensures t == s.(results := t.results)
  {
    SortMembers(rs);
    SortMembers(ps);
    var a, b := SortResults(rs), SortResults(ps);
    CountMembers(a, b, IsAlive);
    CountMembers(a, b, IsDead);
    CountMembers(a, b, IsIgnored);
    CountMembers(a, b, IsErrored);
    CountMembers(a, b, IsCached);
    CountMembers(a, b, IsReused);
    assert |a| == |multiset(a)| && |b| == |multiset(b)|;
    assert (exists r :: r in a && IsDead(r)) <==> Count(a, IsDead) > 0;
    assert (exists r :: r in b && IsDead(r)) <==> Count(b, IsDead) > 0;
    assert (exists r :: r in a && IsErrored(r)) <==> Count(a, IsErrored) > 0;
    assert (exists r :: r in b && IsErrored(r)) <==> Count(b, IsErrored) > 0;
  }

  lemma SummaryIgnoresOrder(s: Summary, a: seq<Result>, b: seq<Result>, errorFails: bool)
    requires multiset(a) == multiset(b) && Summarizes(s, a, errorFails)
    ensures Summarizes(s, b, errorFails)
  {
    hide Count;
    CountMembers(a, b, IsAlive);
    CountMembers(a, b, IsDead);
    CountMembers(a, b, IsIgnored);
    CountMembers(a, b, IsErrored);
    CountMembers(a, b, IsCached);
    CountMembers(a, b, IsReused);
    assert |a| == |multiset(a)| && |b| == |multiset(b)|;
    assert forall r :: r in a <==> r in multiset(a);
    assert forall r :: r in b <==> r in multiset(b);
  }

  // ---------------------------------------------------------------- gauges

  function CountAt(m: map<string, int>, h: string): int {
    if h in m then m[h] else 0
  }

  function Raised(m: map<string, int>, h: string): map<string, int> {
    m[h := CountAt(m, h) + 1]
  }

  // The count goes down by one and a host with none left is dropped.
  function Lowered(m: map<string, int>, h: string): map<string, int> {
    if CountAt(m, h) - 1 <= 0 then m - {h} else m[h := CountAt(m, h) - 1]
  }

  datatype ActiveCheck = ActiveCheck(since: int, note: string)

  class Collector {
    var results: seq<Result>
    var enqueued: int
    var netDone: int
    var active: map<string, ActiveCheck>
    var hostInflight: map<string, int>
    var dead: nat
    var checked: nat
    const errorFails: bool

    // The live counters agree with the buffer.
    ghost predicate Valid()
      reads this
    {
      checked == |results| && dead == Count(results, IsDead)
    }

    constructor (errorFails: bool)
      ensures Valid() && this.errorFails == errorFails
      ensures results == [] && enqueued == 0 && netDone == 0 && active == map[] && hostInflight == map[]
    {
      this.errorFails := errorFails;
      results, enqueued, netDone, active, hostInflight := [], 0, 0, map[], map[];
      dead, checked := 0, 0;
    }

    method NetEnqueue(host: string)
      modifies this`enqueued, this`hostInflight
      ensures enqueued == old(enqueued) + 1 && hostInflight == Raised(old(hostInflight), host)
      ensures hostInflight == old(hostInflight)[host := if host in old(hostInflight) then old(hostInflight)[host] + 1 else 1]
    {
      enqueued := enqueued + 1;
      hostInflight := hostInflight[host := CountAt(hostInflight, host) + 1];
    }

    method NetStart(url: string, now: int)
      modifies this`active
      ensures active == old(active)[url := ActiveCheck(now, "")]
    {
      active := active[url := ActiveCheck(now, "")];
    }

    // A note on a check that is not running is dropped.
    method NetStatus(url: string, note: string)
      modifies this`active
      ensures active.Keys == old(active).Keys
      ensures forall u :: u in active ==> active[u] == if u == url then old(active)[u].(note := note) else old(active)[u]
    {
      if url in active {
        active := active[url := active[url].(note := note)];
      }
    }

    method NetComplete(url: string, host: string)
      modifies this`netDone, this`active, this`hostInflight
      ensures netDone == old(netDone) + 1 && active == old(active) - {url}
      ensures hostInflight == Lowered(old(hostInflight), host)
      ensures hostInflight == if host in old(hostInflight) && old(hostInflight)[host] > 1
                              then old(hostInflight)[host := old(hostInflight)[host] - 1] else old(hostInflight) - {host}
    {
      netDone := netDone + 1;
      active := active - {url};
      hostInflight := hostInflight[host := CountAt(hostInflight, host) - 1];
      if hostInflight[host] <= 0 {
        hostInflight := hostInflight - {host};
      }
    }

    method Add(r: Result)
      requires Valid()
      modifies this`results, this`dead, this`checked
      ensures Valid() && results == old(results) + [r]
    {
      CountSnoc(results, r, IsDead);
      results := results + [r];
      if r.state.StateDead? {
        dead := dead + 1;
      }
      checked := checked + 1;
    }

    // The report is a function of the buffer; the buffer itself is left in arrival order.
    method Finish() returns (s: Summary)
      requires Valid()
      ensures s.results == SortResults(results) && Summarizes(s, results, errorFails)
      ensures multiset(s.results) == multiset(results)
      ensures forall i, j :: 0 <= i < j < |s.results| ==> NotAfter(s.results[i].target, s.results[j].target)
    {
      hide NotAfter, Summarizes, SortResults;
      SortResultsInOrder(results);
      s := Summarize(SortResults(results), errorFails);
      SummaryIgnoresOrder(s, SortResults(results), results, errorFails);
    }
  }
}
