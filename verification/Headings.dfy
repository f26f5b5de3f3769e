// Numbering heading anchors: a repeated slug gets "-1", "-2", ... and the numbered name is
// registered too, so that a later heading can run into it. Slugs are given; how one is made
// from a heading's text is not modelled.
module Headings {

  // ---------------------------------------------------------------- names

  function Digit(d: nat): char
    requires d < 10
  {
    "0123456789"[d]
  }

  function Itoa(n: nat): string {
    if n < 10 then [Digit(n)] else Itoa(n / 10) + [Digit(n % 10)]
  }

  function Numbered(slug: string, n: nat): string {
    slug + "-" + Itoa(n)
  }

  // What a string of decimal digits stands for.
  function Value(s: string): int {
    if s == "" then 0 else 10 * Value(s[..|s| - 1]) + (s[|s| - 1] as int - '0' as int)
  }

  // A number is written in decimal digits, without leading zeros.
  lemma {:induction false} ItoaIsDecimal(n: nat)
    ensures Value(Itoa(n)) == n
    ensures forall i :: 0 <= i < |Itoa(n)| ==> '0' <= Itoa(n)[i] <= '9'
    ensures Itoa(n) != "" && (n > 0 ==> Itoa(n)[0] != '0')
  {
    if n < 10 {
      var d := "0123456789";
      assert d[0] == '0' && d[1] == '1' && d[2] == '2' && d[3] == '3' && d[4] == '4';
      assert d[5] == '5' && d[6] == '6' && d[7] == '7' && d[8] == '8' && d[9] == '9';
      assert Itoa(n)[..0] == "";
    } else {
      ItoaIsDecimal(n / 10);
      ItoaIsDecimal(n % 10);
      var s := Itoa(n);
      assert s[..|s| - 1] == Itoa(n / 10);
      assert Itoa(n % 10)[..0] == "" && s[|s| - 1] == Itoa(n % 10)[0];
    }
  }

  lemma {:induction false} ItoaDigits(n: nat)
    ensures |Itoa(n)| > 0 && '-' !in Itoa(n)
  {
    if n >= 10 { ItoaDigits(n / 10); }
  }

  lemma ItoaSplits(n: nat)
    ensures
      var s := Itoa(n);
      && |s| > 0
      && (n < 10 <==> |s| == 1)
      && s[|s| - 1] == Digit(n % 10)
      && (n >= 10 ==> s[..|s| - 1] == Itoa(n / 10))
  {
    ItoaDigits(n / 10);
  }

  lemma {:induction false} ItoaInjective(m: nat, n: nat)
    requires Itoa(m) == Itoa(n)
    ensures m == n
  {
    hide Itoa;
    ItoaSplits(m);
    ItoaSplits(n);
    if m >= 10 { ItoaInjective(m / 10, n / 10); }
  }

  // The last dash tells the slug and the number apart.
  lemma NumberedInjective(a: string, m: nat, b: string, n: nat)
    requires Numbered(a, m) == Numbered(b, n)
    ensures a == b && m == n
  {
    var s := Numbered(a, m);
    var x, y := Itoa(m), Itoa(n);
    ItoaDigits(m);
    ItoaDigits(n);
    assert s[|a|] == '-' && s[|b|] == '-';
    assert forall k :: |a| < k < |s| ==> s[k] == x[k - |a| - 1];
    assert forall k :: |b| < k < |s| ==> s[k] == y[k - |b| - 1];
    assert |a| == |b|;
    assert a == s[..|a|] == b;
    assert x == s[|a| + 1..] == y;
    ItoaInjective(m, n);
  }

  // ---------------------------------------------------------------- the loop

  // seen holds, for every name given out so far, how often it was asked for again.
  datatype Numbering = Numbering(seen: map<string, nat>, out: seq<string>)

  function Next(n: Numbering, slug: string): Numbering {
    if slug in n.seen then
      var k := n.seen[slug] + 1;
      var name := Numbered(slug, k);
      Numbering(n.seen[slug := k][name := 0], n.out + [name])
    else Numbering(n.seen[slug := 0], n.out + [slug])
  }

  function Number(slugs: seq<string>): Numbering {
    if slugs == [] then Numbering(map[], []) else Next(Number(slugs[..|slugs| - 1]), slugs[|slugs| - 1])
  }

  method HeadingSlugs(slugs: seq<string>) returns (out: seq<string>)
    ensures out == Number(slugs).out
  {
    var seen: map<string, nat> := map[];
    out := [];
    for i := 0 to |slugs|
      invariant Numbering(seen, out) == Number(slugs[..i])
    {
      assert slugs[..i + 1][..i] == slugs[..i];
      var section := slugs[i];
      if section in seen {
        seen := seen[section := seen[section] + 1];
        section := section + "-" + Itoa(seen[section]);
      }
      seen := seen[section := 0];
      out := out + [section];
    }
    assert slugs[..|slugs|] == slugs;
  }

  // ---------------------------------------------------------------- what always holds

  ghost predicate Registered(n: Numbering) {
    forall name :: name in n.seen <==> name in n.out
  }

  // One name per heading; the names with a counter are the names given out; and every
  // heading's own slug is among them, so a link to it finds something.
  lemma {:induction false} EverySlugPresent(slugs: seq<string>)
    ensures |Number(slugs).out| == |slugs|
    ensures Registered(Number(slugs))
    ensures forall slug :: slug in slugs ==> slug in Number(slugs).out
  {
    if slugs != [] {
      EverySlugPresent(slugs[..|slugs| - 1]);
      assert forall slug :: slug in slugs ==> slug in slugs[..|slugs| - 1] || slug == slugs[|slugs| - 1];
    }
  }

  lemma {:induction false} EarlierNamesStay(slugs: seq<string>, i: nat)
    requires i <= |slugs|
    ensures |Number(slugs).out| == |slugs|
    ensures Number(slugs[..i]).out == Number(slugs).out[..i]
  {
    EverySlugPresent(slugs);
    if i == |slugs| {
      assert slugs[..i] == slugs;
    } else {
      var q := slugs[..|slugs| - 1];
      EarlierNamesStay(q, i);
      assert q[..i] == slugs[..i];
      EverySlugPresent(q);
    }
  }

  // ---------------------------------------------------------------- when names are distinct

  // How often the headings in p ask for the name s: as their own slug, or as the number
  // they are given when no name ever clashes.
  function Claims(p: seq<string>, s: string): nat
    decreases |p|
  {
    if p == [] then 0
    else
      var q, t := p[..|p| - 1], p[|p| - 1];
      var e := Claims(q, t);
      Claims(q, s) + (if t == s then 1 else 0) + (if e > 0 && Numbered(t, e) == s then 1 else 0)
  }

  // The number heading i is due, none when it is the first to ask for its slug.
  function Ordinal(slugs: seq<string>, i: nat): nat
    requires i < |slugs|
  {
    Claims(slugs[..i], slugs[i])
  }

  // No repeated heading is due a name that an earlier heading spells out.
  ghost predicate ClashFree(slugs: seq<string>) {
    forall i: nat {:trigger Ordinal(slugs, i)} :: i < |slugs| && Ordinal(slugs, i) > 0 ==> Numbered(slugs[i], Ordinal(slugs, i)) !in slugs[..i]
  }

  ghost predicate Distinct(s: seq<string>) {
    forall i, j :: 0 <= i < j < |s| ==> s[i] != s[j]
  }

  lemma {:induction false} ClaimsGrow(p: seq<string>, n: nat, s: string)
    requires n <= |p|
    ensures Claims(p[..n], s) <= Claims(p, s)
    decreases |p|
  {
    if n == |p| {
      assert p[..n] == p;
    } else {
      var q := p[..|p| - 1];
      ClaimsGrow(q, n, s);
      assert q[..n] == p[..n];
    }
  }

  // A claimed name is some heading's slug, or the number it was due.
  lemma {:induction false} ClaimHasWitness(p: seq<string>, s: string) returns (j: nat)
    requires Claims(p, s) > 0
    ensures j < |p| && (p[j] == s || (Ordinal(p, j) > 0 && Numbered(p[j], Ordinal(p, j)) == s))
    decreases |p|
  {
    var q, t := p[..|p| - 1], p[|p| - 1];
    if Claims(q, s) > 0 {
      j := ClaimHasWitness(q, s);
      assert q[..j] == p[..j];
    } else {
      j := |p| - 1;
    }
  }

  lemma PrefixOrdinal(slugs: seq<string>, n: nat, i: nat)
    requires i < n <= |slugs|
    ensures Ordinal(slugs[..n], i) == Ordinal(slugs, i)
    ensures slugs[..n][i] == slugs[i] && slugs[..n][..i] == slugs[..i]
  {
    assert slugs[..n][..i] == slugs[..i];
  }

  lemma OrdinalBelowClaims(p: seq<string>, j: nat)
    requires j < |p|
    ensures Ordinal(p, j) < Claims(p, p[j])
  {
    assert p[..j + 1][..j] == p[..j];
    ClaimsGrow(p, j + 1, p[j]);
  }

  // The name a repeated heading is due can have been claimed only by a heading that spells
  // it out.
  lemma ClaimedDueIsSpelled(p: seq<string>, t: string)
    requires Claims(p, t) > 0 && Claims(p, Numbered(t, Claims(p, t))) > 0
    ensures Numbered(t, Claims(p, t)) in p
  {
    hide Claims, Ordinal, Numbered;
    var j := ClaimHasWitness(p, Numbered(t, Claims(p, t)));
    OrdinalBelowClaims(p, j);
    if p[j] != Numbered(t, Claims(p, t)) {
      NumberedInjective(p[j], Ordinal(p, j), t, Claims(p, t));
    }
  }

  ghost predicate Counted(p: seq<string>, n: Numbering) {
    && (forall s :: s in n.seen <==> Claims(p, s) > 0)
    && (forall s :: s in n.seen ==> n.seen[s] == Claims(p, s) - 1)
  }

  lemma CountedStep(q: seq<string>, t: string, n: Numbering)
    requires Counted(q, n)
    requires Claims(q, t) > 0 ==> Numbered(t, Claims(q, t)) !in q
    ensures Counted(q + [t], Next(n, t))
    ensures Next(n, t).out == n.out + [if Claims(q, t) == 0 then t else Numbered(t, Claims(q, t))]
    ensures Next(n, t).out[|n.out|] !in n.seen
  {
    var p := q + [t];
    assert p[..|p| - 1] == q;
    if Claims(q, t) > 0 && Claims(q, Numbered(t, Claims(q, t))) > 0 { ClaimedDueIsSpelled(q, t); }
  }

  // The name heading i gets when nothing clashes.
  function DueName(slugs: seq<string>, i: nat): string
    requires i < |slugs|
  {
    if Ordinal(slugs, i) == 0 then slugs[i] else Numbered(slugs[i], Ordinal(slugs, i))
  }

  ghost predicate AllDue(slugs: seq<string>, out: seq<string>) {
    |out| == |slugs| && forall i: nat :: i < |slugs| ==> out[i] == DueName(slugs, i)
  }

  lemma ClashFreePrefix(slugs: seq<string>, n: nat)
    requires ClashFree(slugs) && n <= |slugs|
    ensures ClashFree(slugs[..n])
  {
    hide Ordinal;
    forall i: nat | i < n
      ensures Ordinal(slugs[..n], i) == Ordinal(slugs, i) && slugs[..n][i] == slugs[i] && slugs[..n][..i] == slugs[..i]
    {
      PrefixOrdinal(slugs, n, i);
    }
  }

  lemma AllDueExtends(slugs: seq<string>, out: seq<string>)
    requires slugs != [] && AllDue(slugs[..|slugs| - 1], out)
    ensures AllDue(slugs, out + [DueName(slugs, |slugs| - 1)])
  {
    hide Ordinal;
    var q := slugs[..|slugs| - 1];
    forall i: nat | i < |q|
      ensures Ordinal(q, i) == Ordinal(slugs, i) && q[i] == slugs[i]
    {
      PrefixOrdinal(slugs, |q|, i);
    }
  }

  // Without a clash every heading gets the name it is due, and all names differ.
  lemma {:induction false} ClashFreeNames(slugs: seq<string>)
    requires ClashFree(slugs)
    ensures Counted(slugs, Number(slugs)) && Distinct(Number(slugs).out)
    ensures AllDue(slugs, Number(slugs).out)
  {
    hide ClashFree, Counted, AllDue, Claims, Next;
    if slugs == [] {
      NoHeadings();
    } else {
      var q, t := slugs[..|slugs| - 1], slugs[|slugs| - 1];
      ClashFreePrefix(slugs, |q|);
      ClashFreeNames(q);
      NotDueBefore(slugs);
      CountedStep(q, t, Number(q));
      EverySlugPresent(q);
      AllDueExtends(slugs, Number(q).out);
      assert q + [t] == slugs;
    }
  }

  lemma NoHeadings()
    ensures Counted([], Number([])) && AllDue([], Number([]).out)
  {
  }

  lemma NotDueBefore(slugs: seq<string>)
    requires slugs != [] && ClashFree(slugs)
    ensures
      var q, t := slugs[..|slugs| - 1], slugs[|slugs| - 1];
      && Ordinal(slugs, |q|) == Claims(q, t)
      && (Claims(q, t) > 0 ==> Numbered(t, Claims(q, t)) !in q)
  {
    assert Ordinal(slugs, |slugs| - 1) == Claims(slugs[..|slugs| - 1], slugs[|slugs| - 1]);
  }

  // The first clash gives a name out twice.
  lemma {:induction false} ClashRepeats(slugs: seq<string>)
    requires !ClashFree(slugs)
    ensures !Distinct(Number(slugs).out)
    decreases |slugs|
  {
    var q, t := slugs[..|slugs| - 1], slugs[|slugs| - 1];
    EarlierNamesStay(slugs, |q|);
    if ClashFree(q) {
      ClashFreeNames(q);
      EverySlugPresent(q);
      LastClashes(slugs);
      var name := Number(slugs).out[|q|];
      assert name in Number(q).out;
      var j :| 0 <= j < |q| && Number(q).out[j] == name;
      assert Number(slugs).out[j] == name;
    } else {
      ClashRepeats(q);
    }
  }

  lemma LastClashes(slugs: seq<string>)
    requires !ClashFree(slugs) && ClashFree(slugs[..|slugs| - 1])
    ensures
      var q, t := slugs[..|slugs| - 1], slugs[|slugs| - 1];
      Claims(q, t) > 0 && Numbered(t, Claims(q, t)) in q
  {
    var q := slugs[..|slugs| - 1];
    forall i: nat | i < |q|
      ensures Ordinal(q, i) == Ordinal(slugs, i) && q[i] == slugs[i] && q[..i] == slugs[..i]
    {
      PrefixOrdinal(slugs, |q|, i);
    }
    var i: nat :| i < |slugs| && Ordinal(slugs, i) > 0 && Numbered(slugs[i], Ordinal(slugs, i)) in slugs[..i];
    assert i == |q|;
  }

  // The names of a document are pairwise distinct exactly when no repeated heading is due a
  // name that an earlier heading spells out.
  lemma NamesDistinctIff(slugs: seq<string>)
    ensures Distinct(Number(slugs).out) <==> ClashFree(slugs)
  {
    if ClashFree(slugs) { ClashFreeNames(slugs); } else { ClashRepeats(slugs); }
  }

  // ---------------------------------------------------------------- ordinary documents

  // No slug is another slug with a number.
  ghost predicate Plain(slugs: seq<string>) {
    forall a, b, k: nat :: a in slugs && b in slugs && k > 0 ==> a != b + "-" + Itoa(k)
  }

  function Repeats(p: seq<string>, s: string): nat {
    if p == [] then 0 else Repeats(p[..|p| - 1], s) + if p[|p| - 1] == s then 1 else 0
  }

  lemma {:induction false} PlainClaims(p: seq<string>, all: seq<string>, s: string)
    requires Plain(all) && s in all && forall t :: t in p ==> t in all
    ensures Claims(p, s) == Repeats(p, s)
    decreases |p|
  {
    if p != [] {
      var q := p[..|p| - 1];
      PlainClaims(q, all, s);
      PlainClaims(q, all, p[|p| - 1]);
    }
  }

  // In a document where no slug is another slug with a number, the n-th repeat of a slug is
  // that slug with the number n, and all names differ.
  lemma PlainNames(slugs: seq<string>)
    requires Plain(slugs)
    ensures Distinct(Number(slugs).out) && |Number(slugs).out| == |slugs|
    ensures forall i: nat :: i < |slugs| ==>
      var n := Repeats(slugs[..i], slugs[i]);
      Number(slugs).out[i] == if n == 0 then slugs[i] else slugs[i] + "-" + Itoa(n)
  {
    hide Ordinal, Claims, Repeats, Plain, Number;
    PlainClashFree(slugs);
    ClashFreeNames(slugs);
    forall i: nat | i < |slugs|
      ensures Ordinal(slugs, i) == Repeats(slugs[..i], slugs[i])
    {
      PlainOrdinal(slugs, i);
    }
  }

  lemma PlainOrdinal(slugs: seq<string>, i: nat)
    requires Plain(slugs) && i < |slugs|
    ensures Ordinal(slugs, i) == Repeats(slugs[..i], slugs[i])
  {
    hide Plain;
    PlainClaims(slugs[..i], slugs, slugs[i]);
  }

  lemma PlainClashFree(slugs: seq<string>)
    requires Plain(slugs)
    ensures ClashFree(slugs)
  {
    hide Ordinal;
    forall i: nat | i < |slugs| && Ordinal(slugs, i) > 0
      ensures Numbered(slugs[i], Ordinal(slugs, i)) !in slugs[..i]
    {
      assert slugs[i] in slugs && forall a :: a in slugs[..i] ==> a in slugs;
    }
  }

  // Without that condition two headings can share a name.
  lemma SharedName()
    ensures Number(["foo-1", "foo", "foo"]).out == ["foo-1", "foo", "foo-1"]
  {
    var one := ["foo-1"];
    var two := one + ["foo"];
    var three := two + ["foo"];
    assert one[..0] == [] && two[..1] == one && three[..2] == two;
    assert Number([]) == Numbering(map[], []);
    assert Number(one) == Numbering(map["foo-1" := 0], ["foo-1"]);
    assert Number(two).out == ["foo-1", "foo"] && Number(two).seen["foo"] == 0;
    assert Itoa(1) == "1";
    assert Numbered("foo", 1) == "foo-1";
    assert Number(three).out == ["foo-1", "foo", "foo-1"];
  }
}
