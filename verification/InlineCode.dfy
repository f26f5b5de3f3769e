// Deleting inline code spans. A backtick not preceded by a backslash is a delimiter; a span
// runs from one delimiter to the next one at least two bytes further on.
module InlineCode {
  import opened Model

  predicate Delim(s: string, i: nat)
    requires i < |s|
  {
    s[i] == '`' && (i == 0 || s[i - 1] != '\\')
  }

  // The first delimiter at or after j.
  function Close(s: string, j: nat): (r: Option<nat>)
    ensures r.Some? ==> j <= r.value < |s| && Delim(s, r.value)
    ensures forall k :: j <= k < |s| && (r.Some? ==> k < r.value) ==> !Delim(s, k)
    decreases |s| - j
  {
    if j >= |s| then None else if Delim(s, j) then Some(j) else Close(s, j + 1)
  }

  // The scan from byte i on.
  function Scan(s: string, i: nat): string
    decreases |s| - i
  {
    if i >= |s| then ""
    else if Delim(s, i) && Close(s, i + 2).Some? then Scan(s, Close(s, i + 2).value + 1)
    else [s[i]] + Scan(s, i + 1)
  }

  function Strip(s: string): string {
    Scan(s, 0)
  }

  // ---------------------------------------------------------------- as a loop

  lemma ScanStep(s: string, i: nat, b: string)
    requires i < |s|
    ensures Delim(s, i) && Close(s, i + 2).Some? ==> Scan(s, i) == Scan(s, Close(s, i + 2).value + 1)
    ensures !(Delim(s, i) && Close(s, i + 2).Some?) ==> b + Scan(s, i) == (b + [s[i]]) + Scan(s, i + 1)
  {
  }

  lemma ScanEnds(s: string)
    ensures Scan(s, |s|) == ""
  {
  }

  lemma CloseStep(s: string, j: nat)
    ensures Close(s, j) == if j >= |s| then None else if Delim(s, j) then Some(j) else Close(s, j + 1)
  {
  }

  // No delimiter from j on.
  ghost predicate Clear(s: string, j: nat) {
    forall k :: j <= k < |s| ==> !Delim(s, k)
  }

  // inner counts the bytes the inner loop looks at: however many delimiters there are, no
  // more than twice the input. A search can fail twice at most: after that none starts.
  method RemoveInlineCode(s: string) returns (b: string, ghost inner: nat)
    ensures b == Strip(s)
    ensures inner <= 2 * |s|
  {
    hide Scan, Close, Clear;
    b, inner := "", 0;
    var i, n := 0, |s|;
    ghost var failed := 0;
    while i < n
      invariant i <= n
      invariant Strip(s) == b + Scan(s, i)
      invariant Paid(s, i, failed, inner)
      decreases n - i
    {
      ScanStep(s, i, b);
      if s[i] == '`' && (i == 0 || s[i - 1] != '\\') {
        var closed, j := false, i + 2;
        ghost var before := inner;
        while j < n && !closed
          invariant i + 2 <= j
          invariant closed ==> j < n && Close(s, i + 2) == Some(j)
          invariant !closed ==> Close(s, i + 2) == Close(s, j)
          invariant inner + i <= before + if closed then j - 1 else Min(n, j - 2)
          invariant j <= Max(n, i + 2)
          decreases n - j, !closed
        {
          CloseStep(s, j);
          inner := inner + 1;
          if s[j] == '`' && s[j - 1] != '\\' {
            closed := true;
          } else {
            j := j + 1;
          }
        }
        CloseStep(s, j);
        PaysOff(s, i, failed, before, inner);
        if closed {
          i := j + 1;
          continue;
        }
        failed := failed + 1;
      } else {
        PaysNothing(s, i, failed, inner);
      }
      b := b + [s[i]];
      i := i + 1;
    }
    ScanEnds(s);
  }

  // What the inner loop has cost so far: before the first failed search no more than the
  // bytes passed, afterwards one more input length per failure. A failed search at i means
  // that no delimiter is left beyond i + 1.
  ghost predicate Paid(s: string, i: nat, failed: nat, inner: nat) {
    match failed
    case 0 => inner <= i
    case 1 => inner <= |s| && Clear(s, i + 1)
    case 2 => inner <= 2 * |s| && Clear(s, i)
    case _ => false
  }

  lemma PaysNothing(s: string, i: nat, failed: nat, inner: nat)
    requires i < |s| && Paid(s, i, failed, inner) && !Delim(s, i)
    ensures Paid(s, i + 1, failed, inner)
  {
  }

  lemma PaysOff(s: string, i: nat, failed: nat, before: nat, inner: nat)
    requires i < |s| && Paid(s, i, failed, before) && Delim(s, i)
    requires
      match Close(s, i + 2)
      case Some(j) => inner + i <= before + j - 1
      case None => inner + i <= before + |s|
    ensures
      match Close(s, i + 2)
      case Some(j) => Paid(s, j + 1, failed, inner)
      case None => Paid(s, i + 1, failed + 1, inner)
  {
    if failed == 0 && Close(s, i + 2).None? {
      assert forall k :: i + 2 <= k < |s| ==> !Delim(s, k);
    }
  }

  // ---------------------------------------------------------------- the reference

  // A span from byte i to byte j, with at least one byte inside: both are backticks that no
  // backslash comes before.
  predicate Span(s: string, i: nat, j: nat) {
    && i + 2 <= j < |s|
    && s[i] == '`' && (i > 0 ==> s[i - 1] != '\\')
    && s[j] == '`' && s[j - 1] != '\\'
  }

  // The spans a non-overlapping, leftmost-first and shortest-first search from p finds.
  ghost predicate LeftmostShortest(s: string, p: nat, spans: seq<(nat, nat)>)
    decreases |spans|
  {
    if spans == [] then forall i, j :: p <= i ==> !Span(s, i, j)
    else
      var (i, j) := spans[0];
      && p <= i && Span(s, i, j)
      && (forall i', j' :: p <= i' < i ==> !Span(s, i', j'))
      && (forall j' :: j' < j ==> !Span(s, i, j'))
      && LeftmostShortest(s, j + 1, spans[1..])
  }

  // s from p on, without those spans.
  ghost function Without(s: string, p: nat, spans: seq<(nat, nat)>): string
    requires p <= |s| && LeftmostShortest(s, p, spans)
    decreases |spans|
  {
    if spans == [] then s[p..]
    else s[p..spans[0].0] + Without(s, spans[0].1 + 1, spans[1..])
  }

  lemma CloseIsSpan(s: string, i: nat)
    requires i < |s|
    ensures Delim(s, i) && Close(s, i + 2).Some? ==> Span(s, i, Close(s, i + 2).value)
    ensures forall j: nat :: Span(s, i, j) ==> Delim(s, i) && Close(s, i + 2).Some? && Close(s, i + 2).value <= j
  {
    forall j: nat | Span(s, i, j)
      ensures Delim(s, i) && Close(s, i + 2).Some? && Close(s, i + 2).value <= j
    {
      assert Delim(s, j);
    }
  }

  lemma ScanKeeps(s: string, p: nat, i: nat)
    requires p < i <= |s| && forall j: nat :: !Span(s, p, j)
    ensures Scan(s, p) == [s[p]] + Scan(s, p + 1)
    ensures s[p..i] == [s[p]] + s[p + 1..i]
  {
    hide Close, Delim, Span;
    CloseIsSpan(s, p);
  }

  // Up to the first span the scan copies.
  lemma {:induction false} ScanCopies(s: string, p: nat, i: nat)
    requires p <= i <= |s|
    requires forall i', j' :: p <= i' < i ==> !Span(s, i', j')
    ensures Scan(s, p) == s[p..i] + Scan(s, i)
    decreases i - p
  {
    hide Close, Delim, Span, Scan;
    if p < i {
      ScanKeeps(s, p, i);
      ScanCopies(s, p + 1, i);
    }
  }

  lemma ScanSkips(s: string, i: nat, j: nat)
    requires Span(s, i, j) && forall j': nat :: j' < j ==> !Span(s, i, j')
    ensures Scan(s, i) == Scan(s, j + 1)
  {
    hide Scan, Close;
    ScanStep(s, i, "");
    CloseIsSpan(s, i);
    assert Close(s, i + 2) == Some(j);
  }

  lemma {:induction false} ScanDeletesSpans(s: string, p: nat, spans: seq<(nat, nat)>)
    requires p <= |s| && LeftmostShortest(s, p, spans)
    ensures Scan(s, p) == Without(s, p, spans)
    decreases |spans|
  {
    hide Scan, Close, Delim;
    if spans == [] {
      NoSpansCopied(s, p);
    } else {
      var (i, j) := spans[0];
      ScanCopies(s, p, i);
      ScanSkips(s, i, j);
      ScanDeletesSpans(s, j + 1, spans[1..]);
    }
  }

  lemma NoSpansCopied(s: string, p: nat)
    requires p <= |s| && forall i, j :: p <= i ==> !Span(s, i, j)
    ensures Scan(s, p) == s[p..]
  {
    hide Span, Delim, Close;
    ScanCopies(s, p, |s|);
    ScanEnds(s);
    assert s[p..|s|] == s[p..];
  }

  lemma {:induction false} SpansExist(s: string, p: nat) returns (spans: seq<(nat, nat)>)
    requires p <= |s|
    ensures LeftmostShortest(s, p, spans)
    decreases |s| - p
  {
    if p == |s| {
      spans := [];
    } else if Delim(s, p) && Close(s, p + 2).Some? {
      CloseIsSpan(s, p);
      var j := Close(s, p + 2).value;
      var rest := SpansExist(s, j + 1);
      spans := [(p, j)] + rest;
      assert spans[1..] == rest;
    } else {
      CloseIsSpan(s, p);
      spans := SpansExist(s, p + 1);
    }
  }

  // The scan deletes exactly the spans a leftmost-shortest search finds.
  lemma StripDeletesSpans(s: string)
    ensures exists spans :: LeftmostShortest(s, 0, spans)
    ensures forall spans :: LeftmostShortest(s, 0, spans) ==> Strip(s) == Without(s, 0, spans)
  {
    var spans := SpansExist(s, 0);
    forall spans | LeftmostShortest(s, 0, spans)
      ensures Strip(s) == Without(s, 0, spans)
    {
      ScanDeletesSpans(s, 0, spans);
    }
  }

  // ---------------------------------------------------------------- what survives

  // Where the surviving bytes were.
  function Kept(s: string, i: nat): (k: seq<nat>)
    ensures forall q :: 0 <= q < |k| ==> i <= k[q] < |s|
    ensures forall p, q :: 0 <= p < q < |k| ==> k[p] < k[q]
    decreases |s| - i
  {
    if i >= |s| then []
    else if Delim(s, i) && Close(s, i + 2).Some? then Kept(s, Close(s, i + 2).value + 1)
    else [i] + Kept(s, i + 1)
  }

  lemma {:induction false} KeptBytes(s: string, i: nat)
    ensures |Scan(s, i)| == |Kept(s, i)|
    ensures forall q :: 0 <= q < |Kept(s, i)| ==> Scan(s, i)[q] == s[Kept(s, i)[q]]
    decreases |s| - i
  {
    if i < |s| {
      if Delim(s, i) && Close(s, i + 2).Some? {
        KeptBytes(s, Close(s, i + 2).value + 1);
      } else {
        KeptBytes(s, i + 1);
      }
    }
  }

  // Whether a backslash comes before the q-th survivor, in the output when prev is what the
  // output already ends in, and in the input.
  ghost predicate SameEscape(s: string, k: seq<nat>, prev: bool, q: nat)
    requires q < |k| && forall p :: 0 <= p < |k| ==> k[p] < |s|
  {
    (if q == 0 then prev else s[k[q - 1]] == '\\') <==> (k[q] > 0 && s[k[q] - 1] == '\\')
  }

  lemma {:induction false} KeptEscapes(s: string, i: nat, prev: bool, q: nat)
    requires q < |Kept(s, i)|
    requires prev <==> 0 < i <= |s| && s[i - 1] == '\\'
    ensures SameEscape(s, Kept(s, i), prev, q)
    decreases |s| - i
  {
    hide Close, Kept, SameEscape;
    KeptStep(s, i);
    if Delim(s, i) && Close(s, i + 2).Some? {
      KeptEscapes(s, Close(s, i + 2).value + 1, prev, q);
    } else {
      var rest := Kept(s, i + 1);
      if q > 0 { KeptEscapes(s, i + 1, s[i] == '\\', q - 1); }
      EscapeShifts(s, i, rest, prev, q);
    }
  }

  lemma KeptStep(s: string, i: nat)
    ensures i >= |s| ==> Kept(s, i) == []
    ensures i < |s| && Delim(s, i) && Close(s, i + 2).Some? ==> Kept(s, i) == Kept(s, Close(s, i + 2).value + 1)
    ensures i < |s| && !(Delim(s, i) && Close(s, i + 2).Some?) ==> Kept(s, i) == [i] + Kept(s, i + 1)
  {
  }

  lemma EscapeShifts(s: string, i: nat, rest: seq<nat>, prev: bool, q: nat)
    requires i < |s| && q <= |rest| && forall p :: 0 <= p < |rest| ==> rest[p] < |s|
    requires prev <==> 0 < i && s[i - 1] == '\\'
    requires q > 0 ==> SameEscape(s, rest, s[i] == '\\', q - 1)
    ensures SameEscape(s, [i] + rest, prev, q)
  {
  }

  // A surviving backtick is a delimiter in the output exactly when it was one in the input,
  // although the bytes before it may be gone.
  lemma EscapesKept(s: string, q: nat)
    requires q < |Strip(s)|
    ensures |Strip(s)| == |Kept(s, 0)| && Strip(s)[q] == s[Kept(s, 0)[q]]
    ensures var k := Kept(s, 0)[q];
            Strip(s)[q] == '`' ==> ((q > 0 && Strip(s)[q - 1] == '\\') <==> (k > 0 && s[k - 1] == '\\'))
    ensures Delim(Strip(s), q) <==> Delim(s, Kept(s, 0)[q])
  {
    KeptBytes(s, 0);
    KeptEscapes(s, 0, false, q);
  }

  // After a surviving delimiter no span could close.
  lemma {:induction false} KeptDelimIsLast(s: string, i: nat, q: nat)
    requires q < |Kept(s, i)| && Delim(s, Kept(s, i)[q])
    ensures Clear(s, Kept(s, i)[q] + 2)
    decreases |s| - i
  {
    if i < |s| {
      if Delim(s, i) && Close(s, i + 2).Some? {
        KeptDelimIsLast(s, Close(s, i + 2).value + 1, q);
      } else if q > 0 {
        KeptDelimIsLast(s, i + 1, q - 1);
      }
    }
  }

  lemma {:induction false} IncreasingGap(k: seq<nat>, p: nat, q: nat)
    requires p <= q < |k| && forall a, b :: 0 <= a < b < |k| ==> k[a] < k[b]
    ensures k[q] - k[p] >= q - p
  {
    if p < q { IncreasingGap(k, p, q - 1); }
  }

  // Any two delimiters of the output are next to each other: there are at most two, and no
  // span is left.
  lemma TwoDelimsAdjacent(s: string, p: nat, q: nat)
    requires p < q < |Strip(s)| && Strip(s)[p] == '`' && Strip(s)[q] == '`'
    requires (p > 0 ==> Strip(s)[p - 1] != '\\') && Strip(s)[q - 1] != '\\'
    ensures q == p + 1
  {
    EscapesKept(s, p);
    EscapesKept(s, q);
    KeptDelimIsLast(s, 0, p);
    IncreasingGap(Kept(s, 0), p, q);
  }

  // The scan changes nothing exactly when there is no span.
  lemma StripUnchanged(s: string)
    ensures Strip(s) == s <==> forall i, j :: !Span(s, i, j)
  {
    hide Kept, Close, Span, Delim;
    var spans := SpansExist(s, 0);
    ScanDeletesSpans(s, 0, spans);
    if spans != [] {
      ShorterAfterSpan(s, spans[0].0, spans[0].1, spans[1..]);
    }
  }

  lemma ShorterAfterSpan(s: string, i: nat, j: nat, rest: seq<(nat, nat)>)
    requires Span(s, i, j) && LeftmostShortest(s, j + 1, rest)
    ensures |Without(s, j + 1, rest)| < |s| - i
  {
    hide LeftmostShortest, Kept, Close, Delim;
    ScanDeletesSpans(s, j + 1, rest);
    KeptBytes(s, j + 1);
    KeptShort(s, j + 1);
  }

  lemma {:induction false} KeptShort(s: string, i: nat)
    requires i <= |s|
    ensures |Kept(s, i)| <= |s| - i
    decreases |s| - i
  {
    if i < |s| {
      if Delim(s, i) && Close(s, i + 2).Some? {
        KeptShort(s, Close(s, i + 2).value + 1);
      } else {
        KeptShort(s, i + 1);
      }
    }
  }

  // One pass is enough: deleting spans never makes a new one.
  lemma StripIdempotent(s: string)
    ensures Strip(Strip(s)) == Strip(s)
  {
    hide Strip;
    var t := Strip(s);
    forall i, j
      ensures !Span(t, i, j)
    {
      if Span(t, i, j) { TwoDelimsAdjacent(s, i, j); }
    }
    StripUnchanged(t);
  }
}
