/** Whether a list of output subnets covers a network: a sweep over sorted intervals. */
module CoverSweep {
  import opened Ipv4
  import opened Sorting

  datatype Span = Span(left: nat, right: nat)

  /** Lexicographic order of pairs. */
  function SpanLe(): (Span, Span) -> bool {
    (a: Span, b: Span) => a.left < b.left || (a.left == b.left && a.right <= b.right)
  }

  ghost predicate Covered(outputs: seq<Net>, ip: Ip) {
    exists i :: 0 <= i < |outputs| && outputs[i].Contains(ip)
  }

  ghost predicate InSpan(spans: seq<Span>, ip: Ip) {
    exists i :: 0 <= i < |spans| && spans[i].left <= ip < spans[i].right
  }

  function Max(a: nat, b: nat): nat {
    if a < b then b else a
  }

  function Min(a: nat, b: nat): nat {
    if a < b then a else b
  }

  /** The outputs clipped to `[start, end)`, without the empty ones. */
  method Clip(outputs: seq<Net>, start: nat, end: nat) returns (spans: seq<Span>)
    ensures forall s <- spans :: start <= s.left < s.right <= end
    ensures forall ip: Ip :: start <= ip < end ==> (InSpan(spans, ip) <==> Covered(outputs, ip))
  {
    spans := [];
    for i := 0 to |outputs|
      invariant forall s <- spans :: start <= s.left < s.right <= end
      invariant forall ip: Ip :: start <= ip < end ==> (InSpan(spans, ip) <==> Covered(outputs[..i], ip))
    {
      var span := Span(Max(outputs[i].network, start), Min(outputs[i].Broadcast() + 1, end));
      ghost var before := spans;
      if span.left < span.right {
        spans := spans + [span];
      }
      forall ip: Ip | start <= ip < end
        ensures InSpan(spans, ip) <==> Covered(outputs[..i + 1], ip)
      {
        ClipStep(outputs, i, before, spans, span, ip);
      }
    }
    assert outputs[..|outputs|] == outputs;
  }

  lemma ClipStep(outputs: seq<Net>, i: nat, before: seq<Span>, after: seq<Span>, span: Span, ip: Ip)
    requires i < |outputs|
    requires InSpan(before, ip) <==> Covered(outputs[..i], ip)
    requires after == if span.left < span.right then before + [span] else before
    requires span.left <= ip < span.right <==> outputs[i].Contains(ip)
    ensures InSpan(after, ip) <==> Covered(outputs[..i + 1], ip)
  {
    if Covered(outputs[..i], ip) {
      var k :| 0 <= k < |outputs[..i]| && outputs[..i][k].Contains(ip);
      assert outputs[..i + 1][k] == outputs[..i][k];
      var j :| 0 <= j < |before| && before[j].left <= ip < before[j].right;
      assert after[j] == before[j];
    }
    if outputs[i].Contains(ip) {
      assert outputs[..i + 1][i] == outputs[i];
      assert after[|before|] == span;
    }
    if InSpan(after, ip) {
      var j :| 0 <= j < |after| && after[j].left <= ip < after[j].right;
      if j < |before| {
        assert before[j] == after[j];
        assert InSpan(before, ip);
      }
    }
    if Covered(outputs[..i + 1], ip) {
      var k :| 0 <= k < |outputs[..i + 1]| && outputs[..i + 1][k].Contains(ip);
      if k < i {
        assert outputs[..i][k] == outputs[..i + 1][k];
        assert Covered(outputs[..i], ip);
      }
    }
  }

  lemma SortKeepsSpans(spans: seq<Span>, ip: Ip)
    ensures InSpan(Sort(spans, SpanLe()), ip) <==> InSpan(spans, ip)
  {
    var sorted := Sort(spans, SpanLe());
    SortPermutes(spans, SpanLe());
    if InSpan(sorted, ip) {
      var i :| 0 <= i < |sorted| && sorted[i].left <= ip < sorted[i].right;
      assert sorted[i] in spans;
    }
    if InSpan(spans, ip) {
      var i :| 0 <= i < |spans| && spans[i].left <= ip < spans[i].right;
      assert spans[i] in sorted;
    }
  }

  /** The clipped outputs in order, covering the same addresses of `[start, end)`. */
  method SortedSpans(outputs: seq<Net>, start: nat, end: nat) returns (spans: seq<Span>)
    ensures Sorted(spans, SpanLe())
    ensures forall ip: Ip :: start <= ip < end ==> (InSpan(spans, ip) <==> Covered(outputs, ip))
  {
    hide InSpan, Covered;
    var clipped := Clip(outputs, start, end);
    spans := Sort(clipped, SpanLe());
    SortSorts(clipped, SpanLe());
    forall ip: Ip | start <= ip < end
      ensures InSpan(spans, ip) <==> Covered(outputs, ip)
    {
      SortKeepsSpans(clipped, ip);
    }
  }

  /** True exactly when every address of the network lies in some output subnet. */
  method NetworkIsCovered(network: Net, outputs: seq<Net>) returns (covered: bool)
    ensures covered <==> forall ip :: network.Contains(ip) ==> Covered(outputs, ip)
  {
    hide Covered;
    var start, end := network.network, network.Broadcast() + 1;
    var spans := SortedSpans(outputs, start, end);
    var cursor := start;
    for i := 0 to |spans|
      invariant start <= cursor < end
      invariant forall ip :: start <= ip < cursor ==> InSpan(spans, ip)
      invariant forall k :: 0 <= k < i ==> spans[k].right <= cursor
    {
      if spans[i].left > cursor {
        Gap(spans, i, cursor);
        assert network.Contains(cursor) && !Covered(outputs, cursor);
        return false;
      }
      Advance(spans, i, start, cursor);
      cursor := Max(cursor, spans[i].right);
      if cursor >= end {
        return true;
      }
    }
    Gap(spans, |spans|, cursor);
    assert network.Contains(cursor) && !Covered(outputs, cursor);
    covered := false;
  }

  /** A span that starts at or before the cursor covers up to its end. */
  lemma Advance(spans: seq<Span>, i: nat, start: nat, cursor: nat)
    requires i < |spans| && spans[i].left <= cursor
    requires forall ip :: start <= ip < cursor ==> InSpan(spans, ip)
    ensures forall ip :: start <= ip < Max(cursor, spans[i].right) ==> InSpan(spans, ip)
  {
  }

  /** In sorted spans, nothing covers a point past all earlier ends and before the next start, if there is one. */
  lemma Gap(spans: seq<Span>, i: nat, cursor: nat)
    requires i <= |spans| && Sorted(spans, SpanLe())
    requires i < |spans| ==> spans[i].left > cursor
    requires forall k :: 0 <= k < i ==> spans[k].right <= cursor
    ensures !InSpan(spans, cursor)
  {
    forall k | 0 <= k < |spans|
      ensures !(spans[k].left <= cursor < spans[k].right)
    {
      assert i < k ==> SpanLe()(spans[i], spans[k]);
    }
  }
}
