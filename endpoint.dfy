/**
  The endpoint: a list of URL segments that together name a REST method.
  Segments are .NET strings and may be null; joining renders a null segment
  as the empty string, as string.Join does.
*/
module Endpoints {
  import opened Protocol

  /** char.IsWhiteSpace: the Unicode space separators, line and paragraph
      separators, and the control characters U+0009..U+000D, U+0085. */
  predicate IsWhiteSpace(c: char)
  {
    c == ' ' || ('\t' <= c <= '\r') || c == '\U{0085}' || c == '\U{00A0}' || c == '\U{1680}'
    || ('\U{2000}' <= c <= '\U{200A}') || c == '\U{2028}' || c == '\U{2029}' || c == '\U{202F}'
    || c == '\U{205F}' || c == '\U{3000}'
  }

  /** string.IsNullOrWhiteSpace */
  predicate IsNullOrWhiteSpace(s: NStr)
  {
    s.None? || forall i :: 0 <= i < |s.value| ==> IsWhiteSpace(s.value[i])
  }

  /** The segments the params constructor keeps: every segment that is not
      null or blank, in their original order. */
  function Significant(segments: seq<NStr>): (r: seq<NStr>)
    ensures |r| <= |segments|
    ensures forall i :: 0 <= i < |r| ==> !IsNullOrWhiteSpace(r[i]) && r[i] in segments
  {
    if segments == [] then []
    else if IsNullOrWhiteSpace(segments[0]) then Significant(segments[1..])
    else [segments[0]] + Significant(segments[1..])
  }

  /** Filtering distributes over concatenation, so the kept segments keep
      their relative order. */
  lemma {:induction false} SignificantConcat(a: seq<NStr>, b: seq<NStr>)
    ensures Significant(a + b) == Significant(a) + Significant(b)
  {
    if a == [] {
      assert a + b == b;
    } else {
      assert (a + b)[0] == a[0];
      assert (a + b)[1..] == a[1..] + b;
      SignificantConcat(a[1..], b);
    }
  }

  /** A list with no null or blank segment is kept whole. */
  lemma {:induction false} SignificantKeepsAll(s: seq<NStr>)
    requires forall i :: 0 <= i < |s| ==> !IsNullOrWhiteSpace(s[i])
    ensures Significant(s) == s
  {
    if s != [] {
      SignificantKeepsAll(s[1..]);
    }
  }

  /** A list made only of null or blank segments is dropped whole. */
  lemma {:induction false} SignificantDropsAll(s: seq<NStr>)
    requires forall i :: 0 <= i < |s| ==> IsNullOrWhiteSpace(s[i])
    ensures Significant(s) == []
  {
    if s != [] {
      SignificantDropsAll(s[1..]);
    }
  }

  /** string.Join("/", segments) */
  function Join(segments: seq<NStr>): (r: string)
    ensures segments == [] ==> r == ""
    ensures |segments| == 1 ==> r == Coalesce(segments[0])
  {
    if segments == [] then ""
    else if |segments| == 1 then Coalesce(segments[0])
    else Coalesce(segments[0]) + "/" + Join(segments[1..])
  }

  /** Joining two non-empty lists puts exactly one separator between them. */
  lemma {:induction false} JoinConcat(a: seq<NStr>, b: seq<NStr>)
    requires a != [] && b != []
    ensures Join(a + b) == Join(a) + "/" + Join(b)
  {
    assert (a + b)[0] == a[0];
    assert (a + b)[1..] == a[1..] + b;
    if |a| > 1 {
      JoinConcat(a[1..], b);
    }
  }

  /** Appending one segment to a non-empty list extends the joined text by
      the separator and that segment. */
  lemma JoinAppend(a: seq<NStr>, s: NStr)
    requires a != []
    ensures Join(a + [s]) == Join(a) + "/" + Coalesce(s)
  {
    JoinConcat(a, [s]);
  }

  /** The joined text is as long as all segments plus one separator between
      each pair of neighbours. */
  lemma {:induction false} JoinLength(s: seq<NStr>)
    requires s != []
    ensures |Join(s)| == TotalLength(s) + |s| - 1
  {
    if |s| > 1 {
      JoinLength(s[1..]);
    }
  }

  function TotalLength(s: seq<NStr>): nat
  {
    if s == [] then 0 else |Coalesce(s[0])| + TotalLength(s[1..])
  }

  class Endpoint {
    var segments: seq<NStr>

    /** `new Endpoint(IEnumerable<string>)`: every segment, verbatim. */
    constructor FromSequence(segments: seq<NStr>)
      ensures this.segments == segments
    {
      this.segments := segments;
    }

    /** `new Endpoint(params string[])`: null and blank segments dropped. */
    constructor FromParams(segments: seq<NStr>)
      ensures this.segments == Significant(segments)
    {
      this.segments := Significant(segments);
    }

    /** Adds exactly one segment at the end, even an empty or null one. */
    method Append(segment: NStr)
      modifies this
      ensures segments == old(segments) + [segment]
      ensures old(segments) != [] ==> ToString() == old(ToString()) + "/" + Coalesce(segment)
      ensures old(segments) == [] ==> ToString() == Coalesce(segment)
    {
      if segments != [] {
        JoinAppend(segments, segment);
      }
      segments := segments + [segment];
    }

    function ToString(): (r: string)
      reads this
      ensures segments == [] ==> r == ""
      ensures |segments| == 1 ==> r == Coalesce(segments[0])
    {
      Join(segments)
    }
  }
}
