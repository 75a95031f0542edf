/**
 * The handler's decision rule: a byte-substring test of the request body for
 * the drop marker `logsDropped` (telemetryApi/listener.go, http_handler).
 */
module Marker {

  /** A byte of a request body. */
  newtype byte = x: int | 0 <= x < 256

  /** The ASCII bytes of "logsDropped". */
  const DropMarker: seq<byte> := [108, 111, 103, 115, 68, 114, 111, 112, 112, 101, 100]

  /** `m` is a prefix of `s`. */
  predicate IsPrefix<T(==)>(m: seq<T>, s: seq<T>)
  {
    |m| <= |s| && s[..|m|] == m
  }

  /** Byte-substring search: does `m` occur anywhere in `s`? The empty pattern occurs in every body. */
  function Contains<T(==)>(s: seq<T>, m: seq<T>): bool
    decreases |s|
  {
    if IsPrefix(m, s) then true
    else if |s| == 0 then false
    else Contains(s[1..], m)
  }

  /** `m` occurs in `s` starting at offset `i`. */
  ghost predicate OccursAt<T>(m: seq<T>, s: seq<T>, i: int)
  {
    0 <= i && i + |m| <= |s| && s[i..i + |m|] == m
  }

  /** Reference definition: `m` occurs in `s` at some offset. */
  ghost predicate OccursIn<T>(m: seq<T>, s: seq<T>)
  {
    exists i :: OccursAt(m, s, i)
  }

  /** The search agrees with the reference definition, in both directions. */
  lemma {:induction false} ContainsIffOccurs<T>(s: seq<T>, m: seq<T>)
    ensures Contains(s, m) <==> OccursIn(m, s)
    decreases |s|
  {
    if IsPrefix(m, s) {
      assert OccursAt(m, s, 0);
    } else if |s| == 0 {
      assert !OccursIn(m, s);
    } else {
      ContainsIffOccurs(s[1..], m);
      if OccursIn(m, s[1..]) {
        var i :| OccursAt(m, s[1..], i);
        assert s[i + 1..i + 1 + |m|] == s[1..][i..i + |m|];
        assert OccursAt(m, s, i + 1);
      }
      if OccursIn(m, s) {
        var i :| OccursAt(m, s, i);
        assert i != 0;
        assert s[1..][i - 1..i - 1 + |m|] == s[i..i + |m|];
        assert OccursAt(m, s[1..], i - 1);
      }
    }
  }

  /** The handler's test: the body reports dropped events. */
  function ReportsDrop(body: seq<byte>): (r: bool)
    ensures r <==> OccursIn(DropMarker, body)
  {
    ContainsIffOccurs(body, DropMarker);
    Contains(body, DropMarker)
  }

  /** The marker is found wherever it sits in the body, whatever surrounds it. */
  lemma MarkerAnywhereIsReported(before: seq<byte>, after: seq<byte>)
    ensures ReportsDrop(before + DropMarker + after)
  {
    var body := before + DropMarker + after;
    assert body[|before|..|before| + |DropMarker|] == DropMarker;
    assert OccursAt(DropMarker, body, |before|);
  }

  /** A body shorter than the marker never reports dropped events. */
  lemma ShortBodyNotReported(body: seq<byte>)
    requires |body| < |DropMarker|
    ensures !ReportsDrop(body)
  {
  }

  /** Adding bytes around a reporting body keeps it reporting. */
  lemma ReportIsStableUnderExtension(before: seq<byte>, body: seq<byte>, after: seq<byte>)
    requires ReportsDrop(body)
    ensures ReportsDrop(before + body + after)
  {
    var i :| OccursAt(DropMarker, body, i);
    var whole := before + body + after;
    assert whole[|before| + i..|before| + i + |DropMarker|] == body[i..i + |DropMarker|];
    assert OccursAt(DropMarker, whole, |before| + i);
  }
}
