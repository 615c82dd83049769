/** Recovery codes issued at provisioning: eight codes, each two random
    ten-character alphanumeric segments joined by a dash. The random segments
    come from outside (`Str::random(10)`) and are parameters here. */
module RecoveryCodes {
  import JsonList

  const Count: nat := 8
  const SegmentLength: nat := 10
  const Dash: char := '-'
  const CodeLength: nat := 2 * SegmentLength + 1

  predicate IsAlphaNum(c: char) {
    ('a' <= c <= 'z') || ('A' <= c <= 'Z') || ('0' <= c <= '9')
  }

  /** What `Str::random(10)` returns: ten alphanumeric characters. */
  predicate IsSegment(s: string) {
    |s| == SegmentLength && forall i :: 0 <= i < |s| ==> IsAlphaNum(s[i])
  }

  /** The shape `XXXXXXXXXX-XXXXXXXXXX`. */
  predicate IsCode(c: string) {
    |c| == CodeLength && c[SegmentLength] == Dash
    && IsSegment(c[..SegmentLength]) && IsSegment(c[SegmentLength + 1..])
  }

  predicate AreSegments(segments: seq<string>) {
    |segments| == 2 * Count && forall i :: 0 <= i < |segments| ==> IsSegment(segments[i])
  }

  /** `Collection::times(8, fn () => Str::random(10) . '-' . Str::random(10))`,
      the random draws taken in order from `segments`. */
  function Generate(segments: seq<string>): (codes: seq<string>)
    requires AreSegments(segments)
    ensures |codes| == Count
    ensures forall i :: 0 <= i < Count ==>
      && IsCode(codes[i])
      && codes[i][..SegmentLength] == segments[2 * i]
      && codes[i][SegmentLength + 1..] == segments[2 * i + 1]
  {
    seq(Count, i requires 0 <= i < Count => segments[2 * i] + [Dash] + segments[2 * i + 1])
  }

  /** Splits well-formed codes back into their segments, in draw order. */
  function Segments(codes: seq<string>): (segments: seq<string>)
    requires forall i :: 0 <= i < |codes| ==> IsCode(codes[i])
    ensures |segments| == 2 * |codes|
  {
    seq(2 * |codes|, k requires 0 <= k < 2 * |codes| =>
      var c := codes[k / 2];
      assert IsCode(c);
      if k % 2 == 0 then c[..SegmentLength] else c[SegmentLength + 1..])
  }

  /** No random draw is lost: the codes determine the segments they came from. */
  lemma SegmentsRoundTrip(segments: seq<string>)
    requires AreSegments(segments)
    ensures Segments(Generate(segments)) == segments
  {
  }

  /** Different draws give different code sets, so re-provisioning with fresh
      randomness never reissues the old set. */
  lemma GenerateInjective(a: seq<string>, b: seq<string>)
    requires AreSegments(a) && AreSegments(b)
    requires a != b
    ensures Generate(a) != Generate(b)
  {
    SegmentsRoundTrip(a);
    SegmentsRoundTrip(b);
  }

  /** Codes are written by `json_encode` without any escaping. */
  lemma CodesArePlain(codes: seq<string>)
    requires forall i :: 0 <= i < |codes| ==> IsCode(codes[i])
    ensures forall i :: 0 <= i < |codes| ==> JsonList.Plain(codes[i])
  {
  }
}
