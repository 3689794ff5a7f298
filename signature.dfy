/** Signatures arrive from the drawing canvas as data URLs (`data:image/png;base64,<payload>`).
    Every prototype splits the header off at the first comma, some repair the base64
    padding, and then decode. The decoder itself is a parameter (`b64`): it may refuse
    its input, and nothing else is assumed about it. */
module SignatureDataUrl {
  import opened Common

  const DATA_IMAGE_TAG := "data:image"

  /** `header, encoded = url.split(",", 1)`; Python raises ValueError when there is no comma. */
  function SplitHeader(url: string): (r: Option<(string, string)>)
    ensures r.None? <==> ',' !in url
    ensures r.Some? ==> url == r.value.0 + [','] + r.value.1 && ',' !in r.value.0
  {
    if ',' !in url then None
    else
      var k := IndexOf(url, ',');
      assert url == url[..k] + [','] + url[k + 1..];
      Some((url[..k], url[k + 1..]))
  }

  /** Splitting a header and payload apart again gives them back, whatever the payload holds. */
  lemma SplitHeaderRoundTrip(header: string, payload: string)
    requires ',' !in header
    ensures SplitHeader(header + [','] + payload) == Some((header, payload))
  {
    var url := header + [','] + payload;
    assert url[|header|] == ',';
    var k := IndexOf(url, ',');
    assert k == |header|;
    assert url[..k] == header;
    assert url[k + 1..] == payload;
  }

  /** `'=' * n` */
  function Pads(n: nat): (r: string)
    ensures |r| == n && forall i :: 0 <= i < n ==> r[i] == '='
  {
    seq(n, _ => '=')
  }

  /** `missing = len(encoded) % 4; if missing: encoded += '=' * (4 - missing)` */
  function RepairPadding(encoded: string): (r: string)
    ensures |r| % 4 == 0
    ensures |encoded| <= |r| < |encoded| + 4
    ensures r[..|encoded|] == encoded
    ensures forall i :: |encoded| <= i < |r| ==> r[i] == '='
    ensures |encoded| % 4 == 0 ==> r == encoded
  {
    var missing := |encoded| % 4;
    if missing != 0 then encoded + Pads(4 - missing) else encoded
  }

  /** Repairing an already repaired payload changes nothing. */
  lemma RepairPaddingIdempotent(encoded: string)
    ensures RepairPadding(RepairPadding(encoded)) == RepairPadding(encoded)
  {
  }

  /** Characters of the base64 alphabet of section 4 of RFC 4648. */
  predicate IsAlphabetChar(c: char)
  {
    'A' <= c <= 'Z' || 'a' <= c <= 'z' || '0' <= c <= '9' || c == '+' || c == '/'
  }

  predicate AllAlphabet(s: string)
  {
    forall i :: 0 <= i < |s| ==> IsAlphabetChar(s[i])
  }

  /** The number of '=' at the end of `s`. */
  function TrailingPads(s: string): (t: nat)
    ensures t <= |s|
    ensures forall i :: |s| - t <= i < |s| ==> s[i] == '='
    ensures t < |s| ==> s[|s| - t - 1] != '='
  {
    if s == [] || s[|s| - 1] != '=' then 0 else 1 + TrailingPads(s[..|s| - 1])
  }

  /** Canonical padded base64 (section 4 of RFC 4648): whole four-character quanta,
      alphabet characters, and one or two '=' at most at the very end. */
  predicate CanonicalBase64(s: string)
  {
    |s| % 4 == 0 && TrailingPads(s) <= 2 && AllAlphabet(s[..|s| - TrailingPads(s)])
  }

  /** A payload ending in an alphabet character followed by `n` pads has exactly `n` pads. */
  lemma {:induction false} TrailingPadsOfPadded(e: string, n: nat)
    requires |e| > 0 && IsAlphabetChar(e[|e| - 1])
    ensures TrailingPads(e + Pads(n)) == n
  {
    if n > 0 {
      var s := e + Pads(n);
      assert s[..|s| - 1] == e + Pads(n - 1);
      TrailingPadsOfPadded(e, n - 1);
    }
  }

  /** For a payload made of alphabet characters, the padding repair yields canonical base64
      exactly when the payload length is not 1 more than a multiple of four: in that case
      it appends "===", which no canonical encoding ends with. */
  lemma {:induction false} RepairCanonicalExactly(e: string)
    requires AllAlphabet(e)
    ensures CanonicalBase64(RepairPadding(e)) <==> |e| % 4 != 1
  {
    var r := RepairPadding(e);
    if e == [] {
      assert r == e;
    } else {
      var n := |r| - |e|;
      assert r == e + Pads(n);
      TrailingPadsOfPadded(e, n);
      assert r[..|r| - n] == e;
      if |e| % 4 == 1 {
        assert n == 3;
      }
    }
  }

  /** The repair-then-decode step shared by the routes: `None` when there is no comma
      or the decoder refuses the repaired payload. */
  function DecodeDataUrl(url: string, b64: string -> Option<Bytes>): (r: Option<Bytes>)
    ensures ',' !in url ==> r.None?
    ensures ',' in url ==> r == b64(RepairPadding(url[IndexOf(url, ',') + 1..]))
    ensures r.Some? ==> exists h, e :: ',' !in h && url == h + [','] + e && b64(RepairPadding(e)) == r
  {
    match SplitHeader(url)
    case None => None
    case Some((_, e)) => b64(RepairPadding(e))
  }

  /** The same step without the padding repair (the prototypes that decode directly). */
  function DecodeDataUrlUnrepaired(url: string, b64: string -> Option<Bytes>): (r: Option<Bytes>)
    ensures ',' !in url ==> r.None?
    ensures ',' in url ==> r == b64(url[IndexOf(url, ',') + 1..])
    ensures r.Some? ==> exists h, e :: ',' !in h && url == h + [','] + e && b64(e) == r
  {
    match SplitHeader(url)
    case None => None
    case Some((_, e)) => b64(e)
  }

  /** A canvas data URL decodes to what the decoder makes of the (repaired) payload after
      its header, whatever commas the payload holds. */
  lemma DecodeHeaderPayload(header: string, payload: string, b64: string -> Option<Bytes>)
    requires ',' !in header
    ensures DecodeDataUrl(header + [','] + payload, b64) == b64(RepairPadding(payload))
    ensures DecodeDataUrlUnrepaired(header + [','] + payload, b64) == b64(payload)
  {
    SplitHeaderRoundTrip(header, payload);
  }

  /** A canvas data URL whose payload is already a multiple of four long decodes to
      exactly what the decoder makes of the payload, with or without the repair. */
  lemma DecodeWellSizedPayload(header: string, payload: string, b64: string -> Option<Bytes>)
    requires ',' !in header && |payload| % 4 == 0
    ensures DecodeDataUrl(header + [','] + payload, b64) == b64(payload)
    ensures DecodeDataUrlUnrepaired(header + [','] + payload, b64) == b64(payload)
  {
    DecodeHeaderPayload(header, payload, b64);
  }
}
