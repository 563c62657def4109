/**
 * processBase64Image of the result section: turns an image payload returned by the AI service
 * into a `data:` URL (section 3 of RFC 2397), sniffing the JPEG signature of the base64 text
 * (alphabet of section 4 of RFC 4648). The log label and the console output are not modelled.
 */
module ImagePayload {
  import opened Base64

  /** The characters of the JavaScript class `\s`, which is also the set `trim()` removes. */
  predicate IsJsSpace(c: char) {
    var k := c as int;
    k == 0x09 || k == 0x0A || k == 0x0B || k == 0x0C || k == 0x0D || k == 0x20 ||
    k == 0xA0 || k == 0x1680 || (0x2000 <= k <= 0x200A) || k == 0x2028 || k == 0x2029 ||
    k == 0x202F || k == 0x205F || k == 0x3000 || k == 0xFEFF
  }

  predicate SpaceFree(s: string) {
    forall i :: 0 <= i < |s| ==> !IsJsSpace(s[i])
  }

  predicate StartsWith(s: string, prefix: string) {
    |prefix| <= |s| && s[..|prefix|] == prefix
  }

  /** `trim().replace(/[\r\n\s]/g, "")`: every `\s` character removed, the others kept in order. */
  function StripSpace(s: string): (r: string)
    ensures SpaceFree(r)
    ensures |r| <= |s|
    ensures forall c :: c in r <==> c in s && !IsJsSpace(c)
    ensures SpaceFree(s) ==> r == s
  {
    if s == [] then []
    else if IsJsSpace(s[0]) then StripSpace(s[1..])
    else [s[0]] + StripSpace(s[1..])
  }

  /** Length of the longest prefix of t made of alphabet characters. */
  function AlphabetRun(t: string): (n: nat)
    ensures n <= |t|
    ensures forall i :: 0 <= i < n ==> IsAlphabetChar(t[i])
    ensures n < |t| ==> !IsAlphabetChar(t[n])
  {
    if t != [] && IsAlphabetChar(t[0]) then 1 + AlphabetRun(t[1..]) else 0
  }

  /** The test of `/^[A-Za-z0-9+/]+=*$/`: one or more alphabet characters, then only pad characters. */
  predicate MatchesBase64Pattern(t: string) {
    var n := AlphabetRun(t);
    n >= 1 && forall i :: n <= i < |t| ==> t[i] == '='
  }

  /** t splits at k into a non-empty alphabet run and a run of '='. */
  predicate SplitsAt(t: string, k: nat) {
    1 <= k <= |t| &&
    (forall i :: 0 <= i < k ==> IsAlphabetChar(t[i])) &&
    (forall i :: k <= i < |t| ==> t[i] == '=')
  }

  /** The regular expression's meaning: the pattern matches exactly when such a split exists. */
  lemma PatternMeaning(t: string)
    ensures MatchesBase64Pattern(t) <==> exists k :: SplitsAt(t, k)
  {
    var n := AlphabetRun(t);
    if MatchesBase64Pattern(t) {
      assert SplitsAt(t, n);
    }
    if k: nat :| SplitsAt(t, k) {
      RunEndsAtSplit(t, k);
    }
  }

  lemma {:induction false} RunEndsAtSplit(t: string, k: nat)
    requires SplitsAt(t, k)
    ensures AlphabetRun(t) == k
  {
    if k == 1 {
      assert |t| > 1 ==> t[1] == '=';
    } else {
      assert SplitsAt(t[1..], k - 1);
      RunEndsAtSplit(t[1..], k - 1);
    }
  }

  /** `substring(0, 100)`. */
  function Head100(s: string): (r: string)
    ensures |r| == if |s| <= 100 then |s| else 100
    ensures StartsWith(s, r)
  {
    if |s| <= 100 then s else s[..100]
  }

  const DataImagePrefix := "data:image/"
  const JpegSignature := "/9j/"
  const PngSignature := "iVBORw0KGgo"

  /** The format named in the data URL: JPEG only for the JPEG signature; PNG detection only logs. */
  function ImageFormat(cleaned: string): string {
    if StartsWith(cleaned, JpegSignature) then "jpeg" else "png"
  }

  function ProcessBase64Image(payload: string): (url: string)
    ensures StartsWith(url, DataImagePrefix)
    ensures SpaceFree(url)
  {
    var cleaned := StripSpace(payload);
    if StartsWith(cleaned, DataImagePrefix) then
      cleaned
    else if MatchesBase64Pattern(Head100(cleaned)) then
      DataUrl(ImageFormat(cleaned), cleaned)
    else if StartsWith(cleaned, "base64,") then
      "data:image/png;" + cleaned
    else
      DataUrl("png", cleaned)
  }

  /** `data:image/<format>;base64,<data>`. */
  function DataUrl(format: string, data: string): (url: string)
    requires format == "png" || format == "jpeg"
    requires SpaceFree(data)
    ensures StartsWith(url, DataImagePrefix)
    ensures SpaceFree(url)
    ensures url[|DataImagePrefix|..] == format + ";base64," + data
  {
    var url := DataImagePrefix + format + ";base64," + data;
    assert url[..|DataImagePrefix|] == DataImagePrefix;
    SpaceFreeConcat(DataImagePrefix + format + ";base64,", data);
    url
  }

  lemma SpaceFreeConcat(a: string, b: string)
    requires SpaceFree(a) && SpaceFree(b)
    ensures SpaceFree(a + b)
  {
    forall i | 0 <= i < |a + b| ensures !IsJsSpace((a + b)[i]) {
      if i >= |a| {
        assert (a + b)[i] == b[i - |a|];
      }
    }
  }

  /** Applying the normalisation to its own output changes nothing. */
  lemma ProcessIdempotent(payload: string)
    ensures ProcessBase64Image(ProcessBase64Image(payload)) == ProcessBase64Image(payload)
  {
    var url := ProcessBase64Image(payload);
    assert StripSpace(url) == url;
  }

  /** A payload that is already a data URL, apart from white space, is returned stripped. */
  lemma DataUrlPassesThrough(payload: string)
    requires StartsWith(StripSpace(payload), DataImagePrefix)
    ensures ProcessBase64Image(payload) == StripSpace(payload)
  {
  }

  /** A raw base64 payload is wrapped as `jpeg` exactly when it carries the JPEG signature. */
  lemma RawBase64Wrapped(payload: string)
    requires !StartsWith(StripSpace(payload), DataImagePrefix)
    requires MatchesBase64Pattern(Head100(StripSpace(payload)))
    ensures var cleaned := StripSpace(payload);
      ProcessBase64Image(payload) ==
        (if StartsWith(cleaned, JpegSignature) then "data:image/jpeg;base64," else "data:image/png;base64,") + cleaned
  {
    var cleaned := StripSpace(payload);
    LiteralPrefixes(cleaned);
  }

  lemma LiteralPrefixes(data: string)
    ensures DataImagePrefix + "jpeg" + ";base64," + data == "data:image/jpeg;base64," + data
    ensures DataImagePrefix + "png" + ";base64," + data == "data:image/png;base64," + data
  {
    assert DataImagePrefix + "jpeg" + ";base64," == "data:image/jpeg;base64,";
    assert DataImagePrefix + "png" + ";base64," == "data:image/png;base64,";
  }

  /** Any all-alphabet payload of at least one character matches the pattern. */
  lemma {:induction false} AlphabetOnlyMatches(t: string)
    requires |t| >= 1
    requires forall i :: 0 <= i < |t| ==> IsAlphabetChar(t[i])
    ensures AlphabetRun(t) == |t|
    ensures MatchesBase64Pattern(t)
  {
    if |t| > 1 {
      AlphabetOnlyMatches(t[1..]);
    }
  }

  /** A raw PNG payload (signature iVBORw0KGgo, no white space, no padding in its first 100
      characters) becomes a PNG data URL. */
  lemma PngPayloadBecomesPngDataUrl(payload: string)
    requires SpaceFree(payload) && StartsWith(payload, PngSignature)
    requires forall i :: 0 <= i < |Head100(payload)| ==> IsAlphabetChar(payload[i])
    ensures ProcessBase64Image(payload) == "data:image/png;base64," + payload
  {
    var head := Head100(payload);
    assert forall i :: 0 <= i < |head| ==> head[i] == payload[i];
    AlphabetOnlyMatches(head);
    assert payload[..|PngSignature|] == PngSignature;
    assert !StartsWith(payload, DataImagePrefix) by {
      assert payload[0] != DataImagePrefix[0];
    }
    assert !StartsWith(payload, JpegSignature) by {
      assert payload[0] != JpegSignature[0];
    }
    LiteralPrefixes(payload);
  }

  /** A payload missing only `data:image/png;` gets it prepended. */
  lemma Base64CommaPrefixed(payload: string)
    requires StartsWith(StripSpace(payload), "base64,")
    ensures ProcessBase64Image(payload) == "data:image/png;" + StripSpace(payload)
  {
    var cleaned := StripSpace(payload);
    assert cleaned[..7] == "base64,";
    assert !StartsWith(cleaned, DataImagePrefix) by {
      assert cleaned[0] != DataImagePrefix[0];
    }
    var head := Head100(cleaned);
    assert head[6] == ',' && !IsAlphabetChar(head[6]);
    assert AlphabetRun(head) <= 6;
  }

  /** Anything unrecognised falls back to a PNG data URL around the stripped text. */
  lemma UnrecognisedFallsBackToPng(payload: string)
    requires var cleaned := StripSpace(payload);
      !StartsWith(cleaned, DataImagePrefix) && !MatchesBase64Pattern(Head100(cleaned)) &&
      !StartsWith(cleaned, "base64,")
    ensures ProcessBase64Image(payload) == "data:image/png;base64," + StripSpace(payload)
  {
    LiteralPrefixes(StripSpace(payload));
  }
}
