/**
 * The client of the AI interior service: `dataURLtoFile`, which splits a data URL (section 3 of
 * RFC 2397) at its commas, reads the media type out of the header with the regular expression
 * `/:(.*?);/`, decodes the payload with `atob` and copies the decoded characters into a byte
 * array; and `generateAiInterior`, which posts the image and the regions as form data and maps
 * every failure to an unsuccessful response instead of throwing.
 */
module AiEngineApi {
  import opened Wrappers
  import opened Base64
  import opened Regions

  // ---------------------------------------------------------------------------------------------
  // String.prototype.split with a one-character separator, and its inverse

  /** `s.split(sep)`: the pieces between separators, at least one (the empty string gives [""]). */
  function Split(s: string, sep: char): (parts: seq<string>)
    ensures |parts| >= 1
    ensures forall p :: p in parts ==> sep !in p
    ensures |parts| == 1 <==> sep !in s
  {
    if s == [] then [""]
    else
      var rest := Split(s[1..], sep);
      if s[0] == sep then [""] + rest
      else [[s[0]] + rest[0]] + rest[1..]
  }

  /** `parts.join(sep)`. */
  function Join(parts: seq<string>, sep: char): string
    requires |parts| >= 1
  {
    if |parts| == 1 then parts[0] else parts[0] + [sep] + Join(parts[1..], sep)
  }

  /** Joining the pieces gives the original string back. */
  lemma {:induction false} JoinSplit(s: string, sep: char)
    ensures Join(Split(s, sep), sep) == s
  {
    if s != [] {
      var rest := Split(s[1..], sep);
      JoinSplit(s[1..], sep);
      if s[0] == sep {
        assert Split(s, sep) == [""] + rest;
        JoinEmptyHead(rest, sep);
      } else {
        assert Split(s, sep) == [[s[0]] + rest[0]] + rest[1..];
        JoinExtendedHead(s[0], rest, sep);
      }
      HeadAndTail(s);
    }
  }

  lemma HeadAndTail(s: string)
    requires s != []
    ensures s == [s[0]] + s[1..]
  {
  }

  /** A leading empty piece contributes only its separator. */
  lemma JoinEmptyHead(rest: seq<string>, sep: char)
    requires |rest| >= 1
    ensures Join([""] + rest, sep) == [sep] + Join(rest, sep)
  {
    assert ([""] + rest)[1..] == rest;
  }

  /** A character prepended to the first piece is prepended to the join. */
  lemma JoinExtendedHead(c: char, rest: seq<string>, sep: char)
    requires |rest| >= 1
    ensures Join([[c] + rest[0]] + rest[1..], sep) == [c] + Join(rest, sep)
  {
    var parts := [[c] + rest[0]] + rest[1..];
    if |rest| > 1 {
      assert parts[1..] == rest[1..];
    }
  }

  /** A string without separators is a single piece. */
  lemma {:induction false} SplitNoSeparator(s: string, sep: char)
    requires sep !in s
    ensures Split(s, sep) == [s]
  {
    if s != [] {
      SplitNoSeparator(s[1..], sep);
      assert [s[0]] + s[1..] == s;
    }
  }

  /** A piece without separators, followed by one, splits off as the first piece. */
  lemma {:induction false} SplitPrefix(p: string, sep: char, t: string)
    requires sep !in p
    ensures Split(p + [sep] + t, sep) == [p] + Split(t, sep)
  {
    var s := p + [sep] + t;
    if p == [] {
      assert s[0] == sep && s[1..] == t;
    } else {
      assert s[0] == p[0] && s[0] != sep;
      assert s[1..] == p[1..] + [sep] + t;
      SplitPrefix(p[1..], sep, t);
      var rest := Split(s[1..], sep);
      assert rest[0] == p[1..] && rest[1..] == Split(t, sep);
      assert [s[0]] + rest[0] == p;
    }
  }

  /** Splitting the join of separator-free pieces gives the pieces back. */
  lemma {:induction false} SplitJoin(parts: seq<string>, sep: char)
    requires |parts| >= 1
    requires forall p :: p in parts ==> sep !in p
    ensures Split(Join(parts, sep), sep) == parts
  {
    if |parts| == 1 {
      SplitNoSeparator(parts[0], sep);
    } else {
      SplitJoin(parts[1..], sep);
      SplitPrefix(parts[0], sep, Join(parts[1..], sep));
    }
  }

  // ---------------------------------------------------------------------------------------------
  // The media type: `header.match(/:(.*?);/)?.[1] || "image/png"`

  const DefaultMime: string := "image/png"

  /** The characters `.` does not match in a JavaScript regular expression. */
  predicate IsLineTerminator(c: char) {
    c == '\n' || c == '\r' || c as int == 0x2028 || c as int == 0x2029
  }

  /** The lazy `.*?;` started at index k: it stops at the first ';', and fails at a line
      terminator or at the end of the text. */
  function LazyEnd(s: string, k: nat): (j: Option<nat>)
    requires k <= |s|
    ensures j.Some? ==> k <= j.value < |s| && s[j.value] == ';'
    ensures j.Some? ==> forall i :: k <= i < j.value ==> s[i] != ';' && !IsLineTerminator(s[i])
    decreases |s| - k
  {
    if k == |s| then None
    else if s[k] == ';' then Some(k)
    else if IsLineTerminator(s[k]) then None
    else LazyEnd(s, k + 1)
  }

  /** The leftmost match at or after index i: its capture group. */
  function MatchFrom(s: string, i: nat): (capture: Option<string>)
    requires i <= |s|
    decreases |s| - i
  {
    if i == |s| then None
    else if s[i] == ':' && LazyEnd(s, i + 1).Some? then Some(s[i + 1..LazyEnd(s, i + 1).value])
    else MatchFrom(s, i + 1)
  }

  /** The media type named in the header, "image/png" when there is no match or it is empty. */
  function MimeOf(header: string): (mime: string)
    ensures mime != ""
  {
    match MatchFrom(header, 0)
    case Some(c) => if c != "" then c else DefaultMime
    case None => DefaultMime
  }

  lemma {:induction false} NoColonNoMatch(s: string, i: nat)
    requires i <= |s|
    requires forall k :: i <= k < |s| ==> s[k] != ':'
    ensures MatchFrom(s, i) == None
    decreases |s| - i
  {
    if i < |s| {
      NoColonNoMatch(s, i + 1);
    }
  }

  lemma {:induction false} LazyEndAt(s: string, k: nat, j: nat)
    requires k <= j < |s| && s[j] == ';'
    requires forall i :: k <= i < j ==> s[i] != ';' && !IsLineTerminator(s[i])
    ensures LazyEnd(s, k) == Some(j)
    decreases j - k
  {
    if k < j {
      LazyEndAt(s, k + 1, j);
    }
  }

  lemma {:induction false} SkipToColon(s: string, k: nat, i: nat)
    requires k <= i <= |s|
    requires forall m :: k <= m < i ==> s[m] != ':'
    ensures MatchFrom(s, k) == MatchFrom(s, i)
    decreases i - k
  {
    if k < i {
      SkipToColon(s, k + 1, i);
    }
  }

  /** The media type is the text between the first ':' and the next ';' when no line break comes
      between them, and the default when that text is empty. */
  lemma MimeBetween(s: string, i: nat, j: nat)
    requires i < j < |s| && s[i] == ':' && s[j] == ';'
    requires forall m :: 0 <= m < i ==> s[m] != ':'
    requires forall m :: i < m < j ==> s[m] != ';' && !IsLineTerminator(s[m])
    ensures MimeOf(s) == if j == i + 1 then DefaultMime else s[i + 1..j]
  {
    SkipToColon(s, 0, i);
    LazyEndAt(s, i + 1, j);
  }

  /** Without a ':' in the header the default media type is used. */
  lemma NoColonDefault(header: string)
    requires ':' !in header
    ensures MimeOf(header) == DefaultMime
  {
    NoColonNoMatch(header, 0);
  }

  // ---------------------------------------------------------------------------------------------
  // dataURLtoFile

  /** The File handed to FormData: its bytes, its name and its `type`. */
  datatype File = File(bytes: seq<byte>, name: string, mimeType: string)

  predicate IsPrintableAscii(c: char) {
    ' ' <= c <= '~'
  }

  predicate IsAsciiUpper(c: char) {
    'A' <= c <= 'Z'
  }

  function AsciiLower(c: char): (d: char)
    ensures !IsAsciiUpper(d)
    ensures IsPrintableAscii(c) <==> IsPrintableAscii(d)
    ensures !IsAsciiUpper(c) ==> d == c
    ensures IsAsciiUpper(c) ==> d as int == c as int + 32
  {
    if IsAsciiUpper(c) then (c as int + 32) as char else c
  }

  /** The `type` the File constructor of the W3C File API keeps from its options: the empty
      string when a character lies outside U+0020 to U+007E, otherwise the text in ASCII lower
      case. */
  function FileType(t: string): (r: string)
    ensures forall i :: 0 <= i < |r| ==> IsPrintableAscii(r[i]) && !IsAsciiUpper(r[i])
    ensures (exists i :: 0 <= i < |t| && !IsPrintableAscii(t[i])) ==> r == ""
    ensures (forall i :: 0 <= i < |t| ==> IsPrintableAscii(t[i])) ==>
      |r| == |t| && forall i :: 0 <= i < |t| ==> r[i] == AsciiLower(t[i])
  {
    if forall i :: 0 <= i < |t| ==> IsPrintableAscii(t[i]) then
      seq(|t|, i requires 0 <= i < |t| => AsciiLower(t[i]))
    else ""
  }

  /** A type already in printable lower-case ASCII is kept as it is. */
  lemma FileTypeKeepsLowerAscii(t: string)
    requires forall i :: 0 <= i < |t| ==> IsPrintableAscii(t[i]) && !IsAsciiUpper(t[i])
    ensures FileType(t) == t
  {
    var r := FileType(t);
    assert forall i :: 0 <= i < |t| ==> r[i] == t[i];
  }

  /** An upper-case media type reaches the File in lower case. */
  lemma FileTypeLowersCase()
    ensures FileType("Image/PNG") == "image/png"
  {
    var r := FileType("Image/PNG");
    assert r[0] == 'i' && r[6] == 'p' && r[7] == 'n' && r[8] == 'g';
  }

  /** Normalising twice is normalising once. */
  lemma FileTypeIdempotent(t: string)
    ensures FileType(FileType(t)) == FileType(t)
  {
    FileTypeKeepsLowerAscii(FileType(t));
  }

  /** `arr[1]`, or the text "undefined" that `atob(undefined)` decodes when there is no comma. */
  function Payload(parts: seq<string>): (p: string)
    requires |parts| >= 1
    ensures |parts| >= 2 ==> p == parts[1]
  {
    if |parts| >= 2 then parts[1] else "undefined"
  }

  /** A data URL without a comma cannot be decoded: its payload is "undefined". */
  lemma NoCommaRefused(dataUrl: string)
    requires ',' !in dataUrl
    ensures Atob(Payload(Split(dataUrl, ','))) == None
  {
    AtobRefusesUndefined();
  }

  /** `charCodeAt` of each character of a string whose characters are all below 256. */
  function CharCodes(s: string): (b: seq<byte>)
    requires forall i :: 0 <= i < |s| ==> s[i] as int < 256
    ensures |b| == |s|
    ensures forall i :: 0 <= i < |s| ==> b[i] as int == s[i] as int
  {
    seq(|s|, i requires 0 <= i < |s| => s[i] as int as byte)
  }

  /** What dataURLtoFile produces: None where `atob` throws. */
  function DecodedFile(dataUrl: string, filename: string): Option<File> {
    var parts := Split(dataUrl, ',');
    match Atob(Payload(parts))
    case None => None
    case Some(bstr) => Some(File(CharCodes(bstr), filename, FileType(MimeOf(parts[0]))))
  }

  /** dataURLtoFile: the `while (n--)` loop fills the array from the last index down to the
      first, one index per iteration. */
  method DataUrlToFile(dataUrl: string, filename: string) returns (file: Option<File>)
    ensures file == DecodedFile(dataUrl, filename)
    ensures file.None? <==> Atob(Payload(Split(dataUrl, ','))).None?
  {
    var arr := Split(dataUrl, ',');
    var mime := MimeOf(arr[0]);
    var decoded := Atob(Payload(arr));
    if decoded.None? {
      return None;
    }
    var bstr := decoded.value;
    var n := |bstr|;
    var u8arr := new byte[n];
    while n > 0
      invariant 0 <= n <= |bstr| == u8arr.Length
      invariant forall i :: n <= i < |bstr| ==> u8arr[i] as int == bstr[i] as int
      decreases n
    {
      n := n - 1;
      u8arr[n] := bstr[n] as int as byte;
    }
    assert u8arr[..] == CharCodes(bstr);
    return Some(File(u8arr[..], filename, FileType(mime)));
  }

  lemma EncodeCommaFree(b: seq<byte>)
    ensures ',' !in Encode(b)
  {
    var e := Encode(b);
    var u := Unpadded(b);
    forall i | 0 <= i < |e| ensures e[i] != ',' {
      if i < |u| {
        assert IsAlphabetChar(u[i]);
      }
    }
  }

  /** The header `data:<mime>;base64` has no comma and names the media type. */
  lemma HeaderOfDataUrl(mime: string)
    requires mime != ""
    requires forall i :: 0 <= i < |mime| ==> mime[i] !in ":;," && !IsLineTerminator(mime[i])
    ensures ',' !in "data:" + mime + ";base64"
    ensures MimeOf("data:" + mime + ";base64") == mime
  {
    var header := "data:" + mime + ";base64";
    forall i | 0 <= i < |header| ensures header[i] != ',' {
      if 5 <= i < 5 + |mime| {
        assert header[i] == mime[i - 5];
      }
    }
    MimeBetween(header, 4, 5 + |mime|);
    assert header[5..5 + |mime|] == mime;
  }

  /** A base64 data URL carries the bytes it was made from and the media type it names, which
      the File keeps as is when it is printable lower-case ASCII. */
  lemma DataUrlRoundTrip(mime: string, b: seq<byte>, filename: string)
    requires mime != ""
    requires forall i :: 0 <= i < |mime| ==> mime[i] !in ":;," && !IsLineTerminator(mime[i])
    ensures DecodedFile("data:" + mime + ";base64," + Encode(b), filename) == Some(File(b, filename, FileType(mime)))
    ensures (forall i :: 0 <= i < |mime| ==> IsPrintableAscii(mime[i]) && !IsAsciiUpper(mime[i])) ==>
      DecodedFile("data:" + mime + ";base64," + Encode(b), filename) == Some(File(b, filename, mime))
  {
    if forall i :: 0 <= i < |mime| ==> IsPrintableAscii(mime[i]) && !IsAsciiUpper(mime[i]) {
      FileTypeKeepsLowerAscii(mime);
    }
    var header := "data:" + mime + ";base64";
    var e := Encode(b);
    assert "data:" + mime + ";base64," + e == header + [','] + e;
    HeaderOfDataUrl(mime);
    EncodeCommaFree(b);
    SplitPrefix(header, ',', e);
    SplitNoSeparator(e, ',');
    assert Split(header + [','] + e, ',') == [header, e];
    AtobEncode(b);
    assert CharCodes(Latin1(b)) == b;
  }

  // ---------------------------------------------------------------------------------------------
  // generateAiInterior

  datatype AiInteriorRequest = AiInteriorRequest(image: string, circles: seq<Circle>)

  datatype AiInteriorResponse = AiInteriorResponse(success: bool, resultImageUrl: Option<string>, message: Option<string>)

  /** One entry of the multipart body; the circles travel as their JSON text. */
  datatype FormEntry = FilePart(field: string, file: File) | CirclesJson(field: string, circles: seq<Circle>)

  /** A value caught by `catch (error)`: an Error (or subclass) with its message, or anything else. */
  datatype Thrown = ErrorObject(message: string) | NonError

  /** The body of a response as `response.json()` reads it. */
  datatype Body = Parsed(data: AiInteriorResponse) | Unparseable(error: Thrown)

  /** What the network does with the request. */
  datatype FetchOutcome = Rejected(error: Thrown) | Responded(status: nat, body: Body)

  const UploadFilename: string := "room-image.png"
  const UnknownErrorMessage: string := "알 수 없는 오류가 발생했습니다."

  predicate Ok(status: nat) {
    200 <= status <= 299
  }

  function DigitChar(d: nat): (c: char)
    requires d < 10
    ensures '0' <= c <= '9' && c as int - '0' as int == d
  {
    (d + '0' as int) as char
  }

  /** Decimal digits as a number. */
  function ParseDecimal(s: string): nat
    requires forall i :: 0 <= i < |s| ==> '0' <= s[i] <= '9'
  {
    if s == [] then 0 else ParseDecimal(s[..|s| - 1]) * 10 + (s[|s| - 1] as int - '0' as int)
  }

  /** A number as the template literal writes it: canonical decimal digits. */
  function Decimal(n: nat): (s: string)
    ensures |s| >= 1 && (forall i :: 0 <= i < |s| ==> '0' <= s[i] <= '9')
    ensures s[0] != '0' || n == 0
    ensures ParseDecimal(s) == n
  {
    if n < 10 then [DigitChar(n)]
    else
      var s := Decimal(n / 10) + [DigitChar(n % 10)];
      assert s[..|s| - 1] == Decimal(n / 10);
      s
  }

  /** `error instanceof Error ? error.message : "알 수 없는 오류가 발생했습니다."` */
  function ErrorMessage(error: Thrown): (m: string)
    ensures error.ErrorObject? ==> m == error.message
    ensures error.NonError? ==> m == UnknownErrorMessage
  {
    match error
    case ErrorObject(msg) => msg
    case NonError => UnknownErrorMessage
  }

  function HttpErrorMessage(status: nat): (m: string)
    ensures |m| > 20 && m[..20] == "HTTP error! status: " && m[20..] == Decimal(status)
  {
    "HTTP error! status: " + Decimal(status)
  }

  function Failed(error: Thrown): AiInteriorResponse {
    AiInteriorResponse(false, None, Some(ErrorMessage(error)))
  }

  /** generateAiInterior. `decodeError` is what `atob` throws on a malformed payload; the network
      outcome is an input. The result is always a response, never an exception; `sent` is the
      multipart body when the request got as far as being sent. */
  method GenerateAiInterior(request: AiInteriorRequest, decodeError: Thrown, network: FetchOutcome)
    returns (response: AiInteriorResponse, sent: Option<seq<FormEntry>>)
    ensures DecodedFile(request.image, UploadFilename).None? ==> sent == None && response == Failed(decodeError)
    ensures DecodedFile(request.image, UploadFilename).Some? ==>
      sent == Some([FilePart("image", DecodedFile(request.image, UploadFilename).value),
                    CirclesJson("circles", request.circles)])
    ensures sent.Some? && network.Rejected? ==> response == Failed(network.error)
    ensures sent.Some? && network.Responded? && !Ok(network.status) ==>
      response == Failed(ErrorObject(HttpErrorMessage(network.status)))
    ensures sent.Some? && network.Responded? && Ok(network.status) ==>
      response == match network.body
                  case Parsed(data) => data
                  case Unparseable(e) => Failed(e)
    ensures response.success ==>
      sent.Some? && network.Responded? && Ok(network.status) && network.body == Parsed(response)
  {
    var imageFile := DataUrlToFile(request.image, UploadFilename);
    if imageFile.None? {
      return Failed(decodeError), None;
    }
    var formData := [FilePart("image", imageFile.value), CirclesJson("circles", request.circles)];
    sent := Some(formData);
    match network {
      case Rejected(e) =>
        response := Failed(e);
      case Responded(status, body) =>
        if !Ok(status) {
          response := Failed(ErrorObject(HttpErrorMessage(status)));
        } else {
          match body {
            case Parsed(data) => response := data;
            case Unparseable(e) => response := Failed(e);
          }
        }
    }
  }

  /** A failure the client itself produces always carries a message, and it is never a success. */
  lemma HttpFailureMessage(status: nat)
    requires !Ok(status)
    ensures var r := Failed(ErrorObject(HttpErrorMessage(status)));
      !r.success && r.message.Some? && r.message.value != "" && r.resultImageUrl.None?
  {
  }
}
