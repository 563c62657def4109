/**
 * `atob`, the browser's base64 decoder that data URLs are decoded with: the alphabet of section 4
 * of RFC 4648, read with the forgiving-base64 decode of the WHATWG Infra Standard (ASCII white
 * space ignored, one or two trailing '=' dropped when the length is a multiple of 4, a final group
 * of 2 or 3 characters allowed, its spare bits discarded). Bytes come back as a string with one
 * character per byte. Encode is the padded encoding of RFC 4648, the partner of the decoder.
 */
module Base64 {
  import opened Wrappers

  newtype byte = x: int | 0 <= x < 256

  /** The 64 characters of the alphabet (the pad character '=' is not one of them). */
  predicate IsAlphabetChar(c: char) {
    ('A' <= c <= 'Z') || ('a' <= c <= 'z') || ('0' <= c <= '9') || c == '+' || c == '/'
  }

  predicate AllAlphabet(s: string) {
    forall i :: 0 <= i < |s| ==> IsAlphabetChar(s[i])
  }

  function IndexOf(c: char): (v: nat)
    requires IsAlphabetChar(c)
    ensures v < 64
  {
    if 'A' <= c <= 'Z' then c as int - 'A' as int
    else if 'a' <= c <= 'z' then c as int - 'a' as int + 26
    else if '0' <= c <= '9' then c as int - '0' as int + 52
    else if c == '+' then 62
    else 63
  }

  function CharOf(v: nat): (c: char)
    requires v < 64
    ensures IsAlphabetChar(c) && IndexOf(c) == v
  {
    if v < 26 then (v + 'A' as int) as char
    else if v < 52 then (v - 26 + 'a' as int) as char
    else if v < 62 then (v - 52 + '0' as int) as char
    else if v == 62 then '+'
    else '/'
  }

  /** TAB, LF, FF, CR and SPACE. */
  predicate IsAsciiWhitespace(c: char) {
    c == '\t' || c == '\n' || c as int == 0x0C || c == '\r' || c == ' '
  }

  function StripAsciiWhitespace(s: string): (r: string)
    ensures forall i :: 0 <= i < |r| ==> !IsAsciiWhitespace(r[i])
    ensures (forall i :: 0 <= i < |s| ==> !IsAsciiWhitespace(s[i])) ==> r == s
  {
    if s == [] then []
    else if IsAsciiWhitespace(s[0]) then StripAsciiWhitespace(s[1..])
    else [s[0]] + StripAsciiWhitespace(s[1..])
  }

  /** When the length is a multiple of 4, one or two trailing '=' are dropped. */
  function RemovePadding(s: string): string {
    if |s| % 4 == 0 && |s| >= 2 && s[|s| - 2..] == "==" then s[..|s| - 2]
    else if |s| % 4 == 0 && |s| >= 1 && s[|s| - 1] == '=' then s[..|s| - 1]
    else s
  }

  function DecodedLength(n: nat): nat {
    3 * (n / 4) + (if n % 4 == 0 then 0 else n % 4 - 1)
  }

  /** Four characters give 24 bits and three bytes; a last group of 3 or 2 characters gives 2 or 1
      bytes, the remaining low bits being discarded. */
  function DecodeGroups(s: string): (r: seq<byte>)
    requires |s| % 4 != 1 && AllAlphabet(s)
    ensures |r| == DecodedLength(|s|)
  {
    if |s| >= 4 then DecodeQuad(s[0], s[1], s[2], s[3]) + DecodeGroups(s[4..])
    else if |s| == 3 then
      var i0, i1, i2 := IndexOf(s[0]), IndexOf(s[1]), IndexOf(s[2]);
      [(i0 * 4 + i1 / 16) as byte, ((i1 % 16) * 16 + i2 / 4) as byte]
    else if |s| == 2 then
      [(IndexOf(s[0]) * 4 + IndexOf(s[1]) / 16) as byte]
    else []
  }

  function DecodeQuad(c0: char, c1: char, c2: char, c3: char): (r: seq<byte>)
    requires IsAlphabetChar(c0) && IsAlphabetChar(c1) && IsAlphabetChar(c2) && IsAlphabetChar(c3)
    ensures |r| == 3
  {
    var i0, i1, i2, i3 := IndexOf(c0), IndexOf(c1), IndexOf(c2), IndexOf(c3);
    [(i0 * 4 + i1 / 16) as byte, ((i1 % 16) * 16 + i2 / 4) as byte, ((i2 % 4) * 64 + i3) as byte]
  }

  /** One character per byte, as `atob` returns them. */
  function Latin1(bytes: seq<byte>): (s: string)
    ensures |s| == |bytes|
    ensures forall i :: 0 <= i < |s| ==> s[i] as int == bytes[i] as int
  {
    seq(|bytes|, i requires 0 <= i < |bytes| => bytes[i] as int as char)
  }

  /** atob: None where the browser throws InvalidCharacterError. */
  function Atob(data: string): (r: Option<string>)
    ensures r.Some? ==> forall i :: 0 <= i < |r.value| ==> r.value[i] as int < 256
  {
    var s := RemovePadding(StripAsciiWhitespace(data));
    if |s| % 4 == 1 then None
    else if !AllAlphabet(s) then None
    else Some(Latin1(DecodeGroups(s)))
  }

  /** The decoder refuses the text "undefined", which is what `atob(undefined)` decodes. */
  lemma AtobRefusesUndefined()
    ensures Atob("undefined") == None
  {
    var s := "undefined";
    assert forall i :: 0 <= i < |s| ==> !IsAsciiWhitespace(s[i]) by {
      forall i | 0 <= i < |s| ensures !IsAsciiWhitespace(s[i]) {
        assert IsAlphabetChar(s[i]);
      }
    }
    assert RemovePadding(s) == s;
  }

  /** Three bytes as four characters. */
  function EncodeTriple(b0: byte, b1: byte, b2: byte): (s: string)
    ensures |s| == 4 && AllAlphabet(s)
  {
    [CharOf(b0 as int / 4), CharOf((b0 as int % 4) * 16 + b1 as int / 16),
     CharOf((b1 as int % 16) * 4 + b2 as int / 64), CharOf(b2 as int % 64)]
  }

  /** The encoding without its pad characters. */
  function Unpadded(b: seq<byte>): (s: string)
    ensures AllAlphabet(s)
    ensures |s| % 4 != 1
  {
    if |b| >= 3 then
      var rest := Unpadded(b[3..]);
      Mod4Shift(|rest|);
      EncodeTriple(b[0], b[1], b[2]) + rest
    else if |b| == 2 then
      [CharOf(b[0] as int / 4), CharOf((b[0] as int % 4) * 16 + b[1] as int / 16), CharOf((b[1] as int % 16) * 4)]
    else if |b| == 1 then
      [CharOf(b[0] as int / 4), CharOf((b[0] as int % 4) * 16)]
    else []
  }

  function Padding(n: nat): string {
    if n % 3 == 1 then "==" else if n % 3 == 2 then "=" else ""
  }

  /** Padded base64 of section 4 of RFC 4648. */
  function Encode(b: seq<byte>): string {
    Unpadded(b) + Padding(|b|)
  }

  lemma DecodeTriple(b0: byte, b1: byte, b2: byte, rest: string)
    requires |rest| % 4 != 1 && AllAlphabet(rest)
    ensures |EncodeTriple(b0, b1, b2) + rest| % 4 != 1 && AllAlphabet(EncodeTriple(b0, b1, b2) + rest)
    ensures DecodeGroups(EncodeTriple(b0, b1, b2) + rest) == [b0, b1, b2] + DecodeGroups(rest)
  {
    var q := EncodeTriple(b0, b1, b2);
    var s := q + rest;
    assert s[4..] == rest;
    AlphabetConcat(q, rest);
    Mod4Shift(|rest|);
    assert s[0] == q[0] && s[1] == q[1] && s[2] == q[2] && s[3] == q[3];
    QuadOfTriple(b0, b1, b2);
  }

  lemma QuadOfTriple(b0: byte, b1: byte, b2: byte)
    ensures var q := EncodeTriple(b0, b1, b2); DecodeQuad(q[0], q[1], q[2], q[3]) == [b0, b1, b2]
  {
    var q := EncodeTriple(b0, b1, b2);
    var x0, x1, x2 := b0 as int, b1 as int, b2 as int;
    var i0, i1, i2, i3 := IndexOf(q[0]), IndexOf(q[1]), IndexOf(q[2]), IndexOf(q[3]);
    assert i0 == x0 / 4 && i1 == (x0 % 4) * 16 + x1 / 16;
    assert i2 == (x1 % 16) * 4 + x2 / 64 && i3 == x2 % 64;
    TripleArithmetic(x0, x1, x2, i0, i1, i2, i3);
  }

  /** The bit regrouping of one group of four characters undoes that of three bytes. */
  lemma TripleArithmetic(x0: int, x1: int, x2: int, i0: int, i1: int, i2: int, i3: int)
    requires 0 <= x0 < 256 && 0 <= x1 < 256 && 0 <= x2 < 256
    requires i0 == x0 / 4 && i1 == (x0 % 4) * 16 + x1 / 16
    requires i2 == (x1 % 16) * 4 + x2 / 64 && i3 == x2 % 64
    ensures i0 * 4 + i1 / 16 == x0
    ensures (i1 % 16) * 16 + i2 / 4 == x1
    ensures (i2 % 4) * 64 + i3 == x2
  {
  }

  /** Decoding the unpadded encoding gives the bytes back. */
  lemma {:induction false} DecodeUnpadded(b: seq<byte>)
    ensures DecodeGroups(Unpadded(b)) == b
  {
    if |b| >= 3 {
      DecodeUnpadded(b[3..]);
      DecodeUnpaddedStep(b);
    } else if |b| == 2 {
      assert b == [b[0], b[1]];
      DecodePair(b[0], b[1]);
    } else if |b| == 1 {
      assert b == [b[0]];
      DecodeSingle(b[0]);
    }
  }

  /** Three bytes more in front decode to those three bytes more in front. */
  lemma DecodeUnpaddedStep(b: seq<byte>)
    requires |b| >= 3 && DecodeGroups(Unpadded(b[3..])) == b[3..]
    ensures DecodeGroups(Unpadded(b)) == b
  {
    assert Unpadded(b) == EncodeTriple(b[0], b[1], b[2]) + Unpadded(b[3..]);
    DecodeTriple(b[0], b[1], b[2], Unpadded(b[3..]));
    FrontThree(b);
  }

  lemma FrontThree(b: seq<byte>)
    requires |b| >= 3
    ensures b == [b[0], b[1], b[2]] + b[3..]
  {
  }

  /** Two strings of alphabet characters make one. */
  lemma AlphabetConcat(s: string, t: string)
    requires AllAlphabet(s) && AllAlphabet(t)
    ensures AllAlphabet(s + t)
  {
    var st := s + t;
    forall i | 0 <= i < |st| ensures IsAlphabetChar(st[i]) {
      if i >= |s| { assert st[i] == t[i - |s|]; }
    }
  }

  /** A last group of three characters gives back the two bytes it encodes. */
  lemma DecodePair(b0: byte, b1: byte)
    ensures DecodeGroups(Unpadded([b0, b1])) == [b0, b1]
  {
    var s := Unpadded([b0, b1]);
    var i0, i1, i2 := IndexOf(s[0]), IndexOf(s[1]), IndexOf(s[2]);
    assert i0 == b0 as int / 4 && i1 == (b0 as int % 4) * 16 + b1 as int / 16;
    assert i2 == (b1 as int % 16) * 4;
    PairArithmetic(b0 as int, b1 as int, i0, i1, i2);
  }

  /** The bit regrouping of a last group of three characters undoes that of two bytes. */
  lemma PairArithmetic(x0: int, x1: int, i0: int, i1: int, i2: int)
    requires 0 <= x0 < 256 && 0 <= x1 < 256
    requires i0 == x0 / 4 && i1 == (x0 % 4) * 16 + x1 / 16 && i2 == (x1 % 16) * 4
    ensures i0 * 4 + i1 / 16 == x0
    ensures (i1 % 16) * 16 + i2 / 4 == x1
  {
  }

  /** A last group of two characters gives back the byte it encodes. */
  lemma DecodeSingle(b0: byte)
    ensures DecodeGroups(Unpadded([b0])) == [b0]
  {
    var s := Unpadded([b0]);
    assert IndexOf(s[0]) == b0 as int / 4;
    assert IndexOf(s[1]) == (b0 as int % 4) * 16;
  }

  lemma RemovePaddingOfEncode(b: seq<byte>)
    ensures RemovePadding(Encode(b)) == Unpadded(b)
  {
    var u := Unpadded(b);
    UnpaddedLength(b);
    UnpaddedLengthClass(|b|, |u|);
    if |b| % 3 == 1 {
      DropTwoPads(u);
    } else if |b| % 3 == 2 {
      DropOnePad(u);
    } else {
      NoPadToDrop(u);
    }
  }

  /** Four characters per whole group of three bytes, and one more than the bytes of a last
      partial group. */
  lemma {:induction false} UnpaddedLength(b: seq<byte>)
    ensures |Unpadded(b)| == 4 * (|b| / 3) + (if |b| % 3 == 0 then 0 else |b| % 3 + 1)
  {
    if |b| >= 3 {
      UnpaddedLength(b[3..]);
      Div3Shift(|b|);
    }
  }

  lemma Div3Shift(n: nat)
    requires n >= 3
    ensures (n - 3) / 3 == n / 3 - 1 && (n - 3) % 3 == n % 3
  {
  }

  /** The unpadded length modulo 4 is fixed by the byte count modulo 3. */
  lemma UnpaddedLengthClass(n: nat, m: nat)
    requires m == 4 * (n / 3) + (if n % 3 == 0 then 0 else n % 3 + 1)
    ensures n % 3 == 0 ==> m % 4 == 0
    ensures n % 3 == 1 ==> m % 4 == 2
    ensures n % 3 == 2 ==> m % 4 == 3
  {
    Mod4(n / 3, if n % 3 == 0 then 0 else n % 3 + 1);
  }

  lemma Mod4(q: int, r: int)
    requires 0 <= r < 4
    ensures (4 * q + r) % 4 == r
  {
  }

  lemma Mod4Shift(n: nat)
    ensures (n + 4) % 4 == n % 4
  {
  }

  lemma NoPadToDrop(u: string)
    requires AllAlphabet(u)
    ensures RemovePadding(u + "") == u
  {
    assert u + "" == u;
    if |u| >= 1 {
      assert IsAlphabetChar(u[|u| - 1]);
    }
  }

  lemma DropTwoPads(u: string)
    requires |u| % 4 == 2
    ensures RemovePadding(u + "==") == u
  {
    var e := u + "==";
    assert e[|e| - 2..] == "==";
    assert e[..|e| - 2] == u;
  }

  lemma DropOnePad(u: string)
    requires |u| % 4 == 3 && AllAlphabet(u)
    ensures RemovePadding(u + "=") == u
  {
    var e := u + "=";
    assert e[|e| - 2] == u[|u| - 1] && IsAlphabetChar(u[|u| - 1]);
    assert e[..|e| - 1] == u;
  }

  /** atob decodes what the padded encoder produces: the round trip of the two. */
  lemma AtobEncode(b: seq<byte>)
    ensures Atob(Encode(b)) == Some(Latin1(b))
  {
    var e := Encode(b);
    assert forall i :: 0 <= i < |e| ==> !IsAsciiWhitespace(e[i]) by {
      forall i | 0 <= i < |e| ensures !IsAsciiWhitespace(e[i]) {
        if i < |Unpadded(b)| {
          assert IsAlphabetChar(e[i]);
        } else {
          assert e[i] == '=';
        }
      }
    }
    RemovePaddingOfEncode(b);
    DecodeUnpadded(b);
  }
}
