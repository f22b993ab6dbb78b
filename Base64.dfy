/** The browser's `atob`: the forgiving Base64 decoding that the HTML standard
    builds on the alphabet of section 4 of RFC 4648, returning a "binary string"
    whose characters are byte values; and the loop every caller in the benchmark
    runs to copy that string into a `Uint8Array`. `Encode` (what `btoa` does) is the
    partner the decoder is proved against. */
module Base64 {
  import opened Js

  /** The character that stands for the 6-bit value `n`. */
  function SextetChar(n: nat): char
    requires n < 64
  {
    if n < 26 then ('A' as int + n) as char
    else if n < 52 then ('a' as int + (n - 26)) as char
    else if n < 62 then ('0' as int + (n - 52)) as char
    else if n == 62 then '+'
    else '/'
  }

  /** The 6-bit value of an alphabet character; `None` for any other character. */
  function SextetOf(c: char): (r: Option<nat>)
    ensures r.Some? ==> r.value < 64 && SextetChar(r.value) == c
    ensures c == '=' ==> r.None?
  {
    if 'A' <= c <= 'Z' then Some(c as int - 'A' as int)
    else if 'a' <= c <= 'z' then Some(c as int - 'a' as int + 26)
    else if '0' <= c <= '9' then Some(c as int - '0' as int + 52)
    else if c == '+' then Some(62)
    else if c == '/' then Some(63)
    else None
  }

  /** Every alphabet character decodes to the value it encodes. */
  lemma SextetOfChar(n: nat)
    requires n < 64
    ensures SextetOf(SextetChar(n)) == Some(n)
  {
  }

  /** The five characters the forgiving decoder skips. */
  predicate IsAsciiWhitespace(c: char)
  {
    c == '\t' || c == '\n' || c == '\U{000C}' || c == '\r' || c == ' '
  }

  /** Step 1 of the decoder: drop ASCII whitespace. What is left holds no
      whitespace and every other character of the input. */
  function StripWhitespace(s: string): (r: string)
    ensures |r| <= |s|
    ensures forall i :: 0 <= i < |r| ==> !IsAsciiWhitespace(r[i])
    ensures forall c :: c in r <==> c in s && !IsAsciiWhitespace(c)
  {
    if s == [] then []
    else (if IsAsciiWhitespace(s[0]) then [] else [s[0]]) + StripWhitespace(s[1..])
  }

  /** Step 2: when the length is a multiple of four, drop one or two trailing '='. */
  function StripPadding(s: string): string
  {
    if |s| % 4 == 0 && |s| >= 2 && s[|s| - 2..] == "==" then s[..|s| - 2]
    else if |s| % 4 == 0 && |s| >= 1 && s[|s| - 1] == '=' then s[..|s| - 1]
    else s
  }

  predicate AllSextets(xs: seq<nat>)
  {
    forall i :: 0 <= i < |xs| ==> xs[i] < 64
  }

  /** Step 4: the 6-bit values of the characters, or `None` when one of them is
      outside the alphabet. */
  function Sextets(s: string): (r: Option<seq<nat>>)
    ensures r.Some? ==> |r.value| == |s| && AllSextets(r.value)
  {
    if s == [] then Some([])
    else match SextetOf(s[0])
      case None => None
      case Some(v) =>
        match Sextets(s[1..])
        case None => None
        case Some(rest) => Some([v] + rest)
  }

  /** Step 5: every four values give three bytes; a tail of two or three values gives
      one or two bytes, the left-over low bits being discarded. */
  function DecodeSextets(xs: seq<nat>): seq<byte>
    requires AllSextets(xs)
  {
    if |xs| >= 4 then
      [(xs[0] * 4 + xs[1] / 16) as byte,
       ((xs[1] % 16) * 16 + xs[2] / 4) as byte,
       ((xs[2] % 4) * 64 + xs[3]) as byte] + DecodeSextets(xs[4..])
    else if |xs| == 3 then
      [(xs[0] * 4 + xs[1] / 16) as byte, ((xs[1] % 16) * 16 + xs[2] / 4) as byte]
    else if |xs| == 2 then
      [(xs[0] * 4 + xs[1] / 16) as byte]
    else []
  }

  /** A JavaScript string whose characters are the given byte values (what `atob`
      returns). */
  function Latin1(bs: seq<byte>): (s: string)
    ensures |s| == |bs|
  {
    seq(|bs|, i requires 0 <= i < |bs| => bs[i] as int as char)
  }

  /** The message of the `InvalidCharacterError` that `atob` throws. */
  const InvalidEncoding: string := "The string to be decoded is not correctly encoded."

  /** `atob(data)`. */
  function Atob(data: string): (r: Result<string>)
    ensures r.Ok? ==> forall i :: 0 <= i < |r.value| ==> r.value[i] as int < 256
  {
    var s := StripPadding(StripWhitespace(data));
    if |s| % 4 == 1 then Err(InvalidEncoding)
    else match Sextets(s)
      case None => Err(InvalidEncoding)
      case Some(xs) => Ok(Latin1(DecodeSextets(xs)))
  }

  /** `uint8Array[i] = s.charCodeAt(i)` for every index: the store into a
      `Uint8Array` keeps the code modulo 256. */
  function CharCodeBytes(s: string): (bs: seq<byte>)
    ensures |bs| == |s|
  {
    seq(|s|, i requires 0 <= i < |s| => (s[i] as int % 256) as byte)
  }

  /** The byte-copy loop that follows every `atob` call in the benchmark
      (`new Uint8Array(byteString.length)` and a `for` loop over `charCodeAt`). */
  method CopyCharCodes(byteString: string) returns (bytes: array<byte>)
    ensures fresh(bytes)
    ensures bytes[..] == CharCodeBytes(byteString)
  {
    bytes := new byte[|byteString|];
    for i := 0 to |byteString|
      invariant forall k :: 0 <= k < i ==> bytes[k] == (byteString[k] as int % 256) as byte
    {
      bytes[i] := (byteString[i] as int % 256) as byte;
    }
  }

  /** Copying the char codes of a decoded string gives back its bytes. */
  lemma CharCodesOfLatin1(bs: seq<byte>)
    ensures CharCodeBytes(Latin1(bs)) == bs
  {
  }

  /** What every decode site of the benchmark ends with: `atob` followed by the
      char-code copy into a `Uint8Array`. */
  function DecodeBytes(data: string): (r: Result<seq<byte>>)
  {
    match Atob(data)
    case Err(m) => Err(m)
    case Ok(bin) => Ok(CharCodeBytes(bin))
  }

  // ---------------------------------------------------------------------------
  // The encoder, and the round trip

  /** The 6-bit values of the standard encoding, without padding. */
  function EncodeSextets(bs: seq<byte>): (xs: seq<nat>)
    ensures AllSextets(xs)
    ensures |xs| == 4 * (|bs| / 3) + (if |bs| % 3 == 0 then 0 else |bs| % 3 + 1)
  {
    if |bs| >= 3 then
      var b0, b1, b2 := bs[0] as nat, bs[1] as nat, bs[2] as nat;
      [b0 / 4, (b0 % 4) * 16 + b1 / 16, (b1 % 16) * 4 + b2 / 64, b2 % 64] + EncodeSextets(bs[3..])
    else if |bs| == 2 then
      var b0, b1 := bs[0] as nat, bs[1] as nat;
      [b0 / 4, (b0 % 4) * 16 + b1 / 16, (b1 % 16) * 4]
    else if |bs| == 1 then
      var b0 := bs[0] as nat;
      [b0 / 4, (b0 % 4) * 16]
    else []
  }

  function SextetChars(xs: seq<nat>): (s: string)
    requires AllSextets(xs)
    ensures |s| == |xs|
  {
    seq(|xs|, i requires 0 <= i < |xs| => SextetChar(xs[i]))
  }

  function Padding(n: nat): string
  {
    if n % 3 == 1 then "==" else if n % 3 == 2 then "=" else ""
  }

  /** The padded Base64 text of `bs` (what `btoa` returns for a binary string). */
  function Encode(bs: seq<byte>): string
  {
    SextetChars(EncodeSextets(bs)) + Padding(|bs|)
  }

  lemma {:induction false} StripWhitespaceNoop(s: string)
    requires forall i :: 0 <= i < |s| ==> !IsAsciiWhitespace(s[i])
    ensures StripWhitespace(s) == s
  {
    if s != [] {
      StripWhitespaceNoop(s[1..]);
    }
  }

  lemma {:induction false} SextetsOfChars(xs: seq<nat>)
    requires AllSextets(xs)
    ensures Sextets(SextetChars(xs)) == Some(xs)
  {
    if xs != [] {
      var s := SextetChars(xs);
      SextetOfChar(xs[0]);
      assert s[1..] == SextetChars(xs[1..]);
      SextetsOfChars(xs[1..]);
      assert [xs[0]] + xs[1..] == xs;
    }
  }

  lemma DecodeTriple(b0: nat, b1: nat, b2: nat)
    requires b0 < 256 && b1 < 256 && b2 < 256
    ensures b0 / 4 * 4 + ((b0 % 4) * 16 + b1 / 16) / 16 == b0
    ensures (((b0 % 4) * 16 + b1 / 16) % 16) * 16 + ((b1 % 16) * 4 + b2 / 64) / 4 == b1
    ensures (((b1 % 16) * 4 + b2 / 64) % 4) * 64 + b2 % 64 == b2
  {
  }

  lemma {:induction false} DecodeEncoded(bs: seq<byte>)
    ensures DecodeSextets(EncodeSextets(bs)) == bs
    decreases |bs|
  {
    var xs := EncodeSextets(bs);
    if |bs| >= 3 {
      DecodeTriple(bs[0] as nat, bs[1] as nat, bs[2] as nat);
      assert xs[4..] == EncodeSextets(bs[3..]);
      DecodeEncoded(bs[3..]);
      assert bs == bs[..3] + bs[3..];
    } else if |bs| == 2 {
      DecodeTriple(bs[0] as nat, bs[1] as nat, 0);
    } else if |bs| == 1 {
      DecodeTriple(bs[0] as nat, 0, 0);
    }
  }

  lemma StripPaddingOfEncoded(bs: seq<byte>)
    ensures StripPadding(Encode(bs)) == SextetChars(EncodeSextets(bs))
  {
    var body := SextetChars(EncodeSextets(bs));
    var e := Encode(bs);
    assert |e| % 4 == 0;
    if |bs| % 3 == 1 {
      assert e[|e| - 2..] == "==";
      assert e[..|e| - 2] == body;
    } else if |bs| % 3 == 2 {
      assert e[|e| - 2] == body[|body| - 1];
      SextetOfChar(EncodeSextets(bs)[|body| - 1]);
      assert e[|e| - 2..] != "==";
      assert e[..|e| - 1] == body;
    } else if |bs| > 0 {
      assert e == body;
      SextetOfChar(EncodeSextets(bs)[|body| - 1]);
      assert e[|e| - 1] != '=';
    }
  }

  lemma EncodedHasNoWhitespace(bs: seq<byte>)
    ensures forall i :: 0 <= i < |Encode(bs)| ==> !IsAsciiWhitespace(Encode(bs)[i])
  {
    var xs := EncodeSextets(bs);
    var body := SextetChars(xs);
    var e := body + Padding(|bs|);
    forall i | 0 <= i < |e|
      ensures !IsAsciiWhitespace(e[i])
    {
      if i < |body| {
        assert e[i] == SextetChar(xs[i]);
        SextetOfChar(xs[i]);
      } else {
        assert e[i] == Padding(|bs|)[i - |body|];
      }
    }
  }

  /** Decoding what the encoder produced gives back the bytes, as a binary string:
      `atob(btoa(s)) == s`. */
  lemma EncodeRoundTrip(bs: seq<byte>)
    ensures Atob(Encode(bs)) == Ok(Latin1(bs))
  {
    var xs := EncodeSextets(bs);
    EncodedHasNoWhitespace(bs);
    StripWhitespaceNoop(Encode(bs));
    StripPaddingOfEncoded(bs);
    var s := StripPadding(StripWhitespace(Encode(bs)));
    assert s == SextetChars(xs);
    EncodedLengthMod4(bs);
    SextetsOfChars(xs);
    DecodeEncoded(bs);
    assert Atob(Encode(bs)) == Ok(Latin1(DecodeSextets(xs)));
  }

  lemma EncodedLengthMod4(bs: seq<byte>)
    ensures |EncodeSextets(bs)| % 4 != 1
  {
    var q, k := |bs| / 3, |bs| % 3;
    assert |EncodeSextets(bs)| == 4 * q + (if k == 0 then 0 else k + 1);
  }

  /** A frame that is the standard Base64 encoding of some bytes decodes and
      copies back to exactly those bytes. */
  lemma DecodeBytesOfEncoded(bs: seq<byte>)
    ensures DecodeBytes(Encode(bs)) == Ok(bs)
  {
    EncodeRoundTrip(bs);
    CharCodesOfLatin1(bs);
  }
}
