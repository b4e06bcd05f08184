/** UTF-8 as defined in section 3 of RFC 3629: encoding, strict decoding, and the decoder
    that drops ill-formed bytes, which the context builder applies to a cut byte sequence. */
module Utf8 {
  import opened Wrappers

  type Byte = b: int | 0 <= b < 256

  function EncodeChar(c: char): (bytes: seq<Byte>)
    ensures 1 <= |bytes| <= 4
  {
    var n := c as int;
    if n < 0x80 then [n]
    else if n < 0x800 then [0xC0 + n / 0x40, 0x80 + n % 0x40]
    else if n < 0x1_0000 then [0xE0 + n / 0x1000, 0x80 + n / 0x40 % 0x40, 0x80 + n % 0x40]
    else [0xF0 + n / 0x4_0000, 0x80 + n / 0x1000 % 0x40, 0x80 + n / 0x40 % 0x40, 0x80 + n % 0x40]
  }

  function Encode(text: string): (bytes: seq<Byte>) {
    if text == [] then [] else EncodeChar(text[0]) + Encode(text[1..])
  }

  function Length(text: string): nat {
    |Encode(text)|
  }

  datatype Decoded = Decoded(character: char, width: nat)

  predicate Continuation(b: Byte) {
    0x80 <= b < 0xC0
  }

  predicate Scalar(n: int) {
    0 <= n < 0xD800 || 0xE000 <= n < 0x11_0000
  }

  /** The character encoded at the front of the bytes; overlong forms, surrogates, values beyond
      U+10FFFF, stray continuation bytes and incomplete sequences are refused. */
  function DecodeOne(b: seq<Byte>): Option<Decoded>
    requires b != []
  {
    if b[0] < 0x80 then
      Some(Decoded(b[0] as char, 1))
    else if 0xC0 <= b[0] < 0xE0 && |b| >= 2 && Continuation(b[1]) then
      var n := (b[0] as int - 0xC0) * 0x40 + (b[1] as int - 0x80);
      if 0x80 <= n then Some(Decoded(n as char, 2)) else None
    else if 0xE0 <= b[0] < 0xF0 && |b| >= 3 && Continuation(b[1]) && Continuation(b[2]) then
      var n := (b[0] as int - 0xE0) * 0x1000 + (b[1] as int - 0x80) * 0x40 + (b[2] as int - 0x80);
      if 0x800 <= n && Scalar(n) then Some(Decoded(n as char, 3)) else None
    else if 0xF0 <= b[0] < 0xF8 && |b| >= 4 && Continuation(b[1]) && Continuation(b[2]) && Continuation(b[3]) then
      var n := (b[0] as int - 0xF0) * 0x4_0000 + (b[1] as int - 0x80) * 0x1000 + (b[2] as int - 0x80) * 0x40 + (b[3] as int - 0x80);
      if 0x1_0000 <= n && Scalar(n) then Some(Decoded(n as char, 4)) else None
    else
      None
  }

  /** Strict decoding: any ill-formed byte refuses the whole input. */
  function Decode(b: seq<Byte>): Option<string> {
    if b == [] then Some([])
    else
      match DecodeOne(b)
      case None => None
      case Some(d) =>
        match Decode(b[d.width..])
        case None => None
        case Some(rest) => Some([d.character] + rest)
  }

  /** Decoding that ignores every byte no character starts at. */
  function DecodeIgnore(b: seq<Byte>): string {
    if b == [] then []
    else
      match DecodeOne(b)
      case None => DecodeIgnore(b[1..])
      case Some(d) => [d.character] + DecodeIgnore(b[d.width..])
  }

  /** How many leading characters fit into `budget` bytes. */
  function Fit(text: string, budget: nat): (count: nat)
    ensures count <= |text|
  {
    if text == [] || |EncodeChar(text[0])| > budget then 0
    else 1 + Fit(text[1..], budget - |EncodeChar(text[0])|)
  }

  lemma {:induction false} LengthIsBounded(text: string)
    ensures Length(text) <= 4 * |text|
  {
    if text != [] {
      LengthIsBounded(text[1..]);
    }
  }

  lemma DecodeOneOfThree(c: char, rest: seq<Byte>)
    requires 0x800 <= c as int < 0x1_0000
    ensures DecodeOne(EncodeChar(c) + rest) == Some(Decoded(c, 3))
  {
    var n := c as int;
    assert n == n / 0x1000 * 0x1000 + n / 0x40 % 0x40 * 0x40 + n % 0x40;
    assert EncodeChar(c) + rest == [0xE0 + n / 0x1000, 0x80 + n / 0x40 % 0x40, 0x80 + n % 0x40] + rest;
  }

  lemma DecodeOneOfFour(c: char, rest: seq<Byte>)
    requires 0x1_0000 <= c as int
    ensures DecodeOne(EncodeChar(c) + rest) == Some(Decoded(c, 4))
  {
    var n := c as int;
    assert n == n / 0x4_0000 * 0x4_0000 + n / 0x1000 % 0x40 * 0x1000 + n / 0x40 % 0x40 * 0x40 + n % 0x40;
  }

  lemma DecodeOneOfEncoded(c: char, rest: seq<Byte>)
    ensures DecodeOne(EncodeChar(c) + rest) == Some(Decoded(c, |EncodeChar(c)|))
  {
    var n := c as int;
    if n < 0x80 {
      assert (EncodeChar(c) + rest)[0] == n;
    } else if n < 0x800 {
      assert EncodeChar(c) + rest == [0xC0 + n / 0x40, 0x80 + n % 0x40] + rest;
    } else if n < 0x1_0000 {
      DecodeOneOfThree(c, rest);
    } else {
      DecodeOneOfFour(c, rest);
    }
  }

  /** Base-64 digits of a number come back by division and remainder. */
  lemma Digits(a: nat, b: nat, c: nat, d: nat)
    requires b < 0x40 && c < 0x40 && d < 0x40
    ensures var n := a * 0x4_0000 + b * 0x1000 + c * 0x40 + d;
      n / 0x4_0000 == a && n / 0x1000 % 0x40 == b && n / 0x40 % 0x40 == c && n % 0x40 == d
    ensures var m := b * 0x1000 + c * 0x40 + d; m / 0x1000 == b && m / 0x40 % 0x40 == c && m % 0x40 == d
    ensures (c * 0x40 + d) / 0x40 == c && (c * 0x40 + d) % 0x40 == d
  {
    var n := a * 0x4_0000 + b * 0x1000 + c * 0x40 + d;
    assert n / 0x40 == a * 0x1000 + b * 0x40 + c;
    assert n / 0x1000 == a * 0x40 + b;
  }

  lemma EncodeOfDecodedOne(b: seq<Byte>)
    requires b != [] && DecodeOne(b).Some?
    ensures var d := DecodeOne(b).value;
      1 <= d.width <= |b| && EncodeChar(d.character) == b[..d.width]
  {
    var d := DecodeOne(b).value;
    if d.width == 2 {
      Digits(0, 0, b[0] - 0xC0, b[1] - 0x80);
    } else if d.width == 3 {
      Digits(0, b[0] - 0xE0, b[1] - 0x80, b[2] - 0x80);
    } else if d.width == 4 {
      Digits(b[0] - 0xF0, b[1] - 0x80, b[2] - 0x80, b[3] - 0x80);
    }
  }

  lemma {:induction false} DecodeOfEncoded(text: string)
    ensures Decode(Encode(text)) == Some(text)
  {
    if text != [] {
      var rest := Encode(text[1..]);
      DecodeOneOfEncoded(text[0], rest);
      assert (EncodeChar(text[0]) + rest)[|EncodeChar(text[0])|..] == rest;
      DecodeOfEncoded(text[1..]);
      assert [text[0]] + text[1..] == text;
    }
  }

  lemma {:induction false} EncodeOfDecoded(b: seq<Byte>)
    requires Decode(b).Some?
    ensures Encode(Decode(b).value) == b
  {
    hide DecodeOne, EncodeChar;
    if b != [] {
      EncodeOfDecodedOne(b);
      var d := DecodeOne(b).value;
      EncodeOfDecoded(b[d.width..]);
      var rest := Decode(b[d.width..]).value;
      assert ([d.character] + rest)[1..] == rest;
      assert b[..d.width] + b[d.width..] == b;
    }
  }

  /** Strict decoding and encoding are inverse: a byte string decodes to a text exactly when it is
      that text's encoding. */
  lemma DecodeExactlyEncoded(b: seq<Byte>, text: string)
    ensures Decode(b) == Some(text) <==> Encode(text) == b
  {
    DecodeOfEncoded(text);
    if Decode(b).Some? {
      EncodeOfDecoded(b);
    }
  }

  lemma IncompleteIsIgnored(b: seq<Byte>)
    requires forall i :: 0 < i < |b| ==> Continuation(b[i])
    requires b != [] ==> Continuation(b[0]) || DecodeOne(b) == None
    ensures DecodeIgnore(b) == []
  {
  }

  /** A character cut short decodes to nothing. */
  lemma CutCharacterIsIgnored(c: char, cut: nat)
    requires cut < |EncodeChar(c)|
    ensures DecodeIgnore(EncodeChar(c)[..cut]) == []
  {
    IncompleteIsIgnored(EncodeChar(c)[..cut]);
  }

  lemma DecodeWhole(c: char, tail: seq<Byte>)
    ensures DecodeIgnore(EncodeChar(c) + tail) == [c] + DecodeIgnore(tail)
  {
    hide EncodeChar, DecodeOne;
    DecodeOneOfEncoded(c, tail);
    assert (EncodeChar(c) + tail)[|EncodeChar(c)|..] == tail;
  }

  /** Cutting an encoding at any byte and dropping what is ill-formed keeps exactly the characters
      that fit. */
  lemma {:induction false} CutDecodesToFit(text: string, budget: nat)
    ensures DecodeIgnore(Encode(text)[..if budget < Length(text) then budget else Length(text)]) == text[..Fit(text, budget)]
  {
    hide EncodeChar, DecodeOne;
    if text == [] {
    } else {
      var first := EncodeChar(text[0]);
      var rest := Encode(text[1..]);
      var cut := if budget < Length(text) then budget else Length(text);
      if budget < |first| {
        assert Encode(text)[..cut] == first[..cut];
        CutCharacterIsIgnored(text[0], cut);
      } else {
        var remaining := budget - |first|;
        CutDecodesToFit(text[1..], remaining);
        var tail := rest[..if remaining < |rest| then remaining else |rest|];
        assert Encode(text)[..cut] == first + tail;
        DecodeWhole(text[0], tail);
        assert text[..Fit(text, budget)] == [text[0]] + text[1..][..Fit(text[1..], remaining)];
      }
    }
  }

  lemma {:induction false} EncodeSplits(text: string, k: nat)
    requires k <= |text|
    ensures Encode(text) == Encode(text[..k]) + Encode(text[k..])
  {
    hide EncodeChar;
    if k == 0 {
      assert text[..0] == [] && text[0..] == text;
    } else {
      EncodeSplits(text[1..], k - 1);
      assert text[..k][1..] == text[1..][..k - 1];
      assert text[1..][k - 1..] == text[k..];
    }
  }

  /** `Fit` is the longest prefix: it fits, and every prefix that fits is no longer. */
  lemma {:induction false} FitIsLongest(text: string, budget: nat, k: nat)
    requires k <= |text|
    ensures Length(text[..k]) <= budget <==> k <= Fit(text, budget)
  {
    if k == 0 {
    } else {
      assert text[..k][1..] == text[1..][..k - 1];
      if |EncodeChar(text[0])| <= budget {
        FitIsLongest(text[1..], budget - |EncodeChar(text[0])|, k - 1);
      }
    }
  }
}
