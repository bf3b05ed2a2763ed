/** Percent-encoding of one path segment or query value (crates/evoxy-route/src/encode.rs),
    with the decoding a server applies (sections 2.1 and 2.3 of RFC 3986). Text is
    escaped byte by byte of its UTF-8 form. */
module Percent {
  import opened Common

  type Byte = b: int | 0 <= b < 256

  // ----- UTF-8 -----

  function CharBytes(c: char): (r: seq<Byte>)
    ensures |r| >= 1
  {
    var n := c as int;
    if n < 0x80 then [n]
    else if n < 0x800 then [0xC0 + n / 64, 0x80 + n % 64]
    else if n < 0x1_0000 then [0xE0 + n / 64 / 64, 0x80 + n / 64 % 64, 0x80 + n % 64]
    else [0xF0 + n / 64 / 64 / 64, 0x80 + n / 64 / 64 % 64, 0x80 + n / 64 % 64, 0x80 + n % 64]
  }

  function Utf8(s: string): seq<Byte> {
    if s == "" then [] else CharBytes(s[0]) + Utf8(s[1..])
  }

  function ToChar(n: int): Option<char> {
    if 0 <= n < 0xD800 || 0xE000 <= n < 0x11_0000 then Some(n as char) else None
  }

  predicate Tail(b: Byte) { 0x80 <= b < 0xC0 }

  /** Six more bits. */
  function More(n: int, b: Byte): int { n * 64 + (b as int - 0x80) }

  /** The first character of a UTF-8 text and its width. */
  function FirstChar(bs: seq<Byte>): (r: Option<(char, nat)>)
    ensures r.Some? ==> 0 < r.value.1 <= |bs|
  {
    if bs == [] then None else
      var b := bs[0] as int;
      if b < 0x80 then Some((b as char, 1))
      else if 0xC0 <= b < 0xE0 && |bs| >= 2 && Tail(bs[1]) then
        Sized(ToChar(More(b - 0xC0, bs[1])), 2)
      else if 0xE0 <= b < 0xF0 && |bs| >= 3 && Tail(bs[1]) && Tail(bs[2]) then
        Sized(ToChar(More(More(b - 0xE0, bs[1]), bs[2])), 3)
      else if 0xF0 <= b < 0xF8 && |bs| >= 4 && Tail(bs[1]) && Tail(bs[2]) && Tail(bs[3]) then
        Sized(ToChar(More(More(More(b - 0xF0, bs[1]), bs[2]), bs[3])), 4)
      else None
  }

  function Sized(c: Option<char>, n: nat): (r: Option<(char, nat)>)
    ensures r.Some? ==> r.value.1 == n
  {
    if c.None? then None else Some((c.value, n))
  }

  function FromUtf8(bs: seq<Byte>): Option<string>
    decreases |bs|
  {
    if bs == [] then Some("") else
      var c := FirstChar(bs);
      if c.None? then None else
        var r := FromUtf8(bs[c.value.1..]);
        if r.None? then None else Some([c.value.0] + r.value)
  }

  lemma FirstCharOf(c: char, rest: seq<Byte>)
    ensures FirstChar(CharBytes(c) + rest) == Some((c, |CharBytes(c)|))
  {
    var n := c as int;
    assert ToChar(n) == Some(c);
    if n < 0x80 {
    } else if n < 0x800 {
      assert More(n / 64, 0x80 + n % 64) == n;
    } else if n < 0x1_0000 {
      assert More(n / 64 / 64, 0x80 + n / 64 % 64) == n / 64;
      assert More(n / 64, 0x80 + n % 64) == n;
    } else {
      assert More(n / 64 / 64 / 64, 0x80 + n / 64 / 64 % 64) == n / 64 / 64;
      assert More(n / 64 / 64, 0x80 + n / 64 % 64) == n / 64;
      assert More(n / 64, 0x80 + n % 64) == n;
    }
  }

  lemma {:induction false} FromUtf8Of(s: string)
    ensures FromUtf8(Utf8(s)) == Some(s)
  {
    if s != "" {
      FirstCharOf(s[0], Utf8(s[1..]));
      FromUtf8Of(s[1..]);
      assert Utf8(s)[|CharBytes(s[0])|..] == Utf8(s[1..]);
      assert s == [s[0]] + s[1..];
    }
  }

  // ----- percent-encoding -----

  predicate Unreserved(c: char) {
    'A' <= c <= 'Z' || 'a' <= c <= 'z' || '0' <= c <= '9' || c == '-' || c == '.' || c == '_' || c == '~'
  }

  const HEX := "0123456789ABCDEF"

  function EncodeByte(b: Byte): (r: string)
    ensures |r| == if b < 0x80 && Unreserved(b as char) then 1 else 3
  {
    if b < 0x80 && Unreserved(b as char) then [b as char]
    else ['%', HEX[b / 16], HEX[b % 16]]
  }

  function EncodeBytes(bs: seq<Byte>): string {
    if bs == [] then "" else EncodeByte(bs[0]) + EncodeBytes(bs[1..])
  }

  function Encode(s: string): string {
    EncodeBytes(Utf8(s))
  }

  lemma {:induction false} EncodeBytesAppend(bs: seq<Byte>, b: Byte)
    ensures EncodeBytes(bs + [b]) == EncodeBytes(bs) + EncodeByte(b)
  {
    if bs != [] {
      assert (bs + [b])[1..] == bs[1..] + [b];
      EncodeBytesAppend(bs[1..], b);
    } else {
      assert [b][1..] == [];
    }
  }

  /** Escapes one byte after another. */
  method EncodeText(s: string) returns (out: string)
    ensures out == Encode(s)
  {
    var bytes := Utf8(s);
    out := "";
    for i := 0 to |bytes|
      invariant out == EncodeBytes(bytes[..i])
    {
      var b := bytes[i];
      if b < 0x80 && Unreserved(b as char) {
        out := out + [b as char];
      } else {
        out := out + ['%', HEX[b / 16], HEX[b % 16]];
      }
      EncodeBytesAppend(bytes[..i], b);
      assert bytes[..i + 1] == bytes[..i] + [b];
    }
    assert bytes[..|bytes|] == bytes;
  }

  // ----- decoding -----

  function HexValue(c: char): (r: Option<Byte>)
    ensures r.Some? ==> r.value < 16
  {
    if '0' <= c <= '9' then Some((c as int) - ('0' as int))
    else if 'A' <= c <= 'F' then Some((c as int) - ('A' as int) + 10)
    else if 'a' <= c <= 'f' then Some((c as int) - ('a' as int) + 10)
    else None
  }

  function DecodeBytes(s: string): Option<seq<Byte>> {
    if s == "" then Some([])
    else if s[0] == '%' then
      if |s| < 3 || HexValue(s[1]).None? || HexValue(s[2]).None? then None else
        var r := DecodeBytes(s[3..]);
        if r.None? then None
        else Some([HexValue(s[1]).value * 16 + HexValue(s[2]).value] + r.value)
    else if s[0] as int >= 0x80 then None
    else
      var r := DecodeBytes(s[1..]);
      if r.None? then None else Some([s[0] as int] + r.value)
  }

  function Decode(s: string): Option<string> {
    var bs := DecodeBytes(s);
    if bs.None? then None else FromUtf8(bs.value)
  }

  lemma HexRoundTrip(n: Byte)
    requires n < 16
    ensures HexValue(HEX[n]) == Some(n)
  {
  }

  lemma {:induction false} DecodeEncodedBytes(bs: seq<Byte>)
    ensures DecodeBytes(EncodeBytes(bs)) == Some(bs)
  {
    if bs != [] {
      var b := bs[0];
      var tail := EncodeBytes(bs[1..]);
      DecodeEncodedBytes(bs[1..]);
      HexRoundTrip(b / 16);
      HexRoundTrip(b % 16);
      var s := EncodeByte(b) + tail;
      assert s[|EncodeByte(b)|..] == tail;
      assert bs == [b] + bs[1..];
    }
  }

  /** The server reads back exactly the text that was encoded. */
  lemma DecodeEncode(s: string)
    ensures Decode(Encode(s)) == Some(s)
  {
    DecodeEncodedBytes(Utf8(s));
    FromUtf8Of(s);
  }

  /** Different texts never share a wire form. */
  lemma EncodeInjective(s: string, t: string)
    requires Encode(s) == Encode(t)
    ensures s == t
  {
    DecodeEncode(s);
    DecodeEncode(t);
  }

  /** Unreserved characters and upper-case escape triples, nothing else. */
  predicate IsEncoded(s: string) {
    s == "" ||
    (if Unreserved(s[0]) then IsEncoded(s[1..])
     else s[0] == '%' && |s| >= 3 && s[1] in HEX && s[2] in HEX && IsEncoded(s[3..]))
  }

  lemma {:induction false} EncodedBytesShape(bs: seq<Byte>)
    ensures IsEncoded(EncodeBytes(bs))
    ensures forall c :: c in EncodeBytes(bs) ==> Unreserved(c) || c == '%'
    ensures bs != [] ==> EncodeBytes(bs) != ""
  {
    if bs != [] {
      EncodedBytesShape(bs[1..]);
      var e := EncodeByte(bs[0]);
      var s := e + EncodeBytes(bs[1..]);
      assert s[|e|..] == EncodeBytes(bs[1..]);
      assert forall n: Byte :: n < 16 ==> Unreserved(HEX[n]);
    }
  }

  lemma EncodeShape(s: string)
    ensures IsEncoded(Encode(s))
    ensures forall c :: c in Encode(s) ==> Unreserved(c) || c == '%'
    ensures s != "" ==> Encode(s) != ""
  {
    EncodedBytesShape(Utf8(s));
  }

  /** Encoding leaves a text alone exactly when every character is unreserved. */
  lemma {:induction false} EncodeIdentityIff(s: string)
    ensures Encode(s) == s <==> forall c :: c in s ==> Unreserved(c)
  {
    EncodeLength(s);
    if forall c :: c in s ==> Unreserved(c) { EncodePlain(s); }
    if Encode(s) == s {
      EncodeShape(s);
      forall c | c in s ensures Unreserved(c) {
        if c == '%' { EncodeGrows(s); }
      }
    }
  }

  lemma {:induction false} EncodePlain(s: string)
    requires forall c :: c in s ==> Unreserved(c)
    ensures Encode(s) == s
  {
    if s != "" {
      EncodePlain(s[1..]);
      EncodeCons(s);
      assert Unreserved(s[0]);
      assert s == [s[0]] + s[1..];
      assert EncodeBytes([s[0] as int]) == [s[0]];
    }
  }

  lemma {:induction false} EncodeBytesConcat(a: seq<Byte>, b: seq<Byte>)
    ensures EncodeBytes(a + b) == EncodeBytes(a) + EncodeBytes(b)
  {
    if a == [] {
      assert a + b == b;
    } else {
      assert (a + b)[1..] == a[1..] + b;
      EncodeBytesConcat(a[1..], b);
    }
  }

  lemma EncodeCons(s: string)
    requires s != ""
    ensures Encode(s) == EncodeBytes(CharBytes(s[0])) + Encode(s[1..])
  {
    EncodeBytesConcat(CharBytes(s[0]), Utf8(s[1..]));
  }

  lemma {:induction false} EncodeLength(s: string)
    ensures |Encode(s)| >= |s|
  {
    if s != "" {
      EncodeCons(s);
      EncodeLength(s[1..]);
      EncodedBytesShape(CharBytes(s[0]));
    }
  }

  /** A reserved character makes the text longer. */
  lemma {:induction false} EncodeGrows(s: string)
    requires exists c :: c in s && !Unreserved(c)
    ensures |Encode(s)| > |s|
  {
    EncodeCons(s);
    EncodeLength(s[1..]);
    var bs := CharBytes(s[0]);
    EncodedBytesShape(bs);
    if Unreserved(s[0]) {
      EncodeGrows(s[1..]);
    } else {
      assert EncodeBytes(bs) == EncodeByte(bs[0]) + EncodeBytes(bs[1..]);
    }
  }

  /** The characters left alone are the ASCII letters and digits and four marks, in codes (section
      2.3 of RFC 3986). */
  lemma CharacterKeptIff(c: char)
    ensures Encode([c]) == [c] <==>
            || 0x41 <= c as int <= 0x5A || 0x61 <= c as int <= 0x7A || 0x30 <= c as int <= 0x39
            || c in {'-', '.', '_', '~'}
  {
    EncodeIdentityIff([c]);
    assert [c][0] == c;
  }
}
