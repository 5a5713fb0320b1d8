/**
 Unpadded base64 with the URL-safe alphabet, section 5 of RFC 4648, as page tokens and JWK integers
 use it.
 */
module Base64Url {
  import opened Wrappers

  type Byte = n: nat | n < 256

  type Sextet = n: nat | n < 64

  function Letter(v: Sextet): char {
    if v < 26 then 'A' + v as char
    else if v < 52 then 'a' + (v - 26) as char
    else if v < 62 then '0' + (v - 52) as char
    else if v == 62 then '-'
    else '_'
  }

  function ValueOf(c: char): Option<Sextet> {
    if 'A' <= c <= 'Z' then Some((c - 'A') as int)
    else if 'a' <= c <= 'z' then Some((c - 'a') as int + 26)
    else if '0' <= c <= '9' then Some((c - '0') as int + 52)
    else if c == '-' then Some(62)
    else if c == '_' then Some(63)
    else None
  }

  lemma LetterRoundTrip(v: Sextet)
    ensures ValueOf(Letter(v)) == Some(v)
  {
  }

  /** The letters of three, two or one bytes. */
  function Letters(b: seq<Byte>): (r: string)
    requires 1 <= |b| <= 3
    ensures |r| == |b| + 1
  {
    if |b| == 3 then
      [Letter(b[0] / 4), Letter(b[0] % 4 * 16 + b[1] / 16), Letter(b[1] % 16 * 4 + b[2] / 64), Letter(b[2] % 64)]
    else if |b| == 2 then
      [Letter(b[0] / 4), Letter(b[0] % 4 * 16 + b[1] / 16), Letter(b[1] % 16 * 4)]
    else
      [Letter(b[0] / 4), Letter(b[0] % 4 * 16)]
  }

  function Encode(bytes: seq<Byte>): string
    decreases |bytes|
  {
    if bytes == [] then ""
    else if |bytes| <= 3 then Letters(bytes)
    else Letters(bytes[..3]) + Encode(bytes[3..])
  }

  /** The bytes of a group of letters; the spare low bits of a short group are ignored. */
  function Bytes(s: string): Option<seq<Byte>>
    requires 1 <= |s| <= 4
  {
    if |s| == 1 then None
    else
      var a, b := ValueOf(s[0]), ValueOf(s[1]);
      if a.None? || b.None? then None
      else if |s| == 2 then Some([a.value * 4 + b.value / 16])
      else
        var c := ValueOf(s[2]);
        if c.None? then None
        else if |s| == 3 then Some([a.value * 4 + b.value / 16, b.value % 16 * 16 + c.value / 4])
        else
          var d := ValueOf(s[3]);
          if d.None? then None
          else Some([a.value * 4 + b.value / 16, b.value % 16 * 16 + c.value / 4, c.value % 4 * 64 + d.value])
  }

  function Decode(s: string): Option<seq<Byte>>
    decreases |s|
  {
    if s == "" then Some([])
    else if |s| <= 4 then Bytes(s)
    else
      var first, rest := Bytes(s[..4]), Decode(s[4..]);
      if first.None? || rest.None? then None else Some(first.value + rest.value)
  }

  /** The bits of neighbouring bytes, put together again. */
  lemma Regroup(x: Byte, y: Byte, z: Byte)
    ensures x / 4 * 4 + (x % 4 * 16) / 16 == x && x / 4 * 4 + (x % 4 * 16 + y / 16) / 16 == x
    ensures (x % 4 * 16 + y / 16) % 16 * 16 + (y % 16 * 4) / 4 == y
    ensures (x % 4 * 16 + y / 16) % 16 * 16 + (y % 16 * 4 + z / 64) / 4 == y
    ensures (y % 16 * 4 + z / 64) % 4 * 64 + z % 64 == z
  {
  }

  lemma OneRoundTrip(x: Byte)
    ensures Bytes(Letters([x])) == Some([x])
  {
    LetterRoundTrip(x / 4);
    LetterRoundTrip(x % 4 * 16);
    Regroup(x, 0, 0);
    hide Letter, ValueOf;
  }

  lemma TwoRoundTrip(x: Byte, y: Byte)
    ensures Bytes(Letters([x, y])) == Some([x, y])
  {
    LetterRoundTrip(x / 4);
    LetterRoundTrip(x % 4 * 16 + y / 16);
    LetterRoundTrip(y % 16 * 4);
    Regroup(x, y, 0);
    hide Letter, ValueOf;
  }

  lemma ThreeRoundTrip(x: Byte, y: Byte, z: Byte)
    ensures Bytes(Letters([x, y, z])) == Some([x, y, z])
  {
    LetterRoundTrip(x / 4);
    LetterRoundTrip(x % 4 * 16 + y / 16);
    LetterRoundTrip(y % 16 * 4 + z / 64);
    LetterRoundTrip(z % 64);
    Regroup(x, y, z);
    hide Letter, ValueOf;
    var s := Letters([x, y, z]);
    assert s == [Letter(x / 4), Letter(x % 4 * 16 + y / 16), Letter(y % 16 * 4 + z / 64), Letter(z % 64)];
  }

  lemma GroupRoundTrip(b: seq<Byte>)
    requires 1 <= |b| <= 3
    ensures Bytes(Letters(b)) == Some(b)
  {
    hide Letters, Bytes;
    if |b| == 1 {
      assert b == [b[0]];
      OneRoundTrip(b[0]);
    } else if |b| == 2 {
      assert b == [b[0], b[1]];
      TwoRoundTrip(b[0], b[1]);
    } else {
      assert b == [b[0], b[1], b[2]];
      ThreeRoundTrip(b[0], b[1], b[2]);
    }
  }

  /** Decoding gives the bytes back; the text has four letters for three bytes, rounded up. */
  lemma {:induction false} RoundTrip(bytes: seq<Byte>)
    ensures Decode(Encode(bytes)) == Some(bytes)
    ensures |Encode(bytes)| == (4 * |bytes| + 2) / 3
    decreases |bytes|
  {
    hide Letters, Bytes;
    if bytes != [] {
      if |bytes| <= 3 {
        GroupRoundTrip(bytes);
      } else {
        var head, tail := bytes[..3], bytes[3..];
        GroupRoundTrip(head);
        RoundTrip(tail);
        assert Encode(tail) != "";
        assert Encode(bytes)[..4] == Letters(head) && Encode(bytes)[4..] == Encode(tail);
        assert head + tail == bytes;
      }
    }
  }

  /** The vectors of section 10 of RFC 4648, without padding, and both letters of the URL-safe alphabet. */
  lemma KnownTexts()
    ensures Encode([0x66]) == "Zg" && Encode([0x66, 0x6f]) == "Zm8" && Encode([0x66, 0x6f, 0x6f]) == "Zm9v"
    ensures Encode([0x66, 0x6f, 0x6f, 0x62, 0x61, 0x72]) == "Zm9vYmFy"
    ensures Encode([0xfb, 0xff, 0xbf]) == "-_-_"
  {
    var foobar: seq<Byte> := [0x66, 0x6f, 0x6f, 0x62, 0x61, 0x72];
    assert foobar[..3] == [0x66, 0x6f, 0x6f] && foobar[3..] == [0x62, 0x61, 0x72];
    assert Encode([0x62, 0x61, 0x72]) == "YmFy";
  }
}
