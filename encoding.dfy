/**
 * The byte encodings behind the publisher's HTTP Basic credential:
 * UTF-8 (what `Buffer.from(text)` produces), Base64 as defined in section 4 of RFC 4648
 * (what `toString('base64')` produces), and the credential of section 2 of RFC 7617.
 * Each encoder comes with a decoder and a proof that decoding undoes it.
 */
module Encoding {
  import opened Wrappers
  import opened Text

  type byte = b: int | 0 <= b < 256

  // ---------------------------------------------------------------------------
  // UTF-8
  // ---------------------------------------------------------------------------

  predicate IsContinuation(b: byte) { 0x80 <= b < 0xC0 }

  /** The UTF-8 bytes of one Unicode scalar value. */
  function Utf8Char(c: char): (r: seq<byte>)
    ensures 1 <= |r| <= 4
    ensures (c as int < 0x80) <==> (|r| == 1)
  {
    var cp := c as int;
    if cp < 0x80 then [cp]
    else if cp < 0x800 then [0xC0 + cp / 64, 0x80 + cp % 64]
    else if cp < 0x10000 then [0xE0 + cp / 4096, 0x80 + (cp / 64) % 64, 0x80 + cp % 64]
    else [0xF0 + cp / 262144, 0x80 + (cp / 4096) % 64, 0x80 + (cp / 64) % 64, 0x80 + cp % 64]
  }

  /** `Buffer.from(s)`: the UTF-8 bytes of a string. */
  function Utf8(s: string): (r: seq<byte>)
    ensures |s| <= |r| <= 4 * |s|
  {
    if s == [] then [] else Utf8Char(s[0]) + Utf8(s[1..])
  }

  /** Decodes the character whose encoding starts `b`, with the number of bytes it took;
      rejects truncated, overlong and surrogate sequences. */
  function Utf8DecodeChar(b: seq<byte>): (r: Option<(char, nat)>)
    requires b != []
    ensures r.Some? ==> 1 <= r.value.1 <= |b|
  {
    var b0 := b[0] as int;
    if b0 < 0x80 then Some((b0 as char, 1))
    else if 0xC0 <= b0 < 0xE0 && |b| >= 2 && IsContinuation(b[1]) then
      var cp := (b0 - 0xC0) * 64 + (b[1] as int - 0x80);
      if cp < 0x80 then None else Some((cp as char, 2))
    else if 0xE0 <= b0 < 0xF0 && |b| >= 3 && IsContinuation(b[1]) && IsContinuation(b[2]) then
      var cp := (b0 - 0xE0) * 4096 + (b[1] as int - 0x80) * 64 + (b[2] as int - 0x80);
      if cp < 0x800 || 0xD800 <= cp < 0xE000 then None else Some((cp as char, 3))
    else if 0xF0 <= b0 < 0xF8 && |b| >= 4 && IsContinuation(b[1]) && IsContinuation(b[2])
         && IsContinuation(b[3]) then
      var cp := (b0 - 0xF0) * 262144 + (b[1] as int - 0x80) * 4096 + (b[2] as int - 0x80) * 64 + (b[3] as int - 0x80);
      if cp < 0x10000 || cp > 0x10FFFF then None else Some((cp as char, 4))
    else None
  }

  /** Decodes a whole byte string, or fails on the first malformed sequence. */
  function Utf8Decode(b: seq<byte>): Option<string>
    decreases |b|
  {
    if b == [] then Some([])
    else match Utf8DecodeChar(b)
      case None => None
      case Some((c, n)) =>
        match Utf8Decode(b[n..])
        case None => None
        case Some(rest) => Some([c] + rest)
  }

  lemma Utf8CharDecodes(c: char, tail: seq<byte>)
    ensures Utf8DecodeChar(Utf8Char(c) + tail) == Some((c, |Utf8Char(c)|))
  {
    var cp := c as int;
    if cp < 0x80 {
    } else if cp < 0x800 {
      Utf8TwoBytes(c, tail);
    } else if cp < 0x10000 {
      Utf8ThreeBytes(c, tail);
    } else {
      Utf8FourBytes(c, tail);
    }
  }

  lemma Utf8TwoBytes(c: char, tail: seq<byte>)
    requires 0x80 <= c as int < 0x800
    ensures Utf8DecodeChar(Utf8Char(c) + tail) == Some((c, 2))
  {
    var cp := c as int;
    var b := Utf8Char(c) + tail;
    assert b[0] == 0xC0 + cp / 64 && b[1] == 0x80 + cp % 64;
  }

  lemma Utf8ThreeBytes(c: char, tail: seq<byte>)
    requires 0x800 <= c as int < 0x10000
    ensures Utf8DecodeChar(Utf8Char(c) + tail) == Some((c, 3))
  {
    var cp := c as int;
    var b := Utf8Char(c) + tail;
    assert b[0] == 0xE0 + cp / 4096 && b[1] == 0x80 + (cp / 64) % 64 && b[2] == 0x80 + cp % 64;
    assert cp / 4096 * 64 + (cp / 64) % 64 == cp / 64;
  }

  lemma Utf8FourBytes(c: char, tail: seq<byte>)
    requires 0x10000 <= c as int
    ensures Utf8DecodeChar(Utf8Char(c) + tail) == Some((c, 4))
  {
    var cp := c as int;
    var b := Utf8Char(c) + tail;
    assert b[0] == 0xF0 + cp / 262144 && b[1] == 0x80 + (cp / 4096) % 64;
    assert b[2] == 0x80 + (cp / 64) % 64 && b[3] == 0x80 + cp % 64;
    assert cp / 262144 * 64 + (cp / 4096) % 64 == cp / 4096;
    assert cp / 4096 * 64 + (cp / 64) % 64 == cp / 64;
  }

  /** Decoding the UTF-8 bytes of a string gives the string back. */
  lemma {:induction false} Utf8RoundTrip(s: string)
    ensures Utf8Decode(Utf8(s)) == Some(s)
  {
    if s != [] {
      var b := Utf8(s);
      var n := |Utf8Char(s[0])|;
      Utf8CharDecodes(s[0], Utf8(s[1..]));
      assert b[n..] == Utf8(s[1..]);
      Utf8RoundTrip(s[1..]);
      assert s == [s[0]] + s[1..];
    }
  }

  /** ASCII text is its own encoding, one byte per character. */
  lemma {:induction false} Utf8OfAscii(s: string)
    requires forall i | 0 <= i < |s| :: s[i] as int < 0x80
    ensures |Utf8(s)| == |s|
    ensures forall i | 0 <= i < |s| :: Utf8(s)[i] == s[i] as int
  {
    if s != [] {
      Utf8OfAscii(s[1..]);
    }
  }

  lemma {:induction false} Utf8Append(s: string, t: string)
    ensures Utf8(s + t) == Utf8(s) + Utf8(t)
  {
    if s == [] {
      assert s + t == t;
    } else {
      assert (s + t)[0] == s[0] && (s + t)[1..] == s[1..] + t;
      Utf8Append(s[1..], t);
      calc {
        Utf8(s + t);
        Utf8Char(s[0]) + Utf8(s[1..] + t);
        Utf8Char(s[0]) + (Utf8(s[1..]) + Utf8(t));
        (Utf8Char(s[0]) + Utf8(s[1..])) + Utf8(t);
      }
    }
  }

  // ---------------------------------------------------------------------------
  // Base64 (section 4 of RFC 4648)
  // ---------------------------------------------------------------------------

  /** The character of the Base64 alphabet for a 6-bit value (Table 1 of RFC 4648). */
  function Base64Char(v: nat): char
    requires v < 64
  {
    if v < 26 then ('A' as int + v) as char
    else if v < 52 then ('a' as int + v - 26) as char
    else if v < 62 then ('0' as int + v - 52) as char
    else if v == 62 then '+'
    else '/'
  }

  predicate IsBase64Char(c: char) {
    'A' <= c <= 'Z' || 'a' <= c <= 'z' || '0' <= c <= '9' || c == '+' || c == '/'
  }

  /** The 6-bit value of an alphabet character. */
  function Base64Value(c: char): (v: nat)
    requires IsBase64Char(c)
    ensures v < 64
  {
    if 'A' <= c <= 'Z' then c as int - 'A' as int
    else if 'a' <= c <= 'z' then c as int - 'a' as int + 26
    else if '0' <= c <= '9' then c as int - '0' as int + 52
    else if c == '+' then 62
    else 63
  }

  lemma Base64CharValue(v: nat)
    requires v < 64
    ensures IsBase64Char(Base64Char(v)) && Base64Value(Base64Char(v)) == v
  {
  }

  /** The Base64 encoding: every 3 bytes become 4 characters; a final 1 or 2 bytes become
      2 or 3 characters followed by `=` padding to a multiple of 4 (section 4 of RFC 4648). */
  function Base64(b: seq<byte>): (r: string)
    ensures |r| == 4 * ((|b| + 2) / 3)
  {
    if |b| == 0 then []
    else if |b| == 1 then
      [Base64Char(b[0] / 4), Base64Char(b[0] % 4 * 16), '=', '=']
    else if |b| == 2 then
      [Base64Char(b[0] / 4), Base64Char(b[0] % 4 * 16 + b[1] / 16), Base64Char(b[1] % 16 * 4), '=']
    else Group(b[0], b[1], b[2]) + Base64(b[3..])
  }

  /** The four characters of a full 3-byte group: its 24 bits read as four 6-bit values. */
  function Group(x0: byte, x1: byte, x2: byte): (r: string)
    ensures |r| == 4
  {
    [Base64Char(x0 / 4), Base64Char(x0 % 4 * 16 + x1 / 16),
     Base64Char(x1 % 16 * 4 + x2 / 64), Base64Char(x2 % 64)]
  }

  /** The three bytes of a full group of four alphabet characters. */
  function DecodeQuad(c0: char, c1: char, c2: char, c3: char): (r: seq<byte>)
    requires IsBase64Char(c0) && IsBase64Char(c1) && IsBase64Char(c2) && IsBase64Char(c3)
    ensures |r| == 3
  {
    var v0, v1, v2, v3 := Base64Value(c0), Base64Value(c1), Base64Value(c2), Base64Value(c3);
    [v0 * 4 + v1 / 16, v1 % 16 * 16 + v2 / 4, v2 % 4 * 64 + v3]
  }

  /** Decodes a final group: `xx==` holds one byte, `xxx=` two, `xxxx` three. */
  function DecodeFinal(q: string): Option<seq<byte>>
    requires |q| == 4
  {
    if !IsBase64Char(q[0]) || !IsBase64Char(q[1]) then None
    else if q[2] == '=' && q[3] == '=' then Some(DecodeQuad(q[0], q[1], 'A', 'A')[..1])
    else if !IsBase64Char(q[2]) then None
    else if q[3] == '=' then Some(DecodeQuad(q[0], q[1], q[2], 'A')[..2])
    else if !IsBase64Char(q[3]) then None
    else Some(DecodeQuad(q[0], q[1], q[2], q[3]))
  }

  /** Decodes a padded Base64 string; fails on a length that is not a multiple of 4, a character
      outside the alphabet or padding anywhere but in the final group. */
  function Base64Decode(s: string): Option<seq<byte>>
    decreases |s|
  {
    if s == [] then Some([])
    else if |s| < 4 then None
    else if |s| == 4 then DecodeFinal(s)
    else if !(IsBase64Char(s[0]) && IsBase64Char(s[1]) && IsBase64Char(s[2]) && IsBase64Char(s[3]))
    then None
    else match Base64Decode(s[4..])
      case None => None
      case Some(rest) => Some(DecodeQuad(s[0], s[1], s[2], s[3]) + rest)
  }

  /** The bit regrouping of one 3-byte group is undone by the decoder's regrouping. */
  lemma GroupArithmetic(x0: byte, x1: byte, x2: byte)
    ensures (x0 / 4) * 4 + (x0 % 4 * 16 + x1 / 16) / 16 == x0
    ensures (x0 % 4 * 16 + x1 / 16) % 16 * 16 + (x1 % 16 * 4 + x2 / 64) / 4 == x1
    ensures (x1 % 16 * 4 + x2 / 64) % 4 * 64 + x2 % 64 == x2
  {
  }

  /** Decoding the four characters of a full group gives the group back. */
  lemma QuadRoundTrip(x0: byte, x1: byte, x2: byte)
    ensures var g := Group(x0, x1, x2);
      IsBase64Char(g[0]) && IsBase64Char(g[1]) && IsBase64Char(g[2]) && IsBase64Char(g[3])
      && DecodeQuad(g[0], g[1], g[2], g[3]) == [x0, x1, x2]
  {
    var c0, c1, c2, c3 := x0 / 4, x0 % 4 * 16 + x1 / 16, x1 % 16 * 4 + x2 / 64, x2 % 64;
    Base64CharValue(c0);
    Base64CharValue(c1);
    Base64CharValue(c2);
    Base64CharValue(c3);
    GroupArithmetic(x0, x1, x2);
  }

  lemma Base64LastOne(b: seq<byte>)
    requires |b| == 1
    ensures DecodeFinal(Base64(b)) == Some(b)
  {
    var s := Base64(b);
    var g := Group(b[0], 0, 0);
    QuadRoundTrip(b[0], 0, 0);
    assert s[0] == g[0] && s[1] == g[1] && g[2] == 'A' && g[3] == 'A';
    DoublePaddedDecodes(s);
    assert DecodeQuad(g[0], g[1], g[2], g[3])[..1] == b;
  }

  lemma Base64LastTwo(b: seq<byte>)
    requires |b| == 2
    ensures DecodeFinal(Base64(b)) == Some(b)
  {
    var s := Base64(b);
    var g := Group(b[0], b[1], 0);
    QuadRoundTrip(b[0], b[1], 0);
    assert s[0] == g[0] && s[1] == g[1] && s[2] == g[2] && g[3] == 'A';
    PaddedDecodes(s);
    assert DecodeQuad(g[0], g[1], g[2], g[3])[..2] == b;
  }

  /** A final group `xx==` holds the first byte of the group `xxAA`. */
  lemma DoublePaddedDecodes(q: string)
    requires |q| == 4 && IsBase64Char(q[0]) && IsBase64Char(q[1]) && q[2] == '=' && q[3] == '='
    ensures DecodeFinal(q) == Some(DecodeQuad(q[0], q[1], 'A', 'A')[..1])
  {
  }

  /** A final group `xxx=` holds the first two bytes of the group `xxxA`. */
  lemma PaddedDecodes(q: string)
    requires |q| == 4 && IsBase64Char(q[0]) && IsBase64Char(q[1]) && IsBase64Char(q[2]) && q[3] == '='
    ensures DecodeFinal(q) == Some(DecodeQuad(q[0], q[1], q[2], 'A')[..2])
  {
  }

  lemma Base64LastThree(b: seq<byte>)
    requires |b| == 3
    ensures DecodeFinal(Base64(b)) == Some(b)
  {
    var g := Group(b[0], b[1], b[2]);
    assert Base64(b[3..]) == [];
    assert Base64(b) == g + [] == g;
    QuadRoundTrip(b[0], b[1], b[2]);
    FullGroupDecodes(g);
    assert b == [b[0], b[1], b[2]];
  }

  /** A final group of four alphabet characters holds three bytes. */
  lemma FullGroupDecodes(q: string)
    requires |q| == 4 && IsBase64Char(q[0]) && IsBase64Char(q[1]) && IsBase64Char(q[2]) && IsBase64Char(q[3])
    ensures DecodeFinal(q) == Some(DecodeQuad(q[0], q[1], q[2], q[3]))
  {
  }

  /** A full group followed by more groups decodes to the group's bytes, then the rest's. */
  lemma DecodeGroupThen(g: string, rest: string)
    requires |g| == 4 && IsBase64Char(g[0]) && IsBase64Char(g[1]) && IsBase64Char(g[2]) && IsBase64Char(g[3])
    requires |rest| >= 4
    ensures Base64Decode(g + rest)
         == match Base64Decode(rest)
            case None => None
            case Some(r) => Some(DecodeQuad(g[0], g[1], g[2], g[3]) + r)
  {
    var s := g + rest;
    assert s[..4] == g && s[4..] == rest;
  }

  /** Decoding the Base64 encoding of a byte string gives the bytes back. */
  lemma {:induction false} Base64RoundTrip(b: seq<byte>)
    decreases |b|
    ensures Base64Decode(Base64(b)) == Some(b)
  {
    if 1 <= |b| <= 3 {
      FinalGroupRoundTrip(b);
    } else if |b| > 3 {
      Base64RoundTrip(b[3..]);
      Base64Step(b[0], b[1], b[2], b[3..]);
      FirstThree(b);
    }
  }

  lemma FirstThree<T>(b: seq<T>)
    requires |b| >= 3
    ensures [b[0], b[1], b[2]] + b[3..] == b
  {
  }

  /** One to three bytes make a single final group, which decodes back to them. */
  lemma FinalGroupRoundTrip(b: seq<byte>)
    requires 1 <= |b| <= 3
    ensures Base64Decode(Base64(b)) == Some(b)
  {
    var s := Base64(b);
    assert |s| == 4;
    assert Base64Decode(s) == DecodeFinal(s);
    if |b| == 1 {
      Base64LastOne(b);
    } else if |b| == 2 {
      Base64LastTwo(b);
    } else {
      Base64LastThree(b);
    }
  }

  /** A full group in front of a non-empty rest that round-trips: the whole round-trips. */
  lemma Base64Step(x0: byte, x1: byte, x2: byte, rest: seq<byte>)
    requires rest != [] && Base64Decode(Base64(rest)) == Some(rest)
    ensures Base64Decode(Base64([x0, x1, x2] + rest)) == Some([x0, x1, x2] + rest)
  {
    var b := [x0, x1, x2] + rest;
    assert b[0] == x0 && b[1] == x1 && b[2] == x2 && b[3..] == rest;
    var g := Group(x0, x1, x2);
    var tail := Base64(rest);
    assert Base64(b) == g + tail;
    assert |tail| >= 4;
    QuadRoundTrip(x0, x1, x2);
    DecodeGroupThen(g, tail);
  }

  /** Every character of an encoding is in the alphabet or is padding. */
  lemma {:induction false} Base64Alphabet(b: seq<byte>)
    ensures forall i | 0 <= i < |Base64(b)| :: IsBase64Char(Base64(b)[i]) || Base64(b)[i] == '='
  {
    if 1 <= |b| <= 2 {
      FinalGroupAlphabet(b);
    } else if |b| >= 3 {
      var s, g, rest := Base64(b), Group(b[0], b[1], b[2]), Base64(b[3..]);
      assert s == g + rest;
      QuadRoundTrip(b[0], b[1], b[2]);
      Base64Alphabet(b[3..]);
      forall i | 0 <= i < |s| ensures IsBase64Char(s[i]) || s[i] == '=' {
        if i >= 4 {
          assert s[i] == rest[i - 4];
        }
      }
    }
  }

  /** A padded final group: alphabet characters, then `=`. */
  lemma FinalGroupAlphabet(b: seq<byte>)
    requires 1 <= |b| <= 2
    ensures forall i | 0 <= i < |Base64(b)| :: IsBase64Char(Base64(b)[i]) || Base64(b)[i] == '='
  {
    Base64CharValue(b[0] / 4);
    if |b| == 1 {
      Base64CharValue(b[0] % 4 * 16);
    } else {
      Base64CharValue(b[0] % 4 * 16 + b[1] / 16);
      Base64CharValue(b[1] % 16 * 4);
    }
  }

  // ---------------------------------------------------------------------------
  // The Basic credential (section 2 of RFC 7617)
  // ---------------------------------------------------------------------------

  /** `'Basic ' + base64(user-id ':' password)`, the user-pass encoded as UTF-8. */
  function BasicCredentials(user: string, password: string): string {
    "Basic " + Base64(Utf8(user + ":" + password))
  }

  /** What a server does with the header: strip the scheme, decode, split at the first colon. */
  function ParseBasicCredentials(header: string): Option<(string, string)> {
    if |header| < 6 || header[..6] != "Basic " then None
    else match Base64Decode(header[6..])
      case None => None
      case Some(bytes) =>
        match Utf8Decode(bytes)
        case None => None
        case Some(pass) =>
          var i := FirstOf(pass, ':');
          if i == |pass| then None else Some((pass[..i], pass[i + 1..]))
  }

  /** A server recovers the user name and password from the header, provided the user name
      has no colon (which section 2 of RFC 7617 forbids). */
  lemma BasicCredentialsParse(user: string, password: string)
    requires ':' !in user
    ensures ParseBasicCredentials(BasicCredentials(user, password)) == Some((user, password))
  {
    var pass := user + ":" + password;
    var h := BasicCredentials(user, password);
    assert h[..6] == "Basic " && h[6..] == Base64(Utf8(pass));
    Base64RoundTrip(Utf8(pass));
    Utf8RoundTrip(pass);
    FirstOfAfter(user, ':', password);
    assert pass[..|user|] == user && pass[|user| + 1..] == password;
  }

  lemma {:induction false} FirstOfAfter(s: string, c: char, t: string)
    requires c !in s
    ensures FirstOf(s + [c] + t, c) == |s|
  {
    if s != [] {
      assert (s + [c] + t)[1..] == s[1..] + [c] + t;
      FirstOfAfter(s[1..], c, t);
    }
  }
}
