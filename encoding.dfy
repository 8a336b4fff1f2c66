/** The byte encodings the Gmail encoder chains together:
    `unescape(encodeURIComponent(s))` is the UTF-8 encoding of `s` (RFC 3629),
    `btoa` is base64 with the standard alphabet and padding (section 4 of
    RFC 4648), and the URL-safe alphabet is the one of section 5 of RFC 4648.
    Each encoder comes with the decoder that undoes it. */
module Encoding {
  import opened Options

  type byte = x: nat | x < 256

  // ---------------------------------------------------------------------------
  // UTF-8

  predicate IsContinuation(b: byte) {
    0x80 <= b < 0xC0
  }

  /** The UTF-8 bytes of one Unicode scalar value. */
  function CharBytes(c: char): (r: seq<byte>)
    ensures 1 <= |r| <= 4
    ensures (c as int < 0x80) <==> |r| == 1
    ensures forall k :: 1 <= k < |r| ==> IsContinuation(r[k])
  {
    var n := c as int;
    if n < 0x80 then [n]
    else if n < 0x800 then [0xC0 + n / 64, 0x80 + n % 64]
    else if n < 0x10000 then [0xE0 + n / 4096, 0x80 + (n / 64) % 64, 0x80 + n % 64]
    else [0xF0 + n / 0x40000, 0x80 + (n / 4096) % 64, 0x80 + (n / 64) % 64, 0x80 + n % 64]
  }

  function Utf8(s: string): (r: seq<byte>)
    ensures |r| >= |s|
  {
    if s == [] then [] else CharBytes(s[0]) + Utf8(s[1..])
  }

  lemma {:induction false} Utf8Append(a: string, b: string)
    ensures Utf8(a + b) == Utf8(a) + Utf8(b)
    decreases |a|
  {
    if a == [] {
      assert a + b == b;
    } else {
      assert (a + b)[1..] == a[1..] + b;
      Utf8Append(a[1..], b);
    }
  }

  /** Text made of ASCII characters is encoded one byte per character, as the
      character's own code. */
  lemma {:induction false} Utf8Ascii(s: string)
    requires forall i :: 0 <= i < |s| ==> s[i] as int < 0x80
    ensures |Utf8(s)| == |s|
    ensures forall i :: 0 <= i < |s| ==> Utf8(s)[i] == s[i] as int
    decreases |s|
  {
    if s != [] {
      Utf8Ascii(s[1..]);
    }
  }

  /** The scalar value `n` decoded from `len` bytes, if it is one. */
  function Scalar(n: int, len: nat): Option<(char, nat)> {
    if 0 <= n < 0xD800 || 0xE000 <= n < 0x110000 then Some((n as char, len)) else None
  }

  /** The character the bytes start with, and how many bytes it takes. */
  function DecodeChar(b: seq<byte>): (r: Option<(char, nat)>)
    requires |b| > 0
    ensures r.Some? ==> 1 <= r.value.1 <= |b|
  {
    var x0 := b[0] as int;
    var x1 := if |b| >= 2 then b[1] as int else 0;
    var x2 := if |b| >= 3 then b[2] as int else 0;
    var x3 := if |b| >= 4 then b[3] as int else 0;
    if x0 < 0x80 then Scalar(x0, 1)
    else if 0xC0 <= x0 < 0xE0 && |b| >= 2 && IsContinuation(b[1]) then
      Scalar((x0 - 0xC0) * 64 + (x1 - 0x80), 2)
    else if 0xE0 <= x0 < 0xF0 && |b| >= 3 && IsContinuation(b[1]) && IsContinuation(b[2]) then
      Scalar((x0 - 0xE0) * 4096 + (x1 - 0x80) * 64 + (x2 - 0x80), 3)
    else if 0xF0 <= x0 < 0xF8 && |b| >= 4 && IsContinuation(b[1]) && IsContinuation(b[2]) && IsContinuation(b[3]) then
      Scalar((x0 - 0xF0) * 0x40000 + (x1 - 0x80) * 4096 + (x2 - 0x80) * 64 + (x3 - 0x80), 4)
    else None
  }

  function Utf8Decode(b: seq<byte>): Option<string>
    decreases |b|
  {
    if b == [] then Some("")
    else match DecodeChar(b)
      case None => None
      case Some((c, k)) =>
        match Utf8Decode(b[k..])
        case None => None
        case Some(rest) => Some([c] + rest)
  }

  lemma DivMod64(n: int)
    requires n >= 0
    ensures n == (n / 64) * 64 + n % 64
    ensures n / 64 == (n / 4096) * 64 + (n / 64) % 64
    ensures n / 4096 == (n / 0x40000) * 64 + (n / 4096) % 64
  {
  }

  lemma DecodeCharBytes(c: char, rest: seq<byte>)
    ensures DecodeChar(CharBytes(c) + rest) == Some((c, |CharBytes(c)|))
  {
    var n := c as int;
    var b := CharBytes(c) + rest;
    DivMod64(n);
    if n < 0x80 {
    } else if n < 0x800 {
      assert (b[0] as int - 0xC0) * 64 + (b[1] as int - 0x80) == n;
    } else if n < 0x10000 {
      assert (b[0] as int - 0xE0) * 4096 + (b[1] as int - 0x80) * 64 + (b[2] as int - 0x80) == n;
    } else {
      assert (b[0] as int - 0xF0) * 0x40000 + (b[1] as int - 0x80) * 4096 + (b[2] as int - 0x80) * 64 + (b[3] as int - 0x80) == n;
    }
  }

  /** Decoding the UTF-8 encoding of a text gives the text back. */
  lemma {:induction false} Utf8RoundTrip(s: string)
    ensures Utf8Decode(Utf8(s)) == Some(s)
    decreases |s|
  {
    if s != [] {
      var b := Utf8(s);
      DecodeCharBytes(s[0], Utf8(s[1..]));
      assert b[|CharBytes(s[0])|..] == Utf8(s[1..]);
      Utf8RoundTrip(s[1..]);
      assert [s[0]] + s[1..] == s;
    }
  }

  // ---------------------------------------------------------------------------
  // Base64

  /** The standard alphabet, or with `urlSafe` the URL and filename safe one. */
  function Sextet(i: nat, urlSafe: bool): (c: char)
    requires i < 64
  {
    if i < 26 then ('A' as int + i) as char
    else if i < 52 then ('a' as int + i - 26) as char
    else if i < 62 then ('0' as int + i - 52) as char
    else if i == 62 then (if urlSafe then '-' else '+')
    else (if urlSafe then '_' else '/')
  }

  predicate InAlphabet(c: char, urlSafe: bool) {
    || 'A' <= c <= 'Z' || 'a' <= c <= 'z' || '0' <= c <= '9'
    || c == (if urlSafe then '-' else '+')
    || c == (if urlSafe then '_' else '/')
  }

  /** The index of an alphabet character. */
  function SextetValue(c: char, urlSafe: bool): (r: Option<nat>)
    ensures r.Some? <==> InAlphabet(c, urlSafe)
    ensures r.Some? ==> r.value < 64 && Sextet(r.value, urlSafe) == c
  {
    if 'A' <= c <= 'Z' then Some(c as int - 'A' as int)
    else if 'a' <= c <= 'z' then Some(c as int - 'a' as int + 26)
    else if '0' <= c <= '9' then Some(c as int - '0' as int + 52)
    else if c == (if urlSafe then '-' else '+') then Some(62)
    else if c == (if urlSafe then '_' else '/') then Some(63)
    else None
  }

  lemma SextetRoundTrip(i: nat, urlSafe: bool)
    requires i < 64
    ensures InAlphabet(Sextet(i, urlSafe), urlSafe)
    ensures SextetValue(Sextet(i, urlSafe), urlSafe) == Some(i)
  {
  }

  /** The sextets of up to three bytes: each byte gives its bits to two
      sextets, and a short group is filled with zero bits. */
  function Sextets(g: seq<byte>): (v: seq<nat>)
    requires 1 <= |g| <= 3
    ensures |v| == |g| + 1 && forall i :: 0 <= i < |v| ==> v[i] < 64
  {
    var x1 := if |g| >= 2 then g[1] else 0;
    var x2 := if |g| == 3 then g[2] else 0;
    [g[0] / 4, (g[0] % 4) * 16 + x1 / 16, (x1 % 16) * 4 + x2 / 64, x2 % 64][..|g| + 1]
  }

  /** Each sextet as its alphabet character. */
  function Chars(v: seq<nat>, urlSafe: bool): (r: string)
    requires forall i :: 0 <= i < |v| ==> v[i] < 64
  {
    seq(|v|, i requires 0 <= i < |v| => Sextet(v[i], urlSafe))
  }

  /** Up to three bytes as two to four alphabet characters, unpadded. */
  function Chunk(g: seq<byte>, urlSafe: bool): (r: string)
    requires 1 <= |g| <= 3
    ensures |r| == |g| + 1
  {
    Chars(Sextets(g), urlSafe)
  }

  function Repeat(c: char, k: nat): (r: string)
    ensures |r| == k && forall i :: 0 <= i < k ==> r[i] == c
  {
    if k == 0 then "" else [c] + Repeat(c, k - 1)
  }

  /** Base64 of `b` in groups of three bytes; with `padded`, a short last group
      is followed by '=' up to four characters. `btoa` is
      `Encode(b, false, true)`. */
  function Encode(b: seq<byte>, urlSafe: bool, padded: bool): (r: string)
    ensures padded ==> |r| % 4 == 0 && |r| == 4 * ((|b| + 2) / 3)
    ensures !padded ==> |r| == |b| + (|b| + 2) / 3
    decreases |b|
  {
    if |b| == 0 then ""
    else if |b| <= 3 then Chunk(b, urlSafe) + (if padded then Repeat('=', 3 - |b|) else "")
    else Chunk(b[..3], urlSafe) + Encode(b[3..], urlSafe, padded)
  }

  lemma ChunkAlphabet(g: seq<byte>, urlSafe: bool)
    requires 1 <= |g| <= 3
    ensures forall i :: 0 <= i < |Chunk(g, urlSafe)| ==> InAlphabet(Chunk(g, urlSafe)[i], urlSafe)
  {
    var v := Sextets(g);
    forall i | 0 <= i < |v| ensures InAlphabet(Chunk(g, urlSafe)[i], urlSafe) {
      SextetRoundTrip(v[i], urlSafe);
    }
  }

  /** Unpadded output uses only the alphabet. */
  lemma {:induction false} EncodeAlphabet(b: seq<byte>, urlSafe: bool)
    ensures forall i :: 0 <= i < |Encode(b, urlSafe, false)| ==> InAlphabet(Encode(b, urlSafe, false)[i], urlSafe)
    decreases |b|
  {
    if 0 < |b| <= 3 {
      ChunkAlphabet(b, urlSafe);
      assert Encode(b, urlSafe, false) == Chunk(b, urlSafe);
    } else if |b| > 3 {
      ChunkAlphabet(b[..3], urlSafe);
      EncodeAlphabet(b[3..], urlSafe);
    }
  }

  /** Padded output is the unpadded output followed by '=' characters. */
  lemma {:induction false} EncodePadding(b: seq<byte>, urlSafe: bool)
    ensures Encode(b, urlSafe, true) == Encode(b, urlSafe, false) + Repeat('=', (3 - |b| % 3) % 3)
    decreases |b|
  {
    if 0 < |b| <= 3 {
      assert (3 - |b| % 3) % 3 == 3 - |b|;
      assert Encode(b, urlSafe, false) == Chunk(b, urlSafe) + "";
      assert Encode(b, urlSafe, true) == Encode(b, urlSafe, false) + Repeat('=', 3 - |b|);
    } else if |b| == 0 {
      assert Repeat('=', 0) == "";
    } else {
      var n := |b| - 3;
      assert |b[3..]| == n && |b| == n + 3;
      assert (n + 3) % 3 == n % 3;
      var k := (3 - |b| % 3) % 3;
      assert k == (3 - |b[3..]| % 3) % 3;
      var c, pad := Chunk(b[..3], urlSafe), Repeat('=', k);
      EncodePadding(b[3..], urlSafe);
      calc {
        Encode(b, urlSafe, true);
        c + Encode(b[3..], urlSafe, true);
        c + (Encode(b[3..], urlSafe, false) + pad);
        (c + Encode(b[3..], urlSafe, false)) + pad;
        Encode(b, urlSafe, false) + pad;
      }
    }
  }

  /** The sextets two to four characters stand for; None when one of them
      is outside the alphabet. */
  function Values(s: string, urlSafe: bool): (r: Option<seq<nat>>)
    ensures r.Some? ==> |r.value| == |s|
  {
    if forall i :: 0 <= i < |s| ==> InAlphabet(s[i], urlSafe)
    then Some(seq(|s|, i requires 0 <= i < |s| && InAlphabet(s[i], urlSafe) => SextetValue(s[i], urlSafe).value))
    else None
  }

  /** The bytes whose bits two to four sextets carry; the fill bits of a
      short group are dropped. */
  function Bytes(v: seq<nat>): (r: seq<byte>)
    requires 2 <= |v| <= 4 && forall i :: 0 <= i < |v| ==> v[i] < 64
    ensures |r| == |v| - 1
  {
    var v2 := if |v| >= 3 then v[2] else 0;
    var v3 := if |v| == 4 then v[3] else 0;
    [v[0] * 4 + v[1] / 16, (v[1] % 16) * 16 + v2 / 4, (v2 % 4) * 64 + v3][..|v| - 1]
  }

  /** The bytes two to four alphabet characters stand for. */
  function DecodeChunk(s: string, urlSafe: bool): (r: Option<seq<byte>>)
    requires 2 <= |s| <= 4
    ensures r.Some? ==> |r.value| == |s| - 1
  {
    match Values(s, urlSafe)
    case None => None
    case Some(v) => Some(Bytes(v))
  }

  /** Unpadded base64 back to bytes; None when a character is outside the
      alphabet or the length leaves a lone character. */
  function Decode(s: string, urlSafe: bool): Option<seq<byte>>
    decreases |s|
  {
    if |s| == 0 then Some([])
    else if |s| == 1 then None
    else if |s| <= 4 then DecodeChunk(s, urlSafe)
    else match (DecodeChunk(s[..4], urlSafe), Decode(s[4..], urlSafe))
      case (Some(g), Some(rest)) => Some(g + rest)
      case _ => None
  }

  /** Regrouping three bytes into four sextets and back is the identity. */
  lemma Regroup(x0: nat, x1: nat, x2: nat)
    requires x0 < 256 && x1 < 256 && x2 < 256
    ensures var v1 := (x0 % 4) * 16 + x1 / 16;
            var v2 := (x1 % 16) * 4 + x2 / 64;
            v1 < 64 && v2 < 64 &&
            v1 / 16 == x0 % 4 && v1 % 16 == x1 / 16 &&
            v2 / 4 == x1 % 16 && v2 % 4 == x2 / 64 &&
            (x0 / 4) * 4 + v1 / 16 == x0 &&
            (v1 % 16) * 16 + v2 / 4 == x1 &&
            (v2 % 4) * 64 + x2 % 64 == x2
  {
    var v1 := (x0 % 4) * 16 + x1 / 16;
    var v2 := (x1 % 16) * 4 + x2 / 64;
    assert v1 / 16 == x0 % 4 && v1 % 16 == x1 / 16;
    assert v2 / 4 == x1 % 16 && v2 % 4 == x2 / 64;
  }

  /** Reading the characters of sextets gives the sextets back. */
  lemma ValuesChars(v: seq<nat>, urlSafe: bool)
    requires forall i :: 0 <= i < |v| ==> v[i] < 64
    ensures Values(Chars(v, urlSafe), urlSafe) == Some(v)
  {
    var s := Chars(v, urlSafe);
    forall i | 0 <= i < |v| ensures InAlphabet(s[i], urlSafe) && SextetValue(s[i], urlSafe) == Some(v[i]) {
      SextetRoundTrip(v[i], urlSafe);
    }
    var w := seq(|s|, i requires 0 <= i < |s| && InAlphabet(s[i], urlSafe) => SextetValue(s[i], urlSafe).value);
    assert Values(s, urlSafe) == Some(w);
    assert w == v;
  }

  /** Regrouping the sextets of a group gives the group back. */
  lemma BytesSextets(g: seq<byte>)
    requires 1 <= |g| <= 3
    ensures Bytes(Sextets(g)) == g
  {
    var x1 := if |g| >= 2 then g[1] else 0;
    var x2 := if |g| == 3 then g[2] else 0;
    Regroup(g[0], x1, x2);
  }

  lemma ChunkRoundTrip(g: seq<byte>, urlSafe: bool)
    requires 1 <= |g| <= 3
    ensures DecodeChunk(Chunk(g, urlSafe), urlSafe) == Some(g)
  {
    ValuesChars(Sextets(g), urlSafe);
    BytesSextets(g);
  }

  /** Decoding unpadded base64 gives the bytes back. */
  lemma {:induction false} DecodeEncode(b: seq<byte>, urlSafe: bool)
    ensures Decode(Encode(b, urlSafe, false), urlSafe) == Some(b)
    decreases |b|
  {
    if 0 < |b| <= 3 {
      ChunkRoundTrip(b, urlSafe);
      assert Encode(b, urlSafe, false) == Chunk(b, urlSafe);
    } else if |b| > 3 {
      var s := Encode(b, urlSafe, false);
      ChunkRoundTrip(b[..3], urlSafe);
      DecodeEncode(b[3..], urlSafe);
      assert s[..4] == Chunk(b[..3], urlSafe);
      assert s[4..] == Encode(b[3..], urlSafe, false);
      assert b[..3] + b[3..] == b;
    }
  }

  // ---------------------------------------------------------------------------
  // Trailing characters

  /** `s.replace(/c+$/, '')`: the maximal run of `c` at the end removed. */
  function TrimTrailing(s: string, c: char): (r: string)
    ensures |r| <= |s| && r == s[..|r|]
    ensures forall i :: |r| <= i < |s| ==> s[i] == c
    ensures r == [] || r[|r| - 1] != c
    decreases |s|
  {
    if s != [] && s[|s| - 1] == c then TrimTrailing(s[..|s| - 1], c) else s
  }

  lemma {:induction false} TrimTrailingRepeat(x: string, c: char, k: nat)
    requires x == [] || x[|x| - 1] != c
    ensures TrimTrailing(x + Repeat(c, k), c) == x
    decreases k
  {
    if k == 0 {
      assert x + Repeat(c, 0) == x;
    } else {
      var s := x + Repeat(c, k);
      assert s[..|s| - 1] == x + Repeat(c, k - 1);
      TrimTrailingRepeat(x, c, k - 1);
    }
  }

  /** Padded base64 back to bytes: the length must be a multiple of four and
      the padding is dropped before decoding. */
  function DecodePadded(s: string, urlSafe: bool): Option<seq<byte>> {
    if |s| % 4 != 0 then None else Decode(TrimTrailing(s, '='), urlSafe)
  }

  /** `atob(btoa(b)) == b`. */
  lemma DecodePaddedEncode(b: seq<byte>, urlSafe: bool)
    ensures DecodePadded(Encode(b, urlSafe, true), urlSafe) == Some(b)
  {
    var u := Encode(b, urlSafe, false);
    EncodePadding(b, urlSafe);
    EncodeAlphabet(b, urlSafe);
    if u != [] {
      assert InAlphabet(u[|u| - 1], urlSafe);
    }
    TrimTrailingRepeat(u, '=', (3 - |b| % 3) % 3);
    DecodeEncode(b, urlSafe);
  }
}
