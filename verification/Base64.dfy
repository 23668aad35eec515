/** Base64 output (`b64`) against a strict decoder written from section 4 of RFC 4648. */
module Base64 {
  import opened Options
  import opened Division

  type Byte = n: int | 0 <= n < 256

  /** `A` to `Z`, `a` to `z`, `0` to `9`, `+` and `/`. */
  const ALPHABET: string := Range('A', 26) + Range('a', 26) + Range('0', 10) + "+/"

  function Range(first: char, n: nat): (s: string)
    requires first as int + n < 0xD800
    ensures |s| == n && forall i :: 0 <= i < n ==> s[i] == first + i as char
  {
    seq(n, i requires 0 <= i < n => first + i as char)
  }

  // ---------- the program's encoder ----------

  /** A chunk of up to three bytes as one 24-bit number; missing bytes count as zero. */
  function Pack(chunk: seq<Byte>): (n: nat)
    requires 1 <= |chunk| <= 3
    ensures n < 0x100_0000
  {
    var x: int := chunk[0];
    var y: int := if |chunk| > 1 then chunk[1] else 0;
    var z: int := if |chunk| > 2 then chunk[2] else 0;
    x * 0x1_0000 + y * 0x100 + z
  }

  function Letter(n: nat): char {
    ALPHABET[n % 64]
  }

  function Quad(chunk: seq<Byte>): (s: string)
    requires 1 <= |chunk| <= 3
    ensures |s| == 4
  {
    var n := Pack(chunk);
    [Letter(n / 0x4_0000), Letter(n / 0x1000),
     if |chunk| > 1 then Letter(n / 0x40) else '=', if |chunk| > 2 then Letter(n) else '=']
  }

  function Chunk(data: seq<Byte>): seq<Byte> {
    if |data| <= 3 then data else data[..3]
  }

  function Encode(data: seq<Byte>): string {
    if data == [] then "" else Quad(Chunk(data)) + Encode(data[|Chunk(data)|..])
  }

  method B64(data: seq<Byte>) returns (o: string)
    ensures o == Encode(data)
  {
    hide Letter, Pack, Encode;
    assert data[0..] == data;
    o := "";
    var i := 0;
    while i < |data|
      invariant 0 <= i <= |data|
      invariant o + Encode(data[i..]) == Encode(data)
    {
      var end := if i + 3 <= |data| then i + 3 else |data|;
      var c := data[i..end];
      var n := Pack(c);
      var third := if |c| > 1 then Letter(n / 0x40) else '=';
      var fourth := if |c| > 2 then Letter(n) else '=';
      var quad := [Letter(n / 0x4_0000), Letter(n / 0x1000), third, fourth];
      assert quad == Quad(c);
      EncodeStep(data, i, end);
      assert o + quad + Encode(data[end..]) == o + (quad + Encode(data[end..]));
      o := o + quad;
      i := end;
    }
    EncodeNothing(data);
  }

  lemma EncodeNothing(data: seq<Byte>)
    ensures Encode(data[|data|..]) == ""
  {
  }

  lemma EncodeStep(data: seq<Byte>, i: nat, end: nat)
    requires i < |data| && end == if i + 3 <= |data| then i + 3 else |data|
    ensures Encode(data[i..]) == Quad(data[i..end]) + Encode(data[end..])
  {
    var rest := data[i..];
    assert Chunk(rest) == data[i..end] && rest[|Chunk(rest)|..] == data[end..];
  }

  // ---------- the decoder ----------

  /** The value of a character, by the ranges of Table 1 of RFC 4648; -1 outside the alphabet. */
  function Value(c: char): (v: int)
    ensures -1 <= v < 64
  {
    if 'A' <= c <= 'Z' then (c - 'A') as int
    else if 'a' <= c <= 'z' then (c - 'a') as int + 26
    else if '0' <= c <= '9' then (c - '0') as int + 52
    else if c == '+' then 62
    else if c == '/' then 63
    else -1
  }

  /** The bytes of one quad: three, or fewer when it is padded; unused bits must be zero. */
  function DecodeQuad(s: string): (r: Option<seq<Byte>>)
    requires |s| == 4
    ensures r.Some? ==> 1 <= |r.value| <= 3
  {
    var a, b, c, d := Value(s[0]), Value(s[1]), Value(s[2]), Value(s[3]);
    if a < 0 || b < 0 then None
    else if s[2] == '=' && s[3] == '=' then
      if b % 16 != 0 then None else Some([a * 4 + b / 16])
    else if c < 0 then None
    else if s[3] == '=' then
      if c % 4 != 0 then None else Some([a * 4 + b / 16, b % 16 * 16 + c / 4])
    else if d < 0 then None
    else Some([a * 4 + b / 16, b % 16 * 16 + c / 4, c % 4 * 64 + d])
  }

  /** Quads in order; only the last may be padded. */
  function Decode(s: string): (r: Option<seq<Byte>>) {
    if s == "" then Some([])
    else if |s| < 4 then None
    else
      var first := DecodeQuad(s[..4]);
      var rest := Decode(s[4..]);
      if first.None? || rest.None? || (|first.value| < 3 && s[4..] != "") then None
      else Some(first.value + rest.value)
  }

  // ---------- round trips ----------

  lemma LetterValue(n: nat)
    ensures Value(Letter(n)) == n % 64 && Letter(n) != '='
  {
    var i := n % 64;
    assert |ALPHABET| == 64;
    if i < 26 {
      assert ALPHABET[i] == 'A' + i as char;
    } else if i < 52 {
      assert ALPHABET[i] == 'a' + (i - 26) as char;
    } else if i < 62 {
      assert ALPHABET[i] == '0' + (i - 52) as char;
    } else {
      assert ALPHABET[62] == '+' && ALPHABET[63] == '/';
    }
  }

  lemma ValueLetter(c: char)
    requires Value(c) >= 0
    ensures Letter(Value(c)) == c
  {
    LetterValue(Value(c));
  }

  /** How three bytes lie in four six-bit groups. */
  lemma Sextets(x: Byte, y: Byte, z: Byte)
    ensures var n := x * 0x1_0000 + y * 0x100 + z;
      && n / 0x4_0000 % 64 == x / 4
      && n / 0x1000 % 64 == x % 4 * 16 + y / 16
      && n / 0x40 % 64 == y % 16 * 4 + z / 64
      && n % 64 == z % 64
  {
    var n: int := x * 0x1_0000 + y * 0x100 + z;
    var x1: int, y1: int := x % 4, y % 16;
    Quotient(n, 0x4_0000, x / 4, x1 * 0x1_0000 + y * 0x100 + z);
    Quotient(n, 0x1000, x * 16 + y / 16, y1 * 0x100 + z);
    Quotient(x * 16 + y / 16, 64, x / 4, x1 * 16 + y / 16);
    Quotient(n, 0x40, x * 0x400 + y * 4 + z / 64, z % 64);
    Quotient(x * 0x400 + y * 4 + z / 64, 64, x * 16 + y / 16, y1 * 4 + z / 64);
  }

  function At(chunk: seq<Byte>, i: nat): Byte {
    if i < |chunk| then chunk[i] else 0
  }

  lemma QuadLetters(chunk: seq<Byte>)
    requires 1 <= |chunk| <= 3
    ensures var x, y, z := At(chunk, 0), At(chunk, 1), At(chunk, 2);
      Quad(chunk) == [Letter(x / 4), Letter(x % 4 * 16 + y / 16),
                      if |chunk| > 1 then Letter(y % 16 * 4 + z / 64) else '=',
                      if |chunk| > 2 then Letter(z % 64) else '=']
  {
    var n := Pack(chunk);
    Sextets(At(chunk, 0), At(chunk, 1), At(chunk, 2));
    LetterPeriod(n / 0x4_0000);
    LetterPeriod(n / 0x1000);
    LetterPeriod(n / 0x40);
    LetterPeriod(n);
    hide Letter;
  }

  lemma LetterPeriod(n: nat)
    ensures Letter(n) == Letter(n % 64)
  {
  }

  lemma Regroup(x: Byte, y: Byte, z: Byte)
    ensures var a, b, c, d := x / 4, x % 4 * 16 + y / 16, y % 16 * 4 + z / 64, z % 64;
      && a * 4 + b / 16 == x && b % 16 * 16 + c / 4 == y && c % 4 * 64 + d == z
      && (y == 0 ==> b % 16 == 0) && (z == 0 ==> c % 4 == 0)
  {
    var x1, y1, z1 := x % 4, y % 16, z % 64;
    assert (x1 * 16 + y / 16) / 16 == x1 && (x1 * 16 + y / 16) % 16 == y / 16;
    assert (y1 * 4 + z / 64) / 4 == y1 && (y1 * 4 + z / 64) % 4 == z / 64;
  }

  lemma LettersDecode(a: nat, b: nat, c: nat, d: nat)
    requires a < 64 && b < 64 && c < 64 && d < 64
    ensures DecodeQuad([Letter(a), Letter(b), Letter(c), Letter(d)])
      == Some([a * 4 + b / 16, b % 16 * 16 + c / 4, c % 4 * 64 + d])
  {
    hide Letter, Value;
    LetterValue(a);
    LetterValue(b);
    LetterValue(c);
    LetterValue(d);
  }

  lemma PaddedDecode(a: nat, b: nat, c: nat)
    requires a < 64 && b < 64 && c < 64
    ensures c % 4 == 0 ==>
      DecodeQuad([Letter(a), Letter(b), Letter(c), '=']) == Some([a * 4 + b / 16, b % 16 * 16 + c / 4])
    ensures b % 16 == 0 ==> DecodeQuad([Letter(a), Letter(b), '=', '=']) == Some([a * 4 + b / 16])
  {
    hide Letter, Value;
    LetterValue(a);
    LetterValue(b);
    LetterValue(c);
  }

  lemma QuadDecodes(chunk: seq<Byte>)
    requires 1 <= |chunk| <= 3
    ensures DecodeQuad(Quad(chunk)) == Some(chunk)
  {
    hide Letter, Value, Quad, DecodeQuad;
    var x, y, z := At(chunk, 0), At(chunk, 1), At(chunk, 2);
    QuadLetters(chunk);
    LettersDecode(x / 4, x % 4 * 16 + y / 16, y % 16 * 4 + z / 64, z % 64);
    PaddedDecode(x / 4, x % 4 * 16 + y / 16, y % 16 * 4 + z / 64);
    Regroup(x, y, z);
    assert chunk == if |chunk| == 1 then [x] else if |chunk| == 2 then [x, y] else [x, y, z];
  }

  /** The encoder loses nothing: decoding its output gives the bytes back. */
  lemma {:induction false} DecodeEncode(data: seq<Byte>)
    ensures Decode(Encode(data)) == Some(data)
  {
    hide Quad, DecodeQuad;
    if data != [] {
      var c := Chunk(data);
      var s := Encode(data);
      assert s[..4] == Quad(c) && s[4..] == Encode(data[|c|..]);
      QuadDecodes(c);
      DecodeEncode(data[|c|..]);
      assert c + data[|c|..] == data;
    }
  }

  lemma Ungroup(a: nat, b: nat, c: nat, d: nat)
    requires a < 64 && b < 64 && c < 64 && d < 64
    ensures var x, y, z := a * 4 + b / 16, b % 16 * 16 + c / 4, c % 4 * 64 + d;
      && x / 4 == a && x % 4 * 16 + y / 16 == b && y % 16 * 4 + z / 64 == c && z % 64 == d
  {
    Quotient(a * 4 + b / 16, 4, a, b / 16);
    Quotient(b % 16 * 16 + c / 4, 16, b % 16, c / 4);
    Quotient(c % 4 * 64 + d, 64, c % 4, d);
  }

  lemma QuadOfDecoded(s: string)
    requires |s| == 4 && DecodeQuad(s).Some?
    ensures Quad(DecodeQuad(s).value) == s
  {
    hide Letter, Value, Quad;
    var chunk := DecodeQuad(s).value;
    var a, b := Value(s[0]), Value(s[1]);
    var c, d := if |chunk| > 1 then Value(s[2]) else 0, if |chunk| > 2 then Value(s[3]) else 0;
    ValueLetter(s[0]);
    ValueLetter(s[1]);
    if |chunk| > 1 {
      ValueLetter(s[2]);
    }
    if |chunk| > 2 {
      ValueLetter(s[3]);
    }
    Ungroup(a, b, c, d);
    QuadLetters(chunk);
    assert At(chunk, 0) == a * 4 + b / 16;
    assert At(chunk, 1) == b % 16 * 16 + c / 4;
    assert At(chunk, 2) == c % 4 * 64 + d;
  }

  /** And nothing else decodes: what the decoder accepts is exactly the encoder's output. */
  lemma {:induction false} DecodesOnlyEncodings(s: string)
    requires Decode(s).Some?
    ensures Encode(Decode(s).value) == s
  {
    hide Quad, DecodeQuad;
    if s != "" {
      var first, rest := DecodeQuad(s[..4]).value, Decode(s[4..]).value;
      QuadOfDecoded(s[..4]);
      DecodesOnlyEncodings(s[4..]);
      var data := first + rest;
      if |first| < 3 {
        assert rest == [] && data == first;
      }
      assert Chunk(data) == first && data[|first|..] == rest;
      assert s[..4] + s[4..] == s;
    }
  }

  // ---------- length, alphabet and padding ----------

  predicate InAlphabet(c: char) { Value(c) >= 0 }

  function Padding(n: nat): nat {
    if n % 3 == 0 then 0 else 3 - n % 3
  }

  /** Four characters for every three bytes begun; all but the last `Padding` in the
      alphabet, and those last ones `=`. */
  lemma {:induction false} Layout(data: seq<Byte>)
    ensures var s := Encode(data);
      && |s| == 4 * ((|data| + 2) / 3) && Padding(|data|) <= |s|
      && (forall i :: 0 <= i < |s| - Padding(|data|) ==> InAlphabet(s[i]))
      && (forall i :: |s| - Padding(|data|) <= i < |s| ==> s[i] == '=')
  {
    hide InAlphabet, Quad;
    if data != [] {
      var c := Chunk(data);
      var rest := data[|c|..];
      QuadLayout(c);
      var s, t := Encode(data), Encode(rest);
      assert s == Quad(c) + t;
      if |data| <= 3 {
        assert rest == [] && s == Quad(c);
      } else {
        Layout(rest);
        assert Padding(|data|) == Padding(|rest|);
        assert forall i :: 4 <= i < |s| ==> s[i] == t[i - 4];
        assert forall i :: 0 <= i < 4 ==> s[i] == Quad(c)[i];
      }
    }
  }

  lemma QuadLayout(chunk: seq<Byte>)
    requires 1 <= |chunk| <= 3
    ensures forall i :: 0 <= i <= |chunk| ==> InAlphabet(Quad(chunk)[i])
    ensures forall i :: |chunk| < i < 4 ==> Quad(chunk)[i] == '='
  {
    var n := Pack(chunk);
    LetterValue(n / 0x4_0000);
    LetterValue(n / 0x1000);
    LetterValue(n / 0x40);
    LetterValue(n);
    hide Letter, Value;
  }
}
