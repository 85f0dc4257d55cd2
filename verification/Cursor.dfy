/** The text of a cursor (cappy_common/pagination.py): URL-safe base64 with its
    padding stripped, put back before decoding. The JSON inside is given: a
    rendering, and a parser that undoes it. */
module Cursor {
  import opened Wrappers
  import opened Pagination

  type Byte = x: int | 0 <= x < 256
  type Sextet = x: int | 0 <= x < 64

  function Letter(v: Sextet): char {
    if v < 26 then 'A' + v as char
    else if v < 52 then 'a' + (v - 26) as char
    else if v < 62 then '0' + (v - 52) as char
    else if v == 62 then '-' else '_'
  }

  /** Decoding takes the plain alphabet's last two letters as well, and passes
      over what is in neither. */
  function Value(c: char): Option<Sextet> {
    if 'A' <= c <= 'Z' then Some(c as int - 'A' as int)
    else if 'a' <= c <= 'z' then Some(c as int - 'a' as int + 26)
    else if '0' <= c <= '9' then Some(c as int - '0' as int + 52)
    else if c == '-' || c == '+' then Some(62)
    else if c == '_' || c == '/' then Some(63)
    else None
  }

  /** Only letters of the two alphabets stand for anything. */
  lemma OnlyLetters(c: char)
    ensures Value(c).Some? <==> 'A' <= c <= 'Z' || 'a' <= c <= 'z' || '0' <= c <= '9' || c in {'-', '+', '_', '/'}
    ensures Value(c) == Some(62) <==> c in {'-', '+'}
    ensures Value(c) == Some(63) <==> c in {'_', '/'}
  {}

  lemma LetterValue(v: Sextet)
    ensures Value(Letter(v)) == Some(v) && Letter(v) != '='
  {}

  // --- encoding --------------------------------------------------------------------------------

  function Three(a: Byte, b: Byte, c: Byte): string {
    [Letter(a / 4), Letter(a % 4 * 16 + b / 16), Letter(b % 16 * 4 + c / 64), Letter(c % 64)]
  }

  function Encode(bytes: seq<Byte>): string {
    if bytes == [] then ""
    else if |bytes| == 1 then [Letter(bytes[0] / 4), Letter(bytes[0] % 4 * 16), '=', '=']
    else if |bytes| == 2 then
      [Letter(bytes[0] / 4), Letter(bytes[0] % 4 * 16 + bytes[1] / 16), Letter(bytes[1] % 16 * 4), '=']
    else Three(bytes[0], bytes[1], bytes[2]) + Encode(bytes[3..])
  }

  /** A sextet's letter in the URL-safe alphabet, as its ASCII code. */
  function Code(v: Sextet): int {
    if v <= 25 then 65 + v else if v <= 51 then 71 + v else if v <= 61 then v - 4 else if v == 62 then 45 else 95
  }

  lemma LettersOfTheAlphabet(v: Sextet)
    ensures Letter(v) as int == Code(v)
  {}

  lemma SextetsOf(a: Byte, b: Byte, c: Byte) returns (v: Sextet, w: Sextet, x: Sextet, y: Sextet)
    ensures v == a / 4 && w == a % 4 * 16 + b / 16 && x == b % 16 * 4 + c / 64 && y == c % 64
    ensures v * 262144 + w * 4096 + x * 64 + y == a * 65536 + b * 256 + c
  {
    v, w, x, y := a / 4, a % 4 * 16 + b / 16, b % 16 * 4 + c / 64, c % 64;
    assert a == a / 4 * 4 + a % 4 && b == b / 16 * 16 + b % 16 && c == c / 64 * 64 + c % 64;
  }

  /** The encoding is that of section 5 of RFC 4648: the bits of three bytes, in order,
      as four letters of its alphabet; of one byte or two, as two or three, and padding. */
  lemma EncodesAsStandard(a: Byte, b: Byte, c: Byte) returns (v: Sextet, w: Sextet, x: Sextet, y: Sextet)
    ensures v * 262144 + w * 4096 + x * 64 + y == a * 65536 + b * 256 + c
    ensures var s := Encode([a, b, c]);
      |s| == 4 && s[0] as int == Code(v) && s[1] as int == Code(w) && s[2] as int == Code(x) && s[3] as int == Code(y)
    ensures c == 0 ==>
      var s := Encode([a, b]);
      |s| == 4 && s[0] as int == Code(v) && s[1] as int == Code(w) && s[2] as int == Code(x) && s[3] == '='
    ensures b == c == 0 ==>
      var s := Encode([a]);
      |s| == 4 && s[0] as int == Code(v) && s[1] as int == Code(w) && s[2] == s[3] == '='
  {
    v, w, x, y := SextetsOf(a, b, c);
    LettersOfTheAlphabet(v);
    LettersOfTheAlphabet(w);
    LettersOfTheAlphabet(x);
    LettersOfTheAlphabet(y);
    hide Letter, Code;
    assert [a, b, c][3..] == [] && Encode([]) == "";
    assert Encode([a, b, c]) == Three(a, b, c) + Encode([a, b, c][3..]);
  }

  function RStrip(s: string): string {
    if s != "" && s[|s| - 1] == '=' then RStrip(s[..|s| - 1]) else s
  }

  function Padding(n: nat): string {
    if n % 4 == 0 then "" else if n % 4 == 1 then "===" else if n % 4 == 2 then "==" else "="
  }

  lemma PadsToFour(n: nat)
    ensures |Padding(n)| == (4 - n % 4) % 4 && forall i :: 0 <= i < |Padding(n)| ==> Padding(n)[i] == '='
  {}

  // --- decoding --------------------------------------------------------------------------------

  /** `pos`: how far into a group of four; `left`: its bits not yet used. */
  datatype Group = Group(pos: nat, left: nat, pads: nat)

  predicate InGroup(g: Group) {
    g.pos < 4 && g.left < if g.pos == 1 then 64 else if g.pos == 2 then 16 else if g.pos == 3 then 4 else 1
  }

  const FRESH := Group(0, 0, 0)

  function Decode(s: string, g: Group, out: seq<Byte>): Result<seq<Byte>>
    requires InGroup(g)
    decreases |s|
  {
    if s == "" then
      if g.pos == 0 then Ok(out) else Err(Invalid)
    else if s[0] == '=' then
      if g.pos >= 2 && g.pos + g.pads + 1 >= 4 then Ok(out) else Decode(s[1..], g.(pads := g.pads + 1), out)
    else
      match Value(s[0])
      case None => Decode(s[1..], g, out)
      case Some(v) =>
        if g.pos == 0 then Decode(s[1..], Group(1, v, 0), out)
        else if g.pos == 1 then Decode(s[1..], Group(2, v % 16, 0), out + [g.left * 4 + v / 16])
        else if g.pos == 2 then Decode(s[1..], Group(3, v % 4, 0), out + [g.left * 16 + v / 4])
        else Decode(s[1..], FRESH, out + [g.left * 64 + v])
  }

  lemma OneLetter(v: Sextet, rest: string, g: Group, out: seq<Byte>)
    requires InGroup(g)
    ensures Decode([Letter(v)] + rest, g, out) ==
      if g.pos == 0 then Decode(rest, Group(1, v, 0), out)
      else if g.pos == 1 then Decode(rest, Group(2, v % 16, 0), out + [g.left * 4 + v / 16])
      else if g.pos == 2 then Decode(rest, Group(3, v % 4, 0), out + [g.left * 16 + v / 4])
      else Decode(rest, FRESH, out + [g.left * 64 + v])
  {
    LetterValue(v);
    assert ([Letter(v)] + rest)[1..] == rest;
  }

  lemma Bits(a: Byte, b: Byte, c: Byte)
    ensures a / 4 * 4 + (a % 4 * 16 + b / 16) / 16 == a
    ensures (a % 4 * 16 + b / 16) % 16 * 16 + (b % 16 * 4 + c / 64) / 4 == b
    ensures (b % 16 * 4 + c / 64) % 4 * 64 + c % 64 == c
  {}

  lemma FourLetters(a: Byte, b: Byte, c: Byte, rest: string, out: seq<Byte>)
    ensures Decode(Three(a, b, c) + rest, FRESH, out) == Decode(rest, FRESH, out + [a, b, c])
  {
    hide Decode, Letter;
    var v0, v1, v2, v3 := a / 4, a % 4 * 16 + b / 16, b % 16 * 4 + c / 64, c % 64;
    assert Three(a, b, c) + rest == [Letter(v0)] + ([Letter(v1)] + ([Letter(v2)] + ([Letter(v3)] + rest)));
    Bits(a, b, c);
    OneLetter(v0, [Letter(v1)] + ([Letter(v2)] + ([Letter(v3)] + rest)), FRESH, out);
    OneLetter(v1, [Letter(v2)] + ([Letter(v3)] + rest), Group(1, v0, 0), out);
    OneLetter(v2, [Letter(v3)] + rest, Group(2, v1 % 16, 0), out + [a]);
    OneLetter(v3, rest, Group(3, v2 % 4, 0), out + [a] + [b]);
    assert out + [a] + [b] + [c] == out + [a, b, c];
  }

  lemma TwoLetters(a: Byte, out: seq<Byte>)
    ensures Decode([Letter(a / 4), Letter(a % 4 * 16), '=', '='], FRESH, out) == Ok(out + [a])
  {
    var v0, v1 := a / 4, a % 4 * 16;
    Bits(a, 0, 0);
    hide Letter;
    assert [Letter(v0), Letter(v1), '=', '='] == [Letter(v0)] + ([Letter(v1)] + "==");
    OneLetter(v0, [Letter(v1)] + "==", FRESH, out);
    OneLetter(v1, "==", Group(1, v0, 0), out);
    assert Decode("==", Group(2, 0, 0), out + [a]) == Decode("=="[1..], Group(2, 0, 1), out + [a]);
    assert "=="[1..] == "=";
  }

  lemma ThreeLetters(a: Byte, b: Byte, out: seq<Byte>)
    ensures Decode([Letter(a / 4), Letter(a % 4 * 16 + b / 16), Letter(b % 16 * 4), '='], FRESH, out) == Ok(out + [a, b])
  {
    var v0, v1, v2 := a / 4, a % 4 * 16 + b / 16, b % 16 * 4;
    Bits(a, b, 0);
    hide Letter;
    assert [Letter(v0), Letter(v1), Letter(v2), '='] == [Letter(v0)] + ([Letter(v1)] + ([Letter(v2)] + "="));
    OneLetter(v0, [Letter(v1)] + ([Letter(v2)] + "="), FRESH, out);
    OneLetter(v1, [Letter(v2)] + "=", Group(1, v0, 0), out);
    OneLetter(v2, "=", Group(2, v1 % 16, 0), out + [a]);
    assert out + [a] + [b] == out + [a, b];
  }

  lemma {:induction false} DecodeUndoesEncode(bytes: seq<Byte>, out: seq<Byte>)
    ensures Decode(Encode(bytes), FRESH, out) == Ok(out + bytes)
  {
    hide Letter, Three;
    if bytes == [] {
      assert out + bytes == out;
    } else if |bytes| == 1 {
      TwoLetters(bytes[0], out);
      assert bytes == [bytes[0]];
    } else if |bytes| == 2 {
      ThreeLetters(bytes[0], bytes[1], out);
      assert bytes == [bytes[0], bytes[1]];
    } else {
      hide Decode;
      FourLetters(bytes[0], bytes[1], bytes[2], Encode(bytes[3..]), out);
      DecodeUndoesEncode(bytes[3..], out + [bytes[0], bytes[1], bytes[2]]);
      assert out + [bytes[0], bytes[1], bytes[2]] + bytes[3..] == out + bytes;
    }
  }

  lemma StripsPadding(head: string, pad: string)
    requires head != "" && head[|head| - 1] != '=' && (pad == "" || pad == "=" || pad == "==")
    ensures RStrip(head + pad) == head
  {
    StripTail(head, pad);
    assert "=="[..1] == "=" && "="[..0] == "";
    assert RStrip(pad) == "";
    assert head + "" == head;
  }

  /** Text that stripping and padding give back, and leave something of. */
  predicate ComesBack(s: string) {
    RStrip(s) + Padding(|RStrip(s)|) == s && RStrip(s) != ""
  }

  lemma PaddedComesBack(head: string, pad: string)
    requires 2 <= |head| <= 3 && head[|head| - 1] != '=' && pad == Padding(|head|)
    ensures ComesBack(head + pad)
  {
    hide RStrip;
    StripsPadding(head, pad);
  }

  lemma LongerComesBack(head: string, tail: string)
    requires |head| == 4 && head[3] != '=' && (tail == "" || ComesBack(tail))
    ensures ComesBack(head + tail)
  {
    StripTail(head, tail);
    if tail == "" {
      assert RStrip(tail) == "" && head + "" == head;
    } else {
      hide RStrip;
      assert head + RStrip(tail) + Padding(|RStrip(tail)|) == head + (RStrip(tail) + Padding(|RStrip(tail)|));
    }
  }

  lemma {:induction false} StripThenPad(bytes: seq<Byte>)
    requires bytes != []
    ensures ComesBack(Encode(bytes))
  {
    hide ComesBack;
    if |bytes| == 1 {
      var head := [Letter(bytes[0] / 4), Letter(bytes[0] % 4 * 16)];
      LetterValue(bytes[0] % 4 * 16);
      hide Letter;
      assert Encode(bytes) == head + "==";
      PaddedComesBack(head, "==");
    } else if |bytes| == 2 {
      var head := [Letter(bytes[0] / 4), Letter(bytes[0] % 4 * 16 + bytes[1] / 16), Letter(bytes[1] % 16 * 4)];
      LetterValue(bytes[1] % 16 * 4);
      hide Letter;
      assert Encode(bytes) == head + "=";
      PaddedComesBack(head, "=");
    } else {
      LetterValue(bytes[2] % 64);
      hide Letter;
      if bytes[3..] != [] { StripThenPad(bytes[3..]); }
      LongerComesBack(Three(bytes[0], bytes[1], bytes[2]), Encode(bytes[3..]));
    }
  }

  lemma {:induction false} StripTail(head: string, tail: string)
    requires head != "" && head[|head| - 1] != '='
    ensures RStrip(head + tail) == head + RStrip(tail)
  {
    if tail == "" {
      assert head + tail == head;
    } else if tail[|tail| - 1] == '=' {
      assert (head + tail)[..|head + tail| - 1] == head + tail[..|tail| - 1];
      StripTail(head, tail[..|tail| - 1]);
    }
  }

  // --- cursors -----------------------------------------------------------------------------------

  predicate Ascii(s: string) { forall i :: 0 <= i < |s| ==> s[i] < 128 as char }

  lemma LetterIsAscii(v: Sextet)
    ensures Letter(v) < 128 as char
  {}

  lemma {:induction false} EncodedIsAscii(bytes: seq<Byte>)
    ensures Ascii(Encode(bytes))
  {
    forall v: Sextet ensures Letter(v) < 128 as char { LetterIsAscii(v); }
    hide Letter;
    if |bytes| > 2 { EncodedIsAscii(bytes[3..]); }
  }

  lemma {:induction false} StrippedIsAscii(s: string)
    requires Ascii(s)
    ensures Ascii(RStrip(s))
  {
    if s != "" && s[|s| - 1] == '=' { StrippedIsAscii(s[..|s| - 1]); }
  }

  function EncodeCursor(k: Key, render: Key -> seq<Byte>): string { RStrip(Encode(render(k))) }

  /** No cursor, the place one stands for, or a cursor we did not issue. */
  function DecodeCursor(cursor: Option<string>, parse: seq<Byte> -> Option<Key>): Result<Option<Key>> {
    if cursor.None? || cursor.value == "" then Ok(None)
    else if !Ascii(cursor.value) then Err(Invalid)
    else
      var raw :- Decode(cursor.value + Padding(|cursor.value|), FRESH, []);
      if parse(raw).None? then Err(Invalid) else Ok(parse(raw))
  }

  /** A cursor we issued is read back as the place it stands for. */
  lemma CursorsComeBack(k: Key, render: Key -> seq<Byte>, parse: seq<Byte> -> Option<Key>)
    requires render(k) != [] && parse(render(k)) == Some(k)
    ensures DecodeCursor(Some(EncodeCursor(k, render)), parse) == Ok(Some(k))
  {
    EncodedIsAscii(render(k));
    StrippedIsAscii(Encode(render(k)));
    StripThenPad(render(k));
    DecodeUndoesEncode(render(k), []);
    assert [] + render(k) == render(k);
  }
}
