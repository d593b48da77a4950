// UTF-8 as section 3 of RFC 3629 defines it: what `as_bytes`, `len` and
// `String::from_utf8` mean for the strings in app/src-tauri/src/local_files.rs.
module Utf8 {
  import opened Bytes

  // The bytes of one character.
  function EncodeChar(c: char): (b: Bytes)
    ensures 1 <= |b| <= 4
  {
    var n := c as int;
    if n < 0x80 then [n]
    else if n < 0x800 then [0xC0 + n / 64, 0x80 + n % 64]
    else if n < 0x10000 then [0xE0 + n / 64 / 64, 0x80 + n / 64 % 64, 0x80 + n % 64]
    else [0xF0 + n / 64 / 64 / 64, 0x80 + n / 64 / 64 % 64, 0x80 + n / 64 % 64, 0x80 + n % 64]
  }

  function Encode(s: string): Bytes {
    if s == "" then [] else EncodeChar(s[0]) + Encode(s[1..])
  }

  // The length a lead byte announces; 0 if it cannot lead.
  function Width(lead: byte): (w: nat)
    ensures w <= 4
  {
    if lead < 0x80 then 1
    else if lead < 0xC0 then 0
    else if lead < 0xE0 then 2
    else if lead < 0xF0 then 3
    else if lead < 0xF8 then 4
    else 0
  }

  predicate IsContinuation(b: byte) {
    0x80 <= b < 0xC0
  }

  // n followed by the six bits of a continuation byte.
  function Append6(n: nat, b: byte): (m: nat)
    requires IsContinuation(b)
    ensures m / 64 == n && m % 64 == b - 0x80
  {
    n * 64 + (b as int - 0x80)
  }

  predicate Spells(b: Bytes) {
    1 <= |b| <= 4 && Width(b[0]) == |b| && forall i :: 1 <= i < |b| ==> IsContinuation(b[i])
  }

  // The number those bytes spell, whether or not it is a character.
  function Value(b: Bytes): (n: nat)
    requires Spells(b)
  {
    if |b| == 1 then b[0]
    else if |b| == 2 then Append6(b[0] as int - 0xC0, b[1])
    else if |b| == 3 then Append6(Append6(b[0] as int - 0xE0, b[1]), b[2])
    else Append6(Append6(Append6(b[0] as int - 0xF0, b[1]), b[2]), b[3])
  }

  predicate IsScalar(n: nat) {
    n < 0xD800 || 0xE000 <= n < 0x110000
  }

  // The smallest number that needs this many bytes.
  function Least(width: nat): nat {
    if width <= 1 then 0 else if width == 2 then 0x80 else if width == 3 then 0x800 else 0x10000
  }

  // The first character, if the bytes start with a well-formed one: a lead byte,
  // its continuation bytes, no overlong form, no surrogate.
  function DecodeChar(b: Bytes): (c: Option<char>)
    requires b != []
  {
    var w := Width(b[0]);
    if w == 0 || |b| < w || !Spells(b[..w]) then None
    else
      var n := Value(b[..w]);
      if IsScalar(n) && n >= Least(w) then Some(n as char) else None
  }

  function Decode(b: Bytes): Option<string> {
    if b == [] then Some("")
    else
      var c := DecodeChar(b);
      if c.None? then None
      else
        var rest := Decode(b[Width(b[0])..]);
        if rest.None? then None else Some([c.value] + rest.value)
  }

  // ---- Both round trips ----

  lemma ValueOfChar(c: char)
    ensures
      var b := EncodeChar(c);
      Spells(b) && Value(b) == c as int && Value(b) >= Least(|b|)
  {
    var n := c as int;
    assert n == n / 64 * 64 + n % 64;
    assert n / 64 == n / 64 / 64 * 64 + n / 64 % 64;
    assert n / 64 / 64 == n / 64 / 64 / 64 * 64 + n / 64 / 64 % 64;
  }

  lemma CharOfValue(b: Bytes)
    requires Spells(b) && IsScalar(Value(b)) && Value(b) >= Least(|b|)
    ensures EncodeChar(Value(b) as char) == b
  {
  }

  lemma DecodeOfChar(c: char, rest: Bytes)
    ensures DecodeChar(EncodeChar(c) + rest) == Some(c)
    ensures Width((EncodeChar(c) + rest)[0]) == |EncodeChar(c)|
  {
    var b := EncodeChar(c);
    ValueOfChar(c);
    assert (b + rest)[..|b|] == b;
  }

  lemma CharOfDecode(b: Bytes)
    requires b != [] && DecodeChar(b).Some?
    ensures 1 <= Width(b[0]) <= |b| && EncodeChar(DecodeChar(b).value) == b[..Width(b[0])]
  {
    CharOfValue(b[..Width(b[0])]);
  }

  lemma {:induction false} DecodeEncode(s: string)
    ensures Decode(Encode(s)) == Some(s)
    decreases |s|
  {
    if s != "" {
      DecodeOfChar(s[0], Encode(s[1..]));
      DecodeEncode(s[1..]);
      var b := Encode(s);
      assert b[Width(b[0])..] == Encode(s[1..]);
      assert s == [s[0]] + s[1..];
    }
  }

  lemma {:induction false} EncodeDecode(b: Bytes)
    requires Decode(b).Some?
    ensures Encode(Decode(b).value) == b
    decreases |b|
  {
    if b != [] {
      CharOfDecode(b);
      EncodeDecode(b[Width(b[0])..]);
    }
  }

  // Bytes decode exactly when they are some text's bytes, and to that text.
  lemma DecodeIff(b: Bytes, s: string)
    ensures Decode(b) == Some(s) <==> Encode(s) == b
  {
    DecodeEncode(s);
    if Decode(b) == Some(s) {
      EncodeDecode(b);
    }
  }

  lemma {:induction false} EncodeConcat(s: string, t: string)
    ensures Encode(s + t) == Encode(s) + Encode(t)
    decreases |s|
  {
    if s == "" {
      assert s + t == t;
    } else {
      assert (s + t)[1..] == s[1..] + t;
      EncodeConcat(s[1..], t);
    }
  }
}
