// Percent-decoding (section 2.1 of RFC 3986) and file URLs (section 2 of
// RFC 8089), as in app/src-tauri/src/local_files.rs:126-149 and 297-314.
module FileUrls {
  import opened Bytes
  import opened Utf8

  // ---- Escapes ----

  // One unit of an escaped text: a byte as it is, or %hh.
  datatype Unit = Raw(b: byte) | Escape(high: byte, low: byte)

  const PERCENT: byte := 37

  // char::to_digit(16)
  function HexDigit(b: byte): (d: Option<nat>)
    ensures d.Some? ==> d.value < 16
  {
    if 48 <= b <= 57 then Some(b - 48)
    else if 65 <= b <= 70 then Some(b - 55)
    else if 97 <= b <= 102 then Some(b - 87)
    else None
  }

  predicate WellFormed(u: Unit) {
    if u.Raw? then u.b != PERCENT else HexDigit(u.high).Some? && HexDigit(u.low).Some?
  }

  function Spelled(u: Unit): Bytes {
    if u.Raw? then [u.b] else [PERCENT, u.high, u.low]
  }

  function Meaning(u: Unit): byte
    requires WellFormed(u)
  {
    if u.Raw? then u.b else HexDigit(u.high).value * 16 + HexDigit(u.low).value
  }

  ghost predicate AllWellFormed(us: seq<Unit>) {
    forall i :: 0 <= i < |us| ==> WellFormed(us[i])
  }

  // The escaped text, and the bytes it stands for.
  ghost function Text(us: seq<Unit>): Bytes {
    if us == [] then [] else Text(us[..|us| - 1]) + Spelled(us[|us| - 1])
  }

  ghost function Meanings(us: seq<Unit>): Bytes
    requires AllWellFormed(us)
  {
    seq(|us|, i requires 0 <= i < |us| => Meaning(us[i]))
  }

  lemma TextSnoc(us: seq<Unit>, u: Unit)
    ensures Text(us + [u]) == Text(us) + Spelled(u)
  {
    assert (us + [u])[..|us|] == us;
  }

  lemma {:induction false} TextConcat(us: seq<Unit>, vs: seq<Unit>)
    ensures Text(us + vs) == Text(us) + Text(vs)
    decreases |vs|
  {
    if vs == [] {
      assert us + vs == us;
    } else {
      var front, last := vs[..|vs| - 1], vs[|vs| - 1];
      assert vs == front + [last];
      Regroup(us, front, [last]);
      TextSnoc(us + front, last);
      TextSnoc(front, last);
      TextConcat(us, front);
      Regroup(Text(us), Text(front), Spelled(last));
    }
  }

  lemma TextCons(us: seq<Unit>)
    requires us != []
    ensures Text(us) == Spelled(us[0]) + Text(us[1..])
  {
    assert us == [us[0]] + us[1..];
    TextConcat([us[0]], us[1..]);
    assert Text([us[0]]) == Text([]) + Spelled(us[0]);
  }

  // A text has at most one reading.
  lemma {:induction false} OneReading(us: seq<Unit>, vs: seq<Unit>)
    requires AllWellFormed(us) && AllWellFormed(vs) && Text(us) == Text(vs)
    ensures us == vs
    decreases |us|
  {
    if us != [] {
      TextCons(us);
    }
    if vs != [] {
      TextCons(vs);
    }
    if us != [] && vs != [] {
      assert Text(us)[0] == Spelled(us[0])[0] && Text(vs)[0] == Spelled(vs[0])[0];
      SameFirst(us[0], vs[0], Text(us[1..]), Text(vs[1..]));
      OneReading(us[1..], vs[1..]);
      assert us == [us[0]] + us[1..] && vs == [vs[0]] + vs[1..];
    }
  }

  lemma SameFirst(u: Unit, v: Unit, a: Bytes, b: Bytes)
    requires WellFormed(u) && WellFormed(v) && Spelled(u) + a == Spelled(v) + b
    ensures u == v && a == b
  {
    var t := Spelled(u) + a;
    assert t[0] == Spelled(u)[0] == Spelled(v)[0];
    assert u.Raw? <==> v.Raw?;
    assert t[|Spelled(u)|..] == a && t[|Spelled(v)|..] == b;
    assert t[..|Spelled(u)|] == Spelled(u) && t[..|Spelled(v)|] == Spelled(v);
    if u.Escape? {
      assert Spelled(u)[1] == u.high && Spelled(u)[2] == u.low && Spelled(v)[1] == v.high && Spelled(v)[2] == v.low;
    }
  }

  // The bytes t starts with well-formed units `us` and goes on with `rest`.
  ghost predicate Read(t: Bytes, us: seq<Unit>, rest: Bytes) {
    AllWellFormed(us) && t == Text(us) + rest
  }

  // `text` stands for `meaning`: it is a sequence of well-formed units for it.
  ghost predicate StandsFor(text: Bytes, meaning: Bytes) {
    exists us :: AllWellFormed(us) && Text(us) == text && Meanings(us) == meaning
  }

  // The bytes at the front of `rest` are no unit.
  predicate IsBad(rest: Bytes) {
    |rest| > 0 && rest[0] == PERCENT && (|rest| < 3 || HexDigit(rest[1]).None? || HexDigit(rest[2]).None?)
  }

  lemma BadIsNoUnit(rest: Bytes, v: Unit, more: Bytes)
    requires IsBad(rest) && WellFormed(v)
    ensures rest != Spelled(v) + more
  {
    var t := Spelled(v) + more;
    assert t[0] == Spelled(v)[0];
    assert v.Escape? ==> |t| >= 3 && t[1] == v.high && t[2] == v.low;
  }

  // If what is left cannot start a unit, the text has no reading.
  lemma {:induction false} NoReading(us: seq<Unit>, vs: seq<Unit>, rest: Bytes)
    requires AllWellFormed(us) && AllWellFormed(vs) && IsBad(rest)
    ensures Text(us) + rest != Text(vs)
    decreases |us|
  {
    if vs != [] {
      TextCons(vs);
      if us == [] {
        BadIsNoUnit(rest, vs[0], Text(vs[1..]));
      } else {
        TextCons(us);
        Regroup(Spelled(us[0]), Text(us[1..]), rest);
        NoReading(us[1..], vs[1..], rest);
        DifferentTails(us[0], vs[0], Text(us[1..]) + rest, Text(vs[1..]));
      }
    }
  }

  lemma DifferentTails(u: Unit, v: Unit, a: Bytes, b: Bytes)
    requires WellFormed(u) && WellFormed(v) && a != b
    ensures Spelled(u) + a != Spelled(v) + b
  {
    if Spelled(u) + a == Spelled(v) + b {
      SameFirst(u, v, a, b);
    }
  }

  lemma BadEscape(t: Bytes, us: seq<Unit>, rest: Bytes, meaning: Bytes)
    requires Read(t, us, rest) && IsBad(rest)
    ensures !StandsFor(t, meaning)
  {
    forall vs | AllWellFormed(vs) ensures Text(vs) != t {
      NoReading(us, vs, rest);
    }
  }

  lemma ReadOne(t: Bytes, us: seq<Unit>, u: Unit, tail: Bytes)
    requires Read(t, us, Spelled(u) + tail) && WellFormed(u)
    ensures Read(t, us + [u], tail) && Meanings(us + [u]) == Meanings(us) + [Meaning(u)]
  {
    TextSnoc(us, u);
  }

  // percent_decode: Some text exactly when `encoded` stands for its bytes.
  method PercentDecode(encoded: Bytes) returns (text: Option<string>)
    ensures forall s :: text == Some(s) <==> StandsFor(encoded, Encode(s))
  {
    var decoded, rest := [], encoded;
    ghost var us: seq<Unit> := [];
    while rest != []
      invariant Read(encoded, us, rest) && Meanings(us) == decoded
      decreases |rest|
    {
      var b, tail := rest[0], rest[1..];
      if b == PERCENT {
        if |tail| < 2 || HexDigit(tail[0]).None? || HexDigit(tail[1]).None? {
          forall s ensures !StandsFor(encoded, Encode(s)) {
            BadEscape(encoded, us, rest, Encode(s));
          }
          return None;
        }
        var u := Escape(tail[0], tail[1]);
        assert rest == Spelled(u) + tail[2..];
        ReadOne(encoded, us, u, tail[2..]);
        us := us + [u];
        decoded := decoded + [Meaning(u)];
        rest := tail[2..];
      } else {
        assert rest == Spelled(Raw(b)) + tail;
        ReadOne(encoded, us, Raw(b), tail);
        us := us + [Raw(b)];
        decoded := decoded + [b];
        rest := tail;
      }
    }
    text := Decode(decoded);
    forall s ensures text == Some(s) <==> StandsFor(encoded, Encode(s)) {
      OnlyMeaning(encoded, us, s);
      DecodeIff(decoded, s);
    }
  }

  lemma OnlyMeaning(t: Bytes, us: seq<Unit>, s: string)
    requires AllWellFormed(us) && Text(us) == t
    ensures StandsFor(t, Encode(s)) <==> Meanings(us) == Encode(s)
  {
    if StandsFor(t, Encode(s)) {
      var vs :| AllWellFormed(vs) && Text(vs) == t && Meanings(vs) == Encode(s);
      OneReading(us, vs);
    }
  }

  // ---- File URLs ----

  const FILE_SCHEME: string := "file://"

  // char::is_control
  predicate IsControl(c: char) {
    c < ' ' || '\U{7F}' <= c <= '\U{9F}'
  }

  predicate HasControl(s: string) {
    exists i :: 0 <= i < |s| && IsControl(s[i])
  }

  predicate IsDots(segment: string) {
    segment == "" || segment == "." || segment == ".."
  }

  // Where the first segment ends.
  function SegmentEnd(s: string): (k: nat)
    ensures k <= |s| && (forall i :: 0 <= i < k ==> s[i] != '/') && (k < |s| ==> s[k] == '/')
  {
    if s == "" || s[0] == '/' then 0 else 1 + SegmentEnd(s[1..])
  }

  // split('/')
  function Split(s: string): seq<string>
    decreases |s|
  {
    var k := SegmentEnd(s);
    if k == |s| then [s] else [s[..k]] + Split(s[k + 1..])
  }

  predicate NoDots(segments: seq<string>) {
    forall i :: 0 <= i < |segments| ==> !IsDots(segments[i])
  }

  // s[i..j] is a whole segment: bounded by slashes or ends, with none inside.
  ghost predicate IsSegment(s: string, i: int, j: int) {
    && 0 <= i <= j <= |s|
    && (i == 0 || s[i - 1] == '/')
    && (j == |s| || s[j] == '/')
    && forall k :: i <= k < j ==> s[k] != '/'
  }

  ghost predicate Plain(s: string) {
    forall i, j :: IsSegment(s, i, j) ==> !IsDots(s[i..j])
  }

  // Segments after the first one, seen from the rest.
  lemma SegmentOfRest(s: string, k: nat, i: int, j: int)
    requires k < |s| && s[k] == '/' && IsSegment(s[k + 1..], i, j)
    ensures IsSegment(s, i + k + 1, j + k + 1) && s[i + k + 1..j + k + 1] == s[k + 1..][i..j]
  {
    var rest := s[k + 1..];
    assert forall l :: i + k + 1 <= l < j + k + 1 ==> s[l] == rest[l - (k + 1)];
  }

  lemma SegmentIsLater(s: string, k: nat, i: int, j: int)
    requires k < |s| && k == SegmentEnd(s) && IsSegment(s, i, j)
    ensures (i == 0 && j == k) ||
      (i > k && IsSegment(s[k + 1..], i - (k + 1), j - (k + 1))
       && s[i..j] == s[k + 1..][i - (k + 1)..j - (k + 1)])
  {
    if i > k {
      LaterIsOfRest(s, k, i, j);
    }
  }

  lemma LaterIsOfRest(s: string, k: nat, i: int, j: int)
    requires k < i && k < |s| && IsSegment(s, i, j)
    ensures IsSegment(s[k + 1..], i - (k + 1), j - (k + 1)) && s[i..j] == s[k + 1..][i - (k + 1)..j - (k + 1)]
  {
    var rest := s[k + 1..];
    assert forall l :: 0 <= l < |rest| ==> rest[l] == s[l + (k + 1)];
  }

  lemma LaterSegments(s: string, k: nat)
    requires k < |s| && k == SegmentEnd(s)
    ensures Plain(s) <==> !IsDots(s[..k]) && Plain(s[k + 1..])
  {
    var rest := s[k + 1..];
    assert IsSegment(s, 0, k) && s[0..k] == s[..k];
    if Plain(s) {
      forall i, j | IsSegment(rest, i, j) ensures !IsDots(rest[i..j]) {
        SegmentOfRest(s, k, i, j);
      }
    }
    if !IsDots(s[..k]) && Plain(rest) {
      forall i, j | IsSegment(s, i, j) ensures !IsDots(s[i..j]) {
        SegmentIsLater(s, k, i, j);
      }
    }
  }

  lemma OneSegment(s: string)
    requires SegmentEnd(s) == |s|
    ensures Plain(s) <==> !IsDots(s)
  {
    assert IsSegment(s, 0, |s|) && s[0..|s|] == s;
    forall i, j | IsSegment(s, i, j) ensures s[i..j] == s {
    }
  }

  lemma {:induction false} SplitIsPlain(s: string)
    ensures NoDots(Split(s)) <==> Plain(s)
    decreases |s|
  {
    var k := SegmentEnd(s);
    if k == |s| {
      OneSegment(s);
      NoDotsCons(s, []);
      assert [s] + [] == [s];
    } else {
      LaterSegments(s, k);
      SplitIsPlain(s[k + 1..]);
      NoDotsCons(s[..k], Split(s[k + 1..]));
    }
  }

  lemma NoDotsCons(first: string, rest: seq<string>)
    ensures NoDots([first] + rest) <==> !IsDots(first) && NoDots(rest)
  {
    var all := [first] + rest;
    assert all[0] == first && forall i :: 0 <= i < |rest| ==> all[i + 1] == rest[i];
  }

  // An absolute path without control characters, empty or dot segments.
  ghost predicate PlainPath(path: string) {
    path != "" && path[0] == '/' && Plain(path[1..]) && !HasControl(path)
  }

  // The URL names the path: no host, query or fragment, and its escapes stand
  // for the path's bytes.
  ghost predicate Names(url: string, path: string) {
    && FILE_SCHEME <= url
    && var encoded := url[|FILE_SCHEME|..];
      && encoded != "" && encoded[0] == '/' && '?' !in encoded && '#' !in encoded
      && StandsFor(Encode(encoded), Encode(path))
  }

  // A text that starts with a slash stands for one that does.
  lemma SlashStays(encoded: string, path: string)
    requires encoded != "" && encoded[0] == '/' && StandsFor(Encode(encoded), Encode(path))
    ensures path != "" && path[0] == '/'
  {
    var us :| AllWellFormed(us) && Text(us) == Encode(encoded) && Meanings(us) == Encode(path);
    assert Encode(encoded)[0] == 47;
    assert us != [];
    TextCons(us);
    assert Spelled(us[0])[0] == 47;
    assert Meanings(us)[0] == 47;
    assert path != "";
    assert EncodeChar(path[0])[0] == 47;
  }

  // file_url_to_path: exactly the plain path the URL names.
  method FileUrlToPath(url: string) returns (path: Option<string>)
    ensures forall p :: path == Some(p) <==> Names(url, p) && PlainPath(p)
  {
    if !(FILE_SCHEME <= url) {
      return None;
    }
    var encoded := url[|FILE_SCHEME|..];
    if encoded == "" || encoded[0] != '/' || '?' in encoded || '#' in encoded {
      return None;
    }
    var decoded := PercentDecode(Encode(encoded));
    if decoded.None? {
      assert forall p :: Names(url, p) ==> StandsFor(Encode(encoded), Encode(p));
      return None;
    }
    assert forall p :: Names(url, p) <==> decoded == Some(p);
    SlashStays(encoded, decoded.value);
    SplitIsPlain(decoded.value[1..]);
    if !NoDots(Split(decoded.value[1..])) || HasControl(decoded.value) {
      return None;
    }
    return decoded;
  }

  // ---- Every plain path has a URL ----

  function HexChar(d: nat): char
    requires d < 16
  {
    "0123456789ABCDEF"[d]
  }

  // Every byte escaped.
  function Escaped(b: Bytes): string {
    if b == [] then "" else ['%', HexChar(b[0] / 16), HexChar(b[0] % 16)] + Escaped(b[1..])
  }

  function FileUrl(path: string): string
    requires path != ""
  {
    FILE_SCHEME + "/" + Escaped(Encode(path[1..]))
  }

  ghost function EscapedUnits(b: Bytes): seq<Unit> {
    if b == [] then [] else [Escape(HexChar(b[0] / 16) as int, HexChar(b[0] % 16) as int)] + EscapedUnits(b[1..])
  }

  lemma HexCharIs(d: nat)
    requires d < 16
    ensures HexDigit(HexChar(d) as int) == Some(d)
  {
  }

  lemma ReadingCons(u: Unit, us: seq<Unit>)
    requires WellFormed(u) && AllWellFormed(us)
    ensures AllWellFormed([u] + us) && Meanings([u] + us) == [Meaning(u)] + Meanings(us)
    ensures Text([u] + us) == Spelled(u) + Text(us)
  {
    assert ([u] + us)[1..] == us;
    TextCons([u] + us);
  }

  lemma {:induction false} EscapedUnitsMean(b: Bytes)
    ensures AllWellFormed(EscapedUnits(b)) && Meanings(EscapedUnits(b)) == b
  {
    if b != [] {
      EscapedUnitsMean(b[1..]);
      HexCharIs(b[0] / 16);
      HexCharIs(b[0] % 16);
      var u := EscapedUnits(b)[0];
      assert Meaning(u) == b[0];
      ReadingCons(u, EscapedUnits(b[1..]));
      assert b == [b[0]] + b[1..];
    }
  }

  lemma {:induction false} EscapedUnitsSpell(b: Bytes)
    ensures Text(EscapedUnits(b)) == Encode(Escaped(b))
  {
    if b != [] {
      EscapedUnitsSpell(b[1..]);
      EscapedUnitsMean(b[1..]);
      EscapedUnitsMean(b);
      ReadingCons(EscapedUnits(b)[0], EscapedUnits(b[1..]));
      var h, l := HexChar(b[0] / 16), HexChar(b[0] % 16);
      EncodeConcat(['%', h, l], Escaped(b[1..]));
      AsciiThree(h, l);
    }
  }

  lemma {:induction false} EscapedIsQuiet(b: Bytes)
    ensures '?' !in Escaped(b) && '#' !in Escaped(b)
  {
    if b != [] {
      EscapedIsQuiet(b[1..]);
    }
  }

  lemma AsciiThree(h: char, l: char)
    requires h < '\U{80}' && l < '\U{80}'
    ensures Encode(['%', h, l]) == [PERCENT, h as int, l as int]
  {
    assert ['%', h, l][1..] == [h, l] && [h, l][1..] == [l] && [l][1..] == "";
    assert Encode([l]) == [l as int];
    assert Encode([h, l]) == [h as int, l as int];
  }

  lemma SlashEncodes(s: string)
    ensures Encode("/" + s) == [47] + Encode(s)
  {
    EncodeConcat("/", s);
    assert Encode("/") == EncodeChar('/') + Encode("");
  }

  lemma EscapedStands(rest: string)
    ensures StandsFor(Encode("/" + Escaped(Encode(rest))), Encode("/" + rest))
  {
    var bytes := Encode(rest);
    var us := EscapedUnits(bytes);
    EscapedUnitsMean(bytes);
    EscapedUnitsSpell(bytes);
    ReadingCons(Raw(47), us);
    SlashEncodes(Escaped(bytes));
    SlashEncodes(rest);
    assert Text([Raw(47)] + us) == Encode("/" + Escaped(bytes));
  }

  lemma EveryPlainPathHasAUrl(path: string)
    requires PlainPath(path)
    ensures Names(FileUrl(path), path)
  {
    var encoded := "/" + Escaped(Encode(path[1..]));
    EscapedStands(path[1..]);
    EscapedIsQuiet(Encode(path[1..]));
    assert path == "/" + path[1..];
    assert FileUrl(path)[|FILE_SCHEME|..] == encoded;
  }
}
