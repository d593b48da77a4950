// Reducing a name from a provider, a path or a URI to one plain file name
// (app/src-tauri/src/local_files.rs:255-281).
module FileNames {
  import opened Bytes
  import opened Utf8
  import opened FileUrls

  const MAX_FILE_NAME_BYTES: nat := 255

  predicate IsSeparator(c: char) {
    c == '/' || c == '\\'
  }

  predicate IsReserved(c: char) {
    c in {'<', '>', ':', '"', '|', '?', '*'}
  }

  // char::is_whitespace
  predicate IsWhite(c: char) {
    || '\t' <= c <= '\r' || c == ' ' || c == '\U{85}' || c == '\U{A0}' || c == '\U{1680}'
    || '\U{2000}' <= c <= '\U{200A}'
    || c == '\U{2028}' || c == '\U{2029}' || c == '\U{202F}' || c == '\U{205F}' || c == '\U{3000}'
  }

  // rsplit(['/', '\\']).next()
  function LastPart(raw: string): (part: string)
    ensures forall i :: 0 <= i < |part| ==> !IsSeparator(part[i])
  {
    if raw == "" || IsSeparator(raw[|raw| - 1]) then ""
    else LastPart(raw[..|raw| - 1]) + [raw[|raw| - 1]]
  }

  predicate IsCleanChar(c: char) {
    !IsSeparator(c) && !IsControl(c) && !IsReserved(c)
  }

  predicate IsClean(s: string) {
    forall i :: 0 <= i < |s| ==> IsCleanChar(s[i])
  }

  // Drop control characters, replace reserved ones.
  function Scrub(c: char): string {
    if IsControl(c) then "" else if IsReserved(c) then "_" else [c]
  }

  function Scrubbed(s: string): string {
    if s == "" then "" else Scrubbed(s[..|s| - 1]) + Scrub(s[|s| - 1])
  }

  lemma {:induction false} ScrubbedIsClean(s: string)
    requires forall i :: 0 <= i < |s| ==> !IsSeparator(s[i])
    ensures IsClean(Scrubbed(s))
  {
    if s != "" {
      var front, c := s[..|s| - 1], s[|s| - 1];
      ScrubbedIsClean(front);
      assert IsClean(Scrub(c));
      CleanJoin(Scrubbed(front), Scrub(c));
    }
  }

  lemma CleanJoin(a: string, b: string)
    requires IsClean(a) && IsClean(b)
    ensures IsClean(a + b)
  {
  }

  lemma {:induction false} CleanStays(s: string)
    requires IsClean(s)
    ensures Scrubbed(s) == s
  {
    if s != "" {
      var front, c := s[..|s| - 1], s[|s| - 1];
      assert s == front + [c] && Scrub(c) == [c];
      CleanStays(front);
    }
  }

  function TrimStart(s: string): (t: string)
    ensures t != "" ==> !IsWhite(t[0])
    ensures s != "" && !IsWhite(s[0]) ==> t == s
    ensures IsClean(s) ==> IsClean(t)
  {
    if s != "" && IsWhite(s[0]) then TrimStart(s[1..]) else s
  }

  function TrimEnd(s: string): (t: string)
    ensures t <= s && (t != "" ==> !IsWhite(t[|t| - 1])) && forall i :: |t| <= i < |s| ==> IsWhite(s[i])
  {
    if s != "" && IsWhite(s[|s| - 1]) then TrimEnd(s[..|s| - 1]) else s
  }

  function Cleaned(raw: string): (t: string)
    ensures IsClean(t) && (t != "" ==> !IsWhite(t[0]) && !IsWhite(t[|t| - 1]))
  {
    ScrubbedIsClean(LastPart(raw));
    TrimEnd(TrimStart(Scrubbed(LastPart(raw))))
  }

  // What follows the last separator.
  lemma {:induction false} LastPartIs(before: string, part: string)
    requires before == "" || IsSeparator(before[|before| - 1])
    requires forall i :: 0 <= i < |part| ==> !IsSeparator(part[i])
    ensures LastPart(before + part) == part
    decreases |part|
  {
    var raw := before + part;
    if part == "" {
      assert raw == before;
    } else {
      assert raw[..|raw| - 1] == before + part[..|part| - 1];
      LastPartIs(before, part[..|part| - 1]);
      assert part == part[..|part| - 1] + [part[|part| - 1]];
    }
  }

  // Each character is scrubbed by itself: control characters vanish, reserved
  // ones become underscores, others stay.
  lemma {:induction false} ScrubbedParts(a: string, b: string)
    ensures Scrubbed(a + b) == Scrubbed(a) + Scrubbed(b)
    decreases |b|
  {
    if b == "" {
      assert a + b == a;
    } else {
      var front, last := b[..|b| - 1], b[|b| - 1];
      assert b == front + [last];
      Regroup(a, front, [last]);
      ScrubbedParts(a, front);
      ScrubbedMore(a + front, last);
      ScrubbedMore(front, last);
      Regroup(Scrubbed(a), Scrubbed(front), Scrub(last));
    }
  }

  lemma ScrubbedMore(s: string, c: char)
    ensures Scrubbed(s + [c]) == Scrubbed(s) + Scrub(c)
  {
    assert (s + [c])[..|s|] == s;
  }

  // Position by position: a name without control characters keeps its length, the
  // seven reserved characters become underscores, every other one stays.
  lemma {:induction false} ScrubbedAt(s: string, k: nat)
    requires forall i :: 0 <= i < |s| ==> ' ' <= s[i] < '\U{7F}' || '\U{A0}' <= s[i]
    requires k < |s|
    ensures |Scrubbed(s)| == |s| && Scrubbed(s)[k] == if s[k] in "<>:\"|?*" then '_' else s[k]
  {
    var front, c := s[..|s| - 1], s[|s| - 1];
    assert c in "<>:\"|?*" <==> IsReserved(c);
    assert Scrubbed(s) == Scrubbed(front) + Scrub(c);
    if front != "" {
      ScrubbedAt(front, if k < |front| then k else 0);
    }
  }

  // Control characters vanish, and nothing else does.
  lemma ControlsVanish(a: string, c: char, b: string)
    ensures Scrubbed(a + [c] + b) == Scrubbed(a) + Scrubbed(b) <==> c < ' ' || '\U{7F}' <= c < '\U{A0}'
  {
    ScrubbedParts(a + [c], b);
    ScrubbedMore(a, c);
    ScrubSize(c);
    Middle(Scrubbed(a), Scrub(c), Scrubbed(b));
  }

  lemma ScrubSize(c: char)
    ensures Scrub(c) == "" <==> c < ' ' || '\U{7F}' <= c < '\U{A0}'
  {
  }

  lemma Middle(a: string, m: string, b: string)
    ensures a + m + b == a + b <==> m == ""
  {
    assert |a + m + b| == |a| + |m| + |b|;
    assert m == "" ==> a + m == a;
  }

  // White space in front goes, and nothing else.
  lemma {:induction false} TrimStartIs(white: string, text: string)
    requires forall i :: 0 <= i < |white| ==> IsWhite(white[i])
    requires text != "" ==> !IsWhite(text[0])
    ensures TrimStart(white + text) == text
    decreases |white|
  {
    if white == "" {
      assert white + text == text;
    } else {
      assert (white + text)[1..] == white[1..] + text;
      TrimStartIs(white[1..], text);
    }
  }

  lemma {:induction false} TrimEndIs(text: string, white: string)
    requires forall i :: 0 <= i < |white| ==> IsWhite(white[i])
    requires text != "" ==> !IsWhite(text[|text| - 1])
    ensures TrimEnd(text + white) == text
    decreases |white|
  {
    if white == "" {
      assert text + white == text;
    } else {
      assert (text + white)[..|text + white| - 1] == text + white[..|white| - 1];
      TrimEndIs(text, white[..|white| - 1]);
    }
  }

  // The cleaned name is the scrubbed last part without the white space around it.
  lemma CleanedIs(raw: string, lead: string, text: string, trail: string)
    requires Scrubbed(LastPart(raw)) == lead + text + trail
    requires forall i :: 0 <= i < |lead| ==> IsWhite(lead[i])
    requires forall i :: 0 <= i < |trail| ==> IsWhite(trail[i])
    requires text != "" ==> !IsWhite(text[0]) && !IsWhite(text[|text| - 1])
    ensures Cleaned(raw) == text
  {
    TrimmedIs(lead, text, trail);
  }

  // White space on both sides goes, and nothing else.
  lemma TrimmedIs(lead: string, text: string, trail: string)
    requires forall i :: 0 <= i < |lead| ==> IsWhite(lead[i])
    requires forall i :: 0 <= i < |trail| ==> IsWhite(trail[i])
    requires text != "" ==> !IsWhite(text[0]) && !IsWhite(text[|text| - 1])
    ensures TrimEnd(TrimStart(lead + text + trail)) == text
  {
    var rest := if text == "" then "" else text + trail;
    StartGoes(lead, text, trail, rest);
    EndGoes(text, trail, rest);
  }

  lemma StartGoes(lead: string, text: string, trail: string, rest: string)
    requires forall i :: 0 <= i < |lead| ==> IsWhite(lead[i])
    requires forall i :: 0 <= i < |trail| ==> IsWhite(trail[i])
    requires (text != "" ==> !IsWhite(text[0])) && rest == if text == "" then "" else text + trail
    ensures TrimStart(lead + text + trail) == rest
  {
    if text == "" {
      assert lead + text + trail == lead + trail;
      NothingLeft(lead, trail);
    } else {
      LeadGoes(lead, text, trail);
    }
  }

  lemma EndGoes(text: string, trail: string, rest: string)
    requires (forall i :: 0 <= i < |trail| ==> IsWhite(trail[i])) && rest == if text == "" then "" else text + trail
    requires text != "" ==> !IsWhite(text[|text| - 1])
    ensures TrimEnd(rest) == text
  {
    if text != "" {
      TrimEndIs(text, trail);
    }
  }

  lemma LeadGoes(lead: string, text: string, trail: string)
    requires (forall i :: 0 <= i < |lead| ==> IsWhite(lead[i])) && text != "" && !IsWhite(text[0])
    ensures TrimStart(lead + text + trail) == text + trail
  {
    Regroup(lead, text, trail);
    assert (text + trail)[0] == text[0];
    TrimStartIs(lead, text + trail);
  }

  lemma NothingLeft(lead: string, trail: string)
    requires forall i :: 0 <= i < |lead| ==> IsWhite(lead[i])
    requires forall i :: 0 <= i < |trail| ==> IsWhite(trail[i])
    ensures TrimStart(lead + trail) == ""
  {
    var s := lead + trail;
    assert forall i :: 0 <= i < |s| ==> s[i] == if i < |lead| then lead[i] else trail[i - |lead|];
    TrimStartIs(s, "");
    assert s + "" == s;
  }

  // ---- Cutting between characters ----

  // s.len()
  function Size(s: string): nat {
    |Encode(s)|
  }

  // The number of whole characters that fit in `max` bytes.
  function FitLength(s: string, max: nat): (k: nat)
    ensures k <= |s|
  {
    if s == "" || |EncodeChar(s[0])| > max then 0 else 1 + FitLength(s[1..], max - |EncodeChar(s[0])|)
  }

  // The character that starts at byte `end`, if one does: is_char_boundary.
  function CharAt(s: string, end: nat): (k: Option<nat>)
    ensures k.Some? ==> k.value <= |s| && Size(s[..k.value]) == end
    ensures end == 0 ==> k == Some(0)
  {
    if end == 0 then Some(0)
    else if s == "" || end < |EncodeChar(s[0])| then None
    else
      var k := CharAt(s[1..], end - |EncodeChar(s[0])|);
      if k.None? then None
      else
        assert s[..k.value + 1][1..] == s[1..][..k.value];
        Some(k.value + 1)
  }

  lemma {:induction false} CharAtSize(s: string, k: nat)
    requires k <= |s|
    ensures CharAt(s, Size(s[..k])) == Some(k)
  {
    if k > 0 {
      assert s[..k][1..] == s[1..][..k - 1];
      CharAtSize(s[1..], k - 1);
    }
  }

  // The fitting prefix fits, and one character more does not.
  lemma {:induction false} FitIs(s: string, max: nat, k: nat)
    requires k <= |s|
    ensures k == FitLength(s, max) <==> Size(s[..k]) <= max && (k < |s| ==> Size(s[..k + 1]) > max)
    decreases |s|
  {
    if s != "" {
      var w := |EncodeChar(s[0])|;
      assert s[..1][1..] == "" && Encode(s[..1]) == EncodeChar(s[0]) + Encode(s[..1][1..]);
      if k > 0 {
        assert s[..k][1..] == s[1..][..k - 1];
        if k < |s| {
          assert s[..k + 1][1..] == s[1..][..k];
        }
        if w <= max {
          FitIs(s[1..], max - w, k - 1);
        }
      }
    }
  }

  lemma {:induction false} SizeGrows(s: string, i: nat, j: nat)
    requires i <= j <= |s|
    ensures Size(s[..i]) + (j - i) <= Size(s[..j])
  {
    if i < j {
      SizeGrows(s, i, j - 1);
      assert s[..j] == s[..j - 1] + [s[j - 1]];
      EncodeConcat(s[..j - 1], [s[j - 1]]);
      assert Encode([s[j - 1]]) == EncodeChar(s[j - 1]) + Encode([s[j - 1]][1..]);
    }
  }

  // ---- The name ----

  function FileName(raw: string): Option<string> {
    var c := Cleaned(raw);
    if c == "" || c == "." || c == ".." then None
    else Some(TrimEnd(c[..FitLength(c, MAX_FILE_NAME_BYTES)]))
  }

  // The truncation loop.
  method CutLength(s: string) returns (k: nat)
    ensures k == FitLength(s, MAX_FILE_NAME_BYTES)
  {
    var top := Min(Size(s), MAX_FILE_NAME_BYTES);
    var end := top;
    while CharAt(s, end).None?
      invariant end <= top
      invariant forall e :: end < e <= top ==> CharAt(s, e).None?
      decreases end
    {
      end := end - 1;
    }
    k := CharAt(s, end).value;
    StopsAtFit(s, k, end);
  }

  method PlainFileName(raw: string) returns (name: Option<string>)
    ensures name == FileName(raw)
  {
    var cleaned := Cleaned(raw);
    if cleaned == "" || cleaned == "." || cleaned == ".." {
      return None;
    }
    var k := CutLength(cleaned);
    return Some(TrimEnd(cleaned[..k]));
  }

  // With the cleaned name `text`, cut after its longest prefix of at most 255 bytes
  // and without the white space that then ends it: no name exactly if that text is
  // empty or one of the two dot names.
  lemma FileNameIs(raw: string, lead: string, text: string, trail: string, k: nat, name: string, white: string)
    requires Scrubbed(LastPart(raw)) == lead + text + trail
    requires forall i :: 0 <= i < |lead| ==> IsWhite(lead[i])
    requires forall i :: 0 <= i < |trail| ==> IsWhite(trail[i])
    requires text != "" ==> !IsWhite(text[0]) && !IsWhite(text[|text| - 1])
    requires k <= |text| && Size(text[..k]) <= 255 && (k < |text| ==> Size(text[..k + 1]) > 255)
    requires text[..k] == name + white && (forall i :: 0 <= i < |white| ==> IsWhite(white[i]))
    requires name != "" ==> !IsWhite(name[|name| - 1])
    ensures FileName(raw) == if text == "" || text == "." || text == ".." then None else Some(name)
  {
    CleanedIs(raw, lead, text, trail);
    FitIs(text, MAX_FILE_NAME_BYTES, k);
    TrimEndIs(name, white);
  }

  // A short name without separators and control characters stays as it is, but for
  // the white space around it and its reserved characters, which become underscores.
  lemma ShortNameIs(lead: string, text: string, trail: string, name: string)
    requires Ordinary(lead) && Ordinary(text) && Ordinary(trail)
    requires forall i :: 0 <= i < |lead| ==> IsWhite(lead[i])
    requires forall i :: 0 <= i < |trail| ==> IsWhite(trail[i])
    requires text != "" && text != "." && text != ".." && !IsWhite(text[0]) && !IsWhite(text[|text| - 1])
    requires |name| == |text| && Size(name) <= 255
    requires forall i :: 0 <= i < |text| ==> name[i] == if IsReserved(text[i]) then '_' else text[i]
    ensures FileName(lead + text + trail) == Some(name)
  {
    PaddedScrubs(lead, text, trail, name);
    ReplacedText(text, name);
    assert name[..|name|] == name == name + "";
    FileNameIs(lead + text + trail, lead, name, trail, |name|, name, "");
  }

  // Underscores are neither dots nor white space.
  lemma ReplacedText(text: string, name: string)
    requires text != "" && text != "." && text != ".." && !IsWhite(text[0]) && !IsWhite(text[|text| - 1])
    requires |name| == |text|
    requires forall i :: 0 <= i < |text| ==> name[i] == if IsReserved(text[i]) then '_' else text[i]
    ensures name != "" && name != "." && name != ".." && !IsWhite(name[0]) && !IsWhite(name[|name| - 1])
  {
    assert forall i :: 0 <= i < |name| && name[i] == '.' ==> text[i] == '.';
    assert |name| == 1 ==> text == [text[0]] && name == [name[0]];
    assert |name| == 2 ==> text == [text[0], text[1]] && name == [name[0], name[1]];
  }

  lemma PaddedScrubs(lead: string, text: string, trail: string, name: string)
    requires Ordinary(lead) && Ordinary(text) && Ordinary(trail)
    requires forall i :: 0 <= i < |lead| ==> IsWhite(lead[i])
    requires forall i :: 0 <= i < |trail| ==> IsWhite(trail[i])
    requires |name| == |text| && forall i :: 0 <= i < |text| ==> name[i] == if IsReserved(text[i]) then '_' else text[i]
    ensures Scrubbed(LastPart(lead + text + trail)) == lead + name + trail
  {
    var raw := lead + text + trail;
    assert "" + raw == raw;
    LastPartIs("", raw);
    ScrubbedParts(lead + text, trail);
    ScrubbedParts(lead, text);
    WhiteStays(lead);
    WhiteStays(trail);
    ScrubbedIs(text, name);
  }

  ghost predicate Ordinary(s: string) {
    forall i :: 0 <= i < |s| ==> !IsSeparator(s[i]) && !IsControl(s[i])
  }

  lemma {:induction false} ScrubbedIs(s: string, t: string)
    requires Ordinary(s) && |t| == |s| && forall i :: 0 <= i < |s| ==> t[i] == if IsReserved(s[i]) then '_' else s[i]
    ensures Scrubbed(s) == t
  {
    if s != "" {
      var k := |s| - 1;
      ScrubbedIs(s[..k], t[..k]);
      assert t == t[..k] + [t[k]];
    }
  }

  lemma WhiteStays(s: string)
    requires Ordinary(s) && forall i :: 0 <= i < |s| ==> IsWhite(s[i])
    ensures Scrubbed(s) == s
  {
    ScrubbedIs(s, s);
  }

  // The greatest boundary within the limit ends the longest fitting prefix.
  lemma StopsAtFit(s: string, k: nat, end: nat)
    requires end <= Min(Size(s), MAX_FILE_NAME_BYTES) && CharAt(s, end) == Some(k)
    requires forall e :: end < e <= Min(Size(s), MAX_FILE_NAME_BYTES) ==> CharAt(s, e).None?
    ensures k == FitLength(s, MAX_FILE_NAME_BYTES)
  {
    if k < |s| {
      CharAtSize(s, k + 1);
      SizeGrows(s, k, k + 1);
      SizeGrows(s, k + 1, |s|);
      assert s[..|s|] == s;
    }
    FitIs(s, MAX_FILE_NAME_BYTES, k);
  }

  // What a host can create: not empty, not too long, no separator, control or
  // reserved character, no white space at either end.
  ghost predicate IsPlain(n: string) {
    n != "" && Size(n) <= MAX_FILE_NAME_BYTES && IsClean(n) && !IsWhite(n[0]) && !IsWhite(n[|n| - 1])
  }

  lemma NameIsPlain(raw: string)
    requires FileName(raw).Some?
    ensures IsPlain(FileName(raw).value)
  {
    var c := Cleaned(raw);
    var k := FitLength(c, MAX_FILE_NAME_BYTES);
    var n := TrimEnd(c[..k]);
    FitIs(c, MAX_FILE_NAME_BYTES, k);
    assert k > 0;
    assert c[..k][0] == c[0];
    assert n == c[..|n|];
    SizeGrows(c, |n|, k);
  }

  // A plain name other than . and .. is left as it is.
  lemma PlainNameStays(n: string)
    requires IsPlain(n)
    ensures FileName(n) == if n == "." || n == ".." then None else Some(n)
  {
    CleanedStays(n);
    assert n[..|n|] == n;
    FitIs(n, MAX_FILE_NAME_BYTES, |n|);
  }

  lemma CleanedStays(n: string)
    requires n != "" && IsClean(n) && !IsWhite(n[0]) && !IsWhite(n[|n| - 1])
    ensures Cleaned(n) == n
  {
    LastPartStays(n);
    CleanStays(n);
  }

  lemma {:induction false} LastPartStays(n: string)
    requires forall i :: 0 <= i < |n| ==> !IsSeparator(n[i])
    ensures LastPart(n) == n
  {
    if n != "" {
      LastPartStays(n[..|n| - 1]);
      assert n == n[..|n| - 1] + [n[|n| - 1]];
    }
  }

  // So a result is a fixed point exactly when it is not . or ..
  lemma FixedPointIff(raw: string)
    requires FileName(raw).Some?
    ensures
      var n := FileName(raw).value;
      FileName(n) == Some(n) <==> n != "." && n != ".."
  {
    NameIsPlain(raw);
    PlainNameStays(FileName(raw).value);
  }

  ghost predicate WhiteBetween(s: string, i: nat, j: nat)
    requires j <= |s|
  {
    forall k :: i <= k < j ==> IsWhite(s[k])
  }

  // Trimming a prefix leaves the dots exactly when only white space follows them.
  lemma TrimmedDots(p: string, dots: string)
    requires dots == "." || dots == ".."
    ensures TrimEnd(p) == dots <==> dots <= p && WhiteBetween(p, |dots|, |p|)
  {
    var t := TrimEnd(p);
    if dots <= p && WhiteBetween(p, |dots|, |p|) {
      assert p[|dots| - 1] == '.';
      assert |t| == |dots|;
      assert t == p[..|t|];
    }
  }

  // The dots themselves always fit.
  lemma DotsFit(c: string, dots: string)
    requires dots == "." || dots == ".."
    ensures dots <= c[..FitLength(c, MAX_FILE_NAME_BYTES)] <==> dots <= c
  {
    if dots <= c {
      assert c[0] == '.';
      assert |dots| == 2 ==> c[1] == '.' && c[1..][0] == '.';
      assert FitLength(c, MAX_FILE_NAME_BYTES) >= |dots|;
    }
  }

  // Nothing is cut exactly when everything fits.
  lemma NothingCutIff(c: string)
    ensures FitLength(c, MAX_FILE_NAME_BYTES) == |c| <==> Size(c) <= MAX_FILE_NAME_BYTES
  {
    FitIs(c, MAX_FILE_NAME_BYTES, |c|);
    assert c[..|c|] == c;
  }

  // The refusal of . and .. comes before the cut, so a long name can still be
  // cut down to one of them: exactly when only white space follows the dots
  // within the limit.
  lemma DotsIff(raw: string, dots: string)
    requires dots == "." || dots == ".."
    ensures
      var c := Cleaned(raw);
      FileName(raw) == Some(dots) <==>
        dots <= c && Size(c) > MAX_FILE_NAME_BYTES && WhiteBetween(c, |dots|, FitLength(c, MAX_FILE_NAME_BYTES))
  {
    var c := Cleaned(raw);
    CutDots(c, dots);
    if Size(c) > MAX_FILE_NAME_BYTES {
      LongIsNoDots(c);
    }
  }

  lemma LongIsNoDots(c: string)
    requires Size(c) > MAX_FILE_NAME_BYTES
    ensures c != "" && c != "." && c != ".."
  {
    assert ".."[1..] == "." && "."[1..] == "";
    assert Size("") == 0 && Size(".") == 1 && Size("..") == 2;
  }

  lemma CutDots(c: string, dots: string)
    requires (dots == "." || dots == "..") && (c != "" ==> !IsWhite(c[|c| - 1]))
    ensures
      var k := FitLength(c, MAX_FILE_NAME_BYTES);
      c != dots && TrimEnd(c[..k]) == dots <==>
        dots <= c && Size(c) > MAX_FILE_NAME_BYTES && WhiteBetween(c, |dots|, k)
  {
    var k := FitLength(c, MAX_FILE_NAME_BYTES);
    NothingCutIff(c);
    if k == |c| {
      assert c[..k] == c;
    } else {
      LongIsNoDots(c);
      DotsFit(c, dots);
      var p := c[..k];
      TrimmedDots(p, dots);
      assert forall i :: 0 <= i < k ==> p[i] == c[i];
    }
  }

  // Such names exist: a dot, enough spaces, and anything.
  lemma DotSlipsThrough(spaces: string)
    requires |spaces| >= 254 && forall i :: 0 <= i < |spaces| ==> spaces[i] == ' '
    ensures FileName("." + spaces + "x") == Some(".")
  {
    var raw := "." + spaces + "x";
    assert forall i :: 1 <= i < |raw| - 1 ==> raw[i] == ' ';
    CleanedStays(raw);
    assert raw[..|raw|] == raw && raw[..0] == "";
    SizeGrows(raw, 0, |raw|);
    NothingCutIff(raw);
    DotsIff(raw, ".");
  }
}
