// The block scan of assistant text (app/src/AgentView.tsx:242-297).
//
// The code walks the lines with nested loops. The specification gives every
// line a role from the fences before it and its own text, and cuts the lines
// into maximal runs of one role.
module Markdown {
  import opened Bytes

  // ---- Tests on one line ----

  // \s, which is also what trim() strips.
  predicate IsSpace(c: char) {
    || '\t' <= c <= '\r' || c == ' ' || c == '\U{A0}' || c == '\U{1680}' || '\U{2000}' <= c <= '\U{200A}'
    || c == '\U{2028}' || c == '\U{2029}' || c == '\U{202F}' || c == '\U{205F}' || c == '\U{3000}' || c == '\U{FEFF}'
  }

  predicate IsDigit(c: char) {
    '0' <= c <= '9'
  }

  predicate IsFence(line: string) {
    "```" <= line
  }

  predicate AllSpaces(s: string, i: nat, j: nat)
    requires i <= j <= |s|
  {
    forall k :: i <= k < j ==> IsSpace(s[k])
  }

  predicate AllDigits(s: string, i: nat, j: nat)
    requires i <= j <= |s|
  {
    forall k :: i <= k < j ==> IsDigit(s[k])
  }

  // Skip the longest run of spaces.
  function SkipSpaces(s: string, i: nat): (r: nat)
    requires i <= |s|
    ensures i <= r <= |s| && AllSpaces(s, i, r) && (r < |s| ==> !IsSpace(s[r]))
    decreases |s| - i
  {
    if i < |s| && IsSpace(s[i]) then SkipSpaces(s, i + 1) else i
  }

  function SkipDigits(s: string, i: nat): (r: nat)
    requires i <= |s|
    ensures i <= r <= |s| && AllDigits(s, i, r) && (r < |s| ==> !IsDigit(s[r]))
    decreases |s| - i
  {
    if i < |s| && IsDigit(s[i]) then SkipDigits(s, i + 1) else i
  }

  // Where the bullet or number that starts at i ends.
  function MarkerEnd(s: string, i: nat): (r: Option<nat>)
    requires i <= |s|
    ensures r.Some? ==> i < r.value <= |s|
  {
    if i < |s| && (s[i] == '-' || s[i] == '*') then Some(i + 1)
    else
      var d := SkipDigits(s, i);
      if d > i && d < |s| && s[d] == '.' then Some(d + 1) else None
  }

  // MD_LIST: the length of the matched prefix.
  function ListPrefix(s: string): (r: Option<nat>)
    ensures r.Some? ==> r.value <= |s|
  {
    var i := SkipSpaces(s, 0);
    var m := MarkerEnd(s, i);
    if m.Some? && m.value < |s| && IsSpace(s[m.value]) then Some(SkipSpaces(s, m.value)) else None
  }

  predicate IsList(line: string) {
    ListPrefix(line).Some?
  }

  // line.replace(MD_LIST, "")
  function ItemText(line: string): string {
    var p := ListPrefix(line);
    if p.Some? then line[p.value..] else line
  }

  // /^\s*\d+\./
  predicate IsOrdered(line: string) {
    var i := SkipSpaces(line, 0);
    var d := SkipDigits(line, i);
    d > i && d < |line| && line[d] == '.'
  }

  // The number of leading '#'s.
  function Hashes(s: string): (n: nat)
    ensures n <= |s| && (forall i :: 0 <= i < n ==> s[i] == '#') && (n < |s| ==> s[n] != '#')
  {
    if s != "" && s[0] == '#' then 1 + Hashes(s[1..]) else 0
  }

  // /^#{1,4}\s/
  predicate IsHeading(line: string) {
    var n := Hashes(line);
    1 <= n <= 4 && n < |line| && IsSpace(line[n])
  }

  predicate EndsLine(c: char) {
    c == '\n' || c == '\r' || c == '\U{2028}' || c == '\U{2029}'
  }

  function UpToLineEnd(s: string): string {
    if s == "" || EndsLine(s[0]) then "" else [s[0]] + UpToLineEnd(s[1..])
  }

  // What (.*) captures after the '#'s and the spaces.
  function HeadingText(line: string): string {
    UpToLineEnd(line[SkipSpaces(line, Hashes(line))..])
  }

  // It ends at the first carriage return or other line terminator, if there is one.
  lemma {:induction false} UpToLineEndIs(s: string)
    ensures
      var t := UpToLineEnd(s);
      && t <= s && (forall i :: 0 <= i < |t| ==> !EndsLine(t[i])) && (|t| < |s| ==> EndsLine(s[|t|]))
  {
    if s != "" && !EndsLine(s[0]) {
      UpToLineEndIs(s[1..]);
      assert s == [s[0]] + s[1..];
    }
  }

  // A heading shows the whole rest of its line exactly when no line terminator is
  // in it, and otherwise the part in front of the first one.
  lemma HeadingIsWholeIff(line: string)
    ensures
      var rest, text := line[SkipSpaces(line, Hashes(line))..], HeadingText(line);
      && (text == rest <==> forall i :: 0 <= i < |rest| ==> !EndsLine(rest[i]))
      && (text != rest ==> |text| < |rest| && text == rest[..|text|] && EndsLine(rest[|text|]))
      && (forall i :: 0 <= i < |text| ==> !EndsLine(text[i]))
  {
    UpToLineEndIs(line[SkipSpaces(line, Hashes(line))..]);
  }

  // lines[i].trim() === ""
  predicate IsBlank(line: string) {
    SkipSpaces(line, 0) == |line|
  }

  // The list pattern, read off its regular expression: spaces up to i, a bullet
  // or a number with a dot up to m, at least one space up to g, then the text.
  ghost predicate ListCuts(line: string, i: nat, m: nat, g: nat)
    requires i < m < g <= |line|
  {
    && AllSpaces(line, 0, i) && AllSpaces(line, m, g) && (g < |line| ==> !IsSpace(line[g]))
    && ((m == i + 1 && line[i] in "-*") || (m > i + 1 && AllDigits(line, i, m - 1) && line[m - 1] == '.'))
  }

  // The line is a list item exactly when it can be cut so; the cut is unique.
  lemma ListIffCuts(line: string, i: nat, m: nat, g: nat)
    requires i < m < g <= |line| && ListCuts(line, i, m, g)
    ensures IsList(line) && ItemText(line) == line[g..] && (IsOrdered(line) <==> m > i + 1)
  {
    assert IsSpace(line[m]) && !IsSpace(line[i]);
    assert SkipSpaces(line, 0) == i;
    assert m > i + 1 ==> SkipDigits(line, i) == m - 1;
    assert SkipSpaces(line, m) == g;
  }

  lemma ListHasCuts(line: string) returns (i: nat, m: nat, g: nat)
    requires IsList(line)
    ensures i < m < g <= |line| && ListCuts(line, i, m, g) && ItemText(line) == line[g..]
  {
    i := SkipSpaces(line, 0);
    m := MarkerEnd(line, i).value;
    g := SkipSpaces(line, m);
  }

  // The heading pattern, read off its regular expression: one to four '#'s up to n,
  // at least one space up to g, then the text.
  ghost predicate HeadingCuts(line: string, n: nat, g: nat)
    requires n < g <= |line|
  {
    && 1 <= n <= 4 && (forall i :: 0 <= i < n ==> line[i] == '#')
    && AllSpaces(line, n, g) && (g < |line| ==> !IsSpace(line[g]))
  }

  // The line is a heading exactly when it can be cut so; the cut is unique.
  lemma HeadingIffCuts(line: string, n: nat, g: nat)
    requires n < g <= |line| && HeadingCuts(line, n, g)
    ensures IsHeading(line) && HeadingText(line) <= line[g..]
    ensures HeadingText(line) == line[g..] <==> forall i :: g <= i < |line| ==> !EndsLine(line[i])
  {
    assert IsSpace(line[n]) && Hashes(line) == n && SkipSpaces(line, n) == g;
    HeadingIsWholeIff(line);
    UpToLineEndIs(line[g..]);
    assert forall i :: g <= i < |line| ==> line[g..][i - g] == line[i];
  }

  lemma HeadingHasCuts(line: string) returns (n: nat, g: nat)
    requires IsHeading(line)
    ensures n < g <= |line| && HeadingCuts(line, n, g)
  {
    n := Hashes(line);
    g := SkipSpaces(line, n);
  }

  // A fence is a line that begins with three backquotes, whatever follows them.
  lemma FenceIff(line: string)
    ensures IsFence(line) <==> |line| >= 3 && line[0] == '`' && line[1] == '`' && line[2] == '`'
  {
    if |line| >= 3 {
      assert line[..3] == [line[0], line[1], line[2]];
    }
  }

  // A blank line is nothing but white space.
  lemma BlankIff(line: string)
    ensures IsBlank(line) <==> forall i :: 0 <= i < |line| ==> IsSpace(line[i])
  {
  }

  // ---- The role of a line ----

  datatype Class = FenceLine | ListLine | HeadingLine | BlankLine | PlainLine

  function ClassOf(line: string): Class {
    if IsFence(line) then FenceLine
    else if IsList(line) then ListLine
    else if IsHeading(line) then HeadingLine
    else if IsBlank(line) then BlankLine
    else PlainLine
  }

  function Classes(lines: seq<string>): (cs: seq<Class>)
    ensures |cs| == |lines|
  {
    if lines == [] then [] else Classes(lines[..|lines| - 1]) + [ClassOf(lines[|lines| - 1])]
  }

  datatype Role = OpenFence | CodeLine | CloseFence | ListItem | Heading | Blank | Prose

  // An odd number of fence lines stand before line k.
  predicate InCode(cs: seq<Class>, k: nat)
    requires k <= |cs|
  {
    k > 0 && (InCode(cs, k - 1) != cs[k - 1].FenceLine?)
  }

  function FencesBefore(cs: seq<Class>, k: nat): nat
    requires k <= |cs|
  {
    |set i | 0 <= i < k && cs[i].FenceLine?|
  }

  lemma {:induction false} InCodeIsOdd(cs: seq<Class>, k: nat)
    requires k <= |cs|
    ensures InCode(cs, k) <==> FencesBefore(cs, k) % 2 == 1
  {
    if k > 0 {
      InCodeIsOdd(cs, k - 1);
      var before, now := set i | 0 <= i < k - 1 && cs[i].FenceLine?, set i | 0 <= i < k && cs[i].FenceLine?;
      assert now == if cs[k - 1].FenceLine? then before + {k - 1} else before;
    }
  }

  function RoleOf(cs: seq<Class>, k: nat): Role
    requires k < |cs|
  {
    if InCode(cs, k) then (if cs[k].FenceLine? then CloseFence else CodeLine)
    else
      match cs[k]
      case FenceLine => OpenFence
      case ListLine => ListItem
      case HeadingLine => Heading
      case BlankLine => Blank
      case PlainLine => Prose
  }

  // The end of the run of lines with this role that starts at k.
  function RunEnd(cs: seq<Class>, k: nat, role: Role): (e: nat)
    requires k <= |cs|
    ensures k <= e <= |cs|
    ensures forall i :: k <= i < e ==> RoleOf(cs, i) == role
    ensures e < |cs| ==> RoleOf(cs, e) != role
    decreases |cs| - k
  {
    if k < |cs| && RoleOf(cs, k) == role then RunEnd(cs, k + 1, role) else k
  }

  // ---- Blocks ----

  datatype Block =
    | Code(code: seq<string>)
    | List(ordered: bool, items: seq<string>)
    | HeadingBlock(text: string)
    | Paragraph(prose: seq<string>)

  // Line k starts a block: a fence, a heading, or the first of a run.
  predicate Starts(cs: seq<Class>, k: nat)
    requires k < |cs|
  {
    match RoleOf(cs, k)
    case OpenFence => true
    case Heading => true
    case ListItem => k == 0 || RoleOf(cs, k - 1) != ListItem
    case Prose => k == 0 || RoleOf(cs, k - 1) != Prose
    case _ => false
  }

  function ItemTexts(lines: seq<string>): seq<string> {
    seq(|lines|, i requires 0 <= i < |lines| => ItemText(lines[i]))
  }

  // The block that starts at line k: the whole run.
  function BlockAt(lines: seq<string>, cs: seq<Class>, k: nat): Block
    requires |cs| == |lines| && k < |lines|
  {
    match RoleOf(cs, k)
    case OpenFence => Code(lines[k + 1..RunEnd(cs, k + 1, CodeLine)])
    case Heading => HeadingBlock(HeadingText(lines[k]))
    case ListItem => List(IsOrdered(lines[k]), ItemTexts(lines[k..RunEnd(cs, k, ListItem)]))
    case _ => Paragraph(lines[k..RunEnd(cs, k, Prose)])
  }

  // The blocks of the lines from k on.
  function Blocks(lines: seq<string>, cs: seq<Class>, k: nat): seq<Block>
    requires |cs| == |lines| && k <= |lines|
    decreases |lines| - k
  {
    if k == |lines| then []
    else (if Starts(cs, k) then [BlockAt(lines, cs, k)] else []) + Blocks(lines, cs, k + 1)
  }

  // A list is ordered exactly when its first marker is a number, read off the pattern.
  lemma ListKindIsFirst(lines: seq<string>, cs: seq<Class>, k: nat, i: nat, m: nat, g: nat)
    requires |cs| == |lines| && k < |lines| && RoleOf(cs, k) == ListItem
    requires i < m < g <= |lines[k]| && ListCuts(lines[k], i, m, g)
    ensures
      var block := BlockAt(lines, cs, k);
      && block.List? && (block.ordered <==> m > i + 1)
      && block.items != [] && block.items[0] == lines[k][g..]
  {
    ListIffCuts(lines[k], i, m, g);
  }

  // A fence gives a code block, a heading a heading, plain lines a paragraph.
  lemma BlockKinds(lines: seq<string>, cs: seq<Class>, k: nat)
    requires |cs| == |lines| && k < |lines| && Starts(cs, k)
    ensures
      var block := BlockAt(lines, cs, k);
      && (block.Code? <==> RoleOf(cs, k) == OpenFence) && (block.HeadingBlock? <==> RoleOf(cs, k) == Heading)
      && (block.List? <==> RoleOf(cs, k) == ListItem) && (block.Paragraph? <==> RoleOf(cs, k) == Prose)
  {
  }

  // Lines that start nothing add no block.
  lemma {:induction false} SkipTo(lines: seq<string>, cs: seq<Class>, k: nat, e: nat)
    requires |cs| == |lines| && k <= e <= |lines| && forall i :: k <= i < e ==> !Starts(cs, i)
    ensures Blocks(lines, cs, k) == Blocks(lines, cs, e)
    decreases e - k
  {
    if k < e {
      SkipTo(lines, cs, k + 1, e);
    }
  }

  // The scan stands between two blocks.
  ghost predicate Boundary(cs: seq<Class>, k: nat)
    requires k <= |cs|
  {
    && !InCode(cs, k)
    && (0 < k < |cs| && (RoleOf(cs, k) == ListItem || RoleOf(cs, k) == Prose) ==> RoleOf(cs, k - 1) != RoleOf(cs, k))
  }

  // A fence, its code lines, and the closing fence or the end of the text.
  lemma CodeDone(lines: seq<string>, cs: seq<Class>, k: nat, e: nat)
    requires |cs| == |lines| && k < e <= |lines| && RoleOf(cs, k) == OpenFence && InCode(cs, e)
    requires (forall j :: k < j < e ==> RoleOf(cs, j) == CodeLine) && (e < |lines| ==> cs[e].FenceLine?)
    ensures Blocks(lines, cs, k) == [Code(lines[k + 1..e])] + Blocks(lines, cs, Min(e + 1, |lines|))
    ensures e < |lines| ==> Boundary(cs, e + 1)
  {
    assert e < |lines| ==> RoleOf(cs, e) == CloseFence;
    RunEndIs(cs, k + 1, e, CodeLine);
    SkipTo(lines, cs, k + 1, Min(e + 1, |lines|));
  }

  // After a whole run of list or plain lines the scan is between blocks.
  lemma RunEndIsBoundary(cs: seq<Class>, k: nat, e: nat)
    requires k < |cs| && (RoleOf(cs, k) == ListItem || RoleOf(cs, k) == Prose) && e == RunEnd(cs, k, RoleOf(cs, k))
    ensures k < e && Boundary(cs, e)
  {
    assert RoleOf(cs, e - 1) == RoleOf(cs, k);
  }

  lemma RunIsOneBlock(lines: seq<string>, cs: seq<Class>, k: nat, e: nat)
    requires |cs| == |lines| && k < |lines| && Starts(cs, k) && (RoleOf(cs, k) == ListItem || RoleOf(cs, k) == Prose)
    requires e == RunEnd(cs, k, RoleOf(cs, k))
    ensures k < e && Blocks(lines, cs, k) == [BlockAt(lines, cs, k)] + Blocks(lines, cs, e) && Boundary(cs, e)
  {
    assert forall i :: k < i < e ==> !Starts(cs, i);
    SkipTo(lines, cs, k + 1, e);
    RunEndIsBoundary(cs, k, e);
  }

  lemma RunEndIs(cs: seq<Class>, k: nat, e: nat, role: Role)
    requires k <= e <= |cs| && (forall j :: k <= j < e ==> RoleOf(cs, j) == role)
      && (e < |cs| ==> RoleOf(cs, e) != role)
    ensures RunEnd(cs, k, role) == e
  {
    var r := RunEnd(cs, k, role);
    assert r >= e;
  }

  // A whole run of list lines.
  lemma ListDone(lines: seq<string>, cs: seq<Class>, k: nat, e: nat)
    requires |cs| == |lines| && k < e <= |lines| && Boundary(cs, k) && !InCode(cs, e)
    requires (forall j :: k <= j < e ==> RoleOf(cs, j) == ListItem) && (e < |lines| ==> !cs[e].ListLine?)
    ensures Blocks(lines, cs, k) == [List(IsOrdered(lines[k]), ItemTexts(lines[k..e]))] + Blocks(lines, cs, e)
    ensures Boundary(cs, e)
  {
    RunEndIs(cs, k, e, ListItem);
    RunIsOneBlock(lines, cs, k, e);
  }

  // A whole run of plain lines.
  lemma ProseDone(lines: seq<string>, cs: seq<Class>, k: nat, e: nat)
    requires |cs| == |lines| && k < e <= |lines| && Boundary(cs, k) && !InCode(cs, e)
    requires (forall j :: k <= j < e ==> RoleOf(cs, j) == Prose) && (e < |lines| ==> !cs[e].PlainLine?)
    ensures Blocks(lines, cs, k) == [Paragraph(lines[k..e])] + Blocks(lines, cs, e)
    ensures Boundary(cs, e)
  {
    RunEndIs(cs, k, e, Prose);
    RunIsOneBlock(lines, cs, k, e);
  }

  // What the code's tests say about the class of a line.
  lemma ClassIs(line: string)
    ensures IsFence(line) <==> ClassOf(line).FenceLine?
    ensures IsList(line) <==> ClassOf(line).ListLine?
    ensures !IsFence(line) && !IsList(line) ==> (IsHeading(line) <==> ClassOf(line).HeadingLine?)
    ensures !IsBlank(line) && !IsFence(line) && !IsList(line) && !IsHeading(line) <==> ClassOf(line).PlainLine?
  {
    if IsList(line) {
      var i, m, g := ListHasCuts(line);
      assert line[0] != '`';
    }
  }

  lemma {:induction false} ClassAt(lines: seq<string>, i: nat)
    requires i < |lines|
    ensures IsFence(lines[i]) <==> Classes(lines)[i].FenceLine?
    ensures IsList(lines[i]) <==> Classes(lines)[i].ListLine?
    ensures !IsFence(lines[i]) && !IsList(lines[i]) ==> (IsHeading(lines[i]) <==> Classes(lines)[i].HeadingLine?)
    ensures !IsBlank(lines[i]) && !IsFence(lines[i]) && !IsList(lines[i]) && !IsHeading(lines[i]) <==>
      Classes(lines)[i].PlainLine?
  {
    if i == |lines| - 1 {
      ClassIs(lines[i]);
    } else {
      ClassAt(lines[..|lines| - 1], i);
    }
  }

  // The inner loop over a fenced block, from the line after the fence.
  method TakeCode(lines: seq<string>, k: nat, ghost cs: seq<Class>) returns (code: seq<string>, i: nat)
    requires cs == Classes(lines) && k < |lines| && RoleOf(cs, k) == OpenFence
    ensures k < i <= |lines| && InCode(cs, i) && (i < |lines| ==> cs[i].FenceLine?)
    ensures (forall j :: k < j < i ==> RoleOf(cs, j) == CodeLine) && code == lines[k + 1..i]
  {
    code, i := [], k + 1;
    while i < |lines| && !IsFence(lines[i])
      invariant k < i <= |lines| && InCode(cs, i)
      invariant (forall j :: k < j < i ==> RoleOf(cs, j) == CodeLine) && code == lines[k + 1..i]
    {
      ClassAt(lines, i);
      code := code + [lines[i]];
      i := i + 1;
    }
    if i < |lines| {
      ClassAt(lines, i);
    }
  }

  // The inner loop over list lines.
  method TakeList(lines: seq<string>, k: nat, ghost cs: seq<Class>) returns (items: seq<string>, i: nat)
    requires cs == Classes(lines) && k <= |lines| && !InCode(cs, k)
    ensures k <= i <= |lines| && !InCode(cs, i) && (i < |lines| ==> !cs[i].ListLine?)
    ensures (forall j :: k <= j < i ==> RoleOf(cs, j) == ListItem) && items == ItemTexts(lines[k..i])
  {
    items, i := [], k;
    while i < |lines| && IsList(lines[i])
      invariant k <= i <= |lines| && !InCode(cs, i)
      invariant (forall j :: k <= j < i ==> RoleOf(cs, j) == ListItem) && items == ItemTexts(lines[k..i])
    {
      ClassAt(lines, i);
      items := items + [ItemText(lines[i])];
      assert lines[k..i + 1] == lines[k..i] + [lines[i]];
      i := i + 1;
    }
    if i < |lines| {
      ClassAt(lines, i);
    }
  }

  // The inner loop over plain lines.
  method TakeParagraph(lines: seq<string>, k: nat, ghost cs: seq<Class>) returns (paragraph: seq<string>, i: nat)
    requires cs == Classes(lines) && k <= |lines| && !InCode(cs, k)
    ensures k <= i <= |lines| && !InCode(cs, i) && (i < |lines| ==> !cs[i].PlainLine?)
    ensures (forall j :: k <= j < i ==> RoleOf(cs, j) == Prose) && paragraph == lines[k..i]
  {
    paragraph, i := [], k;
    while i < |lines| && !IsBlank(lines[i]) && !IsFence(lines[i]) && !IsList(lines[i]) && !IsHeading(lines[i])
      invariant k <= i <= |lines| && !InCode(cs, i)
      invariant (forall j :: k <= j < i ==> RoleOf(cs, j) == Prose) && paragraph == lines[k..i]
    {
      ClassAt(lines, i);
      paragraph := paragraph + [lines[i]];
      i := i + 1;
    }
    if i < |lines| {
      ClassAt(lines, i);
    }
  }

  // One step past a heading or a blank line.
  lemma LineDone(lines: seq<string>, cs: seq<Class>, k: nat)
    requires |cs| == |lines| && k < |lines| && Boundary(cs, k) && (cs[k].HeadingLine? || cs[k].BlankLine?)
    ensures Boundary(cs, k + 1)
    ensures Blocks(lines, cs, k) ==
      (if cs[k].HeadingLine? then [HeadingBlock(HeadingText(lines[k]))] else [])
      + Blocks(lines, cs, k + 1)
  {
  }

  // The last case of the outer loop: a paragraph, or one blank line.
  method TakeProse(lines: seq<string>, k: nat, ghost cs: seq<Class>) returns (taken: seq<Block>, i: nat)
    requires cs == Classes(lines) && k < |lines| && Boundary(cs, k) && (cs[k].PlainLine? || cs[k].BlankLine?)
    ensures k < i <= |lines| && Boundary(cs, i)
    ensures Blocks(lines, cs, k) == taken + Blocks(lines, cs, i)
  {
    var paragraph;
    paragraph, i := TakeParagraph(lines, k, cs);
    if |paragraph| > 0 {
      ProseDone(lines, cs, k, i);
      taken := [Paragraph(paragraph)];
    } else {
      LineDone(lines, cs, k);
      taken, i := [], k + 1;
    }
  }

  // One turn of the outer loop.
  method TakeBlock(lines: seq<string>, k: nat, ghost cs: seq<Class>) returns (taken: seq<Block>, i: nat)
    requires cs == Classes(lines) && k < |lines| && Boundary(cs, k)
    ensures k < i <= |lines| + 1 && (i <= |lines| ==> Boundary(cs, i))
    ensures Blocks(lines, cs, k) == taken + Blocks(lines, cs, Min(i, |lines|))
  {
    var line := lines[k];
    ClassAt(lines, k);
    if IsFence(line) {
      var code;
      code, i := TakeCode(lines, k, cs);
      CodeDone(lines, cs, k, i);
      i := i + 1; // the closing fence, or past the end
      taken := [Code(code)];
    } else if IsList(line) {
      var ordered := IsOrdered(line);
      var items;
      items, i := TakeList(lines, k, cs);
      ListDone(lines, cs, k, i);
      taken := [List(ordered, items)];
    } else if IsHeading(line) {
      LineDone(lines, cs, k);
      taken, i := [HeadingBlock(HeadingText(line))], k + 1;
    } else {
      taken, i := TakeProse(lines, k, cs);
    }
  }

  method RenderMarkdown(lines: seq<string>) returns (blocks: seq<Block>)
    ensures blocks == Blocks(lines, Classes(lines), 0)
  {
    ghost var cs := Classes(lines);
    blocks := [];
    var i := 0;
    while i < |lines|
      invariant 0 <= i <= |lines| + 1
      invariant i <= |lines| ==> Boundary(cs, i)
      invariant blocks + Blocks(lines, cs, Min(i, |lines|)) == Blocks(lines, cs, 0)
      decreases |lines| + 1 - i
    {
      var taken, next := TakeBlock(lines, i, cs);
      Regroup(blocks, taken, Blocks(lines, cs, Min(next, |lines|)));
      blocks, i := blocks + taken, next;
    }
  }

  // ---- Every line once, in order ----

  // What one line contributes to the page.
  function Contribution(line: string, role: Role): seq<string> {
    match role
    case CodeLine => [line]
    case ListItem => [ItemText(line)]
    case Heading => [HeadingText(line)]
    case Prose => [line]
    case _ => []
  }

  function Contributions(lines: seq<string>, cs: seq<Class>, k: nat, e: nat): seq<string>
    requires |cs| == |lines| && k <= e <= |lines|
    decreases e - k
  {
    if k == e then [] else Contribution(lines[k], RoleOf(cs, k)) + Contributions(lines, cs, k + 1, e)
  }

  function Content(block: Block): seq<string> {
    match block
    case Code(code) => code
    case List(_, items) => items
    case HeadingBlock(text) => [text]
    case Paragraph(prose) => prose
  }

  function Contents(blocks: seq<Block>): seq<string> {
    if blocks == [] then [] else Content(blocks[0]) + Contents(blocks[1..])
  }

  lemma {:induction false} ContributionsSplit(lines: seq<string>, cs: seq<Class>, k: nat, m: nat, e: nat)
    requires |cs| == |lines| && k <= m <= e <= |lines|
    ensures Contributions(lines, cs, k, e) == Contributions(lines, cs, k, m) + Contributions(lines, cs, m, e)
    decreases m - k
  {
    if k < m {
      ContributionsSplit(lines, cs, k + 1, m, e);
    }
  }

  lemma ItemTextsCons(line: string, rest: seq<string>)
    ensures ItemTexts([line] + rest) == [ItemText(line)] + ItemTexts(rest)
  {
  }

  // A run of lines that show as they are, or as list items.
  lemma {:induction false} RunContributes(lines: seq<string>, cs: seq<Class>, k: nat, e: nat, role: Role)
    requires |cs| == |lines| && k <= e <= |lines| && role in {CodeLine, Prose, ListItem}
    requires forall j :: k <= j < e ==> RoleOf(cs, j) == role
    ensures Contributions(lines, cs, k, e) == if role == ListItem then ItemTexts(lines[k..e]) else lines[k..e]
    decreases e - k
  {
    if k < e {
      RunContributes(lines, cs, k + 1, e, role);
      assert lines[k..e] == [lines[k]] + lines[k + 1..e];
      ItemTextsCons(lines[k], lines[k + 1..e]);
      assert RoleOf(cs, k) == role;
    }
  }

  // Nothing that was already begun goes on at line k.
  ghost predicate Free(cs: seq<Class>, k: nat)
    requires k <= |cs|
  {
    k == |cs| || Boundary(cs, k) || RoleOf(cs, k) == CloseFence
  }

  lemma {:induction false} CodeRun(cs: seq<Class>, k: nat, e: nat)
    requires k < e <= |cs| && RoleOf(cs, k) == OpenFence && forall j :: k < j < e ==> RoleOf(cs, j) == CodeLine
    ensures InCode(cs, e)
    decreases e
  {
    if e > k + 1 {
      CodeRun(cs, k, e - 1);
      assert RoleOf(cs, e - 1) == CodeLine;
    }
  }

  // The block that starts at k shows lines k up to its end, and the lines in
  // between start nothing.
  lemma CodeContributes(lines: seq<string>, cs: seq<Class>, k: nat) returns (e: nat)
    requires |cs| == |lines| && k < |lines| && RoleOf(cs, k) == OpenFence
    ensures k < e <= |lines| && Content(BlockAt(lines, cs, k)) == Contributions(lines, cs, k, e)
    ensures Blocks(lines, cs, k) == [BlockAt(lines, cs, k)] + Blocks(lines, cs, e) && Free(cs, e)
  {
    e := RunEnd(cs, k + 1, CodeLine);
    RunContributes(lines, cs, k + 1, e, CodeLine);
    SkipTo(lines, cs, k + 1, e);
    CodeRun(cs, k, e);
  }

  lemma RunBlockContributes(lines: seq<string>, cs: seq<Class>, k: nat) returns (e: nat)
    requires |cs| == |lines| && k < |lines| && Starts(cs, k) && (RoleOf(cs, k) == ListItem || RoleOf(cs, k) == Prose)
    ensures k < e <= |lines| && Content(BlockAt(lines, cs, k)) == Contributions(lines, cs, k, e)
    ensures Blocks(lines, cs, k) == [BlockAt(lines, cs, k)] + Blocks(lines, cs, e) && Free(cs, e)
  {
    e := RunEnd(cs, k, RoleOf(cs, k));
    RunContributes(lines, cs, k, e, RoleOf(cs, k));
    RunIsOneBlock(lines, cs, k, e);
  }

  // The block that starts at k, whatever its kind.
  lemma BlockContributes(lines: seq<string>, cs: seq<Class>, k: nat) returns (e: nat)
    requires |cs| == |lines| && k < |lines| && Starts(cs, k)
    ensures k < e <= |lines| && Content(BlockAt(lines, cs, k)) == Contributions(lines, cs, k, e)
    ensures Blocks(lines, cs, k) == [BlockAt(lines, cs, k)] + Blocks(lines, cs, e) && Free(cs, e)
  {
    if RoleOf(cs, k) == OpenFence {
      e := CodeContributes(lines, cs, k);
    } else if RoleOf(cs, k) == Heading {
      e := k + 1;
      assert Contributions(lines, cs, k + 1, e) == [];
    } else {
      e := RunBlockContributes(lines, cs, k);
    }
  }

  lemma QuietLine(lines: seq<string>, cs: seq<Class>, k: nat)
    requires |cs| == |lines| && k < |lines| && Free(cs, k) && !Starts(cs, k)
    ensures Free(cs, k + 1) && Contribution(lines[k], RoleOf(cs, k)) == []
  {
  }

  // The blocks, read in order, show every line exactly once: code and prose as
  // they are, list items and headings without their markers, fences and blank
  // lines not at all.
  lemma {:induction false} LinesOnce(lines: seq<string>, cs: seq<Class>, k: nat)
    requires |cs| == |lines| && k <= |lines| && Free(cs, k)
    ensures Contents(Blocks(lines, cs, k)) == Contributions(lines, cs, k, |lines|)
    decreases |lines| - k
  {
    if k < |lines| && Starts(cs, k) {
      var e := BlockContributes(lines, cs, k);
      LinesOnce(lines, cs, e);
      ContributionsSplit(lines, cs, k, e, |lines|);
      ContentsStep(BlockAt(lines, cs, k), Blocks(lines, cs, e));
    } else if k < |lines| {
      QuietLine(lines, cs, k);
      SkipTo(lines, cs, k, k + 1);
      LinesOnce(lines, cs, k + 1);
    }
  }

  lemma ContentsStep(block: Block, rest: seq<Block>)
    ensures Contents([block] + rest) == Content(block) + Contents(rest)
  {
    assert ([block] + rest)[1..] == rest;
  }

  lemma EveryLineOnce(lines: seq<string>)
    ensures Contents(Blocks(lines, Classes(lines), 0)) == Contributions(lines, Classes(lines), 0, |lines|)
  {
    LinesOnce(lines, Classes(lines), 0);
  }
}
