// The alternate-screen scanner (app/src/lib/altscreen.ts): a byte automaton over
// the control sequences of section 5.4 of ECMA-48, whose modes outlive a chunk.
module AltScreen {
  import opened Bytes

  const ESC: byte := 0x1b
  const SEMI: byte := 0x3b

  const ALT_PARAMS: set<Bytes> := {[0x34, 0x37], [0x31, 0x30, 0x34, 0x37], [0x31, 0x30, 0x34, 0x39]}
  const MOUSE_PARAMS: set<Bytes> :=
    {[0x39], [0x31, 0x30, 0x30, 0x30], [0x31, 0x30, 0x30, 0x31], [0x31, 0x30, 0x30, 0x32], [0x31, 0x30, 0x30, 0x33]}
  const CURSOR_PARAM: Bytes := [0x31]

  datatype Modes = Modes(alt: bool, appCursor: bool, mouse: set<Bytes>)

  const PLAIN: Modes := Modes(false, false, {})

  // 0 ground, 1 after ESC, 2 after ESC [, 3 in the parameters of ESC [ ?, 4 after ESC [ !
  datatype Scanner = Scanner(state: nat, params: Bytes, modes: Modes)

  const RESET: Scanner := Scanner(0, [], PLAIN)

  predicate IsParam(b: byte) {
    0x30 <= b <= 0x39 || b == SEMI
  }

  // params.split(";")
  function Split(p: Bytes): (parts: seq<Bytes>)
    ensures parts != []
  {
    if p == [] then [[]]
    else
      var rest := Split(p[1..]);
      if p[0] == SEMI then [[]] + rest else [[p[0]] + rest[0]] + rest[1..]
  }

  predicate SwitchesScreen(parts: seq<Bytes>) {
    exists p :: p in parts && p in ALT_PARAMS
  }

  function SetModes(m: Modes, parts: seq<Bytes>, on: bool): Modes {
    var touched := set p | p in parts && p in MOUSE_PARAMS;
    Modes(
      if SwitchesScreen(parts) then on else m.alt,
      if CURSOR_PARAM in parts then on else m.appCursor,
      if on then m.mouse + touched else m.mouse - touched)
  }

  function NextState(s: Scanner, b: byte): nat {
    if b == ESC then 1
    else if s.state == 1 && b == 0x5b then 2
    else if s.state == 2 && b == 0x3f then 3
    else if s.state == 2 && b == 0x21 then 4
    else if s.state == 3 && IsParam(b) && |s.params| < 32 then 3
    else 0
  }

  function NextParams(s: Scanner, b: byte): Bytes {
    if s.state == 2 && b == 0x3f then []
    else if s.state == 3 && IsParam(b) then s.params + [b]
    else s.params
  }

  // ESC c and ESC [ ! p reset the modes and leave the alternate screen.
  predicate Resets(s: Scanner, b: byte) {
    (s.state == 1 && b == 0x63) || (s.state == 4 && b == 0x70)
  }

  // ESC [ ? P h and ESC [ ? P l.
  predicate EndsList(s: Scanner, b: byte) {
    s.state == 3 && (b == 0x68 || b == 0x6c)
  }

  function NextModes(s: Scanner, b: byte): Modes {
    if Resets(s, b) then PLAIN
    else if EndsList(s, b) then SetModes(s.modes, Split(s.params), b == 0x68)
    else s.modes
  }

  function Next(s: Scanner, b: byte): Scanner {
    Scanner(NextState(s, b), NextParams(s, b), NextModes(s, b))
  }

  // The flip a byte completes, if any.
  function FlipOn(s: Scanner, b: byte): Option<bool> {
    if Resets(s, b) then Some(false)
    else if EndsList(s, b) && SwitchesScreen(Split(s.params)) then Some(b == 0x68)
    else None
  }

  function Run(s: Scanner, data: Bytes): Scanner {
    if data == [] then s else Next(Run(s, data[..|data| - 1]), data[|data| - 1])
  }

  // ---- The grammar ----

  predicate EndsWith(data: Bytes, suffix: Bytes) {
    |suffix| <= |data| && data[|data| - |suffix|..] == suffix
  }

  const AFTER_ESC: Bytes := [ESC]
  const AFTER_CSI: Bytes := AFTER_ESC + [0x5b]

  // RIS or DECSTR just ended.
  predicate EndsReset(data: Bytes) {
    EndsWith(data, AFTER_ESC + [0x63]) || EndsWith(data, AFTER_CSI + [0x21] + [0x70])
  }

  predicate Params(p: Bytes) {
    |p| <= 32 && forall i :: 0 <= i < |p| ==> IsParam(p[i])
  }

  // ESC [ ? P
  predicate EndsOpen(data: Bytes, p: Bytes) {
    Params(p) && EndsWith(data, AFTER_CSI + [0x3f] + p)
  }

  // ESC [ ? P h  or  ESC [ ? P l
  predicate EndsModes(data: Bytes, p: Bytes, on: bool) {
    Params(p) && EndsWith(data, AFTER_CSI + [0x3f] + p + [if on then 0x68 else 0x6c])
  }

  // `field` is one of the semicolon-separated fields of p, starting at a.
  predicate FieldAt(p: Bytes, field: Bytes, a: nat) {
    && a + |field| <= |p| && p[a..a + |field|] == field
    && (a == 0 || p[a - 1] == SEMI) && (a + |field| == |p| || p[a + |field|] == SEMI)
  }

  predicate HasField(p: Bytes, field: Bytes) {
    exists a :: 0 <= a <= |p| && FieldAt(p, field, a)
  }

  predicate HasAlt(p: Bytes) {
    exists f :: f in ALT_PARAMS && HasField(p, f)
  }

  // A flip to `on` is completed by the last byte of the stream.
  ghost predicate FlipEnds(data: Bytes, on: bool) {
    (!on && EndsReset(data)) || (exists p :: EndsModes(data, p, on) && HasAlt(p))
  }

  function SetFields(m: Modes, p: Bytes, on: bool): Modes {
    var touched := set f | f in MOUSE_PARAMS && HasField(p, f);
    Modes(
      if HasAlt(p) then on else m.alt,
      if HasField(p, CURSOR_PARAM) then on else m.appCursor,
      if on then m.mouse + touched else m.mouse - touched)
  }

  // The modes a stream leaves behind, read off the grammar.
  ghost function ModesOf(data: Bytes): Modes {
    if data == [] then PLAIN
    else
      var before := ModesOf(data[..|data| - 1]);
      if EndsReset(data) then PLAIN
      else if exists p, on :: EndsModes(data, p, on) then
        var p, on :| EndsModes(data, p, on);
        SetFields(before, p, on)
      else before
  }

  // ---- Splitting ----

  // The first part is the prefix up to the first semicolon.
  lemma {:induction false} SplitHead(p: Bytes)
    ensures FieldAt(p, Split(p)[0], 0) && SEMI !in Split(p)[0]
  {
    if p != [] && p[0] != SEMI {
      SplitHead(p[1..]);
      var h := Split(p[1..])[0];
      assert p[..|h| + 1] == [p[0]] + p[1..][..|h|];
    }
  }

  // Two prefixes that both stop at the first semicolon are the same.
  lemma SameHead(p: Bytes, f: Bytes, g: Bytes)
    requires FieldAt(p, f, 0) && SEMI !in f && FieldAt(p, g, 0) && SEMI !in g
    ensures f == g
  {
    assert f == p[..|f|] && g == p[..|g|];
  }

  // Part k > 0 starts right after a semicolon.
  lemma {:induction false} LaterPart(p: Bytes, k: nat) returns (a: nat)
    requires 1 <= k < |Split(p)|
    ensures 0 < a <= |p| && FieldAt(p, Split(p)[k], a)
  {
    var rest := p[1..];
    if p[0] == SEMI && k == 1 {
      SplitHead(rest);
      a := 1;
    } else {
      var j := if p[0] == SEMI then k - 1 else k;
      a := LaterPart(rest, j);
      assert Split(rest)[j] == Split(p)[k];
      a := a + 1;
    }
  }

  // And every field after a semicolon is a later part.
  lemma {:induction false} FieldIsLater(p: Bytes, f: Bytes, a: nat) returns (k: nat)
    requires SEMI !in f && 0 < a && FieldAt(p, f, a)
    ensures 1 <= k < |Split(p)| && Split(p)[k] == f
  {
    var rest := p[1..];
    if a == 1 {
      SplitHead(rest);
      SameHead(rest, f, Split(rest)[0]);
      k := 1;
    } else {
      k := FieldIsLater(rest, f, a - 1);
      k := if p[0] == SEMI then k + 1 else k;
    }
  }

  lemma SplitIsFields(p: Bytes, f: Bytes)
    requires SEMI !in f
    ensures f in Split(p) <==> HasField(p, f)
  {
    SplitHead(p);
    if f in Split(p) {
      var k :| 0 <= k < |Split(p)| && Split(p)[k] == f;
      if k > 0 {
        var a := LaterPart(p, k);
      }
    }
    if HasField(p, f) {
      var a :| 0 <= a <= |p| && FieldAt(p, f, a);
      if a == 0 {
        SameHead(p, f, Split(p)[0]);
      } else {
        var k := FieldIsLater(p, f, a);
      }
    }
  }

  lemma SetModesIsSetFields(m: Modes, p: Bytes, on: bool)
    ensures SetModes(m, Split(p), on) == SetFields(m, p, on)
    ensures SwitchesScreen(Split(p)) <==> HasAlt(p)
  {
    forall f | f in ALT_PARAMS || f in MOUSE_PARAMS || f == CURSOR_PARAM
      ensures f in Split(p) <==> HasField(p, f)
    {
      SplitIsFields(p, f);
    }
    var parts := Split(p);
    assert (set f | f in parts && f in MOUSE_PARAMS) == (set f | f in MOUSE_PARAMS && HasField(p, f));
  }

  // ---- The automaton equals the grammar ----

  lemma EndsSnoc(data: Bytes, b: byte, suffix: Bytes, last: byte)
    ensures EndsWith(data + [b], suffix + [last]) <==> b == last && EndsWith(data, suffix)
  {
    var next, all := data + [b], suffix + [last];
    if |all| <= |next| {
      var tail := next[|next| - |all|..];
      assert tail == data[|data| - |suffix|..] + [b];
      assert all[..|suffix|] == suffix && tail[..|suffix|] == data[|data| - |suffix|..];
      assert all[|suffix|] == last && tail[|suffix|] == b;
    }
  }

  // Which state a stream leads to, by how it ends. Since ESC always leads to
  // state 1, a suffix decides.
  ghost predicate Located(data: Bytes, s: Scanner) {
    && s.state <= 4
    && (s.state == 1 <==> EndsWith(data, AFTER_ESC))
    && (s.state == 2 <==> EndsWith(data, AFTER_CSI))
    && (s.state == 4 <==> EndsWith(data, AFTER_CSI + [0x21]))
    && (s.state == 3 ==> EndsOpen(data, s.params))
    && (forall p :: EndsOpen(data, p) ==> s.state == 3 && s.params == p)
  }

  lemma EndsEsc(data: Bytes, b: byte)
    ensures EndsWith(data + [b], AFTER_ESC) <==> b == ESC
  {
    EndsSnoc(data, b, [], ESC);
    assert [] + [ESC] == AFTER_ESC && EndsWith(data, []);
  }

  lemma OpenSnoc(data: Bytes, b: byte, p: Bytes)
    ensures p == [] ==> (EndsOpen(data + [b], p) <==> b == 0x3f && EndsWith(data, AFTER_CSI))
    ensures p != [] ==> (EndsOpen(data + [b], p) <==>
              b == p[|p| - 1] && IsParam(b) && |p| <= 32 && EndsOpen(data, p[..|p| - 1]))
  {
    if p == [] {
      EndsSnoc(data, b, AFTER_CSI, 0x3f);
      assert AFTER_CSI + [0x3f] + p == AFTER_CSI + [0x3f];
    } else {
      var front, last := p[..|p| - 1], p[|p| - 1];
      EndsSnoc(data, b, AFTER_CSI + [0x3f] + front, last);
      assert p == front + [last];
      assert AFTER_CSI + [0x3f] + p == AFTER_CSI + [0x3f] + front + [last];
    }
  }

  lemma LocatedNext(data: Bytes, b: byte, s: Scanner)
    requires Located(data, s)
    ensures Located(data + [b], Next(s, b))
  {
    var t := Next(s, b);
    EndsEsc(data, b);
    EndsSnoc(data, b, AFTER_ESC, 0x5b);
    EndsSnoc(data, b, AFTER_CSI, 0x21);
    if t.state == 3 {
      OpenSnoc(data, b, t.params);
      if s.state == 3 {
        assert t.params[..|t.params| - 1] == s.params;
      }
    }
    forall p | EndsOpen(data + [b], p) ensures t.state == 3 && t.params == p {
      OpenIsLocated(data, b, s, p);
    }
  }

  lemma OpenIsLocated(data: Bytes, b: byte, s: Scanner, p: Bytes)
    requires Located(data, s) && EndsOpen(data + [b], p)
    ensures Next(s, b).state == 3 && Next(s, b).params == p
  {
    OpenSnoc(data, b, p);
    if p != [] {
      assert EndsOpen(data, p[..|p| - 1]);
      assert p == p[..|p| - 1] + [b];
    }
  }

  lemma {:induction false} RunIsLocated(data: Bytes)
    ensures Located(data, Run(RESET, data))
  {
    if data != [] {
      var front, last := data[..|data| - 1], data[|data| - 1];
      assert front + [last] == data && Run(RESET, data) == Next(Run(RESET, front), last);
      RunIsLocated(front);
      LocatedNext(front, last, Run(RESET, front));
    }
  }

  lemma ModesSnoc(data: Bytes, b: byte, p: Bytes, on: bool)
    ensures EndsModes(data + [b], p, on) <==> b == (if on then 0x68 else 0x6c) && EndsOpen(data, p)
  {
    EndsSnoc(data, b, AFTER_CSI + [0x3f] + p, if on then 0x68 else 0x6c);
  }

  lemma ResetSnoc(data: Bytes, b: byte, s: Scanner)
    requires Located(data, s)
    ensures EndsReset(data + [b]) <==> Resets(s, b)
  {
    EndsSnoc(data, b, AFTER_ESC, 0x63);
    EndsSnoc(data, b, AFTER_CSI + [0x21], 0x70);
  }

  // The list the scanner is about to apply is the one the grammar sees.
  lemma ListSnoc(data: Bytes, b: byte, s: Scanner, p: Bytes, on: bool)
    requires Located(data, s)
    ensures EndsModes(data + [b], p, on) <==> EndsList(s, b) && p == s.params && on == (b == 0x68)
  {
    ModesSnoc(data, b, p, on);
  }

  // For every stream and every byte: a flip happens exactly when the stream up
  // to that byte ends in a control sequence that switches the screen.
  lemma FlipIffGrammar(data: Bytes, b: byte, on: bool)
    ensures FlipOn(Run(RESET, data), b) == Some(on) <==> FlipEnds(data + [b], on)
  {
    var s := Run(RESET, data);
    RunIsLocated(data);
    ResetSnoc(data, b, s);
    ListSnoc(data, b, s, s.params, on);
    SetModesIsSetFields(s.modes, s.params, on);
    if p :| EndsModes(data + [b], p, on) && HasAlt(p) {
      ListSnoc(data, b, s, p, on);
    }
  }

  // And the modes the scanner reports are those of the grammar.
  lemma {:induction false} ModesIffGrammar(data: Bytes)
    ensures Run(RESET, data).modes == ModesOf(data)
  {
    if data != [] {
      var front, b := data[..|data| - 1], data[|data| - 1];
      assert data == front + [b];
      var s := Run(RESET, front);
      ModesIffGrammar(front);
      RunIsLocated(front);
      ResetSnoc(front, b, s);
      ListSnoc(front, b, s, s.params, b == 0x68);
      SetModesIsSetFields(s.modes, s.params, b == 0x68);
      forall p, on | EndsModes(data, p, on) ensures EndsList(s, b) && p == s.params && on == (b == 0x68) {
        ListSnoc(front, b, s, p, on);
      }
    }
  }

  // ---- Chunks ----

  datatype Flip = Flip(at: nat, alt: bool)

  function Flips(s: Scanner, data: Bytes): seq<Flip> {
    if data == [] then []
    else
      var n := |data| - 1;
      var flip := FlipOn(Run(s, data[..n]), data[n]);
      Flips(s, data[..n]) + (if flip.Some? then [Flip(n, flip.value)] else [])
  }

  function Shift(flips: seq<Flip>, off: nat): (r: seq<Flip>)
    ensures |r| == |flips| && forall i :: 0 <= i < |r| ==> r[i] == Flip(flips[i].at + off, flips[i].alt)
  {
    seq(|flips|, i requires 0 <= i < |flips| => Flip(flips[i].at + off, flips[i].alt))
  }

  // Cutting a stream in two changes neither the final scanner nor any offset.
  lemma {:induction false} CutAnywhere(s: Scanner, a: Bytes, b: Bytes)
    ensures Run(s, a + b) == Run(Run(s, a), b)
    ensures Flips(s, a + b) == Flips(s, a) + Shift(Flips(Run(s, a), b), |a|)
    decreases |b|
  {
    if b == [] {
      assert a + b == a;
    } else {
      var front, last := b[..|b| - 1], b[|b| - 1];
      assert (a + b)[..|a + b| - 1] == a + front && (a + b)[|a + b| - 1] == last;
      CutAnywhere(s, a, front);
      var t, mine, flip := Run(s, a), Flips(Run(s, a), front), FlipOn(Run(Run(s, a), front), last);
      if flip.Some? {
        ShiftMore(mine, Flip(|front|, flip.value), |a|);
        Regroup(Flips(s, a), Shift(mine, |a|), [Flip(|a| + |front|, flip.value)]);
      } else {
        assert Flips(t, b) == mine;
      }
    }
  }

  lemma ShiftMore(flips: seq<Flip>, flip: Flip, off: nat)
    ensures Shift(flips + [flip], off) == Shift(flips, off) + [Flip(flip.at + off, flip.alt)]
  {
  }

  // Feeding chunks one after the other, collecting absolute offsets.
  function RunChunks(s: Scanner, chunks: seq<Bytes>): Scanner {
    if chunks == [] then s else Run(RunChunks(s, chunks[..|chunks| - 1]), chunks[|chunks| - 1])
  }

  function FlipsOfChunks(s: Scanner, chunks: seq<Bytes>): seq<Flip> {
    if chunks == [] then []
    else
      var front, last := chunks[..|chunks| - 1], chunks[|chunks| - 1];
      FlipsOfChunks(s, front) + Shift(Flips(RunChunks(s, front), last), |Flatten(front)|)
  }

  // For every starting state and every way of cutting a stream into chunks.
  lemma {:induction false} ChunkingDoesNotMatter(s: Scanner, chunks: seq<Bytes>)
    ensures RunChunks(s, chunks) == Run(s, Flatten(chunks))
    ensures FlipsOfChunks(s, chunks) == Flips(s, Flatten(chunks))
  {
    if chunks != [] {
      var front, last := chunks[..|chunks| - 1], chunks[|chunks| - 1];
      ChunkingDoesNotMatter(s, front);
      CutAnywhere(s, Flatten(front), last);
    }
  }

  // ---- Segments ----

  datatype Segment = Segment(bytes: Bytes, alt: Option<bool>)

  function LastCut(flips: seq<Flip>): nat {
    if flips == [] then 0 else flips[|flips| - 1].at + 1
  }

  // Strictly increasing offsets below `bound`.
  predicate Increasing(flips: seq<Flip>, bound: nat) {
    flips == [] || (flips[|flips| - 1].at < bound && Increasing(flips[..|flips| - 1], flips[|flips| - 1].at))
  }

  // One segment per flip, each ending exactly on its switch sequence.
  function Cut(data: Bytes, flips: seq<Flip>): seq<Segment>
    requires Increasing(flips, |data|)
  {
    if flips == [] then []
    else
      var front, last := flips[..|flips| - 1], flips[|flips| - 1];
      assert Increasing(front, last.at);
      Cut(data, front) + [Segment(data[LastCut(front)..last.at + 1], Some(last.alt))]
  }

  function Segments(data: Bytes, flips: seq<Flip>): seq<Segment>
    requires Increasing(flips, |data|)
  {
    var cut := Cut(data, flips);
    if LastCut(flips) < |data| || cut == [] then cut + [Segment(data[LastCut(flips)..], None)] else cut
  }

  lemma {:induction false} FlipsIncrease(s: Scanner, data: Bytes)
    ensures Increasing(Flips(s, data), |data|)
  {
    if data != [] {
      var n := |data| - 1;
      FlipsIncrease(s, data[..n]);
      var flips, flip := Flips(s, data[..n]), FlipOn(Run(s, data[..n]), data[n]);
      if flip.Some? {
        assert Flips(s, data)[..|flips|] == flips;
      } else {
        assert Flips(s, data) == flips;
      }
    }
  }

  function SegmentBytes(segments: seq<Segment>): (r: seq<Bytes>)
    ensures |r| == |segments| && forall i :: 0 <= i < |r| ==> r[i] == segments[i].bytes
  {
    seq(|segments|, i requires 0 <= i < |segments| => segments[i].bytes)
  }

  lemma SegmentBytesAppend(segments: seq<Segment>, last: Segment)
    ensures SegmentBytes(segments + [last]) == SegmentBytes(segments) + [last.bytes]
  {
  }

  lemma {:induction false} CutJoins(data: Bytes, flips: seq<Flip>)
    requires Increasing(flips, |data|)
    ensures |Cut(data, flips)| == |flips| && LastCut(flips) <= |data|
    ensures Flatten(SegmentBytes(Cut(data, flips))) == data[..LastCut(flips)]
  {
    if flips != [] {
      var front, last := flips[..|flips| - 1], flips[|flips| - 1];
      CutJoins(data, front);
      var seg := Segment(data[LastCut(front)..last.at + 1], Some(last.alt));
      SegmentBytesAppend(Cut(data, front), seg);
      FlattenAppend(SegmentBytes(Cut(data, front)), seg.bytes);
      assert data[..LastCut(front)] + seg.bytes == data[..last.at + 1];
    }
  }

  // No byte is withheld, delayed or reordered.
  lemma SegmentsJoin(data: Bytes, flips: seq<Flip>)
    requires Increasing(flips, |data|)
    ensures Segments(data, flips) != [] && Flatten(SegmentBytes(Segments(data, flips))) == data
  {
    CutJoins(data, flips);
    var cut, rest := Cut(data, flips), Segment(data[LastCut(flips)..], None);
    SegmentBytesAppend(cut, rest);
    FlattenAppend(SegmentBytes(cut), rest.bytes);
  }

  // The list of flips is exactly the bytes at which the scanner flips.
  lemma {:induction false} FlipsAre(s: Scanner, data: Bytes, n: nat, on: bool)
    ensures Flip(n, on) in Flips(s, data) <==> n < |data| && FlipOn(Run(s, data[..n]), data[n]) == Some(on)
  {
    if data != [] {
      var m := |data| - 1;
      FlipsAre(s, data[..m], n, on);
      assert n < m ==> data[..m][..n] == data[..n];
    }
  }

  lemma {:induction false} CutTells(data: Bytes, flips: seq<Flip>, i: nat)
    requires Increasing(flips, |data|) && i < |flips|
    ensures |Cut(data, flips)| == |flips| && Cut(data, flips)[i].alt == Some(flips[i].alt)
    ensures
      var start := if i == 0 then 0 else flips[i - 1].at + 1;
      start <= flips[i].at < |data| && Cut(data, flips)[i].bytes == data[start..flips[i].at + 1]
  {
    var front := flips[..|flips| - 1];
    CutJoins(data, front);
    if i < |front| {
      assert Increasing(front, |data|);
      CutTells(data, front, i);
    } else if i > 0 {
      assert front[i - 1] == flips[i - 1];
    }
  }

  // Segment i ends with the byte of flip i and says which way it flips; whatever
  // follows the last flip is one more segment that flips nothing.
  lemma SegmentsTell(data: Bytes, flips: seq<Flip>, i: nat)
    requires Increasing(flips, |data|)
    ensures
      var segments, rest := Segments(data, flips), LastCut(flips);
      && rest <= |data| && |segments| == |flips| + (if rest < |data| || flips == [] then 1 else 0)
      && (|segments| > |flips| ==> segments[|flips|] == Segment(data[rest..], None))
    ensures i < |flips| ==>
      var segment, start := Segments(data, flips)[i], if i == 0 then 0 else flips[i - 1].at + 1;
      start <= flips[i].at < |data| && segment == Segment(data[start..flips[i].at + 1], Some(flips[i].alt))
  {
    CutJoins(data, flips);
    if i < |flips| {
      CutTells(data, flips, i);
    }
  }

  // One more byte cuts at most one more segment.
  lemma CutGrows(s: Scanner, data: Bytes, i: nat)
    requires i < |data|
    ensures Run(s, data[..i + 1]) == Next(Run(s, data[..i]), data[i])
    ensures Increasing(Flips(s, data[..i]), |data|) && Increasing(Flips(s, data[..i + 1]), |data|)
    ensures
      var before, flip, after := Flips(s, data[..i]), FlipOn(Run(s, data[..i]), data[i]), Flips(s, data[..i + 1]);
      && LastCut(before) <= i
      && (flip.None? ==> after == before)
      && (flip.Some? ==> && LastCut(after) == i + 1
                         && Cut(data, after) == Cut(data, before) + [Segment(data[LastCut(before)..i + 1], flip)])
  {
    assert data[..i + 1][..i] == data[..i];
    FlipsIncrease(s, data[..i]);
    FlipsIncrease(s, data[..i + 1]);
    var before, flip, after := Flips(s, data[..i]), FlipOn(Run(s, data[..i]), data[i]), Flips(s, data[..i + 1]);
    if flip.Some? {
      assert after[..|before|] == before;
    } else {
      assert after == before;
    }
  }

  class AltScreenScanner {
    var state: nat
    var params: Bytes
    var alt: bool
    var appCursor: bool
    var mouse: set<Bytes>

    ghost function Model(): Scanner
      reads this
    {
      Scanner(state, params, Modes(alt, appCursor, mouse))
    }

    constructor ()
      ensures Model() == RESET
    {
      state, params, alt, appCursor, mouse := 0, [], false, false, {};
    }

    // A terminal reset or session switch forgets partial sequences and modes.
    method Forget()
      modifies this
      ensures Model() == RESET
    {
      state, params, alt, appCursor, mouse := 0, [], false, false, {};
    }

    method MouseReporting() returns (on: bool)
      ensures on <==> Model().modes.mouse != {}
    {
      on := |mouse| > 0;
    }

    // The h|l branch: flags first, then whether the screen flips.
    method EndModes(on: bool) returns (flips: bool)
      modifies this`state, this`appCursor, this`mouse
      ensures flips <==> SwitchesScreen(Split(params))
      ensures state == 0
      ensures Modes(if flips then on else alt, appCursor, mouse) == SetModes(old(Model()).modes, Split(params), on)
    {
      state := 0;
      var parts := Split(params);
      if CURSOR_PARAM in parts {
        appCursor := on;
      }
      flips := false;
      var i := 0;
      while i < |parts|
        invariant i <= |parts| && state == 0
        invariant appCursor == if CURSOR_PARAM in parts then on else old(appCursor)
        invariant mouse == (var touched := set p | p in parts[..i] && p in MOUSE_PARAMS;
                            if on then old(mouse) + touched else old(mouse) - touched)
        invariant flips <==> SwitchesScreen(parts[..i])
      {
        assert parts[..i + 1] == parts[..i] + [parts[i]];
        if parts[i] in MOUSE_PARAMS {
          mouse := if on then mouse + {parts[i]} else mouse - {parts[i]};
        }
        if parts[i] in ALT_PARAMS {
          flips := true;
        }
        i := i + 1;
      }
      assert parts[..i] == parts;
    }

    // One byte of the loop; `flip` is what the `flip` closure is called with.
    method Feed(b: byte) returns (flip: Option<bool>)
      modifies this
      ensures Model() == Next(old(Model()), b) && flip == FlipOn(old(Model()), b)
    {
      flip := None;
      match state {
        case 1 =>
          if b == 0x5b {
            state := 2;
          } else if b == 0x63 {
            state, appCursor, mouse := 0, false, {};
            flip := Some(false);
          } else {
            state := if b == ESC then 1 else 0;
          }
        case 2 =>
          if b == 0x3f {
            state, params := 3, [];
          } else if b == 0x21 {
            state := 4;
          } else {
            state := if b == ESC then 1 else 0;
          }
        case 3 =>
          if IsParam(b) {
            params := params + [b];
            if |params| > 32 {
              state := 0;
            }
          } else if b == 0x68 || b == 0x6c {
            var flips := EndModes(b == 0x68);
            flip := if flips then Some(b == 0x68) else None;
          } else {
            state := if b == ESC then 1 else 0;
          }
        case 4 =>
          if b == 0x70 {
            state, appCursor, mouse := 0, false, {};
            flip := Some(false);
          } else {
            state := if b == ESC then 1 else 0;
          }
        case _ =>
          state := if b == ESC then 1 else 0;
      }
      if flip.Some? {
        alt := flip.value;
      }
    }

    // Split a chunk at its switches; the scanner carries on where it stopped.
    method Scan(data: Bytes) returns (out: seq<Segment>)
      modifies this
      ensures Model() == Run(old(Model()), data)
      ensures Increasing(Flips(old(Model()), data), |data|)
      ensures out == Segments(data, Flips(old(Model()), data))
      ensures Flatten(SegmentBytes(out)) == data
    {
      ghost var s := Model();
      out := [];
      var start := 0;
      var i := 0;
      while i < |data|
        invariant i <= |data| && Model() == Run(s, data[..i])
        invariant Increasing(Flips(s, data[..i]), |data|) && start == LastCut(Flips(s, data[..i]))
        invariant start <= i && out == Cut(data, Flips(s, data[..i]))
      {
        CutGrows(s, data, i);
        var flip := Feed(data[i]);
        if flip.Some? {
          out := out + [Segment(data[start..i + 1], flip)];
          start := i + 1;
        }
        i := i + 1;
      }
      assert data[..i] == data;
      if start < |data| || |out| == 0 {
        out := out + [Segment(data[start..], None)];
      }
      SegmentsJoin(data, Flips(s, data));
    }
  }
}
