// The chat feed built from an agent timeline (app/src/AgentView.tsx:109-200).
//
// The code keeps one list of rows, an index of the open tool rows and the
// position of the turn's plan row. The specification looks at each row alone:
// which event opened it, and what later events add to it.
module Feed {
  import opened Bytes

  datatype ToolFields = ToolFields(title: string, kind: string, status: string, detail: Option<string>)

  datatype Event =
    | UserMessage(text: string)
    | TurnStarted
    | MessageChunk(text: string)
    | ThoughtChunk(text: string)
    | ToolCall(id: string, fields: ToolFields)
    | ToolCallUpdate(id: string, title: Option<string>, kind: Option<string>,
      status: Option<string>, detail: Option<string>)
    | Plan(entries: seq<string>)
    | TurnFinished
    | ErrorEvent(message: string)
    | StateOnly // session_started and the seven state kinds: no row

  datatype Item = Item(seqNo: int, event: Event)

  datatype Row =
    | User(text: string, seqNo: int)
    | Assistant(text: string, seqNo: int)
    | Thought(text: string, seqNo: int)
    | Tool(id: string, fields: ToolFields, seqNo: int)
    | PlanRow(entries: seq<string>, seqNo: int)
    | ErrorRow(message: string, seqNo: int)
    | Working(seqNo: int)

  // ---- Which events open a row ----

  // A plan was sent since the last turn finished.
  predicate PlanOpen(items: seq<Item>, n: nat)
    requires n <= |items|
  {
    n > 0 && (items[n - 1].event.Plan? || (!items[n - 1].event.TurnFinished? && PlanOpen(items, n - 1)))
  }

  // Event k opens a row: chunks only when the latest row is of another kind,
  // plans only when the turn has none yet.
  predicate Opens(items: seq<Item>, k: nat)
    requires k < |items|
    decreases k, 1
  {
    var before := Openers(items, k);
    match items[k].event
    case UserMessage(_) => true
    case ErrorEvent(_) => true
    case ToolCall(_, _) => true
    case MessageChunk(_) => before == [] || !items[before[|before| - 1]].event.MessageChunk?
    case ThoughtChunk(_) => before == [] || !items[before[|before| - 1]].event.ThoughtChunk?
    case Plan(_) => !PlanOpen(items, k)
    case _ => false
  }

  // The events among the first n that opened a row, in order.
  function Openers(items: seq<Item>, n: nat): (os: seq<nat>)
    requires n <= |items|
    ensures |os| <= n && forall j :: 0 <= j < |os| ==> os[j] < n
    decreases n, 0
  {
    if n == 0 then [] else Openers(items, n - 1) + if Opens(items, n - 1) then [n - 1] else []
  }

  // ---- What a row shows ----

  function Opening(item: Item): Row {
    match item.event
    case UserMessage(text) => User(text, item.seqNo)
    case MessageChunk(text) => Assistant(text, item.seqNo)
    case ThoughtChunk(text) => Thought(text, item.seqNo)
    case ToolCall(id, fields) => Tool(id, fields, item.seqNo)
    case Plan(entries) => PlanRow(entries, item.seqNo)
    case ErrorEvent(message) => ErrorRow(message, item.seqNo)
    case _ => Working(item.seqNo)
  }

  // No turn finished strictly between o and n.
  ghost predicate SameTurn(items: seq<Item>, o: nat, n: nat)
    requires o <= n <= |items|
  {
    forall k :: o < k < n ==> !items[k].event.TurnFinished?
  }

  // Nor was the tool called again.
  ghost predicate Live(items: seq<Item>, o: nat, n: nat, id: string)
    requires o <= n <= |items|
  {
    SameTurn(items, o, n) && forall k :: o < k < n && items[k].event.ToolCall? ==> items[k].event.id != id
  }

  // event.x ?? tool.x
  function Updated(f: ToolFields, e: Event): ToolFields
    requires e.ToolCallUpdate?
  {
    ToolFields(
      if e.title.Some? then e.title.value else f.title,
      if e.kind.Some? then e.kind.value else f.kind,
      if e.status.Some? then e.status.value else f.status,
      if e.detail.Some? then e.detail else f.detail)
  }

  // The row was the latest one when event k arrived.
  predicate IsNewestRow(items: seq<Item>, o: nat, k: nat)
    requires k <= |items|
  {
    var before := Openers(items, k);
    before != [] && before[|before| - 1] == o
  }

  // What event k makes of the row opened by o.
  ghost function Grow(items: seq<Item>, o: nat, k: nat, row: Row): Row
    requires o < k < |items|
  {
    var e := items[k].event;
    match row
    case Assistant(text, seqNo) =>
      if e.MessageChunk? && IsNewestRow(items, o, k) then Assistant(text + e.text, seqNo) else row
    case Thought(text, seqNo) =>
      if e.ThoughtChunk? && IsNewestRow(items, o, k) then Thought(text + e.text, seqNo) else row
    case Tool(id, fields, seqNo) =>
      if e.ToolCallUpdate? && e.id == id && Live(items, o, k, id) then Tool(id, Updated(fields, e), seqNo) else row
    case PlanRow(entries, seqNo) =>
      if e.Plan? && SameTurn(items, o, k) then PlanRow(e.entries, items[k].seqNo) else row
    case _ => row
  }

  // The row opened by o, after n events.
  ghost function RowAt(items: seq<Item>, o: nat, n: nat): Row
    requires o < n <= |items|
  {
    if n == o + 1 then Opening(items[o]) else Grow(items, o, n - 1, RowAt(items, o, n - 1))
  }

  ghost function Rows(items: seq<Item>, n: nat): (rows: seq<Row>)
    requires n <= |items|
    ensures |rows| == |Openers(items, n)|
    ensures forall j :: 0 <= j < |rows| ==> rows[j] == RowAt(items, Openers(items, n)[j], n)
  {
    var os := Openers(items, n);
    seq(|os|, j requires 0 <= j < |os| => RowAt(items, os[j], n))
  }

  function Running(items: seq<Item>, n: nat): bool
    requires n <= |items|
  {
    n > 0 && (items[n - 1].event.TurnStarted? || (!items[n - 1].event.TurnFinished? && Running(items, n - 1)))
  }

  // ---- The indices the code keeps ----

  // Row j is tool `id`, and updates for `id` still reach it.
  ghost predicate LiveTool(items: seq<Item>, n: nat, j: nat, id: string)
    requires n <= |items|
  {
    var os := Openers(items, n);
    j < |os| && items[os[j]].event.ToolCall? && items[os[j]].event.id == id && Live(items, os[j], n, id)
  }

  // Row j is this turn's plan.
  ghost predicate LivePlan(items: seq<Item>, n: nat, j: nat)
    requires n <= |items|
  {
    var os := Openers(items, n);
    j < |os| && items[os[j]].event.Plan? && SameTurn(items, os[j], n)
  }

  ghost predicate ToolsIndexed(items: seq<Item>, n: nat, toolIndex: map<string, nat>)
    requires n <= |items|
  {
    forall j: nat, id :: LiveTool(items, n, j, id) <==> id in toolIndex && toolIndex[id] == j
  }

  ghost predicate PlanIndexed(items: seq<Item>, n: nat, planIndex: Option<nat>)
    requires n <= |items|
  {
    (planIndex.Some? <==> PlanOpen(items, n)) && forall j: nat :: LivePlan(items, n, j) <==> planIndex == Some(j)
  }

  lemma LiveToolStep(items: seq<Item>, n: nat, j: nat, id: string)
    requires n < |items|
    ensures
      var e := items[n].event;
      LiveTool(items, n + 1, j, id) <==>
        if e.ToolCall? && e.id == id then j == |Openers(items, n)| else !e.TurnFinished? && LiveTool(items, n, j, id)
  {
    var os, more := Openers(items, n), Openers(items, n + 1);
    assert more == os + if Opens(items, n) then [n] else [];
    if j < |os| {
      assert more[j] == os[j];
      assert Live(items, os[j], n + 1, id) ==> Live(items, os[j], n, id);
    }
  }

  lemma LivePlanStep(items: seq<Item>, n: nat, j: nat)
    requires n < |items|
    ensures
      var e := items[n].event;
      LivePlan(items, n + 1, j) <==>
        (!e.TurnFinished? && LivePlan(items, n, j)) || (e.Plan? && !PlanOpen(items, n) && j == |Openers(items, n)|)
  {
    var os, more := Openers(items, n), Openers(items, n + 1);
    assert more == os + if Opens(items, n) then [n] else [];
    if j < |os| {
      assert more[j] == os[j];
      assert SameTurn(items, os[j], n + 1) ==> SameTurn(items, os[j], n);
    }
  }

  lemma ToolsStep(items: seq<Item>, n: nat, toolIndex: map<string, nat>, next: map<string, nat>)
    requires n < |items| && ToolsIndexed(items, n, toolIndex)
    requires
      var e := items[n].event;
      next ==
        if e.ToolCall? then toolIndex[e.id := |Openers(items, n)|]
        else if e.TurnFinished? then map[] else toolIndex
    ensures ToolsIndexed(items, n + 1, next)
  {
    var m := n + 1;
    forall j: nat, id ensures LiveTool(items, m, j, id) <==> id in next && next[id] == j {
      LiveToolStep(items, n, j, id);
    }
  }

  lemma PlanStep(items: seq<Item>, n: nat, planIndex: Option<nat>, next: Option<nat>)
    requires n < |items| && PlanIndexed(items, n, planIndex)
    requires
      var e := items[n].event;
      next ==
        if e.Plan? && planIndex.None? then Some(|Openers(items, n)|)
        else if e.TurnFinished? then None else planIndex
    ensures PlanIndexed(items, n + 1, next)
  {
    forall j: nat ensures LivePlan(items, n + 1, j) <==> next == Some(j) {
      LivePlanStep(items, n, j);
    }
  }

  // ---- One event ----

  // Row j, one event later.
  lemma RowStep(items: seq<Item>, n: nat, j: nat)
    requires n < |items| && j < |Openers(items, n)|
    ensures
      var o := Openers(items, n)[j];
      j < |Rows(items, n + 1)| && Rows(items, n + 1)[j] == Grow(items, o, n, Rows(items, n)[j])
  {
    assert Openers(items, n + 1)[j] == Openers(items, n)[j];
  }

  // Only the row that opened, the row that grew, or nothing changed.
  lemma StepRows(items: seq<Item>, n: nat, feed: seq<Row>)
    requires n < |items| && |feed| == |Openers(items, n + 1)|
    requires forall j :: 0 <= j < |Openers(items, n)| ==>
      feed[j] == Grow(items, Openers(items, n)[j], n, Rows(items, n)[j])
    requires Opens(items, n) ==> feed[|feed| - 1] == Opening(items[n])
    ensures feed == Rows(items, n + 1)
  {
    forall j | 0 <= j < |feed| ensures feed[j] == Rows(items, n + 1)[j] {
      if j < |Openers(items, n)| {
        RowStep(items, n, j);
      }
    }
  }

  // A row is of the kind of its opening event.
  ghost predicate Matches(row: Row, item: Item) {
    match item.event
    case UserMessage(text) => row == User(text, item.seqNo)
    case ErrorEvent(message) => row == ErrorRow(message, item.seqNo)
    case MessageChunk(text) => row.Assistant? && row.seqNo == item.seqNo && text <= row.text
    case ThoughtChunk(text) => row.Thought? && row.seqNo == item.seqNo && text <= row.text
    case ToolCall(id, _) => row.Tool? && row.seqNo == item.seqNo && row.id == id
    case Plan(_) => row.PlanRow?
    case _ => true
  }

  // A user or error row shows its message for good, and nothing else ever does.
  lemma {:induction false} RowMatches(items: seq<Item>, o: nat, n: nat)
    requires o < n <= |items|
    ensures Matches(RowAt(items, o, n), items[o])
    decreases n
  {
    if n > o + 1 {
      RowMatches(items, o, n - 1);
    }
  }

  lemma {:induction false} OpenersOpen(items: seq<Item>, n: nat, j: nat)
    requires n <= |items| && j < |Openers(items, n)|
    ensures Opens(items, Openers(items, n)[j])
    decreases n
  {
    if j < |Openers(items, n - 1)| {
      OpenersOpen(items, n - 1, j);
    }
  }

  // The rows before row j were all opened before it.
  lemma {:induction false} OpenersBefore(items: seq<Item>, n: nat, j: nat)
    requires n <= |items| && j < |Openers(items, n)|
    ensures Openers(items, Openers(items, n)[j]) == Openers(items, n)[..j]
    decreases n
  {
    var os, all := Openers(items, n - 1), Openers(items, n);
    if j < |os| {
      OpenersBefore(items, n - 1, j);
      assert all[j] == os[j] && all[..j] == os[..j];
    } else {
      assert all[j] == n - 1 && all[..j] == os;
    }
  }

  lemma KindOf(items: seq<Item>, n: nat, j: nat)
    requires n <= |items| && j < |Openers(items, n)|
    ensures
      var row, e := Rows(items, n)[j], items[Openers(items, n)[j]].event;
      && (row.User? <==> e.UserMessage?)
      && (row.Assistant? <==> e.MessageChunk?)
      && (row.Thought? <==> e.ThoughtChunk?)
      && (row.Tool? <==> e.ToolCall?)
      && (row.Tool? ==> row.id == e.id)
      && (row.PlanRow? <==> e.Plan?)
      && (row.ErrorRow? <==> e.ErrorEvent?)
      && !row.Working?
  {
    OpenersOpen(items, n, j);
    RowMatches(items, Openers(items, n)[j], n);
  }

  lemma {:induction false} OpenersIncrease(items: seq<Item>, n: nat, i: nat, j: nat)
    requires n <= |items| && i < j < |Openers(items, n)|
    ensures Openers(items, n)[i] < Openers(items, n)[j]
    decreases n
  {
    var os := Openers(items, n - 1);
    if j < |os| {
      OpenersIncrease(items, n - 1, i, j);
    }
  }

  predicate IsChunk(item: Item) {
    item.event.MessageChunk? || item.event.ThoughtChunk?
  }

  // A chunk put into the rows: onto the latest row if that is of its kind, else
  // as a row of its own.
  function Chunked(rows: seq<Row>, item: Item): seq<Row>
    requires IsChunk(item)
  {
    if rows == [] then [Opening(item)]
    else
      var front, last := rows[..|rows| - 1], rows[|rows| - 1];
      if item.event.MessageChunk? && last.Assistant? then front + [last.(text := last.text + item.event.text)]
      else if item.event.ThoughtChunk? && last.Thought? then front + [last.(text := last.text + item.event.text)]
      else rows + [Opening(item)]
  }

  lemma ChunkStep(items: seq<Item>, n: nat, feed: seq<Row>)
    requires n < |items| && IsChunk(items[n]) && feed == Chunked(Rows(items, n), items[n])
    ensures feed == Rows(items, n + 1)
  {
    var os, rows := Openers(items, n), Rows(items, n);
    if os != [] {
      KindOf(items, n, |os| - 1);
    }
    forall j | 0 <= j < |os| ensures feed[j] == Grow(items, os[j], n, rows[j]) {
      if j < |os| - 1 {
        OpenersIncrease(items, n, j, |os| - 1);
        assert !IsNewestRow(items, os[j], n);
      } else {
        assert IsNewestRow(items, os[j], n);
      }
    }
    StepRows(items, n, feed);
  }

  // An update reaches the live row of its tool, and no other row.
  lemma UpdateStep(items: seq<Item>, n: nat, toolIndex: map<string, nat>, feed: seq<Row>)
    requires n < |items| && ToolsIndexed(items, n, toolIndex) && items[n].event.ToolCallUpdate?
    requires
      var rows, e := Rows(items, n), items[n].event;
      feed ==
        if e.id in toolIndex && toolIndex[e.id] < |rows| && rows[toolIndex[e.id]].Tool? then
          var j := toolIndex[e.id];
          rows[j := rows[j].(fields := Updated(rows[j].fields, e))]
        else rows
    ensures feed == Rows(items, n + 1)
  {
    var os, rows, e := Openers(items, n), Rows(items, n), items[n].event;
    if e.id in toolIndex {
      assert LiveTool(items, n, toolIndex[e.id], e.id);
    }
    forall j | 0 <= j < |os| ensures feed[j] == Grow(items, os[j], n, rows[j]) {
      KindOf(items, n, j);
      assert LiveTool(items, n, j, e.id) <==> e.id in toolIndex && toolIndex[e.id] == j;
    }
    StepRows(items, n, feed);
  }

  // A plan replaces the turn's plan row, or opens one.
  lemma PlanRowStep(items: seq<Item>, n: nat, planIndex: Option<nat>, feed: seq<Row>)
    requires n < |items| && PlanIndexed(items, n, planIndex) && items[n].event.Plan?
    requires
      var rows := Rows(items, n);
      if planIndex.None? then feed == rows + [Opening(items[n])]
      else planIndex.value < |rows| && feed == rows[planIndex.value := Opening(items[n])]
    ensures feed == Rows(items, n + 1)
  {
    var os, rows := Openers(items, n), Rows(items, n);
    forall j | 0 <= j < |os| ensures feed[j] == Grow(items, os[j], n, rows[j]) {
      KindOf(items, n, j);
      assert LivePlan(items, n, j) <==> planIndex == Some(j);
    }
    StepRows(items, n, feed);
  }

  // Any other event leaves the rows alone and may open one.
  lemma OtherStep(items: seq<Item>, n: nat, feed: seq<Row>)
    requires n < |items|
    requires
      var e := items[n].event;
      && !e.MessageChunk? && !e.ThoughtChunk? && !e.ToolCallUpdate? && !e.Plan?
      && feed == Rows(items, n) + if e.UserMessage? || e.ToolCall? || e.ErrorEvent? then [Opening(items[n])] else []
    ensures feed == Rows(items, n + 1)
  {
    StepRows(items, n, feed);
  }

  // ---- The loop ----

  method BuildFeed(items: seq<Item>) returns (feed: seq<Row>)
    ensures feed == Rows(items, |items|) +
      if Running(items, |items|) then [Working(items[|items| - 1].seqNo + 1)] else []
  {
    feed := [];
    var toolIndex: map<string, nat> := map[];
    var planIndex: Option<nat> := None;
    var running, lastSeq := false, 0;
    var n := 0;
    while n < |items|
      invariant n <= |items|
      invariant feed == Rows(items, n)
      invariant ToolsIndexed(items, n, toolIndex)
      invariant PlanIndexed(items, n, planIndex)
      invariant running == Running(items, n) && (n > 0 ==> lastSeq == items[n - 1].seqNo)
    {
      var item := items[n];
      ghost var tools, plan := toolIndex, planIndex;
      lastSeq := item.seqNo;
      if item.event.TurnStarted? {
        running := true;
      }
      if item.event.TurnFinished? {
        running := false;
      }
      match item.event {
        case UserMessage(text) =>
          feed := feed + [User(text, item.seqNo)];
          OtherStep(items, n, feed);
        case MessageChunk(text) =>
          if feed != [] && feed[|feed| - 1].Assistant? {
            var last := feed[|feed| - 1];
            feed := feed[..|feed| - 1] + [last.(text := last.text + text)];
          } else {
            feed := feed + [Assistant(text, item.seqNo)];
          }
          ChunkStep(items, n, feed);
        case ThoughtChunk(text) =>
          if feed != [] && feed[|feed| - 1].Thought? {
            var last := feed[|feed| - 1];
            feed := feed[..|feed| - 1] + [last.(text := last.text + text)];
          } else {
            feed := feed + [Thought(text, item.seqNo)];
          }
          ChunkStep(items, n, feed);
        case ToolCall(id, fields) =>
          toolIndex := toolIndex[id := |feed|];
          feed := feed + [Tool(id, fields, item.seqNo)];
          OtherStep(items, n, feed);
        case ToolCallUpdate(id, _, _, _, _) =>
          if id in toolIndex && toolIndex[id] < |feed| && feed[toolIndex[id]].Tool? {
            var tool := feed[toolIndex[id]];
            feed := feed[toolIndex[id] := tool.(fields := Updated(tool.fields, item.event))];
          }
          UpdateStep(items, n, toolIndex, feed);
        case Plan(entries) =>
          if planIndex.None? {
            planIndex := Some(|feed|);
            feed := feed + [PlanRow(entries, item.seqNo)];
          } else {
            assert LivePlan(items, n, planIndex.value);
            feed := feed[planIndex.value := PlanRow(entries, item.seqNo)];
          }
          PlanRowStep(items, n, plan, feed);
        case TurnFinished =>
          planIndex := None;
          toolIndex := map[];
          OtherStep(items, n, feed);
        case ErrorEvent(message) =>
          feed := feed + [ErrorRow(message, item.seqNo)];
          OtherStep(items, n, feed);
        case TurnStarted =>
          OtherStep(items, n, feed);
        case StateOnly =>
          OtherStep(items, n, feed);
      }
      ToolsStep(items, n, tools, toolIndex);
      PlanStep(items, n, plan, planIndex);
      n := n + 1;
    }
    if running {
      feed := feed + [Working(lastSeq + 1)];
    }
  }

  // ---- What the feed promises ----

  // A row, some events later: same kind and identity, text only grows.
  predicate Later(before: Row, after: Row) {
    match before
    case User(_, _) => after == before
    case ErrorRow(_, _) => after == before
    case Assistant(text, seqNo) => after.Assistant? && after.seqNo == seqNo && text <= after.text
    case Thought(text, seqNo) => after.Thought? && after.seqNo == seqNo && text <= after.text
    case Tool(id, _, seqNo) => after.Tool? && after.seqNo == seqNo && after.id == id
    case PlanRow(_, _) => after.PlanRow?
    case Working(_) => after.Working?
  }

  // Looking at a prefix of the events, or at the first n of all of them, is the same.
  lemma {:induction false} LocalOpeners(items: seq<Item>, more: seq<Item>, n: nat)
    requires n <= |items|
    ensures Openers(items + more, n) == Openers(items, n) && PlanOpen(items + more, n) == PlanOpen(items, n)
    decreases n
  {
    if n > 0 {
      LocalOpeners(items, more, n - 1);
      assert (items + more)[n - 1] == items[n - 1];
      var os := Openers(items, n - 1);
      assert os != [] ==> (items + more)[os[|os| - 1]] == items[os[|os| - 1]];
    }
  }

  lemma {:induction false} LocalRow(items: seq<Item>, more: seq<Item>, o: nat, n: nat)
    requires o < n <= |items|
    ensures RowAt(items + more, o, n) == RowAt(items, o, n)
    decreases n
  {
    if n > o + 1 {
      LocalRow(items, more, o, n - 1);
      LocalGrow(items, more, o, n - 1, RowAt(items, o, n - 1));
    }
  }

  lemma LocalGrow(items: seq<Item>, more: seq<Item>, o: nat, k: nat, row: Row)
    requires o < k < |items|
    ensures Grow(items + more, o, k, row) == Grow(items, o, k, row)
  {
    var all := items + more;
    assert forall l :: 0 <= l <= k ==> all[l] == items[l];
    LocalOpeners(items, more, k);
  }

  lemma LocalRows(items: seq<Item>, more: seq<Item>)
    ensures Rows(items + more, |items|) == Rows(items, |items|)
  {
    var n, os := |items|, Openers(items, |items|);
    LocalOpeners(items, more, n);
    forall j | 0 <= j < |os| ensures RowAt(items + more, os[j], n) == RowAt(items, os[j], n) {
      LocalRow(items, more, os[j], n);
    }
  }

  lemma {:induction false} RowsGrow(items: seq<Item>, n: nat, m: nat, j: nat)
    requires n <= m <= |items| && j < |Rows(items, n)|
    ensures j < |Rows(items, m)| && Later(Rows(items, n)[j], Rows(items, m)[j])
    decreases m
  {
    if n < m {
      RowsGrow(items, n, m - 1, j);
      RowStep(items, m - 1, j);
    }
  }

  // More events never remove a row, move it, change its kind or shorten its text.
  lemma FeedOnlyGrows(items: seq<Item>, more: seq<Item>)
    ensures
      var before, after := Rows(items, |items|), Rows(items + more, |items + more|);
      |before| <= |after| && forall j :: 0 <= j < |before| ==> Later(before[j], after[j])
  {
    var before, after := Rows(items, |items|), Rows(items + more, |items + more|);
    LocalRows(items, more);
    forall j | 0 <= j < |before| ensures j < |after| && Later(before[j], after[j]) {
      RowsGrow(items + more, |items|, |items + more|, j);
    }
    if |before| > 0 {
      RowsGrow(items + more, |items|, |items + more|, |before| - 1);
    }
  }

  // Two assistant rows, or two thought rows, never stand next to each other.
  lemma NoTwins(items: seq<Item>, j: nat)
    requires j + 1 < |Rows(items, |items|)|
    ensures
      var rows := Rows(items, |items|);
      !(rows[j].Assistant? && rows[j + 1].Assistant?) && !(rows[j].Thought? && rows[j + 1].Thought?)
  {
    KindOf(items, |items|, j);
    KindOf(items, |items|, j + 1);
    OpenersOpen(items, |items|, j + 1);
    OpenersBefore(items, |items|, j + 1);
  }

  // ---- No text is lost or moved ----

  function Text(row: Row, thought: bool): string {
    if thought then (if row.Thought? then row.text else "")
    else if row.Assistant? then row.text
    else ""
  }

  function Spoken(rows: seq<Row>, thought: bool): string {
    if rows == [] then "" else Spoken(rows[..|rows| - 1], thought) + Text(rows[|rows| - 1], thought)
  }

  function ChunkText(e: Event, thought: bool): string {
    if thought then (if e.ThoughtChunk? then e.text else "")
    else if e.MessageChunk? then e.text
    else ""
  }

  function Streamed(items: seq<Item>, n: nat, thought: bool): string
    requires n <= |items|
  {
    if n == 0 then "" else Streamed(items, n - 1, thought) + ChunkText(items[n - 1].event, thought)
  }

  lemma {:induction false} SpokenSame(a: seq<Row>, b: seq<Row>, thought: bool)
    requires |a| == |b| && forall j :: 0 <= j < |a| ==> Text(a[j], thought) == Text(b[j], thought)
    ensures Spoken(a, thought) == Spoken(b, thought)
  {
    if a != [] {
      SpokenSame(a[..|a| - 1], b[..|b| - 1], thought);
    }
  }

  lemma SpokenMore(rows: seq<Row>, row: Row, thought: bool)
    ensures Spoken(rows + [row], thought) == Spoken(rows, thought) + Text(row, thought)
  {
    assert (rows + [row])[..|rows|] == rows;
  }

  lemma ChunkSpoken(rows: seq<Row>, item: Item, thought: bool)
    requires IsChunk(item)
    ensures Spoken(Chunked(rows, item), thought) == Spoken(rows, thought) + ChunkText(item.event, thought)
  {
    SpokenMore(rows, Opening(item), thought);
    if rows != [] {
      var front, last := rows[..|rows| - 1], rows[|rows| - 1];
      if last.Assistant? || last.Thought? {
        SpokenMore(front, last.(text := last.text + item.event.text), thought);
        Regroup(Spoken(front, thought), last.text, item.event.text);
      }
    } else {
      assert rows + [Opening(item)] == Chunked(rows, item);
    }
  }

  lemma OtherSpoken(items: seq<Item>, n: nat, thought: bool)
    requires n < |items| && !IsChunk(items[n])
    ensures Spoken(Rows(items, n + 1), thought) == Spoken(Rows(items, n), thought)
  {
    var before, after := Rows(items, n), Rows(items, n + 1);
    SameTexts(items, n, thought);
    var same := after[..|before|];
    SpokenSame(same, before, thought);
    if Opens(items, n) {
      assert after == same + [after[|before|]];
      SpokenMore(same, after[|before|], thought);
    } else {
      assert same == after;
    }
  }

  lemma SameTexts(items: seq<Item>, n: nat, thought: bool)
    requires n < |items| && !IsChunk(items[n])
    ensures
      var before, after := Rows(items, n), Rows(items, n + 1);
      && |after| == |before| + (if Opens(items, n) then 1 else 0)
      && (forall j :: 0 <= j < |before| ==> Text(after[j], thought) == Text(before[j], thought))
      && (Opens(items, n) ==> Text(after[|before|], thought) == "")
  {
    var before, after := Rows(items, n), Rows(items, n + 1);
    forall j | 0 <= j < |before| ensures j < |after| && Text(after[j], thought) == Text(before[j], thought) {
      RowStep(items, n, j);
    }
    assert Opens(items, n) ==> after[|before|] == Opening(items[n]);
  }

  // The assistant rows, read in order, are all message chunks in order; the
  // thought rows are all thought chunks.
  lemma {:induction false} FeedKeepsAllText(items: seq<Item>, n: nat, thought: bool)
    requires n <= |items|
    ensures Spoken(Rows(items, n), thought) == Streamed(items, n, thought)
    decreases n
  {
    if n == 0 {
      assert Rows(items, n) == [];
    } else {
      var k := n - 1;
      FeedKeepsAllText(items, k, thought);
      StepSpoken(items, k, thought);
      assert Streamed(items, n, thought) == Streamed(items, k, thought) + ChunkText(items[k].event, thought);
    }
  }

  lemma StepSpoken(items: seq<Item>, n: nat, thought: bool)
    requires n < |items|
    ensures Spoken(Rows(items, n + 1), thought) == Spoken(Rows(items, n), thought) + ChunkText(items[n].event, thought)
  {
    if IsChunk(items[n]) {
      ChunkStep(items, n, Chunked(Rows(items, n), items[n]));
      ChunkSpoken(Rows(items, n), items[n], thought);
    } else {
      OtherSpoken(items, n, thought);
    }
  }

  // ---- No message, error or tool call is lost or made up ----

  // What a row shows unchanged for good: a message with its number, an error with
  // its number, or the id of a tool with the number of its call.
  datatype Fixed = Said(text: string, seqNo: int) | Erred(message: string, seqNo: int) | Called(id: string, seqNo: int)

  function Shown(row: Row): seq<Fixed> {
    match row
    case User(text, seqNo) => [Said(text, seqNo)]
    case ErrorRow(message, seqNo) => [Erred(message, seqNo)]
    case Tool(id, _, seqNo) => [Called(id, seqNo)]
    case _ => []
  }

  function AllShown(rows: seq<Row>): seq<Fixed> {
    if rows == [] then [] else AllShown(rows[..|rows| - 1]) + Shown(rows[|rows| - 1])
  }

  function Given(item: Item): seq<Fixed> {
    match item.event
    case UserMessage(text) => [Said(text, item.seqNo)]
    case ErrorEvent(message) => [Erred(message, item.seqNo)]
    case ToolCall(id, _) => [Called(id, item.seqNo)]
    case _ => []
  }

  function AllGiven(items: seq<Item>, n: nat): seq<Fixed>
    requires n <= |items|
  {
    if n == 0 then [] else AllGiven(items, n - 1) + Given(items[n - 1])
  }

  // What the events that opened the rows gave.
  function GivenBy(items: seq<Item>, os: seq<nat>): seq<Fixed>
    requires forall j :: 0 <= j < |os| ==> os[j] < |items|
  {
    if os == [] then [] else GivenBy(items, os[..|os| - 1]) + Given(items[os[|os| - 1]])
  }

  lemma {:induction false} ShownByOpeners(items: seq<Item>, os: seq<nat>, rows: seq<Row>)
    requires |rows| == |os| && forall j :: 0 <= j < |os| ==> os[j] < |items|
    requires forall j :: 0 <= j < |os| ==> Shown(rows[j]) == Given(items[os[j]])
    ensures AllShown(rows) == GivenBy(items, os)
  {
    if os != [] {
      ShownByOpeners(items, os[..|os| - 1], rows[..|rows| - 1]);
    }
  }

  lemma {:induction false} OpenersGiveAll(items: seq<Item>, n: nat)
    requires n <= |items|
    ensures GivenBy(items, Openers(items, n)) == AllGiven(items, n)
    decreases n
  {
    if n > 0 {
      var k := n - 1;
      OpenersGiveAll(items, k);
      if Opens(items, k) {
        assert Openers(items, n) == Openers(items, k) + [k];
        GivenMore(items, Openers(items, k), k);
      } else {
        assert Openers(items, n) == Openers(items, k);
        assert Given(items[k]) == [];
      }
    }
  }

  lemma GivenMore(items: seq<Item>, os: seq<nat>, k: nat)
    requires k < |items| && forall j :: 0 <= j < |os| ==> os[j] < |items|
    ensures GivenBy(items, os + [k]) == GivenBy(items, os) + Given(items[k])
  {
    assert (os + [k])[..|os|] == os;
  }

  lemma RowShowsGiven(items: seq<Item>, n: nat, j: nat)
    requires n <= |items| && j < |Openers(items, n)|
    ensures Shown(Rows(items, n)[j]) == Given(items[Openers(items, n)[j]])
  {
    OpenersOpen(items, n, j);
    RowMatches(items, Openers(items, n)[j], n);
  }

  // The user, error and tool rows, in order, are exactly the messages, errors and
  // tool calls in order.
  lemma FeedKeepsAllEvents(items: seq<Item>, n: nat)
    requires n <= |items|
    ensures AllShown(Rows(items, n)) == AllGiven(items, n)
  {
    forall j | 0 <= j < |Openers(items, n)| ensures Shown(Rows(items, n)[j]) == Given(items[Openers(items, n)[j]]) {
      RowShowsGiven(items, n, j);
    }
    ShownByOpeners(items, Openers(items, n), Rows(items, n));
    OpenersGiveAll(items, n);
  }

  // A plan has a row in its turn, and a text chunk is in the latest row.
  lemma EveryEventIsShown(items: seq<Item>, k: nat, n: nat)
    requires k < n <= |items| && n == k + 1
    ensures items[k].event.Plan? ==> exists j: nat :: LivePlan(items, n, j)
    ensures
      var os := Openers(items, n);
      && (items[k].event.MessageChunk? ==> os != [] && items[os[|os| - 1]].event.MessageChunk?)
      && (items[k].event.ThoughtChunk? ==> os != [] && items[os[|os| - 1]].event.ThoughtChunk?)
  {
    if items[k].event.Plan? {
      PlanHasRow(items, n);
    }
  }

  lemma {:induction false} PlanHasRow(items: seq<Item>, n: nat)
    requires n <= |items| && PlanOpen(items, n)
    ensures exists j: nat :: LivePlan(items, n, j)
    decreases n
  {
    var k := n - 1;
    if PlanOpen(items, k) {
      PlanHasRow(items, k);
      var j: nat :| LivePlan(items, k, j);
      LivePlanStep(items, k, j);
      assert LivePlan(items, n, j);
    } else {
      LivePlanStep(items, k, |Openers(items, k)|);
      assert LivePlan(items, n, |Openers(items, k)|);
    }
  }

  // ---- A tool row shows the last fields given ----

  // Event k updates the tool row opened by o.
  ghost predicate Reaches(items: seq<Item>, o: nat, k: nat)
    requires o < k < |items| && items[o].event.ToolCall?
  {
    items[k].event.ToolCallUpdate? && items[k].event.id == items[o].event.id && Live(items, o, k, items[o].event.id)
  }

  // The last value given to a field before n, or the one it was opened with.
  ghost function LastGiven<T>(items: seq<Item>, o: nat, n: nat, first: T, field: Event -> Option<T>): T
    requires o < n <= |items| && items[o].event.ToolCall?
  {
    if n == o + 1 then first
    else if Reaches(items, o, n - 1) && field(items[n - 1].event).Some? then field(items[n - 1].event).value
    else LastGiven(items, o, n - 1, first, field)
  }

  // Event k gives the field a value and no later event does; k == o if none does.
  ghost predicate GivenLast<T>(items: seq<Item>, o: nat, k: nat, n: nat, field: Event -> Option<T>)
    requires o <= k < n <= |items| && items[o].event.ToolCall?
  {
    && (k > o ==> Reaches(items, o, k) && field(items[k].event).Some?)
    && forall l :: k < l < n && Reaches(items, o, l) ==> field(items[l].event).None?
  }

  lemma {:induction false} LastGivenIsLast<T>(items: seq<Item>, o: nat, k: nat, n: nat,
    first: T, field: Event -> Option<T>)
    requires o <= k < n <= |items| && items[o].event.ToolCall? && GivenLast(items, o, k, n, field)
    ensures LastGiven(items, o, n, first, field) == if k == o then first else field(items[k].event).value
    decreases n
  {
    if n > k + 1 {
      LastGivenIsLast(items, o, k, n - 1, first, field);
    }
  }

  function TitleOf(e: Event): Option<string> {
    if e.ToolCallUpdate? then e.title else None
  }

  function KindGiven(e: Event): Option<string> {
    if e.ToolCallUpdate? then e.kind else None
  }

  function StatusOf(e: Event): Option<string> {
    if e.ToolCallUpdate? then e.status else None
  }

  function DetailOf(e: Event): Option<Option<string>> {
    if e.ToolCallUpdate? && e.detail.Some? then Some(e.detail) else None
  }

  ghost function LastFields(items: seq<Item>, o: nat, n: nat): ToolFields
    requires o < n <= |items| && items[o].event.ToolCall?
  {
    var first := items[o].event.fields;
    ToolFields(
      LastGiven(items, o, n, first.title, TitleOf),
      LastGiven(items, o, n, first.kind, KindGiven),
      LastGiven(items, o, n, first.status, StatusOf),
      LastGiven(items, o, n, first.detail, DetailOf))
  }

  lemma LastFieldsStep(items: seq<Item>, o: nat, k: nat)
    requires o < k < |items| && items[o].event.ToolCall?
    ensures LastFields(items, o, k + 1) ==
      if Reaches(items, o, k) then Updated(LastFields(items, o, k), items[k].event) else LastFields(items, o, k)
  {
  }

  lemma {:induction false} ToolRowShowsLastFields(items: seq<Item>, o: nat, n: nat)
    requires o < n <= |items| && items[o].event.ToolCall?
    ensures RowAt(items, o, n) == Tool(items[o].event.id, LastFields(items, o, n), items[o].seqNo)
    decreases n
  {
    if n > o + 1 {
      ToolRowShowsLastFields(items, o, n - 1);
      LastFieldsStep(items, o, n - 1);
    }
  }

  // Field by field: what the last update that reaches the row and gives a value gave.
  lemma LastUpdateShows(items: seq<Item>, o: nat, k: nat, n: nat)
    requires o < k < n <= |items| && items[o].event.ToolCall? && Reaches(items, o, k)
    ensures
      var row, e := RowAt(items, o, n), items[k].event;
      && row.Tool?
      && (e.title.Some? && (forall l :: k < l < n && Reaches(items, o, l) ==> items[l].event.title.None?) ==>
            row.fields.title == e.title.value)
      && (e.kind.Some? && (forall l :: k < l < n && Reaches(items, o, l) ==> items[l].event.kind.None?) ==>
            row.fields.kind == e.kind.value)
      && (e.status.Some? && (forall l :: k < l < n && Reaches(items, o, l) ==> items[l].event.status.None?) ==>
            row.fields.status == e.status.value)
      && (e.detail.Some? && (forall l :: k < l < n && Reaches(items, o, l) ==> items[l].event.detail.None?) ==>
            row.fields.detail == e.detail)
  {
    var first, e := items[o].event.fields, items[k].event;
    ToolRowShowsLastFields(items, o, n);
    if GivenLast(items, o, k, n, TitleOf) {
      LastGivenIsLast(items, o, k, n, first.title, TitleOf);
    }
    if GivenLast(items, o, k, n, KindGiven) {
      LastGivenIsLast(items, o, k, n, first.kind, KindGiven);
    }
    if GivenLast(items, o, k, n, StatusOf) {
      LastGivenIsLast(items, o, k, n, first.status, StatusOf);
    }
    if GivenLast(items, o, k, n, DetailOf) {
      LastGivenIsLast(items, o, k, n, first.detail, DetailOf);
    }
  }

  // The plan row shows the last plan of its turn.
  lemma {:induction false} PlanRowShowsLastPlan(items: seq<Item>, o: nat, k: nat, n: nat)
    requires o <= k < n <= |items| && items[o].event.Plan? && items[k].event.Plan? && SameTurn(items, o, k)
    requires forall l :: k < l < n && items[l].event.Plan? ==> !SameTurn(items, o, l)
    ensures RowAt(items, o, n) == PlanRow(items[k].event.entries, items[k].seqNo)
    decreases n
  {
    if n > k + 1 {
      PlanRowShowsLastPlan(items, o, k, n - 1);
    } else if n > o + 1 {
      RowMatches(items, o, n - 1);
    }
  }

  // The trailing row is there exactly when some turn started and none finished since.
  lemma {:induction false} WorkingIff(items: seq<Item>, n: nat)
    requires n <= |items|
    ensures Running(items, n) <==> exists k :: 0 <= k < n && items[k].event.TurnStarted? && SameTurn(items, k, n)
    decreases n
  {
    if n > 0 {
      WorkingIff(items, n - 1);
      var e := items[n - 1].event;
      if e.TurnStarted? {
        assert SameTurn(items, n - 1, n);
      } else if Running(items, n) {
        var k :| 0 <= k < n - 1 && items[k].event.TurnStarted? && SameTurn(items, k, n - 1);
        assert SameTurn(items, k, n);
      } else if k :| 0 <= k < n && items[k].event.TurnStarted? && SameTurn(items, k, n) {
        assert SameTurn(items, k, n - 1);
      }
    }
  }
}
