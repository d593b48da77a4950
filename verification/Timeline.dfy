// The bounded per-session timeline (app/src/App.tsx:2372-2411) and the backward
// "latest" scan over it (app/src/AgentView.tsx:560-568).
module Timeline {
  import opened Bytes

  datatype Kind =
    | SessionStarted | UserMessage | TurnStarted | MessageChunk | ThoughtChunk | ToolCall | ToolCallUpdate
    | Plan | TurnFinished | ErrorEvent
    | AvailableCommands | ModeState | ConfigOptions | SessionInfo | Replaying | AuthRequired | Usage

  datatype Event = Event(seqNo: int, kind: Kind, body: string)

  const LIMIT: nat := 2000

  // The kinds whose newest event survives pruning.
  const REDUCERS: seq<Kind> :=
    [AvailableCommands, ModeState, ConfigOptions, SessionInfo, Replaying, AuthRequired, Usage]

  // A history: events by their sequence number.
  type History = map<int, Event>

  // bySeq: a later event with the same number replaces an earlier one.
  function Index(events: seq<Event>): History {
    if events == [] then map[]
    else
      var last := events[|events| - 1];
      Index(events[..|events| - 1])[last.seqNo := last]
  }

  // A number is known exactly when some event has it, and stands for the last one.
  lemma {:induction false} IndexIsLast(events: seq<Event>, k: int)
    ensures k in Index(events) <==> exists i :: 0 <= i < |events| && events[i].seqNo == k
    ensures forall i :: 0 <= i < |events| && events[i].seqNo == k ==>
      ((forall j :: i < j < |events| ==> events[j].seqNo != k) ==> Index(events)[k] == events[i])
  {
    if events != [] {
      var n := |events| - 1;
      IndexIsLast(events[..n], k);
      assert forall i :: 0 <= i < n ==> events[..n][i] == events[i];
      assert events[n].seqNo == k ==> k in Index(events);
    }
  }

  // ---- What is kept ----

  function Newer(keys: set<int>, k: int): set<int> {
    set j | j in keys && j > k
  }

  ghost function MaxOf(keys: set<int>): (x: int)
    requires keys != {}
    ensures x in keys && forall j :: j in keys ==> j <= x
  {
    MaxExists(keys);
    var x :| x in keys && forall j :: j in keys ==> j <= x;
    x
  }

  // The n greatest keys (all of them if there are fewer).
  ghost function Newest(keys: set<int>, n: nat): set<int> {
    if keys == {} || n == 0 then {} else Newest(keys - {MaxOf(keys)}, n - 1) + {MaxOf(keys)}
  }

  // k holds the newest event of its kind.
  ghost predicate IsLatest(m: History, kind: Kind, k: int) {
    k in m && m[k].kind == kind && forall j :: j in m && j > k ==> m[j].kind != kind
  }

  ghost predicate Kept(m: History, k: int) {
    k in m && (k in Newest(m.Keys, LIMIT) || (m[k].kind in REDUCERS && IsLatest(m, m[k].kind, k)))
  }

  // The newest 2000 events and the newest event of each sticky kind.
  ghost function Keep(m: History): History {
    map k | k in m && Kept(m, k) :: m[k]
  }

  // In numbers and names: the newest 2000 events, and the newest event of each of
  // the seven kinds whose state must survive.
  lemma KeptExactly(m: History, k: int)
    ensures Kept(m, k) <==>
      && k in m
      && (|| |Newer(m.Keys, k)| < 2000
          || (&& IsLatest(m, m[k].kind, k)
              && (|| m[k].kind.AvailableCommands? || m[k].kind.ModeState? || m[k].kind.ConfigOptions?
                  || m[k].kind.SessionInfo? || m[k].kind.Replaying? || m[k].kind.AuthRequired? || m[k].kind.Usage?)))
  {
    if k in m {
      NewestIff(m.Keys, 2000, k);
      SevenKinds(m[k].kind);
    }
  }

  lemma SevenKinds(kind: Kind)
    ensures kind in REDUCERS <==>
      || kind.AvailableCommands? || kind.ModeState? || kind.ConfigOptions? || kind.SessionInfo?
      || kind.Replaying? || kind.AuthRequired? || kind.Usage?
  {
    assert REDUCERS[0] == AvailableCommands && REDUCERS[1] == ModeState && REDUCERS[2] == ConfigOptions;
    assert REDUCERS[3] == SessionInfo && REDUCERS[4] == Replaying && REDUCERS[5] == AuthRequired;
    assert REDUCERS[6] == Usage;
  }

  // ---- Counting ----

  lemma EmptyOrNot(keys: set<int>)
    ensures keys == {} || exists k :: k in keys
  {
    if forall k :: k !in keys {
      assert keys == {};
    }
  }

  lemma SomeKey(keys: set<int>) returns (k: int)
    requires keys != {}
    ensures k in keys && |keys - {k}| == |keys| - 1
  {
    EmptyOrNot(keys);
    k :| k in keys;
  }

  lemma {:induction false} MaxExists(keys: set<int>)
    requires keys != {}
    ensures exists x :: x in keys && forall j :: j in keys ==> j <= x
    decreases |keys|
  {
    var k := SomeKey(keys);
    if keys - {k} == {} {
      assert keys == {k};
    } else {
      MaxExists(keys - {k});
      var y :| y in keys - {k} && forall j :: j in keys - {k} ==> j <= y;
      var x := if k > y then k else y;
      forall j | j in keys ensures j <= x {
        assert j == k || j in keys - {k};
      }
      assert x in keys;
    }
  }

  // The newest n of a set really are n of them (or all).
  lemma {:induction false} NewestCount(keys: set<int>, n: nat)
    ensures Newest(keys, n) <= keys && |Newest(keys, n)| == Min(n, |keys|)
    decreases |keys|
  {
    if keys != {} && n > 0 {
      var x := MaxOf(keys);
      assert |keys - {x}| == |keys| - 1;
      NewestCount(keys - {x}, n - 1);
    }
  }

  lemma NewerWithout(keys: set<int>, x: int, k: int)
    requires x in keys && x > k
    ensures |Newer(keys, k)| == |Newer(keys - {x}, k)| + 1
  {
    assert Newer(keys, k) == Newer(keys - {x}, k) + {x};
  }

  // A key is among the newest n exactly when fewer than n are newer.
  lemma {:induction false} NewestIff(keys: set<int>, n: nat, k: int)
    requires k in keys
    ensures k in Newest(keys, n) <==> |Newer(keys, k)| < n
    decreases n
  {
    if n > 0 {
      var x := MaxOf(keys);
      NewestCount(keys - {x}, n - 1);
      if k == x {
        assert Newer(keys, k) == {};
      } else {
        NewestIff(keys - {x}, n - 1, k);
        NewerWithout(keys, x, k);
      }
    }
  }

  lemma SubsetCount<T>(a: set<T>, b: set<T>)
    requires a <= b
    ensures |a| <= |b|
  {
    assert b == a + (b - a);
  }

  // An older key has more newer ones.
  lemma NewerGrows(keys: set<int>, j: int, k: int)
    requires j <= k
    ensures |Newer(keys, k)| <= |Newer(keys, j)|
  {
    SubsetCount(Newer(keys, k), Newer(keys, j));
  }

  // ---- Pruning loses nothing that later merges need ----

  ghost predicate Agree(m: History, b: History) {
    forall k :: k in m && k in b ==> m[k] == b[k]
  }

  // The newest event of a kind exists as soon as one of that kind does.
  lemma {:induction false} SomeLatest(m: History, kind: Kind, k: int) returns (x: int)
    requires k in m && m[k].kind == kind
    ensures x >= k && IsLatest(m, kind, x)
    decreases |Newer(m.Keys, k)|
  {
    if IsLatest(m, kind, k) {
      x := k;
    } else {
      var j :| j in m && j > k && m[j].kind == kind;
      assert Newer(m.Keys, j) < Newer(m.Keys, k) by {
        assert j in Newer(m.Keys, k) && j !in Newer(m.Keys, j);
      }
      assert |Newer(m.Keys, k)| == |Newer(m.Keys, j)| + |Newer(m.Keys, k) - Newer(m.Keys, j)| by {
        assert Newer(m.Keys, k) == Newer(m.Keys, j) + (Newer(m.Keys, k) - Newer(m.Keys, j));
      }
      x := SomeLatest(m, kind, j);
    }
  }

  lemma KeptStays(m: History, b: History, k: int)
    requires Agree(m, b) && Kept(m + b, k)
    ensures k in Keep(m) + b && (Keep(m) + b)[k] == (m + b)[k]
  {
    if k !in b {
      SubsetCount(Newer(m.Keys, k), Newer((m + b).Keys, k));
      NewestIff(m.Keys, LIMIT, k);
      NewestIff((m + b).Keys, LIMIT, k);
      assert Kept(m, k);
    }
  }

  lemma OldStaysOld(m: History, b: History, k: int)
    requires Agree(m, b) && k in Keep(m) + b && k !in Newest((m + b).Keys, LIMIT)
    ensures k !in Newest((Keep(m) + b).Keys, LIMIT)
  {
    var all, some := (m + b).Keys, (Keep(m) + b).Keys;
    NewestCount(all, LIMIT);
    NewestIff(all, LIMIT, k);
    NewestIff(some, LIMIT, k);
    SubsetCount(Newer(all, k), all);
    forall j | j in Newest(all, LIMIT) ensures j in Newer(some, k) {
      KeptStays(m, b, j);
      NewestIff(all, LIMIT, j);
      if j <= k {
        NewerGrows(all, j, k);
      }
    }
    SubsetCount(Newest(all, LIMIT), Newer(some, k));
  }

  lemma KeptIff(m: History, b: History, k: int)
    requires Agree(m, b)
    ensures Kept(Keep(m) + b, k) <==> Kept(m + b, k)
  {
    var all, some := m + b, Keep(m) + b;
    assert some.Keys <= all.Keys && forall j :: j in some ==> some[j] == all[j];
    if Kept(all, k) {
      KeptStays(m, b, k);
      SubsetCount(Newer(some.Keys, k), Newer(all.Keys, k));
      NewestIff(some.Keys, LIMIT, k);
      NewestIff(all.Keys, LIMIT, k);
    }
    if Kept(some, k) && !Kept(all, k) {
      OldStaysOld(m, b, k);
      assert IsLatest(some, some[k].kind, k) && !IsLatest(all, all[k].kind, k);
      var x := SomeLatest(all, all[k].kind, k);
      KeptStays(m, b, x);
      assert false;
    }
  }

  // Merging into the pruned history gives what merging into the whole one gives.
  lemma PruneThenMerge(m: History, b: History)
    requires Agree(m, b)
    ensures Keep(Keep(m) + b) == Keep(m + b)
  {
    forall k ensures Kept(Keep(m) + b, k) <==> Kept(m + b, k) {
      KeptIff(m, b, k);
    }
    assert Keep(Keep(m) + b).Keys == Keep(m + b).Keys;
  }

  // ---- Any order, any repeats ----

  // Everything a sequence of batches ever carried.
  function All(batches: seq<seq<Event>>): History {
    if batches == [] then map[] else All(batches[..|batches| - 1]) + Index(batches[|batches| - 1])
  }

  // Events are immutable: a number always names the same event.
  ghost predicate Immutable(batches: seq<seq<Event>>) {
    batches == [] || (Immutable(batches[..|batches| - 1])
       && Agree(All(batches[..|batches| - 1]), Index(batches[|batches| - 1])))
  }

  // The stored timeline after a sequence of batches.
  ghost function Stored(batches: seq<seq<Event>>): History {
    if batches == [] then map[] else Keep(Stored(batches[..|batches| - 1]) + Index(batches[|batches| - 1]))
  }

  lemma {:induction false} StoredIsKept(batches: seq<seq<Event>>)
    requires Immutable(batches)
    ensures Stored(batches) == Keep(All(batches))
  {
    if batches == [] {
      assert Keep(map[]) == map[];
    } else {
      StoredIsKept(batches[..|batches| - 1]);
      PruneThenMerge(All(batches[..|batches| - 1]), Index(batches[|batches| - 1]));
    }
  }

  // ---- Lists ----

  ghost predicate Strict(events: seq<Event>) {
    forall i, j :: 0 <= i < j < |events| ==> events[i].seqNo < events[j].seqNo
  }

  // `events` is the history m in strictly increasing order.
  ghost predicate Lists(events: seq<Event>, m: History) {
    Strict(events) && Index(events) == m
  }

  lemma {:induction false} IndexAt(events: seq<Event>, i: nat)
    requires Strict(events) && i < |events|
    ensures events[i].seqNo in Index(events) && Index(events)[events[i].seqNo] == events[i]
  {
    if i < |events| - 1 {
      IndexAt(events[..|events| - 1], i);
    }
  }

  lemma {:induction false} IndexFrom(events: seq<Event>, k: int) returns (i: nat)
    requires k in Index(events)
    ensures i < |events| && events[i].seqNo == k
  {
    if events[|events| - 1].seqNo == k {
      i := |events| - 1;
    } else {
      i := IndexFrom(events[..|events| - 1], k);
    }
  }

  // The last event of a listing has the greatest number; without it, the rest
  // lists the rest.
  lemma LastIsNewest(events: seq<Event>, m: History)
    requires Lists(events, m) && events != []
    ensures
      var x := events[|events| - 1];
      && x.seqNo in m && m[x.seqNo] == x && (forall k :: k in m ==> k <= x.seqNo)
      && Lists(events[..|events| - 1], m - {x.seqNo})
  {
    var front, x := events[..|events| - 1], events[|events| - 1];
    forall k | k in Index(front) ensures k < x.seqNo {
      var i := IndexFrom(front, k);
    }
    assert Index(front) == m - {x.seqNo};
  }

  lemma {:induction false} ListingSize(events: seq<Event>, m: History)
    requires Lists(events, m)
    ensures |events| == |m|
  {
    if events != [] {
      LastIsNewest(events, m);
      var x := events[|events| - 1].seqNo;
      ListingSize(events[..|events| - 1], m - {x});
      assert (m - {x}).Keys == m.Keys - {x};
    }
  }

  lemma {:induction false} OneListing(a: seq<Event>, b: seq<Event>, m: History)
    requires Lists(a, m) && Lists(b, m)
    ensures a == b
    decreases |a|
  {
    ListingSize(a, m);
    ListingSize(b, m);
    if a != [] {
      LastIsNewest(a, m);
      LastIsNewest(b, m);
      var x := a[|a| - 1];
      OneListing(a[..|a| - 1], b[..|b| - 1], m - {x.seqNo});
      assert a == a[..|a| - 1] + [x] && b == b[..|b| - 1] + [x];
    }
  }

  // Two clients that saw the same events, in whatever batches and order, show
  // the same list.
  lemma TimelineConverges(a: seq<seq<Event>>, b: seq<seq<Event>>, shownA: seq<Event>, shownB: seq<Event>)
    requires Immutable(a) && Immutable(b) && All(a) == All(b)
    requires Lists(shownA, Stored(a)) && Lists(shownB, Stored(b))
    ensures shownA == shownB && Lists(shownA, Keep(All(a)))
  {
    StoredIsKept(a);
    StoredIsKept(b);
    OneListing(shownA, shownB, Stored(a));
  }

  // ---- Size ----

  lemma {:induction false} KindsBound(m: History, keys: set<int>, kinds: set<Kind>)
    requires forall k :: k in keys ==> k in m && m[k].kind in kinds
    requires forall j, k :: j in keys && k in keys && j != k ==> m[j].kind != m[k].kind
    ensures |keys| <= |kinds|
    decreases |keys|
  {
    if keys != {} {
      var k := SomeKey(keys);
      KindsBound(m, keys - {k}, kinds - {m[k].kind});
    }
  }

  lemma StickyBound(m: History, sticky: set<int>)
    requires forall k :: k in sticky ==> k in m && m[k].kind in REDUCERS && IsLatest(m, m[k].kind, k)
    ensures |sticky| <= 7
  {
    var kinds := {AvailableCommands, ModeState, ConfigOptions, SessionInfo, Replaying, AuthRequired, Usage};
    assert |kinds| == 7;
    forall k | k in sticky ensures m[k].kind in kinds {
      assert IsLatest(m, m[k].kind, k);
    }
    KindsBound(m, sticky, kinds);
  }

  lemma TimelineIsBounded(m: History)
    ensures |Keep(m)| <= 2007
  {
    var newest := Newest(m.Keys, LIMIT);
    var sticky := set k | k in m && m[k].kind in REDUCERS && IsLatest(m, m[k].kind, k);
    NewestCount(m.Keys, LIMIT);
    StickyBound(m, sticky);
    assert Keep(m).Keys <= newest + sticky;
    SubsetCount(Keep(m).Keys, newest + sticky);
    assert |newest + sticky| <= |newest| + |sticky|;
  }

  // ---- Latest ----

  // For every sticky kind the pruned history has a newest event exactly when
  // the whole one has, and it is the same event.
  lemma PrunedLatest(m: History, kind: Kind, k: int)
    requires kind in REDUCERS
    ensures IsLatest(Keep(m), kind, k) <==> IsLatest(m, kind, k)
    ensures IsLatest(m, kind, k) ==> Keep(m)[k] == m[k]
  {
    forall x | IsLatest(m, kind, x) ensures x in Keep(m) {
      assert Kept(m, x);
    }
    if IsLatest(Keep(m), kind, k) && !IsLatest(m, kind, k) {
      var x := SomeLatest(m, kind, k);
      assert false;
    }
  }

  // The backward scan.
  method Latest(events: seq<Event>, kind: Kind, ghost m: History) returns (found: Option<Event>)
    requires Lists(events, m)
    ensures found.Some? ==> IsLatest(m, kind, found.value.seqNo) && m[found.value.seqNo] == found.value
    ensures found.None? ==> forall k :: k in m ==> m[k].kind != kind
  {
    var i := |events|;
    while i > 0
      invariant 0 <= i <= |events|
      invariant forall j :: i <= j < |events| ==> events[j].kind != kind
    {
      i := i - 1;
      if events[i].kind == kind {
        IndexAt(events, i);
        forall k | k in m && k > events[i].seqNo ensures m[k].kind != kind {
          var j := IndexFrom(events, k);
          IndexAt(events, j);
        }
        return Some(events[i]);
      }
    }
    forall k | k in m ensures m[k].kind != kind {
      var j := IndexFrom(events, k);
      IndexAt(events, j);
    }
    return None;
  }

  // ---- The merge itself ----

  ghost predicate Distinct(events: seq<Event>) {
    forall i, j :: 0 <= i < j < |events| ==> events[i].seqNo != events[j].seqNo
  }

  // The number does not occur in the list.
  predicate Absent(events: seq<Event>, seqNo: int) {
    forall i :: 0 <= i < |events| ==> events[i].seqNo != seqNo
  }

  // Insert into a sorted list.
  method InsertSorted(sorted: seq<Event>, e: Event) returns (out: seq<Event>)
    requires Strict(sorted) && Absent(sorted, e.seqNo)
    ensures Strict(out) && forall x :: x in out <==> x in sorted || x == e
  {
    var i := |sorted|;
    while i > 0 && sorted[i - 1].seqNo > e.seqNo
      invariant 0 <= i <= |sorted|
      invariant forall j :: i <= j < |sorted| ==> sorted[j].seqNo > e.seqNo
    {
      i := i - 1;
    }
    out := sorted[..i] + [e] + sorted[i..];
    InsertAt(sorted, i, e);
  }

  lemma InsertAt(sorted: seq<Event>, i: nat, e: Event)
    requires Strict(sorted) && i <= |sorted|
    requires i > 0 ==> sorted[i - 1].seqNo < e.seqNo
    requires i < |sorted| ==> e.seqNo < sorted[i].seqNo
    ensures Strict(sorted[..i] + [e] + sorted[i..])
    ensures forall x :: x in sorted[..i] + [e] + sorted[i..] <==> x in sorted || x == e
  {
    var out := sorted[..i] + [e] + sorted[i..];
    forall a, b | 0 <= a < b < |out| ensures out[a].seqNo < out[b].seqNo {
      Order(sorted, i, e, a, b);
    }
    InsertMembers(sorted, i, e);
  }

  lemma InsertMembers(sorted: seq<Event>, i: nat, e: Event)
    requires i <= |sorted|
    ensures forall x :: x in sorted[..i] + [e] + sorted[i..] <==> x in sorted || x == e
  {
    assert sorted == sorted[..i] + sorted[i..];
  }

  lemma Order(sorted: seq<Event>, i: nat, e: Event, a: nat, b: nat)
    requires Strict(sorted) && i <= |sorted| && a < b <= |sorted|
    requires i > 0 ==> sorted[i - 1].seqNo < e.seqNo
    requires i < |sorted| ==> e.seqNo < sorted[i].seqNo
    ensures
      var out := sorted[..i] + [e] + sorted[i..];
      out[a].seqNo < out[b].seqNo
  {
    if a < b == i {
      assert sorted[a].seqNo <= sorted[i - 1].seqNo;
    } else if a == i < b {
      assert sorted[i].seqNo <= sorted[b - 1].seqNo;
    }
  }

  // sort((a, b) => a.seq - b.seq)
  method SortBySeq(events: seq<Event>) returns (out: seq<Event>)
    requires Distinct(events)
    ensures Strict(out) && forall x :: x in out <==> x in events
  {
    out := [];
    var i := 0;
    while i < |events|
      invariant i <= |events| && Strict(out)
      invariant forall x :: x in out <==> x in events[..i]
    {
      assert Absent(out, events[i].seqNo) by {
        forall j | 0 <= j < |out| ensures out[j].seqNo != events[i].seqNo {
          assert out[j] in events[..i];
        }
      }
      out := InsertSorted(out, events[i]);
      assert events[..i + 1] == events[..i] + [events[i]];
      i := i + 1;
    }
    assert events[..i] == events;
  }

  ghost predicate Keyed(m: History) {
    forall k :: k in m ==> m[k].seqNo == k
  }

  lemma {:induction false} IndexIsKeyed(events: seq<Event>)
    ensures Keyed(Index(events))
  {
    if events != [] {
      IndexIsKeyed(events[..|events| - 1]);
    }
  }

  // A sorted list with the right members is the listing.
  lemma MembersList(out: seq<Event>, m: History)
    requires Keyed(m) && Strict(out) && forall x :: x in out <==> x.seqNo in m && m[x.seqNo] == x
    ensures Lists(out, m)
  {
    forall k | k in m ensures k in Index(out) && Index(out)[k] == m[k] {
      assert m[k] in out;
      var i :| 0 <= i < |out| && out[i] == m[k];
      IndexAt(out, i);
    }
    forall k | k in Index(out) ensures k in m {
      var i := IndexFrom(out, k);
      assert out[i] in out;
    }
  }

  // [...bySeq.values()], sorted
  method Ordered(bySeq: History) returns (ordered: seq<Event>)
    requires Keyed(bySeq)
    ensures Lists(ordered, bySeq)
  {
    var values: seq<Event> := [];
    var todo := bySeq.Keys;
    while todo != {}
      invariant todo <= bySeq.Keys && Distinct(values)
      invariant forall x :: x in values <==> x.seqNo in bySeq && x.seqNo !in todo && bySeq[x.seqNo] == x
      decreases |todo|
    {
      EmptyOrNot(todo);
      var k :| k in todo;
      assert forall i :: 0 <= i < |values| ==> values[i] in values && values[i].seqNo != k;
      values := values + [bySeq[k]];
      todo := todo - {k};
    }
    ordered := SortBySeq(values);
    MembersList(ordered, bySeq);
  }

  // slice(-2000)
  function Tail(ordered: seq<Event>): (tail: seq<Event>)
    ensures forall x :: x in tail <==> exists i :: 0 <= i < |ordered| && i + LIMIT >= |ordered| && ordered[i] == x
  {
    var from := if |ordered| > LIMIT then |ordered| - LIMIT else 0;
    assert forall i :: from <= i < |ordered| ==> ordered[from..][i - from] == ordered[i];
    ordered[from..]
  }

  lemma LastIsGreater(list: seq<Event>, i: nat)
    requires Strict(list) && i < |list| - 1
    ensures list[i].seqNo < list[|list| - 1].seqNo
  {
  }

  // The tail of a listing is its newest part.
  lemma {:induction false} TailIsNewest(list: seq<Event>, m: History, n: nat, i: nat)
    requires Lists(list, m) && i < |list|
    ensures list[i].seqNo in Newest(m.Keys, n) <==> i + n >= |list|
    decreases n
  {
    if n > 0 {
      var x := list[|list| - 1].seqNo;
      LastIsNewest(list, m);
      assert MaxOf(m.Keys) == x;
      assert (m - {x}).Keys == m.Keys - {x};
      if i < |list| - 1 {
        TailIsNewest(list[..|list| - 1], m - {x}, n - 1, i);
        LastIsGreater(list, i);
      }
    }
  }

  // What `retained` holds once the first t sticky kinds were looked at.
  ghost predicate Retained(m: History, t: nat, x: Event)
    requires t <= |REDUCERS|
  {
    && x.seqNo in m && m[x.seqNo] == x
    && (x.seqNo in Newest(m.Keys, LIMIT) || (x.kind in REDUCERS[..t] && IsLatest(m, x.kind, x.seqNo)))
  }

  // Look for the newest event of one sticky kind and keep it if it was cut off.
  method RetainLatest(ordered: seq<Event>, retained: seq<Event>, t: nat, ghost m: History) returns (out: seq<Event>)
    requires Lists(ordered, m) && t < |REDUCERS| && Distinct(retained)
    requires forall x :: x in retained <==> Retained(m, t, x)
    ensures Distinct(out) && forall x :: x in out <==> Retained(m, t + 1, x)
  {
    var latest := Latest(ordered, REDUCERS[t], m);
    assert REDUCERS[..t + 1] == REDUCERS[..t] + [REDUCERS[t]];
    out := retained;
    if latest.Some? {
      var present := false;
      var i := 0;
      while i < |retained|
        invariant i <= |retained|
        invariant present <==> exists j :: 0 <= j < i && retained[j].seqNo == latest.value.seqNo
      {
        if retained[i].seqNo == latest.value.seqNo {
          present := true;
        }
        i := i + 1;
      }
      if present {
        var j :| 0 <= j < |retained| && retained[j].seqNo == latest.value.seqNo;
        assert retained[j] in retained;
        assert retained[j] == latest.value;
      } else {
        out := retained + [latest.value];
      }
      OnlyLatest(m, REDUCERS[t], latest.value.seqNo);
    }
  }

  // A kind has one newest event.
  lemma OnlyLatest(m: History, kind: Kind, k: int)
    requires IsLatest(m, kind, k)
    ensures forall j :: IsLatest(m, kind, j) ==> j == k
  {
  }

  // Merge a snapshot or a live batch into the stored timeline.
  method MergeAgentBatch(existing: seq<Event>, batch: seq<Event>) returns (stored: seq<Event>)
    ensures Lists(stored, Keep(Index(existing + batch)))
    ensures |stored| <= 2007
  {
    var events := existing + batch;
    var bySeq: History := map[];
    var i := 0;
    while i < |events|
      invariant i <= |events| && bySeq == Index(events[..i])
    {
      assert events[..i + 1][..i] == events[..i];
      bySeq := bySeq[events[i].seqNo := events[i]];
      i := i + 1;
    }
    assert events[..i] == events;
    IndexIsKeyed(events);
    var ordered := Ordered(bySeq);
    var retained := Tail(ordered);
    SliceIsRetained(ordered, bySeq);
    var t := 0;
    while t < |REDUCERS|
      invariant t <= |REDUCERS| && Distinct(retained)
      invariant forall x :: x in retained <==> Retained(bySeq, t, x)
    {
      retained := RetainLatest(ordered, retained, t, bySeq);
      t := t + 1;
    }
    stored := SortBySeq(retained);
    assert REDUCERS[..t] == REDUCERS;
    KeepIsRetained(bySeq);
    MembersList(stored, Keep(bySeq));
    ListingSize(stored, Keep(bySeq));
    TimelineIsBounded(bySeq);
  }

  lemma SliceIsRetained(ordered: seq<Event>, m: History)
    requires Lists(ordered, m)
    ensures Distinct(Tail(ordered)) && forall x :: x in Tail(ordered) <==> Retained(m, 0, x)
  {
    forall x ensures x in Tail(ordered) <==> Retained(m, 0, x) {
      TailIff(ordered, m, x);
    }
    TailIsDistinct(ordered);
  }

  lemma TailIsDistinct(ordered: seq<Event>)
    requires Strict(ordered)
    ensures Distinct(Tail(ordered))
  {
  }

  lemma TailIff(ordered: seq<Event>, m: History, x: Event)
    requires Lists(ordered, m)
    ensures x in Tail(ordered) <==> Retained(m, 0, x)
  {
    if x in Tail(ordered) {
      var i :| 0 <= i < |ordered| && i + LIMIT >= |ordered| && ordered[i] == x;
      TailIsRetained(ordered, m, i);
    }
    if Retained(m, 0, x) {
      RetainedIsInTail(ordered, m, x);
    }
  }

  lemma TailIsRetained(ordered: seq<Event>, m: History, i: nat)
    requires Lists(ordered, m) && i < |ordered| && i + LIMIT >= |ordered|
    ensures Retained(m, 0, ordered[i])
  {
    IndexAt(ordered, i);
    TailIsNewest(ordered, m, LIMIT, i);
  }

  lemma RetainedIsInTail(ordered: seq<Event>, m: History, x: Event)
    requires Lists(ordered, m) && Retained(m, 0, x)
    ensures x in Tail(ordered)
  {
    var i := IndexFrom(ordered, x.seqNo);
    IndexAt(ordered, i);
    TailIsNewest(ordered, m, LIMIT, i);
  }

  lemma KeepIsRetained(m: History)
    requires Keyed(m)
    ensures Keyed(Keep(m))
    ensures forall x: Event :: x.seqNo in Keep(m) && Keep(m)[x.seqNo] == x <==> Retained(m, |REDUCERS|, x)
  {
    assert REDUCERS[..|REDUCERS|] == REDUCERS;
  }

  // ---- Every session's timeline ----

  lemma {:induction false} IndexJoins(a: seq<Event>, b: seq<Event>)
    ensures Index(a + b) == Index(a) + Index(b)
  {
    if b == [] {
      assert a + b == a;
    } else {
      assert (a + b)[..|a + b| - 1] == a + b[..|b| - 1];
      IndexJoins(a, b[..|b| - 1]);
    }
  }

  // Merging a batch into the stored list gives the kept part of everything sent.
  lemma MergeIsKept(existing: seq<Event>, batch: seq<Event>, before: seq<seq<Event>>)
    requires Immutable(before + [batch]) && Index(existing) == Keep(All(before))
    ensures Keep(Index(existing + batch)) == Keep(All(before + [batch]))
  {
    assert (before + [batch])[..|before|] == before;
    IndexJoins(existing, batch);
    PruneThenMerge(All(before), Index(batch));
  }

  class AgentTimelines {
    var events: map<int, seq<Event>>

    // What each session was sent so far.
    ghost var sent: map<int, seq<seq<Event>>>

    // Every stored list is the kept part of everything sent to its session.
    ghost predicate Valid()
      reads this
    {
      && events.Keys == sent.Keys
      && forall id :: id in events ==> Immutable(sent[id]) && Lists(events[id], Keep(All(sent[id])))
    }

    constructor ()
      ensures Valid() && events == map[]
    {
      events, sent := map[], map[];
    }

    ghost function Sent(id: int): seq<seq<Event>>
      reads this
    {
      if id in sent then sent[id] else []
    }

    method Merge(id: int, batch: seq<Event>)
      requires Valid() && Immutable(Sent(id) + [batch])
      modifies this
      ensures Valid() && sent == old(sent)[id := old(Sent(id)) + [batch]]
      ensures forall other :: other in old(events) && other != id ==>
        other in events && events[other] == old(events)[other]
    {
      var existing := if id in events then events[id] else [];
      var stored := MergeAgentBatch(existing, batch);
      ghost var before := Sent(id);
      assert Keep(map[]) == map[];
      MergeIsKept(existing, batch, before);
      events := events[id := stored];
      sent := sent[id := before + [batch]];
    }

    // Asking the stored list for the newest event of a sticky kind answers for
    // everything the session was ever sent.
    method LatestOf(id: int, kind: Kind) returns (found: Option<Event>)
      requires Valid() && kind in REDUCERS
      ensures found.Some? ==>
        IsLatest(All(Sent(id)), kind, found.value.seqNo) && All(Sent(id))[found.value.seqNo] == found.value
      ensures found.None? ==> forall k :: k in All(Sent(id)) ==> All(Sent(id))[k].kind != kind
    {
      if id !in events {
        return None;
      }
      ghost var all := All(sent[id]);
      found := Latest(events[id], kind, Keep(all));
      if found.Some? {
        PrunedLatest(all, kind, found.value.seqNo);
      } else {
        forall k | k in all ensures all[k].kind != kind {
          if all[k].kind == kind {
            var x := SomeLatest(all, kind, k);
            PrunedLatest(all, kind, x);
          }
        }
      }
    }
  }
}
