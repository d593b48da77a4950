// Where the passes of an upload start, and that a live pass can be completed
// (app/src-tauri/src/lib.rs:2001-2019, 3073-3155).
module UploadStarts {
  import opened Bytes
  import opened Downloads
  import opened Uploads
  import opened UploadRuns
  import Transfers
  import opened Streams

  // ---- Every pass starts where its event said ----

  // The first pass starts at the beginning, any other at the chunk asked for.
  predicate Asks(e: Event, from: nat, via: Link) {
    match e
    case Begin(link) => from == 0 && via == link
    case Retry(asked, link) => from == asked && via == link
    case Launch(asked, link) => from == asked && via == link
    case _ => false
  }

  // Event i is the one that raised the epoch to t, and it asked for this pass.
  ghost predicate SpawnedAt(H: Hash, u: Upload, es: seq<Event>, i: nat, t: nat, from: nat, via: Link) {
    i < |es| && Run(H, u, es[..i]).epoch + 1 == t == Run(H, u, es[..i + 1]).epoch && Asks(es[i], from, via)
  }

  ghost predicate Originates(H: Hash, u: Upload, es: seq<Event>, t: nat, from: nat, via: Link) {
    exists i: nat :: SpawnedAt(H, u, es, i, t, from, via)
  }

  // A step's tasks are the ones before it, or the one it asked for under the new epoch.
  ghost predicate TasksFrom(u: Upload, v: Upload, e: Event) {
    forall t :: t in v.tasks ==>
      || (t in u.tasks && v.tasks[t].from == u.tasks[t].from && v.tasks[t].via == u.tasks[t].via)
      || (t == u.epoch + 1 == v.epoch && Asks(e, v.tasks[t].from, v.tasks[t].via))
  }

  // What it sends is sent by a task, from its own start and on its own link.
  ghost predicate SendsFrom(u: Upload, v: Upload) {
    v.sent == u.sent || (
      && |v.sent| == |u.sent| + 1 && u.sent < v.sent
      && var e := v.sent[|u.sent|];
        e.task in u.tasks && e.from == u.tasks[e.task].from && e.via == u.tasks[e.task].via)
  }

  ghost predicate SameStarts(a: map<nat, Task>, b: map<nat, Task>) {
    forall x :: x in b ==> x in a && b[x].from == a[x].from && b[x].via == a[x].via
  }

  // A step ends its task or moves it on.
  ghost predicate Moves(a: map<nat, Task>, b: map<nat, Task>, t: nat) {
    t in a && if t in b then b == a[t := b[t]] && b[t].from == a[t].from && b[t].via == a[t].via else b == a - {t}
  }

  lemma ChecksMove(u: Upload, t: nat, ok: bool)
    requires t in u.tasks
    ensures Moves(u.tasks, OnLock(u, t, ok).tasks, t)
    ensures Moves(u.tasks, OnCheckCancelled(u, t).tasks, t) && Moves(u.tasks, OnCheckEpoch(u, t).tasks, t)
  {
    assert u.tasks == u.tasks[t := u.tasks[t]];
  }

  lemma ReadMoves(u: Upload, t: nat, n: nat, ok: bool)
    requires t in u.tasks
    ensures Moves(u.tasks, OnRead(u, t, n, ok).tasks, t)
  {
    var v := OnRead(u, t, n, ok);
    assert u.tasks == u.tasks[t := u.tasks[t]];
    assert t in v.tasks && v.tasks == u.tasks[t := v.tasks[t]];
  }

  lemma EpilogueMoves(u: Upload, t: nat)
    requires t in u.tasks
    ensures Moves(u.tasks, OnEpilogue(u, t).tasks, t)
  {
    var pc := u.tasks[t].pc;
    assert OnEpilogue(u, t).tasks ==
      if pc == Cancelling then u.tasks[t := u.tasks[t].(pc := Removing)]
      else if pc == Failed && u.epoch == t then u.tasks[t := u.tasks[t].(pc := Cancelling)]
      else u.tasks - {t};
  }

  lemma SendMoves(H: Hash, u: Upload, t: nat, ok: bool)
    requires t in u.tasks
    ensures Moves(u.tasks, OnFinish(H, u, t, ok).tasks, t)
    ensures u.tasks[t].pc.Sending? ==> Moves(u.tasks, OnSend(u, t, ok).tasks, t)
  {
  }

  lemma StepMoves(H: Hash, u: Upload, t: nat, step: Step)
    requires t in u.tasks
    ensures Moves(u.tasks, TaskStep(H, u, t, step).tasks, t)
  {
    assert u.tasks == u.tasks[t := u.tasks[t]];
    match step
    case Lock(ok) => ChecksMove(u, t, ok);
    case Check => ChecksMove(u, t, true);
    case Read(n, ok) => ReadMoves(u, t, n, ok);
    case Send(ok) => SendMoves(H, u, t, ok);
    case Epilogue => EpilogueMoves(u, t);
  }

  lemma StepSendsFrom(H: Hash, u: Upload, t: nat, step: Step)
    ensures SendsFrom(u, TaskStep(H, u, t, step))
  {
  }

  lemma MoveTasksFrom(H: Hash, u: Upload, t: nat, step: Step)
    ensures SameStarts(u.tasks, TaskStep(H, u, t, step).tasks)
  {
    if t in u.tasks {
      StepMoves(H, u, t, step);
    }
  }

  lemma ApplyTasksFrom(H: Hash, u: Upload, e: Event)
    ensures TasksFrom(u, Apply(H, u, e), e) && SendsFrom(u, Apply(H, u, e))
  {
    if e.Move? {
      MoveTasksFrom(H, u, e.task, e.step);
      StepSendsFrom(H, u, e.task, e.step);
    }
  }

  lemma RunMore(H: Hash, u: Upload, es: seq<Event>, e: Event)
    ensures Run(H, u, es + [e]) == Apply(H, Run(H, u, es), e)
  {
    assert (es + [e])[..|es|] == es;
  }

  lemma OriginStays(H: Hash, u: Upload, es: seq<Event>, e: Event, t: nat, from: nat, via: Link)
    requires Originates(H, u, es, t, from, via)
    ensures Originates(H, u, es + [e], t, from, via)
  {
    var i: nat :| SpawnedAt(H, u, es, i, t, from, via);
    assert (es + [e])[..i] == es[..i] && (es + [e])[..i + 1] == es[..i + 1];
    assert SpawnedAt(H, u, es + [e], i, t, from, via);
  }

  lemma OriginNow(H: Hash, u: Upload, es: seq<Event>, e: Event, t: nat, from: nat, via: Link)
    requires t == Run(H, u, es).epoch + 1 == Run(H, u, es + [e]).epoch && Asks(e, from, via)
    ensures Originates(H, u, es + [e], t, from, via)
  {
    var i := |es|;
    assert (es + [e])[..i] == es && (es + [e])[..i + 1] == es + [e];
    assert SpawnedAt(H, u, es + [e], i, t, from, via);
  }

  // Every task, and every frame sent, is of a pass with this property.
  ghost predicate AllPasses(u: Upload, P: (nat, nat, Link) -> bool) {
    && (forall t :: t in u.tasks ==> P(t, u.tasks[t].from, u.tasks[t].via))
    && (forall k :: 0 <= k < |u.sent| ==> P(u.sent[k].task, u.sent[k].from, u.sent[k].via))
  }

  lemma PassesGoOn(u: Upload, v: Upload, e: Event, P: (nat, nat, Link) -> bool, Q: (nat, nat, Link) -> bool)
    requires AllPasses(u, P) && TasksFrom(u, v, e) && SendsFrom(u, v)
    requires forall t, from, via :: P(t, from, via) ==> Q(t, from, via)
    requires forall t, from, via :: t == u.epoch + 1 == v.epoch && Asks(e, from, via) ==> Q(t, from, via)
    ensures AllPasses(v, Q)
  {
    forall k | 0 <= k < |v.sent| ensures Q(v.sent[k].task, v.sent[k].from, v.sent[k].via) {
      if k < |u.sent| {
        assert v.sent[k] == u.sent[k];
      } else {
        assert P(v.sent[k].task, v.sent[k].from, v.sent[k].via);
      }
    }
  }

  ghost function Origin(H: Hash, u: Upload, es: seq<Event>): (nat, nat, Link) -> bool {
    (t: nat, from: nat, via) => Originates(H, u, es, t, from, via)
  }

  lemma OriginsGoOn(H: Hash, u: Upload, es: seq<Event>, e: Event)
    requires AllPasses(Run(H, u, es), Origin(H, u, es))
    ensures AllPasses(Run(H, u, es + [e]), Origin(H, u, es + [e]))
  {
    var P, Q := Origin(H, u, es), Origin(H, u, es + [e]);
    RunMore(H, u, es, e);
    forall t, from, via | P(t, from, via) ensures Q(t, from, via) {
      OriginStays(H, u, es, e, t, from, via);
    }
    var v, w := Run(H, u, es), Run(H, u, es + [e]);
    forall t, from, via | t == v.epoch + 1 == w.epoch && Asks(e, from, via) ensures Q(t, from, via) {
      OriginNow(H, u, es, e, t, from, via);
    }
    ApplyTasksFrom(H, v, e);
    PassesGoOn(v, w, e, P, Q);
  }

  lemma {:induction false} Grows(f: seq<Event> -> nat, a: seq<Event>, b: seq<Event>)
    requires forall es, e :: f(es) <= f(es + [e])
    ensures f(a) <= f(a + b)
    decreases |b|
  {
    if b == [] {
      assert a + b == a;
    } else {
      Grows(f, a, b[..|b| - 1]);
      assert a + b == a + b[..|b| - 1] + [b[|b| - 1]];
    }
  }

  lemma EpochStep(H: Hash, u: Upload, es: seq<Event>, e: Event)
    ensures Run(H, u, es).epoch <= Run(H, u, es + [e]).epoch
  {
    RunMore(H, u, es, e);
  }

  lemma EpochGrows(H: Hash, u: Upload, a: seq<Event>, b: seq<Event>)
    ensures Run(H, u, a).epoch <= Run(H, u, a + b).epoch
  {
    var f := (es: seq<Event>) => Run(H, u, es).epoch;
    forall es, e ensures f(es) <= f(es + [e]) {
      EpochStep(H, u, es, e);
    }
    Grows(f, a, b);
  }

  // No two events spawn the same task.
  lemma OneSpawn(H: Hash, u: Upload, es: seq<Event>, i: nat, j: nat, t: nat)
    requires i < j < |es| && Run(H, u, es[..i + 1]).epoch == t
    ensures Run(H, u, es[..j]).epoch + 1 != t
  {
    var a, b := es[..i + 1], es[i + 1..j];
    assert es[..j] == a + b;
    EpochGrows(H, u, a, b);
  }

  // Over every run, each task and each frame ever sent belongs to the pass that
  // exactly one event asked for: it starts at chunk 0 if the command spawned it,
  // otherwise at the chunk of that retry, and goes out on that event's link.
  lemma {:induction false} EveryPassIsAskedFor(H: Hash, owner: Owner, content: Bytes, es: seq<Event>)
    ensures AllPasses(Run(H, Opened(owner, content), es), Origin(H, Opened(owner, content), es))
  {
    if es != [] {
      EveryPassIsAskedFor(H, owner, content, es[..|es| - 1]);
      OriginsGoOn(H, Opened(owner, content), es[..|es| - 1], es[|es| - 1]);
      assert es == es[..|es| - 1] + [es[|es| - 1]];
    }
  }

  // ---- A live pass can send all it was asked for ----

  lemma {:induction false} RunJoin(H: Hash, u: Upload, a: seq<Event>, b: seq<Event>)
    ensures Run(H, u, a + b) == Run(H, Run(H, u, a), b)
    decreases |b|
  {
    if b == [] {
      assert a + b == a;
    } else {
      var front, last := b[..|b| - 1], b[|b| - 1];
      assert a + b == (a + front) + [last];
      RunMore(H, u, a + front, last);
      RunJoin(H, u, a, front);
    }
  }

  // The steps of task t.
  function Own(t: nat, steps: seq<Step>): seq<Event> {
    seq(|steps|, i requires 0 <= i < |steps| => Move(t, steps[i]))
  }

  lemma OwnParts(t: nat, a: seq<Step>, b: seq<Step>, step: Step)
    ensures Own(t, a + b) == Own(t, a) + Own(t, b) && Own(t, [step]) == [Move(t, step)]
  {
  }

  lemma OwnMore(H: Hash, u: Upload, t: nat, steps: seq<Step>, step: Step)
    ensures Run(H, u, Own(t, steps + [step])) == TaskStep(H, Run(H, u, Own(t, steps)), t, step)
  {
    OwnParts(t, steps, [step], step);
    RunMore(H, u, Own(t, steps), Move(t, step));
  }

  lemma OwnJoin(H: Hash, u: Upload, t: nat, a: seq<Step>, b: seq<Step>)
    ensures Run(H, u, Own(t, a + b)) == Run(H, Run(H, u, Own(t, a)), Own(t, b))
  {
    OwnParts(t, a, b, Check);
    RunJoin(H, u, Own(t, a), Own(t, b));
  }

  // Task t is live, has the file, and has read k chunks of it.
  ghost predicate AtHead(u: Upload, t: nat, from: nat, k: nat) {
    && t in u.tasks && !u.cancelled && u.epoch == t && u.mutex == Some(t) && k <= ChunkCount(u.content)
    && var task := u.tasks[t];
      && task.pc == CheckCancelled && task.from == from && task.seqNo == k
      && task.cursor == PrefixLength(u.content, k) && task.hashed == Prefix(u.content, k)
  }

  // Both checks, a read that fills the buffer, and the send if the chunk is asked for.
  function Round(content: Bytes, from: nat, k: nat): seq<Step> {
    [] + [Check] + [Check] + [Read(|ChunkAt(content, k)|, true)] + if k >= from then [Send(true)] else []
  }

  lemma ReadsChunk(H: Hash, u: Upload, t: nat, from: nat, k: nat)
    requires AtHead(u, t, from, k) && k < ChunkCount(u.content)
    ensures
      var v := TaskStep(H, Goto(u, t, u.tasks[t].(pc := Reading)), t, Read(|ChunkAt(u.content, k)|, true));
      v == Goto(u, t, AfterRead(u.tasks[t].(pc := Reading), ChunkAt(u.content, k)))
  {
    ChunksTile(u.content, k);
    ChunksTile(u.content, k + 1);
    var task, n := u.tasks[t].(pc := Reading), |ChunkAt(u.content, k)|;
    assert u.content[task.cursor..task.cursor + n] == ChunkAt(u.content, k);
    assert u.tasks[t := task][t := AfterRead(task, ChunkAt(u.content, k))] ==
           u.tasks[t := AfterRead(task, ChunkAt(u.content, k))];
  }

  lemma ChecksPass(H: Hash, u: Upload, t: nat, from: nat, k: nat)
    requires AtHead(u, t, from, k)
    ensures Run(H, u, Own(t, [] + [Check] + [Check])) == Goto(u, t, u.tasks[t].(pc := Reading))
  {
    OwnMore(H, u, t, [], Check);
    OwnMore(H, u, t, [] + [Check], Check);
    var task := u.tasks[t];
    assert u.tasks[t := task.(pc := CheckEpoch)][t := task.(pc := Reading)] == u.tasks[t := task.(pc := Reading)];
  }

  // A round later everything but the task and the log is as it was.
  ghost predicate Advanced(u: Upload, v: Upload, t: nat, from: nat, k: nat) {
    && AtHead(v, t, from, k) && t in u.tasks && v.tasks[t].via == u.tasks[t].via
    && v == u.(tasks := u.tasks[t := v.tasks[t]], sent := v.sent)
  }

  function ChunkEmit(content: Bytes, t: nat, via: Link, from: nat, k: nat): seq<Emit> {
    if k >= from then [Emit(t, via, from, false, Chunk(k, ChunkAt(content, k)))] else []
  }

  lemma ReadRound(H: Hash, u: Upload, t: nat, from: nat, k: nat)
    requires AtHead(u, t, from, k) && k < ChunkCount(u.content)
    ensures Run(H, u, Own(t, [] + [Check] + [Check] + [Read(|ChunkAt(u.content, k)|, true)])) ==
            Goto(u, t, AfterRead(u.tasks[t].(pc := Reading), ChunkAt(u.content, k)))
  {
    ChecksPass(H, u, t, from, k);
    OwnMore(H, u, t, [] + [Check] + [Check], Read(|ChunkAt(u.content, k)|, true));
    ReadsChunk(H, u, t, from, k);
  }

  lemma SkipsChunk(u: Upload, t: nat, from: nat, k: nat)
    requires AtHead(u, t, from, k) && k < ChunkCount(u.content) && k < from
    ensures
      var v := Goto(u, t, AfterRead(u.tasks[t].(pc := Reading), ChunkAt(u.content, k)));
      Advanced(u, v, t, from, k + 1) && v.sent == u.sent
  {
    ChunksTile(u.content, k);
  }

  lemma SendsChunk(H: Hash, u: Upload, t: nat, from: nat, k: nat)
    requires AtHead(u, t, from, k) && k < ChunkCount(u.content) && k >= from
    ensures
      var r := Goto(u, t, AfterRead(u.tasks[t].(pc := Reading), ChunkAt(u.content, k)));
      var v := TaskStep(H, r, t, Send(true));
      && Advanced(u, v, t, from, k + 1)
      && v.sent == u.sent + [Emit(t, u.tasks[t].via, from, false, Chunk(k, ChunkAt(u.content, k)))]
  {
    ChunksTile(u.content, k);
    var task := AfterRead(u.tasks[t].(pc := Reading), ChunkAt(u.content, k));
    var next := task.(pc := CheckCancelled, seqNo := k + 1);
    assert u.tasks[t := task][t := next] == u.tasks[t := next];
  }

  lemma RoundSends(H: Hash, u: Upload, t: nat, from: nat, k: nat)
    requires AtHead(u, t, from, k) && k < ChunkCount(u.content)
    ensures
      var v := Run(H, u, Own(t, Round(u.content, from, k)));
      Advanced(u, v, t, from, k + 1) && v.sent == u.sent + ChunkEmit(u.content, t, u.tasks[t].via, from, k)
  {
    ReadRound(H, u, t, from, k);
    var read := [] + [Check] + [Check] + [Read(|ChunkAt(u.content, k)|, true)];
    if k >= from {
      OwnMore(H, u, t, read, Send(true));
      SendsChunk(H, u, t, from, k);
    } else {
      assert Round(u.content, from, k) == read;
      SkipsChunk(u, t, from, k);
    }
  }

  function Rounds(content: Bytes, from: nat, k: nat): seq<Step> {
    if k == 0 then [] else Rounds(content, from, k - 1) + Round(content, from, k - 1)
  }

  function Frames(id: Transfers.Id, sent: seq<Emit>): (frames: seq<Transfers.Frame>)
    ensures |frames| == |sent| && forall i :: 0 <= i < |frames| ==> frames[i] == AsFrame(id, sent[i].frame)
  {
    seq(|sent|, i requires 0 <= i < |sent| => AsFrame(id, sent[i].frame))
  }

  lemma FramesJoin(id: Transfers.Id, a: seq<Emit>, b: seq<Emit>)
    ensures Frames(id, a + b) == Frames(id, a) + Frames(id, b)
  {
  }

  function HeadTask(content: Bytes, via: Link, from: nat, k: nat): Task {
    Task(from, via, CheckCancelled, k, PrefixLength(content, k), Prefix(content, k))
  }

  function Emits(content: Bytes, t: nat, via: Link, from: nat, k: nat): seq<Emit> {
    seq(if k <= from then 0 else k - from,
        i requires 0 <= i => Emit(t, via, from, false, Chunk(from + i, ChunkAt(content, from + i))))
  }

  // The state after k rounds of task t on a link.
  function AfterRounds(u: Upload, t: nat, via: Link, from: nat, k: nat): Upload {
    u.(tasks := u.tasks[t := HeadTask(u.content, via, from, k)], sent := u.sent + Emits(u.content, t, via, from, k))
  }

  lemma EmitsMore(content: Bytes, t: nat, via: Link, from: nat, k: nat)
    ensures Emits(content, t, via, from, k + 1) == Emits(content, t, via, from, k) + ChunkEmit(content, t, via, from, k)
    ensures Emits(content, t, via, from, 0) == []
  {
  }

  lemma EmitsAreSent(id: Transfers.Id, content: Bytes, t: nat, via: Link, from: nat, k: nat)
    requires k <= ChunkCount(content)
    ensures Frames(id, Emits(content, t, via, from, k)) == SentBy(id, content, from, k)
  {
  }

  lemma StillAtHead(u: Upload, t: nat, via: Link, from: nat, k: nat)
    requires AtHead(u, t, from, 0) && k <= ChunkCount(u.content)
    ensures AtHead(AfterRounds(u, t, via, from, k), t, from, k)
  {
  }

  lemma NextRound(H: Hash, u: Upload, t: nat, via: Link, from: nat, k: nat)
    requires AtHead(u, t, from, 0) && k < ChunkCount(u.content)
    ensures Run(H, AfterRounds(u, t, via, from, k), Own(t, Round(u.content, from, k))) ==
            AfterRounds(u, t, via, from, k + 1)
  {
    StillAtHead(u, t, via, from, k);
    RoundSends(H, AfterRounds(u, t, via, from, k), t, from, k);
    EmitsMore(u.content, t, via, from, k);
    NextIs(u, Run(H, AfterRounds(u, t, via, from, k), Own(t, Round(u.content, from, k))), t, via, from, k);
  }

  lemma NextIs(u: Upload, v: Upload, t: nat, via: Link, from: nat, k: nat)
    requires
      var x := AfterRounds(u, t, via, from, k);
      && Advanced(x, v, t, from, k + 1)
      && v.sent == x.sent + ChunkEmit(u.content, t, via, from, k)
    ensures v == AfterRounds(u, t, via, from, k + 1)
  {
    EmitsMore(u.content, t, via, from, k);
    var was, now := HeadTask(u.content, via, from, k), HeadTask(u.content, via, from, k + 1);
    assert v.tasks[t] == now;
    assert u.tasks[t := was][t := now] == u.tasks[t := now];
  }

  lemma NoRounds(H: Hash, u: Upload, t: nat, via: Link, from: nat)
    requires AtHead(u, t, from, 0) && u.tasks[t].via == via
    ensures Run(H, u, Own(t, Rounds(u.content, from, 0))) == AfterRounds(u, t, via, from, 0)
  {
    FirstIs(u, t, via, from);
  }

  lemma RoundsMore(H: Hash, u: Upload, t: nat, via: Link, from: nat, k: nat, n: nat)
    requires AtHead(u, t, from, 0) && k < ChunkCount(u.content) && n == k + 1
    requires Run(H, u, Own(t, Rounds(u.content, from, k))) == AfterRounds(u, t, via, from, k)
    ensures Run(H, u, Own(t, Rounds(u.content, from, n))) == AfterRounds(u, t, via, from, n)
  {
    OwnJoin(H, u, t, Rounds(u.content, from, k), Round(u.content, from, k));
    NextRound(H, u, t, via, from, k);
  }

  lemma {:induction false} RoundsSend(H: Hash, u: Upload, t: nat, via: Link, from: nat, n: nat)
    requires AtHead(u, t, from, 0) && n <= ChunkCount(u.content) && u.tasks[t].via == via
    ensures Run(H, u, Own(t, Rounds(u.content, from, n))) == AfterRounds(u, t, via, from, n)
  {
    if n == 0 {
      NoRounds(H, u, t, via, from);
    } else {
      var k := n - 1;
      RoundsSend(H, u, t, via, from, k);
      RoundsMore(H, u, t, via, from, k, n);
    }
  }

  lemma FirstIs(u: Upload, t: nat, via: Link, from: nat)
    requires AtHead(u, t, from, 0) && u.tasks[t].via == via
    ensures AfterRounds(u, t, via, from, 0) == u
  {
    ChunksTile(u.content, 0);
    assert u.tasks[t] == HeadTask(u.content, via, from, 0);
    assert u.tasks == u.tasks[t := u.tasks[t]];
    EmitsMore(u.content, t, via, from, 0);
  }

  // Nothing more to read: the digest of everything.
  const LAST: seq<Step> := [] + [Check] + [Check] + [Read(0, true)] + [Send(true)]

  lemma LastSends(H: Hash, u: Upload, t: nat, from: nat)
    requires AtHead(u, t, from, ChunkCount(u.content))
    ensures
      var v := Run(H, u, Own(t, LAST));
      && v.sent == u.sent + [Emit(t, u.tasks[t].via, from, false, Done(u.size, H(u.content)))]
      && v == u.(tasks := u.tasks - {t}, sent := v.sent, mutex := None, refs := v.refs)
  {
    ChecksPass(H, u, t, from, ChunkCount(u.content));
    OwnMore(H, u, t, [] + [Check] + [Check], Read(0, true));
    OwnMore(H, u, t, [] + [Check] + [Check] + [Read(0, true)], Send(true));
    ReadsEnd(H, u, t, from);
  }

  lemma ReadsEnd(H: Hash, u: Upload, t: nat, from: nat)
    requires AtHead(u, t, from, ChunkCount(u.content))
    ensures
      var v := TaskStep(H, TaskStep(H, Goto(u, t, u.tasks[t].(pc := Reading)), t, Read(0, true)), t, Send(true));
      && v.sent == u.sent + [Emit(t, u.tasks[t].via, from, false, Done(u.size, H(u.content)))]
      && v == u.(tasks := u.tasks - {t}, sent := v.sent, mutex := None, refs := v.refs)
  {
    ChunksTile(u.content, ChunkCount(u.content));
    var task := u.tasks[t];
    assert TaskStep(H, Goto(u, t, task.(pc := Reading)), t, Read(0, true)) == Goto(u, t, task.(pc := Finishing)) by {
      assert u.tasks[t := task.(pc := Reading)][t := task.(pc := Finishing)] == u.tasks[t := task.(pc := Finishing)];
    }
    assert u.tasks[t := task.(pc := Finishing)] - {t} == u.tasks - {t};
  }

  function WholePass(content: Bytes, from: nat): seq<Step> {
    [] + [Lock(true)] + Rounds(content, from, ChunkCount(content)) + LAST
  }

  lemma LockIsTaken(H: Hash, u: Upload, t: nat)
    requires t in u.tasks && u.tasks[t].pc == Wait && u.mutex == None && !u.cancelled && u.epoch == t
    ensures
      var v := Run(H, u, Own(t, [] + [Lock(true)]));
      && AtHead(v, t, u.tasks[t].from, 0) && v.tasks[t].via == u.tasks[t].via && v.sent == u.sent
      && v == u.(tasks := v.tasks, mutex := Some(t)) && v.tasks - {t} == u.tasks - {t}
  {
    OwnMore(H, u, t, [], Lock(true));
    var task := u.tasks[t].(pc := CheckCancelled, seqNo := 0, cursor := 0, hashed := []);
    assert TaskStep(H, u, t, Lock(true)) == Goto(u.(mutex := Some(t)), t, task);
    assert u.tasks[t := task] - {t} == u.tasks - {t};
    HeadIsFree(u, t, task);
  }

  lemma HeadIsFree(u: Upload, t: nat, task: Task)
    requires t in u.tasks && !u.cancelled && u.epoch == t
    requires task == u.tasks[t].(pc := CheckCancelled, seqNo := 0, cursor := 0, hashed := [])
    ensures AtHead(Goto(u.(mutex := Some(t)), t, task), t, u.tasks[t].from, 0)
  {
    ChunksTile(u.content, 0);
  }

  // The live task, once the file is free, can send exactly the chunks from the one
  // it was asked for on and the digest of the whole file, and is done.
  lemma PassCompletes(H: Hash, u: Upload, t: nat, id: Transfers.Id)
    requires t in u.tasks && u.tasks[t].pc == Wait && u.mutex == None && !u.cancelled && u.epoch == t
    requires u.size == |u.content|
    ensures
      var v := Run(H, u, Own(t, WholePass(u.content, u.tasks[t].from)));
      && Frames(id, v.sent) == Frames(id, u.sent) + PassFrames(H, id, u.content, u.tasks[t].from)
      && v == u.(tasks := u.tasks - {t}, sent := v.sent, mutex := None, refs := v.refs)
  {
    var from, via, n := u.tasks[t].from, u.tasks[t].via, ChunkCount(u.content);
    var w := Run(H, u, Own(t, [] + [Lock(true)]));
    LockIsTaken(H, u, t);
    RoundsSend(H, w, t, via, from, n);
    OwnJoin(H, u, t, [] + [Lock(true)], Rounds(u.content, from, n));
    OwnJoin(H, u, t, [] + [Lock(true)] + Rounds(u.content, from, n), LAST);
    StillAtHead(w, t, via, from, n);
    LastSends(H, AfterRounds(w, t, via, from, n), t, from);
    PassIsSent(H, id, u.sent, u.content, t, via, from);
    assert AfterRounds(w, t, via, from, n).tasks - {t} == w.tasks - {t};
  }

  lemma PassIsSent(H: Hash, id: Transfers.Id, sent: seq<Emit>, content: Bytes, t: nat, via: Link, from: nat)
    ensures
      var chunks := Emits(content, t, via, from, ChunkCount(content));
      Frames(id, sent + chunks + [Emit(t, via, from, false, Done(|content|, H(content)))]) ==
      Frames(id, sent) + PassFrames(H, id, content, from)
  {
    var chunks := Emits(content, t, via, from, ChunkCount(content));
    EmitsAreSent(id, content, t, via, from, ChunkCount(content));
    AllSent(id, content, from);
    FramesJoin(id, sent, chunks);
    FramesJoin(id, sent + chunks, [Emit(t, via, from, false, Done(|content|, H(content)))]);
    Regroup(Frames(id, sent), Frames(id, chunks), [Transfers.FileDone(id, |content|, H(content))]);
  }

  // From the opened file: the command starts a pass, and it sends the file.
  lemma FirstPassSendsTheFile(H: Hash, owner: Owner, content: Bytes, link: Link, id: Transfers.Id)
    requires link.owner == owner
    ensures
      var v := Run(H, Opened(owner, content), [] + [Begin(link)] + Own(1, WholePass(content, 0)));
      Frames(id, v.sent) == PassFrames(H, id, content, 0) && v.tasks == map[]
  {
    var u := Opened(owner, content);
    RunMore(H, u, [], Begin(link));
    RunJoin(H, u, [] + [Begin(link)], Own(1, WholePass(content, 0)));
    PassCompletes(H, Run(H, u, [] + [Begin(link)]), 1, id);
  }

  // When the host has confirmed it, nothing holds the slot any more.
  lemma ConfirmedUploadIsReleased(H: Hash, owner: Owner, content: Bytes, link: Link)
    requires link.owner == owner
    ensures
      var v := Run(H, Opened(owner, content), [] + [Begin(link)] + Own(1, WholePass(content, 0)) + [Completed]);
      v.refs == 0 && !v.registered && !v.cancelled
  {
    var u, es := Opened(owner, content), [] + [Begin(link)] + Own(1, WholePass(content, 0));
    RunMore(H, u, [], Begin(link));
    RunJoin(H, u, [] + [Begin(link)], Own(1, WholePass(content, 0)));
    PassCompletes(H, Run(H, u, [] + [Begin(link)]), 1, 0);
    RunMore(H, u, es, Completed);
    RunKeeps(H, owner, content, es + [Completed]);
  }

  // Nor when the command could not announce it.
  lemma AbortedUploadIsReleased(H: Hash, owner: Owner, content: Bytes)
    ensures
      var v := Apply(H, Opened(owner, content), Abort);
      v.refs == 0 && !v.registered && v.tasks == map[] && v.sent == []
  {
  }

  // ---- An upload that is never asked again ----

  predicate NoRetry(es: seq<Event>) {
    forall i :: 0 <= i < |es| ==> !es[i].Retry? && !es[i].Launch?
  }

  lemma {:induction false} OnePass(H: Hash, owner: Owner, content: Bytes, es: seq<Event>)
    requires NoRetry(es)
    ensures
      var u := Run(H, Opened(owner, content), es);
      u.epoch <= 1 && (u.starting ==> u.epoch == 0)
  {
    if es != [] {
      OnePass(H, owner, content, es[..|es| - 1]);
      OnePassStep(H, Run(H, Opened(owner, content), es[..|es| - 1]), es[|es| - 1]);
    }
  }

  lemma OnePassStep(H: Hash, u: Upload, e: Event)
    requires u.epoch <= 1 && (u.starting ==> u.epoch == 0) && !e.Retry? && !e.Launch?
    ensures
      var v := Apply(H, u, e);
      v.epoch <= 1 && (v.starting ==> v.epoch == 0)
  {
    if e.Move? {
      StepKeepsEpoch(H, u, e.task, e.step);
    }
  }

  lemma ChecksKeepEpoch(u: Upload, t: nat)
    requires t in u.tasks
    ensures OnCheckCancelled(u, t).epoch == OnCheckEpoch(u, t).epoch == u.epoch
  {
  }

  lemma EpilogueKeepsEpoch(u: Upload, t: nat)
    requires t in u.tasks
    ensures OnEpilogue(u, t).epoch == u.epoch
  {
    assert Deregister(u, false).epoch == u.epoch;
  }

  lemma SendKeepsEpoch(H: Hash, u: Upload, t: nat, ok: bool)
    requires t in u.tasks
    ensures OnFinish(H, u, t, ok).epoch == u.epoch && (u.tasks[t].pc.Sending? ==> OnSend(u, t, ok).epoch == u.epoch)
  {
  }

  lemma StepKeepsEpoch(H: Hash, u: Upload, t: nat, step: Step)
    ensures TaskStep(H, u, t, step).epoch == u.epoch
  {
    if t in u.tasks {
      match step
      case Lock(ok) => assert OnLock(u, t, ok).epoch == u.epoch;
      case Check => ChecksKeepEpoch(u, t);
      case Read(n, ok) => assert OnRead(u, t, n, ok).epoch == u.epoch;
      case Send(ok) => SendKeepsEpoch(H, u, t, ok);
      case Epilogue => EpilogueKeepsEpoch(u, t);
    }
  }

  lemma OnlyFirstPass(H: Hash, owner: Owner, content: Bytes, es: seq<Event>, k: nat)
    requires NoRetry(es) && k < |Run(H, Opened(owner, content), es).sent|
    ensures
      var sent := Run(H, Opened(owner, content), es).sent;
      sent[k].task == 1 && sent[k].from == 0
  {
    var u := Opened(owner, content);
    var sent := Run(H, u, es).sent;
    EveryPassIsAskedFor(H, owner, content, es);
    OnePass(H, owner, content, es);
    RunKeeps(H, owner, content, es);
    assert Origin(H, u, es)(sent[k].task, sent[k].from, sent[k].via);
    var i: nat :| SpawnedAt(H, u, es, i, sent[k].task, sent[k].from, sent[k].via);
  }

  lemma {:induction false} OneTask(sent: seq<Emit>, k: nat)
    requires k < |sent| && forall i :: 0 <= i < |sent| ==> sent[i].task == 1
    ensures Before(sent, k) == k
  {
    if k > 0 {
      OneTask(sent, k - 1);
    }
  }

  lemma DoneIsLast(sent: seq<Emit>, k: nat)
    requires k < |sent| && sent[k].frame.Done? && forall i :: 0 <= i < |sent| ==> sent[i].task == 1
    requires PassUpTo(sent, |sent| - 1)
    ensures |sent| == k + 1 && Before(sent, k) == k
  {
    OneTask(sent, |sent| - 1);
    OneTask(sent, k);
  }

  // If its pass finishes, with reads that fill the buffer, it has sent the whole
  // file from the first chunk on, and nothing else.
  lemma UnaskedUploadIsTheFile(
    H: Hash, owner: Owner, id: Transfers.Id, content: Bytes, es: seq<Event>, k: nat)
    requires FullReads(H, Opened(owner, content), es) && NoRetry(es)
    requires
      var sent := Run(H, Opened(owner, content), es).sent;
      k < |sent| && sent[k].frame.Done?
    ensures Frames(id, Run(H, Opened(owner, content), es).sent) == PassFrames(H, id, content, 0)
  {
    var sent := Run(H, Opened(owner, content), es).sent;
    forall i | 0 <= i < |sent| ensures sent[i].task == 1 && sent[i].from == 0 && PassUpTo(sent, i) {
      OnlyFirstPass(H, owner, content, es, i);
      UploadIsPasses(H, owner, content, es, i);
    }
    DoneIsLast(sent, k);
    forall j | 0 <= j <= k
      ensures |PassFrames(H, id, content, 0)| == k + 1 && AsFrame(id, sent[j].frame) == PassFrames(H, id, content, 0)[j]
    {
      FinishedPassIsStreamed(H, owner, id, content, es, k, 0, j);
    }
  }

  // ---- A pass that fails ----

  // A call that fails ends the pass, gives the file free and sends nothing.
  lemma FailedCallEndsPass(H: Hash, u: Upload, t: nat, step: Step)
    requires t in u.tasks
    requires
      var pc := u.tasks[t].pc;
      || (pc == Wait && u.mutex == None && step == Lock(false)) || (pc == Reading && step.Read? && !step.ok)
      || ((pc.Sending? || pc == Finishing) && step == Send(false))
    ensures
      var v := TaskStep(H, u, t, step);
      t in v.tasks && v.tasks[t].pc == Failed && v.mutex != Some(t) && v.sent == u.sent && v.cancelled == u.cancelled
  {
  }

  // A retired one ends at its next check, quietly.
  lemma RetiredEndsQuietly(H: Hash, u: Upload, t: nat)
    requires t in u.tasks
    requires (u.tasks[t].pc == CheckCancelled && u.cancelled) || (u.tasks[t].pc == CheckEpoch && u.epoch != t)
    ensures
      var v := TaskStep(H, u, t, Check);
      && v.tasks == u.tasks - {t} && v.mutex != Some(t) && v.sent == u.sent
      && v.cancelled == u.cancelled && v.registered == u.registered && v.epoch == u.epoch
  {
  }

  // A superseded task leaves the upload to the newer one, unless it had already
  // looked at the epoch when it was superseded.
  lemma SupersededTouchesIff(H: Hash, u: Upload, t: nat, step: Step)
    requires t in u.tasks && u.epoch != t
    ensures
      var v, pc := TaskStep(H, u, t, step), u.tasks[t].pc;
      && (v.cancelled != u.cancelled <==> step.Epilogue? && pc == Cancelling && !u.cancelled)
      && (v.registered != u.registered <==> step.Epilogue? && pc == Removing && u.registered)
  {
    match u.tasks[t].pc
    case Sending(_) =>
      assert OnSend(u, t, true).cancelled == u.cancelled && OnSend(u, t, true).registered == u.registered;
    case Finishing =>
      assert OnFinish(H, u, t, true).cancelled == u.cancelled && OnFinish(H, u, t, true).registered == u.registered;
    case Failed => assert OnEpilogue(u, t) == End(u, t);
    case Cancelling =>
    case Removing =>
    case _ =>
  }

  // The live one gives the upload up: it is cancelled, out of the registry, and
  // the task is gone.
  lemma LiveFailureGivesUp(H: Hash, u: Upload, t: nat)
    requires t in u.tasks && u.tasks[t].pc == Failed && u.epoch == t
    ensures
      var v := TaskStep(H, TaskStep(H, TaskStep(H, u, t, Epilogue), t, Epilogue), t, Epilogue);
      v.cancelled && !v.registered && v.tasks == u.tasks - {t}
  {
    var a := Goto(u, t, u.tasks[t].(pc := Cancelling));
    var b := Goto(a.(cancelled := true), t, a.tasks[t].(pc := Removing));
    assert TaskStep(H, u, t, Epilogue) == a && TaskStep(H, a, t, Epilogue) == b;
    assert TaskStep(H, b, t, Epilogue) == End(Deregister(b, false), t);
    assert b.tasks - {t} == u.tasks - {t};
  }

  // A retry that comes between the two is cancelled with it.
  lemma LateFailureCancelsRetry(H: Hash, owner: Owner, content: Bytes, link: Link)
    requires link.owner == owner
    ensures
      var u := Run(H, Opened(owner, content),
        [] + [Begin(link)] + [Move(1, Lock(false))] + [Move(1, Epilogue)] + [Retry(0, link)] + [Move(1, Epilogue)]);
      u.epoch == 2 && 2 in u.tasks && u.registered && u.cancelled
  {
    var o := Opened(owner, content);
    var es := [] + [Begin(link)];
    RunMore(H, o, [], Begin(link));
    RunMore(H, o, es, Move(1, Lock(false)));
    RunMore(H, o, es + [Move(1, Lock(false))], Move(1, Epilogue));
    RunMore(H, o, es + [Move(1, Lock(false))] + [Move(1, Epilogue)], Retry(0, link));
    RunMore(H, o, es + [Move(1, Lock(false))] + [Move(1, Epilogue)] + [Retry(0, link)], Move(1, Epilogue));
  }
}
