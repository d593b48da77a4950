// Whole runs of one upload: its frames are a concatenation of passes.
module UploadRuns {
  import opened Bytes
  import opened Downloads
  import opened Uploads

  datatype Event =
    | Begin(via: Link)                  // the command spawns the first pass
    | Abort                             // the command could not send `FilePutReq`
    | Retry(from: nat, via: Link)       // `FileRetry` on a link
    | Hold(via: Link)                   // the two halves of a retry
    | Launch(from: nat, via: Link)
    | Rejected                          // `FileErr`, or a host switch
    | Completed                         // `FileDone` from the owning host
    | Move(task: nat, step: Step)

  function Apply(H: Hash, u: Upload, e: Event): (v: Upload)
    ensures Onward(u, v) && SendsAtMostOne(u, v)
  {
    match e
    case Begin(via) => if via.owner == u.owner then FirstPass(u, via) else u
    case Abort => AbortStart(u)
    case Retry(from, via) => if u.registered && via.owner == u.owner then Spawn(u, from, via) else u
    case Hold(via) => if via.owner == u.owner then Uploads.Hold(u) else u
    case Launch(from, via) => if via.owner == u.owner then Uploads.Launch(u, from, via) else u
    case Rejected => Deregister(u, true)
    case Completed => Deregister(u, false)
    case Move(t, step) => TaskStep(H, u, t, step)
  }

  function Run(H: Hash, u: Upload, es: seq<Event>): Upload {
    if es == [] then u else Apply(H, Run(H, u, es[..|es| - 1]), es[|es| - 1])
  }

  lemma ApplyKeepsPasses(H: Hash, u: Upload, e: Event)
    requires PassesOk(H, u)
    ensures PassesOk(H, Apply(H, u, e))
  {
    var v := Apply(H, u, e);
    match e
    case Begin(via) =>
      if u.starting && via.owner == u.owner {
        FlagsKeepPasses(H, u, u.(starting := false));
        SpawnKeepsPasses(H, u.(starting := false), 0, via);
        FlagsKeepPasses(H, Spawn(u.(starting := false), 0, via), v);
      }
    case Abort => FlagsKeepPasses(H, u, v);
    case Retry(from, via) => SpawnKeepsPasses(H, u, from, via);
    case Hold(_) => FlagsKeepPasses(H, u, v);
    case Launch(from, via) =>
      if u.clones > 0 && via.owner == u.owner {
        LaunchKeepsPasses(H, u, from, via);
      }
    case Rejected => FlagsKeepPasses(H, u, v);
    case Completed => FlagsKeepPasses(H, u, v);
    case Move(t, step) => TaskStepKeepsPasses(H, u, t, step);
  }

  lemma LaunchKeepsPasses(H: Hash, u: Upload, from: nat, via: Link)
    requires PassesOk(H, u) && u.clones > 0
    ensures PassesOk(H, Uploads.Launch(u, from, via))
  {
    var w := u.(clones := u.clones - 1);
    FlagsKeepPasses(H, u, w);
    SpawnKeepsPasses(H, w, from, via);
    FlagsKeepPasses(H, Spawn(w, from, via), Uploads.Launch(u, from, via));
  }

  lemma LaunchKeepsRefs(u: Upload, from: nat, via: Link)
    requires RefsExact(u) && u.clones > 0
    ensures RefsExact(Uploads.Launch(u, from, via))
  {
    SpawnKeepsRefs(u, from, via);
    assert Uploads.Launch(u, from, via).tasks == Spawn(u, from, via).tasks;
  }

  // A retry whose lock region and spawn are one step is the two halves in a row.
  lemma RetryIsHoldThenLaunch(H: Hash, u: Upload, from: nat, via: Link)
    requires u.registered
    ensures Apply(H, u, Retry(from, via)) == Apply(H, Apply(H, u, Event.Hold(via)), Event.Launch(from, via))
  {
  }

  lemma BeginKeepsRefs(u: Upload, via: Link)
    requires RefsExact(u)
    ensures RefsExact(FirstPass(u, via)) && RefsExact(AbortStart(u))
    ensures u.refs == 0 ==> FirstPass(u, via).refs == AbortStart(u).refs == 0
  {
    SpawnKeepsRefs(u, 0, via);
    if u.starting {
      assert FirstPass(u, via).tasks == Spawn(u, 0, via).tasks;
    }
  }

  // The slot's count stays exact, and a released slot is never taken again.
  lemma ApplyKeepsRefs(H: Hash, u: Upload, e: Event)
    requires RefsExact(u)
    ensures RefsExact(Apply(H, u, e))
    ensures u.refs == 0 ==> Apply(H, u, e).refs == 0
  {
    match e
    case Begin(via) => BeginKeepsRefs(u, via);
    case Abort => BeginKeepsRefs(u, Link(0, u.owner));
    case Retry(from, via) => SpawnKeepsRefs(u, from, via);
    case Hold(_) =>
    case Launch(from, via) => if u.clones > 0 { LaunchKeepsRefs(u, from, via); }
    case Rejected =>
    case Completed =>
    case Move(t, step) => StepKeepsRefs(H, u, t, step);
  }

  lemma {:induction false} RunKeeps(H: Hash, owner: Owner, content: Bytes, es: seq<Event>)
    ensures
      var u := Run(H, Opened(owner, content), es);
      PassesOk(H, u) && RefsExact(u) && u.content == content && u.size == |content|
  {
    if es != [] {
      RunKeeps(H, owner, content, es[..|es| - 1]);
      ApplyKeepsPasses(H, Run(H, Opened(owner, content), es[..|es| - 1]), es[|es| - 1]);
      ApplyKeepsRefs(H, Run(H, Opened(owner, content), es[..|es| - 1]), es[|es| - 1]);
    }
  }

  // ---- Where the frames go ----

  // Every task was started on a link of the upload's owner, and so was every
  // frame sent.
  ghost predicate ToOwner(u: Upload) {
    && (forall t :: t in u.tasks ==> u.tasks[t].via.owner == u.owner)
    && (forall k :: 0 <= k < |u.sent| ==> u.sent[k].via.owner == u.owner)
  }

  lemma MoveKeepsToOwner(u: Upload, t: nat, task: Task)
    requires ToOwner(u) && t in u.tasks && task.via == u.tasks[t].via
    ensures ToOwner(Goto(u, t, task)) && ToOwner(Fail(u, t)) && ToOwner(End(u, t))
      && ToOwner(End(Deregister(u, false), t))
  {
  }

  lemma EmitKeepsToOwner(u: Upload, e: Emit)
    requires ToOwner(u) && e.via.owner == u.owner
    ensures ToOwner(u.(sent := u.sent + [e]))
  {
  }

  lemma SendKeepsToOwner(u: Upload, t: nat)
    requires ToOwner(u) && t in u.tasks && u.tasks[t].pc.Sending?
    ensures ToOwner(OnSend(u, t, true))
  {
    var task := u.tasks[t];
    var e := Emit(t, task.via, task.from, Retired(u, t), Chunk(task.seqNo, task.pc.bytes));
    EmitKeepsToOwner(u, e);
    MoveKeepsToOwner(u.(sent := u.sent + [e]), t, task.(pc := CheckCancelled, seqNo := task.seqNo + 1));
  }

  lemma FinishKeepsToOwner(H: Hash, u: Upload, t: nat)
    requires ToOwner(u) && t in u.tasks
    ensures ToOwner(OnFinish(H, u, t, true))
  {
    var task := u.tasks[t];
    var e := Emit(t, task.via, task.from, Retired(u, t), Done(u.size, H(task.hashed)));
    EmitKeepsToOwner(u, e);
    MoveKeepsToOwner(u.(sent := u.sent + [e]), t, task);
  }

  lemma StepKeepsToOwner(H: Hash, u: Upload, t: nat, step: Step)
    requires ToOwner(u)
    ensures ToOwner(TaskStep(H, u, t, step))
  {
    if t in u.tasks {
      var task := u.tasks[t];
      MoveKeepsToOwner(u, t, task);
      match task.pc
      case Wait =>
        MoveKeepsToOwner(u.(mutex := Some(t)), t, task.(pc := CheckCancelled, seqNo := 0, cursor := 0, hashed := []));
      case CheckCancelled => MoveKeepsToOwner(u, t, task.(pc := CheckEpoch));
      case CheckEpoch => MoveKeepsToOwner(u, t, task.(pc := Reading));
      case Reading => if step.Read? { ReadKeepsToOwner(u, t, step.n); }
      case Sending(_) => SendKeepsToOwner(u, t);
      case Finishing => FinishKeepsToOwner(H, u, t);
      case _ => EpilogueKeepsToOwner(u, t);
    }
  }

  lemma ReadKeepsToOwner(u: Upload, t: nat, n: nat)
    requires ToOwner(u) && t in u.tasks
    ensures ToOwner(OnRead(u, t, n, true))
  {
    var task := u.tasks[t];
    if ReadReturns(u, task, n) {
      MoveKeepsToOwner(u, t,
        if n == 0 then task.(pc := Finishing) else AfterRead(task, u.content[task.cursor..task.cursor + n]));
    }
  }

  lemma EpilogueKeepsToOwner(u: Upload, t: nat)
    requires ToOwner(u) && t in u.tasks
    ensures ToOwner(OnEpilogue(u, t))
  {
    var task := u.tasks[t];
    MoveKeepsToOwner(u, t, task.(pc := Cancelling));
    MoveKeepsToOwner(u.(cancelled := true), t, task.(pc := Removing));
  }

  // Whatever happens to an upload, its frames go to its owner's links only.
  lemma ApplyKeepsToOwner(H: Hash, u: Upload, e: Event)
    requires ToOwner(u)
    ensures ToOwner(Apply(H, u, e))
  {
    if e.Move? {
      StepKeepsToOwner(H, u, e.task, e.step);
    }
  }

  // ---- Passes ----

  // How many frames directly before frame k came from the same task.
  ghost function Before(sent: seq<Emit>, k: nat): (n: nat)
    requires k < |sent|
    ensures n <= k
  {
    if k > 0 && sent[k - 1].task == sent[k].task then Before(sent, k - 1) + 1 else 0
  }

  // Frame k and the frames before it are a pass so far: on-time chunks numbered
  // `from`, `from` + 1, ... in an unbroken row, and no other frame of that task.
  ghost predicate PassUpTo(sent: seq<Emit>, k: nat)
    requires k < |sent|
  {
    var start := k - Before(sent, k);
    && (forall i :: 0 <= i < start ==> sent[i].task != sent[k].task)
    && (forall i :: start <= i < k ==>
          && sent[i].task == sent[k].task && sent[i].from == sent[k].from && !sent[i].late
          && sent[i].frame.Chunk? && sent[i].frame.seqNo == sent[k].from + (i - start))
    && (sent[k].frame.Chunk? ==> sent[k].frame.seqNo == sent[k].from + (k - start))
  }

  lemma {:induction false} LogIsPasses(H: Hash, content: Bytes, size: nat, sent: seq<Emit>, k: nat)
    requires k < |sent| && forall i :: 0 <= i <= k ==> FrameOk(H, content, size, sent, i)
    ensures PassUpTo(sent, k)
  {
    assert FrameOk(H, content, size, sent, k);
    if Continues(sent, k) {
      LogIsPasses(H, content, size, sent, k - 1);
    } else {
      assert Before(sent, k) == 0;
    }
  }

  // Over every run of starts, retries, rejections, completions and task steps,
  // what an upload sends is a concatenation of passes, and every final frame
  // carries the size and digest of the whole file, wherever its pass began.
  lemma UploadIsPasses(H: Hash, owner: Owner, content: Bytes, es: seq<Event>, k: nat)
    requires k < |Run(H, Opened(owner, content), es).sent|
    ensures
      var sent := Run(H, Opened(owner, content), es).sent;
      PassUpTo(sent, k) && (sent[k].frame.Done? ==> sent[k].frame == Done(|content|, H(content)))
  {
    RunKeeps(H, owner, content, es);
    var u := Run(H, Opened(owner, content), es);
    assert FrameOk(H, u.content, u.size, u.sent, k);
    LogIsPasses(H, content, |content|, u.sent, k);
  }

  ghost predicate OneMoreAtMost(u: Upload, v: Upload, t: nat) {
    && u.sent <= v.sent
    && (forall i, j :: |u.sent| <= i < j < |v.sent| && v.sent[i].task == t ==> v.sent[j].task != t)
  }

  ghost predicate LateSince(u: Upload, v: Upload, t: nat) {
    forall k :: |u.sent| <= k < |v.sent| && v.sent[k].task == t ==> v.sent[k].late
  }

  // A pass that has been superseded or cancelled sends at most one more frame,
  // whatever happens afterwards.
  lemma {:induction false} RetiredSendsOneMore(H: Hash, u: Upload, t: nat, es: seq<Event>)
    requires PassesOk(H, u) && Retired(u, t) && t <= u.epoch
    ensures PassesOk(H, Run(H, u, es)) && Onward(u, Run(H, u, es))
    ensures OneMoreAtMost(u, Run(H, u, es), t) && LateSince(u, Run(H, u, es), t)
  {
    if es != [] {
      var w := Run(H, u, es[..|es| - 1]);
      RetiredSendsOneMore(H, u, t, es[..|es| - 1]);
      ApplyKeepsPasses(H, w, es[|es| - 1]);
      ExtendByOne(H, u, w, Run(H, u, es), t);
    }
  }

  lemma ExtendByOne(H: Hash, u: Upload, w: Upload, v: Upload, t: nat)
    requires OneMoreAtMost(u, w, t) && LateSince(u, w, t) && Retired(w, t) && SendsAtMostOne(w, v) && LogOk(H, v)
    ensures OneMoreAtMost(u, v, t) && LateSince(u, v, t)
  {
    var n := |w.sent|;
    if |v.sent| > n {
      assert FrameOk(H, v.content, v.size, v.sent, n);
      assert forall k :: 0 <= k < n ==> v.sent[k] == w.sent[k];
    }
  }

  // ---- When every read fills the buffer until the end of the file ----

  predicate FullRead(u: Upload, e: Event) {
    e.Move? && e.step.Read? && e.task in u.tasks ==>
      u.tasks[e.task].cursor <= |u.content| &&
      e.step.n == Min(FILE_CHUNK_BYTES, |u.content| - u.tasks[e.task].cursor)
  }

  ghost predicate FullReads(H: Hash, u: Upload, es: seq<Event>) {
    es == [] || (FullReads(H, u, es[..|es| - 1]) && FullRead(Run(H, u, es[..|es| - 1]), es[|es| - 1]))
  }

  ghost predicate TaskAligned(content: Bytes, task: Task) {
    match task.pc
    case Wait => true
    case Failed => true
    case Cancelling => true
    case Removing => true
    case Sending(bytes) =>
      && bytes == ChunkAt(content, task.seqNo) && task.seqNo < ChunkCount(content)
      && task.cursor == PrefixLength(content, task.seqNo + 1)
    case _ => task.cursor == PrefixLength(content, task.seqNo) && task.seqNo <= ChunkCount(content)
  }

  ghost predicate EmitAligned(content: Bytes, sent: seq<Emit>, k: nat)
    requires k < |sent|
  {
    match sent[k].frame
    case Chunk(q, bytes) => q < ChunkCount(content) && bytes == ChunkAt(content, q)
    case Done(_, _) =>
      if k > 0 && sent[k - 1].task == sent[k].task
      then sent[k - 1].frame.Chunk? && sent[k - 1].frame.seqNo + 1 == ChunkCount(content)
      else sent[k].from >= ChunkCount(content)
  }

  ghost predicate LogAligned(u: Upload) {
    forall k :: 0 <= k < |u.sent| ==> EmitAligned(u.content, u.sent, k)
  }

  ghost predicate TasksAligned(u: Upload) {
    forall t :: t in u.tasks ==> TaskAligned(u.content, u.tasks[t])
  }

  lemma EmitKeepsAligned(u: Upload, v: Upload)
    requires LogAligned(u) && v.content == u.content && u.sent < v.sent && |v.sent| == |u.sent| + 1
    requires EmitAligned(v.content, v.sent, |u.sent|)
    ensures LogAligned(v)
  {
    forall k | 0 <= k < |v.sent| ensures EmitAligned(v.content, v.sent, k) {
      if k < |u.sent| {
        assert EmitAligned(u.content, u.sent, k);
      }
    }
  }

  lemma AfterReadAligned(content: Bytes, task: Task, n: nat)
    requires task.pc == Reading && TaskAligned(content, task) && task.cursor + n <= |content|
    requires n == Min(FILE_CHUNK_BYTES, |content| - task.cursor)
    ensures n == 0 ==> TaskAligned(content, task.(pc := Finishing))
    ensures n > 0 ==> TaskAligned(content, AfterRead(task, content[task.cursor..task.cursor + n]))
  {
    ChunksTile(content, task.seqNo);
    ChunksTile(content, task.seqNo + 1);
    if n > 0 {
      assert content[task.cursor..task.cursor + n] == ChunkAt(content, task.seqNo);
    }
  }

  lemma ReadAligned(u: Upload, t: nat, n: nat)
    requires TasksAligned(u) && t in u.tasks && u.tasks[t].pc == Reading
    requires u.tasks[t].cursor <= |u.content| && n == Min(FILE_CHUNK_BYTES, |u.content| - u.tasks[t].cursor)
    ensures TasksAligned(OnRead(u, t, n, true))
  {
    assert TaskAligned(u.content, u.tasks[t]);
    AfterReadAligned(u.content, u.tasks[t], n);
    assert ReadReturns(u, u.tasks[t], n);
  }

  lemma FinishAligned(H: Hash, u: Upload, t: nat)
    requires PassesOk(H, u) && TasksAligned(u) && LogAligned(u) && t in u.tasks && u.tasks[t].pc == Finishing
    ensures LogAligned(OnFinish(H, u, t, true))
  {
    var task := u.tasks[t];
    assert TaskOk(u, t, task);
    assert TaskAligned(u.content, task);
    ChunksTile(u.content, task.seqNo);
    if |u.sent| > 0 && u.sent[|u.sent| - 1].task == t {
      assert Emitted(u.sent, t);
    }
    EmitKeepsAligned(u, OnFinish(H, u, t, true));
  }

  lemma SendAligned(u: Upload, t: nat)
    requires TasksAligned(u) && LogAligned(u) && t in u.tasks && u.tasks[t].pc.Sending?
    ensures LogAligned(OnSend(u, t, true)) && TasksAligned(OnSend(u, t, true))
  {
    assert TaskAligned(u.content, u.tasks[t]);
    EmitKeepsAligned(u, OnSend(u, t, true));
  }

  lemma EndAligned(u: Upload, t: nat)
    requires TasksAligned(u)
    ensures TasksAligned(End(u, t)) && (t in u.tasks ==> TasksAligned(Fail(u, t)))
  {
  }

  lemma MoveAligned(H: Hash, u: Upload, t: nat, step: Step)
    requires PassesOk(H, u) && TasksAligned(u) && LogAligned(u) && FullRead(u, Move(t, step))
    ensures TasksAligned(TaskStep(H, u, t, step)) && LogAligned(TaskStep(H, u, t, step))
  {
    if t in u.tasks {
      EndAligned(u, t);
      match u.tasks[t].pc
      case Wait => if step.Lock? { LockAligned(u, t, step.ok); }
      case CheckCancelled => ChecksAligned(u, t);
      case CheckEpoch => ChecksAligned(u, t);
      case Reading => if step.Read? && step.ok { ReadAligned(u, t, step.n); }
      case Sending(_) => SendAligned(u, t);
      case Finishing => FinishAligned(H, u, t); EndAligned(u.(sent := OnFinish(H, u, t, true).sent), t);
      case _ => EpilogueAligned(u, t);
    }
  }

  lemma EpilogueAligned(u: Upload, t: nat)
    requires TasksAligned(u) && LogAligned(u) && t in u.tasks && InEpilogue(u.tasks[t].pc)
    ensures TasksAligned(OnEpilogue(u, t)) && LogAligned(OnEpilogue(u, t))
  {
    EndAligned(u, t);
    EndAligned(Deregister(u, false), t);
  }

  lemma LockAligned(u: Upload, t: nat, ok: bool)
    requires TasksAligned(u) && t in u.tasks
    ensures TasksAligned(OnLock(u, t, ok))
  {
    EndAligned(u, t);
    assert TaskAligned(u.content, u.tasks[t].(pc := CheckCancelled, seqNo := 0, cursor := 0, hashed := []));
  }

  lemma ChecksAligned(u: Upload, t: nat)
    requires TasksAligned(u) && t in u.tasks
    ensures u.tasks[t].pc == CheckCancelled ==> TasksAligned(OnCheckCancelled(u, t))
    ensures u.tasks[t].pc == CheckEpoch ==> TasksAligned(OnCheckEpoch(u, t))
  {
    assert TaskAligned(u.content, u.tasks[t]);
    EndAligned(u, t);
  }

  lemma {:induction false} RunAligned(H: Hash, owner: Owner, content: Bytes, es: seq<Event>)
    requires FullReads(H, Opened(owner, content), es)
    ensures TasksAligned(Run(H, Opened(owner, content), es)) && LogAligned(Run(H, Opened(owner, content), es))
  {
    if es != [] {
      RunAligned(H, owner, content, es[..|es| - 1]);
      RunKeeps(H, owner, content, es[..|es| - 1]);
      ApplyAligned(H, Run(H, Opened(owner, content), es[..|es| - 1]), es[|es| - 1]);
    }
  }

  lemma ApplyAligned(H: Hash, u: Upload, e: Event)
    requires PassesOk(H, u) && TasksAligned(u) && LogAligned(u) && FullRead(u, e)
    ensures TasksAligned(Apply(H, u, e)) && LogAligned(Apply(H, u, e))
  {
    if e.Move? {
      MoveAligned(H, u, e.task, e.step);
    }
  }

  // Then every chunk frame holds that chunk of the file, and a finished pass is
  // all the chunks from its `from` on followed by the digest of the whole file.
  lemma FinishedPassIsTheFile(H: Hash, owner: Owner, content: Bytes, es: seq<Event>, k: nat)
    requires FullReads(H, Opened(owner, content), es)
    requires k < |Run(H, Opened(owner, content), es).sent|
    ensures
      var sent := Run(H, Opened(owner, content), es).sent;
      && (sent[k].frame.Chunk? ==> sent[k].frame.bytes == ChunkAt(content, sent[k].frame.seqNo) != [])
      && (sent[k].frame.Done? ==> Before(sent, k) == |ChunksFrom(content, sent[k].from)|)
  {
    RunKeeps(H, owner, content, es);
    RunAligned(H, owner, content, es);
    UploadIsPasses(H, owner, content, es, k);
    var sent := Run(H, Opened(owner, content), es).sent;
    assert EmitAligned(content, sent, k);
    if sent[k].frame.Chunk? {
      ChunksTile(content, sent[k].frame.seqNo);
    } else if Before(sent, k) > 0 {
      assert sent[k - 1].frame.seqNo == sent[k].from + Before(sent, k) - 1;
    }
  }
}
