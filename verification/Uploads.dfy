// One upload: the registry entry, the shared cancel flag and epoch, the mutex
// around its open file, and every streaming task that was ever spawned for it
// (app/src-tauri/src/lib.rs:207-247, 3074-3178). Each atomic load, lock,
// read or send is one step, so tasks interleave freely.
module Uploads {
  import opened Bytes
  import opened Downloads

  datatype Sent = Chunk(seqNo: nat, bytes: Bytes) | Done(size: nat, checksum: Digest)

  // A frame on its way out: which task sent it, on which link, where that task's
  // pass started, and whether it had already been retired when it sent it.
  datatype Emit = Emit(task: nat, via: Link, from: nat, late: bool, frame: Sent)

  // Where a streaming task is: waiting for the file mutex, at the two checks at
  // the head of its loop, about to read, about to send a chunk or the final
  // digest, or at one of the three steps of the error epilogue.
  datatype Pc =
    | Wait | CheckCancelled | CheckEpoch | Reading | Sending(bytes: Bytes) | Finishing
    | Failed | Cancelling | Removing

  // An error has left the streaming block.
  predicate InEpilogue(pc: Pc) {
    pc == Failed || pc == Cancelling || pc == Removing
  }

  datatype Task = Task(from: nat, via: Link, pc: Pc, seqNo: nat, cursor: nat, hashed: Bytes)

  // `content` is the opened file and `size` what its handle reported. A task is
  // keyed by the epoch it was spawned with. `refs` is the strong count of the
  // shared transfer slot.
  datatype Upload = Upload(
    owner: Owner,
    content: Bytes,
    size: nat,
    registered: bool,
    starting: bool,
    clones: nat, // taken by retries that have not spawned their task yet
    cancelled: bool,
    epoch: nat,
    mutex: Option<nat>,
    tasks: map<nat, Task>,
    sent: seq<Emit>,
    refs: nat)

  // `upload_file` between the insert and the first pass: the registry and the
  // command each hold a clone.
  function Opened(owner: Owner, content: Bytes): Upload {
    Upload(owner, content, |content|, true, true, 0, false, 0, None, map[], [], 2)
  }

  function NewTask(from: nat, via: Link): Task {
    Task(from, via, Wait, 0, 0, [])
  }

  // `spawn_upload_range`: bump the epoch, start a task holding a clone.
  function Spawn(u: Upload, from: nat, via: Link): (v: Upload)
    ensures Onward(u, v) && v.sent == u.sent
  {
    u.(epoch := u.epoch + 1, tasks := u.tasks[u.epoch + 1 := NewTask(from, via)], refs := u.refs + 1)
  }

  function DropRef(u: Upload): (v: Upload)
    ensures Onward(u, v) && v.sent == u.sent
  {
    if u.refs == 0 then u else u.(refs := u.refs - 1)
  }

  // The command hands its own clone to the first task.
  function FirstPass(u: Upload, via: Link): (v: Upload)
    ensures Onward(u, v) && v.sent == u.sent
  {
    if u.starting then DropRef(Spawn(u.(starting := false), 0, via)) else u
  }

  // A retry clones the entry under the registry's lock and spawns its task
  // after it, by when the entry may be gone.
  function Hold(u: Upload): (v: Upload)
    ensures Onward(u, v) && v.sent == u.sent
  {
    if u.registered then u.(clones := u.clones + 1, refs := u.refs + 1) else u
  }

  function Launch(u: Upload, from: nat, via: Link): (v: Upload)
    ensures Onward(u, v) && v.sent == u.sent
  {
    if u.clones > 0 then DropRef(Spawn(u.(clones := u.clones - 1), from, via)) else u
  }

  // Sending `FilePutReq` failed: remove the entry and give up.
  function AbortStart(u: Upload): (v: Upload)
    ensures Onward(u, v) && v.sent == u.sent
  {
    if u.starting then DropRef(Deregister(u, false).(starting := false)) else u
  }

  // Take the entry out of the registry, cancelling the stream or not.
  function Deregister(u: Upload, cancel: bool): (v: Upload)
    ensures Onward(u, v) && v.sent == u.sent
  {
    if u.registered then DropRef(u.(registered := false, cancelled := u.cancelled || cancel)) else u
  }

  datatype Step = Lock(ok: bool) | Check | Read(n: nat, ok: bool) | Send(ok: bool) | Epilogue

  predicate Retired(u: Upload, t: nat) {
    u.cancelled || u.epoch != t
  }

  // What no step of an upload ever does: change the file, lower the epoch,
  // withdraw a cancellation or register the entry again.
  ghost predicate Onward(u: Upload, v: Upload) {
    && v.owner == u.owner && v.content == u.content && v.size == u.size
    && u.epoch <= v.epoch && (u.cancelled ==> v.cancelled)
    && (v.registered ==> u.registered) && (v.starting ==> u.starting)
  }

  ghost predicate SendsAtMostOne(u: Upload, v: Upload) {
    v.sent == u.sent || (u.sent < v.sent && |v.sent| == |u.sent| + 1
                         && v.sent[|u.sent|].late == Retired(u, v.sent[|u.sent|].task))
  }

  // The task returns: it drops the file guard (if it has it) and its clone.
  function End(u: Upload, t: nat): (v: Upload)
    ensures Onward(u, v) && v.sent == u.sent
  {
    DropRef(u.(tasks := u.tasks - {t}, mutex := if u.mutex == Some(t) then None else u.mutex))
  }

  // An error leaves the streaming block, which releases the file.
  function Fail(u: Upload, t: nat): (v: Upload)
    requires t in u.tasks
    ensures Onward(u, v) && v.sent == u.sent
  {
    u.(tasks := u.tasks[t := u.tasks[t].(pc := Failed)],
       mutex := if u.mutex == Some(t) then None else u.mutex)
  }

  function Goto(u: Upload, t: nat, task: Task): Upload {
    u.(tasks := u.tasks[t := task])
  }

  function AfterRead(task: Task, bytes: Bytes): Task {
    var read := task.(cursor := task.cursor + |bytes|, hashed := task.hashed + bytes);
    if task.seqNo >= task.from then read.(pc := Sending(bytes))
    else read.(pc := CheckCancelled, seqNo := task.seqNo + 1)
  }

  predicate ReadReturns(u: Upload, task: Task, n: nat) {
    && task.cursor + n <= |u.content|
    && n <= FILE_CHUNK_BYTES
    && (n == 0 ==> task.cursor == |u.content|)
  }

  function OnLock(u: Upload, t: nat, ok: bool): (v: Upload)
    requires t in u.tasks
    ensures Onward(u, v) && v.sent == u.sent
  {
    if u.mutex != None then u
    else if !ok then Fail(u, t)
    else Goto(u.(mutex := Some(t)), t,
              u.tasks[t].(pc := CheckCancelled, seqNo := 0, cursor := 0, hashed := []))
  }

  function OnCheckCancelled(u: Upload, t: nat): (v: Upload)
    requires t in u.tasks
    ensures Onward(u, v) && v.sent == u.sent
  {
    if u.cancelled then End(u, t) else Goto(u, t, u.tasks[t].(pc := CheckEpoch))
  }

  function OnCheckEpoch(u: Upload, t: nat): (v: Upload)
    requires t in u.tasks
    ensures Onward(u, v) && v.sent == u.sent
  {
    if u.epoch != t then End(u, t) else Goto(u, t, u.tasks[t].(pc := Reading))
  }

  function OnRead(u: Upload, t: nat, n: nat, ok: bool): (v: Upload)
    requires t in u.tasks
    ensures Onward(u, v) && v.sent == u.sent
  {
    var task := u.tasks[t];
    if !ok then Fail(u, t)
    else if !ReadReturns(u, task, n) then u
    else if n == 0 then Goto(u, t, task.(pc := Finishing))
    else Goto(u, t, AfterRead(task, u.content[task.cursor..task.cursor + n]))
  }

  function OnSend(u: Upload, t: nat, ok: bool): (v: Upload)
    requires t in u.tasks && u.tasks[t].pc.Sending?
    ensures Onward(u, v) && SendsAtMostOne(u, v)
  {
    var task := u.tasks[t];
    if !ok then Fail(u, t)
    else
      var e := Emit(t, task.via, task.from, Retired(u, t), Chunk(task.seqNo, task.pc.bytes));
      Goto(u.(sent := u.sent + [e]), t, task.(pc := CheckCancelled, seqNo := task.seqNo + 1))
  }

  function OnFinish(H: Hash, u: Upload, t: nat, ok: bool): (v: Upload)
    requires t in u.tasks
    ensures Onward(u, v) && SendsAtMostOne(u, v)
  {
    var task := u.tasks[t];
    if !ok then Fail(u, t)
    else
      var e := Emit(t, task.via, task.from, Retired(u, t), Done(u.size, H(task.hashed)));
      End(u.(sent := u.sent + [e]), t)
  }

  // Only the task that is still the live one reports its failure: it looks at
  // the epoch, stores the cancel flag and removes the entry, one after the other.
  function OnEpilogue(u: Upload, t: nat): (v: Upload)
    requires t in u.tasks
    ensures Onward(u, v) && v.sent == u.sent
  {
    match u.tasks[t].pc
    case Failed => if u.epoch != t then End(u, t) else Goto(u, t, u.tasks[t].(pc := Cancelling))
    case Cancelling => Goto(u.(cancelled := true), t, u.tasks[t].(pc := Removing))
    case _ => End(Deregister(u, false), t)
  }

  function TaskStep(H: Hash, u: Upload, t: nat, step: Step): (v: Upload)
    ensures Onward(u, v) && SendsAtMostOne(u, v)
  {
    if t !in u.tasks then u
    else
      match u.tasks[t].pc
      case Wait => if step.Lock? then OnLock(u, t, step.ok) else u
      case CheckCancelled => if step.Check? then OnCheckCancelled(u, t) else u
      case CheckEpoch => if step.Check? then OnCheckEpoch(u, t) else u
      case Reading => if step.Read? then OnRead(u, t, step.n, step.ok) else u
      case Sending(_) => if step.Send? then OnSend(u, t, step.ok) else u
      case Finishing => if step.Send? then OnFinish(H, u, t, step.ok) else u
      case _ => if step.Epilogue? then OnEpilogue(u, t) else u
  }

  // ---- The slot is released exactly when nothing holds it ----

  function Flag(b: bool): nat {
    if b then 1 else 0
  }

  ghost predicate RefsExact(u: Upload) {
    && u.refs == Flag(u.registered) + Flag(u.starting) + u.clones + |u.tasks|
    && forall t :: t in u.tasks ==> 1 <= t <= u.epoch
  }

  lemma SpawnKeepsRefs(u: Upload, from: nat, via: Link)
    requires RefsExact(u)
    ensures RefsExact(Spawn(u, from, via)) && Spawn(u, from, via).refs == u.refs + 1
  {
    assert u.epoch + 1 !in u.tasks;
  }

  lemma TaskCounts(tasks: map<nat, Task>, t: nat, task: Task)
    requires t in tasks
    ensures |tasks[t := task]| == |tasks| && |tasks - {t}| == |tasks| - 1
  {
    assert tasks[t := task].Keys == tasks.Keys;
    assert (tasks - {t}).Keys == tasks.Keys - {t};
  }

  lemma EndKeepsRefs(u: Upload, t: nat)
    requires RefsExact(u) && t in u.tasks
    ensures RefsExact(End(u, t)) && End(u, t).refs == u.refs - 1
  {
    TaskCounts(u.tasks, t, u.tasks[t]);
  }

  lemma GotoKeepsRefs(u: Upload, t: nat, task: Task)
    requires RefsExact(u) && t in u.tasks
    ensures RefsExact(Goto(u, t, task)) && RefsExact(Fail(u, t))
  {
    TaskCounts(u.tasks, t, task);
    TaskCounts(u.tasks, t, u.tasks[t].(pc := Failed));
  }

  lemma LockKeepsRefs(u: Upload, t: nat, ok: bool)
    requires RefsExact(u) && t in u.tasks
    ensures RefsExact(OnLock(u, t, ok)) && OnLock(u, t, ok).refs <= u.refs
  {
    GotoKeepsRefs(u.(mutex := Some(t)), t, u.tasks[t].(pc := CheckCancelled, seqNo := 0, cursor := 0, hashed := []));
    GotoKeepsRefs(u, t, u.tasks[t]);
  }

  lemma ChecksKeepRefs(u: Upload, t: nat)
    requires RefsExact(u) && t in u.tasks
    ensures RefsExact(OnCheckCancelled(u, t)) && OnCheckCancelled(u, t).refs <= u.refs
    ensures RefsExact(OnCheckEpoch(u, t)) && OnCheckEpoch(u, t).refs <= u.refs
  {
    EndKeepsRefs(u, t);
    GotoKeepsRefs(u, t, u.tasks[t].(pc := CheckEpoch));
    GotoKeepsRefs(u, t, u.tasks[t].(pc := Reading));
  }

  lemma ReadKeepsRefs(u: Upload, t: nat, n: nat, ok: bool)
    requires RefsExact(u) && t in u.tasks
    ensures RefsExact(OnRead(u, t, n, ok)) && OnRead(u, t, n, ok).refs <= u.refs
  {
    var task := u.tasks[t];
    GotoKeepsRefs(u, t, task.(pc := Finishing));
    if ReadReturns(u, task, n) {
      GotoKeepsRefs(u, t, AfterRead(task, u.content[task.cursor..task.cursor + n]));
    }
  }

  lemma SendKeepsRefs(u: Upload, t: nat, ok: bool)
    requires RefsExact(u) && t in u.tasks && u.tasks[t].pc.Sending?
    ensures RefsExact(OnSend(u, t, ok)) && OnSend(u, t, ok).refs <= u.refs
  {
    var v := OnSend(u, t, true);
    GotoKeepsRefs(u.(sent := v.sent), t, u.tasks[t].(pc := CheckCancelled, seqNo := u.tasks[t].seqNo + 1));
    GotoKeepsRefs(u, t, u.tasks[t]);
  }

  lemma FinishKeepsRefs(H: Hash, u: Upload, t: nat, ok: bool)
    requires RefsExact(u) && t in u.tasks
    ensures RefsExact(OnFinish(H, u, t, ok)) && OnFinish(H, u, t, ok).refs <= u.refs
  {
    EndKeepsRefs(u.(sent := OnFinish(H, u, t, true).sent), t);
    GotoKeepsRefs(u, t, u.tasks[t]);
  }

  lemma EpilogueKeepsRefs(u: Upload, t: nat)
    requires RefsExact(u) && t in u.tasks
    ensures RefsExact(OnEpilogue(u, t)) && OnEpilogue(u, t).refs <= u.refs
  {
    EndKeepsRefs(u, t);
    EndKeepsRefs(Deregister(u, false), t);
    GotoKeepsRefs(u, t, u.tasks[t].(pc := Cancelling));
    GotoKeepsRefs(u.(cancelled := true), t, u.tasks[t].(pc := Removing));
  }

  ghost predicate NoNewHolder(u: Upload, v: Upload) {
    RefsExact(v) && v.refs <= u.refs
  }

  // A task step never adds a holder; it may drop the task's own clone and, when
  // the live task failed, the registry's.
  lemma StepKeepsRefs(H: Hash, u: Upload, t: nat, step: Step)
    requires RefsExact(u)
    ensures NoNewHolder(u, TaskStep(H, u, t, step))
  {
    if t in u.tasks {
      match u.tasks[t].pc
      case Wait => if step.Lock? { LockKeepsRefs(u, t, step.ok); }
      case CheckCancelled => ChecksKeepRefs(u, t);
      case CheckEpoch => ChecksKeepRefs(u, t);
      case Reading => if step.Read? { ReadKeepsRefs(u, t, step.n, step.ok); }
      case Sending(_) => if step.Send? { SendKeepsRefs(u, t, step.ok); }
      case Finishing => if step.Send? { FinishKeepsRefs(H, u, t, step.ok); }
      case _ => EpilogueKeepsRefs(u, t);
    }
  }

  // ---- Frames of one upload ----

  // No frame before position k came from the task of frame k.
  ghost predicate First(sent: seq<Emit>, k: nat)
    requires k < |sent|
  {
    forall j :: 0 <= j < k ==> sent[j].task != sent[k].task
  }

  // Frame k directly continues its own task's previous chunk.
  ghost predicate Continues(sent: seq<Emit>, k: nat)
    requires k < |sent|
  {
    && k > 0
    && sent[k - 1].task == sent[k].task
    && sent[k - 1].from == sent[k].from
    && sent[k - 1].frame.Chunk?
    && (sent[k].frame.Chunk? ==> sent[k].frame.seqNo == sent[k - 1].frame.seqNo + 1)
  }

  // Each frame opens a pass at its `from` or continues the pass before it, a
  // retired pass sends nothing after a late frame, and every final frame
  // carries the digest of the whole file.
  ghost predicate FrameOk(H: Hash, content: Bytes, size: nat, sent: seq<Emit>, k: nat)
    requires k < |sent|
  {
    && (Continues(sent, k) || (First(sent, k) && (sent[k].frame.Chunk? ==> sent[k].frame.seqNo == sent[k].from)))
    && (sent[k].frame.Done? ==> sent[k].frame == Done(size, H(content)))
    && (forall j :: 0 <= j < k && sent[j].late ==> sent[j].task != sent[k].task)
  }

  ghost predicate LogOk(H: Hash, u: Upload) {
    forall k :: 0 <= k < |u.sent| ==> FrameOk(H, u.content, u.size, u.sent, k)
  }

  ghost predicate Emitted(sent: seq<Emit>, t: nat) {
    exists k :: 0 <= k < |sent| && sent[k].task == t
  }

  ghost predicate EmittedLate(sent: seq<Emit>, t: nat) {
    exists k :: 0 <= k < |sent| && sent[k].task == t && sent[k].late
  }

  // What the log's last frame must be for a task to be where it is.
  ghost predicate Joined(sent: seq<Emit>, t: nat, task: Task) {
    if Emitted(sent, t) then
      var last := sent[|sent| - 1];
      && last.task == t && last.from == task.from && last.frame.Chunk?
      && last.frame.seqNo + 1 == task.seqNo && task.seqNo > task.from
    else
      && task.seqNo <= task.from
      && (task.pc.Sending? ==> task.seqNo == task.from)
  }

  // `task` is a possible state of task t of upload u.
  ghost predicate TaskOk(u: Upload, t: nat, task: Task) {
    && 1 <= t <= u.epoch
    && (task.pc == Wait ==> !Emitted(u.sent, t) && u.mutex != Some(t))
    && (InEpilogue(task.pc) ==> u.mutex != Some(t))
    && (task.pc != Wait && !InEpilogue(task.pc) ==>
          && u.mutex == Some(t)
          && task.cursor <= |u.content|
          && task.hashed == u.content[..task.cursor]
          && Joined(u.sent, t, task)
          && (EmittedLate(u.sent, t) ==>
                || (task.pc == CheckCancelled && Retired(u, t))
                || (task.pc == CheckEpoch && u.epoch != t)))
    && (task.pc == Finishing ==> task.cursor == |u.content|)
  }

  ghost predicate PassesOk(H: Hash, u: Upload) {
    && LogOk(H, u)
    && (forall t :: t in u.tasks ==> TaskOk(u, t, u.tasks[t]))
    && (forall k :: 0 <= k < |u.sent| ==> u.sent[k].task <= u.epoch)
    && (u.mutex.Some? ==> u.mutex.value in u.tasks)
  }

  // What is true of a task stays true when another task moves, the upload is
  // cancelled or a newer task is spawned.
  lemma OthersKeepPasses(H: Hash, u: Upload, v: Upload, t: nat)
    requires PassesOk(H, u)
    requires v.sent == u.sent && v.content == u.content && v.size == u.size
    requires u.epoch <= v.epoch && (u.cancelled ==> v.cancelled)
    requires forall x :: x in v.tasks && x != t ==>
      x in u.tasks && v.tasks[x] == u.tasks[x] && (v.mutex == Some(x) <==> u.mutex == Some(x))
    requires t in v.tasks ==> TaskOk(v, t, v.tasks[t])
    requires v.mutex.Some? ==> v.mutex.value in v.tasks
    ensures PassesOk(H, v)
  {
    forall x | x in v.tasks ensures TaskOk(v, x, v.tasks[x]) {
      if x != t {
        assert TaskOk(u, x, u.tasks[x]);
      }
    }
    assert LogOk(H, v);
  }

  lemma FlagsKeepPasses(H: Hash, u: Upload, v: Upload)
    requires PassesOk(H, u)
    requires v == u.(registered := v.registered, starting := v.starting, clones := v.clones,
                     cancelled := v.cancelled, refs := v.refs)
    requires u.cancelled ==> v.cancelled
    ensures PassesOk(H, v)
  {
    OthersKeepPasses(H, u, v, 0);
  }

  lemma SpawnKeepsPasses(H: Hash, u: Upload, from: nat, via: Link)
    requires PassesOk(H, u)
    ensures PassesOk(H, Spawn(u, from, via))
  {
    OthersKeepPasses(H, u, Spawn(u, from, via), u.epoch + 1);
  }

  lemma GotoKeepsPasses(H: Hash, u: Upload, t: nat, task: Task, mutex: Option<nat>)
    requires PassesOk(H, u) && t in u.tasks
    requires mutex == u.mutex || (mutex == Some(t) && u.mutex == None) || (mutex == None && u.mutex == Some(t))
    requires TaskOk(u.(mutex := mutex), t, task)
    ensures PassesOk(H, u.(tasks := u.tasks[t := task], mutex := mutex))
  {
    OthersKeepPasses(H, u, u.(tasks := u.tasks[t := task], mutex := mutex), t);
  }

  lemma EndKeepsPasses(H: Hash, u: Upload, t: nat)
    requires PassesOk(H, u) && t in u.tasks
    ensures PassesOk(H, End(u, t))
  {
    OthersKeepPasses(H, u, End(u, t), t);
  }

  lemma EmitKeepsLog(H: Hash, u: Upload, e: Emit)
    requires LogOk(H, u)
    requires FrameOk(H, u.content, u.size, u.sent + [e], |u.sent|)
    ensures LogOk(H, u.(sent := u.sent + [e]))
  {
    var v := u.(sent := u.sent + [e]);
    forall k | 0 <= k < |v.sent| ensures FrameOk(H, v.content, v.size, v.sent, k) {
      if k < |u.sent| {
        assert FrameOk(H, u.content, u.size, u.sent, k);
      }
    }
  }

  // The frame a task is about to send fits the log.
  lemma NextFrameOk(H: Hash, u: Upload, t: nat, frame: Sent)
    requires PassesOk(H, u) && t in u.tasks
    requires
      || (u.tasks[t].pc.Sending? && frame.Chunk? && frame.seqNo == u.tasks[t].seqNo)
      || (u.tasks[t].pc == Finishing && frame == Done(u.size, H(u.content)))
    ensures
      var e := Emit(t, u.tasks[t].via, u.tasks[t].from, Retired(u, t), frame);
      FrameOk(H, u.content, u.size, u.sent + [e], |u.sent|)
  {
    assert TaskOk(u, t, u.tasks[t]);
    var sent := u.sent + [Emit(t, u.tasks[t].via, u.tasks[t].from, Retired(u, t), frame)];
    var k := |u.sent|;
    if Emitted(u.sent, t) {
      assert Continues(sent, k);
    } else {
      assert First(sent, k) by {
        forall j | 0 <= j < k ensures sent[j].task != sent[k].task {
          assert u.sent[j].task == t ==> Emitted(u.sent, t);
        }
      }
    }
    forall j | 0 <= j < k && sent[j].late ensures sent[j].task != sent[k].task {
      assert u.sent[j].task == t ==> EmittedLate(u.sent, t);
    }
  }

  // Sending moves only the holder of the file: everyone else is still waiting
  // or has failed.
  lemma EmitKeepsOthers(H: Hash, u: Upload, e: Emit, x: nat)
    requires PassesOk(H, u) && u.mutex == Some(e.task) && x in u.tasks && x != e.task
    ensures TaskOk(u.(sent := u.sent + [e]), x, u.tasks[x])
    ensures TaskOk(u.(sent := u.sent + [e], mutex := None), x, u.tasks[x])
  {
    assert TaskOk(u, x, u.tasks[x]);
    var sent := u.sent + [e];
    if Emitted(sent, x) {
      var k :| 0 <= k < |sent| && sent[k].task == x;
      assert u.sent[k].task == x;
      assert Emitted(u.sent, x);
    }
  }

  lemma SendKeepsPasses(H: Hash, u: Upload, t: nat)
    requires PassesOk(H, u) && t in u.tasks && u.tasks[t].pc.Sending?
    ensures PassesOk(H, OnSend(u, t, true))
  {
    var task := u.tasks[t];
    assert TaskOk(u, t, task);
    var e := Emit(t, task.via, task.from, Retired(u, t), Chunk(task.seqNo, task.pc.bytes));
    NextFrameOk(H, u, t, e.frame);
    EmitKeepsLog(H, u, e);
    var w := u.(sent := u.sent + [e]);
    var next := task.(pc := CheckCancelled, seqNo := task.seqNo + 1);
    assert w.sent[|u.sent|] == e;
    assert Emitted(w.sent, t);
    assert TaskOk(w, t, next) by {
      if EmittedLate(w.sent, t) {
        var k :| 0 <= k < |w.sent| && w.sent[k].task == t && w.sent[k].late;
        if k < |u.sent| {
          assert false;
        }
      }
    }
    forall x | x in w.tasks && x != t ensures TaskOk(w, x, w.tasks[x]) {
      EmitKeepsOthers(H, u, e, x);
    }
    assert OnSend(u, t, true) == w.(tasks := w.tasks[t := next]);
  }

  lemma FinishKeepsPasses(H: Hash, u: Upload, t: nat)
    requires PassesOk(H, u) && t in u.tasks && u.tasks[t].pc == Finishing
    ensures PassesOk(H, OnFinish(H, u, t, true))
  {
    var task := u.tasks[t];
    assert TaskOk(u, t, task);
    assert task.hashed == u.content;
    var e := Emit(t, task.via, task.from, Retired(u, t), Done(u.size, H(task.hashed)));
    NextFrameOk(H, u, t, e.frame);
    EmitKeepsLog(H, u, e);
    var v := OnFinish(H, u, t, true);
    assert v.sent == u.sent + [e] && v.mutex == None;
    forall x | x in v.tasks ensures TaskOk(v, x, v.tasks[x]) {
      EmitKeepsOthers(H, u, e, x);
    }
    assert LogOk(H, v);
  }

  lemma FailKeepsPasses(H: Hash, u: Upload, t: nat)
    requires PassesOk(H, u) && t in u.tasks
    ensures PassesOk(H, Fail(u, t))
  {
    assert TaskOk(u, t, u.tasks[t]);
    GotoKeepsPasses(H, u, t, u.tasks[t].(pc := Failed), if u.mutex == Some(t) then None else u.mutex);
  }

  lemma LockKeepsPasses(H: Hash, u: Upload, t: nat, ok: bool)
    requires PassesOk(H, u) && t in u.tasks && u.tasks[t].pc == Wait
    ensures PassesOk(H, OnLock(u, t, ok))
  {
    assert TaskOk(u, t, u.tasks[t]);
    assert EmittedLate(u.sent, t) ==> Emitted(u.sent, t);
    FailKeepsPasses(H, u, t);
    if u.mutex == None {
      GotoKeepsPasses(H, u, t, u.tasks[t].(pc := CheckCancelled, seqNo := 0, cursor := 0, hashed := []), Some(t));
    }
  }

  lemma ReadKeepsPasses(H: Hash, u: Upload, t: nat, n: nat)
    requires PassesOk(H, u) && t in u.tasks && u.tasks[t].pc == Reading
    ensures PassesOk(H, OnRead(u, t, n, true))
  {
    var task := u.tasks[t];
    assert TaskOk(u, t, task);
    if ReadReturns(u, task, n) {
      var next := if n == 0 then task.(pc := Finishing) else AfterRead(task, u.content[task.cursor..task.cursor + n]);
      AfterReadIsOk(u, t, task, n);
      assert OnRead(u, t, n, true) == Goto(u, t, next);
      GotoKeepsPasses(H, u, t, next, u.mutex);
    }
  }

  lemma AfterReadIsOk(u: Upload, t: nat, task: Task, n: nat)
    requires TaskOk(u, t, task) && task.pc == Reading && ReadReturns(u, task, n)
    ensures TaskOk(u, t,
      if n == 0 then task.(pc := Finishing) else AfterRead(task, u.content[task.cursor..task.cursor + n]))
  {
    PrefixGrows(u.content, task.cursor, n);
  }

  lemma CheckKeepsPasses(H: Hash, u: Upload, t: nat)
    requires PassesOk(H, u) && t in u.tasks
    ensures u.tasks[t].pc == CheckCancelled ==> PassesOk(H, OnCheckCancelled(u, t))
    ensures u.tasks[t].pc == CheckEpoch ==> PassesOk(H, OnCheckEpoch(u, t))
  {
    assert TaskOk(u, t, u.tasks[t]);
    EndKeepsPasses(H, u, t);
    if u.tasks[t].pc == CheckCancelled && !u.cancelled {
      GotoKeepsPasses(H, u, t, u.tasks[t].(pc := CheckEpoch), u.mutex);
    } else if u.tasks[t].pc == CheckEpoch && u.epoch == t {
      GotoKeepsPasses(H, u, t, u.tasks[t].(pc := Reading), u.mutex);
    }
  }

  lemma EpilogueKeepsPasses(H: Hash, u: Upload, t: nat)
    requires PassesOk(H, u) && t in u.tasks && InEpilogue(u.tasks[t].pc)
    ensures PassesOk(H, OnEpilogue(u, t))
  {
    var task := u.tasks[t];
    assert TaskOk(u, t, task);
    match task.pc
    case Failed =>
      EndKeepsPasses(H, u, t);
      GotoKeepsPasses(H, u, t, task.(pc := Cancelling), u.mutex);
    case Cancelling =>
      FlagsKeepPasses(H, u, u.(cancelled := true));
      GotoKeepsPasses(H, u.(cancelled := true), t, task.(pc := Removing), u.mutex);
    case _ =>
      FlagsKeepPasses(H, u, Deregister(u, false));
      EndKeepsPasses(H, Deregister(u, false), t);
  }

  lemma TaskStepKeepsPasses(H: Hash, u: Upload, t: nat, step: Step)
    requires PassesOk(H, u)
    ensures PassesOk(H, TaskStep(H, u, t, step))
  {
    if t in u.tasks {
      FailKeepsPasses(H, u, t);
      match u.tasks[t].pc
      case Wait => if step.Lock? { LockKeepsPasses(H, u, t, step.ok); }
      case CheckCancelled => CheckKeepsPasses(H, u, t);
      case CheckEpoch => CheckKeepsPasses(H, u, t);
      case Reading => if step.Read? && step.ok { ReadKeepsPasses(H, u, t, step.n); }
      case Sending(_) => SendKeepsPasses(H, u, t);
      case Finishing => FinishKeepsPasses(H, u, t);
      case _ => EpilogueKeepsPasses(H, u, t);
    }
  }
}
