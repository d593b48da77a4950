// Correlated requests: a table of waiting calls per connection generation, and
// for listings a second one (app/src-tauri/src/lib.rs:661-696, 1630-1647,
// 2139-2146, 2718-2769). Every lock-protected region is one step.
module Requests {
  import opened Bytes

  datatype Outcome = Ok(session: string) | Error(message: string)

  // A one-shot channel as its receiver sees it: its sender still waits in a
  // table, has sent, or was dropped.
  datatype Channel<T> = Open | Sent(value: T) | Closed

  // How a call ends.
  datatype Answer =
    | Own(outcome: Outcome)
    | Listing(names: string)
    | NotSent // the outbound queue was full or closed
    | LinkClosed
    | TimedOut
    | NoListing // confirmed, but the listing did not come

  // Where the caller is. `Leaving` still has table entries to remove.
  datatype Stage =
    | AddingDirs
    | Sending
    | AwaitingOutcome
    | AwaitingDirs
    | Leaving(answer: Answer, fromPending: bool, fromDirs: bool)
    | Finished(answer: Answer)

  datatype Call = Call(gen: nat, listing: bool, stage: Stage, outcome: Channel<Outcome>, dirs: Channel<string>)

  // `pending` and `dirs` hold the ids in each generation's tables.
  datatype State = State(calls: map<nat, Call>, pending: set<(nat, nat)>, dirs: set<(nat, nat)>, next: nat)

  datatype Event =
    | Start(gen: nat, listing: bool)
    | AddDirs(id: nat)
    | Enqueue(id: nat, accepted: bool)
    | CommandResult(gen: nat, id: nat, outcome: Outcome) // on generation gen's link
    | WorkspaceDirs(gen: nat, id: nat, names: string)
    | ClearPending(gen: nat) // by disconnect or the ending loop
    | ClearDirs(gen: nat)
    | Wake(id: nat) // the outcome channel is ready
    | Timeout(id: nat)
    | WakeDirs(id: nat)
    | TimeoutDirs(id: nat)
    | RemovePending(id: nat)
    | RemoveDirs(id: nat)

  function Init(): State {
    State(map[], {}, {}, 0)
  }

  function SendDone(call: Call, accepted: bool): Stage {
    if accepted then AwaitingOutcome else Leaving(NotSent, true, call.listing)
  }

  // What the caller does with a settled outcome channel.
  function Woken(call: Call): Stage {
    match call.outcome
    case Open => call.stage
    case Closed => if call.listing then Leaving(LinkClosed, false, true) else Finished(LinkClosed)
    case Sent(outcome) =>
      if !call.listing then Finished(Own(outcome))
      else if outcome.Ok? then AwaitingDirs
      else Leaving(Own(outcome), false, true)
  }

  function WokenDirs(call: Call): Stage {
    match call.dirs
    case Open => call.stage
    case Closed => Leaving(NoListing, false, true)
    case Sent(names) => Finished(Listing(names))
  }

  // A removal is done; the call returns after its last one.
  function AfterRemoval(answer: Answer, fromPending: bool, fromDirs: bool): Stage {
    if fromPending || fromDirs then Leaving(answer, fromPending, fromDirs) else Finished(answer)
  }

  // ---- The tables ----

  function Put(s: State, id: nat, call: Call): State {
    s.(calls := s.calls[id := call])
  }

  // Taking an entry out of a table; its sender goes with it.
  function TakeOutcome(s: State, gen: nat, id: nat, left: Channel<Outcome>): State {
    if (gen, id) in s.pending && id in s.calls
    then Put(s, id, s.calls[id].(outcome := left)).(pending := s.pending - {(gen, id)})
    else s
  }

  function TakeDirs(s: State, gen: nat, id: nat, left: Channel<string>): State {
    if (gen, id) in s.dirs && id in s.calls
    then Put(s, id, s.calls[id].(dirs := left)).(dirs := s.dirs - {(gen, id)})
    else s
  }

  function Cleared(s: State, gen: nat): State {
    s.(calls := map id | id in s.calls ::
         if (gen, id) in s.pending then s.calls[id].(outcome := Closed) else s.calls[id],
       pending := set p | p in s.pending && p.0 != gen)
  }

  function ClearedDirs(s: State, gen: nat): State {
    s.(calls := map id | id in s.calls :: if (gen, id) in s.dirs then s.calls[id].(dirs := Closed) else s.calls[id],
       dirs := set p | p in s.dirs && p.0 != gen)
  }

  // A step of the caller itself.
  function CallerStep(s: State, id: nat, e: Event): State
    requires id in s.calls
  {
    var call := s.calls[id];
    match e
    case AddDirs(_) =>
      if call.stage == AddingDirs
      then Put(s, id, call.(stage := Sending, dirs := Open)).(dirs := s.dirs + {(call.gen, id)}) else s
    case Enqueue(_, accepted) =>
      if call.stage == Sending then Put(s, id, call.(stage := SendDone(call, accepted))) else s
    case Wake(_) => if call.stage == AwaitingOutcome then Put(s, id, call.(stage := Woken(call))) else s
    case Timeout(_) =>
      if call.stage == AwaitingOutcome && call.outcome.Open?
      then Put(s, id, call.(stage := Leaving(TimedOut, true, call.listing)))
      else s
    case WakeDirs(_) => if call.stage == AwaitingDirs then Put(s, id, call.(stage := WokenDirs(call))) else s
    case TimeoutDirs(_) =>
      if call.stage == AwaitingDirs && call.dirs.Open?
      then Put(s, id, call.(stage := Leaving(NoListing, false, true)))
      else s
    case RemovePending(_) =>
      if call.stage.Leaving? && call.stage.fromPending
      then TakeOutcome(Put(s, id, call.(stage := AfterRemoval(call.stage.answer, false, call.stage.fromDirs))),
                       call.gen, id, Closed)
      else s
    case RemoveDirs(_) =>
      if call.stage.Leaving? && !call.stage.fromPending && call.stage.fromDirs
      then TakeDirs(Put(s, id, call.(stage := AfterRemoval(call.stage.answer, false, false))), call.gen, id, Closed)
      else s
    case _ => s
  }

  function Step(s: State, e: Event): State {
    match e
    case Start(gen, listing) =>
      var call := Call(gen, listing, if listing then AddingDirs else Sending, Open, Closed);
      Put(s, s.next, call).(pending := s.pending + {(gen, s.next)}, next := s.next + 1)
    case CommandResult(gen, id, outcome) => TakeOutcome(s, gen, id, Sent(outcome))
    case WorkspaceDirs(gen, id, names) => TakeDirs(s, gen, id, Sent(names))
    case ClearPending(gen) => Cleared(s, gen)
    case ClearDirs(gen) => ClearedDirs(s, gen)
    case _ => if e.id in s.calls then CallerStep(s, e.id, e) else s
  }

  function Run(es: seq<Event>): State {
    if es == [] then Init() else Step(Run(es[..|es| - 1]), es[|es| - 1])
  }

  // ---- One call, seen alone ----

  // Its sender is dropped, if it is still there.
  function Dropped<T>(c: Channel<T>): Channel<T> {
    if c.Open? then Closed else c
  }

  // What an event means for one call, without any table.
  function Affected(id: nat, call: Call, e: Event): Call {
    match e
    case Start(_, _) => call
    case AddDirs(i) => if i == id && call.stage == AddingDirs then call.(stage := Sending, dirs := Open) else call
    case Enqueue(i, accepted) =>
      if i == id && call.stage == Sending then call.(stage := SendDone(call, accepted)) else call
    case CommandResult(gen, i, outcome) =>
      if i == id && gen == call.gen && call.outcome.Open? then call.(outcome := Sent(outcome)) else call
    case WorkspaceDirs(gen, i, names) =>
      if i == id && gen == call.gen && call.dirs.Open? then call.(dirs := Sent(names)) else call
    case ClearPending(gen) => if gen == call.gen then call.(outcome := Dropped(call.outcome)) else call
    case ClearDirs(gen) => if gen == call.gen then call.(dirs := Dropped(call.dirs)) else call
    case Wake(i) => if i == id && call.stage == AwaitingOutcome then call.(stage := Woken(call)) else call
    case Timeout(i) =>
      if i == id && call.stage == AwaitingOutcome && call.outcome.Open?
      then call.(stage := Leaving(TimedOut, true, call.listing))
      else call
    case WakeDirs(i) => if i == id && call.stage == AwaitingDirs then call.(stage := WokenDirs(call)) else call
    case TimeoutDirs(i) =>
      if i == id && call.stage == AwaitingDirs && call.dirs.Open?
      then call.(stage := Leaving(NoListing, false, true))
      else call
    case RemovePending(i) =>
      if i == id && call.stage.Leaving? && call.stage.fromPending
      then call.(stage := AfterRemoval(call.stage.answer, false, call.stage.fromDirs), outcome := Dropped(call.outcome))
      else call
    case RemoveDirs(i) =>
      if i == id && call.stage.Leaving? && !call.stage.fromPending && call.stage.fromDirs
      then call.(stage := AfterRemoval(call.stage.answer, false, false), dirs := Dropped(call.dirs))
      else call
  }

  // A table holds exactly the senders of the open channels of its generation.
  ghost predicate PendingOk(s: State) {
    forall g, id :: (g, id) in s.pending <==> id in s.calls && s.calls[id].gen == g && s.calls[id].outcome.Open?
  }

  ghost predicate DirsOk(s: State) {
    forall g, id :: (g, id) in s.dirs <==> id in s.calls && s.calls[id].gen == g && s.calls[id].dirs.Open?
  }

  ghost predicate IdsOk(s: State) {
    forall id :: id in s.calls ==> id < s.next
  }

  // What is true of every call at every moment.
  ghost predicate CallOk(call: Call) {
    && (!call.listing ==> call.dirs == Closed && call.stage != AddingDirs && call.stage != AwaitingDirs)
    && match call.stage
      case AddingDirs => call.dirs == Closed
      case AwaitingDirs => call.outcome.Sent? && call.outcome.value.Ok?
      case Leaving(answer, p, d) =>
        && (p || d) && (d ==> call.listing) && (!p ==> !call.outcome.Open?) && (!d ==> !call.dirs.Open?)
        && Explained(call, answer)
      case Finished(answer) => !call.outcome.Open? && !call.dirs.Open? && Explained(call, answer)
      case _ => true
  }

  // An answer says what the channels said.
  ghost predicate Explained(call: Call, answer: Answer) {
    match answer
    case Own(outcome) => call.outcome == Sent(outcome) && (call.listing ==> outcome.Error?)
    case Listing(names) => call.listing && call.outcome.Sent? && call.outcome.value.Ok? && call.dirs == Sent(names)
    case LinkClosed => call.outcome == Closed
    case NoListing => call.listing && call.outcome.Sent? && call.outcome.value.Ok?
    case _ => true
  }

  lemma AffectedIsOk(id: nat, call: Call, e: Event)
    requires CallOk(call)
    ensures CallOk(Affected(id, call, e))
  {
  }

  // No event opens an outcome again or makes a call hold the slot's lock.
  lemma AffectedOpens(id: nat, call: Call, e: Event)
    ensures
      var after := Affected(id, call, e);
      && after.gen == call.gen && after.listing == call.listing
      && (after.outcome.Open? ==> call.outcome.Open? && e != ClearPending(call.gen))
      && (after.stage == AddingDirs ==> call.stage == AddingDirs && e != AddDirs(id))
  {
  }

  // The tables do to each call exactly what the event means for it.
  lemma StepIsAffected(s: State, e: Event, id: nat)
    requires PendingOk(s) && DirsOk(s) && IdsOk(s) && id in s.calls && CallOk(s.calls[id])
    ensures id in Step(s, e).calls && Step(s, e).calls[id] == Affected(id, s.calls[id], e)
  {
    var g := s.calls[id].gen;
    assert (g, id) in s.pending <==> s.calls[id].outcome.Open?;
    assert (g, id) in s.dirs <==> s.calls[id].dirs.Open?;
  }

  ghost predicate CallsOk(s: State) {
    forall id :: id in s.calls ==> CallOk(s.calls[id])
  }

  ghost predicate Inv(s: State) {
    PendingOk(s) && DirsOk(s) && IdsOk(s) && CallsOk(s)
  }

  lemma StepAddsNoCall(s: State, e: Event)
    requires !e.Start?
    ensures Step(s, e).calls.Keys == s.calls.Keys
  {
  }

  lemma StepKeepsPending(s: State, e: Event)
    requires Inv(s)
    ensures PendingOk(Step(s, e)) && IdsOk(Step(s, e))
  {
  }

  lemma StepKeepsDirs(s: State, e: Event)
    requires Inv(s)
    ensures DirsOk(Step(s, e))
  {
  }

  lemma StepKeepsCalls(s: State, e: Event)
    requires Inv(s)
    ensures CallsOk(Step(s, e))
  {
    forall id | id in Step(s, e).calls ensures CallOk(Step(s, e).calls[id]) {
      if id in s.calls {
        StepIsAffected(s, e, id);
        AffectedIsOk(id, s.calls[id], e);
      }
    }
  }

  lemma StepKeepsAll(s: State, e: Event)
    requires Inv(s)
    ensures Inv(Step(s, e))
  {
    StepKeepsPending(s, e);
    StepKeepsDirs(s, e);
    StepKeepsCalls(s, e);
  }

  lemma {:induction false} RunIsOk(es: seq<Event>)
    ensures Inv(Run(es))
  {
    if es != [] {
      var s, e := Run(es[..|es| - 1]), es[|es| - 1];
      RunIsOk(es[..|es| - 1]);
      StepKeepsAll(s, e);
    }
  }

  // When a call has returned, by whatever path, its id is in no table.
  lemma FinishedLeavesNothing(es: seq<Event>, id: nat, gen: nat)
    requires id in Run(es).calls && Run(es).calls[id].stage.Finished?
    ensures (gen, id) !in Run(es).pending && (gen, id) !in Run(es).dirs
  {
    RunIsOk(es);
  }

  // ---- Each call ends once, with its own outcome ----

  function AnswerOf(call: Call): Option<Answer> {
    match call.stage
    case Leaving(answer, _, _) => Some(answer)
    case Finished(answer) => Some(answer)
    case _ => None
  }

  lemma RunMore(es: seq<Event>, e: Event)
    ensures Run(es + [e]) == Step(Run(es), e)
  {
    assert (es + [e])[..|es|] == es;
  }

  lemma AffectedKeepsAnswer(id: nat, call: Call, e: Event)
    requires AnswerOf(call).Some?
    ensures AnswerOf(Affected(id, call, e)) == AnswerOf(call)
    ensures call.stage.Finished? ==> Affected(id, call, e).stage == call.stage
  {
  }

  // The call after one more event.
  lemma CallAfter(es: seq<Event>, e: Event, id: nat)
    requires id in Run(es).calls
    ensures CallOk(Run(es).calls[id])
    ensures id in Run(es + [e]).calls && Run(es + [e]).calls[id] == Affected(id, Run(es).calls[id], e)
  {
    RunMore(es, e);
    RunIsOk(es);
    StepIsAffected(Run(es), e, id);
  }

  lemma {:induction false} AnswerIsFinal(es: seq<Event>, more: seq<Event>, id: nat)
    requires id in Run(es).calls && AnswerOf(Run(es).calls[id]).Some?
    ensures id in Run(es + more).calls && AnswerOf(Run(es + more).calls[id]) == AnswerOf(Run(es).calls[id])
    ensures Run(es).calls[id].stage.Finished? ==> Run(es + more).calls[id].stage == Run(es).calls[id].stage
    decreases |more|
  {
    if more == [] {
      assert es + more == es;
    } else {
      var front, e := more[..|more| - 1], more[|more| - 1];
      AnswerIsFinal(es, front, id);
      assert es + more == (es + front) + [e];
      CallAfter(es + front, e, id);
      AffectedKeepsAnswer(id, Run(es + front).calls[id], e);
    }
  }

  // A frame or a clear on one generation does nothing to another one's calls.
  lemma OtherGenerationsAreUntouched(s: State, e: Event, id: nat)
    requires Inv(s) && id in s.calls
    requires e.CommandResult? || e.WorkspaceDirs? || e.ClearPending? || e.ClearDirs?
    requires e.gen != s.calls[id].gen
    ensures id in Step(s, e).calls && Step(s, e).calls[id] == s.calls[id]
  {
    StepIsAffected(s, e, id);
  }

  // The event happened after the call had started.
  ghost predicate Since(es: seq<Event>, from: nat, e: Event) {
    exists k :: from < k < |es| && es[k] == e
  }

  lemma SinceGrows(es: seq<Event>, from: nat, e: Event, more: Event)
    requires from < |es|
    ensures Since(es, from, e) ==> Since(es + [more], from, e)
    ensures Since(es + [more], from, more)
  {
    if Since(es, from, e) {
      var k :| from < k < |es| && es[k] == e;
      assert (es + [more])[k] == e;
    }
    assert (es + [more])[|es|] == more;
  }

  // What the channels hold came in after the call's own start, on its own
  // generation and for its own id.
  ghost predicate ChannelsGrounded(es: seq<Event>, from: nat, id: nat, call: Call) {
    && (call.outcome.Sent? ==> Since(es, from, CommandResult(call.gen, id, call.outcome.value)))
    && (call.dirs.Sent? ==> Since(es, from, WorkspaceDirs(call.gen, id, call.dirs.value)))
    && (AnswerOf(call).None? && call.outcome == Closed ==> Since(es, from, ClearPending(call.gen)))
    && (AnswerOf(call).None? && call.listing && call.stage != AddingDirs && call.dirs == Closed ==>
          Since(es, from, ClearDirs(call.gen)))
  }

  // An answer has its cause.
  ghost predicate AnswerGrounded(es: seq<Event>, from: nat, id: nat, gen: nat, answer: Answer) {
    match answer
    case Own(outcome) => Since(es, from, CommandResult(gen, id, outcome))
    case Listing(names) =>
      Since(es, from, WorkspaceDirs(gen, id, names))
      && exists v :: Since(es, from, CommandResult(gen, id, Ok(v)))
    case NotSent => Since(es, from, Enqueue(id, false))
    case LinkClosed => Since(es, from, ClearPending(gen))
    case TimedOut => Since(es, from, Timeout(id))
    case NoListing =>
      && (Since(es, from, TimeoutDirs(id)) || Since(es, from, ClearDirs(gen)))
      && exists v :: Since(es, from, CommandResult(gen, id, Ok(v)))
  }

  ghost predicate Grounded(es: seq<Event>, from: nat, id: nat, call: Call) {
    && ChannelsGrounded(es, from, id, call)
    && (AnswerOf(call).Some? ==> AnswerGrounded(es, from, id, call.gen, AnswerOf(call).value))
  }

  lemma ChannelsStayGrounded(es: seq<Event>, from: nat, id: nat, call: Call, e: Event)
    requires ChannelsGrounded(es, from, id, call) && CallOk(call) && from < |es|
    ensures ChannelsGrounded(es + [e], from, id, Affected(id, call, e))
  {
    var now := Affected(id, call, e);
    SinceGrows(es, from, ClearPending(call.gen), e);
    SinceGrows(es, from, ClearDirs(call.gen), e);
    if call.outcome.Sent? {
      SinceGrows(es, from, CommandResult(call.gen, id, call.outcome.value), e);
    }
    if call.dirs.Sent? {
      SinceGrows(es, from, WorkspaceDirs(call.gen, id, call.dirs.value), e);
    }
  }

  lemma AnswerStaysGrounded(es: seq<Event>, from: nat, id: nat, gen: nat, answer: Answer, e: Event)
    requires AnswerGrounded(es, from, id, gen, answer) && from < |es|
    ensures AnswerGrounded(es + [e], from, id, gen, answer)
  {
    forall x | Since(es, from, x) ensures Since(es + [e], from, x) {
      SinceGrows(es, from, x, e);
    }
  }

  // The step that gives a call its answer.
  lemma NewAnswerIsGrounded(es: seq<Event>, from: nat, id: nat, call: Call, e: Event)
    requires ChannelsGrounded(es, from, id, call) && CallOk(call) && from < |es|
    requires AnswerOf(call).None? && AnswerOf(Affected(id, call, e)).Some?
    ensures AnswerGrounded(es + [e], from, id, call.gen, AnswerOf(Affected(id, call, e)).value)
  {
    forall x | Since(es, from, x) ensures Since(es + [e], from, x) {
      SinceGrows(es, from, x, e);
    }
    SinceGrows(es, from, e, e);
    if call.outcome.Sent? && call.outcome.value.Ok? {
      assert call.outcome.value == Ok(call.outcome.value.session);
    }
  }

  lemma StaysGrounded(es: seq<Event>, from: nat, id: nat, call: Call, e: Event)
    requires Grounded(es, from, id, call) && CallOk(call) && from < |es|
    ensures Grounded(es + [e], from, id, Affected(id, call, e))
  {
    ChannelsStayGrounded(es, from, id, call, e);
    AffectedOpens(id, call, e);
    if AnswerOf(call).Some? {
      AffectedKeepsAnswer(id, call, e);
      AnswerStaysGrounded(es, from, id, call.gen, AnswerOf(call).value, e);
    } else if AnswerOf(Affected(id, call, e)).Some? {
      NewAnswerIsGrounded(es, from, id, call, e);
    }
  }

  // Where the call started.
  ghost predicate StartedAt(es: seq<Event>, from: nat, id: nat, call: Call) {
    from < |es| && es[from] == Start(call.gen, call.listing) && Run(es[..from]).next == id
  }

  lemma {:induction false} RunIsGrounded(es: seq<Event>, id: nat) returns (from: nat)
    requires id in Run(es).calls
    ensures StartedAt(es, from, id, Run(es).calls[id]) && Grounded(es, from, id, Run(es).calls[id])
  {
    var front, e := es[..|es| - 1], es[|es| - 1];
    assert es == front + [e];
    RunIsOk(front);
    if id in Run(front).calls {
      from := RunIsGrounded(front, id);
      assert es[..from] == front[..from] && es[from] == front[from];
      CallAfter(front, e, id);
      AffectedOpens(id, Run(front).calls[id], e);
      StaysGrounded(front, from, id, Run(front).calls[id], e);
    } else {
      from := |front|;
      NewCallIsNew(Run(front), e, id);
    }
  }

  lemma NewCallIsNew(s: State, e: Event, id: nat)
    requires Inv(s) && id !in s.calls && id in Step(s, e).calls
    ensures e.Start? && id == s.next
    ensures Step(s, e).calls[id] == Call(e.gen, e.listing, if e.listing then AddingDirs else Sending, Open, Closed)
  {
    if !e.Start? {
      StepAddsNoCall(s, e);
    }
  }

  // A call that returned has its cause after its own start: the result sent for
  // its own id on its own link, a clear of that link's table, its own timer, or
  // the refusal of its own frame.
  lemma EveryAnswerIsOwn(es: seq<Event>, id: nat) returns (from: nat)
    requires id in Run(es).calls && Run(es).calls[id].stage.Finished?
    ensures StartedAt(es, from, id, Run(es).calls[id])
    ensures AnswerGrounded(es, from, id, Run(es).calls[id].gen, Run(es).calls[id].stage.answer)
  {
    from := RunIsGrounded(es, id);
  }

  // ---- No call waits for ever ----

  // The steps a call still has to make, at most.
  function Rank(call: Call): nat {
    match call.stage
    case AddingDirs => 6
    case Sending => 5
    case AwaitingOutcome => 4
    case AwaitingDirs => 3
    case Leaving(_, p, d) => (if p then 1 else 0) + (if d then 1 else 0)
    case Finished(_) => 0
  }

  // The caller's next step: what it waits for is ready, or its timer runs out.
  function NextStep(id: nat, call: Call): Event {
    match call.stage
    case AddingDirs => AddDirs(id)
    case Sending => Enqueue(id, true)
    case AwaitingOutcome => if call.outcome.Open? then Timeout(id) else Wake(id)
    case AwaitingDirs => if call.dirs.Open? then TimeoutDirs(id) else WakeDirs(id)
    case Leaving(_, p, _) => if p then RemovePending(id) else RemoveDirs(id)
    case Finished(_) => Wake(id)
  }

  // An unfinished call can always go on by itself, and no event of anyone else
  // puts it further from its end.
  lemma EveryCallGoesOn(s: State, e: Event, id: nat)
    requires Inv(s) && id in s.calls
    ensures id in Step(s, e).calls && Rank(Step(s, e).calls[id]) <= Rank(s.calls[id])
    ensures Step(s, e).calls[id].stage != s.calls[id].stage ==> Rank(Step(s, e).calls[id]) < Rank(s.calls[id])
    ensures !s.calls[id].stage.Finished? && e == NextStep(id, s.calls[id]) ==>
      Rank(Step(s, e).calls[id]) < Rank(s.calls[id])
    ensures Rank(s.calls[id]) == 0 <==> s.calls[id].stage.Finished?
  {
    StepIsAffected(s, e, id);
  }

  // ---- What a call gets ----

  // Each cause gives its own answer; a confirmed listing goes on to its names.
  lemma CauseGivesAnswer(s: State, e: Event, id: nat)
    requires Inv(s) && id in s.calls
    ensures
      var was := s.calls[id];
      && id in Step(s, e).calls
      && var now := Step(s, e).calls[id];
        && (was.stage == Sending && e == Enqueue(id, false) ==> AnswerOf(now) == Some(NotSent))
        && (was.stage == Sending && e == Enqueue(id, true) ==> now.stage == AwaitingOutcome)
        && (was.stage == AwaitingOutcome && was.outcome.Open? && e == Timeout(id) ==> AnswerOf(now) == Some(TimedOut))
        && (was.stage == AwaitingOutcome && was.outcome == Closed && e == Wake(id) ==>
              AnswerOf(now) == Some(LinkClosed))
        && (was.stage == AwaitingOutcome && was.outcome.Sent? && e == Wake(id) ==>
              if was.listing && was.outcome.value.Ok? then now.stage == AwaitingDirs
              else AnswerOf(now) == Some(Own(was.outcome.value)))
        && (was.stage == AwaitingDirs && was.dirs.Open? && e == TimeoutDirs(id) ==> AnswerOf(now) == Some(NoListing))
        && (was.stage == AwaitingDirs && was.dirs == Closed && e == WakeDirs(id) ==> AnswerOf(now) == Some(NoListing))
        && (was.stage == AwaitingDirs && was.dirs.Sent? && e == WakeDirs(id) ==>
              AnswerOf(now) == Some(Listing(was.dirs.value)))
        && (was.outcome.Open? && e.CommandResult? && e.gen == was.gen && e.id == id ==> now.outcome == Sent(e.outcome))
        && (was.dirs.Open? && e.WorkspaceDirs? && e.gen == was.gen && e.id == id ==> now.dirs == Sent(e.names))
  {
    StepIsAffected(s, e, id);
  }

  // After any run: a command whose frame is taken and whose result comes gets it.
  lemma CommandIsAnswered(es: seq<Event>, gen: nat, outcome: Outcome)
    ensures
      var id := Run(es).next;
      var s := Run(es + [Start(gen, false)] + [Enqueue(id, true)] + [CommandResult(gen, id, outcome)] + [Wake(id)]);
      id in s.calls && s.calls[id].stage == Finished(Own(outcome))
  {
    var id := Run(es).next;
    RunIsOk(es);
    RunMore(es, Start(gen, false));
    RunMore(es + [Start(gen, false)], Enqueue(id, true));
    CommandArrives(es + [Start(gen, false)] + [Enqueue(id, true)], gen, id, outcome);
  }

  lemma CommandArrives(asked: seq<Event>, gen: nat, id: nat, outcome: Outcome)
    requires
      var s := Run(asked);
      id in s.calls && (gen, id) in s.pending && s.calls[id].stage == AwaitingOutcome && !s.calls[id].listing
    ensures
      var s := Run(asked + [CommandResult(gen, id, outcome)] + [Wake(id)]);
      id in s.calls && s.calls[id].stage == Finished(Own(outcome))
  {
    RunMore(asked, CommandResult(gen, id, outcome));
    RunMore(asked + [CommandResult(gen, id, outcome)], Wake(id));
  }

  // A listing that is confirmed and whose names come gets them.
  lemma ListingIsAnswered(es: seq<Event>, gen: nat, session: string, names: string)
    ensures
      var id := Run(es).next;
      var asked := es + [Start(gen, true)] + [AddDirs(id)] + [Enqueue(id, true)];
      var s := Run(asked + [WorkspaceDirs(gen, id, names)] + [CommandResult(gen, id, Ok(session))]
                   + [Wake(id)] + [WakeDirs(id)]);
      id in s.calls && s.calls[id].stage == Finished(Listing(names))
  {
    var id := Run(es).next;
    var asked := es + [Start(gen, true)] + [AddDirs(id)] + [Enqueue(id, true)];
    RunIsOk(es);
    RunMore(es, Start(gen, true));
    RunMore(es + [Start(gen, true)], AddDirs(id));
    RunMore(es + [Start(gen, true)] + [AddDirs(id)], Enqueue(id, true));
    ListingArrives(asked, gen, id, session, names);
  }

  lemma ListingArrives(asked: seq<Event>, gen: nat, id: nat, session: string, names: string)
    requires
      var s := Run(asked);
      && id in s.calls && (gen, id) in s.pending && (gen, id) in s.dirs
      && s.calls[id].stage == AwaitingOutcome && s.calls[id].listing
    ensures
      var s := Run(asked + [WorkspaceDirs(gen, id, names)] + [CommandResult(gen, id, Ok(session))]
                   + [Wake(id)] + [WakeDirs(id)]);
      id in s.calls && s.calls[id].stage == Finished(Listing(names))
  {
    var a, b, c := WorkspaceDirs(gen, id, names), CommandResult(gen, id, Ok(session)), Wake(id);
    RunMore(asked, a);
    RunMore(asked + [a], b);
    RunMore(asked + [a] + [b], c);
    RunMore(asked + [a] + [b] + [c], WakeDirs(id));
  }

  // ---- Calls that nobody settles ----

  // Still open, or given up by the caller itself.
  ghost predicate Unsettled(call: Call) {
    if AnswerOf(call).None? then call.outcome.Open? else AnswerOf(call).value in {NotSent, TimedOut}
  }

  lemma AffectedStaysUnsettled(id: nat, call: Call, e: Event)
    requires CallOk(call) && Unsettled(call)
    requires e != ClearPending(call.gen) && !(e.CommandResult? && e.gen == call.gen && e.id == id)
    ensures Unsettled(Affected(id, call, e)) && Affected(id, call, e).gen == call.gen
  {
  }

  // ---- The tables as the link's tasks change them ----

  class RequestTables {
    var calls: map<nat, Call>
    var pending: set<(nat, nat)>
    var dirs: set<(nat, nat)>
    var next: nat

    ghost function Value(): State
      reads this
    {
      State(calls, pending, dirs, next)
    }

    ghost predicate Valid()
      reads this
    {
      Inv(Value())
    }

    constructor ()
      ensures Value() == Init() && Valid()
    {
      calls, pending, dirs, next := map[], {}, {}, 0;
    }

    // Register a call with the generation found in the slot, whose lock is held;
    // without one the call fails at once and leaves no trace.
    method Register(slot: Option<nat>, listing: bool) returns (registered: Option<nat>)
      requires Valid()
      modifies this
      ensures Valid() && (registered.Some? <==> slot.Some?)
      ensures slot.None? ==> Value() == old(Value())
      ensures slot.Some? ==>
        && Value() == Step(old(Value()), Start(slot.value, listing))
        && var id := registered.value;
          && id !in old(calls) && pending == old(pending) + {(slot.value, id)} && dirs == old(dirs)
          && calls == old(calls)[id := Call(slot.value, listing, if listing then AddingDirs else Sending, Open, Closed)]
    {
      if slot.None? {
        return None;
      }
      var gen, id := slot.value, next;
      next := next + 1;
      calls := calls[id := Call(gen, listing, if listing then AddingDirs else Sending, Open, Closed)];
      pending := pending + {(gen, id)};
      StepKeepsAll(old(Value()), Start(gen, listing));
      return Some(id);
    }

    // The CommandResult arm of a generation's loop.
    method OnCommandResult(gen: nat, id: nat, outcome: Outcome)
      requires Valid()
      modifies this
      ensures Valid() && Value() == Step(old(Value()), CommandResult(gen, id, outcome))
      ensures (gen, id) !in pending && next == old(next)
      ensures (gen, id) in old(pending) ==>
        id in old(calls) && calls == old(calls)[id := old(calls)[id].(outcome := Sent(outcome))]
      ensures (gen, id) !in old(pending) ==> Value() == old(Value())
    {
      StepKeepsAll(Value(), CommandResult(gen, id, outcome));
      if (gen, id) in pending {
        pending := pending - {(gen, id)};
        calls := calls[id := calls[id].(outcome := Sent(outcome))];
      }
    }

    method OnWorkspaceDirs(gen: nat, id: nat, names: string)
      requires Valid()
      modifies this
      ensures Valid() && Value() == Step(old(Value()), WorkspaceDirs(gen, id, names))
      ensures (gen, id) !in dirs && next == old(next)
      ensures (gen, id) in old(dirs) ==>
        id in old(calls) && calls == old(calls)[id := old(calls)[id].(dirs := Sent(names))]
      ensures (gen, id) !in old(dirs) ==> Value() == old(Value())
    {
      StepKeepsAll(Value(), WorkspaceDirs(gen, id, names));
      if (gen, id) in dirs {
        dirs := dirs - {(gen, id)};
        calls := calls[id := calls[id].(dirs := Sent(names))];
      }
    }

    // The cleanup of an ending loop: every call of the generation wakes.
    method ClearTables(gen: nat)
      requires Valid()
      modifies this
      ensures Valid() && Value() == Step(Step(old(Value()), ClearPending(gen)), ClearDirs(gen))
      ensures forall id :: (gen, id) !in pending && (gen, id) !in dirs
      ensures calls.Keys == old(calls).Keys
      ensures forall id :: id in calls ==>
        && calls[id].outcome == (if (gen, id) in old(pending) then Closed else old(calls)[id].outcome)
        && calls[id].dirs == (if (gen, id) in old(dirs) then Closed else old(calls)[id].dirs)
        && calls[id].stage == old(calls)[id].stage
    {
      ClearOutcomes(gen);
      ClearListings(gen);
    }

    method ClearOutcomes(gen: nat)
      requires Valid()
      modifies this`calls, this`pending
      ensures Valid() && Value() == Step(old(Value()), ClearPending(gen))
      ensures pending == (set p | p in old(pending) && p.0 != gen) && calls.Keys == old(calls).Keys
      ensures forall id :: id in calls ==>
        calls[id] == if (gen, id) in old(pending) then old(calls)[id].(outcome := Closed) else old(calls)[id]
    {
      StepKeepsAll(Value(), ClearPending(gen));
      calls := map id | id in calls :: if (gen, id) in pending then calls[id].(outcome := Closed) else calls[id];
      pending := set p | p in pending && p.0 != gen;
    }

    method ClearListings(gen: nat)
      requires Valid()
      modifies this`calls, this`dirs
      ensures Valid() && Value() == Step(old(Value()), ClearDirs(gen))
      ensures dirs == (set p | p in old(dirs) && p.0 != gen) && calls.Keys == old(calls).Keys
      ensures forall id :: id in calls ==>
        calls[id] == if (gen, id) in old(dirs) then old(calls)[id].(dirs := Closed) else old(calls)[id]
    {
      StepKeepsAll(Value(), ClearDirs(gen));
      calls := map id | id in calls :: if (gen, id) in dirs then calls[id].(dirs := Closed) else calls[id];
      dirs := set p | p in dirs && p.0 != gen;
    }
  }
}
