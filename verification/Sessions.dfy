// Links and requests together: a request is registered in the table of the
// generation in the slot, under the slot's lock; results come in through that
// generation's loop; its ending loop clears the tables before it gives up the
// slot, and so does whoever takes the link out of it
// (app/src-tauri/src/lib.rs:663-696, 961-963, 2139-2161, 2718-2769, 3485-3499).
module Sessions {
  import opened Bytes
  import L = Links
  import R = Requests

  datatype Frame = Result(id: nat, outcome: R.Outcome) | Dirs(id: nat, names: string) | Other

  datatype State = State(
    links: L.State,
    reqs: R.State,
    held: map<nat, Frame>,    // the frame each loop is dispatching
    loopCleared: set<nat>,    // generations whose loop has cleared its pending table
    dirsCleared: set<nat>,    // ... and its listing table
    takerCleared: set<nat>,   // generations whose taker has cleared the pending table
    late: set<nat>)           // calls registered after their loop's clear

  datatype Event =
    | Publish(peer: nat)
    | Take(why: L.Reason)
    | TakeFor(peer: nat)
    | TakerClears(gen: nat)
    | Drop(gen: nat)
    | StartLoop(gen: nat)
    | Inbound(gen: nat, frame: Frame)
    | Handle(gen: nat)
    | FrameDone(gen: nat)
    | LinkEnds(gen: nat)
    | SeeShutdown(gen: nat)
    | LoopClears(gen: nat)
    | LoopClearsDirs(gen: nat)
    | Leave(gen: nat)
    | Request(listing: bool)
    | Caller(own: R.Event)

  const INIT: State := State(L.Init(), R.Init(), map[], {}, {}, {}, {})

  // A listing call holds the slot's lock until it is in both tables.
  predicate Adds(s: State, id: nat) {
    id in s.reqs.calls && s.reqs.calls[id].stage == R.AddingDirs
  }

  ghost predicate Locked(s: State) {
    exists id :: Adds(s, id)
  }

  predicate AtPhase(s: State, gen: nat, phase: L.Phase) {
    gen in s.links.links && s.links.links[gen].phase == phase
  }

  predicate InHand(s: State, gen: nat) {
    gen in s.links.links && s.links.links[gen].place.InHand?
  }

  // The events a caller makes by itself. The outbound queue is gone once the
  // loop has ended.
  predicate IsCallers(s: State, e: R.Event) {
    match e
    case AddDirs(_) => true
    case Enqueue(id, accepted) => accepted && id in s.reqs.calls ==> !AtPhase(s, s.reqs.calls[id].gen, L.Ended)
    case Wake(_) => true
    case Timeout(_) => true
    case WakeDirs(_) => true
    case TimeoutDirs(_) => true
    case RemovePending(_) => true
    case RemoveDirs(_) => true
    case _ => false
  }

  // What lets an event happen: the slot's lock, the order in which a taker and an
  // ending loop clear up, and the frame a loop is busy with.
  ghost predicate Enabled(s: State, e: Event) {
    match e
    case Publish(_) => !Locked(s)
    case Take(_) => !Locked(s)
    case TakeFor(_) => !Locked(s)
    case TakerClears(gen) => InHand(s, gen)
    case Drop(gen) => gen in s.takerCleared
    case Inbound(gen, _) => L.Says(s.links, L.Inbound(gen)).Some?
    case Handle(gen) => gen in s.held && AtPhase(s, gen, L.Dispatching)
    case FrameDone(gen) => gen !in s.held
    case LoopClears(gen) => AtPhase(s, gen, L.Draining) && gen !in s.loopCleared
    case LoopClearsDirs(gen) => AtPhase(s, gen, L.Draining) && gen in s.loopCleared && gen !in s.dirsCleared
    case Leave(gen) => gen in s.dirsCleared && !Locked(s)
    case Request(_) => !Locked(s) && s.links.slot.Some?
    case Caller(own) => IsCallers(s, own)
    case _ => true
  }

  // Its part in the links, if any.
  function LinkPart(e: Event): Option<L.Event> {
    match e
    case Publish(peer) => Some(L.Publish(peer))
    case Take(why) => Some(L.Take(why))
    case TakeFor(peer) => Some(L.TakeFor(peer))
    case Drop(gen) => Some(L.Drop(gen))
    case StartLoop(gen) => Some(L.StartLoop(gen))
    case Inbound(gen, _) => Some(L.Inbound(gen))
    case FrameDone(gen) => Some(L.FrameDone(gen))
    case LinkEnds(gen) => Some(L.LinkEnds(gen))
    case SeeShutdown(gen) => Some(L.SeeShutdown(gen))
    case Leave(gen) => Some(L.Leave(gen))
    case _ => None
  }

  // Its part in the tables, if any: a request goes to the generation in the slot.
  function CallPart(s: State, e: Event): Option<R.Event> {
    match e
    case TakerClears(gen) => Some(R.ClearPending(gen))
    case LoopClears(gen) => Some(R.ClearPending(gen))
    case LoopClearsDirs(gen) => Some(R.ClearDirs(gen))
    case Request(listing) => if s.links.slot.Some? then Some(R.Start(s.links.slot.value, listing)) else None
    case Caller(own) => Some(own)
    case Handle(gen) =>
      if gen !in s.held then None
      else (
        match s.held[gen]
        case Result(id, outcome) => Some(R.CommandResult(gen, id, outcome))
        case Dirs(id, names) => Some(R.WorkspaceDirs(gen, id, names))
        case Other => None)
    case _ => None
  }

  function LinksAfter(s: State, e: Event): L.State {
    if LinkPart(e).Some? then L.Step(s.links, LinkPart(e).value) else s.links
  }

  function CallsAfter(s: State, e: Event): R.State {
    if CallPart(s, e).Some? then R.Step(s.reqs, CallPart(s, e).value) else s.reqs
  }

  ghost function Step(s: State, e: Event): State {
    if !Enabled(s, e) then s
    else
      State(
        LinksAfter(s, e), CallsAfter(s, e),
        if e.Inbound? then s.held[e.gen := e.frame] else if e.Handle? || e.LinkEnds? then s.held - {e.gen} else s.held,
        if e.LoopClears? then s.loopCleared + {e.gen} else s.loopCleared,
        if e.LoopClearsDirs? then s.dirsCleared + {e.gen} else s.dirsCleared,
        if e.TakerClears? then s.takerCleared + {e.gen} else s.takerCleared,
        if e.Request? && s.links.slot.Some? && s.links.slot.value in s.loopCleared
        then s.late + {s.reqs.next}
        else s.late)
  }

  ghost function Run(s: State, es: seq<Event>): State {
    if es == [] then s else Step(Run(s, es[..|es| - 1]), es[|es| - 1])
  }

  // ---- What every run keeps ----

  // Cleared tables belong to loops past their select; an ended loop cleared both.
  ghost predicate LoopsOk(s: State) {
    && (forall g :: g in s.loopCleared ==> AtPhase(s, g, L.Draining) || AtPhase(s, g, L.Ended))
    && (forall g :: g in s.dirsCleared ==> g in s.loopCleared)
    && (forall g :: g in s.links.links && s.links.links[g].phase == L.Ended ==> g in s.loopCleared)
    && (forall g :: g in s.takerCleared ==> g in s.links.links && s.links.links[g].place != L.Installed)
  }

  // Every call was registered with a generation that exists. One whose outcome is
  // still open has not been passed by a taker's clear, and by its loop's clear
  // only if it came later.
  ghost predicate CallOpenOk(s: State, id: nat)
    requires id in s.reqs.calls
  {
    var call := s.reqs.calls[id];
    && call.gen in s.links.links
    && (call.outcome.Open? ==> call.gen !in s.takerCleared && (call.gen in s.loopCleared ==> id in s.late))
  }

  ghost predicate OpenOk(s: State) {
    forall id :: id in s.reqs.calls ==> CallOpenOk(s, id)
  }

  ghost predicate OneAdds(s: State) {
    forall x, y :: Adds(s, x) && Adds(s, y) ==> x == y
  }

  ghost predicate Inv(s: State) {
    L.SlotOk(s.links) && R.Inv(s.reqs) && LoopsOk(s) && OpenOk(s) && OneAdds(s)
  }

  lemma StepKeepsParts(s: State, e: Event)
    requires Inv(s)
    ensures L.SlotOk(Step(s, e).links) && R.Inv(Step(s, e).reqs)
  {
    if LinkPart(e).Some? {
      L.StepKeepsSlot(s.links, LinkPart(e).value);
    }
    if CallPart(s, e).Some? {
      R.StepKeepsAll(s.reqs, CallPart(s, e).value);
    }
  }

  // What a step can do to one generation: it goes on, and only its own `Leave`
  // ends it.
  lemma LinkGoesOn(s: State, e: Event, g: nat)
    requires L.SlotOk(s.links) && g in s.links.links
    ensures L.Retires(s.links, LinksAfter(s, e), g)
    ensures
      var was, now := s.links.links[g].phase, LinksAfter(s, e).links[g].phase;
      (was == L.Draining || was == L.Ended ==> now == L.Draining || now == L.Ended)
      && (now == L.Ended ==> was == L.Ended || e == Leave(g))
  {
    if LinkPart(e).Some? {
      L.StepRetires(s.links, LinkPart(e).value, g);
      if s.links.links[g].phase == L.Draining || s.links.links[g].phase == L.Ended {
        L.QuietPhase(s.links, LinkPart(e).value, g);
      }
      L.EndsByLeaving(s.links, LinkPart(e).value, g);
    }
  }

  lemma NewLinksAreNew(s: State, e: Event, g: nat)
    requires L.SlotOk(s.links) && g in LinksAfter(s, e).links && g !in s.links.links
    ensures LinksAfter(s, e).links[g].phase == L.Unstarted
  {
  }

  lemma StepKeepsLoops(s: State, e: Event)
    requires Inv(s)
    ensures LoopsOk(Step(s, e))
  {
    forall g | g in s.links.links ensures L.Retires(s.links, LinksAfter(s, e), g) {
      LinkGoesOn(s, e, g);
    }
    var t := Step(s, e);
    forall g | g in t.loopCleared ensures AtPhase(t, g, L.Draining) || AtPhase(t, g, L.Ended) {
      LinkGoesOn(s, e, g);
    }
    forall g | g in t.links.links && t.links.links[g].phase == L.Ended ensures g in t.loopCleared {
      if g in s.links.links {
        LinkGoesOn(s, e, g);
      } else {
        NewLinksAreNew(s, e, g);
      }
    }
  }

  // What a step makes of a call that was there, and where a new one comes from.
  lemma CallGoesOn(s: State, e: Event, id: nat)
    requires R.Inv(s.reqs) && id in CallsAfter(s, e).calls
    ensures id in s.reqs.calls ==>
      var was, now := s.reqs.calls[id], CallsAfter(s, e).calls[id];
      && now.gen == was.gen
      && (now.outcome.Open? ==> was.outcome.Open? && CallPart(s, e) != Some(R.ClearPending(was.gen)))
      && (now.stage == R.AddingDirs ==> was.stage == R.AddingDirs && e != Caller(R.AddDirs(id)))
    ensures id !in s.reqs.calls ==> CallPart(s, e).Some? && CallPart(s, e).value.Start? && id == s.reqs.next
  {
    if CallPart(s, e).Some? {
      if id in s.reqs.calls {
        R.StepIsAffected(s.reqs, CallPart(s, e).value, id);
        R.AffectedOpens(id, s.reqs.calls[id], CallPart(s, e).value);
      } else if !CallPart(s, e).value.Start? {
        R.StepAddsNoCall(s.reqs, CallPart(s, e).value);
      }
    }
  }

  lemma OpenStep(s: State, e: Event, id: nat)
    requires Inv(s) && Enabled(s, e) && id in Step(s, e).reqs.calls
    ensures CallOpenOk(Step(s, e), id)
  {
    CallGoesOn(s, e, id);
    if id in s.reqs.calls {
      OldCallStep(s, e, id);
    } else {
      LinkGoesOn(s, e, s.links.slot.value);
    }
  }

  lemma OldCallStep(s: State, e: Event, id: nat)
    requires Inv(s) && Enabled(s, e) && id in s.reqs.calls && id in Step(s, e).reqs.calls
    ensures CallOpenOk(Step(s, e), id)
  {
    CallGoesOn(s, e, id);
    assert CallOpenOk(s, id);
    LinkGoesOn(s, e, s.reqs.calls[id].gen);
  }

  lemma StepKeepsOpen(s: State, e: Event)
    requires Inv(s)
    ensures OpenOk(Step(s, e))
  {
    if Enabled(s, e) {
      forall id | id in Step(s, e).reqs.calls ensures CallOpenOk(Step(s, e), id) {
        OpenStep(s, e, id);
      }
    }
  }

  lemma StepKeepsAdds(s: State, e: Event)
    requires Inv(s)
    ensures OneAdds(Step(s, e))
  {
    if Enabled(s, e) {
      var t := Step(s, e);
      forall x, y | Adds(t, x) && Adds(t, y)
        ensures x == y
      {
        AddsBefore(s, e, x);
        AddsBefore(s, e, y);
      }
    }
  }

  // A call that holds the slot's lock held it before, or is the new one and
  // nobody held it.
  lemma AddsBefore(s: State, e: Event, id: nat)
    requires Inv(s) && Enabled(s, e) && Adds(Step(s, e), id)
    ensures if id in s.reqs.calls then Adds(s, id) else !Locked(s) && id == s.reqs.next
  {
    CallGoesOn(s, e, id);
  }

  lemma StepKeepsInv(s: State, e: Event)
    requires Inv(s)
    ensures Inv(Step(s, e))
  {
    StepKeepsParts(s, e);
    StepKeepsLoops(s, e);
    StepKeepsOpen(s, e);
    StepKeepsAdds(s, e);
  }

  lemma {:induction false} RunKeepsInv(s: State, es: seq<Event>)
    requires Inv(s)
    ensures Inv(Run(s, es))
  {
    if es != [] {
      RunKeepsInv(s, es[..|es| - 1]);
      StepKeepsInv(Run(s, es[..|es| - 1]), es[|es| - 1]);
    }
  }

  // ---- Calls nobody is left to settle ----

  // The call has no answer yet and its outcome is still open.
  ghost predicate Waiting(s: State, id: nat) {
    id in s.reqs.calls && R.AnswerOf(s.reqs.calls[id]).None? && s.reqs.calls[id].outcome.Open?
  }

  // The generation is gone for good and its loop's clear is past.
  predicate Over(s: State, gen: nat) {
    gen in s.links.links && s.links.links[gen].place == L.Dropped && gen in s.loopCleared
  }

  // The call is still open, or gave up by itself.
  ghost predicate LeftAlone(s: State, id: nat) {
    id in s.reqs.calls && R.Unsettled(s.reqs.calls[id])
  }

  // Once its generation is over, no step but the caller's own moves a call on.
  lemma OverStep(s: State, e: Event, id: nat, gen: nat)
    requires Inv(s) && Over(s, gen) && LeftAlone(s, id) && s.reqs.calls[id].gen == gen
    ensures Over(Step(s, e), gen) && LeftAlone(Step(s, e), id) && Step(s, e).reqs.calls[id].gen == gen
  {
    OverStays(s, e, gen);
    OverTouches(s, e, id, gen);
  }

  lemma OverStays(s: State, e: Event, gen: nat)
    requires Inv(s) && Over(s, gen)
    ensures Over(Step(s, e), gen)
  {
    LinkGoesOn(s, e, gen);
  }

  lemma OverTouches(s: State, e: Event, id: nat, gen: nat)
    requires Inv(s) && Over(s, gen) && LeftAlone(s, id) && s.reqs.calls[id].gen == gen
    ensures LeftAlone(Step(s, e), id) && Step(s, e).reqs.calls[id].gen == gen
  {
    if Enabled(s, e) && CallPart(s, e).Some? {
      R.StepIsAffected(s.reqs, CallPart(s, e).value, id);
      R.AffectedStaysUnsettled(id, s.reqs.calls[id], CallPart(s, e).value);
    }
  }

  lemma {:induction false} OverRun(s: State, es: seq<Event>, id: nat, gen: nat)
    requires Inv(s) && Over(s, gen) && LeftAlone(s, id) && s.reqs.calls[id].gen == gen
    ensures Inv(Run(s, es)) && Over(Run(s, es), gen)
      && LeftAlone(Run(s, es), id) && Run(s, es).reqs.calls[id].gen == gen
  {
    if es != [] {
      OverRun(s, es[..|es| - 1], id, gen);
      StepKeepsInv(Run(s, es[..|es| - 1]), es[|es| - 1]);
      OverStep(Run(s, es[..|es| - 1]), es[|es| - 1], id, gen);
    }
  }

  // ---- Otherwise somebody settles it ----

  lemma RunMore(s: State, es: seq<Event>, e: Event)
    ensures Run(s, es + [e]) == Step(Run(s, es), e)
  {
    assert (es + [e])[..|es|] == es;
  }

  // A clear of its table closes a waiting call.
  lemma ClearSettles(s: State, id: nat)
    requires R.Inv(s.reqs) && Waiting(s, id)
    ensures
      var after := R.Step(s.reqs, R.ClearPending(s.reqs.calls[id].gen));
      id in after.calls && !R.Unsettled(after.calls[id])
  {
    R.StepIsAffected(s.reqs, R.ClearPending(s.reqs.calls[id].gen), id);
  }

  // A loop that has not cleared its table can be brought to do so.
  lemma LoopCanSettle(s: State, id: nat) returns (es: seq<Event>)
    requires Inv(s) && Waiting(s, id) && s.reqs.calls[id].gen !in s.loopCleared
    ensures !LeftAlone(Run(s, es), id)
  {
    var gen := s.reqs.calls[id].gen;
    es := [StartLoop(gen)] + [LinkEnds(gen)] + [LoopClears(gen)];
    RunOfThree(s, StartLoop(gen), LinkEnds(gen), LoopClears(gen));
    LoopSettles(s, id, gen);
  }

  lemma LoopSettles(s: State, id: nat, gen: nat)
    requires Inv(s) && Waiting(s, id) && s.reqs.calls[id].gen == gen && gen !in s.loopCleared
    ensures !LeftAlone(Step(Step(Step(s, StartLoop(gen)), LinkEnds(gen)), LoopClears(gen)), id)
  {
    LoopDrains(s, gen);
    DrainedSettles(Step(Step(s, StartLoop(gen)), LinkEnds(gen)), id, gen);
  }

  lemma DrainedSettles(s: State, id: nat, gen: nat)
    requires R.Inv(s.reqs) && Waiting(s, id) && s.reqs.calls[id].gen == gen && gen !in s.loopCleared
    requires AtPhase(s, gen, L.Draining)
    ensures !LeftAlone(Step(s, LoopClears(gen)), id)
  {
    ClearSettles(s, id);
  }

  lemma RunOfThree(s: State, a: Event, b: Event, c: Event)
    ensures Run(s, [a] + [b] + [c]) == Step(Step(Step(s, a), b), c)
  {
    assert [a] == [] + [a];
    RunMore(s, [], a);
    RunMore(s, [a], b);
    RunMore(s, [a] + [b], c);
  }

  lemma LoopDrains(s: State, gen: nat)
    requires Inv(s) && gen in s.links.links && gen !in s.loopCleared
    ensures
      var t := Step(Step(s, StartLoop(gen)), LinkEnds(gen));
      t.reqs == s.reqs && t.loopCleared == s.loopCleared && AtPhase(t, gen, L.Draining)
  {
  }

  // So can a link that is still in somebody's hand or in the slot.
  lemma TakerCanSettle(s: State, id: nat) returns (es: seq<Event>)
    requires Inv(s) && Waiting(s, id) && s.links.links[s.reqs.calls[id].gen].place != L.Dropped
    ensures !LeftAlone(Run(s, es), id)
  {
    var gen := s.reqs.calls[id].gen;
    if InHand(s, gen) {
      RunMore(s, [], TakerClears(gen));
      ClearSettles(s, id);
      es := [] + [TakerClears(gen)];
    } else if !Locked(s) {
      es := TakeSettles(s, id);
    } else {
      var x :| Adds(s, x);
      var t := Step(s, Caller(R.AddDirs(x)));
      Unlocks(s, x, id);
      StepKeepsInv(s, Caller(R.AddDirs(x)));
      var rest := TakeSettles(t, id);
      RunFront(s, Caller(R.AddDirs(x)), rest);
      es := [Caller(R.AddDirs(x))] + rest;
    }
  }

  lemma Unlocks(s: State, x: nat, id: nat)
    requires Inv(s) && Waiting(s, id) && Adds(s, x)
    ensures
      var t := Step(s, Caller(R.AddDirs(x)));
      !Locked(t) && Waiting(t, id) && t.reqs.calls[id].gen == s.reqs.calls[id].gen && t.links == s.links
  {
    var t := Step(s, Caller(R.AddDirs(x)));
    R.StepAddsNoCall(s.reqs, R.AddDirs(x));
    R.StepIsAffected(s.reqs, R.AddDirs(x), id);
    forall y ensures !Adds(t, y) {
      if y in t.reqs.calls {
        CallGoesOn(s, Caller(R.AddDirs(x)), y);
        assert Adds(t, y) ==> Adds(s, y);
      }
    }
  }

  lemma TakeSettles(s: State, id: nat) returns (es: seq<Event>)
    requires Inv(s) && Waiting(s, id) && !Locked(s) && s.links.links[s.reqs.calls[id].gen].place == L.Installed
    ensures !LeftAlone(Run(s, es), id)
  {
    var gen := s.reqs.calls[id].gen;
    RunMore(s, [], Take(L.SelfHeal));
    RunMore(s, [] + [Take(L.SelfHeal)], TakerClears(gen));
    var t := Step(s, Take(L.SelfHeal));
    assert t.reqs == s.reqs && InHand(t, gen);
    ClearSettles(t, id);
    es := [] + [Take(L.SelfHeal)] + [TakerClears(gen)];
  }

  lemma {:induction false} RunFront(s: State, e: Event, es: seq<Event>)
    ensures Run(s, [e] + es) == Run(Step(s, e), es)
  {
    if es == [] {
      assert [e] + es == [] + [e];
      RunMore(s, [], e);
    } else {
      var front, last := es[..|es| - 1], es[|es| - 1];
      assert [e] + es == ([e] + front) + [last];
      RunMore(s, [e] + front, last);
      RunFront(s, e, front);
    }
  }

  // A waiting call is left to its own timer, whatever happens, exactly when its
  // generation is gone and its loop's clear is past.
  lemma StrandedIff(s: State, id: nat)
    requires Inv(s) && Waiting(s, id)
    ensures Over(s, s.reqs.calls[id].gen) <==> forall es :: LeftAlone(Run(s, es), id)
  {
    var gen := s.reqs.calls[id].gen;
    if Over(s, gen) {
      forall es ensures LeftAlone(Run(s, es), id) {
        OverRun(s, es, id, gen);
      }
    } else if gen !in s.loopCleared {
      var es := LoopCanSettle(s, id);
    } else {
      var es := TakerCanSettle(s, id);
    }
  }

  // Only a call that was registered between the loop's clear and its leaving the
  // slot can get there.
  lemma StrandedWasLate(es: seq<Event>, id: nat)
    requires
      var s := Run(INIT, es);
      Waiting(s, id) && Over(s, s.reqs.calls[id].gen)
    ensures id in Run(INIT, es).late
  {
    RunKeepsInv(INIT, es);
  }

  // A call registered before its loop's clear is settled by that clear at the
  // latest, so no user's command of a working link ever waits for its timer
  // because the link ended.
  lemma EarlyCallsAreSettled(es: seq<Event>, id: nat)
    requires
      var s := Run(INIT, es);
      id in s.reqs.calls && id !in s.late && s.reqs.calls[id].gen in s.loopCleared
    ensures !Waiting(Run(INIT, es), id)
  {
    RunKeepsInv(INIT, es);
    assert CallOpenOk(Run(INIT, es), id);
  }

  // And such calls exist.

  // A link whose loop has ended its select and cleared both tables, still in the
  // slot.
  const CLEARED: State :=
    State(L.State(Some(0), map[0 := L.Link(0, L.Installed, L.Draining)], 1, []), R.Init(), map[], {0}, {0}, {}, {})

  lemma LoopClearsFirst()
    ensures Run(INIT, [] + [Publish(0)] + [StartLoop(0)] + [LinkEnds(0)] + [LoopClears(0)] + [LoopClearsDirs(0)])
      == CLEARED
  {
    RunMore(INIT, [], Publish(0));
    RunMore(INIT, [] + [Publish(0)], StartLoop(0));
    RunMore(INIT, [] + [Publish(0)] + [StartLoop(0)], LinkEnds(0));
    RunMore(INIT, [] + [Publish(0)] + [StartLoop(0)] + [LinkEnds(0)], LoopClears(0));
    RunMore(INIT, [] + [Publish(0)] + [StartLoop(0)] + [LinkEnds(0)] + [LoopClears(0)], LoopClearsDirs(0));
    var up := State(L.State(Some(0), map[0 := L.Link(0, L.Installed, L.Unstarted)], 1, []),
      R.Init(), map[], {}, {}, {}, {});
    assert Step(INIT, Publish(0)) == up;
    var down := up.(links := up.links.(links := map[0 := L.Link(0, L.Installed, L.Draining)]));
    assert Step(Step(up, StartLoop(0)), LinkEnds(0)) == down;
    assert Step(down, LoopClears(0)) == down.(loopCleared := {0});
  }

  // There the user's command registers its request, hands it to the outbound
  // queue, and the loop leaves: nobody will answer.
  lemma StrandedCallExists()
    ensures
      var s := Run(CLEARED, [] + [Request(false)] + [Caller(R.Enqueue(0, true))] + [Leave(0)]);
      Waiting(s, 0) && s.reqs.calls[0].stage == R.AwaitingOutcome && Over(s, s.reqs.calls[0].gen) && 0 in s.late
  {
    RunMore(CLEARED, [], Request(false));
    RunMore(CLEARED, [] + [Request(false)], Caller(R.Enqueue(0, true)));
    RunMore(CLEARED, [] + [Request(false)] + [Caller(R.Enqueue(0, true))], Leave(0));
    var asked := Step(CLEARED, Request(false));
    assert asked.reqs.calls == map[0 := R.Call(0, false, R.Sending, R.Open, R.Closed)];
    var sent := Step(asked, Caller(R.Enqueue(0, true)));
    assert sent.reqs.calls == map[0 := R.Call(0, false, R.AwaitingOutcome, R.Open, R.Closed)];
  }

  // ---- On a working link calls are answered ----

  // Nobody holds the slot's lock, and the loop of the link in the slot waits for frames.
  ghost predicate Working(s: State, gen: nat) {
    && L.SlotOk(s.links) && R.Inv(s.reqs) && !Locked(s)
    && s.links.slot == Some(gen) && AtPhase(s, gen, L.Waiting) && gen !in s.held
  }

  // A request is queued, its result comes in through the loop, and it returns it.
  lemma RequestIsAnswered(s: State, gen: nat, outcome: R.Outcome)
    requires Working(s, gen)
    ensures
      var id := s.reqs.next;
      var t := Run(s, [] + [Request(false)] + [Caller(R.Enqueue(id, true))] + [Inbound(gen, Result(id, outcome))]
                      + [Handle(gen)] + [Caller(R.Wake(id))]);
      id in t.reqs.calls && t.reqs.calls[id].stage == R.Finished(R.Own(outcome))
  {
    var id := s.reqs.next;
    var es := [] + [Request(false)] + [Caller(R.Enqueue(id, true))];
    RunMore(s, [], Request(false));
    RunMore(s, [] + [Request(false)], Caller(R.Enqueue(id, true)));
    var asked := Run(s, es);
    QueuedCall(s, gen);
    RunMore(s, es, Inbound(gen, Result(id, outcome)));
    RunMore(s, es + [Inbound(gen, Result(id, outcome))], Handle(gen));
    RunMore(s, es + [Inbound(gen, Result(id, outcome))] + [Handle(gen)], Caller(R.Wake(id)));
    ResultArrives(asked, gen, id, outcome);
  }

  lemma QueuedCall(s: State, gen: nat)
    requires Working(s, gen)
    ensures
      var id, t := s.reqs.next, Step(Step(s, Request(false)), Caller(R.Enqueue(s.reqs.next, true)));
      && t.links == s.links && id in t.reqs.calls && (gen, id) in t.reqs.pending
      && t.reqs.calls[id].stage == R.AwaitingOutcome && !t.reqs.calls[id].listing
  {
  }

  // A frame on the link in the slot is handed to that generation's tables.
  lemma FrameIsHandled(s: State, gen: nat, frame: Frame)
    requires L.SlotOk(s.links) && s.links.slot == Some(gen) && AtPhase(s, gen, L.Waiting)
    ensures
      var t := Step(Step(s, Inbound(gen, frame)), Handle(gen));
      match frame
      case Result(id, outcome) => t.reqs == R.Step(s.reqs, R.CommandResult(gen, id, outcome))
      case Dirs(id, names) => t.reqs == R.Step(s.reqs, R.WorkspaceDirs(gen, id, names))
      case Other => t.reqs == s.reqs
  {
    var a := Step(s, Inbound(gen, frame));
    assert a.reqs == s.reqs && AtPhase(a, gen, L.Dispatching) && gen in a.held && a.held[gen] == frame;
  }

  lemma ResultArrives(s: State, gen: nat, id: nat, outcome: R.Outcome)
    requires L.SlotOk(s.links) && s.links.slot == Some(gen) && AtPhase(s, gen, L.Waiting)
    requires id in s.reqs.calls && (gen, id) in s.reqs.pending
    requires s.reqs.calls[id].stage == R.AwaitingOutcome && !s.reqs.calls[id].listing
    ensures
      var t := Step(Step(Step(s, Inbound(gen, Result(id, outcome))), Handle(gen)), Caller(R.Wake(id)));
      id in t.reqs.calls && t.reqs.calls[id].stage == R.Finished(R.Own(outcome))
  {
    FrameIsHandled(s, gen, Result(id, outcome));
    CallerOnly(Step(Step(s, Inbound(gen, Result(id, outcome))), Handle(gen)), R.Wake(id));
    WokenCall(s.reqs, gen, id, outcome);
  }

  lemma CallerOnly(s: State, e: R.Event)
    requires IsCallers(s, e)
    ensures Step(s, Caller(e)).reqs == R.Step(s.reqs, e)
  {
  }

  lemma WokenCall(s: R.State, gen: nat, id: nat, outcome: R.Outcome)
    requires id in s.calls && (gen, id) in s.pending && s.calls[id].stage == R.AwaitingOutcome && !s.calls[id].listing
    ensures
      var t := R.Step(R.Step(s, R.CommandResult(gen, id, outcome)), R.Wake(id));
      id in t.calls && t.calls[id].stage == R.Finished(R.Own(outcome))
  {
  }

  // So does a listing's second frame.
  lemma DirsArrive(s: State, gen: nat, id: nat, names: string)
    requires L.SlotOk(s.links) && s.links.slot == Some(gen) && AtPhase(s, gen, L.Waiting)
    requires id in s.reqs.calls && (gen, id) in s.reqs.dirs && s.reqs.calls[id].stage == R.AwaitingDirs
    ensures
      var t := Step(Step(Step(s, Inbound(gen, Dirs(id, names))), Handle(gen)), Caller(R.WakeDirs(id)));
      id in t.reqs.calls && t.reqs.calls[id].stage == R.Finished(R.Listing(names))
  {
    FrameIsHandled(s, gen, Dirs(id, names));
    CallerOnly(Step(Step(s, Inbound(gen, Dirs(id, names))), Handle(gen)), R.WakeDirs(id));
    WokenListing(s.reqs, gen, id, names);
  }

  lemma WokenListing(s: R.State, gen: nat, id: nat, names: string)
    requires id in s.calls && (gen, id) in s.dirs && s.calls[id].stage == R.AwaitingDirs
    ensures
      var t := R.Step(R.Step(s, R.WorkspaceDirs(gen, id, names)), R.WakeDirs(id));
      id in t.calls && t.calls[id].stage == R.Finished(R.Listing(names))
  {
  }
}
