// Connection generations: one slot for the current link, a kill switch per
// generation, and one session loop each (app/src-tauri/src/lib.rs:961, 1134-1149,
// 1269, 1508-1517, 2139-2161, 2200-2208, 3448-3499).
module Links {
  import opened Bytes

  // Why a link was taken out of the slot. Only `disconnect` announces it.
  datatype Reason = Disconnecting | SelfHeal | Removing

  // Where the `Connection` value is. Dropping it fires the kill switch.
  datatype Place = Installed | InHand(why: Reason) | Dropped

  // Where the generation's loop is. `Waiting` is the top of its select.
  datatype Phase = Unstarted | Waiting | Dispatching | Draining | Ended

  datatype Link = Link(peer: nat, place: Place, phase: Phase)

  datatype Note = Dispatched(id: nat) | Disconnected(id: nat)

  datatype State = State(slot: Option<nat>, links: map<nat, Link>, next: nat, log: seq<Note>)

  datatype Event =
    | Publish(peer: nat)
    | Take(why: Reason)
    | TakeFor(peer: nat)
    | Drop(id: nat)
    | StartLoop(id: nat)
    | Inbound(id: nat) // a frame is ready
    | FrameDone(id: nat)
    | LinkEnds(id: nat) // the peer is gone, or a handler gives up
    | SeeShutdown(id: nat)
    | Leave(id: nat) // cleanup, then remove_connection_if_current

  function Init(): State {
    State(None, map[], 0, [])
  }

  function Moved(s: State, id: nat, place: Place): State
    requires id in s.links
  {
    s.(links := s.links[id := s.links[id].(place := place)])
  }

  function At(s: State, id: nat, phase: Phase): State
    requires id in s.links
  {
    s.(links := s.links[id := s.links[id].(phase := phase)])
  }

  // Overwriting the slot drops what was in it.
  function Published(s: State, peer: nat): State {
    var cleared := if s.slot.Some? && s.slot.value in s.links then Moved(s, s.slot.value, Dropped) else s;
    State(Some(s.next), cleared.links[s.next := Link(peer, Installed, Unstarted)], s.next + 1, s.log)
  }

  function Taken(s: State, why: Reason): State {
    if s.slot.Some? && s.slot.value in s.links then Moved(s, s.slot.value, InHand(why)).(slot := None) else s
  }

  function DroppedNow(s: State, id: nat): State {
    if id in s.links && s.links[id].place.InHand? then
      var out := Moved(s, id, Dropped);
      if s.links[id].place.why == Disconnecting then out.(log := s.log + [Disconnected(id)]) else out
    else s
  }

  // A biased select looks at the kill switch before it takes a frame.
  function Dispatch(s: State, id: nat): State {
    if id in s.links && s.links[id].phase == Waiting && s.links[id].place != Dropped
    then At(s, id, Dispatching).(log := s.log + [Dispatched(id)])
    else s
  }

  // The loop's last act: only the generation still installed clears the slot
  // and says so.
  function Left(s: State, id: nat): State {
    if id in s.links && s.links[id].phase == Draining then
      var ended := At(s, id, Ended);
      if s.slot == Some(id) then Moved(ended, id, Dropped).(slot := None, log := s.log + [Disconnected(id)]) else ended
    else s
  }

  function Step(s: State, e: Event): State {
    match e
    case Publish(peer) => Published(s, peer)
    case Take(why) => Taken(s, why)
    case TakeFor(peer) =>
      if s.slot.Some? && s.slot.value in s.links && s.links[s.slot.value].peer == peer then Taken(s, Removing) else s
    case Drop(id) => DroppedNow(s, id)
    case StartLoop(id) => if id in s.links && s.links[id].phase == Unstarted then At(s, id, Waiting) else s
    case Inbound(id) => Dispatch(s, id)
    case FrameDone(id) => if id in s.links && s.links[id].phase == Dispatching then At(s, id, Waiting) else s
    case LinkEnds(id) =>
      if id in s.links && (s.links[id].phase == Waiting || s.links[id].phase == Dispatching)
      then At(s, id, Draining)
      else s
    case SeeShutdown(id) =>
      if id in s.links && s.links[id].phase == Waiting && s.links[id].place == Dropped then At(s, id, Draining) else s
    case Leave(id) => Left(s, id)
  }

  function Run(s: State, es: seq<Event>): State {
    if es == [] then s else Step(Run(s, es[..|es| - 1]), es[|es| - 1])
  }

  lemma RunMore(s: State, es: seq<Event>, e: Event)
    ensures Run(s, es + [e]) == Step(Run(s, es), e)
  {
    assert (es + [e])[..|es|] == es;
  }

  // ---- What every run keeps ----

  // The installed generation is the one in the slot, and its loop has not ended.
  ghost predicate SlotOk(s: State) {
    && (forall id :: id in s.links && s.links[id].place == Installed ==> s.slot == Some(id))
    && (s.slot.Some? ==>
          s.slot.value in s.links && s.links[s.slot.value].place == Installed
          && s.links[s.slot.value].phase != Ended)
    && forall id :: id in s.links ==> id < s.next
  }

  function Count(log: seq<Note>, n: Note): nat {
    if log == [] then 0 else Count(log[..|log| - 1], n) + if log[|log| - 1] == n then 1 else 0
  }

  lemma CountMore(log: seq<Note>, m: Note, n: Note)
    ensures Count(log + [m], n) == Count(log, n) + if m == n then 1 else 0
  {
    assert (log + [m])[..|log|] == log;
  }

  // `disconnected` was said at most once for each generation, and only about
  // one that is gone.
  ghost predicate AnnouncedOk(s: State) {
    forall id: nat :: Count(s.log, Disconnected(id)) <= if id in s.links && s.links[id].place == Dropped then 1 else 0
  }

  lemma StepKeepsSlot(s: State, e: Event)
    requires SlotOk(s)
    ensures SlotOk(Step(s, e))
  {
  }

  // What one step says.
  function Says(s: State, e: Event): Option<Note> {
    match e
    case Drop(id) =>
      if id in s.links && s.links[id].place == InHand(Disconnecting) then Some(Disconnected(id)) else None
    case Inbound(id) =>
      if id in s.links && s.links[id].phase == Waiting && s.links[id].place != Dropped
      then Some(Dispatched(id))
      else None
    case Leave(id) =>
      if id in s.links && s.links[id].phase == Draining && s.slot == Some(id)
      then Some(Disconnected(id))
      else None
    case _ => None
  }

  lemma StepSays(s: State, e: Event)
    ensures Step(s, e).log == s.log + if Says(s, e).Some? then [Says(s, e).value] else []
  {
  }

  lemma StepCounts(s: State, e: Event, n: Note)
    ensures Count(Step(s, e).log, n) == Count(s.log, n) + if Says(s, e) == Some(n) then 1 else 0
  {
    StepSays(s, e);
    if Says(s, e).Some? {
      CountMore(s.log, Says(s, e).value, n);
    } else {
      assert s.log + [] == s.log;
    }
  }

  lemma StepAnnounces(s: State, e: Event, id: nat)
    requires SlotOk(s) && AnnouncedOk(s)
    ensures Count(Step(s, e).log, Disconnected(id)) <=
      if id in Step(s, e).links && Step(s, e).links[id].place == Dropped then 1 else 0
  {
    StepCounts(s, e, Disconnected(id));
    StepRetires(s, e, id);
  }

  lemma {:induction false} RunKeeps(es: seq<Event>)
    ensures SlotOk(Run(Init(), es)) && AnnouncedOk(Run(Init(), es))
  {
    if es != [] {
      var front, e := es[..|es| - 1], es[|es| - 1];
      RunKeeps(front);
      var s := Run(Init(), front);
      StepKeepsSlot(s, e);
      forall id: nat
        ensures Count(Step(s, e).log, Disconnected(id)) <=
          if id in Step(s, e).links && Step(s, e).links[id].place == Dropped then 1 else 0
      {
        StepAnnounces(s, e, id);
      }
    }
  }

  // `disconnected` is said exactly when a link that was taken to disconnect is
  // dropped, or when a loop leaves while its link is still the current one.
  lemma AnnouncesIff(s: State, e: Event, id: nat)
    ensures Count(Step(s, e).log, Disconnected(id)) == Count(s.log, Disconnected(id)) + 1 <==>
      || (e == Drop(id) && id in s.links && s.links[id].place == InHand(Disconnecting))
      || (e == Leave(id) && id in s.links && s.links[id].phase == Draining && s.slot == Some(id))
    ensures Count(Step(s, e).log, Disconnected(id)) <= Count(s.log, Disconnected(id)) + 1
  {
    StepCounts(s, e, Disconnected(id));
  }

  // Over every run each generation causes at most one `disconnected`.
  lemma AtMostOneDisconnected(es: seq<Event>, id: nat)
    ensures Count(Run(Init(), es).log, Disconnected(id)) <= 1
  {
    RunKeeps(es);
  }

  // ---- Retired generations ----

  // A generation that is not installed never will be again, and one that was
  // dropped stays dropped.
  ghost predicate Retires(s: State, t: State, id: nat) {
    id in s.links ==>
      && id in t.links && t.links[id].peer == s.links[id].peer
      && (s.links[id].place != Installed ==> t.links[id].place != Installed && t.slot != Some(id))
      && (s.links[id].place == Dropped ==> t.links[id].place == Dropped)
  }

  lemma StepRetires(s: State, e: Event, id: nat)
    requires SlotOk(s)
    ensures Retires(s, Step(s, e), id)
  {
  }

  lemma {:induction false} RunFrom(s: State, es: seq<Event>, id: nat)
    requires SlotOk(s)
    ensures SlotOk(Run(s, es)) && Retires(s, Run(s, es), id)
  {
    if es != [] {
      var front := es[..|es| - 1];
      RunFrom(s, front, id);
      StepKeepsSlot(Run(s, front), es[|es| - 1]);
      StepRetires(Run(s, front), es[|es| - 1], id);
    }
  }

  // An ending or stale loop leaves every other generation, and the slot if it
  // is not its own, exactly as they were.
  lemma LoopTouchesOnlyItself(s: State, e: Event, id: nat, other: nat)
    requires SlotOk(s) && id != other && other in s.links
    requires e in {StartLoop(id), Inbound(id), FrameDone(id), LinkEnds(id), SeeShutdown(id), Leave(id)}
    ensures
      var t := Step(s, e);
      other in t.links && t.links[other] == s.links[other] && (s.slot == Some(other) ==> t.slot == s.slot)
  {
  }

  // The loop is past its last frame, or its kill switch has fired.
  ghost predicate Silent(s: State, id: nat) {
    id in s.links && (s.links[id].place == Dropped || s.links[id].phase == Draining || s.links[id].phase == Ended)
  }

  lemma {:induction false} SilentStays(s: State, es: seq<Event>, id: nat)
    requires SlotOk(s) && Silent(s, id)
    ensures SlotOk(Run(s, es)) && Silent(Run(s, es), id)
    ensures Count(Run(s, es).log, Dispatched(id)) == Count(s.log, Dispatched(id))
  {
    if es != [] {
      var front, e := es[..|es| - 1], es[|es| - 1];
      SilentStays(s, front, id);
      SilentStep(Run(s, front), e, id);
    }
  }

  lemma SilentStep(s: State, e: Event, id: nat)
    requires SlotOk(s) && Silent(s, id)
    ensures SlotOk(Step(s, e)) && Silent(Step(s, e), id)
      && Count(Step(s, e).log, Dispatched(id)) == Count(s.log, Dispatched(id))
  {
    StepKeepsSlot(s, e);
    StepRetires(s, e, id);
    StepCounts(s, e, Dispatched(id));
    if s.links[id].place != Dropped {
      QuietPhase(s, e, id);
    }
  }

  lemma QuietPhase(s: State, e: Event, id: nat)
    requires SlotOk(s) && id in s.links && (s.links[id].phase == Draining || s.links[id].phase == Ended)
    ensures
      var t := Step(s, e);
      id in t.links && (t.links[id].phase == Draining || t.links[id].phase == Ended)
  {
  }

  lemma CanDispatchAfter(s: State, e: Event, id: nat) returns (es: seq<Event>)
    requires id in s.links && s.links[id].place != Dropped
    requires e == if s.links[id].phase == Unstarted then StartLoop(id) else FrameDone(id)
    requires s.links[id].phase == Unstarted || s.links[id].phase == Dispatching
    ensures Count(Run(s, es).log, Dispatched(id)) == Count(s.log, Dispatched(id)) + 1
  {
    RunMore(s, [], e);
    RunMore(s, [] + [e], Inbound(id));
    es := [] + [e] + [Inbound(id)];
    StepCounts(Step(s, e), Inbound(id), Dispatched(id));
  }

  // A loop ends by leaving.
  lemma EndsByLeaving(s: State, e: Event, id: nat)
    requires SlotOk(s) && id in s.links
    ensures id in Step(s, e).links &&
      (Step(s, e).links[id].phase == Ended ==> s.links[id].phase == Ended || e == Leave(id))
  {
  }

  // A loop that is not silent can still take a frame.
  lemma CanDispatch(s: State, id: nat) returns (es: seq<Event>)
    requires id in s.links && !Silent(s, id)
    ensures Count(Run(s, es).log, Dispatched(id)) == Count(s.log, Dispatched(id)) + 1
  {
    if s.links[id].phase == Waiting {
      RunMore(s, [], Inbound(id));
      StepCounts(s, Inbound(id), Dispatched(id));
      es := [] + [Inbound(id)];
    } else {
      var e := if s.links[id].phase == Unstarted then StartLoop(id) else FrameDone(id);
      es := CanDispatchAfter(s, e, id);
    }
  }

  // A generation's loop takes no further frame, whatever happens, exactly when
  // its `Connection` was dropped or the loop is past its select. Being taken
  // out of the slot is not enough.
  lemma NoMoreFramesIff(s: State, id: nat)
    requires SlotOk(s) && id in s.links
    ensures Silent(s, id) <==> forall es :: Count(Run(s, es).log, Dispatched(id)) == Count(s.log, Dispatched(id))
  {
    if Silent(s, id) {
      forall es ensures Count(Run(s, es).log, Dispatched(id)) == Count(s.log, Dispatched(id)) {
        SilentStays(s, es, id);
      }
    } else {
      var es := CanDispatch(s, id);
    }
  }

  // A link that is replaced in the slot is silent at once; one that is taken out
  // is silent once the taker drops it.
  lemma RetiredIsSilent(s: State, id: nat, peer: nat, why: Reason)
    requires SlotOk(s) && s.slot == Some(id)
    ensures Silent(Step(s, Publish(peer)), id)
    ensures Silent(Step(Step(s, Take(why)), Drop(id)), id)
    ensures Silent(Step(s, Take(why)), id) <==> s.links[id].phase == Draining
  {
  }

  // So between take and drop a frame can still come through.
  lemma TakenLinkStillDispatches()
    ensures
      var taken := Run(Init(), [Publish(0)] + [StartLoop(0)] + [Take(Disconnecting)]);
      && taken.slot == None && 0 in taken.links && taken.links[0].place == InHand(Disconnecting)
      && Step(taken, Inbound(0)).log == [Dispatched(0)]
  {
    RunMore(Init(), [], Publish(0));
    assert [] + [Publish(0)] == [Publish(0)];
    RunMore(Init(), [Publish(0)], StartLoop(0));
    RunMore(Init(), [Publish(0)] + [StartLoop(0)], Take(Disconnecting));
  }

  // ---- The slot's methods ----

  // ---- A dropped link's loop comes to its end ----

  predicate OwnStep(e: Event, id: nat) {
    e == FrameDone(id) || e == SeeShutdown(id) || e == Leave(id)
  }

  // By its own steps, whatever it was doing: it finishes its frame, sees the kill
  // switch and leaves, without the peer's help.
  lemma DroppedLoopEnds(s: State, id: nat) returns (es: seq<Event>)
    requires SlotOk(s) && id in s.links && s.links[id].place == Dropped && s.links[id].phase != Unstarted
    ensures forall i :: 0 <= i < |es| ==> OwnStep(es[i], id)
    ensures id in Run(s, es).links && Run(s, es).links[id].phase == Ended && Run(s, es).log == s.log
    decreases StepsLeft(s.links[id].phase)
  {
    if s.links[id].phase == Ended {
      es := [];
    } else {
      var e := NextOwnStep(s, id);
      var rest := DroppedLoopEnds(Step(s, e), id);
      RunFront(s, e, rest);
      es := [e] + rest;
    }
  }

  function StepsLeft(phase: Phase): nat {
    match phase
    case Unstarted => 4
    case Dispatching => 3
    case Waiting => 2
    case Draining => 1
    case Ended => 0
  }

  lemma NextOwnStep(s: State, id: nat) returns (e: Event)
    requires SlotOk(s) && id in s.links && s.links[id].place == Dropped
    requires s.links[id].phase != Unstarted && s.links[id].phase != Ended
    ensures OwnStep(e, id)
    ensures
      var t := Step(s, e);
      && SlotOk(t) && id in t.links && t.links[id].place == Dropped && t.links[id].phase != Unstarted
      && StepsLeft(t.links[id].phase) < StepsLeft(s.links[id].phase) && t.log == s.log
  {
    match s.links[id].phase
    case Dispatching => e := FrameDone(id);
    case Waiting => e := SeeShutdown(id);
    case Draining => e := Leave(id);
    StepKeepsSlot(s, e);
  }

  lemma {:induction false} RunFront(s: State, e: Event, es: seq<Event>)
    ensures Run(s, [e] + es) == Run(Step(s, e), es)
  {
    if es == [] {
      assert [e] + es == [] + [e];
      RunMore(s, [], e);
    } else {
      var front, last := es[..|es| - 1], es[|es| - 1];
      RunFront(s, e, front);
      assert [e] + es == [e] + front + [last];
      RunMore(s, [e] + front, last);
    }
  }

  class CurrentConnection {
    var slot: Option<nat>
    var links: map<nat, Link>
    var next: nat
    var log: seq<Note>

    ghost function Value(): State
      reads this
    {
      State(slot, links, next, log)
    }

    ghost predicate Valid()
      reads this
    {
      SlotOk(Value())
    }

    constructor ()
      ensures Value() == Init() && Valid()
    {
      slot, links, next, log := None, map[], 0, [];
    }

    method Install(peer: nat) returns (id: nat)
      requires Valid()
      modifies this
      ensures Valid() && Value() == Step(old(Value()), Publish(peer)) && id == old(next) && slot == Some(id)
      ensures id !in old(links) && id in links && links[id] == Link(peer, Installed, Unstarted) && log == old(log)
      ensures old(slot).Some? ==> links[old(slot).value] == old(links)[old(slot).value].(place := Dropped)
    {
      id := next;
      next := next + 1;
      if slot.Some? {
        links := links[slot.value := links[slot.value].(place := Dropped)];
      }
      links := links[id := Link(peer, Installed, Unstarted)];
      slot := Some(id);
      StepKeepsSlot(old(Value()), Publish(peer));
    }

    method TakeCurrent(why: Reason) returns (taken: Option<nat>)
      requires Valid()
      modifies this
      ensures Valid() && Value() == Step(old(Value()), Take(why)) && taken == old(slot) && slot == None
      ensures taken.Some? ==> links[taken.value] == old(links)[taken.value].(place := InHand(why))
      ensures log == old(log)
    {
      taken := slot;
      if slot.Some? {
        links := links[slot.value := links[slot.value].(place := InHand(why))];
        slot := None;
      }
      StepKeepsSlot(old(Value()), Take(why));
    }

    method TakeConnectionForPeer(peer: nat) returns (taken: Option<nat>)
      requires Valid()
      modifies this
      ensures Valid() && Value() == Step(old(Value()), TakeFor(peer))
      ensures taken == if old(slot).Some? && old(links)[old(slot).value].peer == peer then old(slot) else None
    {
      taken := None;
      if slot.Some? && links[slot.value].peer == peer {
        taken := TakeCurrent(Removing);
      }
      StepKeepsSlot(old(Value()), TakeFor(peer));
    }

    method DropConnection(id: nat)
      requires Valid() && id in links && links[id].place.InHand?
      modifies this
      ensures Valid() && Value() == Step(old(Value()), Drop(id))
      ensures links == old(links)[id := old(links)[id].(place := Dropped)] && slot == old(slot)
      ensures log == old(log) + if old(links)[id].place.why == Disconnecting then [Disconnected(id)] else []
    {
      var why := links[id].place.why;
      links := links[id := links[id].(place := Dropped)];
      if why == Disconnecting {
        log := log + [Disconnected(id)];
      }
      StepKeepsSlot(old(Value()), Drop(id));
    }

    method RemoveConnectionIfCurrent(id: nat) returns (removed: bool)
      requires Valid() && id in links && links[id].phase == Draining
      modifies this
      ensures Valid() && Value() == Step(old(Value()), Leave(id))
      ensures removed <==> old(slot) == Some(id)
      ensures !removed ==> slot == old(slot) && log == old(log)
      ensures removed ==> slot == None && log == old(log) + [Disconnected(id)] && links[id].place == Dropped
      ensures links[id].phase == Ended
    {
      removed := slot == Some(id);
      links := links[id := links[id].(phase := Ended)];
      if removed {
        links := links[id := links[id].(place := Dropped)];
        slot := None;
        log := log + [Disconnected(id)];
      }
      StepKeepsSlot(old(Value()), Leave(id));
    }

    // Whether there was a link to drop.
    method Disconnect() returns (dropped: bool)
      requires Valid()
      modifies this
      ensures Valid() && slot == None && (dropped <==> old(slot).Some?)
      ensures dropped ==> Value() == Step(Step(old(Value()), Take(Disconnecting)), Drop(old(slot).value))
      ensures !dropped ==> Value() == old(Value())
      ensures dropped ==> log == old(log) + [Disconnected(old(slot).value)]
      ensures dropped ==> links[old(slot).value].place == Dropped
    {
      var taken := TakeCurrent(Disconnecting);
      dropped := taken.Some?;
      if dropped {
        DropConnection(taken.value);
      }
    }
  }
}
