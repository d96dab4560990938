/**
 The order of the first messages about a task when sends are direct and acknowledged.

 The initiator stores the task, sends it to one participant after the other, each time waiting
 for the answer, and only then lists it.  At a participant, the check that no copy is stored,
 the insertion and the listing are three separate steps of the receiving handler.  Outcomes are
 sent by the initiator, by a handler that has changed the status of its task.  That this never
 happens before the listing is proved here from the removal that such a handler begins with, and on
 the machine with decisions in AgreementListing.UnlistedIsNeverBroadcast.
 */
module ListingGate {

  datatype Phase = Arrived | SawNone | SawCopy | Inserted

  // `first` marks the request that opens the task.
  datatype Handler = Handler(core: nat, first: bool, phase: Phase)

  // Sending(i): participants before i have answered.  Stopped: a send failed and the handler returned.
  datatype Initiator = Idle | Sending(next: nat) | Awaiting(next: nat) | Stopped | Listed

  datatype Place = Place(stored: bool, listed: bool, received: nat)

  // `settled`: a second section at the initiator has put an outcome on its copy.
  datatype State = State(initiator: Initiator, settled: bool, places: seq<Place>, handlers: multiset<Handler>)

  datatype Step =
    | Store
    | Send
    | ListAtInitiator
    | Settle
    | Broadcast(core: nat)
    | Check(handler: Handler)
    | Insert(handler: Handler)
    | Refuse(handler: Handler)
    | ListCopy(handler: Handler)
    | Return(handler: Handler)
    | Disconnect

  function Init(n: nat): State {
    State(Idle, false, seq(n, i => Place(false, false, 0)), multiset{})
  }

  predicate WellFormed(s: State) {
    forall h | h in s.handlers :: 0 < h.core < |s.places|
  }

  function Receiving(places: seq<Place>, core: nat): seq<Place>
    requires core < |places|
  {
    places[core := places[core].(received := places[core].received + 1)]
  }

  function Becomes(handlers: multiset<Handler>, h: Handler, phase: Phase): multiset<Handler> {
    handlers - multiset{h} + multiset{h.(phase := phase)}
  }

  lemma HandlersStayWellFormed(s: State, h: Handler, phase: Phase)
    requires WellFormed(s) && h in s.handlers
    ensures forall g | g in s.handlers - multiset{h} :: 0 < g.core < |s.places|
    ensures forall g | g in Becomes(s.handlers, h, phase) :: 0 < g.core < |s.places|
  {}

  /** The handler has answered: the initiator goes on, if it is this answer that it waits for. */
  function Answer(initiator: Initiator, h: Handler, ok: bool): Initiator {
    if h.first && initiator == Awaiting(h.core) then (if ok then Sending(h.core + 1) else Stopped) else initiator
  }

  function InitiatorStep(s: State, step: Step): (s': State)
    requires WellFormed(s)
    ensures WellFormed(s') && |s'.places| == |s.places|
  {
    match step
    case Store => if s.initiator == Idle then s.(initiator := Sending(1)) else s
    case Send =>
      if s.initiator.Sending? && 0 < s.initiator.next < |s.places|
      then s.(initiator := Awaiting(s.initiator.next), places := Receiving(s.places, s.initiator.next),
              handlers := s.handlers + multiset{Handler(s.initiator.next, true, Arrived)})
      else s
    case ListAtInitiator =>
      if s.initiator.Sending? && s.initiator.next >= |s.places| then s.(initiator := Listed) else s
    // A status change begins by taking the task out of its lists, which fails if it is not there yet.
    case Settle => if s.initiator == Listed then s.(settled := true) else s
    // Only a handler that has changed the status goes on to broadcast.
    case Broadcast(core) =>
      if s.settled && 0 < core < |s.places|
      then s.(places := Receiving(s.places, core), handlers := s.handlers + multiset{Handler(core, false, Arrived)})
      else s
    case Disconnect => if s.initiator.Awaiting? then s.(initiator := Stopped) else s
    case _ => s
  }

  /** The handler goes on to its next phase. */
  function Advanced(s: State, h: Handler, phase: Phase): (s': State)
    requires WellFormed(s) && h in s.handlers
    ensures WellFormed(s') && s'.places == s.places
  {
    HandlersStayWellFormed(s, h, phase);
    s.(handlers := Becomes(s.handlers, h, phase))
  }

  /** The handler ends with an answer. */
  function Answered(s: State, h: Handler, ok: bool): (s': State)
    requires WellFormed(s) && h in s.handlers
    ensures WellFormed(s') && s'.places == s.places
  {
    HandlersStayWellFormed(s, h, Arrived);
    s.(initiator := Answer(s.initiator, h, ok), handlers := s.handlers - multiset{h})
  }

  function AtPlace(s: State, core: nat, p: Place): (s': State)
    requires WellFormed(s) && core < |s.places|
    ensures WellFormed(s') && |s'.places| == |s.places| && s'.handlers == s.handlers
  {
    s.(places := s.places[core := p])
  }

  function HandlerStep(s: State, step: Step): (s': State)
    requires WellFormed(s)
    ensures WellFormed(s') && |s'.places| == |s.places|
  {
    match step
    case Check(h) =>
      if h !in s.handlers || h.phase != Arrived then s
      else Advanced(s, h, if s.places[h.core].stored then SawCopy else SawNone)
    case Insert(h) =>
      if h !in s.handlers || h.phase != SawNone then s
      else Advanced(AtPlace(s, h.core, s.places[h.core].(stored := true)), h, Inserted)
    case Refuse(h) =>
      if h !in s.handlers || h.phase != SawNone then s else Answered(s, h, false)
    case ListCopy(h) =>
      if h !in s.handlers || h.phase != Inserted then s
      else Answered(AtPlace(s, h.core, s.places[h.core].(listed := true)), h, true)
    case Return(h) =>
      if h !in s.handlers || h.phase != SawCopy then s else Answered(s, h, true)
    case _ => s
  }

  predicate ByInitiator(step: Step) {
    step.Store? || step.Send? || step.ListAtInitiator? || step.Settle? || step.Broadcast? || step.Disconnect?
  }

  function Next(s: State, step: Step): (s': State)
    requires WellFormed(s)
    ensures WellFormed(s') && |s'.places| == |s.places|
  {
    if ByInitiator(step) then InitiatorStep(s, step) else HandlerStep(s, step)
  }

  function Execute(s: State, steps: seq<Step>): (s': State)
    requires WellFormed(s)
    ensures WellFormed(s') && |s'.places| == |s.places|
    decreases |steps|
  {
    if steps == [] then s else Execute(Next(s, steps[0]), steps[1..])
  }

  // ---------------------------------------------------------------- the invariant

  predicate Untouched(p: Place) {
    p == Place(false, false, 0)
  }

  predicate InPlace(p: Place) {
    p.stored && p.listed && p.received >= 1
  }

  /** The opening request is at this phase, and the place shows exactly that. */
  predicate Opening(p: Place, phase: Phase) {
    phase != SawCopy && p == Place(phase == Inserted, false, 1)
  }

  predicate Split(places: seq<Place>, next: nat) {
    && (forall k | 0 < k < next && k < |places| :: InPlace(places[k]) && places[k].received == 1)
    && (forall k | next < k < |places| :: Untouched(places[k]))
  }

  /**
   At most one handler runs before the initiator lists the task, and it is the opening request of
   the place in turn.
   */
  ghost predicate Opened(s: State, next: nat) {
    && 0 < next < |s.places|
    && Split(s.places, next)
    && exists phase :: s.handlers == multiset{Handler(next, true, phase)} && Opening(s.places[next], phase)
  }

  ghost predicate Abandoned(s: State) {
    && s.handlers == multiset{}
    && forall k | 0 < k < |s.places| :: s.places[k].received <= 1
  }

  ghost predicate Inv(s: State) {
    && WellFormed(s)
    && (s.settled ==> s.initiator == Listed)
    && match s.initiator
       case Idle => s.handlers == multiset{} && Split(s.places, 0)
       case Sending(next) =>
         0 < next && s.handlers == multiset{} && Split(s.places, next)
             && (next < |s.places| ==> Untouched(s.places[next]))
       case Awaiting(next) => Opened(s, next)
       case Stopped => Abandoned(s) || exists next: nat :: Opened(s, next)
       case Listed =>
         && (forall k | 0 < k < |s.places| :: InPlace(s.places[k]))
         && (forall h | h in s.handlers :: !h.first && (h.phase == Arrived || h.phase == SawCopy))
  }

  lemma SendingOk(s: State)
    requires Inv(s) && s.initiator.Sending? && s.initiator.next < |s.places|
    ensures Inv(InitiatorStep(s, Send))
  {}

  lemma BroadcastingOk(s: State, core: nat)
    requires Inv(s) && s.initiator.Listed?
    ensures Inv(InitiatorStep(s, Broadcast(core)))
  {}

  lemma DisconnectingOk(s: State)
    requires Inv(s) && s.initiator.Awaiting?
    ensures Inv(InitiatorStep(s, Disconnect))
  {
    assert Opened(InitiatorStep(s, Disconnect), s.initiator.next);
  }

  lemma InitiatorStepOk(s: State, step: Step)
    requires Inv(s)
    ensures Inv(InitiatorStep(s, step))
  {
    hide Opened, Abandoned, Receiving;
    if step.Send? && s.initiator.Sending? && s.initiator.next < |s.places| {
      SendingOk(s);
    } else if step.Broadcast? && s.settled {
      BroadcastingOk(s, step.core);
    } else if step.Disconnect? && s.initiator.Awaiting? {
      DisconnectingOk(s);
    } else if !step.Store? && !step.ListAtInitiator? && !step.Settle? {
      assert InitiatorStep(s, step) == s;
    }
  }

  /** The opening request moves on to its next phase. */
  lemma OpeningAdvances(s: State, next: nat, phase: Phase)
    requires Inv(s) && Opened(s, next) && (s.initiator == Awaiting(next) || s.initiator == Stopped)
    requires s.handlers == multiset{Handler(next, true, phase)} && Opening(s.places[next], phase)
    ensures Inv(HandlerStep(s, Check(Handler(next, true, phase))))
    ensures Inv(HandlerStep(s, Insert(Handler(next, true, phase))))
  {
    var h := Handler(next, true, phase);
    if phase == Arrived {
      var s' := HandlerStep(s, Check(h));
      assert s'.handlers == multiset{Handler(next, true, SawNone)} && Opening(s'.places[next], SawNone);
      assert Opened(s', next);
    } else if phase == SawNone {
      var s' := HandlerStep(s, Insert(h));
      assert s'.handlers == multiset{Handler(next, true, Inserted)} && Opening(s'.places[next], Inserted);
      assert Opened(s', next);
    }
  }

  /** The opening request is answered. */
  lemma OpeningEnds(s: State, next: nat, phase: Phase)
    requires Inv(s) && Opened(s, next) && (s.initiator == Awaiting(next) || s.initiator == Stopped)
    requires s.handlers == multiset{Handler(next, true, phase)} && Opening(s.places[next], phase)
    ensures Inv(HandlerStep(s, Refuse(Handler(next, true, phase))))
    ensures Inv(HandlerStep(s, ListCopy(Handler(next, true, phase))))
  {
    assert multiset{Handler(next, true, phase)} - multiset{Handler(next, true, phase)} == multiset{};
  }

  lemma OpeningGoesOn(s: State, step: Step, next: nat)
    requires Inv(s) && Opened(s, next) && (s.initiator == Awaiting(next) || s.initiator == Stopped)
    ensures Inv(HandlerStep(s, step))
  {
    var phase :| s.handlers == multiset{Handler(next, true, phase)} && Opening(s.places[next], phase);
    OpeningAdvances(s, next, phase);
    OpeningEnds(s, next, phase);
    assert HandlerStep(s, step) != s ==> step.handler == Handler(next, true, phase) && !step.Return?;
  }

  lemma ListedGoesOn(s: State, step: Step)
    requires Inv(s) && s.initiator == Listed
    ensures Inv(HandlerStep(s, step))
  {}

  lemma QuietGoesOn(s: State, step: Step)
    requires WellFormed(s) && s.handlers == multiset{}
    ensures HandlerStep(s, step) == s
  {}

  lemma NextOk(s: State, step: Step)
    requires Inv(s)
    ensures Inv(Next(s, step))
  {
    hide InitiatorStep, HandlerStep, Opened, Split;
    InitiatorStepOk(s, step);
    if s.handlers == multiset{} {
      QuietGoesOn(s, step);
    } else {
      match s.initiator
      case Awaiting(next) => OpeningGoesOn(s, step, next);
      case Stopped =>
        var next: nat :| Opened(s, next);
        OpeningGoesOn(s, step, next);
      case Listed => ListedGoesOn(s, step);
    }
  }

  lemma {:induction false} ExecuteOk(s: State, steps: seq<Step>)
    requires Inv(s)
    ensures Inv(Execute(s, steps))
    decreases |steps|
  {
    if steps != [] {
      NextOk(s, steps[0]);
      ExecuteOk(Next(s, steps[0]), steps[1..]);
    }
  }

  lemma ReceivedTwice(s: State, core: nat)
    requires Inv(s) && 0 < core < |s.places| && s.places[core].received >= 2
    ensures InPlace(s.places[core])
  {}

  /** No participant gets a second message before its own copy is stored and listed. */
  lemma SecondMessageFindsListedCopy(n: nat, steps: seq<Step>, core: nat)
    requires 0 < core < n
    ensures var p := Execute(Init(n), steps).places[core];
            p.received >= 2 ==> p.stored && p.listed
  {
    ExecuteOk(Init(n), steps);
    if Execute(Init(n), steps).places[core].received >= 2 { ReceivedTwice(Execute(Init(n), steps), core); }
  }

  /** The check that no copy is stored still holds when the copy is inserted, so the two act as one step. */
  lemma AbsentCheckStaysTrue(n: nat, steps: seq<Step>, h: Handler)
    requires var s := Execute(Init(n), steps); h in s.handlers && h.phase == SawNone
    ensures var s := Execute(Init(n), steps);
            !s.places[h.core].stored && s.handlers == multiset{h}
  {
    ExecuteOk(Init(n), steps);
  }

  /** When the initiator lists the task, every copy is in place. */
  lemma ListedMeansAllInPlace(n: nat, steps: seq<Step>, core: nat)
    requires 0 < core < n && Execute(Init(n), steps).initiator == Listed
    ensures InPlace(Execute(Init(n), steps).places[core])
  {
    ExecuteOk(Init(n), steps);
  }
}
