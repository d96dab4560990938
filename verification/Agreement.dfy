/**
 The multi-party task protocol as a step machine, for one task and any number of cores.

 Core k serves participant k; core 0 is the initiator.  A step is one critical section of
 one handler, or an act of the network.  The merging handler is two steps: `Merge` stores
 the merged decisions and, when they settle the outcome, leaves a `Handler` behind with
 the outcome it computed; `Settle` applies that outcome to whatever copy is stored by then.
 Between the two any other step may happen.

 The network is a bag: messages are delivered in any order, and may be duplicated or lost.
 `faulty` is a history variable: it is raised when something happened that the protocol
 does not recover from (a loss, an expiry, a message refused).  No step reads it.
 */
module Agreement {
  import opened Wrappers
  import opened Tasks

  datatype Core = Core(copy: Option<Task>, listed: bool)

  // A vote sent to the initiator names the task only, so it carries no body.
  datatype Message = Message(to: nat, body: Option<TaskBody>, decisions: seq<Decision>)

  datatype Handler = Handler(core: nat, rejected: bool)

  datatype State = State(
    body: TaskBody,
    cores: seq<Core>,
    network: multiset<Message>,
    handlers: multiset<Handler>,
    facts: set<Fact>,
    faulty: bool)

  datatype Step =
    | CreateTask
    | ListAtInitiator
    | DeliverFirst(message: Message)
    | ListCopy(core: nat)
    | Confirm(core: nat, isApproved: bool, isRejected: bool, reason: string, now: int)
    | Finish(core: nat)
    | Merge(message: Message, now: int)
    | Settle(handler: Handler)
    | Duplicate(message: Message)
    | Lose(message: Message)

  predicate DistinctFromOthers(body: TaskBody, i: nat)
    requires i < |body.participants|
  {
    forall j | 0 <= j < |body.participants| && j != i :: body.participants[j].userId != body.participants[i].userId
  }

  /** There are participants, and no two of them are the same user. */
  predicate WellFormedBody(body: TaskBody) {
    && |body.participants| > 0
    && forall i: nat | i < |body.participants| :: DistinctFromOthers(body, i)
  }

  predicate CoresShaped(body: TaskBody, cores: seq<Core>) {
    && |cores| == |body.participants|
    && forall k | 0 <= k < |cores| && cores[k].copy.Some? ::
         cores[k].copy.value.body == body && |cores[k].copy.value.decisions| == |body.participants|
  }

  predicate NetworkShaped(body: TaskBody, network: multiset<Message>) {
    forall m | m in network ::
      && m.to < |body.participants| == |m.decisions|
      && (m.body.Some? ==> m.body.value == body)
  }

  predicate HandlersShaped(cores: seq<Core>, handlers: multiset<Handler>) {
    forall h | h in handlers :: h.core < |cores| && cores[h.core].copy.Some?
  }

  predicate WellFormed(s: State) {
    && WellFormedBody(s.body)
    && CoresShaped(s.body, s.cores)
    && NetworkShaped(s.body, s.network)
    && HandlersShaped(s.cores, s.handlers)
  }

  function Init(body: TaskBody): State {
    State(body, seq(|body.participants|, i => Core(None, false)), multiset{}, multiset{}, {}, false)
  }

  function User(s: State, k: nat): UserId
    requires k < |s.body.participants|
  {
    s.body.participants[k].userId
  }

  /** One message with these decisions to every core but the initiator's. */
  function ToEveryone(body: TaskBody, decisions: seq<Decision>): (ms: multiset<Message>)
    requires |body.participants| > 0
    ensures forall m :: m in ms <==>
      0 < m.to < |body.participants| && m.body == Some(body) && m.decisions == decisions
  {
    var messages := seq(|body.participants| - 1, i requires 0 <= i => Message(i + 1, Some(body), decisions));
    assert forall m: Message | 0 < m.to < |body.participants| && m.body == Some(body) && m.decisions == decisions ::
      messages[m.to - 1] == m;
    multiset(messages)
  }

  /** The cores after core k has overwritten its copy. */
  function Storing(cores: seq<Core>, k: nat, t: Task): seq<Core>
    requires k < |cores|
  {
    cores[k := cores[k].(copy := Some(t))]
  }

  lemma StoringShaped(body: TaskBody, cores: seq<Core>, handlers: multiset<Handler>, k: nat, t: Task)
    requires CoresShaped(body, cores) && HandlersShaped(cores, handlers) && k < |cores|
    requires t.body == body && |t.decisions| == |body.participants|
    ensures CoresShaped(body, Storing(cores, k, t)) && HandlersShaped(Storing(cores, k, t), handlers)
  {}

  /** Stores the initiator's copy and sends it out; the task is listed only later. */
  function CreateStep(s: State): (s': State)
    requires WellFormed(s)
    ensures WellFormed(s') && s'.body == s.body
  {
    if s.cores[0].copy.Some? then s
    else
      var t := NewTask(s.body);
      s.(
        cores := Storing(s.cores, 0, t),
        network := s.network + ToEveryone(s.body, t.decisions),
        facts := s.facts + {FactOf(User(s, 0), s.body, t.decisions[0])})
  }

  // A forwarded send is not awaited, so the initiator may list the task before every copy is in place.
  function ListAtInitiatorStep(s: State): (s': State)
    requires WellFormed(s)
    ensures WellFormed(s') && s'.body == s.body
  {
    if s.cores[0].copy.None? || s.cores[0].listed then s
    else s.(cores := s.cores[0 := s.cores[0].(listed := true)])
  }

  /** A core without a copy stores the message as a waiting task, if the initiator approved it. */
  function DeliverFirstStep(s: State, m: Message): (s': State)
    requires WellFormed(s)
    ensures WellFormed(s') && s'.body == s.body
  {
    if m !in s.network || s.cores[m.to].copy.Some? then s
    else
      var rest := s.network - multiset{m};
      if
        && m.body.Some?
        && CheckDecision(s.facts, m.decisions[0], User(s, 0), m.body.value).Success?
        && m.decisions[0].isApproved
      then s.(cores := Storing(s.cores, m.to, Task(m.body.value, m.decisions, Waiting)), network := rest)
      else s.(network := rest, faulty := true)
  }

  function ListCopyStep(s: State, k: nat): (s': State)
    requires WellFormed(s)
    ensures WellFormed(s') && s'.body == s.body
  {
    if !(0 < k < |s.cores|) || s.cores[k].copy.None? then s
    else s.(cores := s.cores[k := s.cores[k].(listed := true)])
  }

  predicate CanConfirm(s: State, k: nat, isApproved: bool, isRejected: bool, now: int)
    requires WellFormed(s)
  {
    && k < |s.cores|
    && s.cores[k].copy.Some?
    && VoteStatus(isApproved, isRejected).Some?
    && s.cores[k].copy.value.status == Waiting
    && now <= s.body.expirationTime
    && s.cores[k].listed
  }

  function ConfirmStep(s: State, k: nat, isApproved: bool, isRejected: bool, reason: string, now: int): (s': State)
    requires WellFormed(s)
    ensures WellFormed(s') && s'.body == s.body
  {
    if !CanConfirm(s, k, isApproved, isRejected, now) then s
    else
      var t := Confirmed(s.cores[k].copy.value, User(s, k), isApproved, isRejected, reason);
      s.(
        cores := Storing(s.cores, k, t),
        network :=
          if s.body.requireAgreement && VoteStatus(isApproved, isRejected) != Some(Ignored)
          then s.network + multiset{Message(0, None, t.decisions)}
          else s.network,
        facts := s.facts + {FactOf(User(s, k), s.body, SignedDecision(isApproved, isRejected, reason))})
  }

  function FinishStep(s: State, k: nat): (s': State)
    requires WellFormed(s)
    ensures WellFormed(s') && s'.body == s.body
  {
    if k >= |s.cores| || s.cores[k].copy.None? || s.cores[k].copy.value.status != Started || !s.cores[k].listed then s
    else s.(cores := Storing(s.cores, k, s.cores[k].copy.value.(status := Finished)))
  }

  /** First critical section of the merging handler. */
  function MergeStep(s: State, m: Message, now: int): (s': State)
    requires WellFormed(s)
    ensures WellFormed(s') && s'.body == s.body
  {
    if m !in s.network || s.cores[m.to].copy.None? then s
    else
      var t := s.cores[m.to].copy.value;
      var rest := s.network - multiset{m};
      if !s.body.requireAgreement then s.(network := rest)
      else if now > s.body.expirationTime || !Mergeable(s.facts, s.body, User(s, m.to), m.decisions)
      then s.(network := rest, faulty := true)
      else
        var ds := Merged(t, User(s, m.to), m.decisions);
        StoringShaped(s.body, s.cores, s.handlers, m.to, t.(decisions := ds));
        s.(
          cores := Storing(s.cores, m.to, t.(decisions := ds)),
          network := rest,
          handlers :=
            if t.status != Started && t.status != Rejected && Decided(ds)
            then s.handlers + multiset{Handler(m.to, Count(Rejections, ds) > 0)}
            else s.handlers)
  }

  /** Second critical section: the outcome computed earlier meets the copy stored now. */
  function SettleStep(s: State, h: Handler): (s': State)
    requires WellFormed(s)
    ensures WellFormed(s') && s'.body == s.body
  {
    if h !in s.handlers then s
    else
      var t := s.cores[h.core].copy.value;
      var rest := s.handlers - multiset{h};
      if !s.cores[h.core].listed then s.(handlers := rest)
      else
        var t' := t.(status := if h.rejected then Rejected else Started);
        StoringShaped(s.body, s.cores, rest, h.core, t');
        s.(
          cores := Storing(s.cores, h.core, t'),
          network :=
            if h.core == 0 && |s.cores| > 2 then s.network + ToEveryone(s.body, t.decisions) else s.network,
          handlers := rest)
  }

  function Next(s: State, step: Step): (s': State)
    requires WellFormed(s)
    ensures WellFormed(s') && s'.body == s.body
  {
    match step
    case CreateTask => CreateStep(s)
    case ListAtInitiator => ListAtInitiatorStep(s)
    case DeliverFirst(m) => DeliverFirstStep(s, m)
    case ListCopy(k) => ListCopyStep(s, k)
    case Confirm(k, isApproved, isRejected, reason, now) => ConfirmStep(s, k, isApproved, isRejected, reason, now)
    case Finish(k) => FinishStep(s, k)
    case Merge(m, now) => MergeStep(s, m, now)
    case Settle(h) => SettleStep(s, h)
    case Duplicate(m) => if m in s.network then s.(network := s.network + multiset{m}) else s
    case Lose(m) => if m in s.network then s.(network := s.network - multiset{m}, faulty := true) else s
  }

  /** Every reachable state is the end of some run from the empty cores. */
  function Execute(s: State, steps: seq<Step>): (s': State)
    requires WellFormed(s)
    ensures WellFormed(s') && s'.body == s.body
    decreases |steps|
  {
    if steps == [] then s else Execute(Next(s, steps[0]), steps[1..])
  }

  // ---------------------------------------------------------------- the invariant

  ghost predicate SignedBy(body: TaskBody, facts: set<Fact>, k: nat, d: Decision)
    requires k < |body.participants|
  {
    d.signed && FactOf(body.participants[k].userId, body, d) in facts && !(d.isApproved && d.isRejected)
  }

  ghost predicate HasVoted(facts: set<Fact>, userId: UserId) {
    exists f :: f in facts && f.userId == userId
  }

  ghost predicate AtMostOneVote(facts: set<Fact>, userId: UserId) {
    forall f, g | f in facts && g in facts && f.userId == g.userId == userId :: f == g
  }

  /** Each user has signed at most one vote, and only on this task. */
  ghost predicate VotesAreUnique(body: TaskBody, facts: set<Fact>) {
    && (forall f | f in facts :: f.body == body)
    && (forall userId :: AtMostOneVote(facts, userId))
  }

  /** Slot by slot: the default decision, or the one its participant signed; the initiator's approval is there. */
  ghost predicate Authentic(body: TaskBody, facts: set<Fact>, ds: seq<Decision>) {
    && |ds| == |body.participants| > 0
    && (forall i | 0 <= i < |ds| :: ds[i] == NO_DECISION || SignedBy(body, facts, i, ds[i]))
    && SignedBy(body, facts, 0, ds[0])
    && IsApproval(ds[0])
  }

  ghost predicate CopyOk(body: TaskBody, facts: set<Fact>, k: nat, t: Task)
    requires k < |body.participants|
  {
    && Authentic(body, facts, t.decisions)
    && (t.status == Waiting ==> !HasVoted(facts, body.participants[k].userId))
    && (k == 0 ==> t.status != Waiting)
    && (HasVoted(facts, body.participants[k].userId) ==> t.decisions[k] != NO_DECISION)
    && (body.requireAgreement && (t.status == Started || t.status == Finished) ==> AllApproved(t.decisions))
    && (t.status == Rejected ==> AnyRejected(t.decisions))
  }

  ghost predicate CoreOk(body: TaskBody, facts: set<Fact>, k: nat, core: Core)
    requires k < |body.participants|
  {
    match core.copy
    case None => !HasVoted(facts, body.participants[k].userId) && !core.listed
    case Some(t) => CopyOk(body, facts, k, t)
  }

  ghost predicate CoresOk(body: TaskBody, facts: set<Fact>, cores: seq<Core>) {
    && CoresShaped(body, cores)
    && forall k: nat | k < |cores| :: CoreOk(body, facts, k, cores[k])
  }

  ghost predicate NetworkOk(body: TaskBody, facts: set<Fact>, network: multiset<Message>) {
    && NetworkShaped(body, network)
    && forall m | m in network :: Authentic(body, facts, m.decisions) && (m.body.None? ==> m.to == 0)
  }

  /** The outcome each handler computed is still what the stored decisions say. */
  ghost predicate HandlersOk(cores: seq<Core>, handlers: multiset<Handler>) {
    && HandlersShaped(cores, handlers)
    && forall h | h in handlers ::
         var ds := cores[h.core].copy.value.decisions;
         if h.rejected then AnyRejected(ds) else AllApproved(ds)
  }

  ghost predicate Inv(s: State) {
    && WellFormedBody(s.body)
    && VotesAreUnique(s.body, s.facts)
    && CoresOk(s.body, s.facts, s.cores)
    && NetworkOk(s.body, s.facts, s.network)
    && HandlersOk(s.cores, s.handlers)
    && (s.cores[0].copy.None? ==> s.network == multiset{})
    && (!s.body.requireAgreement ==> s.handlers == multiset{})
  }

  // ---------------------------------------------------------------- every step keeps it

  /** A vector that only fills empty slots. */
  ghost predicate Keeps(ds: seq<Decision>, ds': seq<Decision>) {
    |ds| == |ds'| && forall i | 0 <= i < |ds| && ds[i] != NO_DECISION :: ds'[i] == ds[i]
  }

  lemma KeepsOutcome(ds: seq<Decision>, ds': seq<Decision>)
    requires Keeps(ds, ds')
    ensures AllApproved(ds) ==> AllApproved(ds')
    ensures AnyRejected(ds) ==> AnyRejected(ds')
  {}

  /** Two authentic vectors cannot tell different outcomes: they would disagree on somebody's only vote. */
  lemma OutcomesExclude(body: TaskBody, facts: set<Fact>, ds: seq<Decision>, es: seq<Decision>)
    requires VotesAreUnique(body, facts) && Authentic(body, facts, ds) && Authentic(body, facts, es)
    ensures AllApproved(ds) ==> !AnyRejected(es)
  {
    forall i | 0 <= i < |ds| && IsApproval(ds[i]) ensures !IsRejection(es[i]) {
      assert AtMostOneVote(facts, body.participants[i].userId);
      assert SignedBy(body, facts, i, ds[i]);
      assert es[i] == NO_DECISION || SignedBy(body, facts, i, es[i]);
    }
  }

  /** New facts may only be votes of user k. */
  ghost predicate OnlyVoter(body: TaskBody, facts: set<Fact>, facts': set<Fact>, k: nat)
    requires k < |body.participants|
  {
    && facts <= facts'
    && forall f | f in facts' && f !in facts :: f.userId == body.participants[k].userId
  }

  lemma StoringOk(body: TaskBody, facts: set<Fact>, facts': set<Fact>, cores: seq<Core>, k: nat, t: Task)
    requires WellFormedBody(body) && k < |body.participants| && OnlyVoter(body, facts, facts', k)
    requires CoresOk(body, facts, cores)
    requires t.body == body && CopyOk(body, facts', k, t)
    ensures CoresOk(body, facts', Storing(cores, k, t))
  {
    assert DistinctFromOthers(body, k);
    forall j: nat | j < |cores| && j != k ensures CoreOk(body, facts', j, cores[j]) {
      assert CoreOk(body, facts, j, cores[j]);
    }
  }

  lemma NetworkGrowsOk(body: TaskBody, facts: set<Fact>, facts': set<Fact>, network: multiset<Message>)
    requires NetworkOk(body, facts, network) && facts <= facts'
    ensures NetworkOk(body, facts', network)
  {}

  lemma NetworkPlusOk(body: TaskBody, facts: set<Fact>, network: multiset<Message>, more: multiset<Message>)
    requires NetworkOk(body, facts, network) && NetworkOk(body, facts, more)
    ensures NetworkOk(body, facts, network + more)
  {}

  lemma NetworkMinusOk(body: TaskBody, facts: set<Fact>, network: multiset<Message>, m: Message)
    requires NetworkOk(body, facts, network)
    ensures NetworkOk(body, facts, network - multiset{m})
  {}

  lemma HandlersKeptOk(cores: seq<Core>, handlers: multiset<Handler>, k: nat, t: Task)
    requires HandlersOk(cores, handlers) && k < |cores|
    requires cores[k].copy.Some? ==> Keeps(cores[k].copy.value.decisions, t.decisions)
    ensures HandlersOk(Storing(cores, k, t), handlers)
  {}

  lemma HandlersPlusOk(cores: seq<Core>, handlers: multiset<Handler>, h: Handler)
    requires HandlersOk(cores, handlers) && h.core < |cores| && cores[h.core].copy.Some?
    requires var ds := cores[h.core].copy.value.decisions; if h.rejected then AnyRejected(ds) else AllApproved(ds)
    ensures HandlersOk(cores, handlers + multiset{h})
  {}

  lemma HandlersMinusOk(cores: seq<Core>, handlers: multiset<Handler>, h: Handler)
    requires HandlersOk(cores, handlers)
    ensures HandlersOk(cores, handlers - multiset{h})
  {}

  lemma FirstVoteOk(body: TaskBody, facts: set<Fact>, f: Fact)
    requires VotesAreUnique(body, facts) && !HasVoted(facts, f.userId) && f.body == body
    ensures VotesAreUnique(body, facts + {f})
  {
    forall userId ensures AtMostOneVote(facts + {f}, userId) { assert AtMostOneVote(facts, userId); }
  }

  lemma InitOk(body: TaskBody)
    requires WellFormedBody(body)
    ensures Inv(Init(body))
  {}

  lemma NewTaskOk(body: TaskBody, facts: set<Fact>)
    requires WellFormedBody(body) && VotesAreUnique(body, facts)
    requires !HasVoted(facts, body.participants[0].userId)
    ensures var t := NewTask(body);
            var facts' := facts + {FactOf(body.participants[0].userId, body, t.decisions[0])};
            CopyOk(body, facts', 0, t) && VotesAreUnique(body, facts')
  {
    var t := NewTask(body);
    var f := FactOf(body.participants[0].userId, body, t.decisions[0]);
    assert f in facts + {f};
    FirstVoteOk(body, facts, f);
  }

  lemma CreateOk(s: State)
    requires Inv(s)
    ensures Inv(CreateStep(s))
  {
    if s.cores[0].copy.None? {
      assert CoreOk(s.body, s.facts, 0, s.cores[0]);
      NewTaskOk(s.body, s.facts);
      var t := NewTask(s.body);
      var facts' := s.facts + {FactOf(User(s, 0), s.body, t.decisions[0])};
      StoringOk(s.body, s.facts, facts', s.cores, 0, t);
      NetworkGrowsOk(s.body, s.facts, facts', s.network);
      NetworkPlusOk(s.body, facts', s.network, ToEveryone(s.body, t.decisions));
      HandlersKeptOk(s.cores, s.handlers, 0, t);
    }
  }

  lemma DeliverFirstOk(s: State, m: Message)
    requires Inv(s)
    ensures Inv(DeliverFirstStep(s, m))
  {
    if m in s.network && s.cores[m.to].copy.None? {
      assert CoreOk(s.body, s.facts, m.to, s.cores[m.to]);
      var t := Task(s.body, m.decisions, Waiting);
      StoringOk(s.body, s.facts, s.facts, s.cores, m.to, t);
      NetworkMinusOk(s.body, s.facts, s.network, m);
      HandlersKeptOk(s.cores, s.handlers, m.to, t);
    }
  }

  /** What a vote does to the voter's copy, whatever the other cores hold. */
  lemma ConfirmedCopyOk(body: TaskBody, facts: set<Fact>, k: nat, t: Task, isApproved: bool, isRejected: bool,
                        reason: string)
    requires WellFormedBody(body) && k < |body.participants| && t.body == body
    requires CopyOk(body, facts, k, t) && VotesAreUnique(body, facts) && t.status == Waiting
    requires VoteStatus(isApproved, isRejected).Some?
    ensures var userId := body.participants[k].userId;
            var t' := Confirmed(t, userId, isApproved, isRejected, reason);
            var facts' := facts + {Fact(userId, body, isApproved, isRejected, reason)};
            && t'.decisions == t.decisions[k := Decision(isApproved, isRejected, reason, true)]
            && Keeps(t.decisions, t'.decisions)
            && CopyOk(body, facts', k, t')
            && VotesAreUnique(body, facts')
  {
    var userId := body.participants[k].userId;
    var d := SignedDecision(isApproved, isRejected, reason);
    var t' := Confirmed(t, userId, isApproved, isRejected, reason);
    assert DistinctFromOthers(body, k);
    assert t'.decisions == t.decisions[k := d];
    assert t'.decisions[k] == d;
    assert FactOf(userId, body, d) in facts + {FactOf(userId, body, d)};
    FirstVoteOk(body, facts, FactOf(userId, body, d));
    assert t.decisions[k] == NO_DECISION;
    StartTests(t'.decisions);
  }

  lemma ConfirmOk(s: State, k: nat, isApproved: bool, isRejected: bool, reason: string, now: int)
    requires Inv(s)
    ensures Inv(ConfirmStep(s, k, isApproved, isRejected, reason, now))
  {
    if CanConfirm(s, k, isApproved, isRejected, now) {
      var t := s.cores[k].copy.value;
      assert CoreOk(s.body, s.facts, k, s.cores[k]);
      ConfirmedCopyOk(s.body, s.facts, k, t, isApproved, isRejected, reason);
      var t' := Confirmed(t, User(s, k), isApproved, isRejected, reason);
      var facts' := s.facts + {FactOf(User(s, k), s.body, SignedDecision(isApproved, isRejected, reason))};
      StoringOk(s.body, s.facts, facts', s.cores, k, t');
      NetworkGrowsOk(s.body, s.facts, facts', s.network);
      NetworkPlusOk(s.body, facts', s.network, multiset{Message(0, None, t'.decisions)});
      HandlersKeptOk(s.cores, s.handlers, k, t');
    }
  }

  /** Merging authentic decisions never fails, fills empty slots only and spares the user's own slot. */
  lemma MergedCopyOk(body: TaskBody, facts: set<Fact>, k: nat, t: Task, incoming: seq<Decision>)
    requires k < |body.participants| && t.body == body
    requires CopyOk(body, facts, k, t) && VotesAreUnique(body, facts) && Authentic(body, facts, incoming)
    ensures Mergeable(facts, body, body.participants[k].userId, incoming)
    ensures var ds := Merged(t, body.participants[k].userId, incoming);
            && Keeps(t.decisions, ds)
            && ds[k] == t.decisions[k]
            && CopyOk(body, facts, k, t.(decisions := ds))
            && (Decided(ds) <==> AllApproved(ds) || AnyRejected(ds))
            && (Count(Rejections, ds) > 0 <==> AnyRejected(ds))
  {
    var ds := Merged(t, body.participants[k].userId, incoming);
    forall i | 0 <= i < |ds| && t.decisions[i] != NO_DECISION ensures ds[i] == t.decisions[i] {
      assert AtMostOneVote(facts, body.participants[i].userId);
      assert SignedBy(body, facts, i, t.decisions[i]);
    }
    KeepsOutcome(t.decisions, ds);
    StartTests(ds);
  }

  /** The copy and the handlers after a merge, apart from the message that brought it. */
  lemma MergedStateOk(body: TaskBody, facts: set<Fact>, cores: seq<Core>, handlers: multiset<Handler>, k: nat,
                      incoming: seq<Decision>)
    requires WellFormedBody(body) && VotesAreUnique(body, facts) && CoresOk(body, facts, cores)
             && HandlersOk(cores, handlers)
    requires k < |cores| && cores[k].copy.Some? && Authentic(body, facts, incoming)
    ensures var t := cores[k].copy.value;
            var ds := Merged(t, body.participants[k].userId, incoming);
            var cores' := Storing(cores, k, t.(decisions := ds));
            && Mergeable(facts, body, body.participants[k].userId, incoming)
            && CoresOk(body, facts, cores')
            && HandlersOk(cores', handlers)
            && (Decided(ds) ==> HandlersOk(cores', handlers + multiset{Handler(k, Count(Rejections, ds) > 0)}))
  {
    var t := cores[k].copy.value;
    assert CoreOk(body, facts, k, cores[k]);
    MergedCopyOk(body, facts, k, t, incoming);
    var t' := t.(decisions := Merged(t, body.participants[k].userId, incoming));
    StoringOk(body, facts, facts, cores, k, t');
    HandlersKeptOk(cores, handlers, k, t');
    if Decided(t'.decisions) {
      HandlersPlusOk(Storing(cores, k, t'), handlers, Handler(k, Count(Rejections, t'.decisions) > 0));
    }
  }

  lemma InvIsWellFormed(s: State)
    requires Inv(s)
    ensures WellFormed(s)
  {}

  lemma MergeOk(s: State, m: Message, now: int)
    requires Inv(s)
    ensures Inv(MergeStep(s, m, now))
  {
    InvIsWellFormed(s);
    hide CoresOk, HandlersOk, Merged, Mergeable, Decided, Authentic, VotesAreUnique, DistinctFromOthers;
    if m in s.network && s.cores[m.to].copy.Some? {
      NetworkMinusOk(s.body, s.facts, s.network, m);
      MergedStateOk(s.body, s.facts, s.cores, s.handlers, m.to, m.decisions);
    }
  }

  lemma SettleOk(s: State, h: Handler)
    requires Inv(s)
    ensures Inv(SettleStep(s, h))
  {
    if h in s.handlers {
      var t := s.cores[h.core].copy.value;
      var t' := t.(status := if h.rejected then Rejected else Started);
      assert CoreOk(s.body, s.facts, h.core, s.cores[h.core]);
      StoringOk(s.body, s.facts, s.facts, s.cores, h.core, t');
      NetworkPlusOk(s.body, s.facts, s.network, ToEveryone(s.body, t.decisions));
      HandlersMinusOk(s.cores, s.handlers, h);
      HandlersKeptOk(s.cores, s.handlers - multiset{h}, h.core, t');
    }
  }

  lemma FinishOk(s: State, k: nat)
    requires Inv(s)
    ensures Inv(FinishStep(s, k))
  {
    if k < |s.cores| && s.cores[k].copy.Some? {
      var t := s.cores[k].copy.value;
      assert CoreOk(s.body, s.facts, k, s.cores[k]);
      if t.status == Started {
        StoringOk(s.body, s.facts, s.facts, s.cores, k, t.(status := Finished));
        HandlersKeptOk(s.cores, s.handlers, k, t.(status := Finished));
      }
    }
  }

  lemma ListingOk(body: TaskBody, facts: set<Fact>, cores: seq<Core>, handlers: multiset<Handler>, k: nat)
    requires CoresOk(body, facts, cores) && HandlersOk(cores, handlers) && k < |cores| && cores[k].copy.Some?
    ensures CoresOk(body, facts, cores[k := cores[k].(listed := true)])
    ensures HandlersOk(cores[k := cores[k].(listed := true)], handlers)
  {}

  lemma ListAtInitiatorOk(s: State)
    requires Inv(s)
    ensures Inv(ListAtInitiatorStep(s))
  {
    if s.cores[0].copy.Some? { ListingOk(s.body, s.facts, s.cores, s.handlers, 0); }
  }

  lemma ListCopyOk(s: State, k: nat)
    requires Inv(s)
    ensures Inv(ListCopyStep(s, k))
  {}

  lemma DuplicateOk(s: State, m: Message)
    requires Inv(s) && m in s.network
    ensures Inv(s.(network := s.network + multiset{m}))
  {}

  lemma LoseOk(s: State, m: Message)
    requires Inv(s) && m in s.network
    ensures Inv(s.(network := s.network - multiset{m}, faulty := true))
  {}

  lemma NextOk(s: State, step: Step)
    requires Inv(s)
    ensures Inv(Next(s, step))
  {
    hide Inv, WellFormed, CreateStep, ListAtInitiatorStep, DeliverFirstStep, ListCopyStep, ConfirmStep, FinishStep,
        MergeStep, SettleStep;
    InvIsWellFormed(s);
    match step
    case CreateTask => CreateOk(s);
    case ListAtInitiator => ListAtInitiatorOk(s);
    case DeliverFirst(m) => DeliverFirstOk(s, m);
    case ListCopy(k) => ListCopyOk(s, k);
    case Confirm(k, isApproved, isRejected, reason, now) => ConfirmOk(s, k, isApproved, isRejected, reason, now);
    case Finish(k) => FinishOk(s, k);
    case Merge(m, now) => MergeOk(s, m, now);
    case Settle(h) => SettleOk(s, h);
    case Duplicate(m) => if m in s.network { DuplicateOk(s, m); }
    case Lose(m) => if m in s.network { LoseOk(s, m); }
  }

  lemma {:induction false} ExecuteOk(s: State, steps: seq<Step>)
    requires Inv(s)
    ensures Inv(Execute(s, steps))
    decreases |steps|
  {
    if steps != [] {
      NextOk(s, steps[0]);
      ExecuteOk(Next(s, steps[0]), steps[1..]);
    }
  }
}
