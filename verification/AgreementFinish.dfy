/**
 When a finished copy stays finished.  One step reopens it: a settling handler that meets it.  Such
 a handler is left behind by every unexpired message about the task that still arrives.  As long as
 no message is repeated, none does.
 */
module AgreementFinish {
  import opened Wrappers
  import opened Tasks
  import opened Agreement
  import opened AgreementTheorems
  import opened AgreementOutcome

  predicate IsFinished(s: State, k: nat)
    requires WellFormed(s)
  {
    k < |s.cores| && s.cores[k].copy.Some? && s.cores[k].copy.value.status == Finished
  }

  /** The one kind of step that writes an outcome on a listed copy. */
  predicate Settles(s: State, step: Step, k: nat)
    requires WellFormed(s) && k < |s.cores|
  {
    step.Settle? && step.handler in s.handlers && step.handler.core == k && s.cores[k].listed
  }

  lemma FinishedWhileVoting(s: State, k: nat, c: nat, isApproved: bool, isRejected: bool, reason: string, now: int)
    requires WellFormed(s) && IsFinished(s, k)
    ensures IsFinished(ConfirmStep(s, c, isApproved, isRejected, reason, now), k)
    ensures IsFinished(FinishStep(s, c), k)
  {
    hide Confirmed;
  }

  lemma FinishedWhileListing(s: State, k: nat, c: nat)
    requires WellFormed(s) && IsFinished(s, k)
    ensures IsFinished(CreateStep(s), k)
    ensures IsFinished(ListAtInitiatorStep(s), k)
    ensures IsFinished(ListCopyStep(s, c), k)
  {
    hide NewTask, ToEveryone;
  }

  lemma FinishedWhileReceiving(s: State, k: nat, m: Message)
    requires WellFormed(s) && IsFinished(s, k)
    ensures IsFinished(DeliverFirstStep(s, m), k)
  {
    hide CheckDecision;
  }

  lemma FinishedWhileMerging(s: State, k: nat, m: Message, now: int)
    requires WellFormed(s) && IsFinished(s, k)
    ensures IsFinished(MergeStep(s, m, now), k)
  {
    hide Merged, Mergeable, Decided, Count;
  }

  lemma FinishedUnlessSettling(s: State, k: nat, h: Handler)
    requires WellFormed(s) && IsFinished(s, k)
    ensures IsFinished(SettleStep(s, h), k) <==> !Settles(s, Settle(h), k)
  {
    hide ToEveryone;
  }

  /** Whatever happens next, a finished copy stays finished exactly if this is not a settling handler that meets it. */
  lemma FinishedUntilSettled(s: State, step: Step, k: nat)
    requires WellFormed(s) && IsFinished(s, k)
    ensures IsFinished(Next(s, step), k) <==> !Settles(s, step, k)
  {
    hide WellFormed, CreateStep, ListAtInitiatorStep, DeliverFirstStep, ListCopyStep, ConfirmStep, FinishStep,
        MergeStep, SettleStep;
    match step
    case CreateTask => FinishedWhileListing(s, k, k);
    case ListAtInitiator => FinishedWhileListing(s, k, k);
    case DeliverFirst(m) => FinishedWhileReceiving(s, k, m);
    case ListCopy(c) => FinishedWhileListing(s, k, c);
    case Confirm(c, isApproved, isRejected, reason, now) => FinishedWhileVoting(s, k, c, isApproved, isRejected, reason,
        now);
    case Finish(c) => FinishedWhileVoting(s, k, c, true, false, "", 0);
    case Merge(m, now) => FinishedWhileMerging(s, k, m, now);
    case Settle(h) => FinishedUnlessSettling(s, k, h);
    case Duplicate(m) =>
    case Lose(m) =>
  }

  /**
   A message about a finished task leaves a handler behind exactly when the task needs an agreement
   and has not expired.
   */
  lemma LateMessageReopens(s: State, m: Message, now: int)
    requires Inv(s) && m in s.network && IsFinished(s, m.to)
    ensures MergeStep(s, m, now).handlers != s.handlers <==> s.body.requireAgreement && now <= s.body.expirationTime
  {
    var t := s.cores[m.to].copy.value;
    assert CoreOk(s.body, s.facts, m.to, s.cores[m.to]);
    MergedCopyOk(s.body, s.facts, m.to, t, m.decisions);
    KeepsOutcome(t.decisions, Merged(t, User(s, m.to), m.decisions));
    forall handlers: multiset<Handler>, h: Handler ensures (handlers + multiset{h})[h] != handlers[h] {}
  }

  // ---------------------------------------------------------------- runs without repeated messages

  ghost predicate NeverRefused(facts: set<Fact>, userId: UserId) {
    forall f | f in facts && f.userId == userId :: f.isRejected ==> f.isApproved
  }

  ghost predicate NoRefusals(body: TaskBody, facts: set<Fact>) {
    forall k: nat | k < |body.participants| :: NeverRefused(facts, body.participants[k].userId)
  }

  predicate RunningAt(cores: seq<Core>, k: nat) {
    k < |cores| && cores[k].copy.Some?
        && (cores[k].copy.value.status == Started || cores[k].copy.value.status == Finished)
  }

  /** Apart from the initiator's slot, only this one may be filled. */
  predicate OnlyOwn(ds: seq<Decision>, k: nat) {
    forall i | 0 < i < |ds| && i != k :: ds[i] == NO_DECISION
  }

  /** A vote that the initiator has not merged yet. */
  predicate IsNewVote(cores: seq<Core>, m: Message, j: nat) {
    && 0 < j < |m.decisions| && m.decisions[j] != NO_DECISION && OnlyOwn(m.decisions, j)
    && |cores| > 0 && cores[0].copy.Some? && j < |cores[0].copy.value.decisions|
    && cores[0].copy.value.decisions[j] == NO_DECISION
  }

  ghost predicate VotesOnce(cores: seq<Core>, network: multiset<Message>) {
    forall m | m in network && m.to == 0 :: network[m] == 1 && m.body.None? && exists j: nat :: IsNewVote(cores, m, j)
  }

  predicate IsRequest(body: TaskBody, cores: seq<Core>, m: Message)
    requires |body.participants| > 0
  {
    m.to < |cores| && cores[m.to].copy.None? && m == Message(m.to, Some(body), NewTask(body).decisions)
  }

  /** The outcome, on its way to a core that has neither written it nor started to. */
  predicate IsLastOutcome(cores: seq<Core>, handlers: multiset<Handler>, m: Message) {
    && m.to < |cores| && |cores| > 2 && RunningAt(cores, 0) && AllApproved(m.decisions)
    && !RunningAt(cores, m.to) && Handler(m.to, false) !in handlers
  }

  predicate SentOnce(body: TaskBody, cores: seq<Core>, network: multiset<Message>, handlers: multiset<Handler>)
    requires |body.participants| > 0
  {
    forall m | m in network && m.to > 0 ::
        network[m] == 1 && (IsRequest(body, cores, m) || IsLastOutcome(cores, handlers, m))
  }

  predicate CopiesPlain(cores: seq<Core>) {
    forall k | 0 < k < |cores| && cores[k].copy.Some? ::
      AllApproved(cores[k].copy.value.decisions) || OnlyOwn(cores[k].copy.value.decisions, k)
  }

  predicate HandlersOnce(cores: seq<Core>, handlers: multiset<Handler>) {
    forall h | h in handlers ::
      && handlers[h] == 1 && !h.rejected && !RunningAt(cores, h.core)
      && (h.core > 0 ==> |cores| > 2 && RunningAt(cores, 0))
  }

  ghost predicate InitiatorFirst(cores: seq<Core>) {
    |cores| > 2 && !RunningAt(cores, 0) ==> forall k: nat :: !RunningAt(cores, k)
  }

  /** Every vote, every outcome and every handler is there at most once. */
  ghost predicate AllOnce(body: TaskBody, cores: seq<Core>, network: multiset<Message>, handlers: multiset<Handler>)
    requires |body.participants| > 0
  {
    && VotesOnce(cores, network)
    && SentOnce(body, cores, network, handlers)
    && CopiesPlain(cores)
    && HandlersOnce(cores, handlers)
    && InitiatorFirst(cores)
  }

  ghost predicate Once(s: State)
    requires WellFormed(s)
  {
    s.body.requireAgreement && NoRefusals(s.body, s.facts) ==> AllOnce(s.body, s.cores, s.network, s.handlers)
  }

  lemma NobodyRefused(body: TaskBody, facts: set<Fact>, ds: seq<Decision>)
    requires NoRefusals(body, facts) && Authentic(body, facts, ds)
    ensures !AnyRejected(ds)
  {
    forall i | 0 <= i < |ds| ensures !IsRejection(ds[i]) {
      assert NeverRefused(facts, body.participants[i].userId);
      assert ds[i] == NO_DECISION || SignedBy(body, facts, i, ds[i]);
    }
  }

  lemma RefusalsStay(body: TaskBody, facts: set<Fact>, facts': set<Fact>)
    requires facts <= facts' && NoRefusals(body, facts')
    ensures NoRefusals(body, facts)
  {
    forall k: nat | k < |body.participants| ensures NeverRefused(facts, body.participants[k].userId) {
      assert NeverRefused(facts', body.participants[k].userId);
    }
  }

  lemma EveryoneOnce(body: TaskBody, ds: seq<Decision>)
    requires |body.participants| > 0
    ensures forall m | m in ToEveryone(body, ds) :: ToEveryone(body, ds)[m] == 1
  {
    var messages := seq(|body.participants| - 1, i requires 0 <= i => Message(i + 1, Some(body), ds));
    DistinctOnce(messages);
  }

  lemma {:induction false} DistinctOnce(ms: seq<Message>)
    requires forall i, j | 0 <= i < j < |ms| :: ms[i] != ms[j]
    ensures forall m | m in ms :: multiset(ms)[m] == 1
  {
    if ms != [] {
      var init, last := ms[..|ms| - 1], ms[|ms| - 1];
      DistinctOnce(init);
      assert ms == init + [last];
    }
  }

  lemma CreatedOnce(body: TaskBody, cores: seq<Core>)
    requires 0 < |body.participants| == |cores| && forall k | 0 <= k < |cores| :: cores[k].copy.None?
    ensures var t := NewTask(body);
            AllOnce(body, Storing(cores, 0, t), ToEveryone(body, t.decisions), multiset{})
  {
    EveryoneOnce(body, NewTask(body).decisions);
    hide OnlyOwn, AllApproved, NewTask;
  }

  lemma NoHandlersYet(cores: seq<Core>, handlers: multiset<Handler>)
    requires HandlersShaped(cores, handlers) && forall k | 0 <= k < |cores| :: cores[k].copy.None?
    ensures handlers == multiset{}
  {}

  lemma CreateOnce(s: State)
    requires Inv(s) && Once(s) && s.body.requireAgreement
    ensures Once(CreateStep(s))
  {
    if s.cores[0].copy.None? && NoRefusals(s.body, CreateStep(s).facts) {
      forall k: nat | k < |s.cores| ensures s.cores[k].copy.None? {
        if s.cores[k].copy.Some? { CopyMeansCreated(s, k); }
      }
      NoHandlersYet(s.cores, s.handlers);
      hide NewTask, AllOnce, ToEveryone;
      CreatedOnce(s.body, s.cores);
      assert s.network + ToEveryone(s.body, NewTask(s.body).decisions) == ToEveryone(s.body, NewTask(s.body).decisions);
    }
  }

  /** Fewer messages and handlers, and the same copies, are still there at most once. */
  lemma FewerOnce(body: TaskBody, cores: seq<Core>, network: multiset<Message>, network': multiset<Message>,
                  handlers: multiset<Handler>, handlers': multiset<Handler>)
    requires |body.participants| > 0 && AllOnce(body, cores, network, handlers)
    requires network' <= network && handlers' <= handlers
    ensures AllOnce(body, cores, network', handlers')
  {
    hide OnlyOwn, AllApproved, RunningAt, NewTask;
  }

  /** The copies hold the same decisions, and the same of them are running. */
  predicate SameKnowledge(cores: seq<Core>, cores': seq<Core>) {
    && |cores| == |cores'|
    && forall k: nat | k < |cores| ::
         && (RunningAt(cores', k) <==> RunningAt(cores, k))
         && (cores'[k].copy.Some? <==> cores[k].copy.Some?)
         && (cores[k].copy.Some? ==> cores'[k].copy.value.decisions == cores[k].copy.value.decisions)
  }

  lemma SameKnowledgeOnce(body: TaskBody, cores: seq<Core>, cores': seq<Core>, network: multiset<Message>,
                          handlers: multiset<Handler>)
    requires |body.participants| > 0 && AllOnce(body, cores, network, handlers) && SameKnowledge(cores, cores')
    ensures AllOnce(body, cores', network, handlers)
  {
    hide OnlyOwn, AllApproved, NewTask;
    forall m | m in network && m.to == 0 ensures exists j: nat :: IsNewVote(cores', m, j) {
      var j: nat :| IsNewVote(cores, m, j);
      assert IsNewVote(cores', m, j);
    }
    forall k: nat ensures RunningAt(cores', k) <==> RunningAt(cores, k) {}
    hide RunningAt;
    assert forall m | m in network && m.to > 0 :: IsRequest(body, cores, m) ==> IsRequest(body, cores', m);
  }

  /** The votes under way, while the initiator's decisions stay as they are. */
  lemma VotesElsewhere(cores: seq<Core>, cores': seq<Core>, network: multiset<Message>, network': multiset<Message>)
    requires VotesOnce(cores, network) && network' <= network && 0 < |cores| == |cores'|
    requires cores[0].copy.Some? ==>
               cores'[0].copy.Some? && cores'[0].copy.value.decisions == cores[0].copy.value.decisions
    ensures VotesOnce(cores', network')
  {
    hide OnlyOwn;
    forall x | x in network' && x.to == 0
      ensures network'[x] == 1 && x.body.None? && exists j: nat :: IsNewVote(cores', x, j)
    {
      var j: nat :| IsNewVote(cores, x, j);
      assert IsNewVote(cores', x, j);
    }
  }

  /** A core gets its first copy by the request, which is then gone. */
  lemma FirstCopyOnce(body: TaskBody, cores: seq<Core>, network: multiset<Message>, handlers: multiset<Handler>,
                      m: Message)
    requires |body.participants| > 0 && AllOnce(body, cores, network, handlers)
    requires m in network && m.to > 0 && IsRequest(body, cores, m) && cores[0].copy.Some?
    ensures AllOnce(body, Storing(cores, m.to, Task(body, m.decisions, Waiting)), network - multiset{m}, handlers)
  {
    var cores' := Storing(cores, m.to, Task(body, m.decisions, Waiting));
    var network' := network - multiset{m};
    assert OnlyOwn(m.decisions, m.to);
    VotesElsewhere(cores, cores', network, network');
    hide OnlyOwn, AllApproved, NewTask, VotesOnce;
    forall k: nat ensures RunningAt(cores', k) <==> RunningAt(cores, k) {}
    hide RunningAt;
    assert forall x | x in network' && x.to > 0 && IsRequest(body, cores, x) :: x.to != m.to;
  }

  lemma DeliverFirstOnce(s: State, m: Message)
    requires Inv(s) && Once(s)
    ensures Once(DeliverFirstStep(s, m))
  {
    if m in s.network && s.cores[m.to].copy.None? && s.body.requireAgreement && NoRefusals(s.body, s.facts) {
      RequestComesFirst(s, m);
      FirstCopyOnce(s.body, s.cores, s.network, s.handlers, m);
      hide Inv, AllOnce, CheckDecision, NewTask;
      FewerOnce(s.body, s.cores, s.network, s.network - multiset{m}, s.handlers, s.handlers);
    }
  }

  lemma RequestComesFirst(s: State, m: Message)
    requires Inv(s) && Once(s) && s.body.requireAgreement && NoRefusals(s.body, s.facts)
    requires m in s.network && s.cores[m.to].copy.None?
    ensures m.to > 0 && IsRequest(s.body, s.cores, m) && s.cores[0].copy.Some?
  {
    hide NewTask;
    assert CoreOk(s.body, s.facts, m.to, s.cores[m.to]);
    assert m.to > 0;
    SlotIsEmpty(s.body, s.facts, m.decisions, m.to);
  }

  /** A core votes: its vote is a new one, and only with two cores does it start the task here. */
  lemma VotedOnce(body: TaskBody, cores: seq<Core>, network: multiset<Message>, network': multiset<Message>,
                  handlers: multiset<Handler>,
                  k: nat, t: Task, t': Task, d: Decision)
    requires |body.participants| > 0 && AllOnce(body, cores, network, handlers)
    requires 0 < k < |cores| == |t.decisions| && cores[k].copy == Some(t) && t.status == Waiting
    requires t.decisions[k] == NO_DECISION && t'.decisions == t.decisions[k := d] && d != NO_DECISION
    requires t'.status == Started || t'.status == Finished ==> AllApproved(t'.decisions)
    requires cores[0].copy.Some? && |cores[0].copy.value.decisions| == |cores|
             && cores[0].copy.value.decisions[k] == NO_DECISION
    requires RunningAt(cores, 0) ==> AllApproved(cores[0].copy.value.decisions)
    requires var vote := Message(0, None, t'.decisions);
             network' == network || (network' == network + multiset{vote} && vote !in network)
    ensures AllOnce(body, Storing(cores, k, t'), network', handlers)
  {
    var cores' := Storing(cores, k, t');
    assert OnlyOwn(t.decisions, k) by { assert !IsApproval(t.decisions[k]); }
    assert OnlyOwn(t'.decisions, k) && t'.decisions[k] == d;
    assert RunningAt(cores', k) ==> |cores| == 2 by {
      assert |cores| > 2 ==> t'.decisions[if k == 1 then 2 else 1] == NO_DECISION;
    }
    assert !RunningAt(cores, 0) by { assert !IsApproval(cores[0].copy.value.decisions[k]); }
    hide OnlyOwn, AllApproved, NewTask;
    NewVoteOnce(cores, cores', network, network', Message(0, None, t'.decisions), k);
    hide IsNewVote, VotesOnce;
    forall j: nat | j != k ensures RunningAt(cores', j) <==> RunningAt(cores, j) {}
    hide RunningAt;
  }

  lemma NewVoteOnce(cores: seq<Core>, cores': seq<Core>, network: multiset<Message>, network': multiset<Message>,
                    vote: Message, k: nat)
    requires VotesOnce(cores, network) && 0 < |cores| == |cores'| && cores[0] == cores'[0]
    requires IsNewVote(cores', vote, k) && vote.body.None?
    requires network' == network || (network' == network + multiset{vote} && vote !in network)
    ensures VotesOnce(cores', network')
  {
    VotesElsewhere(cores, cores', network, network);
    hide IsNewVote;
  }

  /** Whoever has not voted is not in anybody's vector. */
  lemma SlotIsEmpty(body: TaskBody, facts: set<Fact>, ds: seq<Decision>, k: nat)
    requires k < |body.participants| && Authentic(body, facts, ds) && !HasVoted(facts, body.participants[k].userId)
    ensures ds[k] == NO_DECISION
  {
    assert ds[k] == NO_DECISION || SignedBy(body, facts, k, ds[k]);
  }

  lemma ConfirmOnce(s: State, k: nat, isApproved: bool, isRejected: bool, reason: string, now: int)
    requires Inv(s) && Once(s) && s.body.requireAgreement
    ensures Once(ConfirmStep(s, k, isApproved, isRejected, reason, now))
  {
    var s' := ConfirmStep(s, k, isApproved, isRejected, reason, now);
    if CanConfirm(s, k, isApproved, isRejected, now) && NoRefusals(s.body, s'.facts) {
      var t := s.cores[k].copy.value;
      var t' := Confirmed(t, User(s, k), isApproved, isRejected, reason);
      assert CoreOk(s.body, s.facts, k, s.cores[k]) && CoreOk(s.body, s.facts, 0, s.cores[0]);
      CopyMeansCreated(s, k);
      ConfirmedCopyOk(s.body, s.facts, k, t, isApproved, isRejected, reason);
      SlotIsEmpty(s.body, s.facts, t.decisions, k);
      SlotIsEmpty(s.body, s.facts, s.cores[0].copy.value.decisions, k);
      var vote := Message(0, None, t'.decisions);
      assert vote !in s.network by {
        if vote in s.network { SlotIsEmpty(s.body, s.facts, vote.decisions, k); }
      }
      RefusalsStay(s.body, s.facts, s'.facts);
      hide Inv, AllOnce, CoreOk, CopyOk, Confirmed;
      VotedOnce(s.body, s.cores, s.network, s'.network, s.handlers, k, t, t',
          SignedDecision(isApproved, isRejected, reason));
    }
  }

  /** Two authentic votes for the same slot and nothing else are the same message. */
  lemma SameVote(body: TaskBody, facts: set<Fact>, cores: seq<Core>, a: Message, b: Message, j: nat)
    requires VotesAreUnique(body, facts) && Authentic(body, facts, a.decisions) && Authentic(body, facts, b.decisions)
    requires IsNewVote(cores, a, j) && IsNewVote(cores, b, j) && a.to == b.to && a.body == b.body
    ensures a == b
  {
    forall i | 0 <= i < |a.decisions| ensures a.decisions[i] == b.decisions[i] {
      assert AtMostOneVote(facts, body.participants[i].userId);
      if i == 0 || i == j {
        assert SignedBy(body, facts, i, a.decisions[i]) && SignedBy(body, facts, i, b.decisions[i]);
      }
    }
  }

  /** The initiator merges a vote: it fills one slot, which no other vote under way fills. */
  lemma MergedVoteOnce(body: TaskBody, facts: set<Fact>, cores: seq<Core>, network: multiset<Message>,
                       handlers: multiset<Handler>, handlers': multiset<Handler>, m: Message, t': Task, j: nat)
    requires |body.participants| > 0 && AllOnce(body, cores, network, handlers)
    requires VotesAreUnique(body, facts) && NetworkOk(body, facts, network)
    requires m in network && m.to == 0 && IsNewVote(cores, m, j)
    requires var t := cores[0].copy.value;
             && |t.decisions| == |m.decisions| == |cores| && t'.decisions == t.decisions[j := m.decisions[j]]
             && t'.status == t.status && !RunningAt(cores, 0)
             && forall h | h in handlers :: h.core != 0
    requires handlers' == handlers || (handlers' == handlers + multiset{Handler(0, false)} && AllApproved(t'.decisions))
    ensures AllOnce(body, Storing(cores, 0, t'), network - multiset{m}, handlers')
  {
    var cores' := Storing(cores, 0, t');
    var network' := network - multiset{m};
    hide OnlyOwn, AllApproved, NewTask;
    MergedVotesOnce(body, facts, cores, network, m, t', j);
    hide VotesAreUnique, NetworkOk, VotesOnce, IsNewVote;
    forall i: nat ensures RunningAt(cores', i) <==> RunningAt(cores, i) {}
    hide RunningAt;
  }

  lemma MergedVotesOnce(body: TaskBody, facts: set<Fact>, cores: seq<Core>, network: multiset<Message>, m: Message,
                        t': Task, j: nat)
    requires |body.participants| > 0 && VotesOnce(cores, network) && VotesAreUnique(body, facts)
             && NetworkOk(body, facts, network)
    requires m in network && m.to == 0 && IsNewVote(cores, m, j)
    requires var t := cores[0].copy.value;
               |t.decisions| == |m.decisions| && t'.decisions == t.decisions[j := m.decisions[j]]
    ensures VotesOnce(Storing(cores, 0, t'), network - multiset{m})
  {
    hide OnlyOwn, VotesAreUnique, Authentic;
    var cores' := Storing(cores, 0, t');
    var network' := network - multiset{m};
    forall x | x in network' && x.to == 0
      ensures network'[x] == 1 && x.body.None? && exists i: nat :: IsNewVote(cores', x, i)
    {
      var i: nat :| IsNewVote(cores, x, i);
      assert network[m] == 1 && network[x] == 1 && m.body == x.body;
      if i == j { SameVote(body, facts, cores, x, m, j); }
      assert IsNewVote(cores', x, i);
    }
  }

  lemma SameOutcome(body: TaskBody, facts: set<Fact>, a: seq<Decision>, b: seq<Decision>)
    requires VotesAreUnique(body, facts) && Authentic(body, facts, a) && Authentic(body, facts, b)
    requires AllApproved(a) && AllApproved(b)
    ensures a == b
  {
    forall i | 0 <= i < |a| ensures a[i] == b[i] {
      assert AtMostOneVote(facts, body.participants[i].userId);
      assert SignedBy(body, facts, i, a[i]) && SignedBy(body, facts, i, b[i]);
    }
  }

  /** Another core merges the outcome: the message becomes its one handler. */
  lemma MergedOutcomeOnce(body: TaskBody, facts: set<Fact>, cores: seq<Core>, network: multiset<Message>,
                          handlers: multiset<Handler>, handlers': multiset<Handler>, m: Message, t': Task)
    requires |body.participants| > 0 && AllOnce(body, cores, network, handlers)
    requires VotesAreUnique(body, facts) && NetworkOk(body, facts, network)
    requires m in network && m.to > 0 && IsLastOutcome(cores, handlers, m) && cores[m.to].copy.Some?
    requires AllApproved(t'.decisions) && t'.status == cores[m.to].copy.value.status
    requires handlers' == handlers || handlers' == handlers + multiset{Handler(m.to, false)}
    ensures AllOnce(body, Storing(cores, m.to, t'), network - multiset{m}, handlers')
  {
    var cores' := Storing(cores, m.to, t');
    var network' := network - multiset{m};
    assert network'[m] == 0;
    forall x | x in network' ensures x.to != m.to {
      if x.to == m.to && IsLastOutcome(cores, handlers, x) { SameOutcome(body, facts, x.decisions, m.decisions); }
    }
    VotesElsewhere(cores, cores', network, network');
    hide OnlyOwn, AllApproved, NewTask, VotesAreUnique, NetworkOk, VotesOnce;
    forall i: nat ensures RunningAt(cores', i) <==> RunningAt(cores, i) {}
    hide RunningAt;
  }

  lemma MergeVoteStepOnce(s: State, m: Message, now: int)
    requires Inv(s) && Once(s) && s.body.requireAgreement && NoRefusals(s.body, s.facts)
    requires m in s.network && m.to == 0 && s.cores[0].copy.Some? && now <= s.body.expirationTime
    ensures Once(MergeStep(s, m, now))
  {
    var t := s.cores[0].copy.value;
    var ds := Merged(t, User(s, 0), m.decisions);
    var s' := MergeStep(s, m, now);
    assert CoreOk(s.body, s.facts, 0, s.cores[0]);
    MergedCopyOk(s.body, s.facts, 0, t, m.decisions);
    NobodyRefused(s.body, s.facts, ds);
    assert DistinctFromOthers(s.body, 0);
    var j: nat :| IsNewVote(s.cores, m, j);
    assert ds == t.decisions[j := m.decisions[j]];
    assert !IsApproval(t.decisions[j]);
    assert !RunningAt(s.cores, 0);
    forall h | h in s.handlers ensures h.core != 0 {}
    hide Inv, AllOnce, Merged, CoreOk, CopyOk, IsNewVote;
    MergedVoteOnce(s.body, s.facts, s.cores, s.network, s.handlers, s'.handlers, m, t.(decisions := ds), j);
  }

  lemma MergeOutcomeStepOnce(s: State, m: Message, now: int)
    requires Inv(s) && Once(s) && s.body.requireAgreement && NoRefusals(s.body, s.facts)
    requires m in s.network && m.to > 0 && s.cores[m.to].copy.Some? && now <= s.body.expirationTime
    ensures Once(MergeStep(s, m, now))
  {
    var t := s.cores[m.to].copy.value;
    var ds := Merged(t, User(s, m.to), m.decisions);
    var s' := MergeStep(s, m, now);
    assert CoreOk(s.body, s.facts, m.to, s.cores[m.to]);
    assert IsLastOutcome(s.cores, s.handlers, m);
    MergedCopyOk(s.body, s.facts, m.to, t, m.decisions);
    MergedKeepsIncoming(s.body, s.facts, m.to, t, m.decisions);
    KeepsOutcome(m.decisions, ds);
    NobodyRefused(s.body, s.facts, ds);
    hide Inv, AllOnce, Merged, CoreOk, CopyOk, IsLastOutcome;
    MergedOutcomeOnce(s.body, s.facts, s.cores, s.network, s.handlers, s'.handlers, m, t.(decisions := ds));
  }

  lemma MergeOnce(s: State, m: Message, now: int)
    requires Inv(s) && Once(s) && s.body.requireAgreement
    ensures Once(MergeStep(s, m, now))
  {
    if m in s.network && s.cores[m.to].copy.Some? && NoRefusals(s.body, s.facts) {
      if now > s.body.expirationTime {
        hide AllOnce;
        FewerOnce(s.body, s.cores, s.network, s.network - multiset{m}, s.handlers, s.handlers);
      } else if m.to == 0 {
        MergeVoteStepOnce(s, m, now);
      } else {
        MergeOutcomeStepOnce(s, m, now);
      }
    }
  }

  /** The initiator writes the outcome: everybody has voted, so nothing but the broadcast is under way from here on. */
  lemma InitiatorSettlesOnce(body: TaskBody, cores: seq<Core>, network: multiset<Message>, handlers: multiset<Handler>,
                             h: Handler, t: Task)
    requires 0 < |body.participants| == |cores| && AllOnce(body, cores, network, handlers)
             && NetworkShaped(body, network)
    requires h in handlers && h.core == 0 && forall k | 0 <= k < |cores| :: cores[k].copy.Some?
    requires cores[0].copy.value == t && AllApproved(t.decisions) && |t.decisions| == |cores|
    ensures AllOnce(body, Storing(cores, 0, t.(status := Started)),
                    if |cores| > 2 then network + ToEveryone(body, t.decisions) else network, handlers - multiset{h})
  {
    EveryoneOnce(body, t.decisions);
    assert forall j: nat | j < |t.decisions| :: IsApproval(t.decisions[j]);
    forall x: Message ensures x !in network {}
    assert network == multiset{};
    hide OnlyOwn, AllApproved, NewTask;
    var cores' := Storing(cores, 0, t.(status := Started));
    forall i: nat | i > 0 ensures RunningAt(cores', i) <==> RunningAt(cores, i) {}
  }

  lemma OtherSettlesOnce(body: TaskBody, cores: seq<Core>, network: multiset<Message>, handlers: multiset<Handler>,
                         h: Handler)
    requires |body.participants| > 0 && AllOnce(body, cores, network, handlers)
    requires h in handlers && 0 < h.core < |cores| && cores[h.core].copy.Some?
    ensures AllOnce(body, Storing(cores, h.core, cores[h.core].copy.value.(status := Started)), network,
            handlers - multiset{h})
  {
    var cores' := Storing(cores, h.core, cores[h.core].copy.value.(status := Started));
    VotesElsewhere(cores, cores', network, network);
    hide OnlyOwn, AllApproved, NewTask, VotesOnce;
    forall i: nat | i != h.core ensures RunningAt(cores', i) <==> RunningAt(cores, i) {}
    assert h == Handler(h.core, false);
  }

  lemma SettleOnce(s: State, h: Handler)
    requires Inv(s) && Once(s) && s.body.requireAgreement
    ensures Once(SettleStep(s, h))
  {
    if h in s.handlers && NoRefusals(s.body, s.facts) {
      var t := s.cores[h.core].copy.value;
      if !s.cores[h.core].listed {
        hide AllOnce;
        FewerOnce(s.body, s.cores, s.network, s.network, s.handlers, s.handlers - multiset{h});
      } else if h.core > 0 {
        OtherSettlesOnce(s.body, s.cores, s.network, s.handlers, h);
      } else {
        EveryoneHasACopy(s);
        InitiatorSettlesOnce(s.body, s.cores, s.network, s.handlers, h, t);
      }
    }
  }

  lemma EveryoneHasACopy(s: State)
    requires Inv(s) && s.cores[0].copy.Some? && AllApproved(s.cores[0].copy.value.decisions)
    ensures forall k: nat | k < |s.cores| :: s.cores[k].copy.Some?
  {
    assert CoreOk(s.body, s.facts, 0, s.cores[0]);
    forall k: nat | k < |s.cores| ensures s.cores[k].copy.Some? {
      assert SignedBy(s.body, s.facts, k, s.cores[0].copy.value.decisions[k]);
      assert CoreOk(s.body, s.facts, k, s.cores[k]);
    }
  }

  lemma FinishingTeachesNothing(s: State, k: nat)
    requires WellFormed(s)
    ensures SameKnowledge(s.cores, FinishStep(s, k).cores)
  {}

  lemma ListingTeachesNothing(s: State, k: nat)
    requires WellFormed(s)
    ensures SameKnowledge(s.cores, ListCopyStep(s, k).cores)
    ensures SameKnowledge(s.cores, ListAtInitiatorStep(s).cores)
  {
    hide SameKnowledge;
    ListedSame(s.cores, 0);
    if k < |s.cores| { ListedSame(s.cores, k); }
    assert SameKnowledge(s.cores, s.cores) by { SameAsItself(s.cores); }
  }

  lemma ListedSame(cores: seq<Core>, k: nat)
    requires k < |cores|
    ensures SameKnowledge(cores, cores[k := cores[k].(listed := true)])
  {}

  lemma SameAsItself(cores: seq<Core>)
    ensures SameKnowledge(cores, cores)
  {}

  lemma QuietStepsOnce(s: State, k: nat)
    requires WellFormed(s) && Once(s)
    ensures Once(FinishStep(s, k)) && Once(ListCopyStep(s, k)) && Once(ListAtInitiatorStep(s))
  {
    hide AllOnce, SameKnowledge;
    FinishingTeachesNothing(s, k);
    ListingTeachesNothing(s, k);
    if s.body.requireAgreement && NoRefusals(s.body, s.facts) {
      SameKnowledgeOnce(s.body, s.cores, FinishStep(s, k).cores, s.network, s.handlers);
      SameKnowledgeOnce(s.body, s.cores, ListCopyStep(s, k).cores, s.network, s.handlers);
      SameKnowledgeOnce(s.body, s.cores, ListAtInitiatorStep(s).cores, s.network, s.handlers);
    }
  }

  lemma LoseOnce(s: State, m: Message)
    requires WellFormed(s) && Once(s) && m in s.network
    ensures Once(Next(s, Lose(m)))
  {
    hide AllOnce;
    if s.body.requireAgreement && NoRefusals(s.body, s.facts) {
      FewerOnce(s.body, s.cores, s.network, s.network - multiset{m}, s.handlers, s.handlers);
    }
  }

  lemma NextOnce(s: State, step: Step)
    requires Inv(s) && Once(s) && s.body.requireAgreement && !step.Duplicate?
    ensures Once(Next(s, step))
  {
    InvIsWellFormed(s);
    hide Inv, Once, WellFormed, CreateStep, ListAtInitiatorStep, DeliverFirstStep, ListCopyStep, ConfirmStep,
        FinishStep, MergeStep, SettleStep;
    match step
    case CreateTask => CreateOnce(s);
    case ListAtInitiator => QuietStepsOnce(s, 0);
    case DeliverFirst(m) => DeliverFirstOnce(s, m);
    case ListCopy(k) => QuietStepsOnce(s, k);
    case Confirm(k, isApproved, isRejected, reason, now) => ConfirmOnce(s, k, isApproved, isRejected, reason, now);
    case Finish(k) => QuietStepsOnce(s, k);
    case Merge(m, now) => MergeOnce(s, m, now);
    case Settle(h) => SettleOnce(s, h);
    case Lose(m) => if m in s.network { LoseOnce(s, m); }
  }

  // ---------------------------------------------------------------- the theorem

  predicate NoRepetition(steps: seq<Step>) {
    forall i | 0 <= i < |steps| :: !steps[i].Duplicate?
  }

  /** No handler waits for a finished copy, so none can reopen it. */
  lemma NoHandlerForFinished(s: State, k: nat)
    requires Inv(s) && (s.body.requireAgreement ==> Once(s)) && IsFinished(s, k)
    ensures forall h | h in s.handlers :: h.core != k
  {
    if s.body.requireAgreement {
      assert CoreOk(s.body, s.facts, k, s.cores[k]);
      var ds := s.cores[k].copy.value.decisions;
      forall i: nat | i < |s.body.participants| ensures NeverRefused(s.facts, s.body.participants[i].userId) {
        assert AtMostOneVote(s.facts, s.body.participants[i].userId);
        assert SignedBy(s.body, s.facts, i, ds[i]);
      }
    }
  }

  lemma {:induction false} FinishedInRun(s: State, steps: seq<Step>, k: nat)
    requires Inv(s) && (s.body.requireAgreement ==> Once(s)) && IsFinished(s, k) && NoRepetition(steps)
    ensures IsFinished(Execute(s, steps), k)
    decreases |steps|
  {
    hide Inv, Once, IsFinished, Next;
    if steps != [] {
      InvIsWellFormed(s);
      NoHandlerForFinished(s, k);
      FinishedUntilSettled(s, steps[0], k);
      NextOk(s, steps[0]);
      if s.body.requireAgreement { NextOnce(s, steps[0]); }
      assert steps[0] == steps[0] && !steps[0].Duplicate?;
      FinishedInRun(Next(s, steps[0]), steps[1..], k);
    }
  }

  lemma {:induction false} ExecuteOnce(s: State, steps: seq<Step>)
    requires Inv(s) && Once(s) && s.body.requireAgreement && NoRepetition(steps)
    ensures Once(Execute(s, steps))
    decreases |steps|
  {
    hide Inv, Once, Next;
    InvIsWellFormed(s);
    if steps != [] {
      NextOk(s, steps[0]);
      NextOnce(s, steps[0]);
      ExecuteOnce(Next(s, steps[0]), steps[1..]);
    }
  }

  lemma InitOnce(body: TaskBody)
    requires WellFormedBody(body)
    ensures Once(Init(body))
  {}

  /** In a run in which no message is repeated, whatever else is delayed, reordered or lost, finished is final. */
  lemma FinishedIsFinal(body: TaskBody, steps: seq<Step>, more: seq<Step>, k: nat)
    requires WellFormedBody(body) && NoRepetition(steps) && NoRepetition(more)
    requires IsFinished(Reached(body, steps), k)
    ensures IsFinished(Reached(body, steps + more), k)
  {
    hide Once, IsFinished;
    ReachedOk(body, steps);
    InitOk(body);
    InitOnce(body);
    if body.requireAgreement { ExecuteOnce(Init(body), steps); }
    ExecuteConcat(Init(body), steps, more);
    FinishedInRun(Reached(body, steps), more, k);
  }
}
