/**
 Where runs end up.  In a run without faults (nothing lost, nothing expired, nothing refused), a
 state in which nothing is under way shows the outcome that the votes call for, on every core whose
 last second section was not wasted on an unlisted task, also when the initiator lists the task while
 requests are still on their way.
 */
module AgreementOutcome {
  import opened Wrappers
  import opened Tasks
  import opened Agreement
  import opened AgreementTheorems

  ghost predicate Resolved(ds: seq<Decision>) {
    AllApproved(ds) || AnyRejected(ds)
  }

  predicate Closed(status: Status) {
    status == Started || status == Finished || status == Rejected
  }

  ghost predicate HandlerAt(handlers: multiset<Handler>, k: nat) {
    exists h :: h in handlers && h.core == k
  }

  ghost predicate VoteUnderWay(network: multiset<Message>, k: nat) {
    exists m :: m in network && m.to == 0 && k < |m.decisions| && m.decisions[k] != NO_DECISION
  }

  ghost predicate OutcomeUnderWay(network: multiset<Message>, k: nat) {
    exists m :: m in network && m.to == k && Resolved(m.decisions)
  }

  /** A message that settles nothing by itself: before a core has a copy, that is the opening request. */
  ghost predicate RequestUnderWay(network: multiset<Message>, k: nat) {
    exists m :: m in network && m.to == k && !Resolved(m.decisions)
  }

  /**
   A copy whose decisions settle the matter has the outcome, or a handler about to write it, or a
   message that will start such a handler, or its last second section was wasted.
   */
  ghost predicate ResolvedIsPending(cores: seq<Core>, network: multiset<Message>, handlers: multiset<Handler>,
                                    wasted: set<nat>) {
    forall k: nat | k < |cores| && cores[k].copy.Some? && Resolved(cores[k].copy.value.decisions) ::
      Closed(cores[k].copy.value.status) || HandlerAt(handlers, k) || OutcomeUnderWay(network, k)
          || RequestUnderWay(network, k) || k in wasted
  }

  ghost predicate VoteReported(cores: seq<Core>, network: multiset<Message>, k: nat)
    requires 0 < k < |cores|
  {
    var own := cores[k].copy;
    own.Some? && k < |own.value.decisions| && IsDecided(own.value.decisions[k]) ==>
      && cores[0].copy.Some?
      && k < |cores[0].copy.value.decisions|
      && (cores[0].copy.value.decisions[k] != NO_DECISION || VoteUnderWay(network, k))
  }

  /** Every vote other than an ignoring one is at the initiator or on its way there. */
  ghost predicate VotesReported(cores: seq<Core>, network: multiset<Message>) {
    forall k: nat | 0 < k < |cores| :: VoteReported(cores, network, k)
  }

  ghost predicate KnowsOrWillKnow(cores: seq<Core>, network: multiset<Message>, k: nat)
    requires k < |cores|
  {
    OutcomeUnderWay(network, k) || (cores[k].copy.Some? && Resolved(cores[k].copy.value.decisions))
  }

  predicate CoreClosed(cores: seq<Core>, k: nat) {
    k < |cores| && cores[k].copy.Some? && Closed(cores[k].copy.value.status)
  }

  /** With three or more cores, the initiator's outcome is known at every core or on its way there. */
  ghost predicate OutcomeBroadcast(cores: seq<Core>, network: multiset<Message>) {
    |cores| > 2 && CoreClosed(cores, 0) ==>
      forall k: nat | 0 < k < |cores| :: KnowsOrWillKnow(cores, network, k)
  }

  /** Once the task exists, a core without a copy has its opening request still to come. */
  ghost predicate RequestsUnderWay(cores: seq<Core>, network: multiset<Message>) {
    |cores| > 0 && cores[0].copy.Some? ==>
      forall k: nat | 0 < k < |cores| && cores[k].copy.None? :: RequestUnderWay(network, k)
  }

  /**
   The cores whose last second section found the task unlisted, so that its outcome was not applied.  A
   later one that finds it listed makes up for it.
   */
  function WastedBy(s: State, step: Step, wasted: set<nat>): (r: set<nat>)
    requires WellFormed(s)
  {
    if !(step.Settle? && step.handler in s.handlers) then wasted
    else if s.cores[step.handler.core].listed then wasted - {step.handler.core}
    else wasted + {step.handler.core}
  }

  function WastedIn(s: State, steps: seq<Step>, wasted: set<nat>): (r: set<nat>)
    requires WellFormed(s)
    decreases |steps|
  {
    if steps == [] then wasted else WastedIn(Next(s, steps[0]), steps[1..], WastedBy(s, steps[0], wasted))
  }

  ghost predicate Live(s: State, wasted: set<nat>) {
    && ResolvedIsPending(s.cores, s.network, s.handlers, wasted)
    && VotesReported(s.cores, s.network)
    && OutcomeBroadcast(s.cores, s.network)
    && RequestsUnderWay(s.cores, s.network)
  }

  // ---------------------------------------------------------------- every fault-free step keeps it

  lemma CreateLive(s: State, wasted: set<nat>)
    requires Inv(s) && Live(s, wasted) && s.body.requireAgreement
    ensures Live(CreateStep(s), wasted)
  {
    if s.cores[0].copy.None? {
      var s' := CreateStep(s);
      var t := NewTask(s.body);
      assert CoreOk(s.body, s.facts, 0, s.cores[0]);
      if |s.cores| > 1 {
        assert t.decisions[1] == NO_DECISION;
        assert !Resolved(t.decisions);
      }
      forall k: nat | 0 < k < |s.cores| ensures s'.cores[k].copy.None? && RequestUnderWay(s'.network, k) {
        assert CoreOk(s.body, s.facts, k, s.cores[k]);
        assert Message(k, Some(s.body), t.decisions) in s'.network;
      }
    }
  }

  lemma StoringPending(wasted: set<nat>, cores: seq<Core>, network: multiset<Message>, network': multiset<Message>,
                       handlers: multiset<Handler>, handlers': multiset<Handler>, k: nat, t: Task)
    requires ResolvedIsPending(cores, network, handlers, wasted) && k < |cores|
    requires forall j: nat | j != k && HandlerAt(handlers, j) :: HandlerAt(handlers', j)
    requires forall j: nat | j != k && OutcomeUnderWay(network, j) :: OutcomeUnderWay(network', j)
    requires forall j: nat | j != k && RequestUnderWay(network, j) :: RequestUnderWay(network', j)
    requires Resolved(t.decisions) ==>
               Closed(t.status) || HandlerAt(handlers', k) || OutcomeUnderWay(network', k)
                   || RequestUnderWay(network', k) || k in wasted
    ensures ResolvedIsPending(Storing(cores, k, t), network', handlers', wasted)
  {}

  lemma StoringReported(cores: seq<Core>, network: multiset<Message>, network': multiset<Message>, k: nat, t: Task)
    requires VotesReported(cores, network) && k < |cores|
    requires cores[k].copy.Some? ==> Keeps(cores[k].copy.value.decisions, t.decisions)
    requires forall j: nat | 0 < j < |cores| && VoteUnderWay(network, j) ::
               VoteUnderWay(network', j) || (k == 0 && j < |t.decisions| && t.decisions[j] != NO_DECISION)
    requires 0 < k ==> VoteReported(Storing(cores, k, t), network', k)
    ensures VotesReported(Storing(cores, k, t), network')
  {
    forall j: nat | 0 < j < |cores| ensures VoteReported(Storing(cores, k, t), network', j) {
      assert VoteReported(cores, network, j);
    }
  }

  /** A copy changes: what the other cores know or await is not affected. */
  lemma StoringBroadcast(cores: seq<Core>, network: multiset<Message>, network': multiset<Message>, k: nat, t: Task)
    requires OutcomeBroadcast(cores, network) && k < |cores|
    requires forall j: nat | j != k && OutcomeUnderWay(network, j) :: OutcomeUnderWay(network', j)
    requires CoreClosed(Storing(cores, k, t), 0) ==> CoreClosed(cores, 0)
    requires 0 < k && KnowsOrWillKnow(cores, network, k) ==> Resolved(t.decisions) || OutcomeUnderWay(network', k)
    ensures OutcomeBroadcast(Storing(cores, k, t), network')
  {
    if |cores| > 2 && CoreClosed(Storing(cores, k, t), 0) {
      forall j: nat | 0 < j < |cores| ensures KnowsOrWillKnow(Storing(cores, k, t), network', j) {
        assert KnowsOrWillKnow(cores, network, j);
      }
    }
  }

  lemma StoringRequests(cores: seq<Core>, network: multiset<Message>, network': multiset<Message>, k: nat, t: Task)
    requires RequestsUnderWay(cores, network) && k < |cores| && |cores| > 0 && cores[0].copy.Some?
    requires forall j: nat | j != k && RequestUnderWay(network, j) :: RequestUnderWay(network', j)
    ensures RequestsUnderWay(Storing(cores, k, t), network')
  {}

  lemma VotesStayUnderWay(network: multiset<Message>, m: Message)
    ensures forall j: nat | VoteUnderWay(network, j)
            && (m.to != 0 || j >= |m.decisions| || m.decisions[j] == NO_DECISION) ::
              VoteUnderWay(network - multiset{m}, j)
  {}

  /** Taking a message out of the network takes from its addressee what it carried, and nothing from the others. */
  lemma OthersStayUnderWay(network: multiset<Message>, m: Message)
    ensures forall j: nat | OutcomeUnderWay(network, j) && (m.to != j || !Resolved(m.decisions)) ::
              OutcomeUnderWay(network - multiset{m}, j)
    ensures forall j: nat | RequestUnderWay(network, j) && (m.to != j || Resolved(m.decisions)) ::
              RequestUnderWay(network - multiset{m}, j)
  {}

  lemma MoreUnderWay(network: multiset<Message>, more: multiset<Message>)
    ensures forall j: nat | VoteUnderWay(network, j) :: VoteUnderWay(network + more, j)
    ensures forall j: nat | OutcomeUnderWay(network, j) :: OutcomeUnderWay(network + more, j)
    ensures forall j: nat | RequestUnderWay(network, j) :: RequestUnderWay(network + more, j)
  {}

  lemma DeliverFirstLive(s: State, wasted: set<nat>, m: Message)
    requires Inv(s) && Live(s, wasted) && !DeliverFirstStep(s, m).faulty
    ensures Live(DeliverFirstStep(s, m), wasted)
  {
    if m in s.network && s.cores[m.to].copy.None? {
      var k := m.to;
      assert CoreOk(s.body, s.facts, k, s.cores[k]);
      assert k > 0;
      assert m.decisions[k] == NO_DECISION by {
        assert m.decisions[k] == NO_DECISION || SignedBy(s.body, s.facts, k, m.decisions[k]);
      }
      FirstCopyLive(wasted, s.cores, s.network, s.handlers, m, Task(s.body, m.decisions, Waiting));
    }
  }

  /** A first copy may already know the outcome: then the opening request is still to come and will close it. */
  lemma FirstCopyLive(wasted: set<nat>, cores: seq<Core>, network: multiset<Message>, handlers: multiset<Handler>,
                      m: Message, t: Task)
    requires m in network && 0 < m.to < |cores| && cores[0].copy.Some? && cores[m.to].copy.None?
    requires t.decisions == m.decisions && m.to < |m.decisions| && m.decisions[m.to] == NO_DECISION
    requires ResolvedIsPending(cores, network, handlers, wasted) && VotesReported(cores, network)
    requires OutcomeBroadcast(cores, network) && RequestsUnderWay(cores, network)
    ensures var cores' := Storing(cores, m.to, t);
            var network' := network - multiset{m};
            && ResolvedIsPending(cores', network', handlers, wasted) && VotesReported(cores', network')
            && OutcomeBroadcast(cores', network') && RequestsUnderWay(cores', network')
  {
    var network' := network - multiset{m};
    VotesStayUnderWay(network, m);
    OthersStayUnderWay(network, m);
    assert RequestUnderWay(network, m.to);
    hide Resolved, OutcomeUnderWay, RequestUnderWay, VoteUnderWay;
    StoringPending(wasted, cores, network, network', handlers, handlers, m.to, t);
    StoringReported(cores, network, network', m.to, t);
    StoringBroadcast(cores, network, network', m.to, t);
    StoringRequests(cores, network, network', m.to, t);
  }

  lemma ConfirmLive(s: State, wasted: set<nat>, k: nat, isApproved: bool, isRejected: bool, reason: string, now: int)
    requires Inv(s) && Live(s, wasted) && s.body.requireAgreement
    ensures Live(ConfirmStep(s, k, isApproved, isRejected, reason, now), wasted)
  {
    if CanConfirm(s, k, isApproved, isRejected, now) {
      var t := s.cores[k].copy.value;
      var t' := Confirmed(t, User(s, k), isApproved, isRejected, reason);
      var network' := ConfirmStep(s, k, isApproved, isRejected, reason, now).network;
      assert CoreOk(s.body, s.facts, k, s.cores[k]);
      ConfirmedCopyOk(s.body, s.facts, k, t, isApproved, isRejected, reason);
      StartTests(t'.decisions);
      ConfirmedPending(t, t', k, SignedDecision(isApproved, isRejected, reason));
      ConfirmedLive(wasted, s.cores, s.network, network', s.handlers, k, t, t');
    }
  }

  lemma ConfirmedLive(wasted: set<nat>, cores: seq<Core>, network: multiset<Message>, network': multiset<Message>,
                      handlers: multiset<Handler>,
                      k: nat, t: Task, t': Task)
    requires 0 < k < |cores| == |t.decisions| == |t'.decisions| && cores[k].copy == Some(t) && t.status == Waiting
    requires Keeps(t.decisions, t'.decisions) && cores[0].copy.Some? && |cores[0].copy.value.decisions| == |cores|
    requires var m := Message(0, None, t'.decisions);
             network' == network + multiset{m} || (network' == network && !IsDecided(t'.decisions[k]))
    requires Resolved(t'.decisions) ==> Closed(t'.status) || Resolved(t.decisions)
    requires ResolvedIsPending(cores, network, handlers, wasted) && VotesReported(cores, network)
    requires OutcomeBroadcast(cores, network) && RequestsUnderWay(cores, network)
    ensures var cores' := Storing(cores, k, t');
            && ResolvedIsPending(cores', network', handlers, wasted) && VotesReported(cores', network')
            && OutcomeBroadcast(cores', network') && RequestsUnderWay(cores', network')
  {
    var m := Message(0, None, t'.decisions);
    MoreUnderWay(network, multiset{m});
    assert m in network + multiset{m};
    assert VoteReported(Storing(cores, k, t'), network', k);
    KeepsOutcome(t.decisions, t'.decisions);
    StoringPending(wasted, cores, network, network', handlers, handlers, k, t');
    StoringReported(cores, network, network', k, t');
    StoringBroadcast(cores, network, network', k, t');
    StoringRequests(cores, network, network', k, t');
  }

  /** A vote that settles the voter's own copy closes it, or the copy was settled before. */
  lemma ConfirmedPending(t: Task, t': Task, k: nat, d: Decision)
    requires k < |t.decisions| && t'.decisions == t.decisions[k := d] && t.body.requireAgreement
    requires t'.status == (if AllApproved(t'.decisions) then Started else t'.status)
    requires IsRejection(d) ==> Closed(t'.status)
    ensures Resolved(t'.decisions) ==> Closed(t'.status) || Resolved(t.decisions)
  {}

  /** Every copy carries the initiator's signature. */
  lemma CopyMeansCreated(s: State, k: nat)
    requires Inv(s) && k < |s.cores| && s.cores[k].copy.Some?
    ensures s.cores[0].copy.Some?
  {}

  lemma FinishLive(s: State, wasted: set<nat>, k: nat)
    requires Inv(s) && Live(s, wasted)
    ensures Live(FinishStep(s, k), wasted)
  {
    if k < |s.cores| && s.cores[k].copy.Some? && s.cores[k].copy.value.status == Started && s.cores[k].listed {
      var t' := s.cores[k].copy.value.(status := Finished);
      if k > 0 {
        assert VoteReported(s.cores, s.network, k);
        assert CoreOk(s.body, s.facts, k, s.cores[k]);
      }
      CopyMeansCreated(s, k);
      hide Inv, Resolved, OutcomeUnderWay, RequestUnderWay, VoteUnderWay;
      StoringPending(wasted, s.cores, s.network, s.network, s.handlers, s.handlers, k, t');
      StoringReported(s.cores, s.network, s.network, k, t');
      StoringBroadcast(s.cores, s.network, s.network, k, t');
      StoringRequests(s.cores, s.network, s.network, k, t');
    }
  }

  /** Every vote in an authentic message is in the copy after the merge, the user's own vote included. */
  lemma MergedKeepsIncoming(body: TaskBody, facts: set<Fact>, k: nat, t: Task, incoming: seq<Decision>)
    requires WellFormedBody(body) && k < |body.participants| && t.body == body
    requires CopyOk(body, facts, k, t) && Authentic(body, facts, incoming) && VotesAreUnique(body, facts)
    ensures Keeps(incoming, Merged(t, body.participants[k].userId, incoming))
  {
    var ds := Merged(t, body.participants[k].userId, incoming);
    assert DistinctFromOthers(body, k);
    assert AtMostOneVote(facts, body.participants[k].userId);
    if incoming[k] != NO_DECISION {
      assert SignedBy(body, facts, k, incoming[k]) && SignedBy(body, facts, k, t.decisions[k]);
    }
  }

  lemma MergeLive(s: State, wasted: set<nat>, m: Message, now: int)
    requires Inv(s) && Live(s, wasted) && s.body.requireAgreement && !MergeStep(s, m, now).faulty
    ensures Live(MergeStep(s, m, now), wasted)
  {
    if m in s.network && s.cores[m.to].copy.Some? {
      var k := m.to;
      var t := s.cores[k].copy.value;
      var ds := Merged(t, User(s, k), m.decisions);
      var t' := t.(decisions := ds);
      var s' := MergeStep(s, m, now);
      assert CoreOk(s.body, s.facts, k, s.cores[k]);
      CopyMeansCreated(s, k);
      MergedCopyOk(s.body, s.facts, k, t, m.decisions);
      MergedKeepsIncoming(s.body, s.facts, k, t, m.decisions);
      KeepsOutcome(m.decisions, ds);
      KeepsOutcome(t.decisions, ds);
      MergedLive(wasted, s.cores, s.network, s.handlers, s'.handlers, m, t, t');
    }
  }

  lemma MergedLive(wasted: set<nat>, cores: seq<Core>, network: multiset<Message>, handlers: multiset<Handler>,
                   handlers': multiset<Handler>,
                   m: Message, t: Task, t': Task)
    requires m in network && m.to < |cores| && cores[m.to].copy == Some(t) && t'.status == t.status
             && cores[0].copy.Some?
    requires Keeps(t.decisions, t'.decisions) && Keeps(m.decisions, t'.decisions)
    requires m.to < |t.decisions| && t'.decisions[m.to] == t.decisions[m.to]
    requires Resolved(m.decisions) || Resolved(t.decisions) ==> Resolved(t'.decisions)
    requires handlers <= handlers'
    requires Resolved(t'.decisions) ==> Closed(t.status) || HandlerAt(handlers', m.to)
    requires ResolvedIsPending(cores, network, handlers, wasted) && VotesReported(cores, network)
    requires OutcomeBroadcast(cores, network) && RequestsUnderWay(cores, network)
    ensures var cores' := Storing(cores, m.to, t');
            var network' := network - multiset{m};
            && ResolvedIsPending(cores', network', handlers', wasted) && VotesReported(cores', network')
            && OutcomeBroadcast(cores', network') && RequestsUnderWay(cores', network')
  {
    var k := m.to;
    var network' := network - multiset{m};
    HandlersGrow(handlers, handlers');
    VotesStayUnderWay(network, m);
    OthersStayUnderWay(network, m);
    if k > 0 { assert VoteReported(cores, network, k); }
    hide Resolved, OutcomeUnderWay, RequestUnderWay;
    StoringPending(wasted, cores, network, network', handlers, handlers', k, t');
    StoringReported(cores, network, network', k, t');
    StoringBroadcast(cores, network, network', k, t');
    StoringRequests(cores, network, network', k, t');
  }

  lemma HandlersGrow(handlers: multiset<Handler>, handlers': multiset<Handler>)
    requires handlers <= handlers'
    ensures forall j: nat | HandlerAt(handlers, j) :: HandlerAt(handlers', j)
  {}

  lemma HandlersElsewhere(handlers: multiset<Handler>, h: Handler)
    ensures forall j: nat | j != h.core && HandlerAt(handlers, j) :: HandlerAt(handlers - multiset{h}, j)
  {}

  /** An outcome that is applied closes the copy, so nothing is wasted there. */
  lemma ClosedIsNotWasted(cores: seq<Core>, network: multiset<Message>, handlers: multiset<Handler>, wasted: set<nat>,
                          k: nat)
    requires ResolvedIsPending(cores, network, handlers, wasted)
    requires k < |cores| && cores[k].copy.Some? && Closed(cores[k].copy.value.status)
    ensures ResolvedIsPending(cores, network, handlers, wasted - {k})
  {}

  lemma UnlistedSettleLive(s: State, wasted: set<nat>, h: Handler)
    requires Inv(s) && Live(s, wasted) && h in s.handlers && !s.cores[h.core].listed
    ensures Live(SettleStep(s, h), wasted + {h.core})
  {}

  lemma ListedSettleLive(s: State, wasted: set<nat>, h: Handler)
    requires Inv(s) && Live(s, wasted) && h in s.handlers && s.cores[h.core].listed
    ensures Live(SettleStep(s, h), wasted - {h.core})
  {
    var k := h.core;
    var t := s.cores[k].copy.value;
    var t' := t.(status := if h.rejected then Rejected else Started);
    var s' := SettleStep(s, h);
    assert Resolved(t.decisions);
    CopyMeansCreated(s, k);
    HandlersElsewhere(s.handlers, h);
    MoreUnderWay(s.network, ToEveryone(s.body, t.decisions));
    if k > 0 { assert VoteReported(s.cores, s.network, k); }
    BroadcastReaches(s, h);
    hide Inv, Resolved, HandlerAt, OutcomeUnderWay, RequestUnderWay, VoteUnderWay, ToEveryone;
    StoringPending(wasted, s.cores, s.network, s'.network, s.handlers, s'.handlers, k, t');
    ClosedIsNotWasted(s'.cores, s'.network, s'.handlers, wasted, k);
    StoringReported(s.cores, s.network, s'.network, k, t');
    StoringRequests(s.cores, s.network, s'.network, k, t');
    if k > 0 { StoringBroadcast(s.cores, s.network, s'.network, k, t'); }
  }

  lemma BroadcastReaches(s: State, h: Handler)
    requires Inv(s) && h in s.handlers && s.cores[h.core].listed && Resolved(s.cores[h.core].copy.value.decisions)
    ensures h.core == 0 && |s.cores| > 2 ==>
              forall j: nat | 0 < j < |s.cores| :: OutcomeUnderWay(SettleStep(s, h).network, j)
  {
    var ds := s.cores[h.core].copy.value.decisions;
    if h.core == 0 && |s.cores| > 2 {
      forall j: nat | 0 < j < |s.cores| ensures OutcomeUnderWay(SettleStep(s, h).network, j) {
        assert Message(j, Some(s.body), ds) in SettleStep(s, h).network;
      }
    }
  }

  lemma ListingLive(s: State, wasted: set<nat>, k: nat)
    requires Live(s, wasted) && k < |s.cores| && s.cores[k].copy.Some?
    ensures Live(s.(cores := s.cores[k := s.cores[k].(listed := true)]), wasted)
  {
    hide Resolved, OutcomeUnderWay, RequestUnderWay, VoteUnderWay;
    var cores' := s.cores[k := s.cores[k].(listed := true)];
    forall j: nat | 0 < j < |s.cores| ensures VoteReported(cores', s.network, j) {
      assert VoteReported(s.cores, s.network, j);
    }
    if |s.cores| > 2 && CoreClosed(cores', 0) {
      forall j: nat | 0 < j < |s.cores| ensures KnowsOrWillKnow(cores', s.network, j) {
        assert KnowsOrWillKnow(s.cores, s.network, j);
      }
    }
  }

  lemma DuplicateLive(s: State, wasted: set<nat>, m: Message)
    requires Live(s, wasted) && m in s.network
    ensures Live(s.(network := s.network + multiset{m}), wasted)
  {
    MoreUnderWay(s.network, multiset{m});
    hide Resolved, OutcomeUnderWay, RequestUnderWay, VoteUnderWay;
    var network' := s.network + multiset{m};
    forall j: nat | 0 < j < |s.cores| ensures VoteReported(s.cores, network', j) {
      assert VoteReported(s.cores, s.network, j);
    }
    if |s.cores| > 2 && CoreClosed(s.cores, 0) {
      forall j: nat | 0 < j < |s.cores| ensures KnowsOrWillKnow(s.cores, network', j) {
        assert KnowsOrWillKnow(s.cores, s.network, j);
      }
    }
  }

  lemma OtherLive(s: State, wasted: set<nat>, step: Step)
    requires Inv(s) && Live(s, wasted) && s.body.requireAgreement && !Next(s, step).faulty && !step.Settle?
    ensures Live(Next(s, step), wasted)
  {
    InvIsWellFormed(s);
    hide Inv, Live, CreateStep, DeliverFirstStep, ConfirmStep, FinishStep, MergeStep;
    match step
    case CreateTask => CreateLive(s, wasted);
    case ListAtInitiator => if s.cores[0].copy.Some? && !s.cores[0].listed { ListingLive(s, wasted, 0); }
    case DeliverFirst(m) => DeliverFirstLive(s, wasted, m);
    case ListCopy(k) => if 0 < k < |s.cores| && s.cores[k].copy.Some? { ListingLive(s, wasted, k); }
    case Confirm(k, isApproved, isRejected, reason, now) =>
      ConfirmLive(s, wasted, k, isApproved, isRejected, reason, now);
    case Finish(k) => FinishLive(s, wasted, k);
    case Merge(m, now) => MergeLive(s, wasted, m, now);
    case Duplicate(m) => if m in s.network { DuplicateLive(s, wasted, m); }
    case Lose(m) =>
  }

  lemma SettleLive(s: State, wasted: set<nat>, h: Handler)
    requires Inv(s) && Live(s, wasted)
    ensures Live(Next(s, Settle(h)), WastedBy(s, Settle(h), wasted))
  {
    hide Inv, Live;
    InvIsWellFormed(s);
    if h in s.handlers {
      if s.cores[h.core].listed { ListedSettleLive(s, wasted, h); } else { UnlistedSettleLive(s, wasted, h); }
    }
  }

  lemma NextLive(s: State, wasted: set<nat>, step: Step)
    requires Inv(s) && Live(s, wasted) && s.body.requireAgreement && !Next(s, step).faulty
    ensures Live(Next(s, step), WastedBy(s, step, wasted))
  {
    hide Inv, Live, Next, WastedBy;
    InvIsWellFormed(s);
    if step.Settle? {
      assert step == Settle(step.handler);
      SettleLive(s, wasted, step.handler);
    } else {
      OtherLive(s, wasted, step);
      OnlySettlingWastes(s, step, wasted);
    }
  }

  lemma OnlySettlingWastes(s: State, step: Step, wasted: set<nat>)
    requires WellFormed(s) && !step.Settle?
    ensures WastedBy(s, step, wasted) == wasted
  {}

  lemma FaultsStay(s: State, step: Step)
    requires WellFormed(s) && s.faulty
    ensures Next(s, step).faulty
  {}

  lemma {:induction false} FaultsStayInRuns(s: State, steps: seq<Step>)
    requires WellFormed(s) && s.faulty
    ensures Execute(s, steps).faulty
    decreases |steps|
  {
    if steps != [] {
      FaultsStay(s, steps[0]);
      FaultsStayInRuns(Next(s, steps[0]), steps[1..]);
    }
  }

  lemma {:induction false} ExecuteLive(s: State, wasted: set<nat>, steps: seq<Step>)
    requires Inv(s) && Live(s, wasted) && s.body.requireAgreement && !Execute(s, steps).faulty
    ensures Live(Execute(s, steps), WastedIn(s, steps, wasted))
    decreases |steps|
  {
    if steps != [] {
      if Next(s, steps[0]).faulty { FaultsStayInRuns(Next(s, steps[0]), steps[1..]); }
      NextOk(s, steps[0]);
      NextLive(s, wasted, steps[0]);
      ExecuteLive(Next(s, steps[0]), WastedBy(s, steps[0], wasted), steps[1..]);
    }
  }

  // ---------------------------------------------------------------- the outcome

  predicate Quiet(s: State) {
    s.network == multiset{} && s.handlers == multiset{}
  }

  ghost predicate Voted(s: State, k: nat, isApproved: bool, isRejected: bool)
    requires WellFormed(s) && k < |s.cores|
  {
    exists f :: f in s.facts && f.userId == User(s, k) && f.isApproved == isApproved && f.isRejected == isRejected
  }

  ghost predicate EveryoneApproved(s: State)
    requires WellFormed(s)
  {
    forall k: nat | k < |s.cores| :: Voted(s, k, true, false)
  }

  ghost predicate SomeoneRejected(s: State)
    requires WellFormed(s)
  {
    exists k: nat :: k < |s.cores| && Voted(s, k, false, true)
  }

  /** The voter's own copy shows the vote. */
  lemma OwnCopyShowsVote(s: State, k: nat, isApproved: bool, isRejected: bool)
    requires Inv(s) && k < |s.cores| && Voted(s, k, isApproved, isRejected)
    ensures s.cores[k].copy.Some?
    ensures var d := s.cores[k].copy.value.decisions[k];
            d.isApproved == isApproved && d.isRejected == isRejected && SignedBy(s.body, s.facts, k, d)
  {
    assert CoreOk(s.body, s.facts, k, s.cores[k]);
    assert AtMostOneVote(s.facts, User(s, k));
    var d := s.cores[k].copy.value.decisions[k];
    assert SignedBy(s.body, s.facts, k, d);
  }

  /** When all is quiet, the initiator knows every vote that approves or rejects. */
  lemma InitiatorKnows(s: State, wasted: set<nat>, k: nat, isApproved: bool)
    requires Inv(s) && Live(s, wasted) && Quiet(s) && k < |s.cores| && Voted(s, k, isApproved, !isApproved)
    ensures s.cores[0].copy.Some?
    ensures var d := s.cores[0].copy.value.decisions[k]; d.isApproved == isApproved && d.isRejected == !isApproved
  {
    OwnCopyShowsVote(s, k, isApproved, !isApproved);
    if k > 0 { assert VoteReported(s.cores, s.network, k); }
    assert CoreOk(s.body, s.facts, 0, s.cores[0]);
    assert AtMostOneVote(s.facts, User(s, k));
    assert SignedBy(s.body, s.facts, k, s.cores[0].copy.value.decisions[k]);
  }

  lemma QuietCoreIsClosed(s: State, wasted: set<nat>, k: nat)
    requires Inv(s) && Live(s, wasted) && Quiet(s) && k < |s.cores| && 0 !in wasted && k !in wasted
    requires s.cores[0].copy.Some? && Resolved(s.cores[0].copy.value.decisions)
    requires |s.cores| == 2 && k == 1 ==> s.cores[1].copy.Some? && IsDecided(s.cores[1].copy.value.decisions[1])
    ensures s.cores[k].copy.Some? && Closed(s.cores[k].copy.value.status)
  {
    assert CoreClosed(s.cores, 0);
    if k > 0 && |s.cores| > 2 {
      assert KnowsOrWillKnow(s.cores, s.network, k);
    } else if k > 0 {
      assert CoreOk(s.body, s.facts, 1, s.cores[1]);
      var ds := s.cores[1].copy.value.decisions;
      if IsRejection(ds[1]) { assert AnyRejected(ds); } else { assert AllApproved(ds); }
    }
  }

  lemma NoRefusal(s: State, k: nat)
    requires Inv(s) && k < |s.cores| && s.cores[0].copy.Some? && AllApproved(s.cores[0].copy.value.decisions)
    ensures !Refused(s, k)
  {
    assert CoreOk(s.body, s.facts, 0, s.cores[0]) && CoreOk(s.body, s.facts, k, s.cores[k]);
    if s.cores[k].copy.Some? {
      OutcomesExclude(s.body, s.facts, s.cores[0].copy.value.decisions, s.cores[k].copy.value.decisions);
    }
  }

  lemma QuietApproval(s: State, wasted: set<nat>, k: nat)
    requires Inv(s) && Live(s, wasted) && Quiet(s) && s.body.requireAgreement && k < |s.cores| && EveryoneApproved(s)
    requires 0 !in wasted && k !in wasted
    ensures Running(s, k)
  {
    forall i: nat | i < |s.cores| ensures s.cores[0].copy.Some? && IsApproval(s.cores[0].copy.value.decisions[i]) {
      assert Voted(s, i, true, false);
      InitiatorKnows(s, wasted, i, true);
    }
    assert s.cores[0].copy.Some? by { assert Voted(s, 0, true, false); }
    assert AllApproved(s.cores[0].copy.value.decisions);
    if |s.cores| == 2 { OwnCopyShowsVote(s, 1, true, false); }
    QuietCoreIsClosed(s, wasted, k);
    NoRefusal(s, k);
  }

  lemma QuietRejection(s: State, wasted: set<nat>, i: nat, k: nat)
    requires Inv(s) && Live(s, wasted) && Quiet(s) && s.body.requireAgreement && k < |s.cores| && i < |s.cores|
    requires Voted(s, i, false, true) && 0 !in wasted && k !in wasted
    ensures Refused(s, k)
  {
    InitiatorKnows(s, wasted, i, false);
    var es := s.cores[0].copy.value.decisions;
    assert CoreOk(s.body, s.facts, 0, s.cores[0]) && CoreOk(s.body, s.facts, k, s.cores[k]);
    assert AnyRejected(es);
    if |s.cores| == 2 {
      assert i == 1;
      OwnCopyShowsVote(s, 1, false, true);
    }
    QuietCoreIsClosed(s, wasted, k);
    OutcomesExclude(s.body, s.facts, s.cores[k].copy.value.decisions, es);
  }

  lemma OutcomeHasVotes(s: State, k: nat)
    requires Inv(s) && s.body.requireAgreement && k < |s.cores|
    ensures Running(s, k) ==> EveryoneApproved(s)
    ensures Refused(s, k) ==> SomeoneRejected(s)
  {
    assert CoreOk(s.body, s.facts, k, s.cores[k]);
    if Running(s, k) {
      forall i: nat | i < |s.cores| ensures Voted(s, i, true, false) {
        assert SignedBy(s.body, s.facts, i, s.cores[k].copy.value.decisions[i]);
      }
    }
    if Refused(s, k) {
      var ds := s.cores[k].copy.value.decisions;
      var i: nat :| i < |ds| && !ds[i].isApproved && ds[i].isRejected;
      assert SignedBy(s.body, s.facts, i, ds[i]);
      assert Voted(s, i, false, true);
    }
  }

  /**
   The outcome is a function of the votes.  If everybody approved, every copy is started or
   finished; if somebody rejected, every copy is rejected, also at those who ignored the task
   or never voted; otherwise no copy is either.  A second section that found its task unlisted does
   no harm if a later one on that core, and one at the initiator, found it listed.
   */
  lemma QuietOutcome(body: TaskBody, steps: seq<Step>, k: nat)
    requires WellFormedBody(body) && body.requireAgreement && k < |body.participants|
    requires !Reached(body, steps).faulty && Quiet(Reached(body, steps))
    ensures var s, wasted := Reached(body, steps), WastedIn(Init(body), steps, {});
            && (EveryoneApproved(s) && 0 !in wasted && k !in wasted ==> Running(s, k))
            && (SomeoneRejected(s) && 0 !in wasted && k !in wasted ==> Refused(s, k))
            && (!EveryoneApproved(s) && !SomeoneRejected(s) ==> !Running(s, k) && !Refused(s, k))
  {
    var s := Reached(body, steps);
    ReachedOk(body, steps);
    ExecuteLive(Init(body), {}, steps);
    var wasted := WastedIn(Init(body), steps, {});
    OutcomeHasVotes(s, k);
    if 0 !in wasted && k !in wasted {
      if EveryoneApproved(s) { QuietApproval(s, wasted, k); }
      if i: nat :| i < |s.cores| && Voted(s, i, false, true) { QuietRejection(s, wasted, i, k); }
    }
  }

  // ---------------------------------------------------------------- what the hypotheses are for

  /** A computed outcome reaches the stored copy exactly when the task is listed by then. */
  lemma SettlingNeedsTheListing(s: State, h: Handler)
    requires Inv(s) && h in s.handlers && !Closed(s.cores[h.core].copy.value.status)
    ensures Closed(SettleStep(s, h).cores[h.core].copy.value.status) <==> s.cores[h.core].listed
    ensures h.core in WastedBy(s, Settle(h), {}) <==> !s.cores[h.core].listed
  {}
}
