/**
 What listing the task does: before it nothing is decided at the initiator or broadcast, and it
 decides on every core whether an outcome is applied.
 */
module AgreementListing {
  import opened Tasks
  import opened Agreement
  import opened AgreementTheorems
  import opened AgreementOutcome
  import opened AgreementFinish

  /** An unlisted initiator has the status it created the task with, and only the request travels to the others. */
  predicate OnlyRequested(s: State)
    requires WellFormed(s)
  {
    !s.cores[0].listed ==>
      && (s.cores[0].copy.Some? ==> s.cores[0].copy.value.status == NewTask(s.body).status)
      && RequestsOnly(s.body, s.network)
  }

  predicate RequestsOnly(body: TaskBody, network: multiset<Message>)
    requires |body.participants| > 0
  {
    forall m | m in network && m.to > 0 :: m.decisions == NewTask(body).decisions
  }

  lemma CreatingStep(s: State)
    requires Inv(s) && OnlyRequested(s)
    ensures OnlyRequested(CreateStep(s))
  {}

  lemma FirstCopyStep(s: State, m: Message)
    requires Inv(s) && OnlyRequested(s)
    ensures OnlyRequested(DeliverFirstStep(s, m))
  {
    hide NewTask, CheckDecision;
  }

  lemma MergingStep(s: State, m: Message, now: int)
    requires Inv(s) && OnlyRequested(s)
    ensures OnlyRequested(MergeStep(s, m, now))
  {
    InvIsWellFormed(s);
    hide Inv, NewTask, Merged, Mergeable, Decided, Count;
  }

  lemma VotingStep(s: State, k: nat, isApproved: bool, isRejected: bool, reason: string, now: int)
    requires Inv(s) && OnlyRequested(s)
    ensures OnlyRequested(ConfirmStep(s, k, isApproved, isRejected, reason, now))
    ensures OnlyRequested(FinishStep(s, k))
  {
    hide NewTask, Confirmed;
  }

  lemma ListingStep(s: State, k: nat)
    requires WellFormed(s) && OnlyRequested(s)
    ensures OnlyRequested(ListCopyStep(s, k))
    ensures OnlyRequested(ListAtInitiatorStep(s))
  {}

  /** Here the reason is: an unlisted task cannot change status, so its handler gives up before it broadcasts. */
  lemma SettlingStep(s: State, h: Handler)
    requires WellFormed(s) && OnlyRequested(s)
    ensures OnlyRequested(SettleStep(s, h))
  {
    hide NewTask, ToEveryone;
  }

  lemma NextOnlyRequests(s: State, step: Step)
    requires Inv(s) && OnlyRequested(s)
    ensures OnlyRequested(Next(s, step))
  {
    InvIsWellFormed(s);
    hide Inv, WellFormed, NewTask, CreateStep, ListAtInitiatorStep, DeliverFirstStep, ListCopyStep, ConfirmStep,
        FinishStep, MergeStep, SettleStep;
    match step
    case CreateTask => CreatingStep(s);
    case ListAtInitiator => ListingStep(s, 0);
    case DeliverFirst(m) => FirstCopyStep(s, m);
    case ListCopy(k) => ListingStep(s, k);
    case Confirm(k, isApproved, isRejected, reason, now) => VotingStep(s, k, isApproved, isRejected, reason, now);
    case Finish(k) => VotingStep(s, k, true, false, "", 0);
    case Merge(m, now) => MergingStep(s, m, now);
    case Settle(h) => SettlingStep(s, h);
    case Duplicate(m) =>
    case Lose(m) =>
  }

  lemma {:induction false} ExecuteOnlyRequests(s: State, steps: seq<Step>)
    requires Inv(s) && OnlyRequested(s)
    ensures OnlyRequested(Execute(s, steps))
    decreases |steps|
  {
    hide Inv, OnlyRequested, Next;
    InvIsWellFormed(s);
    if steps != [] {
      NextOk(s, steps[0]);
      NextOnlyRequests(s, steps[0]);
      ExecuteOnlyRequests(Next(s, steps[0]), steps[1..]);
    }
  }

  /**
   In every run, faults or not: until the initiator has listed the task, it has not changed it, and
   every other core is only asked.
   */
  lemma UnlistedIsNeverBroadcast(body: TaskBody, steps: seq<Step>, m: Message)
    requires WellFormedBody(body) && !Reached(body, steps).cores[0].listed
    ensures var s := Reached(body, steps);
            && (s.cores[0].copy.Some? ==> s.cores[0].copy.value.status == NewTask(body).status)
            && (m in s.network && m.to > 0 ==> m.decisions == NewTask(body).decisions)
  {
    hide NewTask;
    InitOk(body);
    ExecuteOnlyRequests(Init(body), steps);
  }

  // ---------------------------------------------------------------- when a core is stranded

  predicate OthersApproved(ds: seq<Decision>, k: nat) {
    forall i | 0 <= i < |ds| && i != k :: IsApproval(ds[i])
  }

  /** The user's own vote decides at once: it rejects, or it is the last approval. */
  predicate VoteDecides(s: State, step: Step, k: nat)
    requires WellFormed(s) && k < |s.cores|
  {
    && step.Confirm? && step.core == k
    && CanConfirm(s, k, step.isApproved, step.isRejected, step.now)
    && (step.isApproved ==> OthersApproved(s.cores[k].copy.value.decisions, k))
    && (step.isApproved || step.isRejected)
  }

  lemma LastApproval(ds: seq<Decision>, k: nat, d: Decision)
    requires k < |ds|
    ensures AllApproved(ds[k := d]) <==> IsApproval(d) && OthersApproved(ds, k)
  {
    var ds' := ds[k := d];
    if AllApproved(ds') {
      assert IsApproval(ds'[k]);
      assert forall i | 0 <= i < |ds| && i != k :: ds'[i] == ds[i];
    }
  }

  lemma VoteClosesCopy(t: Task, k: nat, isApproved: bool, isRejected: bool, reason: string)
    requires WellFormedBody(t.body) && k < |t.decisions| == |t.body.participants| && t.body.requireAgreement
    requires VoteStatus(isApproved, isRejected).Some?
    ensures Closed(Confirmed(t, t.body.participants[k].userId, isApproved, isRejected, reason).status) <==>
              (isApproved || isRejected) && (isApproved ==> OthersApproved(t.decisions, k))
  {
    var d := SignedDecision(isApproved, isRejected, reason);
    var ds := WithDecision(t, t.body.participants[k].userId, d);
    assert DistinctFromOthers(t.body, k);
    assert ds == t.decisions[k := d];
    StartTests(ds);
    LastApproval(t.decisions, k, d);
    hide Count, AllApproved, OthersApproved;
  }

  lemma VotingCloses(s: State, step: Step, k: nat)
    requires WellFormed(s) && step.Confirm? && k < |s.cores| && s.body.requireAgreement
    ensures CoreClosed(Next(s, step).cores, k) <==> CoreClosed(s.cores, k) || VoteDecides(s, step, k)
  {
    hide Confirmed, OthersApproved;
    if CanConfirm(s, step.core, step.isApproved, step.isRejected, step.now) {
      VoteClosesCopy(s.cores[step.core].copy.value, step.core, step.isApproved, step.isRejected, step.reason);
    }
  }

  lemma FinishingDecidesNothing(s: State, j: nat, k: nat)
    requires WellFormed(s)
    ensures CoreClosed(FinishStep(s, j).cores, k) <==> CoreClosed(s.cores, k)
  {}

  lemma CreatingDecidesNothing(s: State, k: nat)
    requires WellFormed(s) && |s.cores| > 1 && s.body.requireAgreement
    ensures CoreClosed(CreateStep(s).cores, k) <==> CoreClosed(s.cores, k)
  {}

  lemma ReceivingDecidesNothing(s: State, m: Message, k: nat)
    requires WellFormed(s)
    ensures CoreClosed(DeliverFirstStep(s, m).cores, k) <==> CoreClosed(s.cores, k)
  {}

  lemma MergingDecidesNothing(s: State, m: Message, now: int, k: nat)
    requires WellFormed(s)
    ensures CoreClosed(MergeStep(s, m, now).cores, k) <==> CoreClosed(s.cores, k)
  {}

  lemma ListingDecidesNothing(s: State, j: nat, k: nat)
    requires WellFormed(s) && k < |s.cores|
    ensures CoreClosed(ListCopyStep(s, j).cores, k) <==> CoreClosed(s.cores, k)
    ensures CoreClosed(ListAtInitiatorStep(s).cores, k) <==> CoreClosed(s.cores, k)
  {}

  lemma SettlingDecides(s: State, h: Handler, k: nat)
    requires WellFormed(s) && k < |s.cores|
    ensures CoreClosed(SettleStep(s, h).cores, k) <==> CoreClosed(s.cores, k) || Settles(s, Settle(h), k)
  {
    hide ToEveryone;
  }

  /** A step closes a copy if and only if it settles there, or is the user's own deciding vote. */
  lemma OutcomeStep(s: State, step: Step, k: nat)
    requires WellFormed(s) && k < |s.cores| && |s.cores| > 1 && s.body.requireAgreement
    ensures CoreClosed(Next(s, step).cores, k) <==>
              CoreClosed(s.cores, k) || Settles(s, step, k) || VoteDecides(s, step, k)
  {
    hide WellFormed, CoreClosed, CanConfirm, OthersApproved, CreateStep, ListAtInitiatorStep, DeliverFirstStep,
        ListCopyStep, ConfirmStep, FinishStep, MergeStep, SettleStep;
    match step
    case CreateTask => CreatingDecidesNothing(s, k);
    case ListAtInitiator => ListingDecidesNothing(s, 0, k);
    case DeliverFirst(m) => ReceivingDecidesNothing(s, m, k);
    case ListCopy(j) => ListingDecidesNothing(s, j, k);
    case Confirm(_, _, _, _, _) => VotingCloses(s, step, k);
    case Finish(j) => FinishingDecidesNothing(s, j, k);
    case Merge(m, now) => MergingDecidesNothing(s, m, now, k);
    case Settle(h) => SettlingDecides(s, h, k);
    case Duplicate(m) =>
    case Lose(m) =>
  }

  /**
   The step at this position of the run decides the copy of core k: it settles, and finds the task
   listed, or it is the user's own vote and the last that is needed.
   */
  predicate DecidesAt(body: TaskBody, steps: seq<Step>, i: nat, k: nat)
    requires WellFormedBody(body) && k < |body.participants| && i < |steps|
  {
    var s := Reached(body, steps[..i]);
    Settles(s, steps[i], k) || VoteDecides(s, steps[i], k)
  }

  ghost predicate SomeStepDecides(body: TaskBody, steps: seq<Step>, k: nat)
    requires WellFormedBody(body) && k < |body.participants|
  {
    exists i: nat :: i < |steps| && DecidesAt(body, steps, i, k)
  }

  /**
   In every run of an agreement, a core has the outcome if and only if some second section ran there
   after the listing, or its own vote decided.  So a core is stranded, with all votes merged and
   nothing under way, exactly when all its second sections came before.
   */
  lemma {:induction false} CoreClosesExactly(body: TaskBody, steps: seq<Step>, k: nat)
    requires WellFormedBody(body) && 1 < |body.participants| && k < |body.participants| && body.requireAgreement
    ensures CoreClosed(Reached(body, steps).cores, k) <==> SomeStepDecides(body, steps, k)
  {
    hide CoreClosed, Reached, DecidesAt, SomeStepDecides;
    if steps == [] {
      NothingAtFirst(body, k);
    } else {
      CoreClosesExactly(body, steps[..|steps| - 1], k);
      LastStep(body, steps, k);
      EarlierSteps(body, steps, k);
    }
  }

  lemma LastStep(body: TaskBody, steps: seq<Step>, k: nat)
    requires WellFormedBody(body) && 1 < |body.participants| && k < |body.participants| && body.requireAgreement
             && steps != []
    ensures var n := |steps| - 1;
            CoreClosed(Reached(body, steps).cores, k) <==>
              CoreClosed(Reached(body, steps[..n]).cores, k) || DecidesAt(body, steps, n, k)
  {
    hide Inv, CoreClosed, Settles, VoteDecides, Next;
    var n := |steps| - 1;
    var init := steps[..n];
    ReachedOk(body, init);
    ExecuteConcat(Init(body), init, [steps[n]]);
    assert steps == init + [steps[n]];
    OneStep(Reached(body, init), steps[n]);
    OutcomeStep(Reached(body, init), steps[n], k);
  }

  lemma EarlierSteps(body: TaskBody, steps: seq<Step>, k: nat)
    requires WellFormedBody(body) && k < |body.participants| && steps != []
    ensures var n := |steps| - 1;
            SomeStepDecides(body, steps, k) <==> SomeStepDecides(body, steps[..n], k) || DecidesAt(body, steps, n, k)
  {
    hide Settles, VoteDecides, Reached;
    var n := |steps| - 1;
    forall i: nat | i < n ensures DecidesAt(body, steps[..n], i, k) <==> DecidesAt(body, steps, i, k) {
      assert steps[..n][..i] == steps[..i];
    }
    hide DecidesAt;
  }

  lemma NothingAtFirst(body: TaskBody, k: nat)
    requires WellFormedBody(body) && k < |body.participants|
    ensures !CoreClosed(Reached(body, []).cores, k) && !SomeStepDecides(body, [], k)
  {}

  /** The initiator's own vote is its request, which never decides: only a second section closes its copy. */
  lemma InitiatorClosesExactly(body: TaskBody, steps: seq<Step>)
    requires WellFormedBody(body) && |body.participants| > 1 && body.requireAgreement
    ensures CoreClosed(Reached(body, steps).cores, 0) <==>
              exists i: nat :: i < |steps| && Settles(Reached(body, steps[..i]), steps[i], 0)
  {
    hide CoreClosed, Settles, Reached, VoteDecides;
    CoreClosesExactly(body, steps, 0);
    forall i: nat | i < |steps|
      ensures DecidesAt(body, steps, i, 0) <==> Settles(Reached(body, steps[..i]), steps[i], 0)
    {
      InitiatorNeverVotes(body, steps[..i], steps[i]);
    }
    hide DecidesAt;
  }

  lemma InitiatorNeverVotes(body: TaskBody, steps: seq<Step>, step: Step)
    requires WellFormedBody(body)
    ensures !VoteDecides(Reached(body, steps), step, 0)
  {
    ReachedOk(body, steps);
    var s := Reached(body, steps);
    assert CoreOk(s.body, s.facts, 0, s.cores[0]);
  }

  // ---------------------------------------------------------------- wasted second sections

  /** One step: what is wasted at the initiator is wasted while its copy is open. */
  lemma WastedStep(s: State, step: Step, wasted: set<nat>)
    requires Inv(s) && OnlyRequested(s) && |s.cores| > 1 && s.body.requireAgreement
    requires 0 in wasted ==> !CoreClosed(s.cores, 0)
    ensures 0 in WastedBy(s, step, wasted) ==> !CoreClosed(Next(s, step).cores, 0)
  {
    InvIsWellFormed(s);
    OutcomeStep(s, step, 0);
    assert CoreOk(s.body, s.facts, 0, s.cores[0]);
    hide Inv, Next, CoresOk, NetworkOk, HandlersOk;
  }

  lemma {:induction false} WastedInRuns(s: State, steps: seq<Step>, wasted: set<nat>)
    requires Inv(s) && OnlyRequested(s) && |s.cores| > 1 && s.body.requireAgreement
    requires 0 in wasted ==> !CoreClosed(s.cores, 0)
    ensures 0 in WastedIn(s, steps, wasted) ==> !CoreClosed(Execute(s, steps).cores, 0)
    decreases |steps|
  {
    hide Inv, OnlyRequested, CoreClosed, WastedBy, Next;
    InvIsWellFormed(s);
    if steps != [] {
      NextOk(s, steps[0]);
      NextOnlyRequests(s, steps[0]);
      WastedStep(s, steps[0], wasted);
      CoresStay(s, steps[0]);
      WastedInRuns(Next(s, steps[0]), steps[1..], WastedBy(s, steps[0], wasted));
    }
  }

  lemma CoresStay(s: State, step: Step)
    requires WellFormed(s)
    ensures |Next(s, step).cores| == |s.cores|
  {}

  /**
   When nothing is under way in a run without faults and the votes settle the matter, the initiator has
   the outcome if and only if its last second section was not wasted on an unlisted task.
   */
  lemma QuietInitiatorExactly(body: TaskBody, steps: seq<Step>)
    requires WellFormedBody(body) && |body.participants| > 1 && body.requireAgreement
    requires !Reached(body, steps).faulty && Quiet(Reached(body, steps))
    requires EveryoneApproved(Reached(body, steps)) || SomeoneRejected(Reached(body, steps))
    ensures CoreClosed(Reached(body, steps).cores, 0) <==> 0 !in WastedIn(Init(body), steps, {})
  {
    InitOk(body);
    WastedInRuns(Init(body), steps, {});
    hide Inv, EveryoneApproved, SomeoneRejected, Execute, WastedIn;
    if 0 !in WastedIn(Init(body), steps, {}) { QuietOutcome(body, steps, 0); }
  }
}
