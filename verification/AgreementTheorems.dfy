/** What holds in every state the protocol can reach, for every run. */
module AgreementTheorems {
  import opened Wrappers
  import opened Tasks
  import opened Agreement

  function Reached(body: TaskBody, steps: seq<Step>): (s: State)
    requires WellFormedBody(body)
    ensures WellFormed(s) && s.body == body
  {
    Execute(Init(body), steps)
  }

  predicate Running(s: State, k: nat)
    requires WellFormed(s) && k < |s.cores|
  {
    s.cores[k].copy.Some? && (s.cores[k].copy.value.status == Started || s.cores[k].copy.value.status == Finished)
  }

  predicate Refused(s: State, k: nat)
    requires WellFormed(s) && k < |s.cores|
  {
    s.cores[k].copy.Some? && s.cores[k].copy.value.status == Rejected
  }

  lemma ReachedOk(body: TaskBody, steps: seq<Step>)
    requires WellFormedBody(body)
    ensures Inv(Reached(body, steps))
  {
    InitOk(body);
    ExecuteOk(Init(body), steps);
  }

  /** Agreement: no core has started or finished a task that another core holds rejected. */
  lemma NoSplitOutcome(body: TaskBody, steps: seq<Step>, j: nat, k: nat)
    requires WellFormedBody(body) && body.requireAgreement
    requires j < |body.participants| && k < |body.participants|
    ensures var s := Reached(body, steps); !(Running(s, j) && Refused(s, k))
  {
    ReachedOk(body, steps);
    var s := Reached(body, steps);
    assert CoreOk(body, s.facts, j, s.cores[j]) && CoreOk(body, s.facts, k, s.cores[k]);
    if s.cores[j].copy.Some? && s.cores[k].copy.Some? {
      OutcomesExclude(body, s.facts, s.cores[j].copy.value.decisions, s.cores[k].copy.value.decisions);
    }
  }

  /** A started or finished task was approved, and not rejected, by every participant. */
  lemma StartedMeansUnanimous(body: TaskBody, steps: seq<Step>, k: nat, i: nat)
    requires WellFormedBody(body) && body.requireAgreement
    requires k < |body.participants| && i < |body.participants|
    requires Running(Reached(body, steps), k)
    ensures var s := Reached(body, steps);
            var d := s.cores[k].copy.value.decisions[i];
            IsApproval(d) && SignedBy(body, s.facts, i, d)
  {
    ReachedOk(body, steps);
    var s := Reached(body, steps);
    assert CoreOk(body, s.facts, k, s.cores[k]);
  }

  /** A rejected task was rejected by some participant. */
  lemma RejectedMeansSomeoneRefused(body: TaskBody, steps: seq<Step>, k: nat) returns (i: nat)
    requires WellFormedBody(body) && k < |body.participants|
    requires Refused(Reached(body, steps), k)
    ensures i < |body.participants|
    ensures var s := Reached(body, steps);
            var d := s.cores[k].copy.value.decisions[i];
            IsRejection(d) && SignedBy(body, s.facts, i, d)
  {
    ReachedOk(body, steps);
    var s := Reached(body, steps);
    assert CoreOk(s.body, s.facts, k, s.cores[k]);
    i :| i < |body.participants| && IsRejection(s.cores[k].copy.value.decisions[i]);
  }

  /** A decision vector held anywhere: in a stored copy or in a message under way. */
  ghost predicate HeldSomewhere(s: State, ds: seq<Decision>)
    requires WellFormed(s)
  {
    || (exists k: nat :: k < |s.cores| && s.cores[k].copy.Some? && s.cores[k].copy.value.decisions == ds)
    || (exists m :: m in s.network && m.decisions == ds)
  }

  lemma HeldIsAuthentic(s: State, ds: seq<Decision>)
    requires Inv(s) && HeldSomewhere(s, ds)
    ensures Authentic(s.body, s.facts, ds)
  {}

  /** Votes are authentic and single: two non-default decisions for one slot are the same signed vote. */
  lemma VotesAreAuthenticAndSingle(body: TaskBody, steps: seq<Step>, ds: seq<Decision>, es: seq<Decision>, i: nat)
    requires WellFormedBody(body) && i < |body.participants|
    requires var s := Reached(body, steps); HeldSomewhere(s, ds) && HeldSomewhere(s, es)
    ensures |ds| == |es| == |body.participants|
    ensures ds[i] != NO_DECISION ==> SignedBy(body, Reached(body, steps).facts, i, ds[i])
    ensures ds[i] != NO_DECISION && es[i] != NO_DECISION ==> ds[i] == es[i]
  {
    ReachedOk(body, steps);
    var s := Reached(body, steps);
    HeldIsAuthentic(s, ds);
    HeldIsAuthentic(s, es);
    assert AtMostOneVote(s.facts, body.participants[i].userId);
  }

  /** Whatever happened between its two critical sections, a handler's outcome is still what the copy says. */
  lemma ComputedOutcomeStaysJustified(body: TaskBody, steps: seq<Step>, h: Handler)
    requires WellFormedBody(body)
    requires h in Reached(body, steps).handlers
    ensures var s := Reached(body, steps);
            var ds := s.cores[h.core].copy.value.decisions;
            && (h.rejected <==> AnyRejected(ds))
            && (!h.rejected <==> AllApproved(ds))
  {
    ReachedOk(body, steps);
    var s := Reached(body, steps);
    assert CoreOk(body, s.facts, h.core, s.cores[h.core]);
    var ds := s.cores[h.core].copy.value.decisions;
    OutcomesExclude(body, s.facts, ds, ds);
  }

  /** With honest cores, the signature check of the merging handler never refuses a message. */
  lemma MergingNeverFailsOnSignatures(body: TaskBody, steps: seq<Step>, m: Message)
    requires WellFormedBody(body)
    requires var s := Reached(body, steps); m in s.network && s.cores[m.to].copy.Some?
    ensures var s := Reached(body, steps); Mergeable(s.facts, body, User(s, m.to), m.decisions)
  {
    ReachedOk(body, steps);
    var s := Reached(body, steps);
    assert CoreOk(body, s.facts, m.to, s.cores[m.to]);
    MergedCopyOk(body, s.facts, m.to, s.cores[m.to].copy.value, m.decisions);
  }

  // ---------------------------------------------------------------- what one state says about the later ones

  predicate StatusMayBecome(old': Status, new': Status) {
    match old'
    case Waiting => true
    case Approved | Ignored => new' != Waiting
    case Rejected => new' == Rejected
    case Started | Finished => new' == Started || new' == Finished
  }

  ghost predicate CopyMayBecome(old': Option<Task>, new': Option<Task>) {
    old'.Some? ==>
      && new'.Some?
      && Keeps(old'.value.decisions, new'.value.decisions)
      && StatusMayBecome(old'.value.status, new'.value.status)
  }

  /** Copies stay, votes are write-once, waiting is never re-entered, outcomes are never reversed. */
  ghost predicate Later(cores: seq<Core>, cores': seq<Core>) {
    && |cores| == |cores'|
    && forall k | 0 <= k < |cores| :: CopyMayBecome(cores[k].copy, cores'[k].copy)
  }

  lemma LaterReflexive(cores: seq<Core>)
    ensures Later(cores, cores)
  {}

  lemma LaterTransitive(cores: seq<Core>, cores1: seq<Core>, cores2: seq<Core>)
    requires Later(cores, cores1) && Later(cores1, cores2)
    ensures Later(cores, cores2)
  {}

  lemma StoringIsLater(cores: seq<Core>, k: nat, t: Task)
    requires k < |cores| && CopyMayBecome(cores[k].copy, Some(t))
    ensures Later(cores, Storing(cores, k, t))
  {}

  lemma ConfirmIsLater(s: State, k: nat, isApproved: bool, isRejected: bool, reason: string, now: int)
    requires Inv(s)
    ensures Later(s.cores, ConfirmStep(s, k, isApproved, isRejected, reason, now).cores)
  {
    LaterReflexive(s.cores);
    if CanConfirm(s, k, isApproved, isRejected, now) {
      var t := s.cores[k].copy.value;
      assert CoreOk(s.body, s.facts, k, s.cores[k]);
      ConfirmedCopyOk(s.body, s.facts, k, t, isApproved, isRejected, reason);
      StoringIsLater(s.cores, k, Confirmed(t, User(s, k), isApproved, isRejected, reason));
    }
  }

  lemma MergeIsLater(s: State, m: Message, now: int)
    requires Inv(s)
    ensures Later(s.cores, MergeStep(s, m, now).cores)
  {
    LaterReflexive(s.cores);
    if m in s.network && s.cores[m.to].copy.Some? {
      var t := s.cores[m.to].copy.value;
      assert CoreOk(s.body, s.facts, m.to, s.cores[m.to]);
      MergedCopyOk(s.body, s.facts, m.to, t, m.decisions);
      StoringIsLater(s.cores, m.to, t.(decisions := Merged(t, User(s, m.to), m.decisions)));
    }
  }

  lemma SettleIsLater(s: State, h: Handler)
    requires Inv(s)
    ensures Later(s.cores, SettleStep(s, h).cores)
  {
    LaterReflexive(s.cores);
    if h in s.handlers {
      var t := s.cores[h.core].copy.value;
      assert CoreOk(s.body, s.facts, h.core, s.cores[h.core]);
      OutcomesExclude(s.body, s.facts, t.decisions, t.decisions);
      StoringIsLater(s.cores, h.core, t.(status := if h.rejected then Rejected else Started));
    }
  }

  lemma FirstCopyIsLater(s: State, m: Message)
    requires WellFormed(s)
    ensures Later(s.cores, CreateStep(s).cores)
    ensures Later(s.cores, DeliverFirstStep(s, m).cores)
  {
    LaterReflexive(s.cores);
    if s.cores[0].copy.None? { StoringIsLater(s.cores, 0, NewTask(s.body)); }
    if m in s.network && s.cores[m.to].copy.None? {
      StoringIsLater(s.cores, m.to, Task(s.body, m.decisions, Waiting));
    }
  }

  lemma FinishIsLater(s: State, k: nat)
    requires WellFormed(s)
    ensures Later(s.cores, FinishStep(s, k).cores)
  {
    LaterReflexive(s.cores);
  }

  lemma ListingIsLater(cores: seq<Core>, k: nat)
    requires k < |cores|
    ensures Later(cores, cores[k := cores[k].(listed := true)])
  {}

  lemma ListIsLater(s: State, k: nat)
    requires WellFormed(s)
    ensures Later(s.cores, ListCopyStep(s, k).cores)
    ensures Later(s.cores, ListAtInitiatorStep(s).cores)
  {
    hide Later;
    LaterReflexive(s.cores);
    ListingIsLater(s.cores, 0);
    if k < |s.cores| { ListingIsLater(s.cores, k); }
  }

  lemma NextIsLater(s: State, step: Step)
    requires Inv(s)
    ensures Later(s.cores, Next(s, step).cores)
  {
    hide Inv, WellFormed, Later, CreateStep, ListAtInitiatorStep, DeliverFirstStep, ListCopyStep, ConfirmStep,
        FinishStep, MergeStep, SettleStep;
    InvIsWellFormed(s);
    LaterReflexive(s.cores);
    match step
    case CreateTask => FirstCopyIsLater(s, Message(0, None, []));
    case ListAtInitiator => ListIsLater(s, 0);
    case DeliverFirst(m) => FirstCopyIsLater(s, m);
    case ListCopy(k) => ListIsLater(s, k);
    case Confirm(k, isApproved, isRejected, reason, now) => ConfirmIsLater(s, k, isApproved, isRejected, reason, now);
    case Finish(k) => FinishIsLater(s, k);
    case Merge(m, now) => MergeIsLater(s, m, now);
    case Settle(h) => SettleIsLater(s, h);
    case Duplicate(_) =>
    case Lose(_) =>
  }

  lemma {:induction false} ExecuteIsLater(s: State, steps: seq<Step>)
    requires Inv(s)
    ensures Later(s.cores, Execute(s, steps).cores)
    decreases |steps|
  {
    if steps != [] {
      NextIsLater(s, steps[0]);
      NextOk(s, steps[0]);
      ExecuteIsLater(Next(s, steps[0]), steps[1..]);
      LaterTransitive(s.cores, Next(s, steps[0]).cores, Execute(s, steps).cores);
    } else {
      LaterReflexive(s.cores);
    }
  }

  lemma {:induction false} ExecuteConcat(s: State, first: seq<Step>, more: seq<Step>)
    requires WellFormed(s)
    ensures Execute(s, first + more) == Execute(Execute(s, first), more)
    decreases |first|
  {
    if first == [] {
      assert first + more == more;
    } else {
      assert (first + more)[1..] == first[1..] + more;
      ExecuteConcat(Next(s, first[0]), first[1..], more);
    }
  }

  lemma OneStep(s: State, step: Step)
    requires WellFormed(s)
    ensures Execute(s, [step]) == Next(s, step)
  {
    hide Next;
    assert [step][1..] == [];
  }

  /** Every run only ever moves copies forward: nothing a run does later takes back what it did. */
  lemma OutcomesAreStable(body: TaskBody, steps: seq<Step>, more: seq<Step>)
    requires WellFormedBody(body)
    ensures Later(Reached(body, steps).cores, Reached(body, steps + more).cores)
  {
    ReachedOk(body, steps);
    ExecuteConcat(Init(body), steps, more);
    ExecuteIsLater(Reached(body, steps), more);
  }
}
