/** What a copy's status says about the vote of the user who holds it, for every run. */
module AgreementVotes {
  import opened Wrappers
  import opened Tasks
  import opened Agreement
  import opened AgreementTheorems

  predicate IsAbstention(d: Decision) {
    d.signed && !d.isApproved && !d.isRejected
  }

  /**
   With an agreement, others may close the copy before its user has voted; without, only the user's
   own vote counts.
   */
  predicate StatusShowsVote(body: TaskBody, d: Decision, status: Status) {
    match status
    case Waiting => d == NO_DECISION
    case Approved => body.requireAgreement && IsApproval(d)
    case Ignored => IsAbstention(d)
    case Rejected => IsRejection(d) || body.requireAgreement
    case Started => IsApproval(d)
    case Finished => IsApproval(d)
  }

  ghost predicate Shows(body: TaskBody, cores: seq<Core>) {
    && CoresShaped(body, cores)
    && forall k | 0 <= k < |cores| && cores[k].copy.Some? ::
         StatusShowsVote(body, cores[k].copy.value.decisions[k], cores[k].copy.value.status)
  }

  lemma StoringShows(body: TaskBody, cores: seq<Core>, k: nat, t: Task)
    requires Shows(body, cores) && k < |cores| && t.body == body && |t.decisions| == |body.participants|
    requires StatusShowsVote(body, t.decisions[k], t.status)
    ensures Shows(body, Storing(cores, k, t))
  {}

  lemma CreateShows(s: State)
    requires Inv(s) && Shows(s.body, s.cores)
    ensures Shows(s.body, CreateStep(s).cores)
  {}

  lemma DeliverFirstShows(s: State, m: Message)
    requires Inv(s) && Shows(s.body, s.cores)
    ensures Shows(s.body, DeliverFirstStep(s, m).cores)
  {
    if m in s.network && s.cores[m.to].copy.None? {
      assert CoreOk(s.body, s.facts, m.to, s.cores[m.to]);
      StoringShows(s.body, s.cores, m.to, Task(s.body, m.decisions, Waiting));
    }
  }

  lemma ConfirmShows(s: State, k: nat, isApproved: bool, isRejected: bool, reason: string, now: int)
    requires Inv(s) && Shows(s.body, s.cores)
    ensures Shows(s.body, ConfirmStep(s, k, isApproved, isRejected, reason, now).cores)
  {
    if CanConfirm(s, k, isApproved, isRejected, now) {
      var t := s.cores[k].copy.value;
      assert CoreOk(s.body, s.facts, k, s.cores[k]);
      ConfirmedCopyOk(s.body, s.facts, k, t, isApproved, isRejected, reason);
      var t' := Confirmed(t, User(s, k), isApproved, isRejected, reason);
      StartTests(t'.decisions);
      StoringShows(s.body, s.cores, k, t');
    }
  }

  lemma MergeShows(s: State, m: Message, now: int)
    requires Inv(s) && Shows(s.body, s.cores)
    ensures Shows(s.body, MergeStep(s, m, now).cores)
  {}

  lemma SettleShows(s: State, h: Handler)
    requires Inv(s) && Shows(s.body, s.cores)
    ensures Shows(s.body, SettleStep(s, h).cores)
  {}

  lemma FinishShows(s: State, k: nat)
    requires WellFormed(s) && Shows(s.body, s.cores)
    ensures Shows(s.body, FinishStep(s, k).cores)
  {}

  lemma ListedShows(body: TaskBody, cores: seq<Core>, k: nat)
    requires Shows(body, cores) && k < |cores|
    ensures Shows(body, cores[k := cores[k].(listed := true)])
  {}

  lemma ListingShows(s: State, k: nat)
    requires WellFormed(s) && Shows(s.body, s.cores)
    ensures Shows(s.body, ListCopyStep(s, k).cores)
    ensures Shows(s.body, ListAtInitiatorStep(s).cores)
  {
    hide Shows;
    ListedShows(s.body, s.cores, 0);
    if k < |s.cores| { ListedShows(s.body, s.cores, k); }
  }

  lemma NextShows(s: State, step: Step)
    requires Inv(s) && Shows(s.body, s.cores)
    ensures Shows(s.body, Next(s, step).cores)
  {
    hide Inv, WellFormed, Shows, CreateStep, ListAtInitiatorStep, DeliverFirstStep, ListCopyStep, ConfirmStep,
        FinishStep, MergeStep, SettleStep;
    InvIsWellFormed(s);
    match step
    case CreateTask => CreateShows(s);
    case ListAtInitiator => ListingShows(s, 0);
    case DeliverFirst(m) => DeliverFirstShows(s, m);
    case ListCopy(k) => ListingShows(s, k);
    case Confirm(k, isApproved, isRejected, reason, now) => ConfirmShows(s, k, isApproved, isRejected, reason, now);
    case Finish(k) => FinishShows(s, k);
    case Merge(m, now) => MergeShows(s, m, now);
    case Settle(h) => SettleShows(s, h);
    case Duplicate(_) =>
    case Lose(_) =>
  }

  lemma {:induction false} ExecuteShows(s: State, steps: seq<Step>)
    requires Inv(s) && Shows(s.body, s.cores)
    ensures Shows(s.body, Execute(s, steps).cores)
    decreases |steps|
  {
    hide Inv, Shows;
    InvIsWellFormed(s);
    if steps != [] {
      NextOk(s, steps[0]);
      NextShows(s, steps[0]);
      ExecuteShows(Next(s, steps[0]), steps[1..]);
    }
  }

  /**
   A copy's status is its user's vote: waiting means none, approved and ignored mean just that, and a
   running task was approved here.  Only a rejection may be another's, and only with an agreement.
   */
  lemma StatusIsTheUsersVote(body: TaskBody, steps: seq<Step>, k: nat)
    requires WellFormedBody(body) && k < |body.participants| && Reached(body, steps).cores[k].copy.Some?
    ensures var t := Reached(body, steps).cores[k].copy.value;
            StatusShowsVote(body, t.decisions[k], t.status)
  {
    InitOk(body);
    ExecuteShows(Init(body), steps);
  }

  /** Without an agreement every participant decides for itself, whatever the others do. */
  lemma WithoutAgreementVotesDecide(body: TaskBody, steps: seq<Step>, k: nat)
    requires WellFormedBody(body) && !body.requireAgreement
    requires k < |body.participants| && Reached(body, steps).cores[k].copy.Some?
    ensures var s := Reached(body, steps);
            var d := s.cores[k].copy.value.decisions[k];
            && (Running(s, k) <==> IsApproval(d))
            && (Refused(s, k) <==> IsRejection(d))
            && (s.cores[k].copy.value.status == Ignored <==> IsAbstention(d))
            && (s.cores[k].copy.value.status == Waiting <==> d == NO_DECISION)
            && s.handlers == multiset{}
  {
    ReachedOk(body, steps);
    StatusIsTheUsersVote(body, steps, k);
  }

  // ---------------------------------------------------------------- the vote itself, with its reason

  /** The voter signs exactly what was asked for, and sends the vector that it stores unless it abstains. */
  lemma VoteGoesOut(s: State, k: nat, isApproved: bool, isRejected: bool, reason: string, now: int)
    requires Inv(s) && CanConfirm(s, k, isApproved, isRejected, now)
    ensures var s' := ConfirmStep(s, k, isApproved, isRejected, reason, now);
            && s'.facts == s.facts + {Fact(User(s, k), s.body, isApproved, isRejected, reason)}
            && s'.cores[k].copy.Some?
            && s'.cores[k].copy.value.decisions ==
               s.cores[k].copy.value.decisions[k := Decision(isApproved, isRejected, reason, true)]
            && s'.network == s.network + (if s.body.requireAgreement && (isApproved || isRejected)
               then multiset{Message(0, None, s'.cores[k].copy.value.decisions)} else multiset{})
  {
    assert CoreOk(s.body, s.facts, k, s.cores[k]);
    ConfirmedCopyOk(s.body, s.facts, k, s.cores[k].copy.value, isApproved, isRejected, reason);
    hide Inv, CoreOk, CopyOk, Confirmed, Keeps, VotesAreUnique;
  }

  /**
   Once given, a vote is held for good: after whatever else happens, the voter's copy carries it with its
   flags and its reason, and every vector stored or under way anywhere carries it or nothing in that slot.
   */
  lemma VoteIsHeldForGood(body: TaskBody, steps: seq<Step>, k: nat, isApproved: bool, isRejected: bool,
                          reason: string, now: int, more: seq<Step>, ds: seq<Decision>)
    requires WellFormedBody(body) && k < |body.participants|
    requires CanConfirm(Reached(body, steps), k, isApproved, isRejected, now)
    requires HeldSomewhere(Reached(body, steps + [Confirm(k, isApproved, isRejected, reason, now)] + more), ds)
    ensures var s := Reached(body, steps + [Confirm(k, isApproved, isRejected, reason, now)] + more);
            && s.cores[k].copy.Some?
            && s.cores[k].copy.value.decisions[k] == Decision(isApproved, isRejected, reason, true)
            && |ds| == |body.participants|
            && (ds[k] == Decision(false, false, "", false) || ds[k] == Decision(isApproved, isRejected, reason, true))
  {
    hide Inv, Reached, HeldSomewhere, ConfirmStep, NetworkShaped, HandlersShaped, WellFormedBody;
    var step := Confirm(k, isApproved, isRejected, reason, now);
    var voted := steps + [step];
    ReachedOk(body, steps);
    VoteGoesOut(Reached(body, steps), k, isApproved, isRejected, reason, now);
    ReachedNext(body, steps, step);
    OutcomesAreStable(body, voted, more);
    var s := Reached(body, voted + more);
    var s1 := Reached(body, voted);
    assert s1 == ConfirmStep(Reached(body, steps), k, isApproved, isRejected, reason, now);
    assert s1.cores[k].copy.value.decisions[k] == Decision(isApproved, isRejected, reason, true);
    assert CopyMayBecome(s1.cores[k].copy, s.cores[k].copy);
    CopyIsHeld(s, k);
    VotesAreAuthenticAndSingle(body, voted + more, ds, s.cores[k].copy.value.decisions, k);
  }

  lemma ReachedNext(body: TaskBody, steps: seq<Step>, step: Step)
    requires WellFormedBody(body)
    ensures Reached(body, steps + [step]) == Next(Reached(body, steps), step)
  {
    hide Next;
    ExecuteConcat(Init(body), steps, [step]);
    OneStep(Reached(body, steps), step);
  }

  lemma CopyIsHeld(s: State, k: nat)
    requires WellFormed(s) && k < |s.cores| && s.cores[k].copy.Some?
    ensures HeldSomewhere(s, s.cores[k].copy.value.decisions)
  {}
}
