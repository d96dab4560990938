/** Two concrete runs that show which claims about the protocol would be too strong. */
module AgreementExamples {
  import opened Wrappers
  import opened Tasks
  import opened Agreement
  import opened AgreementTheorems
  import opened AgreementOutcome

  const APPROVAL := SignedDecision(true, false, "")

  const PAIR := TaskBody("task", "protocol", "", [Participant("a", "initiator"), Participant("b", "receiver")], true,
      1000)

  const OPENED := Task(PAIR, [APPROVAL, NO_DECISION], Approved)

  const JOINED := Task(PAIR, [APPROVAL, APPROVAL], Started)

  const REQUEST := Message(1, Some(PAIR), [APPROVAL, NO_DECISION])

  const VOTE := Message(0, None, [APPROVAL, APPROVAL])

  const SETTLER := Handler(0, false)

  const FACT_A := FactOf("a", PAIR, APPROVAL)

  const FACT_B := FactOf("b", PAIR, APPROVAL)

  /** Before the vote: the other participant has a listed copy and has not answered. */
  function Asked(listed: bool): (s: State) {
    State(PAIR, [Core(Some(OPENED), listed), Core(Some(OPENED.(status := Waiting)), true)],
          multiset{}, multiset{}, {FACT_A}, false)
  }

  /** After the vote: what remains happens at the initiator. */
  function Answered(t: Task, listed: bool, network: multiset<Message>, handlers: multiset<Handler>)
    : (s: State) {
    State(PAIR, [Core(Some(t), listed), Core(Some(JOINED), true)], network, handlers, {FACT_A, FACT_B}, false)
  }

  lemma PairIsWellFormed()
    ensures WellFormedBody(PAIR)
  {}

  ghost predicate Reaches(steps: seq<Step>, s: State) {
    WellFormedBody(PAIR) && Reached(PAIR, steps) == s
  }

  lemma OneMore(steps: seq<Step>, s: State, step: Step, s': State)
    requires Reaches(steps, s) && WellFormed(s) && Next(s, step) == s'
    ensures Reaches(steps + [step], s') && WellFormed(s')
  {
    hide Next;
    ExecuteConcat(Init(PAIR), steps, [step]);
    assert [step][1..] == [];
    assert Execute(s, [step]) == Execute(s', []);
  }

  lemma RequestGoesOut()
    ensures WellFormedBody(PAIR)
    ensures Next(Init(PAIR), CreateTask) ==
            State(PAIR, [Core(Some(OPENED), false), Core(None, false)], multiset{REQUEST}, multiset{}, {FACT_A}, false)
  {}

  /** The cores once the request has been stored, before it is listed. */
  function Stored(): (s: State) {
    State(PAIR, [Core(Some(OPENED), false), Core(Some(OPENED.(status := Waiting)), false)], multiset{}, multiset{},
          {FACT_A}, false)
  }

  lemma RequestIsStored()
    requires WellFormedBody(PAIR)
    ensures var s1 := State(PAIR, [Core(Some(OPENED), false), Core(None, false)], multiset{REQUEST}, multiset{},
            {FACT_A}, false);
            WellFormed(s1) && Next(s1, DeliverFirst(REQUEST)) == Stored()
  {}

  lemma RequestIsListed()
    requires WellFormedBody(PAIR)
    ensures WellFormed(Stored()) && Next(Stored(), ListCopy(1)) == Asked(false)
  {}

  lemma RequestArrives() returns (steps: seq<Step>)
    ensures Reaches(steps, Asked(false)) && WellFormed(Asked(false))
  {
    PairIsWellFormed();
    RequestGoesOut();
    RequestIsStored();
    RequestIsListed();
    hide Next, Reached;
    var s1 := State(PAIR, [Core(Some(OPENED), false), Core(None, false)], multiset{REQUEST}, multiset{}, {FACT_A},
        false);
    OneMore([], Init(PAIR), CreateTask, s1);
    OneMore([] + [CreateTask], s1, DeliverFirst(REQUEST), Stored());
    OneMore([] + [CreateTask] + [DeliverFirst(REQUEST)], Stored(), ListCopy(1), Asked(false));
    steps := [] + [CreateTask] + [DeliverFirst(REQUEST)] + [ListCopy(1)];
  }

  lemma PairVotes(listed: bool)
    requires WellFormed(Asked(listed))
    ensures Next(Asked(listed), Confirm(1, true, false, "", 0))
            == Answered(OPENED, listed, multiset{VOTE}, multiset{})
  {
    StartTests([APPROVAL, APPROVAL]);
    assert AllApproved([APPROVAL, APPROVAL]);
    assert WithDecision(OPENED.(status := Waiting), "b", APPROVAL) == [APPROVAL, APPROVAL];
    assert Confirmed(OPENED.(status := Waiting), "b", true, false, "") == JOINED;
  }

  lemma VoteIsMerged(t: Task, facts: set<Fact>)
    requires FACT_A in facts && FACT_B in facts && t.body == PAIR
    requires t.decisions == [APPROVAL, NO_DECISION] || t.decisions == [APPROVAL, APPROVAL]
    ensures Merged(t, "a", VOTE.decisions) == [APPROVAL, APPROVAL] && Mergeable(facts, PAIR, "a", VOTE.decisions)
    ensures Decided([APPROVAL, APPROVAL]) && Count(Rejections, [APPROVAL, APPROVAL]) == 0
  {
    StartTests([APPROVAL, APPROVAL]);
    assert AllApproved([APPROVAL, APPROVAL]) && !AnyRejected([APPROVAL, APPROVAL]);
  }

  lemma VoteMerges(t: Task, listed: bool, network: multiset<Message>)
    requires VOTE in network && WellFormed(Answered(t, listed, network, multiset{}))
    requires t == OPENED || t == JOINED.(status := Finished)
    ensures Next(Answered(t, listed, network, multiset{}), Merge(VOTE, 0)) ==
            Answered(t.(decisions := [APPROVAL, APPROVAL]), listed, network - multiset{VOTE}, multiset{SETTLER})
  {
    hide Merged, Mergeable, Decided, Count, WellFormed;
    VoteIsMerged(t, {FACT_A, FACT_B});
  }

  lemma VoteSettles(t: Task, listed: bool, network: multiset<Message>)
    requires WellFormed(Answered(t, listed, network, multiset{SETTLER}))
    ensures Next(Answered(t, listed, network, multiset{SETTLER}), Settle(SETTLER)) ==
            Answered(if listed then t.(status := Started) else t, listed, network, multiset{})
  {}

  /**
   Without the hypothesis that replies reach a listed task, the outcome can be lost: everyone
   approves, nothing is under way any more, the other core has started and the initiator has not.
   */
  lemma EarlyReplyStrandsTheInitiator() returns (steps: seq<Step>)
    ensures WellFormedBody(PAIR)
    ensures var s := Reached(PAIR, steps);
            && Quiet(s) && !s.faulty && EveryoneApproved(s)
            && Running(s, 1) && !Running(s, 0) && s.cores[0].listed
  {
    hide Next, Reached;
    steps := RequestArrives();
    PairVotes(false);
    OneMore(steps, Asked(false), Confirm(1, true, false, "", 0),
        Answered(OPENED, false, multiset{VOTE}, multiset{}));
    steps := steps + [Confirm(1, true, false, "", 0)];
    var merged := OPENED.(decisions := [APPROVAL, APPROVAL]);
    VoteMerges(OPENED, false, multiset{VOTE});
    OneMore(steps, Answered(OPENED, false, multiset{VOTE}, multiset{}), Merge(VOTE, 0),
            Answered(merged, false, multiset{}, multiset{SETTLER}));
    steps := steps + [Merge(VOTE, 0)];
    VoteSettles(merged, false, multiset{});
    OneMore(steps, Answered(merged, false, multiset{}, multiset{SETTLER}), Settle(SETTLER),
            Answered(merged, false, multiset{}, multiset{}));
    steps := steps + [Settle(SETTLER)];
    LateListing(merged);
    var stranded := Answered(merged, true, multiset{}, multiset{});
    OneMore(steps, Answered(merged, false, multiset{}, multiset{}), ListAtInitiator, stranded);
    steps := steps + [ListAtInitiator];
    assert FACT_A in stranded.facts && FACT_B in stranded.facts;
    assert Voted(stranded, 0, true, false) && Voted(stranded, 1, true, false);
  }

  lemma LateListing(t: Task)
    requires WellFormed(Answered(t, false, multiset{}, multiset{}))
    ensures Next(Answered(t, false, multiset{}, multiset{}), ListAtInitiator) ==
            Answered(t, true, multiset{}, multiset{})
  {}

  lemma OrderlyListing()
    requires WellFormed(Asked(false))
    ensures Next(Asked(false), ListAtInitiator) == Asked(true)
  {}

  lemma VoteTwice()
    requires WellFormed(Answered(OPENED, true, multiset{VOTE}, multiset{}))
    ensures Next(Answered(OPENED, true, multiset{VOTE}, multiset{}), Duplicate(VOTE)) ==
            Answered(OPENED, true, multiset{VOTE, VOTE}, multiset{})
  {}

  lemma UserFinishes(network: multiset<Message>)
    requires WellFormed(Answered(JOINED, true, network, multiset{}))
    ensures Next(Answered(JOINED, true, network, multiset{}), Finish(0)) ==
            Answered(JOINED.(status := Finished), true, network, multiset{})
  {}

  /** Finished is not final: a late copy of the vote sets the task back to started. */
  lemma FinishedMayStartAgain() returns (steps: seq<Step>, more: seq<Step>)
    ensures WellFormedBody(PAIR)
    ensures var s := Reached(PAIR, steps); s.cores[0].copy.Some? && s.cores[0].copy.value.status == Finished
    ensures var s := Reached(PAIR, steps + more); s.cores[0].copy.Some? && s.cores[0].copy.value.status == Started
  {
    hide Next, Reached;
    var finished := JOINED.(status := Finished);
    steps := FirstFinish();
    VoteMerges(finished, true, multiset{VOTE});
    OneMore(steps, Answered(finished, true, multiset{VOTE}, multiset{}), Merge(VOTE, 0),
            Answered(finished, true, multiset{}, multiset{SETTLER}));
    VoteSettles(finished, true, multiset{});
    OneMore(steps + [Merge(VOTE, 0)], Answered(finished, true, multiset{}, multiset{SETTLER}), Settle(SETTLER),
            Answered(JOINED, true, multiset{}, multiset{}));
    more := [Merge(VOTE, 0), Settle(SETTLER)];
    assert steps + more == steps + [Merge(VOTE, 0)] + [Settle(SETTLER)];
  }

  /** A fault-free run in which the initiator finishes the task while a second copy of the vote is under way. */
  lemma FirstFinish() returns (steps: seq<Step>)
    ensures var s := Answered(JOINED.(status := Finished), true, multiset{VOTE}, multiset{});
            Reaches(steps, s) && WellFormed(s)
  {
    hide Next, Reached;
    steps := RequestArrives();
    OrderlyListing();
    OneMore(steps, Asked(false), ListAtInitiator, Asked(true));
    steps := steps + [ListAtInitiator];
    PairVotes(true);
    OneMore(steps, Asked(true), Confirm(1, true, false, "", 0),
        Answered(OPENED, true, multiset{VOTE}, multiset{}));
    steps := steps + [Confirm(1, true, false, "", 0)];
    VoteTwice();
    OneMore(steps, Answered(OPENED, true, multiset{VOTE}, multiset{}), Duplicate(VOTE),
            Answered(OPENED, true, multiset{VOTE, VOTE}, multiset{}));
    steps := steps + [Duplicate(VOTE)];
    VoteMerges(OPENED, true, multiset{VOTE, VOTE});
    var merged := OPENED.(decisions := [APPROVAL, APPROVAL]);
    assert multiset{VOTE, VOTE} - multiset{VOTE} == multiset{VOTE};
    OneMore(steps, Answered(OPENED, true, multiset{VOTE, VOTE}, multiset{}), Merge(VOTE, 0),
            Answered(merged, true, multiset{VOTE}, multiset{SETTLER}));
    steps := steps + [Merge(VOTE, 0)];
    VoteSettles(merged, true, multiset{VOTE});
    OneMore(steps, Answered(merged, true, multiset{VOTE}, multiset{SETTLER}), Settle(SETTLER),
            Answered(JOINED, true, multiset{VOTE}, multiset{}));
    steps := steps + [Settle(SETTLER)];
    UserFinishes(multiset{VOTE});
    OneMore(steps, Answered(JOINED, true, multiset{VOTE}, multiset{}), Finish(0),
            Answered(JOINED.(status := Finished), true, multiset{VOTE}, multiset{}));
    steps := steps + [Finish(0)];
  }
}
