/**
 Tasks, decisions and the pure part of the task handlers: what a handler computes
 from the copy it has read, before it writes anything.

 Signatures are ideal.  A signed decision is one whose signature is not empty, and it
 verifies exactly when its signer produced it: `facts` is the set of everything signed.
 The signed text is the task body (the task without decisions and status) and the vote.
 */
module Tasks {
  import opened Wrappers

  type UserId = string

  datatype Status = Waiting | Approved | Rejected | Ignored | Started | Finished

  datatype Participant = Participant(userId: UserId, role: string)

  datatype TaskBody = TaskBody(
    taskId: string,
    protocolName: string,
    protocolParam: string,
    participants: seq<Participant>,
    requireAgreement: bool,
    expirationTime: int)

  datatype Decision = Decision(isApproved: bool, isRejected: bool, reason: string, signed: bool)

  datatype Task = Task(body: TaskBody, decisions: seq<Decision>, status: Status)

  datatype Fact = Fact(userId: UserId, body: TaskBody, isApproved: bool, isRejected: bool, reason: string)

  datatype TaskError =
    | MissingDecision
    | InvalidDecision
    | TaskNotListed
    | AlreadyConfirmed
    | NotStarted
    | Expired
    | AgreementNotNeeded
    | InitiatorDidNotApprove
    | EmptySignature
    | InvalidSignature
    | ApprovedAndRejected

  const NO_DECISION := Decision(false, false, "", false)

  predicate IsApproval(d: Decision) {
    d.isApproved && !d.isRejected
  }

  predicate IsRejection(d: Decision) {
    !d.isApproved && d.isRejected
  }

  // The exclusive-or test of the merging handler.
  predicate IsDecided(d: Decision) {
    d.isApproved != d.isRejected
  }

  /** The three filters the handlers count with. */
  datatype Filter = Approvals | Rejections | DecidedOnes {
    predicate Accepts(d: Decision) {
      match this
      case Approvals => IsApproval(d)
      case Rejections => IsRejection(d)
      case DecidedOnes => IsDecided(d)
    }
  }

  function Count(filter: Filter, ds: seq<Decision>): (c: nat) {
    if ds == [] then 0 else (if filter.Accepts(ds[0]) then 1 else 0) + Count(filter, ds[1..])
  }

  predicate AllApproved(ds: seq<Decision>) {
    forall i | 0 <= i < |ds| :: ds[i].isApproved && !ds[i].isRejected
  }

  predicate AnyRejected(ds: seq<Decision>) {
    exists i | 0 <= i < |ds| :: !ds[i].isApproved && ds[i].isRejected
  }

  function FactOf(userId: UserId, body: TaskBody, d: Decision): Fact {
    Fact(userId, body, d.isApproved, d.isRejected, d.reason)
  }

  /** The decision that `generate_decision` returns. */
  function SignedDecision(isApproved: bool, isRejected: bool, reason: string): Decision {
    Decision(isApproved, isRejected, reason, true)
  }

  function CheckDecision(facts: set<Fact>, d: Decision, userId: UserId, body: TaskBody): (r: Result<(), TaskError>) {
    if !d.signed then Failure(EmptySignature)
    else if FactOf(userId, body, d) !in facts then Failure(InvalidSignature)
    else if d.isApproved && d.isRejected then Failure(ApprovedAndRejected)
    else Success(())
  }

  /** The copy that the initiator stores first; the client sends no decisions of its own. */
  function NewTask(body: TaskBody): (t: Task)
    requires |body.participants| > 0
    ensures t.body == body && |t.decisions| == |body.participants|
  {
    var n := |body.participants|;
    var decisions := seq(n, i => if i == 0 then SignedDecision(true, false, "") else NO_DECISION);
    Task(body, decisions, if body.requireAgreement && n > 1 then Approved else Started)
  }

  /** The initiator has approved and signed, everybody else is yet to decide. */
  predicate IsRequest(body: TaskBody, t: Task) {
    && t.body == body && |t.decisions| == |body.participants| > 0
    && t.decisions[0] == Decision(true, false, "", true)
    && (forall i | 0 < i < |t.decisions| :: t.decisions[i] == Decision(false, false, "", false))
    && t.status == if body.requireAgreement && |body.participants| > 1 then Approved else Started
  }

  lemma NewTaskIsRequest(body: TaskBody)
    requires |body.participants| > 0
    ensures IsRequest(body, NewTask(body))
  {}

  /** The status a vote stands for; a vote that both approves and rejects has none. */
  function VoteStatus(isApproved: bool, isRejected: bool): (r: Option<Status>) {
    if isApproved && !isRejected then Some(Approved)
    else if !isApproved && isRejected then Some(Rejected)
    else if !isApproved && !isRejected then Some(Ignored)
    else None
  }

  /** Writes the decision into every slot of the user. */
  function WithDecision(task: Task, userId: UserId, d: Decision): (ds: seq<Decision>)
    requires |task.decisions| == |task.body.participants|
  {
    seq(|task.decisions|, i requires 0 <= i < |task.decisions| =>
      if task.body.participants[i].userId == userId then d else task.decisions[i])
  }

  /** The copy that a confirmed vote leaves behind. */
  function Confirmed(task: Task, userId: UserId, isApproved: bool, isRejected: bool, reason: string): (t: Task)
    requires |task.decisions| == |task.body.participants|
    requires VoteStatus(isApproved, isRejected).Some?
  {
    var ds := WithDecision(task, userId, SignedDecision(isApproved, isRejected, reason));
    var own := VoteStatus(isApproved, isRejected).value;
    var start :=
      || (task.body.requireAgreement && Count(Approvals, ds) == |task.body.participants|)
      || (!task.body.requireAgreement && own == Approved);
    Task(task.body, ds, if start then Started else own)
  }

  /**
   The copy a vote leaves: the vote as it was given, signed, in the voter's slots, and nothing else
   changed but the status.
   */
  predicate VoteWritten(task: Task, task': Task, userId: UserId, isApproved: bool, isRejected: bool, reason: string)
    requires |task.decisions| == |task.body.participants|
  {
    && task'.body == task.body && |task'.decisions| == |task.decisions|
    && forall i | 0 <= i < |task.decisions| :: task'.decisions[i] ==
         if task.body.participants[i].userId == userId then Decision(isApproved, isRejected, reason, true)
         else task.decisions[i]
  }

  lemma ConfirmedWritesVote(task: Task, userId: UserId, isApproved: bool, isRejected: bool, reason: string)
    requires |task.decisions| == |task.body.participants| && VoteStatus(isApproved, isRejected).Some?
    ensures VoteWritten(task, Confirmed(task, userId, isApproved, isRejected, reason), userId, isApproved, isRejected,
                reason)
  {}

  /** Whether slot i of an incoming vector replaces the stored one: never the user's own slot. */
  predicate Takes(body: TaskBody, userId: UserId, incoming: seq<Decision>, i: nat)
    requires i < |body.participants| <= |incoming|
  {
    body.participants[i].userId != userId && incoming[i] != NO_DECISION
  }

  /** Every slot that would be taken carries a valid signature. */
  predicate Mergeable(facts: set<Fact>, body: TaskBody, userId: UserId, incoming: seq<Decision>)
    requires |body.participants| <= |incoming|
  {
    forall i | 0 <= i < |body.participants| && Takes(body, userId, incoming, i) ::
      CheckDecision(facts, incoming[i], body.participants[i].userId, body).Success?
  }

  /** The check passes for signed votes only, and names what is missing. */
  lemma CheckMeans(facts: set<Fact>, d: Decision, userId: UserId, body: TaskBody)
    ensures CheckDecision(facts, d, userId, body).Success? <==>
              && d.signed && !(d.isApproved && d.isRejected)
              && Fact(userId, body, d.isApproved, d.isRejected, d.reason) in facts
    ensures CheckDecision(facts, d, userId, body).Failure? ==>
              CheckDecision(facts, d, userId, body).error ==
                if !d.signed then EmptySignature
                else if Fact(userId, body, d.isApproved, d.isRejected, d.reason) !in facts then InvalidSignature
                else ApprovedAndRejected
  {}

  /** In the slot of another participant, a decision is empty or signed by that participant. */
  predicate ForeignSigned(facts: set<Fact>, body: TaskBody, userId: UserId, ds: seq<Decision>) {
    |ds| == |body.participants| && forall i | 0 <= i < |ds| :: SlotSigned(facts, body, userId, ds[i], i)
  }

  predicate SlotSigned(facts: set<Fact>, body: TaskBody, userId: UserId, d: Decision, i: nat)
    requires i < |body.participants|
  {
    || body.participants[i].userId == userId
    || d == Decision(false, false, "", false)
    || (&& d.signed && !(d.isApproved && d.isRejected)
        && Fact(body.participants[i].userId, body, d.isApproved, d.isRejected, d.reason) in facts)
  }

  /** The first foreign decision that is neither empty nor signed, and what is wrong with it. */
  predicate IsFirstRefusal(facts: set<Fact>, body: TaskBody, userId: UserId, ds: seq<Decision>, i: nat,
                           error: TaskError)
    requires |ds| == |body.participants|
  {
    && i < |ds| && !SlotSigned(facts, body, userId, ds[i], i)
    && (forall j | 0 <= j < i :: SlotSigned(facts, body, userId, ds[j], j))
    && error ==
       if !ds[i].signed then EmptySignature
       else if ds[i].isApproved && ds[i].isRejected
            && Fact(body.participants[i].userId, body, ds[i].isApproved, ds[i].isRejected, ds[i].reason) in facts
            then ApprovedAndRejected
       else InvalidSignature
  }

  /** A vector can be merged if and only if what it says for others is theirs. */
  lemma MergeableMeans(facts: set<Fact>, body: TaskBody, userId: UserId, incoming: seq<Decision>)
    requires |incoming| == |body.participants|
    ensures Mergeable(facts, body, userId, incoming) <==> ForeignSigned(facts, body, userId, incoming)
  {
    hide CheckDecision;
    forall i | 0 <= i < |incoming| { CheckMeans(facts, incoming[i], body.participants[i].userId, body); }
  }

  function Merged(task: Task, userId: UserId, incoming: seq<Decision>): (ds: seq<Decision>)
    requires |task.decisions| == |task.body.participants| <= |incoming|
  {
    seq(|task.decisions|, i requires 0 <= i < |task.decisions| =>
      if Takes(task.body, userId, incoming, i) then incoming[i] else task.decisions[i])
  }

  /**
   Slot by slot: what the message says for another participant, unless it is silent, and otherwise
   what was stored.
   */
  predicate TakesForeign(task: Task, userId: UserId, incoming: seq<Decision>, ds: seq<Decision>)
    requires |task.decisions| == |task.body.participants| == |incoming|
  {
    |ds| == |incoming| &&
    forall i | 0 <= i < |ds| :: ds[i] ==
      if task.body.participants[i].userId != userId && incoming[i] != Decision(false, false, "", false) then incoming[i]
      else task.decisions[i]
  }

  lemma MergedMeans(task: Task, userId: UserId, incoming: seq<Decision>)
    requires |task.decisions| == |task.body.participants| == |incoming|
    ensures TakesForeign(task, userId, incoming, Merged(task, userId, incoming))
  {}

  /** Whatever vector arrives: if it can be merged, every foreign slot is empty or signed afterwards as before. */
  lemma MergingKeepsForeignSigned(facts: set<Fact>, task: Task, userId: UserId, incoming: seq<Decision>)
    requires |incoming| == |task.decisions| && ForeignSigned(facts, task.body, userId, task.decisions)
    requires Mergeable(facts, task.body, userId, incoming)
    ensures ForeignSigned(facts, task.body, userId, Merged(task, userId, incoming))
  {
    hide Mergeable, Merged;
    MergeableMeans(facts, task.body, userId, incoming);
    MergedMeans(task, userId, incoming);
  }

  /** The test of the merging handler: everyone has decided, or someone has rejected. */
  predicate Decided(ds: seq<Decision>) {
    Count(DecidedOnes, ds) == |ds| || Count(Rejections, ds) > 0
  }

  lemma {:induction false} CountBounds(filter: Filter, ds: seq<Decision>)
    ensures Count(filter, ds) <= |ds|
    ensures Count(filter, ds) == |ds| <==> forall i | 0 <= i < |ds| :: filter.Accepts(ds[i])
    ensures Count(filter, ds) > 0 <==> exists i | 0 <= i < |ds| :: filter.Accepts(ds[i])
  {
    if ds != [] {
      CountBounds(filter, ds[1..]);
      assert forall i | 1 <= i < |ds| :: ds[i] == ds[1..][i - 1];
      assert forall i | 0 <= i < |ds| - 1 :: ds[1..][i] == ds[i + 1];
    }
  }

  /** Both tests that start a task mean the same thing: every single decision approves. */
  lemma StartTests(ds: seq<Decision>)
    ensures Count(Approvals, ds) == |ds| <==> AllApproved(ds)
    ensures Count(DecidedOnes, ds) == |ds| && Count(Rejections, ds) == 0 <==> AllApproved(ds)
    ensures Count(Rejections, ds) > 0 <==> AnyRejected(ds)
    ensures Decided(ds) <==> AllApproved(ds) || AnyRejected(ds)
  {
    CountBounds(Approvals, ds);
    CountBounds(DecidedOnes, ds);
    CountBounds(Rejections, ds);
  }
}
