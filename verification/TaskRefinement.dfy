/**
 The handlers over the storage do what the steps of the protocol machine say: a core of the
 machine is the stored copy of the task and whether it is listed.
 */
module TaskRefinement {
  import opened Wrappers
  import opened Tasks
  import opened TaskLists
  import opened TaskHandlers
  import opened Agreement

  function CoreAt(s: TaskStore, userId: UserId, taskId: string): Core {
    Core(StoredTask(s, userId, taskId), IsListed(s, userId, taskId))
  }

  /** The storage of core k holds what core k of the machine does. */
  ghost predicate Matches(m: State, k: nat, s: TaskStore) {
    && WellFormed(m) && k < |m.cores| && ':' !in m.body.taskId
    && Tidy(s, User(m, k))
    && m.cores[k] == CoreAt(s, User(m, k), m.body.taskId)
  }

  function MessageFor(k: nat, sync: Sync): Message {
    Message(k, sync.body, sync.decisions)
  }

  function VoteFact(body: TaskBody, k: nat, vote: Vote): Fact
    requires k < |body.participants|
  {
    Fact(body.participants[k].userId, body, vote.isApproved, vote.isRejected, vote.reason)
  }

  /** What `ConfirmTask` leaves behind is what the machine's step leaves behind, message and all. */
  lemma ConfirmRefines(m: State, k: nat, s: TaskStore, s': TaskStore, vote: Vote, clock: int, r: Result<Option<Sync>,
                       ServiceError>)
    requires Matches(m, k, s) && Tidy(s', User(m, k))
    requires ConfirmDone(s, s', User(m, k), m.body.taskId, Some(vote), clock, r)
    ensures var m' := Next(m, Confirm(k, vote.isApproved, vote.isRejected, vote.reason, clock));
            && Matches(m', k, s')
            && m'.network == m.network
               + (if r.Success? && r.value.Some? then multiset{MessageFor(0, r.value.value)} else multiset{})
            && (r.Success? && r.value.Some? ==> r.value.value.to == User(m, 0) && r.value.value.taskId == m.body.taskId)
            && m'.facts == (if r.Success? then m.facts + {VoteFact(m.body, k, vote)} else m.facts)
            && m'.handlers == m.handlers
  {
    hide Tidy, IsListed, StoredTask, Confirmed, OthersSame;
  }

  lemma FinishRefines(m: State, k: nat, s: TaskStore, s': TaskStore, r: Result<(), ServiceError>)
    requires Matches(m, k, s) && Tidy(s', User(m, k))
    requires FinishDone(s, s', User(m, k), m.body.taskId, r)
    ensures var m' := Next(m, Finish(k));
            Matches(m', k, s') && m'.network == m.network && m'.handlers == m.handlers && m'.facts == m.facts
  {
    hide Tidy, IsListed, StoredTask, OthersSame;
  }

  /** The messages of an outbox, each for the core of its addressee. */
  function Posted(outbox: seq<Sync>): (ms: multiset<Message>) {
    multiset(seq(|outbox|, i requires 0 <= i < |outbox| => MessageFor(i + 1, outbox[i])))
  }

  /**
   A handler's broadcast is the machine's: one message for every core but the initiator's, under the
   right user id.
   */
  lemma BroadcastIsToEveryone(body: TaskBody, ds: seq<Decision>)
    requires |body.participants| > 0
    ensures Posted(ToOthers(body, ds)) == ToEveryone(body, ds)
    ensures forall i | 0 <= i < |ToOthers(body, ds)| :: ToOthers(body, ds)[i].to == body.participants[i + 1].userId
  {
    var outbox := ToOthers(body, ds);
    assert seq(|outbox|, i requires 0 <= i < |outbox| => MessageFor(i + 1, outbox[i]))
        == seq(|body.participants| - 1, i requires 0 <= i => Message(i + 1, Some(body), ds));
  }

  lemma CreateRefines(m: State, s: TaskStore, s': TaskStore)
    requires Matches(m, 0, s) && Sound(s', User(m, 0)) && m.cores[0].copy == None
    requires Inserted(s, s', User(m, 0), NewTask(m.body))
    ensures var m' := Next(m, CreateTask);
            && Matches(m', 0, s') && m'.network == m.network + Posted(ToOthers(m.body, NewTask(m.body).decisions))
            && m'.handlers == m.handlers && m'.facts == m.facts + {VoteFact(m.body, 0, Vote(true, false, ""))}
  {
    InsertedIsTidy(s, s', User(m, 0), NewTask(m.body));
    assert NewTask(m.body).decisions[0] == Decision(true, false, "", true);
    hide Tidy, IsListed, StoredTask, OthersSame, NewTask, ToEveryone, ToOthers;
    BroadcastIsToEveryone(m.body, NewTask(m.body).decisions);
  }

  lemma ListRefines(m: State, k: nat, s: TaskStore, s': TaskStore)
    requires Matches(m, k, s) && Tidy(s', User(m, k)) && m.cores[k].copy.Some? && !m.cores[k].listed
    requires Changed(s, s', User(m, k), m.cores[k].copy.value)
    ensures var m' := Next(m, if k == 0 then ListAtInitiator else ListCopy(k));
            Matches(m', k, s') && m'.network == m.network && m'.handlers == m.handlers && m'.facts == m.facts
  {
    hide Tidy, IsListed, StoredTask, OthersSame;
  }

  lemma FirstCopyRefines(m: State, s: TaskStore, s': TaskStore, message: Message, r: Result<bool, ServiceError>)
    requires message in m.network && message.body.Some? && Matches(m, message.to, s) && Sound(s', User(m, message.to))
    requires m.cores[message.to].copy == None
    requires FirstCopyDone(s, s', User(m, message.to), m.body, message.decisions, m.facts, r)
    ensures var m' := Next(m, DeliverFirst(message));
            && Matches(m', message.to, s') && m'.network == m.network - multiset{message}
            && m'.handlers == m.handlers && m'.facts == m.facts
  {
    CheckMeans(m.facts, message.decisions[0], User(m, 0), m.body);
    hide IsListed, StoredTask, OthersSame, CheckDecision, Inserted, Partitioned, Sound;
    if r == Success(true) { InsertedIsTidy(s, s', User(m, message.to), Task(m.body, message.decisions, Waiting)); }
    assert !CoreAt(s, User(m, message.to), m.body.taskId).listed by {
      NoTaskNotListed(s, User(m, message.to), m.body.taskId);
    }
  }

  /** The first critical section: the same copy, and a handler left behind with the same outcome. */
  lemma MergeRefines(m: State, s: TaskStore, s': TaskStore, message: Message, clock: int, r: Result<Option<bool>,
                     ServiceError>)
    requires message in m.network && Matches(m, message.to, s) && Tidy(s', User(m, message.to))
    requires m.cores[message.to].copy.Some?
    requires MergeDone(s, s', User(m, message.to), m.body.taskId, message.decisions, m.facts, clock, r)
    ensures var m' := Next(m, Merge(message, clock));
            && Matches(m', message.to, s') && m'.network == m.network - multiset{message} && m'.facts == m.facts
            && m'.handlers == m.handlers
               + (if r.Success? && r.value.Some? then multiset{Handler(message.to, r.value.value)} else multiset{})
  {
    hide Tidy, IsListed, StoredTask, OthersSame, Merged, Mergeable, ForeignSigned, IsFirstRefusal, Decided, Count,
        WellFormedBody, HandlersShaped;
    assert |message.decisions| == |m.body.participants|;
    MergeableMeans(m.facts, m.body, User(m, message.to), message.decisions);
  }

  /** The second: the same copy, and the same broadcast. */
  lemma SettleRefines(m: State, s: TaskStore, s': TaskStore, h: Handler, r: Result<seq<Sync>, ServiceError>)
    requires h in m.handlers && Matches(m, h.core, s) && Tidy(s', User(m, h.core))
    requires SettleDone(s, s', User(m, h.core), m.body.taskId, h.rejected, r)
    ensures var m' := Next(m, Settle(h));
            && Matches(m', h.core, s') && m'.handlers == m.handlers - multiset{h} && m'.facts == m.facts
            && m'.network == m.network + (if r.Success? then Posted(r.value) else multiset{})
  {
    hide Tidy, IsListed, StoredTask, OthersSame, ToEveryone, ToOthers;
    var t := m.cores[h.core].copy.value;
    BroadcastIsToEveryone(m.body, t.decisions);
    assert User(m, 0) == User(m, h.core) <==> h.core == 0 by { assert DistinctFromOthers(m.body, 0); }
  }

  // ---------------------------------------------------------------- all cores together

  ghost predicate AllMatch(m: State, stores: seq<TaskStore>) {
    && WellFormed(m) && |stores| == |m.cores|
    && forall k: nat | k < |stores| :: Matches(m, k, stores[k])
  }

  /** The core that a step belongs to; the network's own steps belong to none. */
  function ActorOf(step: Step): Option<nat> {
    match step
    case CreateTask => Some(0)
    case ListAtInitiator => Some(0)
    case DeliverFirst(m) => Some(m.to)
    case ListCopy(k) => Some(k)
    case Confirm(k, _, _, _, _) => Some(k)
    case Finish(k) => Some(k)
    case Merge(m, _) => Some(m.to)
    case Settle(h) => Some(h.core)
    case Duplicate(_) => None
    case Lose(_) => None
  }

  lemma OthersRest(m: State, step: Step)
    requires WellFormed(m)
    ensures forall j: nat | j < |m.cores| && Some(j) != ActorOf(step) :: Next(m, step).cores[j] == m.cores[j]
  {
    hide NewTask, Confirmed, Merged, CheckDecision, Mergeable, Decided, ToEveryone, NetworkShaped, HandlersShaped,
        WellFormedBody, VoteStatus, Count;
  }

  /** A handler that refines its step at one core keeps every core's storage in agreement with the machine. */
  lemma StoresFollow(m: State, step: Step, stores: seq<TaskStore>, k: nat, s': TaskStore)
    requires AllMatch(m, stores) && k < |stores| && ActorOf(step) == Some(k) && Matches(Next(m, step), k, s')
    ensures AllMatch(Next(m, step), stores[k := s'])
  {
    hide Next, Tidy, IsListed, StoredTask;
    OthersRest(m, step);
    var m' := Next(m, step);
    var stores' := stores[k := s'];
    forall j: nat | j < |stores'| ensures Matches(m', j, stores'[j]) {
      assert j != k ==> Matches(m, j, stores[j]);
    }
  }

  /** What the network does by itself touches no storage. */
  lemma NetworkTouchesNoStore(m: State, step: Step, stores: seq<TaskStore>)
    requires AllMatch(m, stores) && ActorOf(step) == None
    ensures AllMatch(Next(m, step), stores)
  {}
}
