/**
 Whole runs of handlers over storages.  An event is one handler's section at one core, or an act of
 the network; it is constrained by the handler's contract and by nothing else, and other tasks'
 handlers may run in between.  Every such run follows a run of the protocol machine.
 */
module TaskRuns {
  import opened Wrappers
  import opened Tasks
  import opened TaskKeys
  import opened TaskLists
  import opened TaskHandlers
  import opened Agreement
  import opened AgreementTheorems
  import opened TaskRefinement

  /** A storage for each participant, and what is known and under way about the task. */
  datatype System = System(
    stores: seq<TaskStore>,
    network: multiset<Message>,
    handlers: multiset<Handler>,
    facts: set<Fact>)

  datatype Event =
    | Creating
    | Listing(core: nat)
    | Receiving(message: Message, received: Result<bool, ServiceError>)
    | Confirming(core: nat, vote: Vote, clock: int, confirmed: Result<Option<Sync>, ServiceError>)
    | Finishing(core: nat, finished: Result<(), ServiceError>)
    | Merging(message: Message, clock: int, merged: Result<Option<bool>, ServiceError>)
    | Settling(handler: Handler, settled: Result<seq<Sync>, ServiceError>)
    | OtherTask(core: nat, otherId: string)
    | Repeating(message: Message)
    | Losing(message: Message)

  predicate Shaped(body: TaskBody, x: System) {
    && |x.stores| == |body.participants| > 0
    && NetworkShaped(body, x.network)
    && forall h | h in x.handlers :: h.core < |x.stores|
  }

  function UserAt(body: TaskBody, k: nat): UserId
    requires k < |body.participants|
  {
    body.participants[k].userId
  }

  /** Only the storage of one core changes. */
  predicate OnlyAt(x: System, x': System, k: nat) {
    |x'.stores| == |x.stores| && forall j | 0 <= j < |x.stores| && j != k :: x'.stores[j] == x.stores[j]
  }

  /** Nothing but that storage changes. */
  predicate QuietAt(x: System, x': System, k: nat) {
    OnlyAt(x, x', k) && x'.network == x.network && x'.handlers == x.handlers && x'.facts == x.facts
  }

  ghost predicate Creates(body: TaskBody, x: System, x': System)
    requires Shaped(body, x)
  {
    var u := UserAt(body, 0);
    && OnlyAt(x, x', 0) && StoredTask(x.stores[0], u, body.taskId) == None
    && (Sound(x.stores[0], u) ==> Sound(x'.stores[0], u) && Inserted(x.stores[0], x'.stores[0], u, NewTask(body)))
    && x'.network == x.network + Posted(ToOthers(body, NewTask(body).decisions))
    && x'.handlers == x.handlers
    && x'.facts == x.facts + {VoteFact(body, 0, Vote(true, false, ""))}
  }

  /** The condition is that of `ListTask`: a stored copy that is in no list. */
  ghost predicate Lists(body: TaskBody, x: System, k: nat, x': System)
    requires Shaped(body, x)
  {
    k < |x.stores| && QuietAt(x, x', k) &&
    var u := UserAt(body, k);
    && StoredTask(x.stores[k], u, body.taskId).Some? && !IsListed(x.stores[k], u, body.taskId)
    && (Tidy(x.stores[k], u) ==>
          Tidy(x'.stores[k], u) && Changed(x.stores[k], x'.stores[k], u, StoredTask(x.stores[k], u, body.taskId).value))
  }

  /** A message for a core without a copy; one that names the task only makes the handler fail. */
  ghost predicate Receives(body: TaskBody, x: System, m: Message, r: Result<bool, ServiceError>, x': System)
    requires Shaped(body, x)
  {
    m in x.network && OnlyAt(x, x', m.to) &&
    var u := UserAt(body, m.to);
    var s, s' := x.stores[m.to], x'.stores[m.to];
    && StoredTask(s, u, body.taskId) == None
    && (if m.body.None? then s' == s
        else Sound(s, u) ==> Sound(s', u) && FirstCopyDone(s, s', u, body, m.decisions, x.facts, r))
    && x'.network == x.network - multiset{m} && x'.handlers == x.handlers && x'.facts == x.facts
  }

  ghost predicate Confirms(body: TaskBody, x: System, k: nat, vote: Vote, clock: int, r: Result<Option<Sync>,
                           ServiceError>, x': System)
    requires Shaped(body, x) && ':' !in body.taskId
  {
    k < |x.stores| && OnlyAt(x, x', k) &&
    var u := UserAt(body, k);
    var s, s' := x.stores[k], x'.stores[k];
    && (Tidy(s, u) ==> Tidy(s', u) && ConfirmDone(s, s', u, body.taskId, Some(vote), clock, r))
    && x'.network == x.network
       + (if r.Success? && r.value.Some? then multiset{MessageFor(0, r.value.value)} else multiset{})
    && x'.handlers == x.handlers
    && x'.facts == (if r.Success? then x.facts + {VoteFact(body, k, vote)} else x.facts)
  }

  ghost predicate Finishes(body: TaskBody, x: System, k: nat, r: Result<(), ServiceError>, x': System)
    requires Shaped(body, x) && ':' !in body.taskId
  {
    k < |x.stores| && QuietAt(x, x', k) &&
    var u := UserAt(body, k);
    Tidy(x.stores[k], u) ==> Tidy(x'.stores[k], u) && FinishDone(x.stores[k], x'.stores[k], u, body.taskId, r)
  }

  ghost predicate Merges(body: TaskBody, x: System, m: Message, clock: int, r: Result<Option<bool>, ServiceError>,
                         x': System)
    requires Shaped(body, x) && ':' !in body.taskId
  {
    m in x.network && OnlyAt(x, x', m.to) &&
    var u := UserAt(body, m.to);
    var s, s' := x.stores[m.to], x'.stores[m.to];
    && StoredTask(s, u, body.taskId).Some? && |StoredTask(s, u, body.taskId).value.body.participants| == |m.decisions|
    && (Tidy(s, u) ==> Tidy(s', u) && MergeDone(s, s', u, body.taskId, m.decisions, x.facts, clock, r))
    && x'.network == x.network - multiset{m} && x'.facts == x.facts
    && x'.handlers == x.handlers
       + (if r.Success? && r.value.Some? then multiset{Handler(m.to, r.value.value)} else multiset{})
  }

  ghost predicate Settled(body: TaskBody, x: System, h: Handler, r: Result<seq<Sync>, ServiceError>, x': System)
    requires Shaped(body, x) && ':' !in body.taskId
  {
    h in x.handlers && OnlyAt(x, x', h.core) &&
    var u := UserAt(body, h.core);
    var s, s' := x.stores[h.core], x'.stores[h.core];
    && (Tidy(s, u) ==> Tidy(s', u) && SettleDone(s, s', u, body.taskId, h.rejected, r))
    && x'.network == x.network + (if r.Success? then Posted(r.value) else multiset{})
    && x'.handlers == x.handlers - multiset{h} && x'.facts == x.facts
  }

  /** What every handler's contract says of the tasks that it is not about. */
  ghost predicate OtherHandled(body: TaskBody, x: System, k: nat, otherId: string, x': System)
    requires Shaped(body, x)
  {
    k < |x.stores| && QuietAt(x, x', k) && otherId != body.taskId &&
    var u := UserAt(body, k);
    Tidy(x.stores[k], u) ==> Tidy(x'.stores[k], u) && OthersSame(x.stores[k], x'.stores[k], u, otherId)
  }

  ghost predicate Happens(body: TaskBody, x: System, e: Event, x': System)
    requires ':' !in body.taskId
  {
    && Shaped(body, x)
    && match e
       case Creating => Creates(body, x, x')
       case Listing(k) => Lists(body, x, k, x')
       case Receiving(m, r) => Receives(body, x, m, r, x')
       case Confirming(k, vote, clock, r) => Confirms(body, x, k, vote, clock, r, x')
       case Finishing(k, r) => Finishes(body, x, k, r, x')
       case Merging(m, clock, r) => Merges(body, x, m, clock, r, x')
       case Settling(h, r) => Settled(body, x, h, r, x')
       case OtherTask(k, otherId) => OtherHandled(body, x, k, otherId, x')
       case Repeating(m) => m in x.network && x' == x.(network := x.network + multiset{m})
       case Losing(m) => m in x.network && x' == x.(network := x.network - multiset{m})
  }

  /** Tidy storages that know nothing of the task. */
  ghost predicate IsStart(body: TaskBody, x: System) {
    && |x.stores| == |body.participants|
    && (forall k: nat | k < |x.stores| ::
        Tidy(x.stores[k], UserAt(body, k)) && StoredTask(x.stores[k], UserAt(body, k), body.taskId) == None)
    && x.network == multiset{} && x.handlers == multiset{} && x.facts == {}
  }

  ghost predicate IsRun(body: TaskBody, xs: seq<System>, es: seq<Event>)
    requires ':' !in body.taskId
  {
    && |xs| == |es| + 1
    && (forall x | x in xs :: |x.stores| == |body.participants|)
    && IsStart(body, xs[0])
    && forall i | 0 <= i < |es| :: Happens(body, xs[i], es[i], xs[i + 1])
  }

  // ---------------------------------------------------------------- the run of the machine

  ghost predicate Follows(m: State, x: System) {
    AllMatch(m, x.stores) && m.network == x.network && m.handlers == x.handlers && m.facts == x.facts
  }

  function StepOf(e: Event): Option<Step> {
    match e
    case Creating => Some(CreateTask)
    case Listing(k) => Some(if k == 0 then ListAtInitiator else ListCopy(k))
    case Receiving(m, _) => Some(DeliverFirst(m))
    case Confirming(k, vote, clock, _) => Some(Confirm(k, vote.isApproved, vote.isRejected, vote.reason, clock))
    case Finishing(k, _) => Some(Finish(k))
    case Merging(m, clock, _) => Some(Merge(m, clock))
    case Settling(h, _) => Some(Settle(h))
    case OtherTask(_, _) => None
    case Repeating(m) => Some(Duplicate(m))
    case Losing(m) => Some(Lose(m))
  }

  lemma StartFollows(body: TaskBody, x: System)
    requires WellFormedBody(body) && ':' !in body.taskId && IsStart(body, x)
    ensures Follows(Init(body), x)
  {
    hide Tidy, IsListed, StoredTask;
    forall k: nat | k < |x.stores| ensures Matches(Init(body), k, x.stores[k]) {
      NoTaskNotListed(x.stores[k], UserAt(body, k), body.taskId);
    }
  }

  lemma OnlyThere(m: State, x: System, x': System, k: nat)
    requires AllMatch(m, x.stores) && k < |x.stores| && OnlyAt(x, x', k)
    ensures Matches(m, k, x.stores[k]) && x'.stores == x.stores[k := x'.stores[k]]
  {}

  lemma CreatingFollows(m: State, x: System, x': System)
    requires Follows(m, x) && Shaped(m.body, x) && Creates(m.body, x, x')
    ensures Follows(Next(m, CreateTask), x')
  {
    hide Tidy, Sound, IsListed, StoredTask, Inserted, Next, AllMatch, Matches, NewTask, ToOthers;
    OnlyThere(m, x, x', 0);
    MatchesNow(m, 0, x.stores[0]);
    CreateRefines(m, x.stores[0], x'.stores[0]);
    StoresFollow(m, CreateTask, x.stores, 0, x'.stores[0]);
  }

  lemma MatchesNow(m: State, k: nat, s: TaskStore)
    requires Matches(m, k, s)
    ensures WellFormed(m) && k < |m.cores| && User(m, k) == UserAt(m.body, k)
    ensures Tidy(s, User(m, k)) && Sound(s, User(m, k))
    ensures m.cores[k].copy == StoredTask(s, User(m, k), m.body.taskId)
    ensures m.cores[k].listed <==> IsListed(s, User(m, k), m.body.taskId)
  {}

  lemma ListingFollows(m: State, x: System, k: nat, x': System)
    requires Follows(m, x) && Shaped(m.body, x) && ':' !in m.body.taskId && Lists(m.body, x, k, x')
    ensures Follows(Next(m, if k == 0 then ListAtInitiator else ListCopy(k)), x')
  {
    hide Tidy, Sound, IsListed, StoredTask, Inserted, Next, AllMatch, Matches, Changed, OthersSame;
    OnlyThere(m, x, x', k);
    MatchesNow(m, k, x.stores[k]);
    ListRefines(m, k, x.stores[k], x'.stores[k]);
    StoresFollow(m, if k == 0 then ListAtInitiator else ListCopy(k), x.stores, k, x'.stores[k]);
  }

  lemma ConfirmingFollows(m: State, x: System, k: nat, vote: Vote, clock: int, r: Result<Option<Sync>, ServiceError>,
                          x': System)
    requires Follows(m, x) && Shaped(m.body, x) && ':' !in m.body.taskId && Confirms(m.body, x, k, vote, clock, r, x')
    ensures Follows(Next(m, Confirm(k, vote.isApproved, vote.isRejected, vote.reason, clock)), x')
  {
    hide Tidy, Sound, IsListed, StoredTask, Inserted, Next, AllMatch, Matches, Changed, OthersSame;
    OnlyThere(m, x, x', k);
    MatchesNow(m, k, x.stores[k]);
    ConfirmRefines(m, k, x.stores[k], x'.stores[k], vote, clock, r);
    StoresFollow(m, Confirm(k, vote.isApproved, vote.isRejected, vote.reason, clock), x.stores, k, x'.stores[k]);
  }

  lemma FinishingFollows(m: State, x: System, k: nat, r: Result<(), ServiceError>, x': System)
    requires Follows(m, x) && Shaped(m.body, x) && ':' !in m.body.taskId && Finishes(m.body, x, k, r, x')
    ensures Follows(Next(m, Finish(k)), x')
  {
    hide Tidy, Sound, IsListed, StoredTask, Inserted, Next, AllMatch, Matches, Changed, OthersSame;
    OnlyThere(m, x, x', k);
    MatchesNow(m, k, x.stores[k]);
    FinishRefines(m, k, x.stores[k], x'.stores[k], r);
    StoresFollow(m, Finish(k), x.stores, k, x'.stores[k]);
  }

  lemma MergingFollows(m: State, x: System, message: Message, clock: int, r: Result<Option<bool>, ServiceError>,
                       x': System)
    requires Follows(m, x) && Shaped(m.body, x) && ':' !in m.body.taskId && Merges(m.body, x, message, clock, r, x')
    ensures Follows(Next(m, Merge(message, clock)), x')
  {
    hide Tidy, Sound, IsListed, StoredTask, Inserted, Next, AllMatch, Matches, Changed, OthersSame;
    OnlyThere(m, x, x', message.to);
    MatchesNow(m, message.to, x.stores[message.to]);
    MergeRefines(m, x.stores[message.to], x'.stores[message.to], message, clock, r);
    StoresFollow(m, Merge(message, clock), x.stores, message.to, x'.stores[message.to]);
  }

  lemma SettlingFollows(m: State, x: System, h: Handler, r: Result<seq<Sync>, ServiceError>, x': System)
    requires Follows(m, x) && Shaped(m.body, x) && ':' !in m.body.taskId && Settled(m.body, x, h, r, x')
    ensures Follows(Next(m, Settle(h)), x')
  {
    hide Tidy, Sound, IsListed, StoredTask, Inserted, Next, AllMatch, Matches, Changed, OthersSame;
    OnlyThere(m, x, x', h.core);
    MatchesNow(m, h.core, x.stores[h.core]);
    SettleRefines(m, x.stores[h.core], x'.stores[h.core], h, r);
    StoresFollow(m, Settle(h), x.stores, h.core, x'.stores[h.core]);
  }

  lemma ReceivingFollows(m: State, x: System, message: Message, r: Result<bool, ServiceError>, x': System)
    requires Follows(m, x) && Shaped(m.body, x) && ':' !in m.body.taskId && Receives(m.body, x, message, r, x')
    ensures Follows(Next(m, DeliverFirst(message)), x')
  {
    hide Tidy, Sound, IsListed, StoredTask, Inserted, Next, AllMatch, Matches, FirstCopyDone;
    var k := message.to;
    OnlyThere(m, x, x', k);
    MatchesNow(m, k, x.stores[k]);
    if message.body.None? {
      BodylessFails(m, message, x.stores[k]);
    } else {
      FirstCopyRefines(m, x.stores[k], x'.stores[k], message, r);
    }
    StoresFollow(m, DeliverFirst(message), x.stores, k, x'.stores[k]);
  }

  lemma BodylessFails(m: State, message: Message, s: TaskStore)
    requires Matches(m, message.to, s) && message in m.network && message.body.None? && m.cores[message.to].copy.None?
    ensures var m' := Next(m, DeliverFirst(message));
            && Matches(m', message.to, s) && m'.network == m.network - multiset{message}
            && m'.handlers == m.handlers && m'.facts == m.facts
  {
    hide Tidy, IsListed, StoredTask;
  }

  /** Other tasks' handlers leave this task's copy and whether it is listed as they were. */
  lemma OtherTaskFollows(m: State, x: System, k: nat, otherId: string, x': System)
    requires Follows(m, x) && Shaped(m.body, x) && ':' !in m.body.taskId && OtherHandled(m.body, x, k, otherId, x')
    ensures Follows(m, x')
  {
    hide Tidy, IsListed, StoredTask, WellFormed;
    forall j: nat | j < |x'.stores| ensures Matches(m, j, x'.stores[j]) { assert Matches(m, j, x.stores[j]); }
  }

  lemma NetworkFollows(m: State, x: System, message: Message)
    requires Follows(m, x) && message in x.network
    ensures Follows(Next(m, Duplicate(message)), x.(network := x.network + multiset{message}))
    ensures Follows(Next(m, Lose(message)), x.(network := x.network - multiset{message}))
  {
    NetworkTouchesNoStore(m, Duplicate(message), x.stores);
    NetworkTouchesNoStore(m, Lose(message), x.stores);
  }

  lemma EventFollows(m: State, x: System, e: Event, x': System)
    requires Follows(m, x) && ':' !in m.body.taskId && Happens(m.body, x, e, x') && WellFormed(m)
    ensures Follows(if StepOf(e).Some? then Next(m, StepOf(e).value) else m, x')
  {
    hide Follows, Next, Creates, Lists, Receives, Confirms, Finishes, Merges, Settled, OtherHandled, WellFormed;
    match e
    case Creating => CreatingFollows(m, x, x');
    case Listing(k) => ListingFollows(m, x, k, x');
    case Receiving(message, r) => ReceivingFollows(m, x, message, r, x');
    case Confirming(k, vote, clock, r) => ConfirmingFollows(m, x, k, vote, clock, r, x');
    case Finishing(k, r) => FinishingFollows(m, x, k, r, x');
    case Merging(message, clock, r) => MergingFollows(m, x, message, clock, r, x');
    case Settling(h, r) => SettlingFollows(m, x, h, r, x');
    case OtherTask(k, otherId) => OtherTaskFollows(m, x, k, otherId, x');
    case Repeating(message) => NetworkFollows(m, x, message);
    case Losing(message) => NetworkFollows(m, x, message);
  }

  /** Every run of handlers follows a run of the machine. */
  lemma {:induction false} RunFollows(body: TaskBody, xs: seq<System>, es: seq<Event>) returns (steps: seq<Step>)
    requires WellFormedBody(body) && ':' !in body.taskId && IsRun(body, xs, es)
    ensures Follows(Reached(body, steps), xs[|es|])
    decreases |es|
  {
    hide Happens, Follows, IsStart, Next;
    if es == [] {
      StartFollows(body, xs[0]);
      steps := [];
    } else {
      var n := |es| - 1;
      steps := RunFollows(body, xs[..n + 1], es[..n]);
      var m := Reached(body, steps);
      assert Happens(body, xs[n], es[n], xs[n + 1]);
      EventFollows(m, xs[n], es[n], xs[n + 1]);
      if StepOf(es[n]).Some? {
        var step := StepOf(es[n]).value;
        ExecuteConcat(Init(body), steps, [step]);
        OneStep(m, step);
        steps := steps + [step];
      }
    }
  }

  // ---------------------------------------------------------------- what follows for the storages

  /** At the end of every run of handlers, no stored copy is started or finished while another is rejected. */
  lemma StoragesNeverSplit(body: TaskBody, xs: seq<System>, es: seq<Event>, i: nat, j: nat)
    requires WellFormedBody(body) && body.requireAgreement && ':' !in body.taskId && IsRun(body, xs, es)
    requires i < |body.participants| && j < |body.participants|
    ensures var a := StoredTask(xs[|es|].stores[i], body.participants[i].userId, body.taskId);
            var b := StoredTask(xs[|es|].stores[j], body.participants[j].userId, body.taskId);
            !(a.Some? && (a.value.status == Started || a.value.status == Finished) && b.Some?
                && b.value.status == Rejected)
  {
    hide IsStart, Happens, Reached, StoredTask, Tidy;
    var steps := RunFollows(body, xs, es);
    var m, x := Reached(body, steps), xs[|es|];
    NoSplitOutcome(body, steps, i, j);
    MatchesNow(m, i, x.stores[i]);
    MatchesNow(m, j, x.stores[j]);
  }

  /**
   At the end of every run of handlers, the lists of every participant partition its tasks: any id,
   of this task or of another, is in a list, and then once, exactly when its task is listed and the
   list is one of its two.
   */
  lemma ListsPartitionTasksInRuns(body: TaskBody, xs: seq<System>, es: seq<Event>, k: nat, taskId: string,
                                  list: ListKey)
    requires WellFormedBody(body) && ':' !in body.taskId && ':' !in taskId && IsRun(body, xs, es)
    requires k < |body.participants|
    ensures var s, u := xs[|es|].stores[k], body.participants[k].userId;
            CountIn(s, u, list, taskId) ==
              if IsListed(s, u, taskId) && IsHome(u, StoredTask(s, u, taskId).value, list) then 1 else 0
  {
    hide IsStart, Happens, Reached, StoredTask, Tidy, CountIn, IsListed, IsHome;
    var steps := RunFollows(body, xs, es);
    MatchesNow(Reached(body, steps), k, xs[|es|].stores[k]);
    ListsPartitionTasks(xs[|es|].stores[k], body.participants[k].userId, taskId, list);
  }
}
