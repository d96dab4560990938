/** The names under which a core stores tasks and task lists, and that no two kinds of them clash. */
module TaskKeys {
  import opened Tasks

  /** Every task is in two lists: one for its status, one for its protocol and status. */
  datatype ListKey = StatusList(status: Status) | ProtocolList(protocol: string, status: Status)

  function StatusName(status: Status): (s: string)
    ensures ':' !in s && s != "" && s[|s| - 1] != 't'
  {
    match status
    case Waiting => "waiting"
    case Approved => "approved"
    case Rejected => "rejected"
    case Ignored => "ignored"
    case Started => "started"
    case Finished => "finished"
  }

  function TaskKey(taskId: string): string {
    "_internal:tasks:" + taskId
  }

  function ListName(list: ListKey): string {
    match list
    case StatusList(status) => "_internal:tasks:status:" + StatusName(status)
    case ProtocolList(protocol, status) => "_internal:protocols:" + protocol + ":" + StatusName(status)
  }

  /** The name that carries one version for every addition to a list. */
  function LatestName(list: ListKey): string {
    ListName(list) + ":latest"
  }

  /** The role of the last participant with this user id; the handlers' loop does not stop at the first. */
  function RoleOf(participants: seq<Participant>, userId: UserId): string {
    if participants == [] then ""
    else
      var last := participants[|participants| - 1];
      if last.userId == userId then last.role else RoleOf(participants[..|participants| - 1], userId)
  }

  /** With distinct participants the role is that of the user's own entry. */
  lemma {:induction false} RoleOfParticipant(participants: seq<Participant>, k: nat)
    requires k < |participants|
    requires forall i | 0 <= i < |participants| && i != k :: participants[i].userId != participants[k].userId
    ensures RoleOf(participants, participants[k].userId) == participants[k].role
    decreases |participants|
  {
    if k < |participants| - 1 { RoleOfParticipant(participants[..|participants| - 1], k); }
  }

  /** Only a started task is listed under its role. */
  function ProtocolHome(userId: UserId, t: Task): ListKey {
    ProtocolList(
      if t.status == Started then t.body.protocolName + ":" + RoleOf(t.body.participants, userId)
          else t.body.protocolName,
      t.status)
  }

  predicate IsHome(userId: UserId, t: Task, list: ListKey) {
    list == StatusList(t.status) || list == ProtocolHome(userId, t)
  }

  lemma StatusNamesDiffer(a: Status, b: Status)
    requires StatusName(a) == StatusName(b)
    ensures a == b
  {}

  /** Cutting at the last colon gives back both parts. */
  lemma LastPart(a: string, x: string, b: string, y: string)
    requires a + ":" + x == b + ":" + y && ':' !in x && ':' !in y
    ensures a == b && x == y
  {
    var s, t := a + ":" + x, b + ":" + y;
    assert s[|a|] == ':' && t[|b|] == ':';
    assert s[..|a|] == a && t[..|b|] == b;
    assert s[|a| + 1..] == x && t[|b| + 1..] == y;
  }

  lemma ListNameParts(list: ListKey)
    ensures var base := if list.StatusList? then "_internal:tasks:status" else "_internal:protocols:" + list.protocol;
            && ListName(list) == base + ":" + StatusName(list.status)
            && base[10] == (if list.StatusList? then 't' else 'p')
            && (list.ProtocolList? ==> base[20..] == list.protocol)
  {}

  lemma ListNamesDiffer(a: ListKey, b: ListKey)
    requires ListName(a) == ListName(b)
    ensures a == b
  {
    hide ListName, StatusName;
    ListNameParts(a);
    ListNameParts(b);
    var x := if a.StatusList? then "_internal:tasks:status" else "_internal:protocols:" + a.protocol;
    var y := if b.StatusList? then "_internal:tasks:status" else "_internal:protocols:" + b.protocol;
    LastPart(x, StatusName(a.status), y, StatusName(b.status));
    StatusNamesDiffer(a.status, b.status);
  }

  lemma ListIsNotLatest(a: ListKey, b: ListKey)
    ensures ListName(a) != LatestName(b)
  {
    var x, y := ListName(a), LatestName(b);
    var name := StatusName(a.status);
    assert x[|x| - 1] == name[|name| - 1];
    assert y[|y| - 1] == 't';
  }

  /** Task ids hold no colon, so no task is stored where a list is, nor where a list's additions are. */
  lemma TaskIsNoList(taskId: string, list: ListKey)
    requires ':' !in taskId
    ensures TaskKey(taskId) != ListName(list) && TaskKey(taskId) != LatestName(list)
  {
    var key, name := TaskKey(taskId), ListName(list);
    assert key[10] == 't';
    assert key[16..] == taskId;
    if list.ProtocolList? {
      assert name[10] == 'p' && LatestName(list)[10] == 'p';
    } else {
      assert name[16..][6] == ':' && LatestName(list)[16..][6] == ':';
    }
  }

  lemma TaskKeysDiffer(a: string, b: string)
    requires TaskKey(a) == TaskKey(b)
    ensures a == b
  {
    assert TaskKey(a)[16..] == a && TaskKey(b)[16..] == b;
  }
}
