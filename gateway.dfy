/** The Evolution API gateway as the client sees it: the requests it sends, the
    optional JSON replies it gets back (None for a transport or HTTP error), and
    how each reply is read. Time is an abstract clock that only sleeps advance. */
module EvolutionApi {

  import opened Values

  /** One call to the gateway, named by what it asks for. */
  datatype Request =
    | FetchInstances
    | InstanceCreate(name: string)
    | InstanceConnect(name: string)
    | InstanceConnectionState(name: string)
    | InstanceDelete(name: string)
    | ChatUpdateProfilePicture(instance: string, photoId: string)
    | ChatUpdateProfileName(instance: string, profileName: string)
    | ChatUpdateProfileStatus(instance: string, status: string)
    | GroupAcceptInviteCode(instance: string, code: string)

  /** The reply to the `i`-th request from now; an exhausted script answers with an error. */
  function ReplyAt(replies: seq<Option<Json>>, i: nat): Option<Json>
  {
    if i < |replies| then replies[i] else None
  }

  /** The script left after `n` requests. */
  function Drop(replies: seq<Option<Json>>, n: nat): seq<Option<Json>>
  {
    if n <= |replies| then replies[n..] else []
  }

  /** After `n` requests the script goes on where it was. */
  lemma ReplyAtDrop(replies: seq<Option<Json>>, n: nat, i: nat)
    ensures ReplyAt(Drop(replies, n), i) == ReplyAt(replies, n + i)
  {
  }

  lemma DropDrop(replies: seq<Option<Json>>, a: nat, b: nat)
    ensures Drop(Drop(replies, a), b) == Drop(replies, a + b)
  {
  }

  /** `n` copies of the same request. */
  function Repeat(req: Request, n: nat): (reqs: seq<Request>)
    ensures |reqs| == n && forall i :: 0 <= i < n ==> reqs[i] == req
  {
    if n == 0 then [] else Repeat(req, n - 1) + [req]
  }

  /** The remote side: a script of replies, answered in order, and the log of
      requests sent. Any behaviour of the gateway is some script. */
  class Gateway {
    var replies: seq<Option<Json>>
    var sent: seq<Request>

    constructor(script: seq<Option<Json>>)
      ensures replies == script && sent == []
    {
      replies := script;
      sent := [];
    }

    /** Sends one request and returns the gateway's reply. */
    method Send(req: Request) returns (reply: Option<Json>)
      modifies this
      ensures sent == old(sent) + [req]
      ensures reply == ReplyAt(old(replies), 0)
      ensures replies == Drop(old(replies), 1)
    {
      reply := ReplyAt(replies, 0);
      replies := Drop(replies, 1);
      sent := sent + [req];
    }
  }

  /** Abstract time in seconds; only sleeping moves it. */
  class Clock {
    var now: nat

    constructor(start: nat)
      ensures now == start
    {
      now := start;
    }

    method Sleep(seconds: nat)
      modifies this
      ensures now == old(now) + seconds
    {
      now := now + seconds;
    }
  }

  /** `if result:` on a reply: present and truthy. */
  predicate Succeeded(reply: Option<Json>)
  {
    reply.Some? && Truthy(reply.value)
  }

  /** A truthy reply that is a JSON object; other truthy replies are read as errors. */
  predicate ObjectReply(reply: Option<Json>)
  {
    Succeeded(reply) && reply.value.Obj?
  }

  /** The connection state a `connectionState` reply reports: the flat `state`
      field, else `state` inside an `instance` object, else nothing. */
  function StateOf(reply: Option<Json>): Json
  {
    if !ObjectReply(reply) then Null
    else
      var fields := reply.value.fields;
      if "state" in fields then fields["state"]
      else if "instance" in fields && fields["instance"].Obj? then Get(fields["instance"].fields, "state")
      else Null
  }

  /** The instance is connected exactly when the reported state is "open". */
  predicate IsOpen(reply: Option<Json>)
  {
    StateOf(reply) == Str("open")
  }

  /** Without a flat `state`, the `state` inside an `instance` object decides,
      whatever other fields either object holds. */
  lemma NestedStateDecides(fields: map<string, Json>)
    requires "state" !in fields && "instance" in fields && fields["instance"].Obj?
    ensures IsOpen(Some(Obj(fields))) <==> Get(fields["instance"].fields, "state") == Str("open")
  {
  }

  /** Both reply shapes the gateway uses report the same state. */
  lemma ReplyShapesAgree(state: Json)
    ensures IsOpen(Some(Obj(map["state" := state])))
        == IsOpen(Some(Obj(map["instance" := Obj(map["state" := state])])))
        == (state == Str("open"))
  {
    assert "state" !in map["instance" := Obj(map["state" := state])];
  }

  /** The flat field wins over the nested one, whatever the nested one says. */
  lemma FlatStateWins(fields: map<string, Json>)
    requires "state" in fields
    ensures IsOpen(Some(Obj(fields))) <==> fields["state"] == Str("open")
  {
  }

  /** A missing or failed reply never reads as connected. */
  lemma ErrorIsClosed(reply: Option<Json>)
    requires !Succeeded(reply)
    ensures !IsOpen(reply)
  {
  }

  /** An object without either field never reads as connected. */
  lemma NoStateIsClosed(fields: map<string, Json>)
    requires "state" !in fields && ("instance" !in fields || !fields["instance"].Obj?)
    ensures !IsOpen(Some(Obj(fields)))
  {
  }

  /** A `connect` reply that carries a QR code. */
  predicate HasQrCode(reply: Option<Json>)
  {
    ObjectReply(reply) && "base64" in reply.value.fields
  }

  /** The instance credential in a `create` reply: its `hash`, or "" when absent. */
  function CredentialOf(reply: Option<Json>): (key: Json)
    ensures ObjectReply(reply) && "hash" in reply.value.fields ==> key == reply.value.fields["hash"]
    ensures !(ObjectReply(reply) && "hash" in reply.value.fields) ==> key == Str("")
  {
    if ObjectReply(reply) then
      var fields := reply.value.fields;
      if "hash" in fields then fields["hash"] else Str("")
    else Str("")
  }

  /** An invite reply that reports the group as joined. */
  predicate Accepted(reply: Option<Json>)
  {
    ObjectReply(reply) && Truthy(Get(reply.value.fields, "accepted"))
  }

  /** An entry of the instance list that is an object named `name`. */
  predicate NamedEntry(entry: Json, name: string)
  {
    entry.Obj? && Get(entry.fields, "name") == Str(name)
  }

  /** The `isBusiness` field of the first list entry named `name`; reading
      stops with `false` at an entry that is not an object. */
  function ScanBusiness(entries: seq<Json>, name: string): (flag: Json)
    ensures (forall i :: 0 <= i < |entries| ==> entries[i].Obj? && !NamedEntry(entries[i], name))
            ==> flag == Bool(false)
    ensures flag != Bool(false) ==>
              exists i :: 0 <= i < |entries| && NamedEntry(entries[i], name) &&
                "isBusiness" in entries[i].fields && flag == entries[i].fields["isBusiness"]
  {
    if entries == [] then Bool(false)
    else if !entries[0].Obj? then Bool(false)
    else if NamedEntry(entries[0], name) then
      if "isBusiness" in entries[0].fields then entries[0].fields["isBusiness"] else Bool(false)
    else ScanBusiness(entries[1..], name)
  }

  /** The business flag read from a `fetchInstances` reply: false unless the
      reply is a list holding the named instance. */
  function BusinessFlag(reply: Option<Json>, name: string): (flag: Json)
    ensures flag != Bool(false) ==>
              reply.Some? && reply.value.Arr? &&
              exists i :: 0 <= i < |reply.value.items| && NamedEntry(reply.value.items[i], name) &&
                "isBusiness" in reply.value.items[i].fields && flag == reply.value.items[i].fields["isBusiness"]
  {
    if Succeeded(reply) && reply.value.Arr? then ScanBusiness(reply.value.items, name) else Bool(false)
  }

  /** A list whose entries before `k` are objects under other names yields the
      `isBusiness` field of the named entry at `k`, or false when it has none. */
  lemma {:induction false} ScanBusinessFirst(entries: seq<Json>, name: string, k: nat)
    requires k < |entries| && NamedEntry(entries[k], name)
    requires forall i :: 0 <= i < k ==> entries[i].Obj? && !NamedEntry(entries[i], name)
    ensures ScanBusiness(entries, name)
            == if "isBusiness" in entries[k].fields then entries[k].fields["isBusiness"] else Bool(false)
  {
    if k > 0 {
      var rest := entries[1..];
      assert forall i :: 0 <= i < k - 1 ==> rest[i] == entries[i + 1];
      ScanBusinessFirst(rest, name, k - 1);
    }
  }

  /** A business instance is detected: a list reply naming the instance gives
      the first such entry's `isBusiness` field. */
  lemma BusinessFlagFirst(items: seq<Json>, name: string, k: nat)
    requires k < |items| && NamedEntry(items[k], name)
    requires forall i :: 0 <= i < k ==> items[i].Obj? && !NamedEntry(items[i], name)
    ensures BusinessFlag(Some(Arr(items)), name)
            == if "isBusiness" in items[k].fields then items[k].fields["isBusiness"] else Bool(false)
  {
    ScanBusinessFirst(items, name, k);
  }

  /** The first of the next `limit` replies that satisfies `p`, from index `from`. */
  function FirstHitFrom(p: Option<Json> -> bool, replies: seq<Option<Json>>, from: nat, limit: nat): (r: Option<nat>)
    ensures r.Some? ==> from <= r.value < limit && p(ReplyAt(replies, r.value))
    ensures r.Some? ==> forall j :: from <= j < r.value ==> !p(ReplyAt(replies, j))
    ensures r.None? ==> forall j :: from <= j < limit ==> !p(ReplyAt(replies, j))
    decreases limit - from
  {
    if from >= limit then None
    else if p(ReplyAt(replies, from)) then Some(from)
    else FirstHitFrom(p, replies, from + 1, limit)
  }

  function FirstHit(p: Option<Json> -> bool, replies: seq<Option<Json>>, limit: nat): Option<nat>
  {
    FirstHitFrom(p, replies, 0, limit)
  }

  const MaxAttempts := 3

  /** Requests a retried update sends: up to and including the first success, at most three. */
  function Attempts(replies: seq<Option<Json>>): (n: nat)
    ensures 1 <= n <= MaxAttempts
    ensures n < MaxAttempts ==> Succeeded(ReplyAt(replies, n - 1))
    ensures forall j :: 0 <= j < n - 1 ==> !Succeeded(ReplyAt(replies, j))
  {
    match FirstHit(Succeeded, replies, MaxAttempts)
    case Some(i) => i + 1
    case None => MaxAttempts
  }

  /** A retried update succeeds exactly when one of its three replies succeeds,
      and then the last request it sent is the one that succeeded. */
  lemma RetrySucceeds(replies: seq<Option<Json>>)
    ensures FirstHit(Succeeded, replies, MaxAttempts).Some?
            <==> exists j :: 0 <= j < MaxAttempts && Succeeded(ReplyAt(replies, j))
    ensures FirstHit(Succeeded, replies, MaxAttempts).Some?
            <==> Succeeded(ReplyAt(replies, Attempts(replies) - 1))
  {
  }

  /** The longest bio the profile accepts. */
  const MaxBioLength := 139

  /** The bio as sent: cut to its first 139 characters when longer. */
  function TruncateBio(bio: string): (sent: string)
    ensures |sent| <= MaxBioLength && |sent| <= |bio|
    ensures sent == bio[..|sent|]
    ensures |bio| <= MaxBioLength ==> sent == bio
    ensures |bio| > MaxBioLength ==> |sent| == MaxBioLength
  {
    if |bio| > MaxBioLength then bio[..MaxBioLength] else bio
  }

  /** The seconds between probes while waiting for the QR code to be scanned. */
  const PollInterval := 3

  /** How many probes fit in `timeout` seconds: one at each multiple of the
      interval that is still below the timeout. */
  function PollCount(timeout: int): (n: nat)
    ensures timeout <= 0 ==> n == 0
    ensures timeout > 0 ==> PollInterval * (n - 1) < timeout <= PollInterval * n
  {
    if timeout <= 0 then 0 else (timeout + PollInterval - 1) / PollInterval
  }

  /** Number of the first `n` replies that accept an invite. */
  function CountAccepted(replies: seq<Option<Json>>, n: nat): (c: nat)
    ensures c <= n
  {
    if n == 0 then 0 else CountAccepted(replies, n - 1) + (if Accepted(ReplyAt(replies, n - 1)) then 1 else 0)
  }

  /** All joins succeed exactly when every reply accepts. */
  lemma {:induction false} CountAcceptedAll(replies: seq<Option<Json>>, n: nat)
    ensures CountAccepted(replies, n) == n <==> forall j :: 0 <= j < n ==> Accepted(ReplyAt(replies, j))
  {
    if n > 0 {
      CountAcceptedAll(replies, n - 1);
    }
  }

  /** The invite requests for a list of codes, in order. */
  function JoinRequests(instance: string, codes: seq<string>): (reqs: seq<Request>)
    ensures |reqs| == |codes|
    ensures forall i :: 0 <= i < |codes| ==> reqs[i] == GroupAcceptInviteCode(instance, codes[i])
  {
    if codes == [] then [] else JoinRequests(instance, codes[..|codes| - 1]) + [GroupAcceptInviteCode(instance, codes[|codes| - 1])]
  }

  /** The requests for one more code are the earlier ones and that code's. */
  lemma JoinRequestsMore(instance: string, codes: seq<string>, i: nat)
    requires i < |codes|
    ensures JoinRequests(instance, codes[..i + 1])
            == JoinRequests(instance, codes[..i]) + [GroupAcceptInviteCode(instance, codes[i])]
  {
    assert codes[..i + 1][..i] == codes[..i];
  }
}
