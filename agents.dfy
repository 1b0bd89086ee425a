/** The agent-id cache of the tweet and feed routes. Each route keeps a
    process-wide `agentId`, null until a lookup of `${url}/agents` succeeds;
    a request looks the agent up only while the cache is null and writes the
    first agent's id into it. */
module Agents {

  import opened Wrappers
  import opened Json
  import opened Http

  /** The cache as the routes hold it: `None` is `undefined` (an agent record
      without an `id`), `Some(JNull)` is `null`. */
  type Slot = Option<Json>

  /** `agentId === null`: the state the cache starts in. */
  const Unset: Slot := Some(JNull)

  /** The external calls an agent route makes, in order. */
  datatype Call =
    | GetAgents(url: string)
    | Post(url: string, body: Json)
    | RenderImage(text: Json, timestamp: string, client: string)

  /** `data?.agents` is a non-empty array. */
  predicate HasAgents(data: Json) {
    match Get(Some(data), "agents")
    case Some(JArr(agents)) => |agents| > 0
    case _ => false
  }

  /** What the lookup makes of the reply: the first agent's `id`, or the
      error it throws. Reading `id` of a null agent throws `typeError`. */
  function LookupAgent(reply: Reply, typeError: Thrown): (r: Result<Slot, Thrown>)
    ensures !reply.ok ==> r == Failure(StatusError("Failed to fetch agents", reply))
    ensures reply.ok && reply.json.Failure? ==> r == Failure(reply.json.error)
    ensures reply.ok && reply.json.Success? && !HasAgents(reply.json.value) ==>
              r == Failure(Error("No agents found in the response"))
    ensures r.Success? <==>
              && reply.ok && reply.json.Success? && HasAgents(reply.json.value)
              && Get(Some(reply.json.value), "agents").value.items[0] != JNull
    ensures r.Success? ==> r.value == Get(Some(Get(Some(reply.json.value), "agents").value.items[0]), "id")
  {
    if !reply.ok then Failure(StatusError("Failed to fetch agents", reply))
    else match reply.json
      case Failure(e) => Failure(e)
      case Success(data) =>
        if !HasAgents(data) then Failure(Error("No agents found in the response"))
        else
          var first := Get(Some(data), "agents").value.items[0];
          if first == JNull then Failure(typeError) else Success(Get(Some(first), "id"))
  }

  /** One request's passage through the cache: the cache afterwards and the
      id the request goes on with (or what it throws). `reply` is what the
      lookup would receive; it is consulted only when the cache is null. */
  function Step(slot: Slot, reply: Reply, typeError: Thrown): (r: (Slot, Result<Slot, Thrown>))
    ensures slot != Unset ==> r == (slot, Success(slot))
    ensures slot == Unset ==> r.1 == LookupAgent(reply, typeError)
    ensures r.1.Success? ==> r.0 == r.1.value
    ensures r.1.Failure? ==> r.0 == slot
  {
    if slot != Unset then (slot, Success(slot))
    else match LookupAgent(reply, typeError)
      case Success(id) => (id, Success(id))
      case Failure(e) => (slot, Failure(e))
  }

  /** The cache before each of a series of requests, and after the last. */
  function Slots(slot: Slot, replies: seq<Reply>, typeError: Thrown): (r: seq<Slot>)
    ensures |r| == |replies| + 1 && r[0] == slot
    ensures forall k :: 0 <= k < |replies| ==> r[k + 1] == Step(r[k], replies[k], typeError).0
    decreases |replies|
  {
    if |replies| == 0 then [slot]
    else
      var rest := Slots(Step(slot, replies[0], typeError).0, replies[1..], typeError);
      assert forall k :: 1 <= k < |replies| ==> replies[k] == replies[1..][k - 1];
      [slot] + rest
  }

  /** Once the cache holds anything but null it never changes again, so no
      later request performs a lookup. */
  lemma {:induction false} FilledCacheIsFinal(slot: Slot, replies: seq<Reply>, typeError: Thrown, i: nat, j: nat)
    requires i <= j <= |replies|
    requires Slots(slot, replies, typeError)[i] != Unset
    ensures Slots(slot, replies, typeError)[j] == Slots(slot, replies, typeError)[i]
    decreases j - i
  {
    if i < j {
      var s := Slots(slot, replies, typeError);
      assert s[i + 1] == Step(s[i], replies[i], typeError).0 == s[i];
      FilledCacheIsFinal(slot, replies, typeError, i + 1, j);
    }
  }

  /** Lookups happen in an unbroken run from the first request: a request
      that looks the agent up has only lookups before it, and at most one
      lookup in the series fills the cache. */
  lemma LookupsFormAPrefix(slot: Slot, replies: seq<Reply>, typeError: Thrown, i: nat, j: nat)
    requires i <= j < |replies|
    requires Slots(slot, replies, typeError)[j] == Unset
    ensures Slots(slot, replies, typeError)[i] == Unset
    ensures Slots(slot, replies, typeError)[i + 1] != Unset ==> i == j
  {
    var s := Slots(slot, replies, typeError);
    if s[i] != Unset {
      FilledCacheIsFinal(slot, replies, typeError, i, j);
    } else if s[i + 1] != Unset && i < j {
      FilledCacheIsFinal(slot, replies, typeError, i + 1, j);
    }
  }

  /** The lookup request a handler makes: one while the cache is null, none
      once it holds an id. */
  function LookupCalls(slot: Slot, agentsUrl: string): (r: seq<Call>)
    ensures |r| <= 1 && (r != [] <==> slot == Unset)
    ensures r != [] ==> r[0] == GetAgents(agentsUrl)
  {
    if slot == Unset then [GetAgents(agentsUrl)] else []
  }

  /** The module-level `agentId` of one route. */
  class AgentCache {
    var agentId: Slot

    constructor()
      ensures agentId == Unset
    {
      agentId := Unset;
    }

    /** The `if (agentId === null) { ... }` block: look the agent up while
        the cache is null and keep the first agent's id; `calls` holds the
        lookup request when one was made. */
    method Resolve(agentsUrl: string, reply: Reply, typeError: Thrown) returns (id: Result<Slot, Thrown>, calls: seq<Call>)
      modifies this
      ensures (agentId, id) == Step(old(agentId), reply, typeError)
      ensures calls == LookupCalls(old(agentId), agentsUrl)
    {
      calls := [];
      if agentId == Unset {
        calls := [GetAgents(agentsUrl)];
        id := LookupAgent(reply, typeError);
        if id.Failure? {
          return;
        }
        agentId := id.value;
      }
      id := Success(agentId);
    }
  }
}
