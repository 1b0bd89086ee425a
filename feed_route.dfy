/** The feed route: post the message to the agent's data endpoint as a
    one-element batch and pass the agent's answer through unchanged. It keeps
    its own agent-id cache. */
module FeedRoute {

  import opened Wrappers
  import opened Json
  import opened Http
  import opened Agents

  /** The fixed id every posted message carries. */
  const MessageId: string := "413747040"
  const UnexpectedError: string := "An unexpected error occurred"

  datatype FeedEnv = FeedEnv(
    url: string,          // AUTONOMY_URL
    agentsReply: Reply,   // what the agents lookup receives
    now: int,             // Date.now()
    dataReply: Reply,     // what the data request receives
    typeError: Thrown)

  /** `${url}/data/${agentId}`. */
  function DataUrl(url: string, id: Slot): string {
    url + "/data/" + Template(id)
  }

  /** `[{ id: "413747040", text: message, timestamp }]`. */
  function DataBody(message: Option<Json>, now: int): (r: Json)
    ensures r.JArr? && |r.items| == 1
    ensures Get(Some(r.items[0]), "id") == Some(JStr(MessageId))
    ensures Get(Some(r.items[0]), "text") == message
    ensures Get(Some(r.items[0]), "timestamp") == Some(JNum(now))
  {
    var head := [Field("id", JStr(MessageId))] + Defined("text", message);
    var tail := [Field("timestamp", JNum(now))];
    FieldValueAppend([Field("id", JStr(MessageId))], Defined("text", message), "timestamp");
    FieldValueAppend(head, tail, "id");
    FieldValueAppend(head, tail, "text");
    FieldValueAppend(head, tail, "timestamp");
    JArr([JObj(head + tail)])
  }

  /** POST. The lookup happens only while the cache is null; the data request
      only once an id is known; the agent's answer comes back as it is. Every
      failure is a 500 with the error's message. */
  method HandlePost(cache: AgentCache, message: Option<Json>, env: FeedEnv) returns (r: Response, calls: seq<Call>)
    modifies cache
    ensures cache.agentId == Step(old(cache.agentId), env.agentsReply, env.typeError).0
    ensures Step(old(cache.agentId), env.agentsReply, env.typeError).1.Failure? ==>
              && calls == LookupCalls(old(cache.agentId), env.url + "/agents")
              && r == ErrorResponse(500, CaughtMessage(Step(old(cache.agentId), env.agentsReply, env.typeError).1.error, UnexpectedError))
    ensures Step(old(cache.agentId), env.agentsReply, env.typeError).1.Success? ==>
              calls == LookupCalls(old(cache.agentId), env.url + "/agents")
                       + [Post(DataUrl(env.url, Step(old(cache.agentId), env.agentsReply, env.typeError).1.value), DataBody(message, env.now))]
    ensures r.status in {200, 500}
    ensures r.status == 200 <==>
              Step(old(cache.agentId), env.agentsReply, env.typeError).1.Success? && env.dataReply.ok && env.dataReply.json.Success?
    // the upstream answer passes through unchanged
    ensures r.status == 200 ==> r.body == env.dataReply.json.value
    ensures Step(old(cache.agentId), env.agentsReply, env.typeError).1.Success? && !env.dataReply.ok ==>
              r == ErrorResponse(500, StatusError("Chat request failed", env.dataReply).message)
    // an ok reply whose body cannot be read
    ensures Step(old(cache.agentId), env.agentsReply, env.typeError).1.Success? && env.dataReply.ok
            && env.dataReply.json.Failure? ==>
              r == ErrorResponse(500, CaughtMessage(env.dataReply.json.error, UnexpectedError))
  {
    var id;
    id, calls := cache.Resolve(env.url + "/agents", env.agentsReply, env.typeError);
    if id.Failure? {
      return ErrorResponse(500, CaughtMessage(id.error, UnexpectedError)), calls;
    }
    calls := calls + [Post(DataUrl(env.url, id.value), DataBody(message, env.now))];
    if !env.dataReply.ok {
      return ErrorResponse(500, StatusError("Chat request failed", env.dataReply).message), calls;
    }
    match env.dataReply.json {
      case Failure(e) => r := ErrorResponse(500, CaughtMessage(e, UnexpectedError));
      case Success(result) => r := Response(200, result);
    }
  }
}
