/** The tweet route: ask the agent to phrase the message as a tweet, render
    the reply as a tweet image pinned to IPFS, mint an NFT of the image
    through the NFT route, and answer with the agent's reply merged with the
    image and the NFT. Each stage runs only if the one before succeeded. */
module TweetRoute {

  import opened Wrappers
  import opened Json
  import opened Http
  import opened Agents

  const TweetPrompt: string := "make it as a tweet post. "
  const ReplyFallback: string := "Hello Puppys"
  const Client: string := "Gossip Girl Web"
  const ImageGateway: string := "https://gateway.pinata.cloud/ipfs/"
  const UnexpectedError: string := "An unexpected error occurred"
  const ChatFailed: string := "Chat request failed"
  const NftFailed: string := "NFT generation failed"

  /** One request's view of the world. `renderImage` stands for the tweet
      image renderer and its Pinata upload: it yields the pinned file's
      `IpfsHash`. */
  datatype TweetEnv = TweetEnv(
    url: string,                     // AUTONOMY_URL
    agentsReply: Reply,              // what the agents lookup receives
    chatReply: Reply,                // what the message request receives
    renderImage: (Json, string, string) -> Result<Option<Json>, Thrown>,
    timestamp: string,               // new Date().toLocaleString()
    date: string,                    // new Date().toLocaleDateString()
    nodeEnv: Option<string>,         // NODE_ENV
    vercelUrl: Option<string>,       // VERCEL_URL
    nftReply: Reply,                 // what the NFT route answers
    typeError: Thrown)

  /** `${url}/${agentId}/message`. */
  function MessageUrl(url: string, id: Slot): string {
    url + "/" + Template(id) + "/message"
  }

  /** The message request's body: the prompt prefix, then the message. */
  function ChatBody(message: Option<Json>): (r: Json)
    ensures Get(Some(r), "text") == Some(JStr(TweetPrompt + Template(message)))
  {
    JObj([Field("text", JStr(TweetPrompt + Template(message)))])
  }

  /** `chatResult?.[0]?.text || 'Hello Puppys'`: the first reply's text when
      it is truthy, the fallback otherwise; either way a truthy value. */
  function ImageText(chatResult: Json): (r: Json)
    ensures Truthy(Get(First(Some(chatResult)), "text")) ==> Some(r) == Get(First(Some(chatResult)), "text")
    ensures !Truthy(Get(First(Some(chatResult)), "text")) ==> r == JStr(ReplyFallback)
    ensures Truthy(Some(r))
  {
    var text := Get(First(Some(chatResult)), "text");
    if Truthy(text) then text.value else JStr(ReplyFallback)
  }

  /** `{ ipfsHash, ipfsUrl }` as the image renderer returns it. */
  function ImageData(hash: Option<Json>): (r: Json)
    ensures Get(Some(r), "ipfsHash") == hash
    ensures Get(Some(r), "ipfsUrl") == Some(JStr(ImageGateway + Template(hash)))
  {
    var fields := Defined("ipfsHash", hash) + [Field("ipfsUrl", JStr(ImageGateway + Template(hash)))];
    FieldValueAppend(Defined("ipfsHash", hash), [Field("ipfsUrl", JStr(ImageGateway + Template(hash)))], "ipfsHash");
    FieldValueAppend(Defined("ipfsHash", hash), [Field("ipfsUrl", JStr(ImageGateway + Template(hash)))], "ipfsUrl");
    JObj(fields)
  }

  /** `${protocol}://${host}/api/nft`: plain http only in development, and
      `localhost:3000` when no deployment host is set. */
  function NftUrl(nodeEnv: Option<string>, vercelUrl: Option<string>): string {
    (if nodeEnv == Some("development") then "http" else "https") + "://"
    + (if Present(vercelUrl) then vercelUrl.value else "localhost:3000") + "/api/nft"
  }

  /** The NFT request's body: a dated name, the message as description and
      the pinned image's URL. */
  function NftBody(date: string, message: Option<Json>, imageData: Json): (r: Json)
    ensures Get(Some(r), "name") == Some(JStr("Tweet NFT - " + date))
    ensures Get(Some(r), "image") == Get(Some(imageData), "ipfsUrl")
  {
    var head := [Field("name", JStr("Tweet NFT - " + date))] + Defined("description", message);
    var tail := Defined("image", Get(Some(imageData), "ipfsUrl"));
    FieldValueAppend([Field("name", JStr("Tweet NFT - " + date))], Defined("description", message), "image");
    FieldValueAppend(head, tail, "name");
    FieldValueAppend(head, tail, "image");
    JObj(head + tail)
  }

  /** `{ ...chatResult, image, nft }`: the agent's reply with `image` and
      `nft` set and every other property kept. */
  function Merged(chatResult: Json, image: Json, nft: Json): (r: Json)
    ensures r.JObj?
    ensures FieldValue(r.fields, "image") == Some(image) && FieldValue(r.fields, "nft") == Some(nft)
    ensures forall k :: k != "image" && k != "nft" ==> FieldValue(r.fields, k) == FieldValue(Spread(chatResult), k)
  {
    JObj(Set(Set(Spread(chatResult), "image", image), "nft", nft))
  }

  /** The message request succeeded and its reply was read as JSON. */
  predicate ChatRead(env: TweetEnv) {
    env.chatReply.ok && env.chatReply.json.Success?
  }

  /** What the image renderer gives for the agent's reply. */
  function Rendered(env: TweetEnv): Result<Option<Json>, Thrown>
    requires ChatRead(env)
  {
    env.renderImage(ImageText(env.chatReply.json.value), env.timestamp, Client)
  }

  /** What the rest of the `try` block does once the agent id is known: the
      message request, the image rendering and the NFT request, each made
      only if everything before it succeeded. A non-ok reply fails with its
      status message, any other failure with the thrown error's message. */
  predicate Published(id: Slot, message: Option<Json>, env: TweetEnv, r: Response, calls: seq<Call>) {
    && (r.status == 200 || r.status == 500)
    && 1 <= |calls| <= 3 && calls[0] == Post(MessageUrl(env.url, id), ChatBody(message))
    && (!env.chatReply.ok ==>
          r == ErrorResponse(500, StatusError(ChatFailed, env.chatReply).message) && |calls| == 1)
    && (env.chatReply.ok && env.chatReply.json.Failure? ==>
          r == ErrorResponse(500, CaughtMessage(env.chatReply.json.error, UnexpectedError)) && |calls| == 1)
    && (ChatRead(env) ==>
          |calls| >= 2 && calls[1] == RenderImage(ImageText(env.chatReply.json.value), env.timestamp, Client))
    && (ChatRead(env) && Rendered(env).Failure? ==>
          r == ErrorResponse(500, CaughtMessage(Rendered(env).error, UnexpectedError)) && |calls| == 2)
    && (ChatRead(env) && Rendered(env).Success? ==>
          |calls| == 3 && calls[2] == Post(NftUrl(env.nodeEnv, env.vercelUrl), NftBody(env.date, message, ImageData(Rendered(env).value))))
    && (ChatRead(env) && Rendered(env).Success? && !env.nftReply.ok ==>
          r == ErrorResponse(500, StatusError(NftFailed, env.nftReply).message))
    && (ChatRead(env) && Rendered(env).Success? && env.nftReply.ok && env.nftReply.json.Failure? ==>
          r == ErrorResponse(500, CaughtMessage(env.nftReply.json.error, UnexpectedError)))
    && (r.status == 200 <==> ChatRead(env) && Rendered(env).Success? && env.nftReply.ok && env.nftReply.json.Success?)
    && (r.status == 200 ==>
          && ChatRead(env) && Rendered(env).Success? && env.nftReply.json.Success?
          && r.body == Merged(env.chatReply.json.value, ImageData(Rendered(env).value), env.nftReply.json.value))
  }

  /** The rest of the `try` block once the agent id is known. */
  method Publish(id: Slot, message: Option<Json>, env: TweetEnv) returns (r: Response, calls: seq<Call>)
    ensures Published(id, message, env, r, calls)
  {
    calls := [Post(MessageUrl(env.url, id), ChatBody(message))];
    if !env.chatReply.ok {
      return ErrorResponse(500, StatusError(ChatFailed, env.chatReply).message), calls;
    }
    if env.chatReply.json.Failure? {
      return ErrorResponse(500, CaughtMessage(env.chatReply.json.error, UnexpectedError)), calls;
    }
    var chatResult := env.chatReply.json.value;
    var text := ImageText(chatResult);
    calls := calls + [RenderImage(text, env.timestamp, Client)];
    var rendered := env.renderImage(text, env.timestamp, Client);
    if rendered.Failure? {
      return ErrorResponse(500, CaughtMessage(rendered.error, UnexpectedError)), calls;
    }
    var image := ImageData(rendered.value);
    calls := calls + [Post(NftUrl(env.nodeEnv, env.vercelUrl), NftBody(env.date, message, image))];
    if !env.nftReply.ok {
      return ErrorResponse(500, StatusError(NftFailed, env.nftReply).message), calls;
    }
    if env.nftReply.json.Failure? {
      return ErrorResponse(500, CaughtMessage(env.nftReply.json.error, UnexpectedError)), calls;
    }
    r := Response(200, Merged(chatResult, image, env.nftReply.json.value));
  }

  /** POST: the agent lookup (made only while the cached id is null, and
      caching the id it finds), then `Publish`; a failed lookup is a 500 with
      its error's message and nothing else is requested. */
  method HandlePost(cache: AgentCache, message: Option<Json>, env: TweetEnv) returns (r: Response, calls: seq<Call>)
    modifies cache
    ensures cache.agentId == Step(old(cache.agentId), env.agentsReply, env.typeError).0
    ensures r.status == 200 || r.status == 500
    ensures |LookupCalls(old(cache.agentId), env.url + "/agents")| <= |calls|
    ensures calls[..|LookupCalls(old(cache.agentId), env.url + "/agents")|] == LookupCalls(old(cache.agentId), env.url + "/agents")
    ensures Step(old(cache.agentId), env.agentsReply, env.typeError).1.Failure? ==>
              && r == ErrorResponse(500, CaughtMessage(Step(old(cache.agentId), env.agentsReply, env.typeError).1.error, UnexpectedError))
              && calls == LookupCalls(old(cache.agentId), env.url + "/agents")
    // with the cached or looked-up id, the rest is `Publish`
    ensures Step(old(cache.agentId), env.agentsReply, env.typeError).1.Success? ==>
              Published(Step(old(cache.agentId), env.agentsReply, env.typeError).1.value, message, env, r,
                        calls[|LookupCalls(old(cache.agentId), env.url + "/agents")|..])
  {
    var id, lookup := cache.Resolve(env.url + "/agents", env.agentsReply, env.typeError);
    if id.Failure? {
      return ErrorResponse(500, CaughtMessage(id.error, UnexpectedError)), lookup;
    }
    var published;
    r, published := Publish(id.value, message, env);
    calls := lookup + published;
  }
}
