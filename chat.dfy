/** The chat page: the message box's submission is sent to one of three
    backend endpoints chosen by the selected action, and the page shows the
    backend's `message`, or the error. A submission is split where the page
    awaits the request: `Begin` runs up to the request, `Complete` when its
    reply arrives. */
module Chat {

  import opened Wrappers
  import opened Js
  import opened Json
  import opened Http
  import Suggestions
  import TweetRoute
  import FeedRoute

  const Greeting: string := "Hello, I'm your AI friend. How can I help you today?"
  const UnexpectedError: string := "An unexpected error occurred"

  /** The chips this page offers, "General" selected at first. */
  const ChatActions: seq<Suggestions.ActionItem> := [
    Suggestions.ActionItem("Tweet", "MessageCircle"),
    Suggestions.ActionItem("General", "Globe"),
    Suggestions.ActionItem("Spill Secret", "Lock")
  ]

  /** `action?.toLowerCase() || 'general'`. */
  function ActionKey(action: Option<string>): (k: string)
    ensures action.None? || action == Some("") ==> k == "general"
    ensures action.Some? && action.value != "" ==> k == ToLower(action.value)
  {
    if action.None? || action.value == "" then "general" else ToLower(action.value)
  }

  /** A request the page sends: the endpoint path and the JSON payload. */
  datatype Request = Request(endpoint: string, payload: Json)

  /** The action switch: three endpoints, anything else an error. */
  function Dispatch(key: string, text: string, timestamp: string): (r: Result<Request, string>)
    ensures key == "tweet" ==>
              r == Success(Request("/api/tweet", JObj([Field("tweet", JStr(text)), Field("timestamp", JStr(timestamp))])))
    ensures key == "general" ==>
              r == Success(Request("/api/chat", JObj([Field("message", JStr(text)), Field("type", JStr("general")),
                                                      Field("timestamp", JStr(timestamp))])))
    ensures key == "spill secret" ==>
              r == Success(Request("/api/feed", JObj([Field("secret", JStr(text)), Field("isAnonymous", JBool(true)),
                                                      Field("timestamp", JStr(timestamp))])))
    ensures r.Failure? <==> key !in {"tweet", "general", "spill secret"}
    ensures r.Failure? ==> r.error == "Invalid action selected"
  {
    if key == "tweet" then
      Success(Request("/api/tweet", JObj([Field("tweet", JStr(text)), Field("timestamp", JStr(timestamp))])))
    else if key == "general" then
      Success(Request("/api/chat", JObj([Field("message", JStr(text)), Field("type", JStr("general")),
                                         Field("timestamp", JStr(timestamp))])))
    else if key == "spill secret" then
      Success(Request("/api/feed", JObj([Field("secret", JStr(text)), Field("isAnonymous", JBool(true)),
                                         Field("timestamp", JStr(timestamp))])))
    else Failure("Invalid action selected")
  }

  /** The keys the chips of this page and of the message box's defaults
      produce. */
  lemma ChipKeys()
    ensures ActionKey(Some("Tweet")) == "tweet"
    ensures ActionKey(Some("General")) == "general"
    ensures ActionKey(Some("Spill Secret")) == "spill secret"
    ensures ActionKey(Some("Summary")) == "summary"
    ensures ActionKey(Some("Fix Spelling and Grammar")) == "fix spelling and grammar"
    ensures ActionKey(Some("Make shorter")) == "make shorter"
  {
    assert ToLower("Tweet") == "tweet";
    assert ToLower("General") == "general";
    assert ToLower("Spill Secret") == "spill secret";
    assert ToLower("Summary") == "summary";
    assert ToLower("Fix Spelling and Grammar") == "fix spelling and grammar";
    assert ToLower("Make shorter") == "make shorter";
  }

  /** Every chip of this page reaches an endpoint, and so does sending with
      no chip selected; the message box's default chips do not. */
  lemma ChatActionsDispatch(text: string, timestamp: string)
    ensures forall a :: a in ChatActions ==> Dispatch(ActionKey(Some(a.text)), text, timestamp).Success?
    ensures Dispatch(ActionKey(None), text, timestamp).value.endpoint == "/api/chat"
    ensures forall a :: a in Suggestions.DefaultActions ==>
              Dispatch(ActionKey(Some(a.text)), text, timestamp) == Failure("Invalid action selected")
  {
    ChipKeys();
  }

  /** The tweet and feed routes read the submitted text from `message`, but
      this page sends a tweet under `tweet` and a secret under `secret`: the
      tweet route then prompts the agent with "undefined", and the feed route
      posts an entry without text. */
  lemma SubmittedTextIsNotRead(text: string, timestamp: string, now: int)
    ensures var tweet := Dispatch("tweet", text, timestamp).value.payload;
            Get(Some(TweetRoute.ChatBody(Get(Some(tweet), "message"))), "text")
              == Some(JStr(TweetRoute.TweetPrompt + "undefined"))
    ensures var secret := Dispatch("spill secret", text, timestamp).value.payload;
            Get(Some(FeedRoute.DataBody(Get(Some(secret), "message"), now).items[0]), "text").None?
  {
    var tweet := Dispatch("tweet", text, timestamp).value.payload;
    assert |tweet.fields| == 2 && |tweet.fields[0].key| == 5 && |tweet.fields[1].key| == 9;
    assert FieldValue(tweet.fields[1..], "message") == FieldValue(tweet.fields[2..], "message") == None;
    assert Get(Some(tweet), "message") == None;
    var secret := Dispatch("spill secret", text, timestamp).value.payload;
    assert |secret.fields| == 3 && |secret.fields[0].key| == 6 && |secret.fields[1].key| == 11;
    assert |secret.fields[2].key| == 9;
    assert FieldValue(secret.fields[2..], "message") == FieldValue(secret.fields[3..], "message") == None;
    assert FieldValue(secret.fields[1..], "message") == FieldValue(secret.fields[1..][1..], "message");
    assert secret.fields[1..][1..] == secret.fields[2..];
    assert Get(Some(secret), "message") == None;
  }

  /** `${action}` in the failure message. */
  function ActionText(action: Option<string>): string {
    if action.Some? then action.value else "undefined"
  }

  /** How a reply settles the page: the new `replay` value (`data.message`),
      or the error message. Reading `message` of a null body throws
      `typeError`. */
  function Settle(action: Option<string>, reply: Reply, typeError: Thrown): (r: Result<Option<Json>, string>)
    ensures !reply.ok ==> r == Failure("Failed to submit " + ActionText(action) + ". Please try again.")
    ensures reply.ok && reply.json.Failure? ==> r == Failure(CaughtMessage(reply.json.error, UnexpectedError))
    ensures r.Success? <==> reply.ok && reply.json.Success? && reply.json.value != JNull
    ensures r.Success? ==> r.value == Get(Some(reply.json.value), "message")
  {
    if !reply.ok then Failure("Failed to submit " + ActionText(action) + ". Please try again.")
    else match reply.json
      case Failure(e) => Failure(CaughtMessage(e, UnexpectedError))
      case Success(data) =>
        if data == JNull then Failure(CaughtMessage(typeError, UnexpectedError))
        else Success(Get(Some(data), "message"))
  }

  /** What `Begin` did with a submission. */
  datatype Began = Ignored | Rejected | Sent(url: string, request: Request)

  class ChatPage {
    const backendUrl: string
    var isSubmitting: bool
    var replay: Option<Json>
    var error: Option<string>

    constructor(backendUrl: string)
      ensures this.backendUrl == backendUrl
      ensures !isSubmitting && replay == Some(JStr(Greeting)) && error.None?
    {
      this.backendUrl := backendUrl;
      isSubmitting := false;
      replay := Some(JStr(Greeting));
      error := None;
    }

    /** `handleSubmit` up to the request. Blank text, or a submission still
        in flight, is ignored outright. An unknown action fails at once: the
        error shows, the reply clears and the page is free again. Otherwise
        the request goes out and the page stays busy until `Complete`. */
    method Begin(text: string, action: Option<string>, timestamp: string) returns (b: Began)
      modifies this
      ensures Trim(text) == "" || old(isSubmitting) ==>
                b == Ignored && isSubmitting == old(isSubmitting) && replay == old(replay) && error == old(error)
      ensures Trim(text) != "" && !old(isSubmitting) ==>
                match Dispatch(ActionKey(action), text, timestamp)
                case Failure(message) =>
                  b == Rejected && error == Some(message) && replay == Some(JStr("")) && !isSubmitting
                case Success(request) =>
                  b == Sent(backendUrl + request.endpoint, request) && error.None? && replay == old(replay) && isSubmitting
    {
      if Trim(text) == "" || isSubmitting {
        return Ignored;
      }
      isSubmitting := true;
      error := None;
      match Dispatch(ActionKey(action), text, timestamp) {
        case Failure(message) =>
          error := Some(message);
          replay := Some(JStr(""));
          isSubmitting := false;
          b := Rejected;
        case Success(request) =>
          b := Sent(backendUrl + request.endpoint, request);
      }
    }

    /** The rest of `handleSubmit` once the reply is in: show the reply's
        `message`, or show the error and clear the reply; either way the page
        is free again. */
    method Complete(action: Option<string>, reply: Reply, typeError: Thrown)
      modifies this
      ensures !isSubmitting
      ensures match Settle(action, reply, typeError)
              case Success(message) => replay == message && error == old(error)
              case Failure(message) => error == Some(message) && replay == Some(JStr(""))
    {
      match Settle(action, reply, typeError) {
        case Success(message) =>
          replay := message;
        case Failure(message) =>
          error := Some(message);
          replay := Some(JStr(""));
      }
      isSubmitting := false;
    }
  }
}
