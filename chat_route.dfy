/** The POST handler of app/api/chat/route.ts: it turns a chat history into the "parts" sent
    to the language model and maps the failure cases to error responses. The model call
    itself is external; its outcome is a parameter. */
module ChatRoute {
  import opened Wrappers

  /** A history entry; its role is normally "user", "assistant" or "model". */
  datatype ChatMessage = ChatMessage(role: string, content: string)

  /** One element of `contents`: a role and a single text part. */
  datatype Part = Part(role: string, text: string)

  /** The parsed request body; an absent `system` and an empty one are both falsy. */
  datatype ChatRequest = ChatRequest(history: Option<seq<ChatMessage>>, system: Option<string>)

  datatype Response = Reply(reply: string) | Error(error: string, status: int)

  const MissingKeyError: string := "Missing GEMINI_API_KEY"
  const FailureError: string := "Chat request failed"

  /** The model's vocabulary: "assistant" becomes "model", every other role passes unchanged. */
  function ModelRole(role: string): (r: string)
    ensures role == "assistant" ==> r == "model"
    ensures role != "assistant" ==> r == role
    ensures role in {"user", "assistant", "model"} ==> r in {"user", "model"}
  {
    if role == "assistant" then "model" else role
  }

  function PartOf(m: ChatMessage): Part
  {
    Part(ModelRole(m.role), m.content)
  }

  predicate HasSystem(system: Option<string>)
  {
    system.Some? && system.value != ""
  }

  /** The leading instruction part, present when the request carries a non-empty system prompt. */
  function SystemParts(system: Option<string>): (ps: seq<Part>)
    ensures |ps| == if HasSystem(system) then 1 else 0
  {
    if HasSystem(system) then [Part("user", "System instructions: " + system.value)] else []
  }

  /** The parts of the first `n` history messages, in order. */
  function HistoryParts(history: seq<ChatMessage>, n: nat): (ps: seq<Part>)
    requires n <= |history|
    ensures |ps| == n
    ensures forall i :: 0 <= i < n ==> ps[i] == PartOf(history[i])
  {
    if n == 0 then [] else HistoryParts(history, n - 1) + [PartOf(history[n - 1])]
  }

  /** The complete `contents` for a request; a missing history counts as empty. */
  function ToParts(history: Option<seq<ChatMessage>>, system: Option<string>): seq<Part>
  {
    var h := history.GetOr([]);
    SystemParts(system) + HistoryParts(h, |h|)
  }

  /** One part per history message, plus one for a non-empty system prompt. */
  lemma PartsCount(history: Option<seq<ChatMessage>>, system: Option<string>)
    ensures |ToParts(history, system)| == |history.GetOr([])| + (if HasSystem(system) then 1 else 0)
  {
  }

  /** With a system prompt the first part carries it, in the user role. */
  lemma SystemPartFirst(history: Option<seq<ChatMessage>>, system: Option<string>)
    requires HasSystem(system)
    ensures ToParts(history, system)[0] == Part("user", "System instructions: " + system.value)
  {
  }

  /** The history follows the system part in order: each message's text unchanged and its role translated. */
  lemma PartsFollowHistory(history: Option<seq<ChatMessage>>, system: Option<string>, i: nat)
    requires i < |history.GetOr([])|
    ensures var k := i + (if HasSystem(system) then 1 else 0);
      k < |ToParts(history, system)|
      && ToParts(history, system)[k].text == history.GetOr([])[i].content
      && ToParts(history, system)[k].role == ModelRole(history.GetOr([])[i].role)
  {
  }

  /** The body of `POST` that fills `parts`: the system part first, then one push per message. */
  method BuildParts(history: Option<seq<ChatMessage>>, system: Option<string>) returns (parts: seq<Part>)
    ensures parts == ToParts(history, system)
  {
    parts := [];
    if HasSystem(system) {
      parts := parts + [Part("user", "System instructions: " + system.value)];
    }
    var h := history.GetOr([]);
    var i := 0;
    while i < |h|
      invariant 0 <= i <= |h|
      invariant parts == SystemParts(system) + HistoryParts(h, i)
    {
      parts := parts + [PartOf(h[i])];
      i := i + 1;
    }
  }

  /** `POST`. `request` is `None` when the body does not parse, `hasApiKey` says whether the
      key is set, and `modelOutcome` is the model's text or `None` when the call throws.
      Returns the response and the contents sent to the model, `None` when it is not called. */
  method Post(request: Option<ChatRequest>, hasApiKey: bool, modelOutcome: Option<string>)
    returns (response: Response, sent: Option<seq<Part>>)
    ensures request.None? ==> response == Error(FailureError, 500) && sent == None
    ensures request.Some? && !hasApiKey ==> response == Error(MissingKeyError, 500) && sent == None
    ensures request.Some? && hasApiKey ==> (
      && sent == Some(ToParts(request.value.history, request.value.system))
      && (modelOutcome.Some? ==> response == Reply(modelOutcome.value))
      && (modelOutcome.None? ==> response == Error(FailureError, 500)))
  {
    if request.None? {
      return Error(FailureError, 500), None;
    }
    if !hasApiKey {
      return Error(MissingKeyError, 500), None;
    }
    var parts := BuildParts(request.value.history, request.value.system);
    sent := Some(parts);
    match modelOutcome {
      case Some(text) => response := Reply(text);
      case None => response := Error(FailureError, 500);
    }
  }
}
