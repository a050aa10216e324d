/**
 * The chat handler (app.py:142-179): the system instruction built around the
 * parse context, the last ten history entries turned into model turns, and
 * the reply the page receives.
 */
module Chat {
  import opened Wrappers
  import opened Text
  import opened JsonValue
  import opened Http

  /**
   * One element of the request's `history` list: its `role` member, if any,
   * and its `text` member. Only well-formed entries are represented, including
   * those older than the last ten, which the source never reads.
   */
  datatype HistoryEntry = HistoryEntry(role: Option<Json>, text: Json)

  /** One element of `contents`: `{"role": role, "parts": [{"text": text}]}`. */
  datatype Turn = Turn(role: string, text: Json)

  /**
   * The chat request's fields, with `message` already defaulted to `""` when
   * missing. `context` is None when it is missing or a falsy value that is not
   * a string (null, `false`, `0`, `[]`, `{}`), all of which give the
   * placeholder. A truthy context that is not a string makes the
   * concatenation raise TypeError, and that request is not modelled.
   */
  datatype ChatRequest = ChatRequest(message: string, context: Option<string>, history: seq<HistoryEntry>)

  /** How many history entries a conversation keeps (`history[-10:]`). */
  const HistoryWindow := 10

  const NoMessage := "No message"

  const NoParseYet := "(no parse yet)"

  /** The fixed part of the system instruction (app.py:152-162). */
  const TutorPreamble: string :=
    "You are a friendly English tutor inside \"Monolith\", a structural English visualizer.\n"
    + "The user is looking at a color-coded structural breakdown of an English sentence.\n"
    + "Your job is to explain WHY the sentence has that structure, explain grammar concepts\n"
    + "in simple terms (avoid jargon \U{2014} use colors and spatial metaphors when possible),\n"
    + "give usage examples, and answer any questions about the sentence.\n"
    + "\n"
    + "Reply in Japanese (the user is a Japanese learner of English).\n"
    + "Keep answers concise but insightful \U{2014} 2-4 short paragraphs max.\n"
    + "Use the parse context below to understand what the user is looking at.\n"
    + "\n"
    + "CURRENT PARSE CONTEXT:\n"

  /** `history[-10:]` */
  function RecentHistory(history: seq<HistoryEntry>): (recent: seq<HistoryEntry>)
    ensures |recent| == if |history| < HistoryWindow then |history| else HistoryWindow
    ensures recent == history[|history| - |recent|..]
  {
    if |history| <= HistoryWindow then history else history[|history| - HistoryWindow..]
  }

  /** `"user" if h.get("role") == "user" else "model"` */
  function RoleOf(role: Option<Json>): (r: string)
    ensures r == "user" <==> role == Some(JString("user"))
    ensures r == "user" || r == "model"
  {
    if role == Some(JString("user")) then "user" else "model"
  }

  function TurnOf(h: HistoryEntry): Turn
  {
    Turn(RoleOf(h.role), h.text)
  }

  /** The turns for a list of history entries, one per entry and in the same order. */
  function ToTurns(entries: seq<HistoryEntry>): (turns: seq<Turn>)
    ensures |turns| == |entries|
    ensures forall i :: 0 <= i < |entries| ==> turns[i] == TurnOf(entries[i])
  {
    if entries == [] then [] else ToTurns(entries[..|entries| - 1]) + [TurnOf(entries[|entries| - 1])]
  }

  /**
   * The `contents` list sent to the model: the last (at most ten) history
   * entries in order, then the message as a user turn.
   */
  function Conversation(history: seq<HistoryEntry>, message: string): (turns: seq<Turn>)
    ensures var n := if |history| < HistoryWindow then |history| else HistoryWindow;
            |turns| == n + 1
            && (forall i :: 0 <= i < n ==> turns[i] == TurnOf(history[|history| - n + i]))
            && turns[n] == Turn("user", JString(message))
    ensures forall i :: 0 <= i < |turns| ==> turns[i].role == "user" || turns[i].role == "model"
  {
    ToTurns(RecentHistory(history)) + [Turn("user", JString(message))]
  }

  /** The loop of app.py:165-169. */
  method AssembleTurns(history: seq<HistoryEntry>, message: string) returns (contents: seq<Turn>)
    ensures contents == Conversation(history, message)
  {
    var recent := RecentHistory(history);
    contents := [];
    for i := 0 to |recent|
      invariant contents == ToTurns(recent[..i])
    {
      var h := recent[i];
      contents := contents + [Turn(RoleOf(h.role), h.text)];
      assert recent[..i + 1][..i] == recent[..i];
    }
    assert recent[..|recent|] == recent;
    contents := contents + [Turn("user", JString(message))];
  }

  /** The text after the preamble: the parse context, or the placeholder when it is empty or missing. */
  function ContextText(context: Option<string>): (text: string)
    ensures text != []
    ensures context.Some? && context.value != [] ==> text == context.value
    ensures context.None? || context.value == [] ==> text == NoParseYet
  {
    if context.None? || context.value == [] then NoParseYet else context.value
  }

  /** `system` (app.py:152-163) */
  function SystemInstruction(context: Option<string>): (system: string)
    ensures |system| > |TutorPreamble| && system[..|TutorPreamble|] == TutorPreamble
    ensures system[|TutorPreamble|..] == ContextText(context)
  {
    TutorPreamble + ContextText(context)
  }

  /** An empty or missing context both give the placeholder, and any other context is carried whole. */
  lemma SystemContext(context: Option<string>)
    ensures context.None? || context.value == [] ==> SystemInstruction(context) == TutorPreamble + NoParseYet
    ensures context.Some? && context.value != [] ==> SystemInstruction(context) == TutorPreamble + context.value
  {
  }

  /** Different non-empty contexts give different system instructions. */
  lemma SystemInjective(c1: string, c2: string)
    requires c1 != [] && c2 != []
    requires SystemInstruction(Some(c1)) == SystemInstruction(Some(c2))
    ensures c1 == c2
  {
    assert ContextText(Some(c1)) == SystemInstruction(Some(c1))[|TutorPreamble|..];
  }

  /** app.py:171-179, once the model has answered or raised. */
  function CompleteChat(reply: Upstream): (resp: Response)
    ensures reply.Raised? ==> resp == ErrorResponse(500, reply.message)
    ensures reply.Replied? ==> resp.status == 200 && resp.body == JObject(map["reply" := JString(Strip(reply.text))])
    ensures resp.status == 200 || resp.status == 500
    ensures resp.status == 200 ==> HasKey(resp.body, "reply") && Trimmed(resp.body.members["reply"].s)
  {
    match reply
    case Raised(message) => ErrorResponse(500, message)
    case Replied(text) => Response(200, JObject(map["reply" := JString(Strip(text))]))
  }

  /**
   * `chat()`: `model` stands for the external model, given the system
   * instruction and the turns. An empty message is answered without calling it.
   */
  method HandleChat(request: ChatRequest, model: (string, seq<Turn>) -> Upstream) returns (resp: Response)
    ensures Strip(request.message) == [] ==> resp == ErrorResponse(400, NoMessage)
    ensures Strip(request.message) != [] ==>
              resp == CompleteChat(model(SystemInstruction(request.context),
                                         Conversation(request.history, Strip(request.message))))
  {
    var message := Strip(request.message);
    if message == [] {
      return ErrorResponse(400, NoMessage);
    }
    var system := SystemInstruction(request.context);
    var contents := AssembleTurns(request.history, message);
    resp := CompleteChat(model(system, contents));
  }
}
