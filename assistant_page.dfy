/** The AI assistant page of components/ai-assistant-page.tsx: the chat transcript, the send
    handler that posts the history to the chat route, and the offline keyword responder. */
module AssistantPage {
  import opened Wrappers
  import opened Folds
  import opened Text
  import ChatRoute

  datatype Sender = User | Assistant

  /** A transcript entry; ids and timestamps come from the clock and are parameters here. */
  datatype Message = Message(id: string, sender: Sender, content: string, timestamp: int)

  /** One entry of the history posted to the chat route. */
  datatype HistoryEntry = HistoryEntry(role: string, content: string)

  const GreetingText: string := "Hello! I'm your AI tax advisor. I can help you with tax planning, expense optimization, deduction strategies, and answer questions about your financial data. How can I assist you today?"

  const SystemPrompt: string := "You are a helpful tax assistant for Indian SMBs. Keep answers concise and actionable."

  const EmptyReplyText: string := "Sorry, I couldn't generate a response."
  const ServiceErrorText: string := "There was an error contacting the AI service. Please try again."

  const QuickQuestions: seq<string> := [
    "What expenses can I deduct?",
    "How to optimize my tax savings?",
    "Explain my CSV analysis results",
    "Best practices for expense tracking",
    "Tax planning strategies for next year"
  ]

  function HistoryEntryOf(m: Message): HistoryEntry
  {
    HistoryEntry(if m.sender == Assistant then "assistant" else "user", m.content)
  }

  /** The posted history: one entry per message, in transcript order. */
  function History(ms: seq<Message>): (h: seq<HistoryEntry>)
    ensures |h| == |ms|
    ensures forall i :: 0 <= i < |ms| ==> h[i].content == ms[i].content
    ensures forall i :: 0 <= i < |ms| ==> (h[i].role == "assistant" <==> ms[i].sender == Assistant)
    ensures forall i :: 0 <= i < |ms| ==> (h[i].role == "user" <==> ms[i].sender == User)
  {
    Map(ms, HistoryEntryOf)
  }

  /** How the request to the chat route ended: a parsed response whose `reply` may be
      missing (modelled as ""), or a thrown error (the network failed or the body was not JSON).
      `fetch` does not throw on an HTTP error status, so the route's error responses arrive
      as a parsed body without `reply`. */
  datatype Outcome = Replied(reply: string) | Failed

  /** The outcome the page sees for a response of the chat route: `data.reply`, which is
      missing in the route's `{ error }` bodies. */
  function OutcomeOf(r: ChatRoute.Response): (o: Outcome)
    ensures o.Replied?
    ensures r.Reply? ==> o.reply == r.reply
    ensures r.Error? ==> o.reply == ""
  {
    match r
    case Reply(text) => Replied(text)
    case Error(_, _) => Replied("")
  }

  /** A route error, a missing API key included, shows the empty-reply fallback, never the
      service-error text. */
  lemma RouteErrorShowsFallback(r: ChatRoute.Response)
    requires r.Error?
    ensures ReplyText(OutcomeOf(r)) == EmptyReplyText
    ensures ReplyText(OutcomeOf(r)) != ServiceErrorText
  {
  }

  /** The content of the assistant message appended for an outcome. */
  function ReplyText(o: Outcome): (t: string)
    ensures t != ""
    ensures o.Replied? && o.reply != "" ==> t == o.reply
    ensures o.Replied? && o.reply == "" ==> t == EmptyReplyText
    ensures o.Failed? ==> t == ServiceErrorText
  {
    match o
    case Replied(r) => if r != "" then r else EmptyReplyText
    case Failed => ServiceErrorText
  }

  // ---------------------------------------------------------------------------
  // The offline keyword responder
  // ---------------------------------------------------------------------------

  const DeductionReply: string := "Based on your business activities, you can typically deduct:\n\n• Office supplies and equipment\n• Business meals (50% deductible)\n• Travel expenses for business purposes\n• Software subscriptions and tools\n• Professional services and consulting\n• Marketing and advertising costs\n\nFrom your recent CSV analysis, I noticed you have ₹24,250 in deductible expenses. Would you like me to explain any specific category?"
  const SavingsReply: string := "Here are key strategies to optimize your tax savings:\n\n1. **Maximize Business Deductions**: Ensure all legitimate business expenses are properly categorized\n2. **Timing Strategy**: Consider timing large purchases at year-end\n3. **Record Keeping**: Maintain detailed receipts and documentation\n4. **Professional Consultation**: Consider quarterly tax planning sessions\n\nYour current analysis shows potential savings of ₹9,000 monthly. We can potentially increase this by 15-20% with better categorization."
  const AnalysisReply: string := "Your CSV analysis revealed some great insights:\n\n• Total monthly expenses: ₹30,250\n• Tax-deductible expenses: ₹24,250 (80.2%)\n• Potential tax savings: ₹9,000\n• Profit improvement: ₹9,000 with proper deductions\n\nThe AI classified your expenses with 92% average confidence. Would you like me to explain any specific transactions or suggest improvements?"
  const TrackingReply: string := "Best practices for expense tracking:\n\n1. **Digital Receipts**: Use apps to scan and store receipts immediately\n2. **Categorization**: Assign categories as soon as expenses occur\n3. **Monthly Reviews**: Review and reconcile expenses monthly\n4. **Separate Accounts**: Keep business and personal expenses separate\n5. **Documentation**: Include business purpose for each expense\n\nOur CSV analyzer can help automate much of this process. Would you like tips on preparing your data for analysis?"
  const DefaultReply: string := "I'd be happy to help you with that! As your AI tax advisor, I can assist with:\n\n• Tax deduction strategies\n• Expense optimization\n• Financial planning advice\n• Analysis of your spending patterns\n• Compliance guidance\n\nCould you provide more specific details about what you'd like to know? I'm here to help you maximize your tax efficiency and financial success."

  predicate AsksDeduction(lower: string) { Contains(lower, "deduct") || Contains(lower, "expense") }
  predicate AsksSavings(lower: string) { Contains(lower, "optimize") || Contains(lower, "savings") }
  predicate AsksAnalysis(lower: string) { Contains(lower, "csv") || Contains(lower, "analysis") }
  predicate AsksTracking(lower: string) { Contains(lower, "track") || Contains(lower, "record") }

  /** `generateAIResponse`: the first rule whose keywords occur in the lower-cased question wins. */
  function GenerateAIResponse(question: string): (r: string)
    ensures var q := ToLower(question);
      && (r == DeductionReply <==> AsksDeduction(q))
      && (r == SavingsReply <==> !AsksDeduction(q) && AsksSavings(q))
      && (r == AnalysisReply <==> !AsksDeduction(q) && !AsksSavings(q) && AsksAnalysis(q))
      && (r == TrackingReply <==> !AsksDeduction(q) && !AsksSavings(q) && !AsksAnalysis(q) && AsksTracking(q))
      && (r == DefaultReply <==> !AsksDeduction(q) && !AsksSavings(q) && !AsksAnalysis(q) && !AsksTracking(q))
  {
    var q := ToLower(question);
    if AsksDeduction(q) then DeductionReply
    else if AsksSavings(q) then SavingsReply
    else if AsksAnalysis(q) then AnalysisReply
    else if AsksTracking(q) then TrackingReply
    else DefaultReply
  }

  /** The responder ignores letter case. */
  lemma ResponseIgnoresCase(question: string)
    ensures GenerateAIResponse(ToLower(question)) == GenerateAIResponse(question)
  {
    ToLowerIdempotent(question);
  }

  /** A question mentioning both an expense and savings gets the deduction reply. */
  lemma ExpenseBeatsSavings(question: string)
    requires Contains(ToLower(question), "expense") && Contains(ToLower(question), "savings")
    ensures GenerateAIResponse(question) == DeductionReply
  {
  }

  /** The first quick question gets the deduction reply. */
  lemma DeductionQuestionReply()
    ensures GenerateAIResponse(QuickQuestions[0]) == DeductionReply
  {
    var w := QuickQuestions[0];
    assert w == "What expenses can I deduct?";
    var q := ToLower(w);
    assert w[5] == 'e' && w[6] == 'x' && w[7] == 'p' && w[8] == 'e' && w[9] == 'n' && w[10] == 's' && w[11] == 'e';
    assert q[5..12] == "expense";
    assert OccursAt(q, "expense", 5);
  }

  /** The tracking quick question also gets the deduction reply: its "expense" shadows the tracking rule. */
  lemma TrackingQuestionReply()
    ensures GenerateAIResponse(QuickQuestions[3]) == DeductionReply
  {
    var q := ToLower(QuickQuestions[3]);
    assert q[19..26] == "expense";
    assert OccursAt(q, "expense", 19);
  }

  class Assistant {
    var messages: seq<Message>
    var inputMessage: string
    var isTyping: bool

    /** The page opens with the assistant's greeting and an empty input. */
    constructor (now: int)
      ensures messages == [Message("1", Assistant, GreetingText, now)]
      ensures inputMessage == "" && !isTyping
    {
      messages := [Message("1", Assistant, GreetingText, now)];
      inputMessage := "";
      isTyping := false;
    }

    /** `handleSendMessage` up to the request: a blank input does nothing; otherwise the user
        message is appended, the input cleared, and the history posted together with the
        system prompt is returned. */
    method Send(id: string, now: int) returns (posted: Option<seq<HistoryEntry>>)
      modifies this
      ensures IsBlank(old(inputMessage)) ==>
        posted == None && messages == old(messages) && inputMessage == old(inputMessage) && isTyping == old(isTyping)
      ensures !IsBlank(old(inputMessage)) ==> (
        && messages == old(messages) + [Message(id, User, old(inputMessage), now)]
        && inputMessage == "" && isTyping
        && posted == Some(History(messages)))
    {
      if IsBlank(inputMessage) {
        return None;
      }
      var userMessage := Message(id, User, inputMessage, now);
      messages := messages + [userMessage];
      inputMessage := "";
      isTyping := true;
      posted := Some(History(messages));
    }

    /** The end of `handleSendMessage`: exactly one assistant message is appended and typing stops. */
    method Receive(o: Outcome, id: string, now: int)
      modifies this
      ensures messages == old(messages) + [Message(id, Assistant, ReplyText(o), now)]
      ensures inputMessage == old(inputMessage) && !isTyping
    {
      messages := messages + [Message(id, Assistant, ReplyText(o), now)];
      isTyping := false;
    }

    /** `handleQuickQuestion`: the question is put into the input, not sent. */
    method QuickQuestion(question: string)
      modifies this
      ensures inputMessage == question && messages == old(messages) && isTyping == old(isTyping)
    {
      inputMessage := question;
    }
  }
}
