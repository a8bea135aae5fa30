/**
 * The AI chat assistant panel: an append-only message log, the input box,
 * the "processing" flag, and the canned reply chosen by ordered keyword
 * tests on the lower-cased question.
 */
module ChatAssistant {
  import opened Common
  import opened Text

  datatype Role = UserRole | AssistantRole

  /** A chat message; its timestamp is not modelled. */
  datatype Message = Message(id: string, content: string, role: Role)

  const WelcomeMessage: Message := Message("welcome-message",
    "Hello! I'm your accounting assistant. How can I help you today with tax filing, bookkeeping, or client management?",
    AssistantRole)

  const ClearedMessage: Message := Message("welcome-message-new",
    "Chat cleared. How else can I assist you today?", AssistantRole)

  /** The quick-prompt suggestions, each written as its opening word
      followed by the rest of the sentence. */
  const PredefinedPrompts: seq<string> := [
    "Help " + "me categorize these tax documents",
    "Explain " + "the difference between Schedule C and Schedule E",
    "What's " + "the deadline for filing 1099 forms?",
    "How " + "can I optimize tax deductions for my client?",
    "Generate " + "a monthly financial report template"
  ]

  /** Which canned answer a question gets. */
  datatype Topic = TaxDeadline | Integration | Categorize | Report | Unrecognised

  /** The reply chain's tests, in order, on the lower-cased question. */
  function Classify(lower: string): (t: Topic)
    ensures t == TaxDeadline ==> Contains(lower, "tax") && Contains(lower, "deadline")
    ensures t == Integration ==> Contains(lower, "quickbooks") || Contains(lower, "integration")
    ensures t == Categorize ==> Contains(lower, "categorize") || Contains(lower, "organize")
    ensures t == Report ==> Contains(lower, "report") || Contains(lower, "financial statement")
  {
    if Contains(lower, "tax") && Contains(lower, "deadline") then TaxDeadline
    else if Contains(lower, "quickbooks") || Contains(lower, "integration") then Integration
    else if Contains(lower, "categorize") || Contains(lower, "organize") then Categorize
    else if Contains(lower, "report") || Contains(lower, "financial statement") then Report
    else Unrecognised
  }

  /** A question naming both "tax" and "deadline" gets the deadline answer,
      whatever other keywords it holds. */
  lemma TaxDeadlineTakesPriority(lower: string)
    requires Contains(lower, "tax") && Contains(lower, "deadline")
    ensures Classify(lower) == TaxDeadline
  {
  }

  /** Each later test only sees questions that failed every earlier one. */
  lemma EarlierTestsWin(lower: string)
    ensures Classify(lower) == Categorize ==>
      !Contains(lower, "quickbooks") && !Contains(lower, "integration")
    ensures Classify(lower) == Report ==>
      !Contains(lower, "quickbooks") && !Contains(lower, "integration") &&
      !Contains(lower, "categorize") && !Contains(lower, "organize")
    ensures Classify(lower) != TaxDeadline ==> !(Contains(lower, "tax") && Contains(lower, "deadline"))
  {
  }

  /** The fallback is reached exactly when no test matches. */
  lemma UnrecognisedIff(lower: string)
    ensures Classify(lower) == Unrecognised <==>
      !(Contains(lower, "tax") && Contains(lower, "deadline")) &&
      !Contains(lower, "quickbooks") && !Contains(lower, "integration") &&
      !Contains(lower, "categorize") && !Contains(lower, "organize") &&
      !Contains(lower, "report") && !Contains(lower, "financial statement")
  {
  }

  const TaxDeadlineReply: string :=
    "For most individual tax returns, the deadline is April 15th. However, if this falls on a weekend or holiday, it may be extended to the next business day. For businesses, deadlines vary based on the business structure and fiscal year."
  const IntegrationReply: string :=
    "Our system integrates seamlessly with QuickBooks. You can synchronize client data, financial records, and tax documents through the Integrations panel. Would you like me to guide you through the setup process?"
  const CategorizeReply: string :=
    "To categorize documents, I recommend using our file tagging system. You can bulk select files and apply tags like 'Tax Return', 'Receipt', or 'Financial Statement'. This will make them easier to search and filter later."
  const ReportReply: string :=
    "I can help generate financial reports. We have templates for balance sheets, income statements, cash flow statements, and tax summaries. Would you like me to prepare a specific type of report?"
  const FallbackPrefix: string := "I understand you're asking about \""
  const FallbackSuffix: string :=
    "\". To provide you with the most accurate information, could you provide more details about your specific accounting or tax question?"

  /** The assistant's answer to `question`: the topic is read from the
      lower-cased text, but the fallback quotes the question as typed. */
  function Reply(question: string): (r: string)
    ensures Classify(ToLower(question)) == TaxDeadline ==> r == TaxDeadlineReply
    ensures Classify(ToLower(question)) == Integration ==> r == IntegrationReply
    ensures Classify(ToLower(question)) == Categorize ==> r == CategorizeReply
    ensures Classify(ToLower(question)) == Report ==> r == ReportReply
    ensures Classify(ToLower(question)) == Unrecognised ==>
      r == FallbackPrefix + question + FallbackSuffix && Contains(r, question)
  {
    match Classify(ToLower(question))
    case TaxDeadline => TaxDeadlineReply
    case Integration => IntegrationReply
    case Categorize => CategorizeReply
    case Report => ReportReply
    case Unrecognised =>
      ContainsMiddle(FallbackPrefix, question, FallbackSuffix);
      FallbackPrefix + question + FallbackSuffix
  }

  lemma LowerQuickBooks()
    ensures ToLower("QuickBooks") == "quickbooks"
  {
    var l := ToLower("QuickBooks");
    assert |l| == 10;
    forall i | 0 <= i < 10
      ensures l[i] == "quickbooks"[i]
    {
      assert l[i] == LowerChar("QuickBooks"[i]);
    }
  }

  /** Capitalisation does not hide a keyword: a question mentioning
      "QuickBooks" gets the integration answer unless it asks about a tax
      deadline. */
  lemma QuickBooksMentionIsIntegration(before: string, after: string)
    requires var lower := ToLower(before + "QuickBooks" + after);
      !(Contains(lower, "tax") && Contains(lower, "deadline"))
    ensures Reply(before + "QuickBooks" + after) == IntegrationReply
  {
    var lower := ToLower(before + "QuickBooks" + after);
    assert lower == ToLower(before) + "quickbooks" + ToLower(after) by {
      ToLowerAppend(before + "QuickBooks", after);
      ToLowerAppend(before, "QuickBooks");
      LowerQuickBooks();
    }
    ContainsMiddle(ToLower(before), "quickbooks", ToLower(after));
    assert Classify(lower) == Integration;
  }

  /** A prompt that starts with a capital letter is not blank. */
  lemma CapitalisedIsSendable(p: string)
    requires p != [] && 'A' <= p[0] <= 'Z'
    ensures Trim(p) != []
  {
    assert !IsWhitespace(p[0]);
    TrimEmptyIffBlank(p);
  }

  /** Every suggested prompt has a non-blank text, so sending it is never
      ignored. */
  lemma PredefinedPromptsAreSendable()
    ensures forall p :: p in PredefinedPrompts ==> Trim(p) != []
  {
    var ps := PredefinedPrompts;
    assert ps[0][0] == 'H';
    assert ps[1][0] == 'E';
    assert ps[2][0] == 'W';
    assert ps[3][0] == 'H';
    assert ps[4][0] == 'G';
    forall i | 0 <= i < |ps|
      ensures Trim(ps[i]) != []
    {
      CapitalisedIsSendable(ps[i]);
    }
  }

  class ChatPanel {
    var messages: seq<Message>
    var input: string
    var isProcessing: bool

    constructor ()
      ensures messages == [WelcomeMessage] && input == "" && !isProcessing
    {
      messages := [WelcomeMessage];
      input := "";
      isProcessing := false;
    }

    /** Typing in the input box. */
    method SetInput(text: string)
      modifies this
      ensures input == text && messages == old(messages) && isProcessing == old(isProcessing)
    {
      input := text;
    }

    /** `handleQuickPrompt`: a suggestion is copied into the input, not sent. */
    method HandleQuickPrompt(prompt: string)
      modifies this
      ensures input == prompt && messages == old(messages) && isProcessing == old(isProcessing)
    {
      input := prompt;
    }

    /** The synchronous half of `handleSendMessage`: a blank input is
        ignored; otherwise the question is logged, the box cleared and the
        panel marked busy. The question is returned for the second half. */
    method BeginSend(userId: string) returns (question: Option<string>)
      modifies this
      ensures Trim(old(input)) == [] ==>
        question == None && messages == old(messages) && input == old(input) &&
        isProcessing == old(isProcessing)
      ensures Trim(old(input)) != [] ==>
        question == Some(old(input)) &&
        messages == old(messages) + [Message(userId, old(input), UserRole)] &&
        input == "" && isProcessing
    {
      if Trim(input) == [] {
        return None;
      }
      question := Some(input);
      messages := messages + [Message(userId, input, UserRole)];
      input := "";
      isProcessing := true;
    }

    /** The half after the simulated delay: append the reply, then clear
        the busy flag. */
    method FinishSend(question: string, assistantId: string)
      modifies this
      ensures messages == old(messages) + [Message(assistantId, Reply(question), AssistantRole)]
      ensures input == old(input) && !isProcessing
    {
      messages := messages + [Message(assistantId, Reply(question), AssistantRole)];
      isProcessing := false;
    }

    /** `handleSendMessage` run to completion: a non-blank question adds
        exactly two messages, the question and its reply, after the
        untouched earlier ones. */
    method HandleSendMessage(userId: string, assistantId: string) returns (sent: bool)
      modifies this
      ensures sent <==> Trim(old(input)) != []
      ensures !sent ==> messages == old(messages) && input == old(input) && isProcessing == old(isProcessing)
      ensures sent ==>
        messages == old(messages) + [Message(userId, old(input), UserRole),
                                     Message(assistantId, Reply(old(input)), AssistantRole)] &&
        input == "" && !isProcessing
    {
      var question := BeginSend(userId);
      sent := question.Some?;
      if sent {
        FinishSend(question.value, assistantId);
      }
    }

    /** `clearChat`: the log is replaced by a single assistant greeting. */
    method ClearChat()
      modifies this
      ensures messages == [ClearedMessage]
      ensures input == old(input) && isProcessing == old(isProcessing)
    {
      messages := [ClearedMessage];
    }
  }

  /** A fresh panel asked one question: a blank one leaves only the
      greeting; any other is logged verbatim and answered. */
  method AskOnce(question: string) returns (log: seq<Message>, busy: bool)
    ensures Trim(question) == [] ==> log == [WelcomeMessage]
    ensures Trim(question) != [] ==>
      |log| == 3 && log[0] == WelcomeMessage &&
      log[1].content == question && log[1].role == UserRole &&
      log[2].content == Reply(question) && log[2].role == AssistantRole
    ensures !busy
  {
    var panel := new ChatPanel();
    panel.SetInput(question);
    var _ := panel.HandleSendMessage("u1", "a1");
    log := panel.messages;
    busy := panel.isProcessing;
  }

  /** Two questions then "clear": only the cleared greeting remains. */
  method AskTwiceThenClear(first: string, second: string) returns (before: nat, after: seq<Message>)
    requires Trim(first) != [] && Trim(second) != []
    ensures before == 5
    ensures after == [ClearedMessage]
  {
    var panel := new ChatPanel();
    panel.SetInput(first);
    var _ := panel.HandleSendMessage("u1", "a1");
    panel.SetInput(second);
    var _ := panel.HandleSendMessage("u2", "a2");
    before := |panel.messages|;
    panel.ClearChat();
    after := panel.messages;
  }
}
