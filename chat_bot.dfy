/**
 * BudgetBot, the floating chat assistant: a canned reply chosen by the first
 * topic the message mentions, or else a budgeting tip, and a conversation
 * that grows by a user message and a bot reply per send.
 */
module ChatBot {
  import opened Text
  import BotTexts

  /** The five topics, in the order the replies are tried. */
  datatype Topic = Saving | Budgeting | Debt | Emergency | Investing

  function Order(t: Topic): nat
  {
    match t
    case Saving => 0
    case Budgeting => 1
    case Debt => 2
    case Emergency => 3
    case Investing => 4
  }

  /** The two words that select a topic. */
  function Keywords(t: Topic): seq<string>
  {
    match t
    case Saving => ["save", "saving"]
    case Budgeting => ["budget", "allocation"]
    case Debt => ["debt", "loan"]
    case Emergency => ["emergency", "fund"]
    case Investing => ["invest", "investment"]
  }

  /** Which answer the bot gives: a topic's canned reply, or the tip at a random index. */
  datatype Answer = TopicAnswer(topic: Topic) | TipAnswer(tip: nat)

  /** The lower-cased message contains one of the topic's words. */
  predicate Mentions(lowerMessage: string, t: Topic)
  {
    Contains(lowerMessage, Keywords(t)[0]) || Contains(lowerMessage, Keywords(t)[1])
  }

  /** The branch `generateBotResponse` takes on a lower-cased message: the topics in order, then the tip. */
  function Respond(lowerMessage: string, tip: nat): Answer
  {
    if Mentions(lowerMessage, Saving) then TopicAnswer(Saving)
    else if Mentions(lowerMessage, Budgeting) then TopicAnswer(Budgeting)
    else if Mentions(lowerMessage, Debt) then TopicAnswer(Debt)
    else if Mentions(lowerMessage, Emergency) then TopicAnswer(Emergency)
    else if Mentions(lowerMessage, Investing) then TopicAnswer(Investing)
    else TipAnswer(tip)
  }

  /**
   * The answer is topic `t` exactly when the message mentions `t` and no topic
   * tried before it, and it is the tip exactly when the message mentions no
   * topic at all.
   */
  lemma RespondMeaning(lowerMessage: string, tip: nat)
    ensures forall t :: Respond(lowerMessage, tip) == TopicAnswer(t) <==>
      Mentions(lowerMessage, t) && forall u :: Order(u) < Order(t) ==> !Mentions(lowerMessage, u)
    ensures Respond(lowerMessage, tip) == TipAnswer(tip) <==> forall t :: !Mentions(lowerMessage, t)
  {
  }

  /** "investment" contains "invest", so the second investing word never decides anything. */
  lemma InvestmentMentionsInvest(s: string)
    ensures Contains(s, "investment") ==> Contains(s, "invest")
  {
    ContainsIsOccurrence(s, "investment");
    ContainsIsOccurrence(s, "invest");
    if j :| OccursAt(s, "investment", j) {
      assert s[j..j + 6] == s[j..j + 10][..6];
      assert OccursAt(s, "invest", j);
    }
  }

  /** A message with both "save" and "budget" gets the saving answer, which is tried first. */
  lemma SaveMyBudgetGetsSavingTips(tip: nat)
    ensures Respond(Lower("Save my budget"), tip) == TopicAnswer(Saving)
  {
    assert Lower("Save my budget") == "save my budget";
    assert Contains("save my budget", "save");
  }

  /** The text of an answer. */
  function AnswerText(a: Answer): string
    requires a.TipAnswer? ==> a.tip < |BotTexts.BudgetTips|
  {
    match a
    case TopicAnswer(t) => BotTexts.TopicReply(Order(t))
    case TipAnswer(k) => BotTexts.TipReply(k)
  }

  /**
   * `generateBotResponse`: lower-case the message, pick the answer and give its
   * text. `tip` stands for the random index into the tips.
   */
  function GenerateBotResponse(userMessage: string, tip: nat): string
    requires tip < |BotTexts.BudgetTips|
  {
    AnswerText(Respond(Lower(userMessage), tip))
  }

  /**
   * The reply text: the canned reply of the first topic the lower-cased
   * message mentions, and the tip sentence around tip `tip` when it mentions none.
   */
  lemma GenerateBotResponseMeaning(userMessage: string, tip: nat)
    requires tip < |BotTexts.BudgetTips|
    ensures forall t :: Mentions(Lower(userMessage), t) && (forall u :: Order(u) < Order(t) ==> !Mentions(Lower(userMessage), u)) ==>
      GenerateBotResponse(userMessage, tip) == BotTexts.TopicReply(Order(t))
    ensures (forall t :: !Mentions(Lower(userMessage), t)) ==> GenerateBotResponse(userMessage, tip) == BotTexts.TipReply(tip)
  {
    RespondMeaning(Lower(userMessage), tip);
  }

  /** Matching ignores case: the reply to a message is the reply to its lower-cased form. */
  lemma ResponseIgnoresCase(userMessage: string, tip: nat)
    requires tip < |BotTexts.BudgetTips|
    ensures GenerateBotResponse(Lower(userMessage), tip) == GenerateBotResponse(userMessage, tip)
  {
    LowerIsIdempotent(userMessage);
  }

  datatype Sender = User | Bot

  /** A chat message; its timestamp is not modelled. */
  datatype Message = Message(id: string, content: string, sender: Sender)

  /** The chat window's state: the conversation so far and the text in the input box. */
  class Conversation {
    var messages: seq<Message>
    var inputMessage: string

    /** The conversation opens with the bot's greeting alone and an empty input. */
    constructor ()
      ensures messages == [Message("1", BotTexts.Greeting, Bot)] && inputMessage == ""
    {
      messages := [Message("1", BotTexts.Greeting, Bot)];
      inputMessage := "";
    }

    method SetInputMessage(text: string)
      modifies this
      ensures inputMessage == text && messages == old(messages)
    {
      inputMessage := text;
    }

    /**
     * `sendMessage`: nothing happens when the input is blank; otherwise the
     * input goes out as a user message, the bot's reply to it follows, and the
     * input is cleared. `userId` and `botId` stand for the two clock readings,
     * `tip` for the random tip index.
     */
    method SendMessage(userId: string, botId: string, tip: nat)
      requires tip < |BotTexts.BudgetTips|
      modifies this
      ensures Trim(old(inputMessage)) == [] ==> messages == old(messages) && inputMessage == old(inputMessage)
      ensures Trim(old(inputMessage)) != [] ==>
        && messages == old(messages) + [Message(userId, old(inputMessage), User),
                                        Message(botId, GenerateBotResponse(old(inputMessage), tip), Bot)]
        && inputMessage == ""
    {
      if Trim(inputMessage) == [] {
        return;
      }
      var userMessage := Message(userId, inputMessage, User);
      var botResponse := Message(botId, GenerateBotResponse(inputMessage, tip), Bot);
      messages := messages + [userMessage, botResponse];
      inputMessage := "";
    }
  }

  /** A blank input, spaces and line breaks only, sends nothing. */
  lemma BlankInputIsIgnored(s: string)
    requires forall i :: 0 <= i < |s| ==> s[i] == ' ' || s[i] == '\n'
    ensures Trim(s) == []
  {
    TrimIsEmptyIffBlank(s);
  }
}
