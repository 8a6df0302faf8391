/**
 * The assistant page's session: the message log, the input box and the
 * typing indicator, and the send handler split into its two steps (the
 * user's message now, the bot's reply once the delay has passed).
 */
module Chat {
  import opened Wrappers
  import opened Strings
  import opened Responder

  datatype Sender = User | Bot

  /** One entry of the chat log; its creation time is not modelled. */
  datatype Message = Message(id: nat, sender: Sender, content: string)

  /**
   * What the delayed reply captures when a send starts: the length of the log
   * at that moment and the text that was sent.
   */
  datatype PendingReply = PendingReply(baseLength: nat, text: string)

  const Greeting: string :=
    "Hello! \U{1F44B} I\'m your AI Financial Assistant. \n" +
    "\n" +
    "I can help you:\n" +
    "\U{2022} \U{1F4CA} Analyze your spending patterns\n" +
    "\U{2022} \U{1F4B0} Find ways to save money\n" +
    "\U{2022} \U{1F4CB} Review your expenses\n" +
    "\U{2022} \U{1F3AF} Create budget plans\n" +
    "\n" +
    "What would you like to know about your finances today?"

  /** `text || input`: an explicit, non-empty text wins over the input box. */
  function ChosenText(text: Option<string>, input: string): string {
    if text.Some? && text.value != [] then text.value else input
  }

  /** Entry `i` of the log carries the id `i + 1`. */
  predicate IdsSequential(log: seq<Message>) {
    forall i :: 0 <= i < |log| ==> log[i].id == i + 1
  }

  /**
   * Which text a send takes: a non-empty explicit text is taken as given, even
   * one of white space only (which the send then ignores as blank); without an
   * explicit text, or with an empty one, the input box decides.
   */
  lemma ChosenTextCases(text: Option<string>, input: string)
    ensures text.Some? && text.value != [] ==> ChosenText(text, input) == text.value
    ensures text.Some? && !AllWhiteSpace(text.value) ==> ChosenText(text, input) == text.value
    ensures text.Some? && text.value != [] ==> (AllWhiteSpace(ChosenText(text, input)) <==> AllWhiteSpace(text.value))
    ensures (text.None? || text.value == []) ==> ChosenText(text, input) == input
  {
  }

  /**
   * A quick prompt is never blank, so clicking one posts that prompt, whatever
   * the input box holds.
   */
  lemma QuickPromptsNotBlank(i: nat, input: string)
    requires i < |QuickPrompts|
    ensures ChosenText(Some(QuickPrompts[i]), input) == QuickPrompts[i]
    ensures !AllWhiteSpace(QuickPrompts[i])
    ensures Trim(QuickPrompts[i]) != []
  {
    var p := QuickPrompts[i];
    assert 'A' <= p[0] <= 'Z';
    TrimNonBlankStart(p);
    TrimEmptyIff(p);
  }

  /** Appending the message with the next id keeps the ids sequential. */
  lemma AppendKeepsIds(log: seq<Message>, m: Message)
    ensures IdsSequential(log) && m.id == |log| + 1 ==> IdsSequential(log + [m])
  {
    if IdsSequential(log) && m.id == |log| + 1 {
      assert forall i :: 0 <= i < |log| ==> (log + [m])[i] == log[i];
    }
  }

  class Session {
    var messages: seq<Message>
    var input: string
    var isTyping: bool

    /** The page's initial state: the greeting alone, an empty input box, no typing indicator. */
    constructor ()
      ensures messages == [Message(1, Bot, Greeting)] && input == [] && !isTyping
      ensures IdsSequential(messages)
    {
      messages := [Message(1, Bot, Greeting)];
      input := [];
      isTyping := false;
    }

    /** The input box's change handler. */
    method SetInput(value: string)
      modifies this
      ensures input == value
      ensures messages == old(messages) && isTyping == old(isTyping)
    {
      input := value;
    }

    /**
     * The first half of `handleSend`: a blank text changes nothing; otherwise the
     * user's message is appended with the next id, the input box is cleared and
     * the typing indicator is raised. The result is what the delayed reply needs.
     */
    method Send(text: Option<string>) returns (pending: Option<PendingReply>)
      modifies this
      ensures AllWhiteSpace(ChosenText(text, old(input))) ==>
        && pending == None
        && messages == old(messages) && input == old(input) && isTyping == old(isTyping)
      ensures !AllWhiteSpace(ChosenText(text, old(input))) ==>
        && pending == Some(PendingReply(|old(messages)|, ChosenText(text, old(input))))
        && messages == old(messages) + [Message(|old(messages)| + 1, User, ChosenText(text, old(input)))]
        && input == [] && isTyping
      ensures old(IdsSequential(messages)) ==> IdsSequential(messages)
    {
      var messageText := ChosenText(text, input);
      TrimEmptyIff(messageText);
      if Trim(messageText) == [] {
        return None;
      }
      pending := Some(PendingReply(|messages|, messageText));
      AppendKeepsIds(messages, Message(|messages| + 1, User, messageText));
      messages := messages + [Message(|messages| + 1, User, messageText)];
      input := [];
      isTyping := true;
    }

    /**
     * The second half of `handleSend`, run when the delay has passed: the bot's
     * reply to the captured text is appended with the captured length plus two,
     * and the typing indicator is lowered. The ids stay sequential only when
     * nothing was appended in between.
     */
    method DeliverReply(p: PendingReply)
      modifies this
      ensures messages == old(messages) + [Message(p.baseLength + 2, Bot, BotResponse(p.text))]
      ensures input == old(input) && !isTyping
      ensures old(IdsSequential(messages)) && |old(messages)| == p.baseLength + 1 ==> IdsSequential(messages)
    {
      var reply := GetBotResponse(BotResponses, p.text);
      AppendKeepsIds(messages, Message(p.baseLength + 2, Bot, reply));
      messages := messages + [Message(p.baseLength + 2, Bot, reply)];
      isTyping := false;
    }

    /**
     * `handleSend` with the delay run to completion before anything else
     * happens: either nothing changes, or exactly the user's message and the
     * bot's reply to it are appended, with the next two ids.
     */
    method HandleSend(text: Option<string>) returns (sent: bool)
      modifies this
      ensures sent == !AllWhiteSpace(ChosenText(text, old(input)))
      ensures !sent ==> messages == old(messages) && input == old(input) && isTyping == old(isTyping)
      ensures sent ==> messages == old(messages) + [
                Message(|old(messages)| + 1, User, ChosenText(text, old(input))),
                Message(|old(messages)| + 2, Bot, BotResponse(ChosenText(text, old(input))))]
      ensures sent ==> input == [] && !isTyping
    {
      var pending := Send(text);
      sent := pending.Some?;
      if sent {
        DeliverReply(pending.value);
      }
    }
  }
}
