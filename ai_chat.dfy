/**
 * The chat widget (src/components/AIChat.tsx): a canned assistant that
 * answers each sent message, after a delay, with a reply chosen by keywords.
 * The delay is modelled as a queue of sent texts still waiting for their reply.
 */
module AIChat {
  import opened Text

  /** The five canned replies, named by what they are about. */
  datatype Topic = Airport | BahirDar | Budget | Luxury | General

  /** `generateAIResponse`: the first keyword group found in the lower-cased text picks the reply. */
  function GenerateReply(userInput: string): Topic
  {
    var s := Lower(userInput);
    if Contains(s, "bole") || Contains(s, "airport") then Airport
    else if Contains(s, "bahir dar") then BahirDar
    else if Contains(s, "budget") || Contains(s, "cheap") || Contains(s, "under") then Budget
    else if Contains(s, "luxury") || Contains(s, "5 star") then Luxury
    else General
  }

  /**
   * The keyword groups are tried in order, airport, Bahir Dar, budget, luxury:
   * each reply comes exactly when its group is mentioned and no earlier group
   * is, and the general reply exactly when no keyword of any group is.
   */
  lemma ReplyTopics(userInput: string)
    ensures var s := Lower(userInput);
            var t := GenerateReply(userInput);
            var airport := Contains(s, "bole") || Contains(s, "airport");
            var bahirDar := Contains(s, "bahir dar");
            var budget := Contains(s, "budget") || Contains(s, "cheap") || Contains(s, "under");
            var luxury := Contains(s, "luxury") || Contains(s, "5 star");
            (t == Airport <==> airport) &&
            (t == BahirDar <==> !airport && bahirDar) &&
            (t == Budget <==> !airport && !bahirDar && budget) &&
            (t == Luxury <==> !airport && !bahirDar && !budget && luxury) &&
            (t == General <==> !airport && !bahirDar && !budget && !luxury)
  {
  }

  /** The reply ignores letter case. */
  lemma ReplyIgnoresCase(userInput: string)
    ensures GenerateReply(Lower(userInput)) == GenerateReply(userInput)
  {
    LowerIdempotent(userInput);
  }

  /** Any text typed after a text that mentions the airport still gets the airport reply. */
  lemma AirportWins(a: string, b: string)
    requires GenerateReply(a) == Airport
    ensures GenerateReply(a + b) == Airport
  {
    LowerAppend(a, b);
    if Contains(Lower(a), "bole") {
      ContainsAppend(Lower(a), Lower(b), "bole");
    } else {
      ContainsAppend(Lower(a), Lower(b), "airport");
    }
  }

  datatype Message = UserMessage(id: string, text: string) | BotGreeting | BotReply(id: string, topic: Topic)

  function UserCount(ms: seq<Message>): nat {
    if ms == [] then 0 else UserCount(ms[..|ms| - 1]) + (if ms[|ms| - 1].UserMessage? then 1 else 0)
  }

  function ReplyCount(ms: seq<Message>): nat {
    if ms == [] then 0 else ReplyCount(ms[..|ms| - 1]) + (if ms[|ms| - 1].BotReply? then 1 else 0)
  }

  lemma CountsAppend(ms: seq<Message>, m: Message)
    ensures UserCount(ms + [m]) == UserCount(ms) + (if m.UserMessage? then 1 else 0)
    ensures ReplyCount(ms + [m]) == ReplyCount(ms) + (if m.BotReply? then 1 else 0)
  {
    assert (ms + [m])[..|ms|] == ms;
  }

  class ChatWidget {
    var isOpen: bool
    var messages: seq<Message>
    var inputValue: string
    var isTyping: bool
    /** Sent texts whose reply timer has not fired yet, oldest first. */
    var pending: seq<string>

    /**
     * The greeting stays first; every sent message is answered or waiting; the
     * typing indicator is on only while an answer is due.
     */
    ghost predicate Valid()
      reads this`messages, this`pending, this`isTyping
    {
      |messages| >= 1 && messages[0] == BotGreeting &&
      UserCount(messages) == ReplyCount(messages) + |pending| &&
      (isTyping ==> |pending| > 0)
    }

    constructor ()
      ensures Valid() && !isOpen && messages == [BotGreeting] && inputValue == "" && !isTyping && pending == []
    {
      isOpen := false;
      messages := [BotGreeting];
      inputValue := "";
      isTyping := false;
      pending := [];
      assert [BotGreeting][..0] == [];
    }

    method SetOpen(open: bool)
      modifies this`isOpen
      ensures isOpen == open
    {
      isOpen := open;
    }

    method EditInput(text: string)
      modifies this`inputValue
      ensures inputValue == text
    {
      inputValue := text;
    }

    /**
     * `handleSendMessage`: a blank input is ignored; otherwise the text as typed
     * (untrimmed) is appended, the input cleared, the typing indicator shown and
     * the reply scheduled. `nowMs` is the clock, whose text is the message id.
     */
    method SendMessage(nowMs: nat)
      requires Valid()
      modifies this`messages, this`inputValue, this`isTyping, this`pending
      ensures Valid()
      ensures Trim(old(inputValue)) == "" ==>
                messages == old(messages) && inputValue == old(inputValue) &&
                isTyping == old(isTyping) && pending == old(pending)
      ensures Trim(old(inputValue)) != "" ==>
                messages == old(messages) + [UserMessage(IntToString(nowMs), old(inputValue))] &&
                inputValue == "" && isTyping && pending == old(pending) + [old(inputValue)]
    {
      if Trim(inputValue) == "" {
        return;
      }
      var m := UserMessage(IntToString(nowMs), inputValue);
      CountsAppend(messages, m);
      assert (messages + [m])[0] == messages[0];
      messages := messages + [m];
      pending := pending + [inputValue];
      inputValue := "";
      isTyping := true;
    }

    /** The reply timer of the oldest waiting message fires: its reply is appended and the indicator hidden. */
    method ReplyArrives(nowMs: nat)
      requires Valid() && pending != []
      modifies this`messages, this`isTyping, this`pending
      ensures Valid()
      ensures messages == old(messages) + [BotReply(IntToString(nowMs + 1), GenerateReply(old(pending)[0]))]
      ensures pending == old(pending)[1..] && !isTyping
    {
      var m := BotReply(IntToString(nowMs + 1), GenerateReply(pending[0]));
      CountsAppend(messages, m);
      assert (messages + [m])[0] == messages[0];
      messages := messages + [m];
      pending := pending[1..];
      isTyping := false;
    }
  }

  /** A text that mentions Bole, in any letter case, gets the airport reply. */
  lemma BoleGetsAirportReply(question: string)
    requires Contains(Lower(question), "bole")
    ensures GenerateReply(question) == Airport
  {
  }

  /**
   * A question is shown at once and answered, when its timer fires, with the
   * reply its keywords pick.
   */
  method AskAndAnswer(question: string, t0: nat, t1: nat) returns (conversation: seq<Message>)
    requires Trim(question) != ""
    ensures conversation == [BotGreeting, UserMessage(IntToString(t0), question),
                             BotReply(IntToString(t1 + 1), GenerateReply(question))]
  {
    var chat := new ChatWidget();
    chat.EditInput(question);
    chat.SendMessage(t0);
    assert chat.pending == [question];
    var m1 := UserMessage(IntToString(t0), question);
    assert chat.messages == [BotGreeting, m1];
    chat.ReplyArrives(t1);
    var m2 := BotReply(IntToString(t1 + 1), GenerateReply(question));
    assert chat.messages == [BotGreeting, m1] + [m2];
    conversation := chat.messages;
  }

  /** A question that mentions Bole gets the airport reply. */
  method AskAboutBole(question: string, t0: nat, t1: nat) returns (conversation: seq<Message>)
    requires Trim(question) != "" && Contains(Lower(question), "bole")
    ensures conversation == [BotGreeting, UserMessage(IntToString(t0), question), BotReply(IntToString(t1 + 1), Airport)]
  {
    conversation := AskAndAnswer(question, t0, t1);
    BoleGetsAirportReply(question);
  }
}
