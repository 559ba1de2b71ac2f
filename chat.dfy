/** The support chatbot: an append-only message log, the input box and the loading flag. */
module Chat {
  import opened Common

  const Greeting := "Hello! I'm Gracey, your Grace Mobility assistant. How can I help?"
  const FallbackReply := "I'm still learning! Try asking about services, contact info, or hours."
  const OfflineReply := "Sorry \U{2014} I'm offline right now. Try again in a moment!"

  datatype Sender = FromUser | FromBot
  datatype ChatMessage = ChatMessage(text: string, sender: Sender)

  /** The answer to `POST /chat`: a JSON body whose `reply` may be missing, or a
      failure of the request or of reading its body. */
  datatype ChatReply = Replied(reply: Option<string>) | Offline

  datatype ChatState = ChatState(messages: seq<ChatMessage>, input: string, isLoading: bool)

  /** The widget's first state: one bot greeting, an empty input, not loading. */
  function Initial(): (s: ChatState)
    ensures |s.messages| == 1 && s.messages[0].sender == FromBot
    ensures s.input == "" && !s.isLoading
  {
    ChatState([ChatMessage(Greeting, FromBot)], "", false)
  }

  // ---------------------------------------------------------------------------
  // String.prototype.trim
  // ---------------------------------------------------------------------------

  /** The characters JavaScript's `trim` removes: white space and line terminators. */
  predicate IsJsWhitespace(c: char) {
    c == '\t' || c == '\n' || c == '\U{000B}' || c == '\U{000C}' || c == '\r' || c == ' ' ||
    c == '\U{00A0}' || c == '\U{1680}' || ('\U{2000}' <= c <= '\U{200A}') ||
    c == '\U{2028}' || c == '\U{2029}' || c == '\U{202F}' || c == '\U{205F}' ||
    c == '\U{3000}' || c == '\U{FEFF}'
  }

  predicate AllWhitespace(s: string) {
    forall i :: 0 <= i < |s| ==> IsJsWhitespace(s[i])
  }

  function TrimStart(s: string): (r: string)
    ensures |r| <= |s| && r == s[|s| - |r|..]
    ensures AllWhitespace(s[..|s| - |r|])
    ensures r == [] || !IsJsWhitespace(r[0])
    decreases |s|
  {
    if s != [] && IsJsWhitespace(s[0]) then
      var r := TrimStart(s[1..]);
      assert s[..|s| - |r|] == [s[0]] + s[1..][..|s[1..]| - |r|];
      r
    else s
  }

  function TrimEnd(s: string): (r: string)
    ensures |r| <= |s| && r == s[..|r|]
    ensures AllWhitespace(s[|r|..])
    ensures r == [] || !IsJsWhitespace(r[|r| - 1])
    decreases |s|
  {
    if s != [] && IsJsWhitespace(s[|s| - 1]) then
      var r := TrimEnd(s[..|s| - 1]);
      assert s[|r|..] == s[..|s| - 1][|r|..] + [s[|s| - 1]];
      r
    else s
  }

  function Trim(s: string): string {
    TrimEnd(TrimStart(s))
  }

  /** `!input.trim()` holds exactly for input made only of white space (or nothing). */
  lemma TrimEmptyIffBlank(s: string)
    ensures Trim(s) == "" <==> AllWhitespace(s)
  {
  }

  // ---------------------------------------------------------------------------
  // Sending a message
  // ---------------------------------------------------------------------------

  /** The bot's text for a chat answer: the reply when present and non-empty. */
  function BotText(reply: ChatReply): (text: string)
    ensures text != ""
    ensures reply.Replied? && Truthy(reply.reply) ==> text == reply.reply.value
    ensures reply.Replied? && !Truthy(reply.reply) ==> text == FallbackReply
    ensures reply.Offline? ==> text == OfflineReply
  {
    match reply
    case Replied(r) => OrElse(r, FallbackReply)
    case Offline => OfflineReply
  }

  /** `sendMessage` up to the request: blank input is ignored; otherwise the raw input is
      logged as the user's message, the box is cleared and loading starts. */
  function Begin(s: ChatState): (r: (bool, ChatState))
    ensures r.0 <==> !AllWhitespace(s.input)
    ensures !r.0 ==> r.1 == s
    ensures r.0 ==> r.1 == ChatState(s.messages + [ChatMessage(s.input, FromUser)], "", true)
  {
    TrimEmptyIffBlank(s.input);
    if Trim(s.input) == "" then (false, s)
    else (true, ChatState(s.messages + [ChatMessage(s.input, FromUser)], "", true))
  }

  /** `sendMessage` after the request: one bot message is logged and loading stops. */
  function Complete(s: ChatState, reply: ChatReply): (r: ChatState)
    ensures r.messages == s.messages + [ChatMessage(BotText(reply), FromBot)]
    ensures r.input == s.input && !r.isLoading
  {
    s.(messages := s.messages + [ChatMessage(BotText(reply), FromBot)], isLoading := false)
  }

  /** A whole send, with the answer arriving before anything else happens: an accepted
      send adds exactly two messages, the user's raw input and then the bot's answer. */
  function Send(s: ChatState, reply: ChatReply): (r: ChatState)
    ensures AllWhitespace(s.input) ==> r == s
    ensures !AllWhitespace(s.input) ==>
      r.messages == s.messages + [ChatMessage(s.input, FromUser), ChatMessage(BotText(reply), FromBot)]
    ensures !AllWhitespace(s.input) ==> r.input == "" && !r.isLoading
  {
    var (accepted, sent) := Begin(s);
    if accepted then Complete(sent, reply) else s
  }

  /** `handleKeyDown`: Enter sends, Shift+Enter and other keys do not. The loading flag
      is not consulted. */
  function KeyDown(s: ChatState, key: string, shift: bool, reply: ChatReply): (r: ChatState)
    ensures key == "Enter" && !shift && !AllWhitespace(s.input) ==>
      r.messages == s.messages + [ChatMessage(s.input, FromUser), ChatMessage(BotText(reply), FromBot)] &&
      r.input == "" && !r.isLoading
    ensures !(key == "Enter" && !shift && !AllWhitespace(s.input)) ==> r == s
  {
    if key == "Enter" && !shift then Send(s, reply) else s
  }

  /** Unlike the send button, Enter sends while an answer is still loading. */
  lemma EnterIgnoresLoading(s: ChatState, reply: ChatReply)
    requires s.isLoading && !AllWhitespace(s.input)
    ensures |KeyDown(s, "Enter", false, reply).messages| == |s.messages| + 2
  {
  }

  // ---------------------------------------------------------------------------
  // The log over a whole conversation
  // ---------------------------------------------------------------------------

  /** What can happen to the widget. A send is either atomic (its answer lands before the
      next event) or split into its start and a later `Answered`, so that other events,
      further sends included, can come in between. */
  datatype ChatEvent =
    | Typed(text: string)
    | Clicked(reply: ChatReply)
    | Pressed(key: string, shift: bool, reply: ChatReply)
    | ClickStarted
    | KeyStarted(key: string, shift: bool)
    | Answered(reply: ChatReply)

  predicate Atomic(e: ChatEvent) {
    e.Typed? || e.Clicked? || e.Pressed?
  }

  /** The widget's state with the number of requests whose answer has not landed yet. */
  datatype Conversation = Conversation(state: ChatState, pending: nat)

  /** A send started without waiting for its answer. */
  function StartSend(c: Conversation): Conversation {
    var (accepted, sent) := Begin(c.state);
    Conversation(sent, if accepted then c.pending + 1 else c.pending)
  }

  /** An outstanding answer lands; with none outstanding there is nothing to land. */
  function Land(c: Conversation, reply: ChatReply): Conversation {
    if c.pending == 0 then c else Conversation(Complete(c.state, reply), c.pending - 1)
  }

  /** One event: typing replaces the input; the send button is disabled while loading,
      the Enter key is not; an answer lands only on an outstanding request. */
  function Step(c: Conversation, e: ChatEvent): (r: Conversation)
    ensures e.Typed? ==> r == c.(state := c.state.(input := e.text))
    ensures (e.Clicked? || e.ClickStarted?) && c.state.isLoading ==> r == c
    ensures e.KeyStarted? && e.key == "Enter" && !e.shift && !AllWhitespace(c.state.input) ==>
      r.state.messages == c.state.messages + [ChatMessage(c.state.input, FromUser)] &&
      r.state.isLoading && r.pending == c.pending + 1
    ensures e.Answered? && c.pending == 0 ==> r == c
  {
    var s := c.state;
    match e
    case Typed(text) => c.(state := s.(input := text))
    case Clicked(reply) => if s.isLoading then c else c.(state := Send(s, reply))
    case Pressed(key, shift, reply) => c.(state := KeyDown(s, key, shift, reply))
    case ClickStarted => if s.isLoading then c else StartSend(c)
    case KeyStarted(key, shift) => if key == "Enter" && !shift then StartSend(c) else c
    case Answered(reply) => Land(c, reply)
  }

  function Run(c: Conversation, events: seq<ChatEvent>): Conversation
    decreases |events|
  {
    if events == [] then c else Run(Step(c, events[0]), events[1..])
  }

  /** What one event does to the log and to the outstanding answers: nothing, a user
      message for a started send, an answer, or a whole atomic send. */
  lemma StepEffect(c: Conversation, e: ChatEvent)
    ensures var m := c.state.messages;
            var user := ChatMessage(c.state.input, FromUser);
            var next := Step(c, e);
            (next.state.messages == m && next.pending == c.pending) ||
            (!Atomic(e) && !e.Answered? && next.state.messages == m + [user] && next.pending == c.pending + 1) ||
            (e.Answered? && c.pending > 0 &&
             next.state.messages == m + [ChatMessage(BotText(e.reply), FromBot)] && next.pending == c.pending - 1) ||
            ((e.Clicked? || e.Pressed?) &&
             next.state.messages == m + [user, ChatMessage(BotText(e.reply), FromBot)] && next.pending == c.pending)
    ensures Atomic(e) && !c.state.isLoading ==> !Step(c, e).state.isLoading
  {
    match e
    case Typed(_) =>
    case Clicked(reply) =>
    case Pressed(key, shift, reply) =>
    case ClickStarted =>
    case KeyStarted(key, shift) =>
    case Answered(reply) =>
  }

  /** The log only grows: every earlier log is a prefix of every later one. */
  lemma {:induction false} RunAppendOnly(c: Conversation, events: seq<ChatEvent>)
    ensures c.state.messages <= Run(c, events).state.messages
    decreases |events|
  {
    if events != [] {
      var next := Step(c, events[0]);
      StepEffect(c, events[0]);
      RunAppendOnly(next, events[1..]);
    }
  }

  /** The number of messages in `messages` sent by `who`. */
  function CountFrom(messages: seq<ChatMessage>, who: Sender): nat
    decreases |messages|
  {
    if messages == [] then 0
    else CountFrom(messages[..|messages| - 1], who) + (if messages[|messages| - 1].sender == who then 1 else 0)
  }

  lemma CountAppend(messages: seq<ChatMessage>, m: ChatMessage, who: Sender)
    ensures CountFrom(messages + [m], who) == CountFrom(messages, who) + (if m.sender == who then 1 else 0)
  {
    assert (messages + [m])[..|messages|] == messages;
  }

  /** Apart from the greeting, there is one bot message per user message, counting the
      answers still outstanding. */
  predicate Balanced(c: Conversation) {
    CountFrom(c.state.messages, FromUser) + 1 == CountFrom(c.state.messages, FromBot) + c.pending
  }

  /** Every user message gets exactly one answer, however the sends overlap. */
  lemma {:induction false} RunKeepsBalanced(c: Conversation, events: seq<ChatEvent>)
    requires Balanced(c)
    ensures Balanced(Run(c, events))
    decreases |events|
  {
    if events != [] {
      var s := c.state;
      var next := Step(c, events[0]);
      assert Balanced(next) by {
        StepEffect(c, events[0]);
        var user := ChatMessage(s.input, FromUser);
        if next.state.messages == s.messages {
        } else if next.state.messages == s.messages + [user] {
          CountAppend(s.messages, user, FromUser);
          CountAppend(s.messages, user, FromBot);
        } else if events[0].Answered? {
          var bot := ChatMessage(BotText(events[0].reply), FromBot);
          CountAppend(s.messages, bot, FromUser);
          CountAppend(s.messages, bot, FromBot);
        } else {
          var bot := ChatMessage(BotText(events[0].reply), FromBot);
          assert s.messages + [user, bot] == (s.messages + [user]) + [bot];
          CountAppend(s.messages, user, FromUser);
          CountAppend(s.messages, user, FromBot);
          CountAppend(s.messages + [user], bot, FromUser);
          CountAppend(s.messages + [user], bot, FromBot);
        }
      }
      RunKeepsBalanced(next, events[1..]);
    }
  }

  /** The greeting comes first, and after it every user message is followed by exactly
      one bot message. */
  predicate Paired(messages: seq<ChatMessage>) {
    |messages| % 2 == 1 &&
    forall i :: 0 <= i < |messages| ==> messages[i].sender == (if i % 2 == 0 then FromBot else FromUser)
  }

  lemma PairedExtend(messages: seq<ChatMessage>, user: ChatMessage, bot: ChatMessage)
    requires Paired(messages) && user.sender == FromUser && bot.sender == FromBot
    ensures Paired(messages + [user, bot])
  {
    var longer := messages + [user, bot];
    forall i | 0 <= i < |longer|
      ensures longer[i].sender == (if i % 2 == 0 then FromBot else FromUser)
    {
      if i < |messages| {
        assert longer[i] == messages[i];
      }
    }
  }

  /** With every answer arriving before the next event, messages alternate and loading is
      always over again. */
  lemma {:induction false} RunKeepsPaired(c: Conversation, events: seq<ChatEvent>)
    requires Paired(c.state.messages) && !c.state.isLoading
    requires forall i :: 0 <= i < |events| ==> Atomic(events[i])
    ensures Paired(Run(c, events).state.messages) && !Run(c, events).state.isLoading
    decreases |events|
  {
    if events != [] {
      var next := Step(c, events[0]);
      assert Atomic(events[0]);
      StepEffect(c, events[0]);
      if next.state.messages != c.state.messages {
        PairedExtend(c.state.messages, ChatMessage(c.state.input, FromUser),
                     ChatMessage(BotText(events[0].reply), FromBot));
      }
      RunKeepsPaired(next, events[1..]);
    }
  }

  /** Running two event sequences one after the other is running their concatenation. */
  lemma {:induction false} RunConcat(c: Conversation, first: seq<ChatEvent>, second: seq<ChatEvent>)
    ensures Run(c, first + second) == Run(Run(c, first), second)
    decreases |first|
  {
    if first == [] {
      assert first + second == second;
    } else {
      assert (first + second)[0] == first[0];
      assert (first + second)[1..] == first[1..] + second;
      RunConcat(Step(c, first[0]), first[1..], second);
    }
  }

  /** Typing non-blank text and pressing Enter starts one send, whose answer is outstanding. */
  lemma TypeThenEnter(c: Conversation, text: string)
    requires !AllWhitespace(text)
    ensures Run(c, [Typed(text), KeyStarted("Enter", false)]) ==
            Conversation(ChatState(c.state.messages + [ChatMessage(text, FromUser)], "", true), c.pending + 1)
  {
    var events := [Typed(text), KeyStarted("Enter", false)];
    var typed := Step(c, events[0]);
    assert typed == c.(state := c.state.(input := text));
    var started := Step(typed, events[1]);
    assert started == StartSend(typed);
    assert Run(c, events) == Run(typed, events[1..]);
    assert events[1..][1..] == [];
    assert Run(typed, events[1..]) == started;
  }

  /** Two outstanding answers landing one after the other. */
  lemma TwoAnswers(c: Conversation, first: ChatReply, second: ChatReply)
    requires c.pending >= 2
    ensures Run(c, [Answered(first), Answered(second)]) ==
            Conversation(Complete(Complete(c.state, first), second), c.pending - 2)
  {
    var events := [Answered(first), Answered(second)];
    var landed := Step(c, events[0]);
    assert landed == Land(c, first);
    assert Run(c, events) == Run(landed, events[1..]);
    assert events[1..][1..] == [];
    assert Run(landed, events[1..]) == Land(landed, second);
  }

  /** The log after two Enter sends whose answers both land after the second send. */
  lemma OverlappingLog(x: string, y: string, first: ChatReply, second: ChatReply)
    requires !AllWhitespace(x) && !AllWhitespace(y)
    ensures Run(Conversation(Initial(), 0), [Typed(x), KeyStarted("Enter", false), Typed(y),
                                            KeyStarted("Enter", false), Answered(first), Answered(second)]).state.messages
            == Initial().messages + [ChatMessage(x, FromUser), ChatMessage(y, FromUser),
                                     ChatMessage(BotText(first), FromBot), ChatMessage(BotText(second), FromBot)]
  {
    var sendX := [Typed(x), KeyStarted("Enter", false)];
    var sendY := [Typed(y), KeyStarted("Enter", false)];
    var answers := [Answered(first), Answered(second)];
    var c0 := Conversation(Initial(), 0);
    var c1 := Run(c0, sendX);
    var c2 := Run(c1, sendY);
    assert c1.state.messages == Initial().messages + [ChatMessage(x, FromUser)] && c1.pending == 1 by {
      TypeThenEnter(c0, x);
    }
    assert c2.state.messages == c1.state.messages + [ChatMessage(y, FromUser)] && c2.pending == 2 by {
      TypeThenEnter(c1, y);
    }
    assert Run(c2, answers).state.messages ==
           c2.state.messages + [ChatMessage(BotText(first), FromBot)] + [ChatMessage(BotText(second), FromBot)] by {
      TwoAnswers(c2, first, second);
    }
    assert Run(c0, (sendX + sendY) + answers) == Run(c2, answers) by {
      RunConcat(c0, sendX + sendY, answers);
      RunConcat(c0, sendX, sendY);
    }
    assert (sendX + sendY) + answers == [Typed(x), KeyStarted("Enter", false), Typed(y),
                                         KeyStarted("Enter", false), Answered(first), Answered(second)];
  }

  /** Two Enter sends whose answers land after both have started interleave: the log
      reads greeting, first input, second input, answer, answer, which does not alternate. */
  lemma OverlappingEnterSends(x: string, y: string, first: ChatReply, second: ChatReply)
    requires !AllWhitespace(x) && !AllWhitespace(y)
    ensures var events := [Typed(x), KeyStarted("Enter", false), Typed(y), KeyStarted("Enter", false),
                           Answered(first), Answered(second)];
            var log := Run(Conversation(Initial(), 0), events).state.messages;
            log == Initial().messages + [ChatMessage(x, FromUser), ChatMessage(y, FromUser),
                                         ChatMessage(BotText(first), FromBot), ChatMessage(BotText(second), FromBot)] &&
            !Paired(log)
  {
    OverlappingLog(x, y, first, second);
    var log := Initial().messages + [ChatMessage(x, FromUser), ChatMessage(y, FromUser),
                                     ChatMessage(BotText(first), FromBot), ChatMessage(BotText(second), FromBot)];
    assert log[2].sender == FromUser;
  }

  lemma StartPaired()
    ensures Paired(Initial().messages) && !Initial().isLoading
  {
  }

  lemma StartBalanced()
    ensures Balanced(Conversation(Initial(), 0))
  {
    var greeting := ChatMessage(Greeting, FromBot);
    assert Initial().messages == [] + [greeting];
    CountAppend([], greeting, FromUser);
    CountAppend([], greeting, FromBot);
  }

  lemma ConversationFromStart(events: seq<ChatEvent>)
    ensures Initial().messages <= Run(Conversation(Initial(), 0), events).state.messages
    ensures Balanced(Run(Conversation(Initial(), 0), events))
    ensures (forall i :: 0 <= i < |events| ==> Atomic(events[i])) ==>
      Paired(Run(Conversation(Initial(), 0), events).state.messages) &&
      !Run(Conversation(Initial(), 0), events).state.isLoading
  {
    var c := Conversation(Initial(), 0);
    RunAppendOnly(c, events);
    StartBalanced();
    RunKeepsBalanced(c, events);
    if forall i :: 0 <= i < |events| ==> Atomic(events[i]) {
      StartPaired();
      RunKeepsPaired(c, events);
    }
  }

  // ---------------------------------------------------------------------------
  // The widget, updated in place
  // ---------------------------------------------------------------------------

  class Chatbot {
    var messages: seq<ChatMessage>
    var input: string
    var isLoading: bool

    function State(): ChatState
      reads this
    {
      ChatState(messages, input, isLoading)
    }

    constructor ()
      ensures State() == Initial()
    {
      messages := [ChatMessage(Greeting, FromBot)];
      input := "";
      isLoading := false;
    }

    /** The first half of `sendMessage`; `sent` is the text handed to the request. */
    method BeginSend() returns (accepted: bool, sent: string)
      modifies this
      ensures (accepted, State()) == Begin(old(State()))
      ensures sent == old(input)
    {
      sent := input;
      accepted := Trim(input) != "";
      TrimEmptyIffBlank(input);
      assert accepted <==> Begin(State()).0;
      if accepted {
        messages := messages + [ChatMessage(input, FromUser)];
        input := "";
        isLoading := true;
      }
    }

    /** The second half: `setMessages(prev => [...prev, botMsg])`, then loading stops. */
    method CompleteSend(reply: ChatReply)
      modifies this
      ensures State() == Complete(old(State()), reply)
    {
      var text := match reply
        case Replied(r) => if r.Some? && r.value != "" then r.value else FallbackReply
        case Offline => OfflineReply;
      messages := messages + [ChatMessage(text, FromBot)];
      isLoading := false;
    }

    method SendMessage(reply: ChatReply)
      modifies this
      ensures State() == Send(old(State()), reply)
    {
      var accepted, _ := BeginSend();
      if accepted {
        CompleteSend(reply);
      }
    }

    /** Enter without Shift sends; any other key, Shift+Enter included, changes nothing. */
    method HandleKeyDown(key: string, shift: bool, reply: ChatReply)
      modifies this
      ensures State() == KeyDown(old(State()), key, shift, reply)
      ensures key == "Enter" && !shift ==> State() == Send(old(State()), reply)
      ensures key != "Enter" || shift ==> State() == old(State())
    {
      if key == "Enter" && !shift {
        SendMessage(reply);
      }
    }
  }
}
