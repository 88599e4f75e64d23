/** The chat screen of src/app/components/confession-chat.tsx: sending a
    message and, once the simulated delay has passed, the keyword reply. The
    timer is modelled by splitting one send into two steps, `HandleSend` and
    `DeliverReply`, with the text captured at send time carried between them. */
module Chat {
  import opened Wrappers
  import opened Text
  import opened Kv
  import opened Responder

  /** The greeting the conversation opens with. */
  const Greeting := "Мир вам, дитя Божие. Я здесь, чтобы выслушать вас и помочь вам найти путь к прощению и исцелению. Чувствуйте себя свободно поделиться тем, что лежит на вашем сердце."

  datatype ChatState = ChatState(messages: seq<Message>, input: string, typing: bool)

  const InitialChat := ChatState([Message(Assistant, Greeting)], "", false)

  /** The state after `handleSend`, and the text the pending reply will answer. */
  datatype Sent = Sent(state: ChatState, pending: Option<string>)

  /** `handleSend`: a blank input does nothing; otherwise the input is appended
      as the user's message, the field is cleared and the typing indicator shows. */
  function HandleSend(s: ChatState): (r: Sent)
    ensures IsBlank(s.input) <==> r.pending.None?
    ensures IsBlank(s.input) ==> r.state == s
    ensures !IsBlank(s.input) ==>
      && r.state.messages == s.messages + [Message(User, s.input)]
      && r.state.input == ""
      && r.state.typing
      && r.pending == Some(s.input)
  {
    if IsBlank(s.input) then Sent(s, None)
    else Sent(ChatState(s.messages + [Message(User, s.input)], "", true), Some(s.input))
  }

  /** The timer's callback: the reply is appended as the assistant's message
      and the indicator hides. */
  function DeliverReply(s: ChatState, reply: string): (t: ChatState)
    ensures t.messages == s.messages + [Message(Assistant, reply)]
    ensures !t.typing && t.input == s.input
  {
    s.(messages := s.messages + [Message(Assistant, reply)], typing := false)
  }

  /** A full exchange with a given responder: one send, then the reply to the
      captured text, if there was anything to send. */
  function ExchangeWith(s: ChatState, respond: string -> string): ChatState {
    var sent := HandleSend(s);
    match sent.pending
    case None => sent.state
    case Some(p) => DeliverReply(sent.state, respond(p))
  }

  /** The page's exchange: the reply comes from `generateAIResponse`. */
  function Exchange(s: ChatState): ChatState {
    ExchangeWith(s, GenerateAIResponse)
  }

  /** A non-blank message grows the conversation by exactly the user's words
      followed by the reply chosen for them; earlier messages are untouched. */
  lemma ExchangeAppendsPair(s: ChatState)
    requires !IsBlank(s.input)
    ensures Exchange(s).messages
      == s.messages + [Message(User, s.input), Message(Assistant, ClientReplyText(ClientTheme(s.input)))]
    ensures Exchange(s).input == "" && !Exchange(s).typing
  {
  }

  /** When every reply arrives before the next send, messages come in pairs
      after the greeting: the conversation has odd length and the assistant
      spoke last. */
  predicate AwaitingUser(messages: seq<Message>) {
    |messages| % 2 == 1 && messages[|messages| - 1].role == Assistant
  }

  /** One exchange, sent or skipped, keeps the conversation awaiting the user,
      whatever the responder says. */
  lemma ExchangeKeepsTurns(s: ChatState, respond: string -> string)
    requires AwaitingUser(s.messages)
    ensures AwaitingUser(ExchangeWith(s, respond).messages)
  {
    if !IsBlank(s.input) {
      var t := ExchangeWith(s, respond).messages;
      assert t == s.messages + [Message(User, s.input)] + [Message(Assistant, respond(s.input))];
      assert |t| == |s.messages| + 2;
    }
  }

  /** The exchanges for a sequence of typed inputs. */
  function ExchangeAll(s: ChatState, inputs: seq<string>, respond: string -> string): ChatState
    decreases |inputs|
  {
    if inputs == [] then s
    else ExchangeAll(ExchangeWith(s.(input := inputs[0]), respond), inputs[1..], respond)
  }

  /** From the greeting, after any number of exchanges each completed before
      the next send, the assistant has answered every message sent. */
  lemma {:induction false} ConversationEndsWithAssistant(s: ChatState, inputs: seq<string>, respond: string -> string)
    requires AwaitingUser(s.messages)
    ensures AwaitingUser(ExchangeAll(s, inputs, respond).messages)
    decreases |inputs|
  {
    if inputs != [] {
      ExchangeKeepsTurns(s.(input := inputs[0]), respond);
      ConversationEndsWithAssistant(ExchangeWith(s.(input := inputs[0]), respond), inputs[1..], respond);
    }
  }

  /** The conversation opens with the assistant's greeting alone. */
  lemma GreetingAwaitsUser()
    ensures AwaitingUser(InitialChat.messages)
  {
  }

  // ------------------------------------------------------- interleaved sends

  /** The page with its pending timers: nothing stops a second send while the
      first reply is still due. Every timer has the same delay, so they fire in
      the order they were set, each answering the text it captured. */
  datatype Page = Page(chat: ChatState, timers: seq<string>)

  const InitialPage := Page(InitialChat, [])

  datatype Event = TypeText(text: string) | PressSend | TimerFires

  /** What one event does to the page. */
  function Handle(p: Page, e: Event, respond: string -> string): Page {
    match e
    case TypeText(text) => p.(chat := p.chat.(input := text))
    case PressSend =>
      var sent := HandleSend(p.chat);
      Page(sent.state, p.timers + (if sent.pending.Some? then [sent.pending.value] else []))
    case TimerFires =>
      if p.timers == [] then p
      else Page(DeliverReply(p.chat, respond(p.timers[0])), p.timers[1..])
  }

  function Replay(p: Page, events: seq<Event>, respond: string -> string): Page
    decreases |events|
  {
    if events == [] then p else Replay(Handle(p, events[0], respond), events[1..], respond)
  }

  /** The texts of one side of the conversation, in order. */
  function Said(ms: seq<Message>, role: Role): (r: seq<string>)
    ensures |r| <= |ms|
  {
    if ms == [] then []
    else Said(ms[..|ms| - 1], role) + (if ms[|ms| - 1].role == role then [ms[|ms| - 1].content] else [])
  }

  lemma SaidAppend(ms: seq<Message>, m: Message, role: Role)
    ensures Said(ms + [m], role) == Said(ms, role) + (if m.role == role then [m.content] else [])
  {
    assert (ms + [m])[..|ms|] == ms;
  }

  /** After the greeting, the assistant's i-th reply answers the user's i-th
      message; the user's messages not yet answered are exactly the texts the
      pending timers hold, in order. */
  ghost predicate RepliesInOrder(p: Page, respond: string -> string) {
    var u := Said(p.chat.messages, User);
    var a := Said(p.chat.messages, Assistant);
    && |a| >= 1 && a[0] == Greeting
    && |u| == |a| - 1 + |p.timers|
    && u[|a| - 1..] == p.timers
    && forall i :: 1 <= i < |a| ==> a[i] == respond(u[i - 1])
  }

  /** A send adds the typed text to both the user's messages and the timers. */
  lemma SendKeepsOrder(p: Page, respond: string -> string)
    requires RepliesInOrder(p, respond)
    ensures RepliesInOrder(Handle(p, PressSend, respond), respond)
  {
    if !IsBlank(p.chat.input) {
      var ms := p.chat.messages;
      var u, a := Said(ms, User), Said(ms, Assistant);
      var m := Message(User, p.chat.input);
      SaidAppend(ms, m, User);
      SaidAppend(ms, m, Assistant);
      assert (u + [m.content])[|a| - 1..] == u[|a| - 1..] + [m.content];
    }
  }

  /** A timer answers the oldest unanswered message and is done. */
  lemma FireKeepsOrder(p: Page, respond: string -> string)
    requires RepliesInOrder(p, respond)
    ensures RepliesInOrder(Handle(p, TimerFires, respond), respond)
  {
    if p.timers != [] {
      var ms := p.chat.messages;
      var u, a := Said(ms, User), Said(ms, Assistant);
      var m := Message(Assistant, respond(p.timers[0]));
      SaidAppend(ms, m, User);
      SaidAppend(ms, m, Assistant);
      assert u[|a| - 1] == p.timers[0];
      assert u[|a|..] == p.timers[1..];
    }
  }

  lemma HandleKeepsOrder(p: Page, e: Event, respond: string -> string)
    requires RepliesInOrder(p, respond)
    ensures RepliesInOrder(Handle(p, e, respond), respond)
  {
    match e
    case TypeText(_) =>
    case PressSend => SendKeepsOrder(p, respond);
    case TimerFires => FireKeepsOrder(p, respond);
  }

  /** Whatever the user types and sends, and however the timers interleave
      with the sends, the replies answer the messages in the order sent. */
  lemma {:induction false} ReplayKeepsOrder(p: Page, events: seq<Event>, respond: string -> string)
    requires RepliesInOrder(p, respond)
    ensures RepliesInOrder(Replay(p, events, respond), respond)
    decreases |events|
  {
    if events != [] {
      HandleKeepsOrder(p, events[0], respond);
      ReplayKeepsOrder(Handle(p, events[0], respond), events[1..], respond);
    }
  }

  /** Once no timer is pending, every message the user sent has its reply:
      the assistant has spoken once more than the user, the greeting included,
      and reply i answers message i. */
  lemma QuietPageAnswersAll(events: seq<Event>, respond: string -> string)
    requires Replay(InitialPage, events, respond).timers == []
    ensures var ms := Replay(InitialPage, events, respond).chat.messages;
      && |Said(ms, Assistant)| == |Said(ms, User)| + 1
      && forall i :: 0 <= i < |Said(ms, User)| ==> Said(ms, Assistant)[i + 1] == respond(Said(ms, User)[i])
  {
    assert Said(InitialChat.messages, Assistant) == [Greeting] by {
      SaidAppend([], Message(Assistant, Greeting), Assistant);
    }
    assert Said(InitialChat.messages, User) == [] by {
      SaidAppend([], Message(Assistant, Greeting), User);
    }
    ReplayKeepsOrder(InitialPage, events, respond);
  }
}
