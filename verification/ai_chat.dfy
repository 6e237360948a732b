/** The chat window (components/AIChat.tsx): a transcript that starts with
    a greeting, an input line, and a loading flag, driven by `handleSend`
    and by the arrival of the service's reply.

    Sending and the reply's arrival are two separate events; `Turn` runs
    them back to back against the service model. */
module AIChat {
  import opened Wrappers
  import opened Text
  import opened GeminiService

  /** Who wrote a turn of the transcript (types.ts). */
  datatype Role = User | Model

  /** One turn of the transcript. The source's optional `isError` flag is
      never set, so it is not modelled. */
  datatype ChatMessage = ChatMessage(role: Role, text: string)

  datatype Chat = Chat(messages: seq<ChatMessage>, input: string, isLoading: bool)

  /** The assistant's opening turn. */
  const Greeting: string :=
    "Bienvenido al espacio de transformación. Soy el asistente IA de Pepe. ¿Te interesa descubrir el origen emocional de algún síntoma o deseas agendar tu sesión?"

  /** The window as first rendered: just the greeting, an empty input, not
      loading. */
  function Init(): (c: Chat)
    ensures c.messages == [ChatMessage(Model, Greeting)]
    ensures c.input == [] && !c.isLoading
  {
    Chat([ChatMessage(Model, Greeting)], [], false)
  }

  /** The send button is clickable when nothing is loading and the input
      does not trim to nothing. */
  predicate ButtonEnabled(c: Chat)
  {
    !c.isLoading && Trim(c.input) != []
  }

  /** `handleSend` up to its `await`: an input that trims to nothing changes
      nothing and sends nothing; otherwise the untrimmed input becomes a user
      turn, the input is cleared, loading starts, and that same text is the
      message handed to the service. */
  function HandleSend(c: Chat): (r: (Chat, Option<string>))
    ensures IsBlank(c.input) ==> r == (c, None)
    ensures !IsBlank(c.input) ==>
      && r.0.messages == c.messages + [ChatMessage(User, c.input)]
      && r.0.input == [] && r.0.isLoading
      && r.1 == Some(c.input)
  {
    TrimEmptyIffBlank(c.input);
    if Trim(c.input) == [] then (c, None)
    else (Chat(c.messages + [ChatMessage(User, c.input)], [], true), Some(c.input))
  }

  /** `handleSend` after its `await`: the reply becomes a model turn at the
      end of the transcript and loading stops. */
  function ReceiveReply(c: Chat, reply: string): (r: Chat)
    ensures r.messages == c.messages + [ChatMessage(Model, reply)]
    ensures r.input == c.input && !r.isLoading
  {
    c.(messages := c.messages + [ChatMessage(Model, reply)], isLoading := false)
  }

  /** What the user and the service can do to the window. The Enter key
      calls `handleSend` directly; the button only when it is enabled. */
  datatype Event =
    | Type(text: string)
    | Enter
    | Button
    | Arrive(reply: string)

  /** One event. Enter sends whenever the input is not blank; the button
      sends only when nothing is loading; an arriving reply is appended. */
  function Step(c: Chat, e: Event): (r: Chat)
    ensures e.Type? ==> r == c.(input := e.text)
    ensures (e.Enter? || e.Button?) && IsBlank(c.input) ==> r == c
    ensures e.Button? && c.isLoading ==> r == c
    ensures (e.Enter? || (e.Button? && !c.isLoading)) && !IsBlank(c.input) ==>
      && r.messages == c.messages + [ChatMessage(User, c.input)]
      && r.input == [] && r.isLoading
    ensures e.Arrive? ==>
      r.messages == c.messages + [ChatMessage(Model, e.reply)] && !r.isLoading
  {
    TrimEmptyIffBlank(c.input);
    match e
    case Type(t) => c.(input := t)
    case Enter => HandleSend(c).0
    case Button => if ButtonEnabled(c) then HandleSend(c).0 else c
    case Arrive(reply) => ReceiveReply(c, reply)
  }

  function Run(c: Chat, es: seq<Event>): Chat
    decreases |es|
  {
    if es == [] then c else Run(Step(c, es[0]), es[1..])
  }

  /** Sending is a no-op exactly when the input trims to nothing. */
  lemma BlankSendIsNoOp(c: Chat)
    ensures HandleSend(c).1.None? <==> IsBlank(c.input)
    ensures IsBlank(c.input) ==> HandleSend(c).0 == c
  {
  }

  /** The only guard of `handleSend` is the blank check: pressing Enter
      while a reply is still loading sends again, though the button would
      not. */
  lemma EnterIgnoresLoading(c: Chat)
    requires c.isLoading && !IsBlank(c.input)
    ensures Step(c, Enter).messages == c.messages + [ChatMessage(User, c.input)]
    ensures Step(c, Button) == c
  {
    TrimEmptyIffBlank(c.input);
  }

  /** Nothing ever leaves the transcript: every run keeps the earlier turns
      as a prefix, so the greeting stays first. */
  lemma {:induction false} RunAppendOnly(c: Chat, es: seq<Event>)
    ensures c.messages <= Run(c, es).messages
    decreases |es|
  {
    if es != [] {
      var c1 := Step(c, es[0]);
      assert c.messages <= c1.messages;
      RunAppendOnly(c1, es[1..]);
    }
  }

  /** The greeting opens every transcript the window can reach. */
  lemma GreetingStaysFirst(es: seq<Event>)
    ensures |Run(Init(), es).messages| >= 1
    ensures Run(Init(), es).messages[0] == ChatMessage(Model, Greeting)
  {
    RunAppendOnly(Init(), es);
  }

  /** One complete exchange: send, hand the message to the service, and
      append its reply. Returns the window and the service afterwards. */
  function Turn(c: Chat, s: Service, creation: Creation, reply: Reply): (r: (Chat, Service))
    ensures IsBlank(c.input) ==> r == (c, s)
  {
    match HandleSend(c)
    case (c1, None) => (c1, s)
    case (c1, Some(message)) =>
      var (s1, text) := SendMessageToGemini(s, message, creation, reply);
      (ReceiveReply(c1, text), s1)
  }

  /** A non-blank turn adds exactly two turns: the user's untrimmed input,
      then the service's reply to that very text; the input ends empty and
      loading off. */
  lemma TurnAppendsExchange(c: Chat, s: Service, creation: Creation, reply: Reply)
    requires !IsBlank(c.input)
    ensures Turn(c, s, creation, reply).0.messages == c.messages + [
      ChatMessage(User, c.input),
      ChatMessage(Model, SendMessageToGemini(s, c.input, creation, reply).1)]
    ensures Turn(c, s, creation, reply).1 == SendMessageToGemini(s, c.input, creation, reply).0
    ensures Turn(c, s, creation, reply).0.input == [] && !Turn(c, s, creation, reply).0.isLoading
  {
    var (c1, m) := HandleSend(c);
    assert m == Some(c.input);
    var (s1, text) := SendMessageToGemini(s, c.input, creation, reply);
    assert Turn(c, s, creation, reply) == (ReceiveReply(c1, text), s1);
  }

  /** With no API key, every non-blank turn is answered with the
      maintenance notice and the service is left untouched. */
  lemma MissingKeyTurn(c: Chat, s: Service, creation: Creation, reply: Reply)
    requires s.apiKey == [] && !IsBlank(c.input)
    ensures Turn(c, s, creation, reply).0.messages
            == c.messages + [ChatMessage(User, c.input), ChatMessage(Model, MaintenanceText)]
    ensures Turn(c, s, creation, reply).1 == s
  {
    TurnAppendsExchange(c, s, creation, reply);
  }
}
