/** The chat back end (services/geminiService.ts): a lazily created,
    module-wide chat session and the function that turns one message into
    one reply string.

    The SDK is an oracle: whether creating a session succeeds, and what a
    call on the session produces, are parameters of each operation. The
    module-level variables `API_KEY` and `chatSession` are the `apiKey` and
    `session` fields of `Service`; `created` counts the sessions ever
    made, so that a new session is told apart from an old one, and `calls`
    logs every message handed to a session, in order. */
module GeminiService {
  import opened Wrappers

  /** A chat session, identified by the order in which it was created. */
  datatype Session = Session(serial: nat)

  /** What the SDK does when asked to create a session. */
  datatype Creation = Created | CreationThrows

  /** What the SDK does with one message: resolve to a response whose
      `text` may be absent (`None`), or reject. */
  datatype Reply = Replied(text: Option<string>) | ReplyThrows

  /** One message handed to one session. */
  datatype Call = Call(session: Session, message: string)

  datatype Service = Service(
    apiKey: string,
    session: Option<Session>,
    created: nat,
    calls: seq<Call>)

  /** The service as the module is loaded: no session yet, nothing sent. */
  function Load(apiKey: string): (s: Service)
    ensures s.apiKey == apiKey && s.session.None? && s.created == 0 && s.calls == []
  {
    Service(apiKey, None, 0, [])
  }

  /** The reply when no API key is configured. */
  const MaintenanceText: string :=
    "Conexión segura establecida. Sin embargo, el servidor de IA está en mantenimiento. Por favor usa el botón de WhatsApp para atención inmediata."

  /** The reply when the session answers without text. */
  const RephraseText: string :=
    "Entendido. Para darte la mejor orientación, ¿podrías reformular tu pregunta?"

  /** The reply when creating the session or sending the message throws. */
  const NetworkText: string :=
    "Detecto una interrupción en la red. Por favor recarga o contáctanos directamente por WhatsApp."

  /** The outcome of `initializeChat`: the session, or the exception that
      creating one threw. */
  datatype Init = Ready(svc: Service, session: Session) | InitThrew(svc: Service)

  /** `initializeChat`: an existing session is returned as it is; otherwise
      one is created, and stored only once creation has returned. */
  function InitializeChat(s: Service, creation: Creation): (r: Init)
    ensures s.session.Some? ==> r == Ready(s, s.session.value)
    ensures s.session.None? && creation.Created? ==>
      r.Ready? && r.session == Session(s.created) &&
      r.svc == s.(session := Some(Session(s.created)), created := s.created + 1)
    ensures s.session.None? && creation.CreationThrows? ==> r == InitThrew(s)
  {
    if s.session.Some? then Ready(s, s.session.value)
    else match creation
      case Created =>
        var made := Session(s.created);
        Ready(s.(session := Some(made), created := s.created + 1), made)
      case CreationThrows => InitThrew(s)
  }

  /** `sendMessageToGemini`: the service afterwards and the string the
      promise resolves to. It never fails: every outcome is a string. */
  function SendMessageToGemini(s: Service, message: string, creation: Creation, reply: Reply)
    : (r: (Service, string))
    ensures s.apiKey == [] ==> r == (s, MaintenanceText)
    ensures r.0.apiKey == s.apiKey
    ensures r.1 == MaintenanceText || r.1 == RephraseText || r.1 == NetworkText ||
            (reply == Replied(Some(r.1)) && r.1 != [])
  {
    if s.apiKey == [] then (s, MaintenanceText)
    else match InitializeChat(s, creation)
      case InitThrew(s1) => (s1, NetworkText)
      case Ready(s1, chat) =>
        var s2 := s1.(calls := s1.calls + [Call(chat, message)]);
        match reply
        case ReplyThrows => (s2, NetworkText)
        case Replied(text) =>
          if text.None? || text.value == [] then (s2, RephraseText) else (s2, text.value)
  }

  /** With no API key nothing reaches the SDK: no session is created, no
      message is sent, and the reply is the maintenance notice. */
  lemma MissingKeyShortCircuits(s: Service, message: string, creation: Creation, reply: Reply)
    requires s.apiKey == []
    ensures SendMessageToGemini(s, message, creation, reply).0 == s
    ensures SendMessageToGemini(s, message, creation, reply).1 == MaintenanceText
  {
  }

  /** `initializeChat` is idempotent: once a session exists every later
      call returns it and creates nothing, whatever the SDK would do. */
  lemma InitializeChatIdempotent(s: Service, c1: Creation, c2: Creation)
    requires InitializeChat(s, c1).Ready?
    ensures InitializeChat(InitializeChat(s, c1).svc, c2) == InitializeChat(s, c1)
  {
  }

  /** A failed creation leaves no session behind, so the next call tries to
      create one again. */
  lemma FailedCreationIsRetried(s: Service, message: string, reply: Reply, c2: Creation)
    requires s.apiKey != [] && s.session.None?
    ensures SendMessageToGemini(s, message, CreationThrows, reply) == (s, NetworkText)
    ensures InitializeChat(SendMessageToGemini(s, message, CreationThrows, reply).0, c2)
            == InitializeChat(s, c2)
  {
  }

  /** How each SDK outcome maps to the reply, with a configured key and a
      session that exists or is created: a non-empty text verbatim, an empty
      or absent text the rephrase prompt, an exception the network notice. */
  lemma ReplyMapping(s: Service, message: string, creation: Creation, reply: Reply)
    requires s.apiKey != [] && (s.session.Some? || creation.Created?)
    ensures reply.Replied? && reply.text.Some? && reply.text.value != [] ==>
      SendMessageToGemini(s, message, creation, reply).1 == reply.text.value
    ensures reply.Replied? && (reply.text.None? || reply.text.value == []) ==>
      SendMessageToGemini(s, message, creation, reply).1 == RephraseText
    ensures reply.ReplyThrows? ==> SendMessageToGemini(s, message, creation, reply).1 == NetworkText
    ensures SendMessageToGemini(s, message, creation, reply).0.calls
            == s.calls + [Call(InitializeChat(s, creation).session, message)]
  {
  }

  /** One call of `sendMessageToGemini` together with what the SDK does. */
  datatype Exchange = Exchange(message: string, creation: Creation, reply: Reply)

  /** A sequence of calls; the replies are returned in order. */
  function Converse(s: Service, xs: seq<Exchange>): (r: (Service, seq<string>))
    ensures |r.1| == |xs|
    ensures r.0.apiKey == s.apiKey
    decreases |xs|
  {
    if xs == [] then (s, [])
    else
      var (s1, text) := SendMessageToGemini(s, xs[0].message, xs[0].creation, xs[0].reply);
      var (s2, texts) := Converse(s1, xs[1..]);
      (s2, [text] + texts)
  }

  /** What a service's history must look like: at most one session has
      ever been made, it is the one held, and every call went to it. */
  ghost predicate SingleSession(s: Service)
  {
    && s.created <= 1
    && (s.created == 1 <==> s.session == Some(Session(0)))
    && (s.created == 0 ==> s.session.None?)
    && forall k :: 0 <= k < |s.calls| ==> s.calls[k].session == Session(0)
  }

  /** One call keeps the single-session history and adds at most one entry
      to the calls log, at its end. */
  lemma SendKeepsSingleSession(s: Service, message: string, creation: Creation, reply: Reply)
    requires SingleSession(s)
    ensures SingleSession(SendMessageToGemini(s, message, creation, reply).0)
    ensures |SendMessageToGemini(s, message, creation, reply).0.calls| <= |s.calls| + 1
    ensures s.calls <= SendMessageToGemini(s, message, creation, reply).0.calls
  {
  }

  /** Over any conversation from a fresh load, the module creates at most one
      session and sends every message to it: the calls log only grows, and
      every entry names session 0. */
  lemma {:induction false} ConverseKeepsSingleSession(s: Service, xs: seq<Exchange>)
    requires SingleSession(s)
    ensures SingleSession(Converse(s, xs).0)
    ensures s.calls <= Converse(s, xs).0.calls
    decreases |xs|
  {
    if xs != [] {
      var (s1, _) := SendMessageToGemini(s, xs[0].message, xs[0].creation, xs[0].reply);
      SendKeepsSingleSession(s, xs[0].message, xs[0].creation, xs[0].reply);
      ConverseKeepsSingleSession(s1, xs[1..]);
    }
  }

  /** A freshly loaded module has the single-session history. */
  lemma LoadSingleSession(apiKey: string)
    ensures SingleSession(Load(apiKey))
  {
  }
}
