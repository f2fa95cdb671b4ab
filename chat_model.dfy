/**
 * The chat front end as a state machine: the selected provider, one message
 * history per provider, the input line, the scroll position, the streaming
 * and help flags, the queue of responses the AI client has delivered and the
 * log of message lists handed to it. `KeyStep` and `PollStep` say what one
 * key press and one tick do to that state.
 */
module ChatModel {
  import opened Wrappers
  import opened Numeric

  datatype Provider = Claude | Grok | OpenAI | Gemini

  /** The providers whose stored histories are loaded at start-up, in that order. */
  const AllProviders: seq<Provider> := [Claude, Grok, OpenAI, Gemini]

  /** Start-up visits every provider. */
  lemma AllProvidersComplete()
    ensures forall p: Provider :: p in AllProviders
  {
    forall p: Provider
      ensures p in AllProviders
    {
      match p
      case Claude => assert AllProviders[0] == p;
      case Grok => assert AllProviders[1] == p;
      case OpenAI => assert AllProviders[2] == p;
      case Gemini => assert AllProviders[3] == p;
    }
  }

  /** The provider F2 switches to: Claude, Grok, OpenAI, Gemini and round again. */
  function NextProvider(p: Provider): (q: Provider)
    ensures q != p
  {
    match p
    case Claude => Grok
    case Grok => OpenAI
    case OpenAI => Gemini
    case Gemini => Claude
  }

  /** The name shown in the notice after a switch. */
  function ProviderName(p: Provider): string
  {
    match p
    case Claude => "Claude"
    case Grok => "Grok"
    case OpenAI => "OpenAI"
    case Gemini => "Gemini"
  }

  datatype Role = User | Assistant

  /** A message of a history; notices of the interface itself are flagged `isSystem`. */
  datatype ChatMessage = ChatMessage(role: Role, content: string, isSystem: bool)

  /** A message as handed to the AI client. */
  datatype ApiMessage = ApiMessage(role: string, content: string)

  /** A message as the database returns it. */
  datatype StoredMessage = StoredMessage(role: string, content: string)

  datatype KeyCode = Char(c: char) | F(n: nat) | Backspace | Enter | Up | Down | PageUp | PageDown | Other

  /** A key press; `control` says whether Control was held. */
  datatype KeyEvent = KeyEvent(code: KeyCode, control: bool)

  datatype ChatState = ChatState(
    provider: Provider,
    histories: map<Provider, seq<ChatMessage>>,
    input: string,
    scroll: nat,
    streaming: bool,
    showHelp: bool,
    responses: seq<Result<string>>,
    requests: seq<seq<ApiMessage>>)

  /** Unsigned subtraction that stops at zero (`saturating_sub`). */
  function SatSub(a: nat, b: nat): (d: nat)
    ensures d <= a
    ensures b <= a ==> d + b == a
    ensures a < b ==> d == 0
  {
    if b <= a then a - b else 0
  }

  /** The history of a provider; a provider without an entry has none. */
  function History(s: ChatState, p: Provider): seq<ChatMessage>
  {
    if p in s.histories then s.histories[p] else []
  }

  /** The history of the selected provider. */
  function Current(s: ChatState): seq<ChatMessage>
  {
    History(s, s.provider)
  }

  /** Replace the selected provider's history, creating its entry if it has none. */
  function SetCurrent(s: ChatState, msgs: seq<ChatMessage>): (t: ChatState)
    ensures Current(t) == msgs
    ensures forall p :: p != s.provider ==> History(t, p) == History(s, p)
    ensures s.provider in t.histories
    ensures t == s.(histories := t.histories)
  {
    s.(histories := s.histories[s.provider := msgs])
  }

  /** A notice of the interface, shown as the provider speaking, behind a wrench. */
  function SystemNotice(content: string): ChatMessage
  {
    ChatMessage(Assistant, "\U{1F527} " + content, true)
  }

  /** Append a notice to the selected provider's history; nothing else changes. */
  function AddSystem(s: ChatState, content: string): (t: ChatState)
    ensures Current(t) == Current(s) + [SystemNotice(content)]
    ensures forall p :: p != s.provider ==> History(t, p) == History(s, p)
    ensures t == s.(histories := t.histories)
  {
    SetCurrent(s, Current(s) + [SystemNotice(content)])
  }

  function ToApi(m: ChatMessage): ApiMessage
  {
    ApiMessage(if m.role == User then "user" else "assistant", m.content)
  }

  /** The messages of a history that are sent to the AI client. */
  function Outgoing(h: seq<ChatMessage>): (out: seq<ApiMessage>)
    ensures |out| <= |h|
  {
    if h == [] then []
    else if h[0].isSystem then Outgoing(h[1..])
    else [ToApi(h[0])] + Outgoing(h[1..])
  }

  /** A stored message as loaded: "user" is the user, every other role the assistant. */
  function FromStored(m: StoredMessage): ChatMessage
  {
    ChatMessage(if m.role == "user" then User else Assistant, m.content, false)
  }

  function LoadedHistory(rows: seq<StoredMessage>): seq<ChatMessage>
  {
    seq(|rows|, i requires 0 <= i < |rows| => FromStored(rows[i]))
  }

  /**
   * The histories after reading the providers `ps` in turn from the database
   * `db`; a provider missing from `db` is one whose read failed.
   */
  function LoadedFrom(db: map<Provider, seq<StoredMessage>>, ps: seq<Provider>): map<Provider, seq<ChatMessage>>
  {
    if ps == [] then map[]
    else
      var loaded := LoadedFrom(db, ps[..|ps| - 1]);
      var p := ps[|ps| - 1];
      if p in db then loaded[p := LoadedHistory(db[p])] else loaded
  }

  /** The histories after start-up; `stored` is None when the database could not be opened. */
  function LoadedHistories(stored: Option<map<Provider, seq<StoredMessage>>>): map<Provider, seq<ChatMessage>>
  {
    match stored
    case None => map[]
    case Some(db) => LoadedFrom(db, AllProviders)
  }

  function Initial(provider: Provider, stored: Option<map<Provider, seq<StoredMessage>>>): ChatState
  {
    ChatState(provider, LoadedHistories(stored), "", 0, false, false, [], [])
  }

  /** F2: drop pending responses, stop waiting, select the next provider and announce it. */
  function SwitchProvider(s: ChatState): ChatState
  {
    var next := NextProvider(s.provider);
    AddSystem(s.(responses := [], streaming := false, provider := next, scroll := 0), "Switched to " + ProviderName(next))
  }

  /** Enter with something typed while idle: record the user's message and send the history. */
  function Submit(s: ChatState): ChatState
  {
    var t := SetCurrent(s.(input := []), Current(s) + [ChatMessage(User, s.input, false)]);
    t.(streaming := true, requests := t.requests + [Outgoing(Current(t))])
  }

  /** The state after one key press. */
  function KeyStep(s: ChatState, key: KeyEvent): ChatState
  {
    if key.control then
      if key.code == Char('l') then SetCurrent(s, []).(scroll := 0) else s
    else
      match key.code
      case F(n) =>
        if n == 1 then s.(showHelp := !s.showHelp)
        else if n == 2 then SwitchProvider(s)
        else s
      case Char(c) => s.(input := s.input + [c])
      case Backspace => s.(input := if s.input == [] then [] else s.input[..|s.input| - 1])
      case Enter => if s.input != [] && !s.streaming then Submit(s) else s
      case Up => s.(scroll := SatSub(s.scroll, 1))
      case Down => if s.scroll < SatSub(|Current(s)|, 1) then s.(scroll := s.scroll + 1) else s
      case PageUp => s.(scroll := SatSub(s.scroll, 10))
      case PageDown => s.(scroll := Min(s.scroll + 10, SatSub(|Current(s)|, 1)))
      case Other => s
  }

  /** The state after one tick: take at most one response from the queue. */
  function PollStep(s: ChatState): ChatState
  {
    if s.responses == [] then s
    else
      var t := s.(responses := s.responses[1..], streaming := false);
      match s.responses[0]
      case Ok(response) =>
        var h := Current(t) + [ChatMessage(Assistant, response, false)];
        SetCurrent(t, h).(scroll := |h| - 1)
      case Err(e) => AddSystem(t, "Error: " + e)
  }

  /** The scroll position names a message of the current history, or is 0. */
  ghost predicate ScrollInRange(s: ChatState)
  {
    s.scroll <= SatSub(|Current(s)|, 1)
  }

  lemma KeyStepKeepsScrollInRange(s: ChatState, key: KeyEvent)
    requires ScrollInRange(s)
    ensures ScrollInRange(KeyStep(s, key))
  {
  }

  lemma PollStepKeepsScrollInRange(s: ChatState)
    requires ScrollInRange(s)
    ensures ScrollInRange(PollStep(s))
  {
  }
}
