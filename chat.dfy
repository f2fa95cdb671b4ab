/**
 * `ChatInterface`: the chat front end's mutable state and the methods that
 * change it in place. Each method is proved to move the state exactly as the
 * step functions of `ChatModel` say, and to keep the scroll position in range.
 */
module Chat {
  import opened Wrappers
  import opened Numeric
  import opened ChatModel

  /** Updating the right operand of a map union updates the union. */
  lemma UnionUpdate<K, V>(m: map<K, V>, n: map<K, V>, k: K, v: V)
    ensures m + n[k := v] == (m + n)[k := v]
  {
  }

  class ChatInterface {
    var provider: Provider
    var messagesPerProvider: map<Provider, seq<ChatMessage>>
    var inputBuffer: string
    var scrollOffset: nat
    var isStreaming: bool
    var showHelp: bool
    /** Responses the AI client has delivered that `Update` has not yet taken, oldest first. */
    var responses: seq<Result<string>>
    /** Every message list handed to the AI client, oldest first. */
    var requests: seq<seq<ApiMessage>>

    /** The whole state as a value. */
    function State(): ChatState
      reads this
    {
      ChatState(provider, messagesPerProvider, inputBuffer, scrollOffset, isStreaming, showHelp, responses, requests)
    }

    ghost predicate Valid()
      reads this
    {
      ScrollInRange(State())
    }

    /**
     * A new interface for `provider`, with the histories read from the
     * database; `stored` is None when the database could not be opened.
     */
    constructor (provider: Provider, stored: Option<map<Provider, seq<StoredMessage>>>)
      ensures State() == Initial(provider, stored)
      ensures Valid()
    {
      this.provider := provider;
      messagesPerProvider := map[];
      inputBuffer := "";
      scrollOffset := 0;
      isStreaming := false;
      showHelp := false;
      responses := [];
      requests := [];
      new;
      LoadAllHistories(stored);
    }

    /** Store the loaded history of every provider the database could read. */
    method LoadAllHistories(stored: Option<map<Provider, seq<StoredMessage>>>)
      modifies this`messagesPerProvider
      ensures messagesPerProvider == old(messagesPerProvider) + LoadedHistories(stored)
    {
      match stored {
        case None =>
          assert old(messagesPerProvider) + map[] == old(messagesPerProvider);
        case Some(db) =>
          var providers := AllProviders;
          for k := 0 to |providers|
            invariant messagesPerProvider == old(messagesPerProvider) + LoadedFrom(db, providers[..k])
          {
            var p := providers[k];
            assert providers[..k + 1][..k] == providers[..k];
            if p in db {
              var messages := LoadHistory(db[p]);
              UnionUpdate(old(messagesPerProvider), LoadedFrom(db, providers[..k]), p, messages);
              messagesPerProvider := messagesPerProvider[p := messages];
            }
          }
          assert providers[..|providers|] == AllProviders;
      }
    }

    /** Convert one provider's stored rows, in order. */
    static method LoadHistory(rows: seq<StoredMessage>) returns (messages: seq<ChatMessage>)
      ensures messages == LoadedHistory(rows)
    {
      messages := [];
      for i := 0 to |rows|
        invariant messages == LoadedHistory(rows[..i])
      {
        var role := if rows[i].role == "user" then User else Assistant;
        messages := messages + [ChatMessage(role, rows[i].content, false)];
        assert rows[..i + 1] == rows[..i] + [rows[i]];
      }
      assert rows[..|rows|] == rows;
    }

    /** A copy of the selected provider's history, empty when it has none. */
    method GetCurrentMessages() returns (msgs: seq<ChatMessage>)
      ensures msgs == Current(State())
    {
      msgs := if provider in messagesPerProvider then messagesPerProvider[provider] else [];
    }

    /** Append a notice of the interface to the selected provider's history. */
    method AddSystemMessage(content: string)
      modifies this`messagesPerProvider
      ensures State() == AddSystem(old(State()), content)
    {
      var messages := GetCurrentMessages();
      messagesPerProvider := messagesPerProvider[provider := messages + [SystemNotice(content)]];
    }

    /** Hand the selected provider's history, notices removed, to the AI client. */
    method SendMessage(content: string)
      modifies this`requests
      ensures requests == old(requests) + [Outgoing(Current(State()))]
    {
      var current := GetCurrentMessages();
      requests := requests + [Outgoing(current)];
    }

    /** The AI client's task finishing: its result is queued for `Update`. */
    method Deliver(result: Result<string>)
      modifies this`responses
      ensures responses == old(responses) + [result]
    {
      responses := responses + [result];
    }

    /** F2: drain the pending responses, then select and announce the next provider. */
    method SwitchToNextProvider()
      modifies this
      ensures State() == SwitchProvider(old(State()))
    {
      while responses != []
        invariant State() == old(State()).(responses := responses)
        decreases |responses|
      {
        responses := responses[1..];
      }
      isStreaming := false;
      provider := NextProvider(provider);
      scrollOffset := 0;
      AddSystemMessage("Switched to " + ProviderName(provider));
    }

    /** Enter while idle with something typed: record the message and send the history. */
    method SubmitInput()
      requires inputBuffer != [] && !isStreaming
      modifies this
      ensures State() == Submit(old(State()))
    {
      var userInput := inputBuffer;
      inputBuffer := "";
      var messages := GetCurrentMessages();
      messagesPerProvider := messagesPerProvider[provider := messages + [ChatMessage(User, userInput, false)]];
      isStreaming := true;
      SendMessage(userInput);
    }

    /** One key press: Control chords, then the function keys, typing and scrolling. */
    method HandleKey(key: KeyEvent)
      requires Valid()
      modifies this
      ensures State() == KeyStep(old(State()), key)
      ensures Valid()
    {
      KeyStepKeepsScrollInRange(State(), key);
      if key.control {
        if key.code == Char('l') {
          messagesPerProvider := messagesPerProvider[provider := []];
          scrollOffset := 0;
        }
      } else if key.code.Up? || key.code.Down? || key.code.PageUp? || key.code.PageDown? {
        ScrollKey(key);
      } else {
        EditKey(key);
      }
    }

    /** The function keys, typing, Backspace and Enter. */
    method EditKey(key: KeyEvent)
      requires !key.control && !(key.code.Up? || key.code.Down? || key.code.PageUp? || key.code.PageDown?)
      modifies this
      ensures State() == KeyStep(old(State()), key)
    {
      match key.code {
        case F(n) =>
          if n == 1 {
            showHelp := !showHelp;
          } else if n == 2 {
            SwitchToNextProvider();
          }
        case Char(c) =>
          inputBuffer := inputBuffer + [c];
        case Backspace =>
          if inputBuffer != [] {
            inputBuffer := inputBuffer[..|inputBuffer| - 1];
          }
        case Enter =>
          if inputBuffer != [] && !isStreaming {
            SubmitInput();
          }
        case Other =>
      }
    }

    /** The arrow and page keys move the scroll position, saturating at both ends. */
    method ScrollKey(key: KeyEvent)
      requires !key.control && (key.code.Up? || key.code.Down? || key.code.PageUp? || key.code.PageDown?)
      modifies this`scrollOffset
      ensures State() == KeyStep(old(State()), key)
    {
      match key.code {
        case Up =>
          scrollOffset := SatSub(scrollOffset, 1);
        case Down =>
          var messages := GetCurrentMessages();
          if scrollOffset < SatSub(|messages|, 1) {
            scrollOffset := scrollOffset + 1;
          }
        case PageUp =>
          scrollOffset := SatSub(scrollOffset, 10);
        case PageDown =>
          var messages := GetCurrentMessages();
          scrollOffset := Min(scrollOffset + 10, SatSub(|messages|, 1));
      }
    }

    /** Take at most one delivered response and show it. */
    method Update()
      requires Valid()
      modifies this
      ensures State() == PollStep(old(State()))
      ensures Valid()
    {
      PollStepKeepsScrollInRange(State());
      if responses != [] {
        var result := responses[0];
        responses := responses[1..];
        isStreaming := false;
        match result {
          case Ok(response) =>
            var messages := GetCurrentMessages();
            messages := messages + [ChatMessage(Assistant, response, false)];
            messagesPerProvider := messagesPerProvider[provider := messages];
            scrollOffset := SatSub(|messages|, 1);
          case Err(e) =>
            AddSystemMessage("Error: " + e);
        }
      }
    }
  }
}
