/** What the chat front end's key presses and ticks promise, proved of the step functions. */
module ChatProperties {
  import opened Wrappers
  import opened ChatModel

  function Press(code: KeyCode): KeyEvent
  {
    KeyEvent(code, false)
  }

  /* Editing the input line */

  /** Typing a character and deleting it again restores the state. */
  lemma TypeThenDelete(s: ChatState, c: char)
    ensures KeyStep(s, Press(Char(c))).input == s.input + [c]
    ensures KeyStep(KeyStep(s, Press(Char(c))), Press(Backspace)) == s
  {
    var t := KeyStep(s, Press(Char(c)));
    assert t.input[..|t.input| - 1] == s.input;
  }

  /** Backspace removes the last character, and nothing on an empty line. */
  lemma BackspaceDropsLast(s: ChatState)
    ensures s.input == [] ==> KeyStep(s, Press(Backspace)) == s
    ensures s.input != [] ==>
      var t := KeyStep(s, Press(Backspace));
      t.input + [s.input[|s.input| - 1]] == s.input && t == s.(input := t.input)
  {
  }

  /* Control chords */

  /** Every Control chord but Ctrl+L is ignored. */
  lemma OtherChordsIgnored(s: ChatState, code: KeyCode)
    requires code != Char('l')
    ensures KeyStep(s, KeyEvent(code, true)) == s
  {
  }

  /** Ctrl+L empties the selected provider's history, scrolls to the top and touches nothing else. */
  lemma ClearOnlyCurrent(s: ChatState)
    ensures var t := KeyStep(s, KeyEvent(Char('l'), true));
      && Current(t) == []
      && t.scroll == 0
      && (forall p :: p != s.provider ==> History(t, p) == History(s, p))
      && t.(histories := s.histories, scroll := s.scroll) == s
  {
  }

  /* Help and provider switching */

  /** F1 toggles the help screen, so pressing it twice changes nothing. */
  lemma HelpTwiceIsIdentity(s: ChatState)
    ensures KeyStep(s, Press(F(1))).showHelp == !s.showHelp
    ensures KeyStep(KeyStep(s, Press(F(1))), Press(F(1))) == s
  {
  }

  /** The provider cycle has period exactly four. */
  lemma ProviderCycle(p: Provider)
    ensures NextProvider(NextProvider(NextProvider(NextProvider(p)))) == p
    ensures NextProvider(NextProvider(p)) != p
    ensures NextProvider(NextProvider(NextProvider(p))) != p
  {
  }

  /**
   * F2 selects the next provider, stops waiting, drops the pending responses,
   * scrolls to the top and appends one notice to the new provider's history.
   */
  lemma SwitchEffect(s: ChatState)
    ensures var t := KeyStep(s, Press(F(2)));
      && t.provider == NextProvider(s.provider)
      && !t.streaming
      && t.responses == []
      && t.scroll == 0
      && Current(t) == History(s, t.provider) + [SystemNotice("Switched to " + ProviderName(t.provider))]
      && (forall p :: p != t.provider ==> History(t, p) == History(s, p))
      && t.input == s.input && t.showHelp == s.showHelp && t.requests == s.requests
  {
  }

  function SwitchFourTimes(s: ChatState): ChatState
  {
    KeyStep(KeyStep(KeyStep(KeyStep(s, Press(F(2))), Press(F(2))), Press(F(2))), Press(F(2)))
  }

  /**
   * Four presses of F2 come back to the same provider with every history kept,
   * each provider's history longer by exactly its own "Switched to" notice.
   */
  lemma FourSwitchesReturn(s: ChatState)
    ensures var t := SwitchFourTimes(s);
      && t.provider == s.provider
      && (forall p :: History(t, p) == History(s, p) + [SystemNotice("Switched to " + ProviderName(p))])
      && t.scroll == 0 && !t.streaming && t.responses == []
      && t.input == s.input && t.requests == s.requests
  {
    var s1 := KeyStep(s, Press(F(2)));
    var s2 := KeyStep(s1, Press(F(2)));
    var s3 := KeyStep(s2, Press(F(2)));
    var s4 := KeyStep(s3, Press(F(2)));
    SwitchEffect(s);
    SwitchEffect(s1);
    SwitchEffect(s2);
    SwitchEffect(s3);
    ProviderCycle(s.provider);
    forall p
      ensures History(s4, p) == History(s, p) + [SystemNotice("Switched to " + ProviderName(p))]
    {
      if p == s1.provider {
      } else if p == s2.provider {
      } else if p == s3.provider {
      } else {
        assert p == s4.provider by {
          match s.provider
          case Claude =>
          case Grok =>
          case OpenAI =>
          case Gemini =>
        }
      }
    }
  }

  /* Sending */

  /** Enter does something exactly when the line is not empty and no reply is awaited. */
  lemma EnterActsIff(s: ChatState)
    ensures KeyStep(s, Press(Enter)) != s <==> s.input != [] && !s.streaming
  {
  }

  /**
   * Enter while idle with a message typed: the message joins the history as
   * the user's, the line is cleared, a reply is awaited, and the request sent
   * is the earlier conversation without notices followed by the new message.
   */
  lemma SubmitEffect(s: ChatState)
    requires s.input != [] && !s.streaming
    ensures var t := KeyStep(s, Press(Enter));
      && Current(t) == Current(s) + [ChatMessage(User, s.input, false)]
      && t.input == []
      && t.streaming
      && t.requests == s.requests + [Outgoing(Current(s)) + [ApiMessage("user", s.input)]]
      && (forall p :: p != s.provider ==> History(t, p) == History(s, p))
      && t.provider == s.provider && t.scroll == s.scroll && t.responses == s.responses
  {
    var m := ChatMessage(User, s.input, false);
    OutgoingAppend(Current(s), [m]);
    assert [m][1..] == [];
    assert Outgoing([m]) == [ApiMessage("user", s.input)];
  }

  /* Scrolling */

  /** Up and PageUp move towards the top and stop there. */
  lemma ScrollUpSaturates(s: ChatState)
    ensures KeyStep(s, Press(Up)).scroll == if s.scroll >= 1 then s.scroll - 1 else 0
    ensures KeyStep(s, Press(PageUp)).scroll == if s.scroll >= 10 then s.scroll - 10 else 0
    ensures KeyStep(s, Press(Up)) == s.(scroll := KeyStep(s, Press(Up)).scroll)
    ensures KeyStep(s, Press(PageUp)) == s.(scroll := KeyStep(s, Press(PageUp)).scroll)
  {
  }

  /** Down moves one message further only while a later message exists. */
  lemma ScrollDownIff(s: ChatState)
    ensures KeyStep(s, Press(Down)).scroll == s.scroll + 1 <==> s.scroll + 1 < |Current(s)|
    ensures s.scroll + 1 >= |Current(s)| ==> KeyStep(s, Press(Down)) == s
  {
  }

  /** PageDown moves ten messages further but never past the last message. */
  lemma PageDownClamps(s: ChatState)
    requires ScrollInRange(s)
    ensures var t := KeyStep(s, Press(PageDown));
      && s.scroll <= t.scroll <= s.scroll + 10
      && (t.scroll == s.scroll + 10 || t.scroll == SatSub(|Current(s)|, 1))
      && ScrollInRange(t)
  {
  }

  /* Responses */

  /** A tick with no delivered response changes nothing. */
  lemma PollEmpty(s: ChatState)
    requires s.responses == []
    ensures PollStep(s) == s
  {
  }

  /** A reply joins the history as the assistant's and the view scrolls to it. */
  lemma PollOk(s: ChatState, reply: string, rest: seq<Result<string>>)
    requires s.responses == [Ok(reply)] + rest
    ensures var t := PollStep(s);
      && Current(t) == Current(s) + [ChatMessage(Assistant, reply, false)]
      && t.scroll + 1 == |Current(t)|
      && !t.streaming
      && t.responses == rest
      && (forall p :: p != s.provider ==> History(t, p) == History(s, p))
  {
  }

  /** A failed request shows its error as a notice and leaves the view where it was. */
  lemma PollErr(s: ChatState, e: string, rest: seq<Result<string>>)
    requires s.responses == [Err(e)] + rest
    ensures var t := PollStep(s);
      && Current(t) == Current(s) + [ChatMessage(Assistant, "\U{1F527} Error: " + e, true)]
      && t.scroll == s.scroll
      && !t.streaming
      && t.responses == rest
      && (forall p :: p != s.provider ==> History(t, p) == History(s, p))
  {
    assert "\U{1F527} " + ("Error: " + e) == "\U{1F527} Error: " + e;
  }

  /**
   * F2 only drops the responses already delivered: a reply to a request sent
   * before the switch that arrives after it lands in the new provider's history.
   */
  lemma LateReplyJoinsNewProvider(s: ChatState, reply: string)
    ensures var t := KeyStep(s, Press(F(2)));
      var u := PollStep(t.(responses := [Ok(reply)]));
      && u.provider == NextProvider(s.provider)
      && Current(u) == Current(t) + [ChatMessage(Assistant, reply, false)]
      && History(u, s.provider) == History(s, s.provider)
  {
  }

  /* The outgoing request */

  /** Building the request distributes over concatenation of histories. */
  lemma {:induction false} OutgoingAppend(a: seq<ChatMessage>, b: seq<ChatMessage>)
    ensures Outgoing(a + b) == Outgoing(a) + Outgoing(b)
  {
    if a == [] {
      assert a + b == b;
    } else {
      assert (a + b)[1..] == a[1..] + b;
      OutgoingAppend(a[1..], b);
    }
  }

  /** Without notices, the request is the history message by message, in order. */
  lemma {:induction false} OutgoingWithoutNotices(h: seq<ChatMessage>)
    requires forall i :: 0 <= i < |h| ==> !h[i].isSystem
    ensures |Outgoing(h)| == |h|
    ensures forall i :: 0 <= i < |h| ==> Outgoing(h)[i] == ToApi(h[i])
  {
    if h != [] {
      OutgoingWithoutNotices(h[1..]);
    }
  }

  /** Notices are never sent. */
  lemma {:induction false} OutgoingDropsNotices(h: seq<ChatMessage>)
    requires forall i :: 0 <= i < |h| ==> h[i].isSystem
    ensures Outgoing(h) == []
  {
    if h != [] {
      OutgoingDropsNotices(h[1..]);
    }
  }

  /** Adding a notice to a history does not change what is sent for it. */
  lemma NoticeNotSent(h: seq<ChatMessage>, content: string)
    ensures Outgoing(h + [SystemNotice(content)]) == Outgoing(h)
  {
    OutgoingAppend(h, [SystemNotice(content)]);
  }

  /* Loading stored histories */

  /** A loaded message is the user's exactly when its stored role is "user"; none is a notice. */
  lemma LoadedRoles(rows: seq<StoredMessage>)
    ensures |LoadedHistory(rows)| == |rows|
    ensures forall i :: 0 <= i < |rows| ==>
      && (LoadedHistory(rows)[i].role == User <==> rows[i].role == "user")
      && LoadedHistory(rows)[i].content == rows[i].content
      && !LoadedHistory(rows)[i].isSystem
  {
  }

  /** Stored conversations whose roles are "user" and "assistant" are sent back as stored. */
  lemma StoredRoundTrip(rows: seq<StoredMessage>)
    requires forall i :: 0 <= i < |rows| ==> rows[i].role == "user" || rows[i].role == "assistant"
    ensures Outgoing(LoadedHistory(rows)) == seq(|rows|, i requires 0 <= i < |rows| => ApiMessage(rows[i].role, rows[i].content))
  {
    OutgoingWithoutNotices(LoadedHistory(rows));
  }

  /** Reading the providers `ps` in turn loads exactly those of them the database could read. */
  lemma {:induction false} LoadedFromKeys(db: map<Provider, seq<StoredMessage>>, ps: seq<Provider>)
    ensures forall p :: p in LoadedFrom(db, ps) <==> p in db && p in ps
    ensures forall p :: p in LoadedFrom(db, ps) ==> LoadedFrom(db, ps)[p] == LoadedHistory(db[p])
  {
    if ps != [] {
      var init := ps[..|ps| - 1];
      LoadedFromKeys(db, init);
      assert ps == init + [ps[|ps| - 1]];
    }
  }

  /** Start-up gives every provider the database could read its stored history, converted. */
  lemma StartupHistories(provider: Provider, db: map<Provider, seq<StoredMessage>>)
    ensures var s := Initial(provider, Some(db));
      forall p :: History(s, p) == if p in db then LoadedHistory(db[p]) else []
    ensures ScrollInRange(Initial(provider, Some(db)))
  {
    LoadedFromKeys(db, AllProviders);
    AllProvidersComplete();
  }

  /** Without a database every history starts empty. */
  lemma StartupWithoutDatabase(provider: Provider)
    ensures forall p :: History(Initial(provider, None), p) == []
  {
  }
}
