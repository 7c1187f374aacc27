/** The in-memory side of the chat session store
    (`ai_agent/handlers/session_manager.py`). Reading and writing the
    session file are outside the model: what a load produced is an input. */
module Session {
  import opened Wrappers

  /** One recorded exchange. The timestamp, `datetime.now().isoformat()`, is
      given by the caller. */
  datatype Entry = Entry(timestamp: string, user: string, response: string, agent: string)

  /** A chat message as the Gemini client takes it. */
  datatype Message = Message(role: string, parts: seq<string>)

  datatype SessionManager = SessionManager(sessionFile: string, history: seq<Entry>)

  /** `SessionManager(session_file)` after `load_history()`: `stored` is the
      decoded file, or `None` when it is missing or could not be read. */
  function Open(sessionFile: string, stored: Option<seq<Entry>>): (m: SessionManager)
    ensures m.sessionFile == sessionFile
    ensures m.history == stored.GetOr([])
    ensures stored.None? ==> m.history == []
  {
    SessionManager(sessionFile, if stored.Some? then stored.value else [])
  }

  /** `add_interaction(user_input, agent_response, agent_name)`, in memory. */
  function AddInteraction(m: SessionManager, timestamp: string, user: string, response: string,
                          agent: string := "unknown"): (r: SessionManager)
    ensures |r.history| == |m.history| + 1
    ensures r.history[..|m.history|] == m.history
    ensures r.history[|m.history|] == Entry(timestamp, user, response, agent)
    ensures r.sessionFile == m.sessionFile
  {
    m.(history := m.history + [Entry(timestamp, user, response, agent)])
  }

  /** `clear_history()`, in memory. */
  function ClearHistory(m: SessionManager): (r: SessionManager)
    ensures r.history == [] && r.sessionFile == m.sessionFile
  {
    m.(history := [])
  }

  /** The two messages an entry becomes. */
  function Exchange(e: Entry): seq<Message> {
    [Message("user", [e.user]), Message("model", [e.response])]
  }

  /** The reference conversion: every entry, in order, becomes a user
      message followed by a model message. */
  function Context(history: seq<Entry>): (msgs: seq<Message>)
    ensures |msgs| == 2 * |history|
    ensures forall i | 0 <= i < |history| ::
              && msgs[2 * i] == Message("user", [history[i].user])
              && msgs[2 * i + 1] == Message("model", [history[i].response])
    decreases |history|
  {
    if |history| == 0 then []
    else
      var n := |history| - 1;
      var init := Context(history[..n]);
      assert forall i | 0 <= i < n :: history[..n][i] == history[i];
      init + Exchange(history[n])
  }

  /** `get_context_for_gemini()` */
  method ContextForGemini(m: SessionManager) returns (msgs: seq<Message>)
    ensures msgs == Context(m.history)
  {
    msgs := [];
    var i := 0;
    while i < |m.history|
      invariant 0 <= i <= |m.history|
      invariant msgs == Context(m.history[..i])
    {
      var entry := m.history[i];
      assert m.history[..i + 1][..i] == m.history[..i];
      msgs := msgs + [Message("user", [entry.user])];
      msgs := msgs + [Message("model", [entry.response])];
      i := i + 1;
    }
    assert m.history[..i] == m.history;
  }

  /** Recording an exchange adds exactly its two messages to the context. */
  lemma ContextAfterAdd(m: SessionManager, timestamp: string, user: string, response: string, agent: string)
    ensures Context(AddInteraction(m, timestamp, user, response, agent).history)
            == Context(m.history) + [Message("user", [user]), Message("model", [response])]
  {
    var h := AddInteraction(m, timestamp, user, response, agent).history;
    assert h[..|m.history|] == m.history;
  }

  /** After clearing, the context is empty. */
  lemma ContextAfterClear(m: SessionManager)
    ensures Context(ClearHistory(m).history) == []
  {
  }
}
