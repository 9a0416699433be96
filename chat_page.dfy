/**
 * The chat page's state: the transcript, the text in the input field and the
 * colour mode, with the updates that sending a message, receiving streamed
 * text and toggling the mode apply to them.
 */
module ChatPage {
  import opened Results
  import opened Js
  import opened Conversation

  /** The greeting the transcript starts with. */
  const Welcome: Message :=
    Message(Assistant, "Hi! I'm the Rate My Professor support assistant. How can I help you today?")

  /** The transcript after sending `input`: the user's message and an empty assistant reply appended. */
  function WithExchange(messages: seq<Message>, input: string): (r: seq<Message>)
    ensures |r| == |messages| + 2 && r[..|messages|] == messages
    ensures r[|messages|] == Message(User, input) && r[|messages| + 1] == Message(Assistant, "")
  {
    messages + [Message(User, input), Message(Assistant, "")]
  }

  /** The body posted to the route: the transcript before sending, plus the user's message. */
  function RequestBody(messages: seq<Message>, input: string): (r: seq<Message>)
    ensures |r| == |messages| + 1 && r[..|messages|] == messages
    ensures r[|messages|] == Message(User, input)
  {
    messages + [Message(User, input)]
  }

  /** The request body is the new transcript without its empty assistant placeholder. */
  lemma RequestBodyOmitsPlaceholder(messages: seq<Message>, input: string)
    ensures RequestBody(messages, input) == WithExchange(messages, input)[..|messages| + 1]
    ensures WithExchange(messages, input) == RequestBody(messages, input) + [Message(Assistant, "")]
  {
  }

  /** The transcript after one streamed chunk: its text is appended to the last message. */
  function WithChunk(messages: seq<Message>, text: string): (r: seq<Message>)
    requires |messages| > 0
    ensures |r| == |messages|
    ensures forall i | 0 <= i < |messages| - 1 :: r[i] == messages[i]
    ensures r[|r| - 1].role == messages[|messages| - 1].role
    ensures messages[|messages| - 1].content <= r[|r| - 1].content
    ensures r[|r| - 1].content[|messages[|messages| - 1].content|..] == text
  {
    var last := messages[|messages| - 1];
    messages[..|messages| - 1] + [last.(content := last.content + text)]
  }

  /** The transcript after several streamed chunks, applied in arrival order. */
  function WithChunks(messages: seq<Message>, texts: seq<string>): (r: seq<Message>)
    requires |messages| > 0
    ensures |r| == |messages|
    ensures forall i | 0 <= i < |messages| - 1 :: r[i] == messages[i]
    ensures r[|r| - 1].role == messages[|messages| - 1].role
    ensures messages[|messages| - 1].content <= r[|r| - 1].content
    decreases |texts|
  {
    if |texts| == 0 then messages
    else WithChunk(WithChunks(messages, texts[..|texts| - 1]), texts[|texts| - 1])
  }

  /**
   * After a run of chunks, every message but the last is unchanged, and the
   * last keeps its role while its content grows by all chunks in order.
   */
  lemma {:induction false} ChunksAccumulate(messages: seq<Message>, texts: seq<string>)
    requires |messages| > 0
    ensures var r := WithChunks(messages, texts);
            r[..|r| - 1] == messages[..|messages| - 1] &&
            r[|r| - 1] == messages[|messages| - 1].(content := messages[|messages| - 1].content + Concat(texts))
    decreases |texts|
  {
    var last := messages[|messages| - 1];
    if |texts| == 0 {
      assert last.content + "" == last.content;
    } else {
      var init := texts[..|texts| - 1];
      ChunksAccumulate(messages, init);
      var before := WithChunks(messages, init);
      var r := WithChunk(before, texts[|texts| - 1]);
      assert r[..|r| - 1] == before[..|before| - 1];
      assert (last.content + Concat(init)) + texts[|texts| - 1] == last.content + Concat(texts);
    }
  }

  /** The streamed reply fills the empty assistant message that sending appended, and nothing else changes. */
  lemma ReplyFillsPlaceholder(messages: seq<Message>, input: string, texts: seq<string>)
    ensures WithChunks(WithExchange(messages, input), texts)
         == messages + [Message(User, input), Message(Assistant, Concat(texts))]
  {
    var sent := WithExchange(messages, input);
    ChunksAccumulate(sent, texts);
    var r := WithChunks(sent, texts);
    assert sent[..|sent| - 1] == messages + [Message(User, input)];
    assert sent[|sent| - 1] == Message(Assistant, "");
    assert "" + Concat(texts) == Concat(texts);
    assert r == r[..|r| - 1] + [r[|r| - 1]];
  }

  /** How the stream was cut into chunks does not matter, only the text they carry. */
  lemma ChunkingIrrelevant(messages: seq<Message>, a: seq<string>, b: seq<string>)
    requires |messages| > 0 && Concat(a) == Concat(b)
    ensures WithChunks(messages, a) == WithChunks(messages, b)
  {
    ChunksAccumulate(messages, a);
    ChunksAccumulate(messages, b);
    var ra, rb := WithChunks(messages, a), WithChunks(messages, b);
    assert ra == ra[..|ra| - 1] + [ra[|ra| - 1]];
    assert rb == rb[..|rb| - 1] + [rb[|rb| - 1]];
  }

  /** The other colour mode: 'light' becomes 'dark', anything else becomes 'light'. */
  function Toggled(mode: string): (r: string)
    ensures r == "light" || r == "dark"
    ensures r == "dark" <==> mode == "light"
  {
    if mode == "light" then "dark" else "light"
  }

  /** On the two modes the page uses, toggling twice returns to the start. */
  lemma ToggleInvolution(mode: string)
    requires mode == "light" || mode == "dark"
    ensures Toggled(Toggled(mode)) == mode && Toggled(mode) != mode
  {
  }

  /**
   * The Send button is enabled when the trimmed input is non-empty, that is,
   * when some character of the input is not white space.
   */
  predicate SendEnabled(input: string)
    ensures SendEnabled(input) <==> exists i | 0 <= i < |input| :: !IsSpace(input[i])
  {
    Trim(input) != ""
  }

  /** A key press sends the message when it is Enter without Shift; Shift+Enter never sends. */
  predicate SendsOnKey(key: string, shiftKey: bool)
    ensures SendsOnKey(key, shiftKey) ==> key == "Enter"
    ensures shiftKey ==> !SendsOnKey(key, shiftKey)
    ensures key == "Enter" && !shiftKey ==> SendsOnKey(key, shiftKey)
  {
    key == "Enter" && !shiftKey
  }

  /**
   * Enter sends whatever is in the field, even when the Send button is
   * disabled because the field holds only white space: typing a space and
   * pressing Enter posts a message whose text is that space.
   */
  method EnterSendsBlankInput() returns (enabled: bool, body: Option<seq<Message>>)
    ensures !enabled
    ensures body == Some([Welcome, Message(User, " ")])
  {
    var page := new Home();
    page.SetMessage(" ");
    enabled := SendEnabled(page.message);
    assert forall i | 0 <= i < |page.message| :: IsSpace(page.message[i]) by {
      assert page.message == [' '];
    }
    assert page.messages == [Welcome] && SendsOnKey("Enter", false);
    body := page.HandleKeyPress("Enter", false);
    assert body.value == RequestBody([Welcome], " ") == [Welcome] + [Message(User, " ")];
    assert body.value == [Welcome, Message(User, " ")];
  }

  /**
   * Enter without Shift sends from any state, including one in which the
   * Send button is disabled because the field holds only white space.
   */
  method EnterBypassesSendButton(page: Home) returns (body: Option<seq<Message>>)
    requires page.Valid() && !SendEnabled(page.message)
    modifies page
    ensures page.Valid()
    ensures body == Some(RequestBody(old(page.messages), old(page.message)))
    ensures page.messages == WithExchange(old(page.messages), old(page.message)) && page.message == ""
  {
    body := page.HandleKeyPress("Enter", false);
  }

  /** The page's state: the transcript, the input field and the colour mode. */
  class Home {
    var messages: seq<Message>
    var message: string
    var mode: string

    /** The transcript is never empty: it starts with the greeting and only grows. */
    ghost predicate Valid()
      reads this
    {
      |messages| > 0
    }

    /** The initial state: the greeting, an empty input field and light mode. */
    constructor ()
      ensures Valid()
      ensures messages == [Welcome] && message == "" && mode == "light"
    {
      messages := [Welcome];
      message := "";
      mode := "light";
    }

    /** Typing into the field replaces its text. */
    method SetMessage(text: string)
      requires Valid()
      modifies this
      ensures Valid()
      ensures message == text && messages == old(messages) && mode == old(mode)
    {
      message := text;
    }

    /**
     * Sends the input: appends the user's message and an empty assistant
     * reply, clears the field, and returns the body posted to the route.
     */
    method SendMessage() returns (body: seq<Message>)
      requires Valid()
      modifies this
      ensures Valid()
      ensures messages == WithExchange(old(messages), old(message))
      ensures message == "" && mode == old(mode)
      ensures body == RequestBody(old(messages), old(message))
    {
      body := RequestBody(messages, message);
      messages := WithExchange(messages, message);
      message := "";
    }

    /** Appends one decoded chunk of the reply to the last message. */
    method ReceiveChunk(text: string)
      requires Valid()
      modifies this
      ensures Valid()
      ensures messages == WithChunk(old(messages), text)
      ensures message == old(message) && mode == old(mode)
    {
      messages := WithChunk(messages, text);
    }

    /** Reads the reply chunk by chunk until the stream is done, appending each as it arrives. */
    method ReceiveReply(texts: seq<string>)
      requires Valid()
      modifies this
      ensures Valid()
      ensures messages == WithChunks(old(messages), texts)
      ensures message == old(message) && mode == old(mode)
    {
      for i := 0 to |texts|
        invariant Valid()
        invariant messages == WithChunks(old(messages), texts[..i])
        invariant message == old(message) && mode == old(mode)
      {
        assert texts[..i + 1][..i] == texts[..i];
        ReceiveChunk(texts[i]);
      }
      assert texts[..|texts|] == texts;
    }

    /** Handles a key press in the field: Enter without Shift sends, every other key does nothing. */
    method HandleKeyPress(key: string, shiftKey: bool) returns (body: Option<seq<Message>>)
      requires Valid()
      modifies this
      ensures Valid()
      ensures body.Some? <==> SendsOnKey(key, shiftKey)
      ensures body.Some? ==> messages == WithExchange(old(messages), old(message)) && message == ""
                             && body.value == RequestBody(old(messages), old(message))
      ensures body.None? ==> messages == old(messages) && message == old(message)
      ensures mode == old(mode)
    {
      if SendsOnKey(key, shiftKey) {
        var sent := SendMessage();
        body := Some(sent);
      } else {
        body := None;
      }
    }

    /** Switches between light and dark mode. */
    method ToggleMode()
      requires Valid()
      modifies this
      ensures Valid()
      ensures mode == Toggled(old(mode))
      ensures messages == old(messages) && message == old(message)
    {
      mode := Toggled(mode);
    }
  }
}
