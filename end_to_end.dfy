/**
 * How the page and the route fit together: the question the route answers is
 * the text the user sent, and the streamed reply ends up, whole and in order,
 * in the assistant message the page appended when sending.
 */
module EndToEnd {
  import opened Results
  import opened Js
  import opened Conversation
  import PromptBlock
  import ChatRoute
  import StreamRelay
  import ChatPage

  /**
   * The route reads the user's new message as its question, and the
   * completion it builds is the one a conversation of that message alone
   * would give: earlier turns of the posted transcript do not reach it.
   */
  lemma RouteAnswersSentMessage(messages: seq<Message>, input: string, ranked: seq<PromptBlock.RankedMatch>)
    ensures ChatRoute.QueryText(ChatPage.RequestBody(messages, input)) == Ok(input)
    ensures ChatRoute.CompletionMessages(ChatPage.RequestBody(messages, input), ranked)
         == ChatRoute.CompletionMessages([Message(User, input)], ranked)
  {
    ChatRoute.EarlierTurnsNotForwarded(messages, [Message(User, input)], ranked);
  }

  /**
   * Whatever way the transport re-cuts the relayed texts, once they have all
   * been received the transcript is the one before sending, the user's
   * message, and an assistant message holding every chunk's text in order.
   */
  lemma ReplyReachesTranscript(messages: seq<Message>, input: string, chunks: seq<StreamRelay.Chunk>, received: seq<string>)
    requires Concat(received) == Concat(StreamRelay.Forwarded(chunks))
    ensures ChatPage.WithChunks(ChatPage.WithExchange(messages, input), received)
         == messages + [Message(User, input), Message(Assistant, Concat(StreamRelay.AllTexts(chunks)))]
  {
    StreamRelay.ForwardedKeepsAllText(chunks);
    ChatPage.ReplyFillsPlaceholder(messages, input, received);
  }
}
