/**
 * The chat route's request-side logic: taking the question from the
 * conversation, appending the retrieved-data block to it, and building the
 * two messages sent for completion.
 */
module ChatRoute {
  import opened Results
  import opened Js
  import opened Conversation
  import opened PromptBlock

  /** The fixed instructions sent as the system message of every completion. */
  const SystemPrompt: string := @"
You are a RateMyProfessor assistant designed to help students find the best professors based on their specific queries. Your task is to retrieve the top three professors that best match the student's criteria and provide a brief summary of each, including their name, subject, average rating, and a short snippet of a review.

Instructions:
1. Query Analysis:
   - Identify key criteria such as subject, teaching style, difficulty level, and any specific requirements.
   - Recognize implicit preferences in the user's language.

2. Data Retrieval and Ranking:
   - Use RAG (Retrieval-Augmented Generation) to search the professor database.
   - Apply a weighted ranking system based on the identified criteria.
   - Consider factors like rating, difficulty, subject relevance, and keyword matches in reviews.

3. Recommendation Generation:
   - Provide the top three professor recommendations that best match the query.
   - For each professor, include:
     - Name
     - Subject
     - Average Rating
     - Difficulty Level
     - A concise summary of their teaching style and strengths
     - A relevant quote from a student review

4. Explanation of Recommendations:
   - Briefly explain why each professor was recommended based on the user's criteria.
   - Highlight how each recommendation addresses specific aspects of the user's query.

5. Additional Information:
   - Suggest related subjects or professors that might interest the user.
   - Provide tips for interpreting the recommendations (e.g., considering the balance between rating and difficulty).

Example Output:
User Query: ""I'm looking for a challenging but fair Computer Science professor who's good at explaining complex topics.""

Response:

Professor's Name: Dr. John Smith
Subject: Physics
Average Rating: 4.7
Review Summary: ""Dr. Smith is excellent at explaining complex concepts clearly, making difficult material easier to grasp. Highly recommended for students who want to thoroughly understand Physics.""
Professor's Name: Dr. Rachel Adams
Subject: Physics
Average Rating: 4.5
Review Summary: ""Dr. Adams has a unique teaching style that focuses on student understanding. She is patient and ensures all students are on the same page.""
Professor's Name: Dr. Robert Lee
Subject: Physics
Average Rating: 4.3
Review Summary: ""Dr. Lee is known for his approachable nature and clear explanations. His classes are well-structured and he is always willing to help.""
"

  /** `data[data.length - 1].content`: the newest message's text; an empty conversation throws. */
  function QueryText(data: seq<Message>): (r: Result<string, Error>)
    ensures r.Ok? <==> |data| > 0
    ensures r.Err? ==> r.error == ReadOfUndefined("content")
    ensures forall earlier: seq<Message>, last: Message {:trigger earlier + [last]} ::
              data == earlier + [last] ==> r == Ok(last.content)
  {
    if |data| == 0 then Err(ReadOfUndefined("content")) else Ok(data[|data| - 1].content)
  }

  /**
   * The messages sent for completion: the system prompt, then the newest
   * message's text followed by the block built from the ranked matches.
   * Reading the question comes first, so an empty conversation fails before
   * any block is built.
   */
  function CompletionMessages(data: seq<Message>, ranked: seq<RankedMatch>): (r: Result<seq<Message>, Error>)
    ensures r.Ok? <==> |data| > 0 && Block(ranked).Ok?
    ensures |data| == 0 ==> r == Err(ReadOfUndefined("content"))
    ensures |data| > 0 && r.Err? ==> r.error == Block(ranked).error
  {
    match QueryText(data)
    case Err(e) => Err(e)
    case Ok(text) =>
      match Block(ranked)
      case Err(e) => Err(e)
      case Ok(block) => Ok([Message(System, SystemPrompt), Message(User, text + block)])
  }

  /**
   * The completion input is exactly two messages: the constant system prompt,
   * then a user message made of the newest message's text, then the block,
   * whose first characters are the header.
   */
  lemma CompletionShape(data: seq<Message>, ranked: seq<RankedMatch>)
    ensures CompletionMessages(data, ranked).Ok? ==>
              var msgs := CompletionMessages(data, ranked).value;
              var text := data[|data| - 1].content;
              |msgs| == 2 && msgs[0] == Message(System, SystemPrompt) && msgs[1].role == User &&
              text <= msgs[1].content && msgs[1].content[|text|..] == Block(ranked).value &&
              text + Header <= msgs[1].content
  {
    if CompletionMessages(data, ranked).Ok? {
      var text, block := data[|data| - 1].content, Block(ranked).value;
      var content := text + block;
      assert content[|text|..] == block;
      assert content[..|text| + |Header|] == text + block[..|Header|];
    }
  }

  /** An empty conversation fails on reading the question, whatever was retrieved. */
  lemma EmptyConversationFails(ranked: seq<RankedMatch>)
    ensures CompletionMessages([], ranked) == Err(ReadOfUndefined("content"))
  {
  }

  /** Only the newest message reaches the completion: earlier turns make no difference. */
  lemma EarlierTurnsNotForwarded(earlier: seq<Message>, data: seq<Message>, ranked: seq<RankedMatch>)
    requires |data| > 0
    ensures CompletionMessages(earlier + data, ranked) == CompletionMessages(data, ranked)
  {
    assert (earlier + data)[|earlier + data| - 1] == data[|data| - 1];
  }
}
