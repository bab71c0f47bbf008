/**
 * The retrieval step (backend/workflow/05-similarity-search.go): the
 * selected clone's vector store is searched once for the user's question,
 * and the documents it finds, if any, are put in front of the question in
 * the clone's memory.
 *
 * The store itself (embeddings and cosine similarity) is the library's: it
 * is the `search` parameter, called with the question and the threshold.
 */
module SimilaritySearch {

  import opened Wrappers
  import opened Text
  import opened Personas

  /** The similarity threshold the search is called with. */
  const Threshold: real := 0.7

  const DocumentsPreamble := "Here are some relevant documents found in the RAG memory:\n"
  const Instruction := "Use the above documents to answer the user question: "

  /** What the vector store answers: the matching documents, and an error or none. */
  datatype SearchReply = SearchReply(similarities: seq<string>, err: Option<string>)

  /** The messages a search leaves behind the clone's history. */
  function RagContext(similarities: seq<string>, question: string): seq<Message>
  {
    if |similarities| > 0 then
      [System(DocumentsPreamble + Join(similarities, "\n")), System(Instruction), User(question)]
    else
      [User(question)]
  }

  /**
   * `SearchSimilarities`: one search with the question at threshold 0.7;
   * its error, if any, is ignored; the documents found are returned and
   * the clone's memory grows by the retrieval context.
   */
  method SearchSimilarities(agent: Agent, question: string, search: (string, real) -> SearchReply)
    returns (similarities: seq<string>)
    modifies agent
    ensures similarities == search(question, Threshold).similarities
    ensures agent.messages == old(agent.messages) + RagContext(similarities, question)
  {
    var reply := search(question, Threshold);
    similarities := reply.similarities;
    if |similarities| > 0 {
      agent.messages := agent.messages + [
        System(DocumentsPreamble + Join(similarities, "\n")),
        System(Instruction),
        User(question)
      ];
    } else {
      agent.messages := agent.messages + [User(question)];
    }
  }

  /**
   * Whatever the search found, the question is the last message and
   * comes once: with documents it follows the two system notes, without
   * them it is the only addition.
   */
  lemma QuestionComesLast(similarities: seq<string>, question: string)
    ensures var ms := RagContext(similarities, question);
      && ms[|ms| - 1] == User(question)
      && |ms| == (if |similarities| > 0 then 3 else 1)
      && (forall k :: 0 <= k < |ms| - 1 ==> ms[k].System?)
  {
  }

  /**
   * The documents are recoverable from the first note: taking off the
   * preamble and splitting at line breaks gives them back, in order, as
   * long as no document has a line break of its own.
   */
  lemma DocumentsRecoverable(similarities: seq<string>, question: string)
    requires |similarities| > 0
    requires forall i :: 0 <= i < |similarities| ==> '\n' !in similarities[i]
    ensures var note := RagContext(similarities, question)[0];
      && note.System?
      && DocumentsPreamble <= note.content
      && Split(note.content[|DocumentsPreamble|..], "\n") == similarities
  {
    var note := RagContext(similarities, question)[0];
    var joined := Join(similarities, "\n");
    assert note.content == DocumentsPreamble + joined;
    assert note.content[|DocumentsPreamble|..] == joined;
    SplitJoin(similarities, '\n');
  }
}
