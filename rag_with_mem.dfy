/**
 SimpleRAGWithMemory: per query, the effective query is built from the chat
 memory, handed to the query engine, and the raw query and the response are
 then appended to the memory as a USER and an ASSISTANT message.
 */
module RagWithMemory {
  import opened Chat
  import opened Summary

  /** The memory that a session of rounds (queries[k], responses[k]) leaves
      behind: a USER message with the raw query and then an ASSISTANT message
      with its response, round after round, oldest first. */
  function Transcript(queries: seq<string>, responses: seq<string>): (h: seq<Message>)
    requires |queries| == |responses|
    ensures |h| == 2 * |queries|
  {
    if queries == [] then []
    else
      var n := |queries| - 1;
      Transcript(queries[..n], responses[..n])
      + [Message(User, queries[n]), Message(Assistant, responses[n])]
  }

  /** A transcript alternates USER and ASSISTANT, starting with USER: message
      2k is the k-th query and message 2k + 1 its response. */
  lemma {:induction false} TranscriptAlternates(queries: seq<string>, responses: seq<string>, k: nat)
    requires |queries| == |responses| && k < |queries|
    ensures Transcript(queries, responses)[2 * k] == Message(User, queries[k])
    ensures Transcript(queries, responses)[2 * k + 1] == Message(Assistant, responses[k])
  {
    var n := |queries| - 1;
    if k < n {
      TranscriptAlternates(queries[..n], responses[..n], k);
    }
  }

  /** In a transcript the USER contents are exactly the queries and the
      ASSISTANT contents exactly the responses, in order. */
  lemma {:induction false} TranscriptContents(queries: seq<string>, responses: seq<string>)
    requires |queries| == |responses|
    ensures ContentsOf(Transcript(queries, responses), User) == queries
    ensures ContentsOf(Transcript(queries, responses), Assistant) == responses
  {
    if queries != [] {
      var n := |queries| - 1;
      var pair := [Message(User, queries[n]), Message(Assistant, responses[n])];
      TranscriptContents(queries[..n], responses[..n]);
      ContentsOfAppend(Transcript(queries[..n], responses[..n]), pair, User);
      ContentsOfAppend(Transcript(queries[..n], responses[..n]), pair, Assistant);
      assert pair == [pair[0]] + [pair[1]];
      ContentsOfAppend([pair[0]], [pair[1]], User);
      ContentsOfAppend([pair[0]], [pair[1]], Assistant);
      assert queries == queries[..n] + [queries[n]];
      assert responses == responses[..n] + [responses[n]];
    }
  }

  /** After N rounds the next prompt holds exactly N lines, the k-th pairing
      the k-th query with its own response; before the first round the query
      passes through unchanged. */
  lemma NextPromptPairsEveryTurn(queries: seq<string>, responses: seq<string>, q: string)
    requires |queries| == |responses|
    ensures |QaLines(Transcript(queries, responses))| == |queries|
    ensures forall k :: 0 <= k < |queries| ==>
              QaLines(Transcript(queries, responses))[k] == QaLine(queries[k], responses[k])
    ensures queries == [] ==> PreviousSummary(Transcript(queries, responses), q) == q
  {
    TranscriptContents(queries, responses);
    QaLinesPairUp(Transcript(queries, responses));
  }

  /** A two-round session: after "What is the revenue?" was answered "100",
      the follow-up question is sent with that exchange as the one line of
      the history block. */
  lemma FollowUpPrompt()
    ensures PreviousSummary(Transcript(["What is the revenue?"], ["100"]), "How about last year?")
         == TemplateHead("How about last year?") + QaLine("What is the revenue?", "100")
  {
    var h := Transcript(["What is the revenue?"], ["100"]);
    NextPromptPairsEveryTurn(["What is the revenue?"], ["100"], "How about last year?");
    assert h != [];
    assert QaLines(h) == [QaLine("What is the revenue?", "100")];
    assert Concat(QaLines(h)) == Concat([]) + QaLine("What is the revenue?", "100");
  }

  /** Round k of a session asked the engine with the prompt built from the
      memory of the rounds before it, and got responses[k] back. */
  ghost predicate RoundAsked(engine: string -> string, queries: seq<string>,
                             responses: seq<string>, sent: seq<string>, k: nat)
    requires k < |queries| == |responses| == |sent|
    // only the first round sends the raw query; every later one is rewritten
    ensures RoundAsked(engine, queries, responses, sent, k) ==> (sent[k] == queries[k] <==> k == 0)
  {
    assert |Transcript(queries[..k], responses[..k])| == 2 * k;
    && sent[k] == PreviousSummary(Transcript(queries[..k], responses[..k]), queries[k])
    && responses[k] == engine(sent[k])
  }

  /** Every round of the session so far was asked that way. */
  ghost predicate Consistent(engine: string -> string, queries: seq<string>,
                             responses: seq<string>, sent: seq<string>)
    // a consistent session sent its first query to the engine unchanged
    ensures Consistent(engine, queries, responses, sent) ==>
              && |queries| == |responses| == |sent|
              && (sent != [] ==> sent[0] == queries[0] && responses[0] == engine(queries[0]))
  {
    assert sent != [] && |queries| == |responses| == |sent|
           && (forall k :: 0 <= k < |sent| ==> RoundAsked(engine, queries, responses, sent, k))
           ==> RoundAsked(engine, queries, responses, sent, 0);
    && |queries| == |responses| == |sent|
    && forall k :: 0 <= k < |sent| ==> RoundAsked(engine, queries, responses, sent, k)
  }

  /** Extending a session leaves its earlier rounds as they were asked. */
  lemma RoundKept(engine: string -> string, queries: seq<string>, responses: seq<string>,
                  sent: seq<string>, query: string, response: string, s: string, k: nat)
    requires k < |queries| == |responses| == |sent|
    requires RoundAsked(engine, queries, responses, sent, k)
    ensures RoundAsked(engine, queries + [query], responses + [response], sent + [s], k)
  {
    assert (queries + [query])[..k] == queries[..k];
    assert (responses + [response])[..k] == responses[..k];
  }

  /** A round that asks the engine with the prompt built from the current
      transcript keeps the session consistent. */
  lemma ConsistentRound(engine: string -> string, queries: seq<string>, responses: seq<string>,
                        sent: seq<string>, query: string)
    requires Consistent(engine, queries, responses, sent)
    ensures var s := PreviousSummary(Transcript(queries, responses), query);
            Consistent(engine, queries + [query], responses + [engine(s)], sent + [s])
  {
    var s := PreviousSummary(Transcript(queries, responses), query);
    var qs, rs, ss := queries + [query], responses + [engine(s)], sent + [s];
    forall k | 0 <= k < |sent|
      ensures RoundAsked(engine, qs, rs, ss, k)
    {
      RoundKept(engine, queries, responses, sent, query, engine(s), s, k);
    }
    assert qs[..|sent|] == queries && rs[..|sent|] == responses;
    assert RoundAsked(engine, qs, rs, ss, |sent|);
  }

  /** The RAG loop with conversational memory. */
  class SimpleRagWithMemory {
    /** The query engine over the vector store, seen only as a function from
        the effective query to the response. */
    const engine: string -> string

    /** The chat memory: every message stored so far, oldest first. */
    var history: seq<Message>

    /** Record of the session so far: the raw queries, the responses, and the
        effective queries handed to the engine. */
    ghost var queries: seq<string>
    ghost var responses: seq<string>
    ghost var sent: seq<string>

    /** The memory is the transcript of the session, and round k sent the
        engine the prompt built from the memory of the rounds before it. */
    ghost predicate Valid()
      reads this
      // the memory holds two messages per round
      ensures Valid() ==> |history| == 2 * |queries|
    {
      && Consistent(engine, queries, responses, sent)
      && history == Transcript(queries, responses)
    }

    /** A new loop starts with an empty memory. */
    constructor (engine: string -> string)
      ensures Valid() && this.engine == engine
      ensures history == [] && queries == [] && responses == [] && sent == []
    {
      this.engine := engine;
      history := [];
      queries, responses, sent := [], [], [];
    }

    /** get_previous_summary: the effective query for `currentQuestion`. */
    method GetPreviousSummary(currentQuestion: string) returns (prompt: string)
      ensures prompt == PreviousSummary(history, currentQuestion)
    {
      var chatHistory := history;
      if chatHistory == [] {
        return currentQuestion;
      }
      var previousQuestions := ContentsOf(chatHistory, User);
      var previousAnswers := ContentsOf(chatHistory, Assistant);
      var pairs := Zip(previousQuestions, previousAnswers);
      ghost var lines := QaLines(chatHistory);
      var prevQa := "";
      for i := 0 to |pairs|
        invariant |lines| == |pairs|
        invariant prevQa == Concat(lines[..i])
      {
        var (question, answer) := pairs[i];
        assert lines[..i + 1] == lines[..i] + [QaLine(question, answer)];
        prevQa := prevQa + QaLine(question, answer);
      }
      assert lines[..|pairs|] == lines;
      prompt := TemplateHead(currentQuestion) + prevQa;
    }

    /** query_data: ask the engine with the effective query computed from the
        memory as it stood before the call, then store the raw query and the
        response as a USER and an ASSISTANT message. */
    method QueryData(query: string) returns (response: string)
      requires Valid()
      modifies this
      ensures Valid()
      ensures sent == old(sent) + [PreviousSummary(old(history), query)]
      ensures response == engine(PreviousSummary(old(history), query))
      ensures history == old(history) + [Message(User, query), Message(Assistant, response)]
      ensures queries == old(queries) + [query] && responses == old(responses) + [response]
    {
      var queryWithContext := GetPreviousSummary(query);
      response := engine(queryWithContext);
      history := history + [Message(User, query), Message(Assistant, response)];
      ConsistentRound(engine, queries, responses, sent, query);
      queries, responses, sent := queries + [query], responses + [response], sent + [queryWithContext];
    }
  }

  /** A conversation: a fresh loop answers `qs` one after another. Each
      response is the engine's answer to the prompt built from the rounds
      before it, and the memory ends as the transcript of the conversation. */
  method Conversation(engine: string -> string, qs: seq<string>)
    returns (rs: seq<string>, memory: seq<Message>)
    ensures |rs| == |qs|
    ensures memory == Transcript(qs, rs)
    ensures forall k :: 0 <= k < |qs| ==>
              rs[k] == engine(PreviousSummary(Transcript(qs[..k], rs[..k]), qs[k]))
  {
    var rag := new SimpleRagWithMemory(engine);
    rs := [];
    for i := 0 to |qs|
      invariant rag.Valid() && rag.engine == engine
      invariant rag.queries == qs[..i] && rag.responses == rs
    {
      var response := rag.QueryData(qs[i]);
      rs := rs + [response];
      assert qs[..i + 1] == qs[..i] + [qs[i]];
    }
    assert qs[..|qs|] == qs;
    ghost var sent := rag.sent;
    forall k | 0 <= k < |qs|
      ensures rs[k] == engine(PreviousSummary(Transcript(qs[..k], rs[..k]), qs[k]))
    {
      assert RoundAsked(engine, qs, rs, sent, k);
    }
    memory := rag.history;
  }
}
