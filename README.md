# RAG with conversational memory — a Dafny model of the query-rewriting loop

This project models the one piece of original logic in the `contextual-retrieval`
experiments: class `SimpleRAGWithMemory` in `rag_with_mem.py`. For each query,
the loop turns the chat memory into an *effective query* (`get_previous_summary`),
hands it to the retrieval-augmented query engine, and appends the raw query and
the response to the memory as a USER and an ASSISTANT message (`query_data`).

Modules:

- `Chat` (`chat.dfy`): messages (`Role`, `Message`) and the role filter
  `ContentsOf`, which models the two list comprehensions that collect the USER
  and ASSISTANT contents.
- `Summary` (`summary.dfy`): the template policy as functions. `Zip` is Python's
  truncating `zip`. `QaLine` is one `Question: …, Answer: … \n` line. `QaLines`
  and `PrevQa` are the history block. `TemplateHead` is the fixed prompt text.
  `PreviousSummary` is the effective query. Lemmas give its shape.
- `RagWithMemory` (`rag_with_mem.dfy`): the class `SimpleRagWithMemory`. It holds
  the memory as a `seq<Message>` field and the engine as an opaque
  `string -> string`. Ghost fields record the session: raw queries, responses and
  the prompts sent to the engine. `GetPreviousSummary` is the source's loop,
  proved equal to `PreviousSummary`. `QueryData` is the append-a-pair step.
  `Transcript` is the memory that N rounds leave behind. `Conversation` runs a
  fresh loop over a list of queries.

Points where the code's behaviour is easy to misread, and which the model follows as written:

- Each history line is `Question: q, Answer: a \n`, with a blank before the
  newline. The block goes under the header ` Answer question <q>,` /
  `Previous Questions and Answers:`, and both continuation lines are indented by
  17 blanks. The line is not `Question: q, Answer: a\n` followed directly by the
  new question. `FollowUpPrompt` states the prompt the code builds for a two-turn
  example.
- The memory does not reject an unpaired append; `put_messages` always stores
  both messages. A paired-append validation that some descriptions of this loop
  call for is absent from the code. The pairing invariant holds here only because
  `QueryData` is the only writer (`SimpleRagWithMemory.Valid`).
- For a non-empty history, the code always uses the template, even when no pair
  can be formed, for example when the memory holds only messages of other roles
  (`TemplateWithoutPairs`).

## Model

| member | source | states |
|---|---|---|
| Chat.ContentsOf | rag_with_mem.py:57-58 | the list comprehension keeping the contents of one role, in history order; never longer than the history |
| Chat.ContentsOfFrom | rag_with_mem.py:57-58 | every collected content is the content of a message of that role in the history; the list is empty exactly when no message has that role |
| Chat.ContentsOfAppend | rag_with_mem.py:57-58 | filtering a concatenated history gives the concatenation of the filtered parts |
| Chat.ContentsOfAt | rag_with_mem.py:57-58 | a message of the role at position j is entry k of the filtered list, where k is the number of messages of that role before j (order kept, nothing skipped) |
| Chat.ContentsOfSkips | rag_with_mem.py:57-58 | a message of another role contributes nothing to the filtered list, wherever it stands |
| Summary.Zip | rag_with_mem.py:60 | `zip` has the length of the shorter list and its i-th pair holds the i-th elements of both lists |
| Summary.ZipIgnoresLeftExtra | rag_with_mem.py:60 | an element appended to the longer (or equal) first list does not change the zip |
| Summary.ZipIgnoresRightExtra | rag_with_mem.py:60 | an element appended to the longer (or equal) second list does not change the zip |
| Summary.QaLine | rag_with_mem.py:61 | one history line is 22 characters longer than its question and answer, which stand unchanged at offsets 10 and 20 + the question's length |
| Summary.QaLines | rag_with_mem.py:57-61 | the history block has one line per zipped pair: min(#USER, #ASSISTANT) lines |
| Summary.Concat | rag_with_mem.py:59-61 | the text that repeated `+=` accumulates is exactly as long as all the lines together |
| Summary.PrevQa | rag_with_mem.py:57-61 | `prev_qa` is empty exactly when the history has no USER or no ASSISTANT message |
| Summary.TemplateHead | rag_with_mem.py:64-66 | the fixed part of the prompt is 85 characters longer than the question and names it right after ` Answer question ` |
| Summary.PreviousSummary | rag_with_mem.py:50-68 | with an empty history the effective query is the question unchanged; with a non-empty one it is strictly longer than the question, so it is always rewritten |
| Summary.TemplateUsed | rag_with_mem.py:64-66 | for a non-empty history the prompt is the template head naming the question followed by exactly `prev_qa` |
| Summary.QaLinesPairUp | rag_with_mem.py:57-61 | the history block has min(#USER, #ASSISTANT) lines and line i pairs the i-th USER content with the i-th ASSISTANT content |
| Summary.ConcatAppend | rag_with_mem.py:59-61 | accumulating two runs of lines with `+=` gives the two texts one after the other |
| Summary.ConcatAt | rag_with_mem.py:59-61 | line i of the accumulated text sits, unchanged, right after lines 0..i-1 |
| Summary.PrevQaHoldsLine | rag_with_mem.py:59-61 | in `prev_qa`, the i-th question/answer line sits right after the lines of the earlier pairs |
| Summary.SummaryHoldsLine | rag_with_mem.py:59-66 | in the prompt for a non-empty history, line i of the block starts right after the template head and the lines before it |
| Summary.TemplateWithoutPairs | rag_with_mem.py:53-66 | a non-empty history with no USER or no ASSISTANT message yields the template head with an empty block |
| Summary.OtherRolesIgnored | rag_with_mem.py:57-58 | removing a message of any other role from a history that stays non-empty leaves the prompt unchanged |
| Summary.UnansweredQuestionDropped | rag_with_mem.py:60 | a trailing USER message with no ASSISTANT partner does not change `prev_qa` |
| Summary.UnpromptedAnswerDropped | rag_with_mem.py:60 | a trailing ASSISTANT message with no USER partner does not change `prev_qa` |
| RagWithMemory.Transcript | rag_with_mem.py:46-47 | N rounds of appends leave 2N messages in memory |
| RagWithMemory.TranscriptAlternates | rag_with_mem.py:46-47 | message 2k of the memory is USER with the k-th raw query and message 2k+1 is ASSISTANT with its response |
| RagWithMemory.TranscriptContents | rag_with_mem.py:57-58 | in that memory the USER contents are exactly the queries and the ASSISTANT contents exactly the responses, in order |
| RagWithMemory.NextPromptPairsEveryTurn | rag_with_mem.py:57-61 | after N rounds the next prompt has exactly N lines, the k-th pairing the k-th query with its own response; with no rounds the query passes through |
| RagWithMemory.FollowUpPrompt | rag_with_mem.py:41-47 | after "What is the revenue?" was answered "100", the follow-up prompt is the template for the new question plus that single line |
| RagWithMemory.RoundAsked | rag_with_mem.py:41-43 | round k sent the prompt built from the memory of rounds 0..k-1 and got the engine's answer to it; the prompt equals the raw query exactly in round 0 |
| RagWithMemory.Consistent | rag_with_mem.py:41-47 | every round of the session was asked that way; so the first round sent its query unchanged and got the engine's answer to it |
| RagWithMemory.SimpleRagWithMemory.Valid | rag_with_mem.py:46-47 | the memory is the transcript of a consistent session, so it holds two messages per round |
| RagWithMemory.RoundKept | rag_with_mem.py:46-47 | appending a round leaves what the earlier rounds sent and received unchanged |
| RagWithMemory.ConsistentRound | rag_with_mem.py:41-47 | a round that sends the prompt built from the memory as it stood before the append keeps the session record consistent |
| RagWithMemory.SimpleRagWithMemory.constructor | rag_with_mem.py:26 | a new loop starts with an empty memory and an empty session record |
| RagWithMemory.SimpleRagWithMemory.GetPreviousSummary | rag_with_mem.py:50-68 | the loop that accumulates `prev_qa` and wraps it in the template returns exactly `PreviousSummary` of the current memory |
| RagWithMemory.SimpleRagWithMemory.QueryData | rag_with_mem.py:35-48 | the engine gets `PreviousSummary` of the memory before the append; the memory grows by exactly USER(raw query) then ASSISTANT(response), with earlier messages unchanged; the memory stays the transcript of the session |
| RagWithMemory.Conversation | rag_with_mem.py:41-47 | over a fresh loop, response k is the engine's answer to the prompt built from the transcript of rounds 0..k-1 and query k, and the final memory is the transcript of all rounds |

## Left out

- The query engine answers with a retrieval-augmented call to a language model and is rebuilt on every `query_data` call. The model makes it one fixed deterministic function, so it does not capture that the real engine can answer the same prompt differently on different calls; `Conversation`'s statement about each response depends on that assumption.
- Embedding generation, the Chroma vector store, `VectorStoreIndex` and `SimpleDirectoryReader` (`generate_embeddings` and the index set-up in `query_data`) are external-library I/O. The query engine is the opaque function `engine`, fixed per loop. Changes to the vector store between queries are not modelled.
- `ChatSummaryMemoryBuffer` is assumed to be a plain append-only list whose `get()` returns every stored message. Its token-limit summarisation and truncation live in the library and are not modelled.
- The ASSISTANT content is stored as the engine's response object and turned into text by `str()` when read back. The model stores the response as a string from the start.
- Logging through `loguru`, environment and API-key handling, the global `Settings.llm`, and the `__main__` driver are left out; `Conversation` stands in for the driver's loop over its queries.
- The roles of the chat library other than USER and ASSISTANT are not enumerated; they are `OtherRole(name)`.
- Errors raised by the engine or the memory are not modelled. The code does not catch them, so they propagate to the caller before anything is appended.
- `simple_rag.py`, `branched_rag.py`, `contextual_rag.py` and `main.py` are library plumbing or a single API call with no logic of their own; they are not part of this model.
