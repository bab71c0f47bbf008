# Bob and his clones: routing and context building, in Dafny

Bob is a chat backend in which a user talks to one of several personas, the
"clones of Bob": Bob, Bill, Milo and Garfield. Two more agents route the
conversation: Riker detects tool calls in the user's message, and Khan
detects MCP tool calls. This project models the part of the backend that
decides who answers and what each persona remembers:

- **Persona-switch executor** (`ToolExecution`, executor.dfy). Riker's two
  tools run over a batch of detected calls. `choose_clone_of_bob`
  lower-cases the name and hands the user to one of the four clones.
  `detect_the_real_topic_in_user_message` maps four exact topic labels to a
  clone and always records an acknowledgement. The selected agent is a
  local pointer: a switch made by one call is seen by the later calls, but
  it is never returned. The messages appended through it do persist, and
  Riker's memory is emptied at the end.
  - The behaviour is first stated on values: `Routing` is the selected
    persona plus every persona's messages, `ChooseClone` and `DetectTopic`
    are the two tools, and `Run` is a batch.
  - The methods then do the same on `Agent` objects, whose `messages` they
    update in place, and are proved to agree with the functions.
- **Retrieval context** (`SimilaritySearch`, similarity.dfy). The selected
  clone's vector store is searched once for the question, at threshold 0.7.
  Exactly one of two message patterns is appended.
- **Status labels** (`Labels`, labels.dfy; `Detection`, detection.dfy).
  - The response is a log of writes and flushes.
  - `ResponseLabel` writes `<tag>text</tag>` and flushes.
  - Tool-call detection and MCP execution choose their labels from the
    library's `(calls, err)` and `(results, err)` pairs.
- **Document chunker** (`Chunking`, chunking.dfy). The chunker cuts byte
  windows of 512 bytes whose starts are 302 bytes apart. It is proved to
  produce the closed-form windows, and their count is proved to be the
  ceiling of the length divided by the step. The windows cover the text and
  overlap.
- **Single-persona chat handler** (`ChatServer`, server.dfy), i.e.
  `POST /chat` and `DELETE /cancel` of backend/main.go. It covers:
  - Riker's and Bob's message lists;
  - the inline `choose_clone_of_bob`;
  - the stream callback that writes each fragment before it checks the
    cancel flag;
  - the flag itself, which nothing lowers again.
- **Code-fence rewriting** (`CodeBlocks`, codeblocks.dfy):
  `process_code_blocks` of the chat page. It re-labels blocks that draw a
  tree as `raw`. Without trees it gives back its input, plus a closing
  fence when the number of fences is odd.

`Text` holds the string operations used above: Go's `strings.Join`,
Python's `split`, `count`, `strip` and `split('\n', 1)`, and ASCII
lower-casing and title-casing. `Personas` holds the agents and their
catalog, and `Wrappers` holds `Option` and `Result`.

The libraries' work is passed in as parameters:

- the tool calls the models detect;
- the libraries' errors;
- the similarity search, given as a function of the question and the threshold;
- the content of the document files, given as a function of the directory
  and the extension;
- the answer's fragments;
- the fragment during which a cancel request arrives.

Where the code departs from what its comments or its documented design
suggest, the model follows the code:
- The topic tool appends its acknowledgement for every topic, recognised or
  not (backend/workflow/04-tools-execution.go:91-97).
- A request body that does not decode is reported in the stream, and the
  handler goes on with the message read as "" (backend/main.go:132-139).
- More than one trailing chunk can be shorter than the window: with 1000
  bytes the windows have 512, 512, 396 and 94 bytes (`Chunking.ThousandBytes`).
- The cancel flag is never lowered, so after one cancel every later answer
  stops after its first fragment: `ChatServer.Server.Chat` keeps a raised
  flag up, and `ChatServer.Server.CancelThenChats` shows it for a cancel
  followed by two requests.
- The two `choose_clone_of_bob` tools disagree. The one in backend/main.go
  is case-sensitive, vouches for "Riker" and selects nobody. The one in the
  workflow lower-cases the name and cannot select Riker.

## Model

The table lists the members whose contracts state a property. The
behaviour itself is written as definitions, which the methods and lemmas in
the table are proved against:

- `Labels.Render`, `Labels.RenderNewLine`: the label strings of
  backend/helpers/response-label.go:6 and :12.
- `Detection.McpExecutionStatuses`: the two labels of
  backend/workflow/03-mcp-tools-execution.go:11-17.
- `Text.Capitalize`: the title-casing at backend/workflow/04-tools-execution.go:38-39.
- `ToolExecution.Apply`, `ToolExecution.Run`: one tool call and a batch, as
  dispatched at backend/workflow/04-tools-execution.go:25-102.
  `ToolExecution.RunWith` and `ToolExecution.Tools` restate `Run` over an
  arbitrary step function and serve only to prove `RunAppend`; they have no
  counterpart of their own in the source.
- `SimilaritySearch.RagContext`: the messages appended at
  backend/workflow/05-similarity-search.go:21-36.
- `Chunking.ChunksFrom`, `Chunking.Chunks`: the windows of
  backend/rag/rag.tools.go:34-44; `Chunking.FlatChunks`: their
  concatenation over the documents, backend/rag/rag.tools.go:17-20.
- `ChatServer.MessageOf`: `data["message"]` at backend/main.go:132-139.
- `ChatServer.InlineChooseCloneOfBob`: the inline tool at backend/main.go:168-177.
- `ChatServer.Results`: the batch's results at backend/main.go:162-178.
- `ChatServer.Preamble`: the unflushed writes at backend/main.go:133-135,
  180-182 and 209.
- `ChatServer.Turn`: Bob's new messages at backend/main.go:192-204.
- `ChatServer.Streamed`: the stop rule of the stream callback at
  backend/main.go:210-221.
- `CodeBlocks.LangAndCode`, `CodeBlocks.RenderPart`, `CodeBlocks.Rendered`:
  the language line, the per-piece rewrite and the rewritten pieces of
  frontend/app.py:92-111.

| member | source | states |
|---|---|---|
| Labels.ResponseLabel | backend/helpers/response-label.go:5-9 | exactly one write of `<tag>text</tag>` followed by one flush; earlier events stay; the written body grows by exactly the label |
| Labels.ResponseLabelNewLine | backend/helpers/response-label.go:11-15 | exactly one write of the label followed by `<br>`, then one flush; the body grows by exactly that string |
| Labels.RenderFraming | backend/helpers/response-label.go:6-12 | a label starts with `<tag>`, holds the text, and ends with `</tag>`; the new-line variant is the label followed by `<br>` |
| Labels.UnwrapRender | backend/helpers/response-label.go:6 | reading a written label back with its tag gives its text |
| Labels.RenderUnwrap | backend/helpers/response-label.go:6 | a string reads back as a given tag and text exactly when it is that label |
| Labels.EmittedAt | backend/helpers/response-label.go:7-8 | in a run of labels, label i is the write at position 2i and a flush follows it at 2i+1 |
| Labels.EmittedAppend | backend/helpers/response-label.go:7-8 | the events of two runs of labels are the first's followed by the second's |
| Labels.BodyOfWrite | backend/helpers/response-label.go:7-8 | a write and a flush add exactly the written text to what the client sees |
| Labels.Response.Write | backend/helpers/response-label.go:7 | a write appends one write event and changes nothing else |
| Labels.Response.Flush | backend/helpers/response-label.go:8 | a flush appends one flush event and changes nothing else |
| Detection.DetectionStatuses | backend/workflow/02-tool-calls-detection.go:13-22 | a label is written exactly when the completion failed: an `error` label quoting the error when calls came back anyway, otherwise the `success` "No tool calls detected" label (MCP texts for Khan) |
| Detection.DetectToolCalls | backend/workflow/02-tool-calls-detection.go:12-28 | returns the completion's calls and error unchanged; the stream grows by exactly the detection labels |
| Detection.DetectMCPToolCalls | backend/workflow/02-tool-calls-detection.go:31-47 | as for Riker, with the MCP texts |
| Detection.DetectionErrorVisible | backend/workflow/02-tool-calls-detection.go:15-17 | after a failed detection that still found calls, reading the stream gives back "Tool call error detected: " plus the error |
| Detection.ExecuteMCPToolCalls | backend/workflow/03-mcp-tools-execution.go:10-19 | returns the library's results and error unchanged; the stream grows by exactly the two labels |
| Personas.CloneNamed | backend/workflow/04-tools-execution.go:33-34 | exactly the keys "bill", "milo", "garfield" and "bob" name a clone, the one with that key; other names name none |
| Personas.CapitalizedKey | backend/workflow/04-tools-execution.go:38-39 | title-casing a clone's key gives its configured display name |
| Personas.AppendMessages | backend/workflow/04-tools-execution.go:45-50 | the messages go to the end of one agent's list; every other persona keeps its own |
| ToolExecution.ChooseClone | backend/workflow/04-tools-execution.go:27-61 | after lower-casing: a clone's key selects that clone, appends exactly the hand-off note to its memory, and returns its name; any other name changes nothing and returns "Unknown clone of Bob: " plus the lower-cased name; two labels are written |
| ToolExecution.TopicRoute | backend/workflow/04-tools-execution.go:71-89 | exactly the four topic labels route, each to a clone |
| ToolExecution.DetectTopic | backend/workflow/04-tools-execution.go:63-101 | a topic label, matched exactly, selects its clone, and any other topic keeps the current one; the acknowledgement is always appended to the persona selected afterwards; the topic is returned; three labels for a known topic, two otherwise |
| ToolExecution.ExecutionResultStatus | backend/workflow/04-tools-execution.go:104-108 | the closing label is an `error` label quoting the error, or the `success` label |
| ToolExecution.ChooseCloneIgnoresCase | backend/workflow/04-tools-execution.go:31 | a name and its lower-cased form have the same effect |
| ToolExecution.RoutingAgentsNotSelectable | backend/workflow/04-tools-execution.go:33-57 | "riker" and "khan" fall to the unknown branch and change nothing |
| ToolExecution.RunResults | backend/workflow/04-tools-execution.go:52-100 | the i-th result of a batch is what the i-th call returns, whatever earlier calls selected |
| ToolExecution.RunAppend | backend/workflow/04-tools-execution.go:25-102 | running two batches one after the other is running their concatenation: the same selection, memories, results and labels |
| ToolExecution.ApplyOnlyAppends | backend/workflow/04-tools-execution.go:45-97 | one tool call only appends: every persona's earlier messages are a prefix of its new ones |
| ToolExecution.RunOnlyAppends | backend/workflow/04-tools-execution.go:45-97 | a whole batch only appends to every persona's messages |
| ToolExecution.SwitchSeenByLaterCall | backend/workflow/04-tools-execution.go:36-97 | a clone chosen by one call is where the next call's acknowledgement goes, for an unrecognised topic: both notes end up in its memory, in order |
| ToolExecution.SelectClone | backend/workflow/04-tools-execution.go:35-52 | the pointer becomes the catalog's clone, which gets exactly the hand-off note; the greeting label names the clone and its model |
| ToolExecution.ChooseCloneTool | backend/workflow/04-tools-execution.go:27-61 | on the agents, the tool does what `ChooseClone` says: the same new selection, memories, result and labels |
| ToolExecution.AnnounceTopic | backend/workflow/04-tools-execution.go:74-88 | the pointer becomes the topic's clone, announced by name |
| ToolExecution.DetectTopicTool | backend/workflow/04-tools-execution.go:63-101 | on the agents, the tool does what `DetectTopic` says |
| ToolExecution.ApplyTool | backend/workflow/04-tools-execution.go:25-102 | dispatching on the tool's name does what `Apply` says |
| ToolExecution.RunCalls | backend/workflow/04-tools-execution.go:25-102 | the batch on the agents, each call seeing the pointer the previous ones left, does what `Run` says |
| ToolExecution.RunAndReport | backend/workflow/04-tools-execution.go:17-108 | the opening label, the batch, then the closing label, as `Run` says |
| ToolExecution.ExecuteToolCalls | backend/workflow/04-tools-execution.go:16-122 | returns `Run`'s results and the library's error, and no selection; every persona other than Riker holds `Run`'s memories; Riker's are empty; the stream is the orange label, the tools' labels, then the closing label |
| SimilaritySearch.SearchSimilarities | backend/workflow/05-similarity-search.go:11-38 | one search with the question at 0.7, its error ignored; returns what the search found; the memory grows by the documents note, the instruction and the question when something was found, or by the question alone |
| SimilaritySearch.QuestionComesLast | backend/workflow/05-similarity-search.go:21-36 | the question is appended once and last, after only system notes: three messages with documents, one without |
| SimilaritySearch.DocumentsRecoverable | backend/workflow/05-similarity-search.go:26 | the documents can be read back from the first note when none of them has a line break |
| Chunking.ChunkText | backend/rag/rag.tools.go:34-44 | an empty text gives no chunks, whatever the sizes; otherwise the loop produces the windows starting at 0, step, 2 step, ..., cut at the end of the text |
| Chunking.ChunkAt | backend/rag/rag.tools.go:36-41 | there are ceil(n / step) chunks, one exactly for each i with i * step < n, and chunk i is text[i*step .. min(i*step + size, n)]; an empty text gives none |
| Chunking.ChunkBounds | backend/rag/rag.tools.go:36-40 | every chunk holds between 1 and `chunkSize` bytes |
| Chunking.ChunksCover | backend/rag/rag.tools.go:36-41 | the first chunk starts the text, the last ends it, and each byte j lies in chunk j / step at its own offset |
| Chunking.ChunksOverlap | backend/rag/rag.tools.go:36-41 | what follows the first `step` bytes of a chunk is where the next chunk begins |
| Chunking.ThousandBytes | backend/rag/rag.tools.go:19-41 | with 512 and 210, a 1000-byte text gives four chunks of 512, 512, 396 and 94 bytes at 0, 302, 604 and 906 |
| Chunking.FlatChunksSnoc | backend/rag/rag.tools.go:18-20 | one more document adds its chunks at the end |
| Chunking.FlatChunksFromDocuments | backend/rag/rag.tools.go:18-20 | every collected chunk is a chunk of one of the documents |
| Chunking.GetChunksOfCloneDocuments | backend/rag/rag.tools.go:9-22 | reads the clone's `.md` files under /app/docs/; a read error gives no chunks and the error wrapped with the clone's name; otherwise every document's chunks, in file order |
| ChatServer.InlineChooseAnswers | backend/main.go:168-177 | the inline tool vouches for a name exactly when it is "Riker" or "Milo", case-sensitively; any other name is reported unknown |
| ChatServer.LowerCaseMiloDisagreement | backend/main.go:168-177 | "milo" is unknown to the inline tool but selects Milo in the workflow's tool |
| ChatServer.RikerDisagreement | backend/main.go:170-171 | "Riker" is vouched for by the inline tool but cannot be selected by the workflow's tool |
| ChatServer.TurnEndsWithMessage | backend/main.go:192-204 | Bob's memory grows by the results note, the instruction and the message after tool calls, and by the message alone otherwise; the message is last |
| ChatServer.ResultsRecoverable | backend/main.go:193 | the tool results can be read back from Bob's first note when none has a space |
| ChatServer.FragmentsShown | backend/main.go:210-214 | the client sees the streamed fragments concatenated, in order |
| ChatServer.StreamedBounds | backend/main.go:210-221 | never more fragments are shown than produced, at least one when there is one, and all of them without a cancel |
| ChatServer.Server.constructor | backend/main.go:120 | the flag starts down |
| ChatServer.Server.Cancel | backend/main.go:233-236 | raises the flag and writes the cancel note |
| ChatServer.Server.Stream | backend/main.go:210-221 | each fragment is written and flushed before the flag is checked; the stream stops after the fragment on which the flag is seen up; a cancel during fragment k raises the flag and answers on its own response |
| ChatServer.Server.Chat | backend/main.go:122-230 | Riker's memory is the message alone, or empty after tool calls; Bob's grows by the turn; the stream is the decoding error, the execution error, the thinking note, then the streamed fragments; the flag stays up once raised and is raised by a cancel during a shown fragment, which answers on the cancel response |
| ChatServer.Server.CancelThenChats | backend/main.go:215-236 | after a cancel, two later chat requests each show at most their first fragment, whenever a further cancel arrives, and the flag is still up |
| CodeBlocks.ProcessCodeBlocks | frontend/app.py:87-113 | the loop renders every piece between fences at its own position and joins them |
| CodeBlocks.TreeBlockIsRaw | frontend/app.py:103-108 | a code block drawing a tree always becomes a `raw` block of its code, whatever language it named |
| CodeBlocks.PlainPiece | frontend/app.py:93-111 | prose pieces are kept and a code block without a tree is put back between its fences |
| CodeBlocks.RenderedWithoutTrees | frontend/app.py:93-111 | without trees, the rendering is the plain fencing of the pieces |
| CodeBlocks.FencedJoin | frontend/app.py:90-113 | fencing the pieces and joining them gives the original text, plus a closing fence when the last piece is code |
| CodeBlocks.UnchangedWithoutTrees | frontend/app.py:90-113 | without trees, the output is the input, plus "```" when the number of fences is odd |
| CodeBlocks.NoFenceUnchanged | frontend/app.py:90-95 | a text without fences is returned unchanged |
| Text.Split | frontend/app.py:90 | splitting always gives at least one piece |
| Text.JoinSplit | frontend/app.py:90 | joining the pieces with the separator gives back the text |
| Text.SplitLength | frontend/app.py:90 | there is one piece more than there are non-overlapping occurrences of the separator |
| Text.NoOccurrences | frontend/app.py:90 | the count is zero exactly when the separator does not occur |
| Text.SplitJoin | backend/workflow/05-similarity-search.go:26 | splitting a join at a one-character separator that no element contains gives back the elements |
| Text.SplitOnce | frontend/app.py:98 | one piece exactly when there is no line break; otherwise the text is the part before the first break, the break, and the rest |
| Text.TrimStart | frontend/app.py:98 | a suffix of the text, made by dropping only whitespace, that does not start with whitespace |
| Text.TrimEnd | frontend/app.py:98 | a prefix of the text, made by dropping only whitespace, that does not end with whitespace |

## Left out

- The `robby` library is not part of this model: tool completion, MCP execution, streaming, similarity search and the JSON rendering of tool calls. Their results are parameters. Its tool dispatch is not a parameter: each call's result is computed from the handler's own tool closure.
- `ToolExecution.ExecuteToolCalls`: assumes that the library runs every call and returns each closure's return value verbatim as that call's result, in order, even when it reports an error; the library's conversion of the returned value to a string and any calls it drops on an error are not modelled.
- `ChatServer.Server.Chat`: makes the same assumption about `riker.ExecuteToolCalls`: the results Bob receives are every detected call's result, in order, whatever execution error is reported.
- The `robby` library's batch execution is assumed to run the calls one at a time, in detection order; the code cannot show this.
- The library is likewise assumed to stop streaming after the callback's first error. Whether it appends Bob's answer to his memory is not modelled.
- `ChatServer.Results`: the `add` tool's float64 sum is an opaque string parameter; floating point is not modelled.
- `SimilaritySearch.SearchSimilarities`: embeddings and cosine similarity are not modelled; the 0.7 threshold is only passed on. The search error is dropped, as the code drops it, after a log line.
- `Chunking.GetChunksOfCloneDocuments`: the directory walk and the file reads (`ForEachFile`, `GetContentFiles`) are the `getContentFiles` parameter. A document is its bytes; the Go string conversion is not modelled.
- `Chunking.ChunkText`: on a non-empty text its precondition excludes the inputs on which the Go code does not return: it loops forever when the overlap equals the size, panics on the second window when the overlap exceeds the size (its start is negative), and panics on the first window when the size is negative. The empty text is admitted with any sizes and gives no chunks, as in Go.
- `ToolExecution.ExecuteToolCalls`: the catalog is assumed to hold all six personas, each its own agent, clones carrying their display names (from backend/workflow/01-initialize-agents.go:7-50). A missing entry would panic in Go.
- The panics of the Go type assertions on tool arguments are not modelled; arguments arrive as typed strings.
- `Text.Capitalize`: title-casing with golang.org/x/text is modelled as upper-casing the first ASCII letter, which is all it does on the four clone keys.
- `Text.ToLower`: only ASCII letters are lower-cased; Go's full Unicode case mapping is not modelled.
- Printing to the console (`fmt.Println`, `log`) is not modelled.
- HTTP server setup, ports and environment variables are not modelled.
- The `http.Flusher` check and `GetBytesBody` are not modelled.
- JSON decoding is not modelled: the decoded map and its error are the `RequestBody` parameter.
- The detection result in backend/main.go only reaches the console. Its error is otherwise ignored, so the model takes the detected calls as given.
- Concurrency: simultaneous requests sharing the flag and the memories are not modelled. A cancel request is placed between two fragments of the stream (`cancelAt`).
- The agents' construction, prompts and tool catalogs (backend/agents/*.go, `GetBobToolsCatalog`) are static data and library calls. Only their display names, models and message lists are modelled.
- frontend/app.py beyond `process_code_blocks` (the Streamlit page) is not part of this model.
