# Indonesian Supreme Court assistant — verified model of its deterministic core

The assistant answers questions about Indonesian Supreme Court decisions by
retrieval-augmented generation. Almost every step hands its decision to a
hosted language model. This project models, in Dafny, the parts the
repository decides itself, and proves what they promise:

- **Retrieval tool** (`retrieval.dfy`, module `Retrieval`). The vector store returns chunk hits; every
  chunk carries its case's `decision_number` and `full_summary`. The tool
  keeps the first hit of each decision number, in order. It rebuilds each
  survivor as the page `"Nomor Dokumen Putusan: <n>\n\n<full_summary>"`,
  formats the pages with the document prompt and joins them with the
  separator. The de-duplication loop is a method proved against the
  specification `FirstHits`. Lemmas then show:
  - every decision number of the input survives exactly once;
  - each survivor is the first hit of its number;
  - survivors keep the order of those first occurrences;
  - the defaults of `create_retriever_tool` return the pages verbatim.
- **Conversation graph** (`workflow.dfy`, module `Workflow`). The edge table, the relevance check's routing
  rule (exact `"yes"` to generate, anything else to rewrite), runs of the
  graph driven by the models' decisions, and the references suffix the
  generate step appends. That suffix is Python's rendering of a `list[str]`
  (`pyrepr.dfy`, module `PyRepr`), and it is proved to read back as the cited list.
- **HTTP server** (`http_server.dfy`, module `HttpServer`). The rate limiter is a class whose
  `requestCounts` map `Dispatch` updates in place. For sequential dispatches
  in clock order, the model proves that a request is forwarded iff it is among
  its client's first `calls_per_minute` requests of its minute. So in every
  minute a client gets `min(requests, calls_per_minute)` requests through. The same module holds
  the API-key rule, the 50-character log preview and the reply built from
  the conversation's last message.
- **Model adapter** (`llm.dfy`, module `Llm`). `call_model`'s prompt assembly: the optional system
  prompt first, as a human message for `o1` models, then the caller's messages.
  It also covers tool normalisation, the tracing defaults and the choice of return value.
  The completion service and the two format conversions are parameters.

`messages.dfy` holds the chat-message type, and `wrappers.dfy` holds `Option` and `Result`.
`pystr.dfy` holds Python's `join`, `startswith` and slicing.

## Model

| member | source | states |
|---|---|---|
| `Retrieval.PageOf` | src/agent.py:71-78 | a rebuilt document is keyed by the hit's decision number, and its page is the header `Nomor Dokumen Putusan: <n>` and a blank line followed by the full summary unchanged |
| `Retrieval.FirstHits` | src/agent.py:64-79 | the survivors are drawn from the input hits and are never more than them |
| `Retrieval.FirstIndex` | src/agent.py:67-69 | the first position whose hit carries a given decision number: that hit has the number and no earlier hit does |
| `Retrieval.UniqueDocuments` | src/agent.py:64-79 | the de-duplication loop returns exactly the pages of `FirstHits(hits)`, in order |
| `Retrieval.FirstHitsExactlyOnce` | src/agent.py:67-79 | each decision number of the input occurs exactly once among the survivors; numbers not in the input occur zero times |
| `Retrieval.FirstHitsSameNumbers` | src/agent.py:67-79 | the survivors carry exactly the input's decision numbers |
| `Retrieval.FirstHitsAreFirstOccurrences` | src/agent.py:67-79 | every survivor is the first hit with its decision number, and survivors appear in the order of those first hits |
| `Retrieval.FirstHitsDistinct` | src/agent.py:67-69 | no two survivors share a decision number (later hits with a seen number are skipped) |
| `Retrieval.FirstHitSurvives` | src/agent.py:67-79 | the retriever's first hit always survives and comes first |
| `Retrieval.GetRelevantDocuments` | src/agent.py:56-83 | the synchronous tool returns the separator-join of the formatted pages of the first hits |
| `Retrieval.AGetRelevantDocuments` | src/agent.py:86-114 | the asynchronous tool returns the same string as the synchronous one for the same hits |
| `Retrieval.DefaultPromptIsPageContent` | src/agent.py:139 | the default prompt `{page_content}` formats every document as its page content |
| `Retrieval.DefaultTextShape` | src/agent.py:71-83 | with the default prompt the tool returns `""` iff there are no hits, and otherwise starts with the page `Nomor Dokumen Putusan: <n>\n\n<full_summary>` of the first hit |
| `Retrieval.CreateRetrieverTool` | src/agent.py:117-158 | the tool keeps name, description and separator (default blank line), uses the given prompt when there is one, and `{page_content}` when there is none |
| `Retrieval.DefaultToolReturnsPages` | src/agent.py:122-139 | a tool built without prompt or separator returns the rebuilt pages verbatim, joined by `"\n\n"` |
| `Retrieval.CourtDecisionToolDefaults` | src/agent.py:168-173 | the court-decision tool is named `retrieve_court_decision_document_summary`, uses the default prompt and separator, and returns the rebuilt pages of the first hits verbatim, joined by `"\n\n"` |
| `Workflow.IsEdge` | src/agent.py:380-401 | no declared edge leaves END and none enters START |
| `Workflow.GradeDocuments` | src/agent.py:233-242 | the relevance check routes to generate iff the score is exactly `"yes"`, and to rewrite otherwise |
| `Workflow.GradeIsExact` | src/agent.py:235-242 | `"Yes"`, `"YES"`, `"yes "` and `"no"` all lead to rewrite; only `"yes"` leads to generate |
| `Workflow.Step` | src/agent.py:380-401 | the next step always follows a declared edge, and only END has no next step |
| `Workflow.EveryEdgeIsTaken` | src/agent.py:380-401 | every declared edge is taken for some decision of the models |
| `Workflow.Trace` | src/agent.py:367-403 | a run from a step starts at that step and takes at most one step per decision |
| `Workflow.TraceFollowsGraph` | src/agent.py:380-401 | every move of a run follows the edge table and is the step its decision selects; END occurs only last; a run stops early only at END |
| `Workflow.RunRouting` | src/agent.py:380-401 | START goes only to agent; generate only follows a retrieval graded `"yes"`; rewrite only follows one graded otherwise; retrieve only follows an agent reply with a tool call |
| `Workflow.RunEnds` | src/agent.py:383-400 | a finished run ends right after an agent reply without a tool call or right after generate |
| `Workflow.GenerateMessage` | src/agent.py:355-364 | the answer message starts with the generated answer, differs from it iff references were cited, and keeps the references unchanged under `references` |
| `Workflow.ReferencesAreReadable` | src/agent.py:357-358 | after the answer and `"\n\nReferensi:\n\n"` comes the Python text of the cited list, which reads back as exactly that list |
| `PyRepr.ListReprRoundTrip` | src/agent.py:358 | the text the f-string writes for a list of strings determines the list |
| `HttpServer.Answer` | main/http_server/app.py:61-66 | a request is answered with 429 `Too many requests` iff it is rejected, and handed on to the application iff it is forwarded |
| `HttpServer.NextWindow` | main/http_server/app.py:50-59 | a client's window after a request holds the current minute, and its count is one more than before in the same minute and 1 otherwise |
| `HttpServer.Admit` | main/http_server/app.py:50-66 | one dispatch on the table as a value: the client gains or keeps an entry for the current minute, no other entry changes, and the request is rejected iff the new count exceeds the limit |
| `HttpServer.RateLimitMiddleware.constructor` | main/http_server/app.py:40-44 | the limit defaults to 60 and the table starts empty |
| `HttpServer.AdmitAsWritten` | main/http_server/app.py:58-66 | as written, the table is updated as in a correct dispatch, and the dispatch raises iff the new count exceeds the limit; otherwise the request is forwarded |
| `HttpServer.AsWrittenRejectionRaises` | main/http_server/app.py:58-66 | as the file is written, the rejection branch raises `NameError` for every request over the limit (the 61st in one minute under the default limit) and never answers 429; the count update still happens |
| `HttpServer.RateLimitMiddleware.Dispatch` | main/http_server/app.py:46-66 | afterwards the client's entry holds the current minute; its count is 1 on a first request or a new minute, and one more in the same minute, rejected requests included; other clients' entries are unchanged; the request is rejected iff the new count exceeds `calls_per_minute` |
| `HttpServer.Serve` | main/http_server/app.py:46-66 | a sequence of dispatches from an empty table yields one decision per request |
| `HttpServer.ServeInvariant` | main/http_server/app.py:46-66 | after dispatches in clock order, a client's entry counts its requests in the entry's minute, no request of the client is later than that minute, and in every minute the client had `min(requests, max(calls_per_minute, 0))` forwarded |
| `HttpServer.ServePrefix` | main/http_server/app.py:46-66 | the decisions on the first k requests do not depend on the requests that follow them |
| `HttpServer.LastWindowCounts` | main/http_server/app.py:50-59 | for dispatches in clock order, the count a request brings its client's window to is the number of that client's requests in that minute so far, the request included |
| `HttpServer.ForwardedIffAmongFirst` | main/http_server/app.py:58-66 | for dispatches in clock order, a request is forwarded iff it is among its client's first `calls_per_minute` requests of its minute |
| `HttpServer.ForwardedPerMinute` | main/http_server/app.py:58-66 | in every minute each client has exactly `min(requests, calls_per_minute)` requests forwarded, so at most `calls_per_minute` |
| `HttpServer.VerifyApiKey` | main/http_server/app.py:111-123 | with no configured key every request passes; otherwise a request passes iff it supplies the configured key, and fails with 403 `Invalid API key` |
| `HttpServer.MessagePreview` | main/http_server/app.py:147 | the preview is the message itself up to 50 characters, and otherwise its first 50 characters followed by `...` |
| `HttpServer.ReceivedLogLine` | main/http_server/app.py:146-149 | the log line names the thread, then shows the message itself when it has at most 50 characters, and is never more than 53 characters longer than its prefix |
| `HttpServer.ChatbotReply` | main/http_server/app.py:151-174 | the reply holds the last message's text and its `references`, or no references when the key is absent |
| `HttpServer.GeneratedReplyCarriesReferences` | main/http_server/app.py:167-174 | a turn that ends with the generate step is answered with exactly the cited decision numbers and a text that starts with the generated answer |
| `Llm.AssemblePrompts` | utility/llm.py:85-97 | with no or an empty system prompt the prompt list is the caller's messages; otherwise it is a system message, or a human message for a model name starting with `o1`, followed by the caller's messages unchanged; a missing `model` key fails only when there is a system prompt |
| `Llm.NormaliseTools` | utility/llm.py:113 | absent or empty tools become none; otherwise there is one converted tool per input tool, in order |
| `Llm.TracingMetadata` | utility/llm.py:82-83 | absent tracing metadata becomes the empty map; given metadata is kept |
| `Llm.Callbacks` | utility/llm.py:103-108 | the Langfuse callbacks are set only when tracing is enabled |
| `Llm.SelectResponse` | utility/llm.py:127-137 | `"langchain"` format returns the converted result or its first generation's message; any other format returns the raw response or its first choice's message; an empty list of choices or generations is an error |
| `Llm.CallModel` | utility/llm.py:82-137 | with a system prompt the request's first message carries it, as a human message for a model name starting with `o1` and as a system message otherwise; the request holds the assembled prompts, the normalised tools, the defaulted metadata, the tracing callbacks and `model_conf` unchanged, and the return value is selected from the service's response to that request |

## Left out

- Hosted model calls are inputs. This covers the agent's tool-calling reply, the relevance model's score, the query rewrite and the generator's structured answer. Their prompt texts are not modelled, and neither is the growing message history (`add_messages`) that the steps append to.
- The vector store and the retriever are left out: the tool is modelled from the list of hits the retriever returns. Every hit is taken to carry `decision_number` and `full_summary`, because the indexer writes both on every chunk. The `KeyError` a hit without them would raise is therefore not modelled, and neither are the query and the callbacks.
- Retrieval.FormatDocument: only the template variables a rebuilt document provides are modelled (`page_content`, `decision_doc_id`). A template naming another variable would raise, and that case is not represented.
- PyRepr.EscapeChar: non-ASCII characters are written unchanged. Python escapes the non-printable ones among them (`\x..`, `\u....`, `\U........`), which the model does not do; ASCII is written exactly as Python does.
- The framework's `tools_condition` and `ToolNode` are left out: the agent's routing takes a flag for "the reply calls a tool".
- The rejected request's response object is left out: `HttpServer.Answer` maps the outcome `Rejected` to status 429 `Too many requests` (see Findings).
- The rate limiter takes the current minute as an integer input instead of reading the clock. Its logging is left out, and so are concurrent dispatches: dispatches are sequential calls. HttpServer.ForwardedPerMinute assumes requests are dispatched in clock order; if the clock ran backwards, a client's earlier minute would open again with a fresh count.
- The CORS, trusted-host, HTTPS-redirect, request-id and logging middleware, `log_timing`, the health and startup handlers, and the settings loading are left out. They are framework and library configuration.
- `send_message` invoking the compiled graph with the in-memory checkpointer is left out. The reply is modelled from the conversation's last message.
- `call_model`'s retry/backoff decorator and the global `litellm.drop_params` flag are left out. So is `convert_to_openai_messages`: the request carries the assembled messages before conversion. The global success/failure callbacks are modelled as the request's `callbacks` field.
- `model_conf` is passed to the completion service unchanged as the request's `modelConf`. Its values are modelled as strings; non-string settings such as a numeric temperature are not represented.
- The indexer CLI, the local chat loop, logging configuration and the subprocess/coroutine helpers are not part of this model.

## Findings

| source | as written | input that shows it | evidently intended | confidence | as-written member | corrected member |
|---|---|---|---|---|---|---|
| main/http_server/app.py:64 | the rejection branch constructs `Response`, which app.py never imports, so it raises `NameError` instead of answering | a client's 61st request within one minute under the default limit of 60 | answer status 429 `Too many requests` | high (not executed) | `HttpServer.AsWrittenRejectionRaises` | `HttpServer.RateLimitMiddleware.Dispatch` |
