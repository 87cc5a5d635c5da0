# RAG PDF chatbot: upload route, chat routes, chat agent and browser client

This project models the core of a small retrieval-augmented chatbot service:

- **Upload route** (`POST /api/upload/pdf`, module `Upload`). Three guards run in a fixed order: the file type, then emptiness, then size. An accepted file is stored under `data/uploads/{file_id}_{filename}`. The route then calls the indexer, and on any failure after validation it removes the stored path again. A write that raises after `open` has created the file leaves its partial bytes there until that removal. The upload directory is a map from path to bytes, and `UploadPdf` is proved equal to a functional specification `UploadPdfSpec`. The lemmas about that specification state the behaviour on success and on failure.
- **Chat routes** (`POST /api/chat/stream` and `POST /api/chat`, module `ChatRoutes`). The streaming route frames every token as a server-sent event (`data: <token>\n\n`). It ends the stream with `[DONE]`, or with an `[ERROR: …]` frame when the token source raises. The non-streaming route concatenates the same tokens.
- **Chat agent** (`ChatAgent.stream_response`, `get_db`, `get_agent`, module `ChatAgentModel`). Before each generation the agent searches the knowledge base. It builds a prompt with numbered excerpts, each cut to 500 characters, and falls back to the bare question when nothing is found or the search fails. It forwards the model's non-empty chunks and turns a generation failure into one in-band error fragment. The two module-level singletons are the fields of `AgentRegistry`.
- **Browser client** (`ChatInterface`, module `ChatUi`). The class holds the widgets' state: input text, send button, status label and colour, upload status, and the chat's cards. `send_message` reads the streamed reply line by line. `handle_upload` posts a PDF and reports the outcome. The main end-to-end result is `RoundTrip`: the client, reading the body that the streaming route sends, accumulates exactly the concatenated tokens and stops on the terminal frame. The client splits the body wherever Python's `str.splitlines` would, so the round trip needs tokens without any of those line breaks. An exception text that spans lines is cut: the error card holds the error frame only up to the text's first line break. The agent's own error fragment starts with a line feed, and `AgentFailureShowsEmptyAnswer` shows where that leads. A generation that fails before any chunk, with a one-line error text, reaches the user as an empty answer card, with the error text dropped by the client.

The foreign calls have no code the model can see. These are the knowledge search, the language model's chunk stream, the indexer, the file system's open, write and unlink outcomes, `uuid4`, and the HTTP client's replies. Each is a parameter of the operation that uses it.

Supporting modules:

- `Text` holds the Python string operations used by the core: `lower`, `strip`, `isspace`, the `splitlines` line breaks, `startswith`, `endswith`, slicing, `join`, `str(int)` and its inverse `int(str)`.
- `Http` holds the error type with its status codes.
- `Wrappers` holds `Option` and `Result`.

## Model

| member | source | states |
|---|---|---|
| Upload.Validate | app/api/file_upload_routes.py:34-57 | no error exactly when the name is present and ends in `.pdf` case-insensitively and 0 < size ≤ max_upload_size_mb·1024·1024; any error is a 400 or a 413 |
| Upload.IsPdfNameSuffix | app/api/file_upload_routes.py:35 | the type guard accepts a name exactly when its last four characters, lower-cased, are `.pdf` |
| Upload.ValidationOrder | app/api/file_upload_routes.py:34-57 | the first failing guard is reported: type (whatever the content) before emptiness before size, with their exact status and detail |
| Upload.SizeLimitBoundary | app/api/file_upload_routes.py:51-57 | content of exactly the limit is accepted and one byte more is refused with 413 and the "exceeds maximum limit of {mb}MB" detail |
| Upload.ErrorResponse | app/api/file_upload_routes.py:91-110 | an `HTTPException` is re-raised unchanged; any other exception becomes a 500 whose detail is "Failed to upload PDF: " followed by the exception text |
| Upload.RejectedWritesNothing | app/api/file_upload_routes.py:32-57 | a request that fails validation writes no file, calls no indexer, and answers with the guard's error |
| Upload.OnlyStoredPathChanges | app/api/file_upload_routes.py:59-104 | no path other than `data/uploads/{file_id}_{filename}` is ever created, changed or removed |
| Upload.SuccessfulUpload | app/api/file_upload_routes.py:59-89 | success exactly when the guards pass and neither the write nor the indexer raises; then the file holds the content, and one id is the file key, the indexed document id and the returned `file_id` |
| Upload.FailureCleansUp | app/api/file_upload_routes.py:59-110 | every failure after validation leaves no stored file when removing it succeeds, and then with a fresh id restores the directory; when removing it raises, the path keeps the whole content (indexer failure), the partial bytes (write failure) or nothing new (`open` failure); the raising step's exception is passed through `ErrorResponse` |
| Upload.UploadStore.UploadPdf | app/api/file_upload_routes.py:21-110 | the response, the indexer call and the new directory (including a partially written file a failed removal leaves) are those of `UploadPdfSpec` applied to the old directory |
| ChatRoutes.Admit | app/api/models.py:9-10 | a request is admitted exactly when its message has at least one character, otherwise 422 |
| ChatRoutes.FramePayloadRoundTrip | app/api/chat_routes.py:36 | the payload reads back unchanged from between `data: ` and the blank line of its frame |
| ChatRoutes.FrameInjective | app/api/chat_routes.py:36 | distinct payloads give distinct frames |
| ChatRoutes.Generate | app/api/chat_routes.py:27-42 | the frames are `EventStream`: one frame per token, in order, then the terminal frame |
| ChatRoutes.EventStreamShape | app/api/chat_routes.py:31-42 | there is one frame more than there are tokens; frame i carries token i; the last is `[DONE]` on normal completion and `[ERROR: message]` otherwise |
| ChatRoutes.DoneFrameCount | app/api/chat_routes.py:36-42 | if no token is itself `[DONE]`, the stream holds exactly one `[DONE]` frame on normal completion and none after a failure |
| ChatRoutes.StreamChat | app/api/chat_routes.py:15-56 | 422 for an empty message; 500 with the exception text when `get_agent` fails; otherwise the event stream, and the agent is asked with exactly the request's message and session id (none on the error paths) |
| ChatRoutes.Chat | app/api/chat_routes.py:59-85 | 422 for an empty message; 500 when `get_agent` or the token source raises; otherwise the tokens concatenated in order, with the session id or "default"; the agent is asked with exactly the request's message and session id |
| ChatRoutes.ChatAgreesWithStream | app/api/chat_routes.py:72-76 | the non-streaming answer equals the concatenated payloads of the streaming route's token frames |
| ChatRoutes.AgentStreamEndsWithDone | app/api/chat_routes.py:31-42 | with the agent as token source the stream always ends with `[DONE]`; a generation failure arrives as the frame of the error fragment just before it |
| ChatAgentModel.SessionOrDefault | app/agent/chat_agent.py:113 | the user id is the session id when it is present and non-empty, and "default" otherwise |
| ChatAgentModel.ContextPartsNumbering | app/agent/chat_agent.py:88-92 | one context part per search result with content; the part for result j comes after the earlier results' parts and is headed `[Document j+1]` even when earlier results were skipped |
| ChatAgentModel.ContextPartsAllContent | app/agent/chat_agent.py:88-92 | when every result has content, part k is result k's excerpt under `[Document k+1]` |
| ChatAgentModel.ExcerptIsPrefix | app/agent/chat_agent.py:92 | a part is its header followed by the first min(length, 500) characters of the content |
| ChatAgentModel.BuildContext | app/agent/chat_agent.py:88-92 | the enumerate loop collects exactly `ContextParts` |
| ChatAgentModel.AugmentFallback | app/agent/chat_agent.py:103-109 | an empty result list or a failed search leaves the message unchanged |
| ChatAgentModel.EnhancedMessageContains | app/agent/chat_agent.py:94-101 | with results, the prompt contains the joined context and the question, and the question reads back from its place in the template |
| ChatAgentModel.FilterKeepsText | app/agent/chat_agent.py:117-119 | skipping chunks without content loses no text, and every forwarded fragment is non-empty |
| ChatAgentModel.FragmentsOnFailure | app/agent/chat_agent.py:117-124 | a failed generation yields the forwarded fragments and then exactly one `\n[Error: …]` fragment; a successful one yields only the forwarded fragments |
| ChatAgentModel.ChatAgent.StreamResponse | app/agent/chat_agent.py:63-124 | the knowledge base is searched for the raw message with at most 3 results; the model is called with `AugmentedMessage` and the user id `SessionOrDefault`; the yielded fragments are `Fragments` of the run |
| ChatAgentModel.AgentRegistry.GetDb | app/agent/chat_agent.py:18-28 | the database handle is created on the first call only, and later calls return the same object; the registry invariant (an existing agent holds the registry's handle) is kept |
| ChatAgentModel.AgentRegistry.GetAgent | app/agent/chat_agent.py:131-140 | the agent is created on the first call only, with the registry's database handle, and later calls return the same object; the registry invariant is kept |
| ChatAgentModel.AccessorsAreStable | app/agent/chat_agent.py:131-140 | two calls of each accessor return identical objects, and the agent always holds the handle that `get_db` returns |
| ChatUi.MessageCard | app/ui/chat_interface.py:218-244 | the card drawn is an error card if the error flag is set, else a system card if the system flag is set, else a user card if the user flag is set, each holding the text; with no flag set, no card is drawn |
| ChatUi.MessageCardCovers | app/ui/chat_interface.py:218-244 | `add_message` never draws an assistant card, and every other card is exactly what it draws with that card's own flag alone |
| ChatUi.ChatInterface.AddMessage | app/ui/chat_interface.py:218-244 | the chat gains the card `MessageCard` chooses, or nothing; every error, user and system card of the class is added through it |
| ChatUi.StatusColorTable | app/ui/chat_interface.py:252-260 | the five known status kinds get their mapped colours; every other kind gets `text-gray-500` |
| ChatUi.ChatInterface.SetStatus | app/ui/chat_interface.py:246-262 | the label shows the text in the colour of the status kind |
| ChatUi.StopLineEndsReading | app/ui/chat_interface.py:175-184 | no line after a `[DONE]` or `[ERROR` line changes what the client read |
| ChatUi.ParseAccumulates | app/ui/chat_interface.py:175-186 | without a stop line the answer is every `data: ` payload appended in arrival order, and the assistant card exists once any payload has arrived |
| ChatUi.RoundTrip | app/ui/chat_interface.py:173-186 | reading the body sent by the streaming route gives back exactly the concatenated tokens, and stops on `[DONE]`, or, when the token source raised, on the error frame's payload up to its first line break |
| ChatUi.EndForOneLine | app/ui/chat_interface.py:175-184 | for a one-line exception text the client stops on the whole `[ERROR: m]` payload |
| ChatUi.EndForCutsAtBreak | app/ui/chat_interface.py:175-184 | for an exception text that spans lines the client stops on `[ERROR: ` followed by the text's first line only |
| ChatUi.AgentFailureLines | app/agent/chat_agent.py:122-124 | when generation fails before any chunk with a one-line error text m, the body splits into the lines `data: `, `[Error: m]`, an empty line, `data: [DONE]` and an empty line: the error text loses its `data: ` prefix |
| ChatUi.AgentFailureShowsEmptyAnswer | app/ui/chat_interface.py:175-200 | for that body, with a one-line error text, the client adds a single empty assistant card and no error card: the agent's error message never reaches the chat |
| ChatUi.ReplyCardsForStream | app/ui/chat_interface.py:173-200 | a successful stream of one or more `PlainToken` tokens adds one assistant card holding all of them and no error card |
| ChatUi.ChatInterface.ReadReply | app/ui/chat_interface.py:173-213 | the loop adds the assistant card and the error card that `ReplyCards` prescribes for the lines read and for a read that broke off |
| ChatUi.ChatInterface.ReceiveReply | app/ui/chat_interface.py:150-213 | a failed request adds one error card; a reply that arrives is read by `ReadReply` |
| ChatUi.ChatInterface.BeginSend | app/ui/chat_interface.py:143-160 | the input is cleared, the button disabled, the user's card added and the status set to generating |
| ChatUi.ChatInterface.SendMessage | app/ui/chat_interface.py:134-216 | a blank input changes nothing and sends nothing; otherwise the stripped message is sent with the session id, the input is cleared, the cards become the user's card plus the reply's cards, the status ends at "Ready" and the button is enabled again |
| ChatUi.ChatInterface.HandleUpload | app/ui/chat_interface.py:80-132 | a read failure or a non-`.pdf` name posts nothing and reports it; otherwise the file is posted, a 200 adds the "Uploaded:" system card, any other status shows the response's detail (or "Upload failed"), an exception shows its text; the status ends at "Ready" on every path |
| ChatUi.ChatInterface.constructor | app/ui/chat_interface.py:16-53 | the session id is `nicegui_session_001`; the chat is empty, the input is empty, the button is enabled, and the status is "Ready" in grey |
| Text.Lower | app/api/file_upload_routes.py:35 | lower-casing keeps the length and maps every character through the ASCII case mapping |
| Text.StripLeftSpaces | app/ui/chat_interface.py:138 | `lstrip` removes exactly the leading run of whitespace |
| Text.StripRightSpaces | app/ui/chat_interface.py:138 | `rstrip` removes exactly the trailing run of whitespace |
| Text.StripEmptyIff | app/ui/chat_interface.py:138-141 | the stripped input is empty exactly when every character is whitespace |
| Text.StripTrimmed | app/ui/chat_interface.py:138 | a stripped message neither starts nor ends with whitespace and occurs in the input |
| Text.NatToDecimal | app/api/file_upload_routes.py:56 | the rendering of a natural number is a non-empty string of digits with no leading zero, except for 0 itself |
| Text.IntToDecimal | app/api/file_upload_routes.py:56 | the decimal rendering of the size limit is non-empty and starts with `-` exactly for negative values |
| Text.NatToDecimalValue | app/api/file_upload_routes.py:56 | reading back the digits of a natural number's rendering gives the number |
| Text.IntToDecimalValue | app/api/file_upload_routes.py:56 | `int(str(n)) == n` for every integer; a negative number renders as `-` followed by its magnitude's digits |

## Left out

- The agent's construction is not modelled: the language-model settings, the instructions and the `Agent` object itself. So is the knowledge base (`app/knowledge/store.py` is not part of this model). The knowledge search, the model's chunk stream and the indexer are parameters holding their outcomes.
- Logging and the thread-pool executor are not modelled, and neither is `asyncio.sleep(0)`. Concurrency between requests is out of scope, including racing first calls of `get_db`/`get_agent`: the model runs one request at a time.
- `uuid4` is a parameter. Its uniqueness is not assumed, and `FailureCleansUp` states directory restoration only for an id whose path is not already present.
- Upload.UploadStore.UploadPdf: reading the request body is taken to succeed. A failing `file.read()` would be a 500 with nothing written, and the model has no parameter for it.
- Creating the upload directory at import time is not modelled.
- The streaming response's media type and headers are not modelled, and neither is NiceGUI's layout, styling or scrolling. The status label's colour is kept without its `text-sm` class prefix.
- ChatRoutes.StreamChat: the frames are returned as a whole sequence in order. Their lazy delivery as the tokens arrive is not modelled.
- ChatAgentModel.AgentRegistry.GetAgent: the `ChatAgent` constructor cannot fail in the model. The routes take a failing `get_agent` as the `agentFailure` parameter instead.
- ChatRoutes.Admit: pydantic's 422 body is a structured list. The model keeps the status and one message.
- ChatUi.ChatInterface.HandleUpload: the response detail is taken as text, where the client shows `str()` of whatever JSON it holds. A body that is not JSON is not modelled.
- Text.Lower: only the ASCII letters are case-mapped. Python lower-cases every cased Unicode letter.
- ChatUi.Lines: the body is split as one string. How the HTTP client's line decoder handles a `\r\n` pair that arrives split across two network chunks is not modelled.
- ChatUi.RoundTrip covers only tokens that hold none of the `str.splitlines` line breaks and are not themselves terminal payloads (`PlainToken`). The exception text may hold line breaks.
- ChatUi.ReplyCardsForStream covers only a non-empty list of `PlainToken` tokens. An empty stream adds no card, and a token with a line break is cut where the client splits it.
- ChatUi.AgentFailureLines covers only an error text without line breaks. With a multi-line text the lines after the first depend on the text itself.
- ChatUi.AgentFailureShowsEmptyAnswer covers only an error text without line breaks. A later line of a multi-line text that starts with `data: ` is read as a payload and appended to the answer.
- Upload.UploadStore.UploadPdf: the bytes a failed write leaves behind are a free parameter. The model does not constrain them to a prefix of the content.
- ChatAgentModel.ChatAgent.StreamResponse: search results are well formed (`Doc`). A result whose `content` attribute is `None`, or any other exception while building the context, also falls back to the bare message in the source, because the context is built inside the search's `try`. The model has no such result.
