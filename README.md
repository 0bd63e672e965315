# Chat-with-PDF backend core, modelled in Dafny

This project models the backend core of Chat-with-PDF, a service for asking questions about
uploaded PDFs. The model covers four parts:

- **Session registry** (`Sessions`, `session_manager.dfy`). This is the in-memory
  `SessionManager` dictionary. The class `Sessions.SessionManager` updates its `sessions` map
  in place. Each method is proved equal to a pure registry function. One lemma shows that a
  request leaves every other session's record alone, and lemmas over request traces show that
  a session no request of the trace names is untouched and that only `create_session` adds
  sessions.
- **Conversation memory** (`ChatHistory`, `chat_manager.dfy`). This is `ChatHistoryManager`.
  It serialises each turn and appends it to the session's memory index. It formats the
  retrieved turns into the chat context and its provenance lines, and it deletes the memory
  index. The per-session directory of indexes is the class `Store.SessionStorage`
  (`store.dfy`), with one map for document indexes and one for memory indexes. Each vector
  index is modelled by the documents it holds, in insertion order.
- **Answering a question** (`Composer`, `chat_processor.dfy`). This covers completion of the
  prompt template's missing placeholders, the default template, and prompt resolution
  between request and session. It also covers the citation set built from the retrieved
  documents, and `process_question`: its error paths, what the model is asked, and the turn
  it records afterwards.
- **Ingestion tagging** (`Ingest`, `ingest.dfy`). This is page enumeration in `get_pdf_text`
  and per-page chunk tagging in `get_text_chunks`. It also covers the parallel texts and
  metadatas of `get_vector_store` and the document index that `process_pdf_files` stores.

The foreign services are parameters of the model:

- The outcome of a similarity search is a `Store.Retrieval` value: some hits or a failure.
  The hits must satisfy `Store.DrawnFrom`, which means at most `k` entries and each of them
  an entry of the index searched.
- The language model is a function from the call it receives to an optional reply. A
  missing reply stands for a raised exception.
- The PDF reader is the list of page texts of each file.
- The text splitter is a function from a page text to its chunks.
- The clock is the formatted timestamp string.
- Whether embedding and saving succeed is a boolean.

The model follows the code where it departs from its own messages. A session without a
document index is rejected inside `process_question` with an HTTP 400, but the surrounding
`except Exception` turns it into a 500. The model states the 500 (`Composer.ProcessQuestion`).

## Model

| member | source | states |
|---|---|---|
| Common.JoinContainsPart | backend/core/chat_manager.py:98-100 | every block joined into the chat context occurs in the joined text |
| Common.NatToStringInjective | backend/core/chat_processor.py:100 | the decimal rendering of a page number in a citation determines the number |
| Sessions.CreateSessionReplaces | backend/core/session_manager.py:11-18 | `create_session` stores a processed record with an empty transcript, the given files and no prompt override, replacing any earlier record, and no other id changes |
| Sessions.UnknownIdQueries | backend/core/session_manager.py:20-32 | for an unknown id: `get_session` gives None, `is_session_processed` false, `get_history` `[]`, `get_system_prompt` None, `get_session_info` `{}` |
| Sessions.AddToHistoryAppendsOne | backend/core/session_manager.py:34-40 | appending to an existing session adds exactly one `{type, content}` message at the end and changes nothing else of that record or of any other |
| Sessions.ClearHistoryOnlyEmptiesTranscript | backend/core/session_manager.py:48-51 | clearing empties the transcript only, keeps the keys, and clearing twice equals clearing once |
| Sessions.SetThenGetPrompt | backend/core/session_manager.py:53-67 | a prompt that was set is the prompt read back; after a reset none is |
| Sessions.UnknownIdIsNoOp | backend/core/session_manager.py:34-67 | every request except `create_session` leaves the registry unchanged for an unknown id |
| Sessions.OtherSessionsUntouched | backend/core/session_manager.py:11-67 | no request changes a record other than the one it names |
| Sessions.TraceIsolation | backend/core/session_manager.py:11-67 | over any request trace in which no request names a session, that session's record is as it was |
| Sessions.OnlyCreateAddsKeys | backend/core/session_manager.py:11-67 | over any request trace, the registry's ids are the initial ids plus those named by `create_session`; nothing is removed |
| Sessions.OnlyCreateWritesFiles | backend/core/session_manager.py:11-18 | a trace without `create_session` never changes an existing session's processed flag or file list |
| Sessions.SessionManager.constructor | backend/core/session_manager.py:8-9 | the registry starts empty |
| Sessions.SessionManager.CreateSession | backend/core/session_manager.py:11-18 | the new registry is the old one with the fresh record at the id |
| Sessions.SessionManager.GetSession | backend/core/session_manager.py:20-22 | returns the record, or None for an unknown id |
| Sessions.SessionManager.SessionExists | backend/core/session_manager.py:24-26 | true exactly when the id is registered |
| Sessions.SessionManager.IsSessionProcessed | backend/core/session_manager.py:28-32 | true exactly when the id is registered and its flag is set |
| Sessions.SessionManager.AddToHistory | backend/core/session_manager.py:34-40 | the registry after appending the message, and no change for an unknown id |
| Sessions.SessionManager.GetHistory | backend/core/session_manager.py:42-46 | the session's transcript, `[]` for an unknown id |
| Sessions.SessionManager.ClearHistory | backend/core/session_manager.py:48-51 | the registry with that transcript emptied, and no change for an unknown id |
| Sessions.SessionManager.SetSystemPrompt | backend/core/session_manager.py:53-56 | the registry with the override set, and no change for an unknown id |
| Sessions.SessionManager.GetSystemPrompt | backend/core/session_manager.py:58-62 | the override, None for an unknown id |
| Sessions.SessionManager.ResetSystemPrompt | backend/core/session_manager.py:64-67 | the registry with the override removed, and no change for an unknown id |
| Sessions.SessionManager.CleanupOldSessions | backend/core/session_manager.py:78-82 | the stub leaves the registry unchanged |
| Sessions.SessionManager.GetSessionInfo | backend/core/session_manager.py:69-76 | `{}` for an unknown id, otherwise the record's fields plus the session id |
| ChatHistory.TurnText | backend/core/chat_manager.py:24-26 | the stored text starts with the `User Question: …\nAssistant Answer: …` line pair, and is exactly that when there are no sources |
| ChatHistory.TurnTextMentions | backend/core/chat_manager.py:24-26 | the stored text contains the question, the answer and, when sources are given, every source |
| ChatHistory.TurnMetadata | backend/core/chat_manager.py:28-34 | the metadata is typed `conversation` and holds the timestamp, the question, the answer and the sources, `[]` when none are given |
| ChatHistory.BlocksMatchProvenance | backend/core/chat_manager.py:84-98 | there are as many context blocks as provenance lines, and both number exactly the qualifying hits, never more than the hits |
| ChatHistory.BlockOrigin | backend/core/chat_manager.py:84-98 | the block and the provenance line at each position both come from one and the same qualifying hit |
| ChatHistory.NonQualifyingIgnored | backend/core/chat_manager.py:84-98 | a hit lacking `user_question` or `assistant_answer`, wherever it stands among the hits, changes neither the blocks nor the provenance |
| ChatHistory.QualifyingHitFormatted | backend/core/chat_manager.py:88-98 | a qualifying hit's block and provenance line are among the formatted ones |
| ChatHistory.ContextShape | backend/core/chat_manager.py:74-101 | with an index, the context is the blocks joined by `\n\n---\n\n`, and there are at most `max_results` provenance lines |
| ChatHistory.EmptyContextCases | backend/core/chat_manager.py:61-105 | a missing index, a failed search and an empty search all give `("", [])` |
| ChatHistory.RecordedTurnReadsBack | backend/core/chat_manager.py:19-95 | a recorded turn always qualifies, is typed `conversation`, and formats to `Previous Q/A` with its sources and timestamp |
| ChatHistory.BlockMentionsTurn | backend/core/chat_manager.py:89-93 | a block shows its entry's question and answer |
| ChatHistory.RecalledTurnInContext | backend/core/chat_manager.py:19-101 | when the search returns an earlier turn, its question and answer are in the context text and its timestamp is in the provenance |
| ChatHistory.ChatHistoryManager.constructor | backend/core/chat_manager.py:13-17 | the manager is bound to its session's directory |
| ChatHistory.ChatHistoryManager.AddToHistory | backend/core/chat_manager.py:19-59 | on success the session's memory index gains exactly the serialised turn at the end, or a one-entry index is created; any failure is swallowed and leaves storage as it was; document indexes are never touched |
| ChatHistory.ChatHistoryManager.GetRelevantContext | backend/core/chat_manager.py:61-105 | the loop produces the reference context and provenance, with at most `max_results` provenance lines |
| ChatHistory.ChatHistoryManager.ClearHistory | backend/core/chat_manager.py:107-110 | the session's memory index is gone afterwards, and nothing else changes |
| ChatHistory.RecordTurnAppends | backend/core/chat_manager.py:38-52 | writing a turn appends exactly that entry to an existing index, or creates `[entry]` |
| ChatHistory.ClearIdempotent | backend/core/chat_manager.py:61-110 | clearing twice equals clearing once, and a cleared memory yields the empty context |
| Composer.ResolvePrompt | backend/main.py:101 | the result is the request prompt or the session prompt; a non-empty request prompt wins and an empty one falls through to the session's |
| Composer.CompletePrompt | backend/core/chat_processor.py:20-26 | completion only ever extends the template: the given template is a prefix of the result |
| Composer.ChainPrompt | backend/core/chat_processor.py:17-26 | a given template is kept as the prefix of the chain's template |
| Composer.CompleteStep | backend/core/chat_processor.py:21-26 | one completion step keeps the template as a prefix, supplies the placeholder it tests for and keeps the placeholders already present |
| Composer.SectionsAddNoLaterPlaceholder | backend/core/chat_processor.py:21-26 | appending a section never creates or removes an occurrence of a later placeholder |
| Composer.SectionsHavePlaceholders | backend/core/chat_processor.py:21-26 | each appended section holds its own placeholder |
| Composer.CompleteAppendsMissing | backend/core/chat_processor.py:20-26 | completion equals the template followed by the sections of exactly the placeholders missing from the original template, in the order context, chat context, input |
| Composer.CompletedHasAllPlaceholders | backend/core/chat_processor.py:20-26 | the completed template contains `{context}`, `{chat_context}` and `{input}` |
| Composer.ChainHasAllPlaceholders | backend/core/chat_processor.py:17-26 | whatever template is given, or none, the chain's template contains all three placeholders |
| Composer.CompleteUnchangedIff | backend/core/chat_processor.py:20-26 | a template is left unchanged exactly when it already has all three placeholders |
| Composer.CompleteIdempotent | backend/core/chat_processor.py:20-26 | completing twice is completing once |
| Composer.TemplateHasAllPlaceholders | backend/core/models.py:59-68 | a template laid out like the default, with the three placeholders in order, contains all three |
| Composer.DefaultPromptIsComplete | backend/core/chat_processor.py:17-26 | the default template has all placeholders, so completion leaves it unchanged |
| Composer.ChainWithoutTemplate | backend/core/chat_processor.py:17-26 | with no template the chain uses the default template unchanged |
| Composer.EmptyPromptGetsAllSections | backend/core/chat_processor.py:17-26 | an empty template, which is not None, gets all three sections appended |
| Composer.ResolvedPromptFallsBack | backend/main.py:101 | with neither a non-empty request prompt nor a session override the chain uses the default template; a non-empty request prompt wins |
| Composer.CitationSetSnoc | backend/core/chat_processor.py:97-100 | one more document adds its citation exactly when it has both `file` and `page` |
| Composer.CitationExample | backend/core/chat_processor.py:100 | a document of file `a.pdf`, page 3 is cited as `a.pdf (page 3)` |
| Composer.CitationInjective | backend/core/chat_processor.py:100 | a citation determines its file and its page, so the set merges only repeated (file, page) pairs |
| Composer.CollectSources | backend/core/chat_processor.py:97-100 | the loop builds exactly the set of citations of the documents carrying both keys |
| Composer.ListOf | backend/core/chat_processor.py:97-107 | `list(sources)` holds each element of the set exactly once |
| Composer.ChatContextGating | backend/core/chat_processor.py:60-64 | memory disabled means empty chat context and no provenance; otherwise at most 3 provenance lines |
| Composer.RecallContext | backend/core/chat_processor.py:59-64 | the chat context and its provenance are the session memory's relevant context when memory is enabled, and empty otherwise |
| Composer.RememberTurn | backend/core/chat_processor.py:102-105 | with memory enabled and a successful write the turn is appended to the session's memory index; otherwise memory is unchanged; document indexes are never touched |
| Composer.RunChain | backend/core/chat_processor.py:59-107 | given the chain's template: a failed model call is a 500 that records nothing; otherwise the answer is the model's reply to the template, question, documents and prior chat context, the sources are the citation set and the turn is recorded only with memory enabled |
| Composer.ProcessQuestion | backend/core/chat_processor.py:35-110 | every failure is a 500 that records nothing: a missing document index, a failed search, a failed model call. Otherwise the model gets the completed template, the question, the retrieved documents and the chat context of the memory as it was before the turn. The answer is the model's reply. The sources are the citation set. The turn is recorded after answering, only with memory enabled. Document indexes are never touched |
| Ingest.GetPdfText | backend/core/ingest.py:11-37 | the nested loop yields the in-order page text concatenation and the page mapping |
| Ingest.PageMappingAt | backend/core/ingest.py:16-32 | one mapping entry per page; page `j` of file `i` sits after the earlier files' pages, carries that page's text and file name, and is numbered `j + 1` |
| Ingest.MappingEntryOrigin | backend/core/ingest.py:16-32 | every mapping entry is a page of an uploaded file, with that file's name and its 1-based number |
| Ingest.MappingLength | backend/core/ingest.py:25-32 | the mapping has as many entries as the files have pages |
| Ingest.ConcatAppend | backend/core/ingest.py:13-27 | the concatenated text of two runs of pages is the concatenation of their texts |
| Ingest.RawTextIsMappingText | backend/core/ingest.py:13-32 | the raw text is the in-order concatenation of the mapping entries' texts |
| Ingest.GetTextChunks | backend/core/ingest.py:40-53 | the nested loop yields the per-page chunk list, each chunk tagged with its page's file and number |
| Ingest.ChunksAppend | backend/core/ingest.py:45-53 | the chunks of two runs of pages are the chunks of the first followed by those of the second |
| Ingest.ChunkCount | backend/core/ingest.py:45-53 | there are as many chunks as the splitter made pieces of all the pages |
| Ingest.ChunkOrigin | backend/core/ingest.py:45-52 | every chunk is a piece of one page entry and carries that entry's file and page, so no chunk spans pages |
| Ingest.ParallelProjections | backend/core/ingest.py:59-60 | `texts` and `metadatas` have the chunk list's length |
| Ingest.DocumentsRecoverChunks | backend/core/ingest.py:59-62 | the stored documents give back the chunks position by position, and each is cited by its chunk's file and page |
| Ingest.GetVectorStore | backend/core/ingest.py:56-69 | on success the session's document index becomes the documents built from the chunks, replacing any earlier one; on failure storage is unchanged; memory indexes are never touched |
| Ingest.ProcessPdfFiles | backend/core/ingest.py:72-77 | the stored index is the one built from the pages of the uploaded files, chunked page by page |
| Ingest.IngestedDocumentCitesItsPage | backend/core/ingest.py:11-69 | every stored document is a piece of one page of one uploaded file, with metadata and citation naming that file and 1-based page |

## Left out

- FAISS indexing, embeddings and similarity ranking are not modelled. A search is the list of hits it returns, constrained only to be at most `k` entries of the index searched.
- Loading and saving an index are not modelled as separate failures. Each is folded into one success flag per operation, and a save is taken to be atomic.
- The LLM call, `create_stuff_documents_chain` and the rendering of the prompt template are not modelled. The model is a function from the call it receives to an optional reply; the rendered text that the model sees is not modelled.
- `PdfReader.extract_text` and the temporary file of `get_pdf_text` are not modelled. A file is given by its page texts.
- `RecursiveCharacterTextSplitter` (chunk size 1000, overlap 200) is a function parameter. Its windowing is not modelled.
- `datetime.now().strftime` is a given string. Its format is not modelled.
- The printed error messages of `add_to_history` and `get_relevant_context` are I/O and are left out.
- Composer.ListOf: the order of `list(sources)` is left open. One conversion is used both for the recorded turn and for the returned list, although the code calls `list` twice; CPython gives the same order for the same unchanged set.
- Sessions.SessionManager.GetSession: Python returns the stored dictionary itself, so a caller could mutate the registry through it. The model returns a value, so it does not capture that aliasing.
- ChatHistory.ChatHistoryManager.ClearHistory: the `shutil.rmtree` call at backend/core/chat_manager.py:109-110 is not wrapped in `try`, so a failed removal raises to the caller. The model has no failure outcome for it: the removal always succeeds.
- Composer.ProcessQuestion: the chain's template is computed before the memory lookup, while the code looks up memory first (lines 59-67). Neither step changes anything the other reads, so the outcome is the same.
- Concurrency between requests is not modelled: every operation is atomic.
- `backend/main.py` is not part of this model, except the prompt resolution at line 101. It covers the HTTP routing, the upload handling, the 400 check for unprocessed sessions, the creation of the `sessions` directory at startup and the call of the cleanup stub at shutdown.
- backend/core/report_generator.py, frontend/src/App.js and backend/core/__init__.py are not part of this model.
- The request models of backend/core/models.py are not part of this model. Only `DEFAULT_SYSTEM_PROMPT` is, as a constant.
- `vector_store.as_retriever()` is taken to return its default of 4 documents (`Composer.DefaultDocumentResults`). That default comes from the retrieval library, not from this repository.
- Ingest.GetVectorStore: `FAISS.from_texts` on an empty chunk list raises inside the library. That case is folded into the success flag, not derived from the chunk list.
