/** The context composer: choosing and completing the prompt template, collecting the
    document citations, and answering one question from the document index, the
    conversation memory and the language model, recording the turn afterwards. */
module Composer {
  import opened Common
  import opened Store
  import ChatHistory

  const ContextPlaceholder: string := "{context}"
  const ChatContextPlaceholder: string := "{chat_context}"
  const InputPlaceholder: string := "{input}"

  /** The sections appended to a template that lacks a placeholder. */
  const ContextSection: string := "\n\nDocument Context:\n" + ContextPlaceholder
  const ChatContextSection: string := "\n\nChat History Context:\n" + ChatContextPlaceholder
  const InputSection: string := "\n\nQuestion: " + InputPlaceholder

  /** The number of documents the document retriever returns when not configured. */
  const DefaultDocumentResults: nat := 4

  const DefaultPromptHead: string :=
    "\n"
    + "You are an expert assistant that answers user questions using the provided document context and previous conversation history.\n"
    + "\n"
    + "Always use both the document context and chat history to generate a direct, confident, and fluent response — as if you already know the information — without explicitly referencing the sources.\n"
    + "\n"
    + "Guidelines:\n"
    + "- Use the document context as your primary source of information\n"
    + "- Use the chat history to understand the conversation flow and maintain continuity\n"
    + "- Do not say \"According to the context\" or \"Based on the document\" or \"In our previous conversation\"\n"
    + "- Never fabricate or assume information not present in either context or chat history\n"
    + "- If neither context nor chat history contains sufficient information, simply state that the answer is not available\n"
    + "- Your answer should be clear, natural, and informative — written as if you're an expert on the topic\n"
    + "- Build upon previous answers when relevant, but don't repeat information unnecessarily\n"
    + "\n"
    + "Document Context:\n"
    + "--------------------\n"

  const DefaultPromptMiddle: string :=
    "\n--------------------\n\nPrevious Conversation Context:\n--------------------\n"

  const DefaultPromptTail: string :=
    "\n--------------------\n\n"
    + "Answer the following user question naturally and directly using the information from both contexts:\n"
    + "User Query: "

  /** `DEFAULT_SYSTEM_PROMPT`, written around its three placeholders. */
  const DefaultSystemPrompt: string :=
    DefaultPromptHead + ContextPlaceholder + DefaultPromptMiddle + ChatContextPlaceholder
    + DefaultPromptTail + InputPlaceholder + "\n"

  predicate HasAllPlaceholders(p: string)
  {
    Contains(p, ContextPlaceholder) && Contains(p, ChatContextPlaceholder) && Contains(p, InputPlaceholder)
  }

  /** One completion step supplies its placeholder, keeps the template as a prefix and keeps
      the placeholders `a` and `b` that were already there. */
  lemma CompleteStep(p: string, section: string, placeholder: string, a: string, b: string)
    requires Contains(section, placeholder)
    ensures var q := if !Contains(p, placeholder) then p + section else p;
      && p <= q && Contains(q, placeholder)
      && (Contains(p, a) ==> Contains(q, a))
      && (Contains(p, b) ==> Contains(q, b))
  {
    if !Contains(p, placeholder) {
      ContainsRight(p, section, placeholder);
      if Contains(p, a) {
        ContainsLeft(p, section, a);
      }
      if Contains(p, b) {
        ContainsLeft(p, section, b);
      }
    }
  }

  /** The defensive completion of `get_conversational_chain`: each test looks at the template
      as grown by the previous steps. The template is only ever extended. */
  function CompletePrompt(systemPrompt: string): (r: string)
    ensures systemPrompt <= r
  {
    var p1 := if !Contains(systemPrompt, ContextPlaceholder) then systemPrompt + ContextSection else systemPrompt;
    var p2 := if !Contains(p1, ChatContextPlaceholder) then p1 + ChatContextSection else p1;
    if !Contains(p2, InputPlaceholder) then p2 + InputSection else p2
  }

  /** Reference definition: the sections of the placeholders missing from the ORIGINAL
      template, in the order context, chat context, input. */
  function MissingSections(p: string): string
  {
    (if Contains(p, ContextPlaceholder) then "" else ContextSection)
    + (if Contains(p, ChatContextPlaceholder) then "" else ChatContextSection)
    + (if Contains(p, InputPlaceholder) then "" else InputSection)
  }

  /** The template the chain is built from: the default when none is given, then completed.
      A given template is kept as its prefix; `ChainHasAllPlaceholders` shows that the result
      always has all three placeholders and `ResolvedPromptFallsBack` that without a template
      it is the default itself. */
  function ChainPrompt(systemPrompt: Option<string>): (r: string)
    ensures systemPrompt.Some? ==> systemPrompt.value <= r
  {
    CompletePrompt(if systemPrompt.None? then DefaultSystemPrompt else systemPrompt.value)
  }

  /** `message.system_prompt or session_manager.get_system_prompt(session_id)`: an empty
      request prompt is falsy and falls through to the session's override. */
  function ResolvePrompt(requestPrompt: Option<string>, sessionPrompt: Option<string>): (r: Option<string>)
    ensures r == requestPrompt || r == sessionPrompt
    ensures r.Some? && r.value == "" ==> r == sessionPrompt
    ensures requestPrompt.Some? && requestPrompt.value != "" ==> r == requestPrompt
  {
    if requestPrompt.Some? && requestPrompt.value != "" then requestPrompt else sessionPrompt
  }

  lemma ContextSectionLacksChatContext()
    ensures !Contains(ContextSection, ChatContextPlaceholder)
  {
    MissingCharNotContained(ContextSection, ChatContextPlaceholder, '_');
  }

  lemma ContextSectionLacksInput()
    ensures !Contains(ContextSection, InputPlaceholder)
  {
    MissingCharNotContained(ContextSection, InputPlaceholder, 'p');
  }

  lemma ChatContextSectionLacksInput()
    ensures !Contains(ChatContextSection, InputPlaceholder)
  {
    MissingCharNotContained(ChatContextSection, InputPlaceholder, 'p');
  }

  /** A section appended to a template never creates an occurrence of a LATER placeholder:
      the sections start with a newline that no placeholder contains, and none of them holds
      a later placeholder. */
  lemma SectionsAddNoLaterPlaceholder(p: string)
    ensures Contains(p + ContextSection, ChatContextPlaceholder) <==> Contains(p, ChatContextPlaceholder)
    ensures Contains(p + ContextSection, InputPlaceholder) <==> Contains(p, InputPlaceholder)
    ensures Contains(p + ChatContextSection, InputPlaceholder) <==> Contains(p, InputPlaceholder)
  {
    ContextSectionLacksChatContext();
    AppendKeepsContains(p, ContextSection, ChatContextPlaceholder);
    ContextSectionLacksInput();
    AppendKeepsContains(p, ContextSection, InputPlaceholder);
    ChatContextSectionLacksInput();
    AppendKeepsContains(p, ChatContextSection, InputPlaceholder);
  }

  /** Each section holds its own placeholder. */
  lemma SectionsHavePlaceholders()
    ensures Contains(ContextSection, ContextPlaceholder)
    ensures Contains(ChatContextSection, ChatContextPlaceholder)
    ensures Contains(InputSection, InputPlaceholder)
  {
    ContainsSuffix("\n\nDocument Context:\n", ContextPlaceholder);
    ContainsSuffix("\n\nChat History Context:\n", ChatContextPlaceholder);
    ContainsSuffix("\n\nQuestion: ", InputPlaceholder);
  }

  lemma AppendThree(p: string, x: string, y: string, z: string)
    ensures p + x + y + z == p + (x + y + z)
  {
  }

  /** Completion keeps the template and appends exactly the sections of the placeholders it
      lacked, in the fixed order context, chat context, input. */
  lemma CompleteAppendsMissing(p: string)
    ensures CompletePrompt(p) == p + MissingSections(p)
  {
    var s1 := if Contains(p, ContextPlaceholder) then "" else ContextSection;
    var s2 := if Contains(p, ChatContextPlaceholder) then "" else ChatContextSection;
    var s3 := if Contains(p, InputPlaceholder) then "" else InputSection;
    var p1 := if !Contains(p, ContextPlaceholder) then p + ContextSection else p;
    assert p1 == p + s1;
    SectionsAddNoLaterPlaceholder(p);
    var p2 := if !Contains(p1, ChatContextPlaceholder) then p1 + ChatContextSection else p1;
    assert p2 == p1 + s2;
    SectionsAddNoLaterPlaceholder(p1);
    assert Contains(p2, InputPlaceholder) == Contains(p, InputPlaceholder);
    assert CompletePrompt(p) == p2 + s3;
    AppendThree(p, s1, s2, s3);
  }

  /** The completed template has all three placeholders: every step keeps the placeholders
      already present and supplies the one it tests for. */
  lemma CompletedHasAllPlaceholders(p: string)
    ensures HasAllPlaceholders(CompletePrompt(p))
  {
    SectionsHavePlaceholders();
    var p1 := if !Contains(p, ContextPlaceholder) then p + ContextSection else p;
    CompleteStep(p, ContextSection, ContextPlaceholder, ChatContextPlaceholder, InputPlaceholder);
    var p2 := if !Contains(p1, ChatContextPlaceholder) then p1 + ChatContextSection else p1;
    CompleteStep(p1, ChatContextSection, ChatContextPlaceholder, ContextPlaceholder, InputPlaceholder);
    CompleteStep(p2, InputSection, InputPlaceholder, ContextPlaceholder, ChatContextPlaceholder);
  }

  /** Whatever template is given, the chain's template has all three placeholders. */
  lemma ChainHasAllPlaceholders(systemPrompt: Option<string>)
    ensures HasAllPlaceholders(ChainPrompt(systemPrompt))
  {
    CompletedHasAllPlaceholders(if systemPrompt.None? then DefaultSystemPrompt else systemPrompt.value);
  }

  /** A template needs no completion exactly when it already has all three placeholders. */
  lemma CompleteUnchangedIff(p: string)
    ensures CompletePrompt(p) == p <==> HasAllPlaceholders(p)
  {
    CompletedHasAllPlaceholders(p);
  }

  /** Completing twice is completing once. */
  lemma CompleteIdempotent(p: string)
    ensures CompletePrompt(CompletePrompt(p)) == CompletePrompt(p)
  {
    CompletedHasAllPlaceholders(p);
    CompleteUnchangedIff(CompletePrompt(p));
  }

  /** Any template laid out like the default, with the three placeholders in order, has
      all of them. */
  lemma TemplateHasAllPlaceholders(head: string, middle: string, tail: string)
    ensures HasAllPlaceholders(head + ContextPlaceholder + middle + ChatContextPlaceholder
                               + tail + InputPlaceholder + "\n")
  {
    var t1 := head + ContextPlaceholder + middle;
    ContainsAfter(head, ContextPlaceholder, middle);
    ContainsLeft(t1, ChatContextPlaceholder, ContextPlaceholder);
    var t2 := t1 + ChatContextPlaceholder + tail;
    ContainsAfter(t1, ChatContextPlaceholder, tail);
    ContainsLeft(t1 + ChatContextPlaceholder, tail, ContextPlaceholder);
    ContainsLeft(t2, InputPlaceholder, ContextPlaceholder);
    ContainsLeft(t2, InputPlaceholder, ChatContextPlaceholder);
    ContainsAfter(t2, InputPlaceholder, "\n");
    ContainsLeft(t2 + InputPlaceholder, "\n", ContextPlaceholder);
    ContainsLeft(t2 + InputPlaceholder, "\n", ChatContextPlaceholder);
  }

  /** The default template has all three placeholders, so completion leaves it unchanged. */
  lemma DefaultPromptIsComplete()
    ensures HasAllPlaceholders(DefaultSystemPrompt)
    ensures CompletePrompt(DefaultSystemPrompt) == DefaultSystemPrompt
  {
    TemplateHasAllPlaceholders(DefaultPromptHead, DefaultPromptMiddle, DefaultPromptTail);
    CompleteUnchangedIff(DefaultSystemPrompt);
  }

  /** Without a template the chain uses the default one unchanged. */
  lemma ChainWithoutTemplate()
    ensures ChainPrompt(None) == DefaultSystemPrompt
  {
    DefaultPromptIsComplete();
  }

  /** An empty template is given all three sections. */
  lemma EmptyPromptGetsAllSections()
    ensures ChainPrompt(Some("")) == ContextSection + ChatContextSection + InputSection
  {
    CompleteAppendsMissing("");
  }

  /** With neither a non-empty request prompt nor a session override, the chain uses the
      default template; a non-empty request prompt always wins over the session's. */
  lemma ResolvedPromptFallsBack(requestPrompt: Option<string>, sessionPrompt: Option<string>)
    ensures (requestPrompt == None || requestPrompt == Some("")) && sessionPrompt == None
            ==> ChainPrompt(ResolvePrompt(requestPrompt, sessionPrompt)) == DefaultSystemPrompt
    ensures requestPrompt.Some? && requestPrompt.value != ""
            ==> ChainPrompt(ResolvePrompt(requestPrompt, sessionPrompt)) == CompletePrompt(requestPrompt.value)
  {
    if (requestPrompt == None || requestPrompt == Some("")) && sessionPrompt == None {
      assert ResolvePrompt(requestPrompt, sessionPrompt) == None;
      ChainWithoutTemplate();
    }
  }

  /** `"{file} (page {page})"`. */
  function Citation(file: string, page: int): string
  {
    file + " (page " + IntToString(page) + ")"
  }

  /** Whether a retrieved document's metadata has both the `file` and the `page` key. */
  predicate Cited(d: Document)
  {
    d.metadata.file.Some? && d.metadata.page.Some?
  }

  function CitationOf(d: Document): string
    requires Cited(d)
  {
    Citation(d.metadata.file.value, d.metadata.page.value)
  }

  /** The deduplicated citations of the documents that carry both keys. */
  function CitationSet(docs: seq<Document>): set<string>
  {
    set d | d in docs && Cited(d) :: CitationOf(d)
  }

  lemma CitationSetSnoc(docs: seq<Document>, d: Document)
    ensures CitationSet(docs + [d]) == CitationSet(docs) + (if Cited(d) then {CitationOf(d)} else {})
  {
    assert forall x :: x in docs + [d] <==> x in docs || x == d;
  }

  /** A document tagged at ingestion with file "a.pdf" and page 3 is cited as "a.pdf (page 3)". */
  lemma CitationExample(text: string)
    ensures CitationSet([Document(text, DocMetadata(Some("a.pdf"), Some(3)))]) == {"a.pdf (page 3)"}
  {
    var d := Document(text, DocMetadata(Some("a.pdf"), Some(3)));
    assert CitationOf(d) == "a.pdf (page 3)";
    assert CitationSet([] + [d]) == CitationSet([]) + {CitationOf(d)} by { CitationSetSnoc([], d); }
    assert [] + [d] == [d];
  }

  /** A citation determines its file and its page: the page is the run of digits before the
      closing parenthesis, preceded by a space, and the file is what comes before " (page ".
      So the set merges only repeated (file, page) pairs. */
  lemma CitationInjective(f1: string, p1: nat, f2: string, p2: nat)
    requires Citation(f1, p1) == Citation(f2, p2)
    ensures f1 == f2 && p1 == p2
  {
    var d1, d2 := NatToString(p1), NatToString(p2);
    var h1, h2 := f1 + " (page ", f2 + " (page ";
    var c := Citation(f1, p1);
    assert c == h1 + d1 + ")";
    assert c == h2 + d2 + ")";
    assert c[..|c| - 1] == h1 + d1;
    assert c[..|c| - 1] == h2 + d2;
    NatToStringDigits(p1);
    NatToStringDigits(p2);
    DigitRunAfter(h1, d1);
    DigitRunAfter(h2, d2);
    assert h1[|h1| - 1] == ' ';
    assert h2[|h2| - 1] == ' ';
    assert |d1| == |d2|;
    assert d1 == (h1 + d1)[|h1|..];
    assert d2 == (h2 + d2)[|h2|..];
    assert h1 == (h1 + d1)[..|h1|];
    assert h2 == (h2 + d2)[..|h2|];
    assert f1 == h1[..|f1|];
    assert f2 == h2[..|f2|];
    NatToStringInjective(p1, p2);
  }

  /** The loop over the retrieved documents that fills the `sources` set. */
  method CollectSources(docs: seq<Document>) returns (sources: set<string>)
    ensures sources == CitationSet(docs)
  {
    sources := {};
    var i := 0;
    while i < |docs|
      invariant 0 <= i <= |docs|
      invariant sources == CitationSet(docs[..i])
    {
      var doc := docs[i];
      assert docs[..i + 1] == docs[..i] + [doc];
      CitationSetSnoc(docs[..i], doc);
      if doc.metadata.file.Some? && doc.metadata.page.Some? {
        sources := sources + {Citation(doc.metadata.file.value, doc.metadata.page.value)};
      }
      i := i + 1;
    }
    assert docs[..i] == docs;
  }

  /** `list(s)`: the elements of a set, each once, in an order the model leaves open. */
  method ListOf(s: set<string>) returns (r: seq<string>)
    ensures |r| == |s|
    ensures forall x :: x in r <==> x in s
    ensures forall i, j :: 0 <= i < j < |r| ==> r[i] != r[j]
  {
    r := [];
    var rest := s;
    while rest != {}
      invariant rest <= s
      invariant forall x :: x in r <==> x in s && x !in rest
      invariant forall i, j :: 0 <= i < j < |r| ==> r[i] != r[j]
      invariant |r| + |rest| == |s|
      decreases |rest|
    {
      var x :| x in rest;
      r := r + [x];
      rest := rest - {x};
    }
  }

  /** What the language model is asked: the model, the completed template, the question,
      the stuffed documents and the conversation context. */
  datatype ModelCall = ModelCall(modelName: string, prompt: string, input: string,
                                 context: seq<Document>, chatContext: string)

  /** Why a question could not be answered. */
  datatype Cause = NoProcessedDocuments | DocumentSearchFailed | ModelFailed

  /** The HTTP error `process_question` raises: every failure is wrapped with status 500. */
  datatype ChatError = ChatError(status: int, cause: Cause)

  /** `(answer, list(sources), chat_context_sources)`. */
  datatype Answer = Answer(answer: string, sources: seq<string>, chatContextSources: seq<string>)

  function MemoryIndexOf(indexes: map<string, seq<MemoryEntry>>, sessionId: string): Option<seq<MemoryEntry>>
  {
    if sessionId in indexes then Some(indexes[sessionId]) else None
  }

  /** The chat context and its provenance: retrieved from memory only when enabled. */
  function ChatContextFor(useChatHistory: bool, memoryIndex: Option<seq<MemoryEntry>>,
                          memorySearch: Retrieval<MemoryEntry>): (string, seq<string>)
  {
    if useChatHistory then ChatHistory.RelevantContext(memoryIndex, memorySearch) else ("", [])
  }

  /** With memory disabled the model sees no conversation context and no provenance is
      reported; with it enabled, at most `DefaultMaxResults` provenance lines are. */
  lemma ChatContextGating(useChatHistory: bool, memoryIndex: Option<seq<MemoryEntry>>,
                          memorySearch: Retrieval<MemoryEntry>)
    requires memoryIndex.Some? && memorySearch.Found?
             ==> DrawnFrom(memorySearch.hits, memoryIndex.value, ChatHistory.DefaultMaxResults)
    ensures !useChatHistory ==> ChatContextFor(useChatHistory, memoryIndex, memorySearch) == ("", [])
    ensures |ChatContextFor(useChatHistory, memoryIndex, memorySearch).1| <= ChatHistory.DefaultMaxResults
  {
    if useChatHistory && memoryIndex.Some? && memorySearch.Found? {
      ChatHistory.ContextShape(memoryIndex.value, memorySearch.hits, ChatHistory.DefaultMaxResults);
    }
  }

  /** The memory step before answering: with memory enabled, the session's manager retrieves
      the context of the turns most similar to the question. */
  method RecallContext(question: string, sessionId: string, useChatHistory: bool,
                       storage: SessionStorage, memorySearch: Retrieval<MemoryEntry>)
    returns (chatContext: string, chatContextSources: seq<string>)
    requires sessionId in storage.memoryIndexes && memorySearch.Found?
             ==> DrawnFrom(memorySearch.hits, storage.memoryIndexes[sessionId], ChatHistory.DefaultMaxResults)
    ensures (chatContext, chatContextSources)
            == ChatContextFor(useChatHistory, MemoryIndexOf(storage.memoryIndexes, sessionId), memorySearch)
  {
    chatContext, chatContextSources := "", [];
    if useChatHistory {
      var chatManager := new ChatHistory.ChatHistoryManager(sessionId, storage);
      assert chatManager.Index() == MemoryIndexOf(storage.memoryIndexes, sessionId);
      chatContext, chatContextSources := chatManager.GetRelevantContext(question, ChatHistory.DefaultMaxResults, memorySearch);
    }
  }

  /** The memory step after answering: with memory enabled, the turn is handed to the
      session's manager, which records it unless writing fails. */
  method RememberTurn(question: string, answer: string, sources: seq<string>, sessionId: string,
                      useChatHistory: bool, storage: SessionStorage, now: string, memoryWriteOk: bool)
    modifies storage
    ensures storage.documentIndexes == old(storage.documentIndexes)
    ensures useChatHistory && memoryWriteOk ==>
      storage.memoryIndexes == old(storage.memoryIndexes)[sessionId :=
        ChatHistory.RecordTurn(MemoryIndexOf(old(storage.memoryIndexes), sessionId),
          ChatHistory.TurnEntry(question, answer, Some(sources), now))]
    ensures !(useChatHistory && memoryWriteOk) ==> storage.memoryIndexes == old(storage.memoryIndexes)
  {
    if useChatHistory {
      var chatManager := new ChatHistory.ChatHistoryManager(sessionId, storage);
      assert chatManager.Index() == MemoryIndexOf(storage.memoryIndexes, sessionId);
      chatManager.AddToHistory(question, answer, Some(sources), now, memoryWriteOk);
    }
  }

  /** The enhanced chain once its template is chosen: the memory lookup, the model call on
      the retrieved documents, the citations and the recording of the turn. */
  method RunChain(question: string, modelName: string, prompt: string, sessionId: string,
                  useChatHistory: bool, storage: SessionStorage, docs: seq<Document>,
                  memorySearch: Retrieval<MemoryEntry>, llm: ModelCall -> Option<string>,
                  now: string, memoryWriteOk: bool)
    returns (r: Result<Answer, ChatError>)
    requires sessionId in storage.memoryIndexes && memorySearch.Found?
             ==> DrawnFrom(memorySearch.hits, storage.memoryIndexes[sessionId], ChatHistory.DefaultMaxResults)
    modifies storage
    ensures storage.documentIndexes == old(storage.documentIndexes)
    ensures r.Err? ==> r.error.status == 500 && storage.memoryIndexes == old(storage.memoryIndexes)
    ensures var chat := ChatContextFor(useChatHistory, MemoryIndexOf(old(storage.memoryIndexes), sessionId), memorySearch);
      var call := ModelCall(modelName, prompt, question, docs, chat.0);
      && (llm(call).None? ==> r == Err(ChatError(500, ModelFailed)))
      && (llm(call).Some? ==>
            && r.Ok?
            && r.value.answer == llm(call).value
            && (forall x :: x in r.value.sources <==> x in CitationSet(docs))
            && |r.value.sources| == |CitationSet(docs)|
            && r.value.chatContextSources == chat.1)
    ensures r.Ok? && useChatHistory && memoryWriteOk ==>
      storage.memoryIndexes == old(storage.memoryIndexes)[sessionId :=
        ChatHistory.RecordTurn(MemoryIndexOf(old(storage.memoryIndexes), sessionId),
          ChatHistory.TurnEntry(question, r.value.answer, Some(r.value.sources), now))]
    ensures !(r.Ok? && useChatHistory && memoryWriteOk) ==>
      storage.memoryIndexes == old(storage.memoryIndexes)
  {
    var chatContext, chatContextSources := RecallContext(question, sessionId, useChatHistory, storage, memorySearch);
    var response := llm(ModelCall(modelName, prompt, question, docs, chatContext));
    if response.None? {
      return Err(ChatError(500, ModelFailed));
    }
    var answer := response.value;
    var sources := CollectSources(docs);
    var sourceList := ListOf(sources);
    RememberTurn(question, answer, sourceList, sessionId, useChatHistory, storage, now, memoryWriteOk);
    r := Ok(Answer(answer, sourceList, chatContextSources));
  }

  /** Answers one question. The foreign steps are parameters: `documentSearch` is what
      loading the document index and searching it for `question` produced, `memorySearch`
      what the memory search produced, `llm` the language model's reply to a call (`None`
      when the call raises), `now` the formatted current time and `memoryWriteOk` whether
      writing the new turn to memory succeeds. */
  method ProcessQuestion(question: string, modelName: string, sessionId: string,
                         systemPrompt: Option<string>, useChatHistory: bool,
                         storage: SessionStorage,
                         documentSearch: Retrieval<Document>, memorySearch: Retrieval<MemoryEntry>,
                         llm: ModelCall -> Option<string>, now: string, memoryWriteOk: bool)
    returns (r: Result<Answer, ChatError>)
    requires sessionId in storage.documentIndexes && documentSearch.Found?
             ==> DrawnFrom(documentSearch.hits, storage.documentIndexes[sessionId], DefaultDocumentResults)
    requires sessionId in storage.memoryIndexes && memorySearch.Found?
             ==> DrawnFrom(memorySearch.hits, storage.memoryIndexes[sessionId], ChatHistory.DefaultMaxResults)
    modifies storage
    ensures storage.documentIndexes == old(storage.documentIndexes)
    // a missing document index is reported like every other failure, with status 500
    ensures r.Err? ==> r.error.status == 500 && storage.memoryIndexes == old(storage.memoryIndexes)
    ensures sessionId !in old(storage.documentIndexes) ==> r == Err(ChatError(500, NoProcessedDocuments))
    ensures sessionId in old(storage.documentIndexes) && documentSearch.Failed?
            ==> r == Err(ChatError(500, DocumentSearchFailed))
    // the conversation context is taken from memory as it was BEFORE this turn
    ensures var chat := ChatContextFor(useChatHistory, MemoryIndexOf(old(storage.memoryIndexes), sessionId), memorySearch);
      sessionId in old(storage.documentIndexes) && documentSearch.Found? ==>
        var call := ModelCall(modelName, ChainPrompt(systemPrompt), question, documentSearch.hits, chat.0);
        && (llm(call).None? ==> r == Err(ChatError(500, ModelFailed)))
        && (llm(call).Some? ==>
              && r.Ok?
              && r.value.answer == llm(call).value
              && (forall x :: x in r.value.sources <==> x in CitationSet(documentSearch.hits))
              && |r.value.sources| == |CitationSet(documentSearch.hits)|
              && r.value.chatContextSources == chat.1)
    // exactly one turn is recorded, after the answer, and only when memory is enabled
    ensures r.Ok? && useChatHistory && memoryWriteOk ==>
      storage.memoryIndexes == old(storage.memoryIndexes)[sessionId :=
        ChatHistory.RecordTurn(MemoryIndexOf(old(storage.memoryIndexes), sessionId),
          ChatHistory.TurnEntry(question, r.value.answer, Some(r.value.sources), now))]
    ensures !(r.Ok? && useChatHistory && memoryWriteOk) ==>
      storage.memoryIndexes == old(storage.memoryIndexes)
  {
    if sessionId !in storage.documentIndexes {
      return Err(ChatError(500, NoProcessedDocuments));
    }
    if documentSearch.Failed? {
      return Err(ChatError(500, DocumentSearchFailed));
    }
    var prompt := ChainPrompt(systemPrompt);
    r := RunChain(question, modelName, prompt, sessionId, useChatHistory, storage,
                  documentSearch.hits, memorySearch, llm, now, memoryWriteOk);
  }
}
