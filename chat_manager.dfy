/** Conversation memory: every answered question is serialised into a searchable text plus a
    metadata record and appended to the session's memory index; before each answer the
    turns most similar to the new question are formatted into a plain-text context.
    The index is the `memoryIndexes` entry of the session's storage (absent until the
    first turn is recorded). */
module ChatHistory {
  import opened Common
  import opened Store

  /** The separator placed between retrieved turns. */
  const Separator: string := "\n\n---\n\n"

  /** The number of turns retrieved when the caller does not say (`max_results`). */
  const DefaultMaxResults: nat := 3

  /** Python truthiness of an optional sources list: present and non-empty. */
  predicate HasSources(sources: Option<seq<string>>)
  {
    sources.Some? && sources.value != []
  }

  /** The text that is embedded for a turn. */
  function TurnText(userQuestion: string, assistantAnswer: string, sources: Option<seq<string>>): (r: string)
    ensures "User Question: " + userQuestion + "\nAssistant Answer: " + assistantAnswer <= r
    ensures !HasSources(sources) ==> |r| == |"User Question: " + userQuestion + "\nAssistant Answer: " + assistantAnswer|
  {
    "User Question: " + userQuestion + "\nAssistant Answer: " + assistantAnswer
    + (if HasSources(sources) then "\nSources: " + Join(", ", sources.value) else "")
  }

  /** The metadata stored beside it; a missing sources list is stored as `[]`. */
  function TurnMetadata(userQuestion: string, assistantAnswer: string, sources: Option<seq<string>>,
                        timestamp: string): (r: MemoryMetadata)
    ensures r.kind == Some("conversation") && r.timestamp == Some(timestamp)
    ensures r.userQuestion == Some(userQuestion) && r.assistantAnswer == Some(assistantAnswer)
    ensures r.sources == Some(if HasSources(sources) then sources.value else [])
  {
    MemoryMetadata(
      Some("conversation"),
      Some(timestamp),
      Some(userQuestion),
      Some(assistantAnswer),
      Some(if sources.Some? then sources.value else []))
  }

  function TurnEntry(userQuestion: string, assistantAnswer: string, sources: Option<seq<string>>,
                     timestamp: string): MemoryEntry
  {
    MemoryEntry(TurnText(userQuestion, assistantAnswer, sources),
                TurnMetadata(userQuestion, assistantAnswer, sources, timestamp))
  }

  /** The index after a successful write: the loaded index with the entry appended, or a
      new index holding only the entry. */
  function RecordTurn(index: Option<seq<MemoryEntry>>, e: MemoryEntry): seq<MemoryEntry>
  {
    if index.None? then [e] else index.value + [e]
  }

  /** A retrieved entry contributes only if it carries both a question and an answer. */
  predicate Qualifies(e: MemoryEntry)
  {
    e.metadata.userQuestion.Some? && e.metadata.assistantAnswer.Some?
  }

  /** The context block of a qualifying entry. */
  function Block(e: MemoryEntry): string
    requires Qualifies(e)
  {
    "Previous Q: " + e.metadata.userQuestion.value
    + "\nPrevious A: " + e.metadata.assistantAnswer.value
    + (if HasSources(e.metadata.sources) then "\nSources: " + Join(", ", e.metadata.sources.value) else "")
  }

  /** The provenance line of a qualifying entry. */
  function ProvenanceOf(e: MemoryEntry): string
  {
    "Previous conversation from "
    + (if e.metadata.timestamp.Some? then e.metadata.timestamp.value else "unknown time")
  }

  /** The blocks of the qualifying hits, in retrieval order. */
  function Blocks(hits: seq<MemoryEntry>): seq<string>
    decreases |hits|
  {
    if hits == [] then []
    else
      var e := hits[|hits| - 1];
      Blocks(hits[..|hits| - 1]) + (if Qualifies(e) then [Block(e)] else [])
  }

  /** The provenance lines of the qualifying hits, in retrieval order. */
  function Provenance(hits: seq<MemoryEntry>): seq<string>
    decreases |hits|
  {
    if hits == [] then []
    else
      var e := hits[|hits| - 1];
      Provenance(hits[..|hits| - 1]) + (if Qualifies(e) then [ProvenanceOf(e)] else [])
  }

  /** What `get_relevant_context` returns, given the session's memory index (if any) and
      what the similarity search over it produced. */
  function RelevantContext(index: Option<seq<MemoryEntry>>, search: Retrieval<MemoryEntry>): (string, seq<string>)
  {
    if index.None? then ("", [])
    else match search
      case Failed => ("", [])
      case Found(hits) =>
        if hits == [] then ("", [])
        else
          var parts := Blocks(hits);
          (if parts == [] then "" else Join(Separator, parts), Provenance(hits))
  }

  /** The number of hits that carry both a question and an answer. */
  function QualCount(hits: seq<MemoryEntry>): nat
    decreases |hits|
  {
    if hits == [] then 0
    else QualCount(hits[..|hits| - 1]) + (if Qualifies(hits[|hits| - 1]) then 1 else 0)
  }

  /** Exactly one block and one provenance line per qualifying hit, so never more than the hits. */
  lemma {:induction false} BlocksMatchProvenance(hits: seq<MemoryEntry>)
    ensures |Blocks(hits)| == |Provenance(hits)| == QualCount(hits) <= |hits|
    decreases |hits|
  {
    if hits != [] {
      BlocksMatchProvenance(hits[..|hits| - 1]);
    }
  }

  /** Every block comes from a qualifying hit, and the provenance line at the same position
      comes from that same hit. */
  lemma {:induction false} BlockOrigin(hits: seq<MemoryEntry>, k: nat) returns (i: nat)
    requires k < |Blocks(hits)|
    ensures i < |hits| && Qualifies(hits[i])
    ensures k < |Provenance(hits)|
    ensures Blocks(hits)[k] == Block(hits[i]) && Provenance(hits)[k] == ProvenanceOf(hits[i])
    decreases |hits|
  {
    var init := hits[..|hits| - 1];
    BlocksMatchProvenance(init);
    BlocksMatchProvenance(hits);
    if k < |Blocks(init)| {
      i := BlockOrigin(init, k);
    } else {
      i := |hits| - 1;
    }
  }

  /** A hit without question/answer metadata contributes nothing wherever it sits among the
      hits: removing it changes neither the blocks nor the provenance lines. */
  lemma {:induction false} NonQualifyingIgnored(a: seq<MemoryEntry>, e: MemoryEntry, b: seq<MemoryEntry>)
    requires !Qualifies(e)
    ensures Blocks(a + [e] + b) == Blocks(a + b)
    ensures Provenance(a + [e] + b) == Provenance(a + b)
    decreases |b|
  {
    if b == [] {
      assert (a + [e] + b)[..|a + [e] + b| - 1] == a;
      assert a + b == a;
    } else {
      var b' := b[..|b| - 1];
      assert (a + [e] + b)[..|a + [e] + b| - 1] == a + [e] + b';
      assert (a + b)[..|a + b| - 1] == a + b';
      assert (a + [e] + b)[|a + [e] + b| - 1] == (a + b)[|a + b| - 1];
      NonQualifyingIgnored(a, e, b');
    }
  }

  /** The block and provenance line of a qualifying hit are among the formatted ones. */
  lemma {:induction false} QualifyingHitFormatted(hits: seq<MemoryEntry>, e: MemoryEntry)
    requires e in hits && Qualifies(e)
    ensures Block(e) in Blocks(hits) && ProvenanceOf(e) in Provenance(hits)
    decreases |hits|
  {
    var last := hits[|hits| - 1];
    if e != last {
      assert hits == hits[..|hits| - 1] + [last];
      QualifyingHitFormatted(hits[..|hits| - 1], e);
    }
  }

  /** The context is the qualifying hits' blocks joined by the separator, and the
      provenance list has one line per block; with an index, whatever the search is asked
      for, there are at most `k` of each. */
  lemma ContextShape(store: seq<MemoryEntry>, hits: seq<MemoryEntry>, k: nat)
    requires DrawnFrom(hits, store, k)
    ensures RelevantContext(Some(store), Found(hits)) == (Join(Separator, Blocks(hits)), Provenance(hits))
    ensures |Blocks(hits)| == |Provenance(hits)| <= k
  {
    BlocksMatchProvenance(hits);
  }

  /** No index, a failed search or no hits all give the empty context and no provenance. */
  lemma EmptyContextCases(index: Option<seq<MemoryEntry>>, search: Retrieval<MemoryEntry>)
    requires index.None? || search.Failed? || search == Found([])
    ensures RelevantContext(index, search) == ("", [])
  {
  }

  /** The embedded text of a turn shows its question, its answer and every one of its sources. */
  lemma TurnTextMentions(q: string, a: string, sources: Option<seq<string>>, k: nat)
    ensures Contains(TurnText(q, a, sources), q) && Contains(TurnText(q, a, sources), a)
    ensures HasSources(sources) && k < |sources.value| ==> Contains(TurnText(q, a, sources), sources.value[k])
  {
    var tail := if HasSources(sources) then "\nSources: " + Join(", ", sources.value) else "";
    var head := "User Question: " + q + "\nAssistant Answer: ";
    assert TurnText(q, a, sources) == head + a + tail;
    ContainsAfter("User Question: ", q, "\nAssistant Answer: ");
    ContainsLeft(head, a, q);
    ContainsLeft(head + a, tail, q);
    ContainsAfter(head, a, tail);
    if HasSources(sources) && k < |sources.value| {
      JoinContainsPart(", ", sources.value, k);
      ContainsRight("\nSources: ", Join(", ", sources.value), sources.value[k]);
      ContainsRight(head + a, tail, sources.value[k]);
    }
  }

  /** A recorded turn always qualifies, and it reads back as the block and provenance line
      that mirror its serialised text. */
  lemma RecordedTurnReadsBack(q: string, a: string, sources: Option<seq<string>>, timestamp: string)
    ensures var e := TurnEntry(q, a, sources, timestamp);
      && Qualifies(e)
      && e.metadata.kind == Some("conversation")
      && Block(e) == "Previous Q: " + q + "\nPrevious A: " + a
                     + (if HasSources(sources) then "\nSources: " + Join(", ", sources.value) else "")
      && ProvenanceOf(e) == "Previous conversation from " + timestamp
  {
  }

  /** A formatted block shows the question and the answer of its entry. */
  lemma BlockMentionsTurn(e: MemoryEntry)
    requires Qualifies(e)
    ensures Contains(Block(e), e.metadata.userQuestion.value)
    ensures Contains(Block(e), e.metadata.assistantAnswer.value)
  {
    var q, a := e.metadata.userQuestion.value, e.metadata.assistantAnswer.value;
    var tail := if HasSources(e.metadata.sources) then "\nSources: " + Join(", ", e.metadata.sources.value) else "";
    assert Block(e) == "Previous Q: " + q + "\nPrevious A: " + a + tail;
    ContainsAfter("Previous Q: ", q, "\nPrevious A: ");
    ContainsLeft("Previous Q: " + q + "\nPrevious A: ", a, q);
    ContainsLeft("Previous Q: " + q + "\nPrevious A: " + a, tail, q);
    ContainsAfter("Previous Q: " + q + "\nPrevious A: ", a, tail);
  }

  /** When the search returns a turn recorded earlier, its question and its answer reach the
      context text and its timestamp reaches the provenance list. */
  lemma RecalledTurnInContext(store: seq<MemoryEntry>, hits: seq<MemoryEntry>,
                              q: string, a: string, sources: Option<seq<string>>, timestamp: string)
    requires TurnEntry(q, a, sources, timestamp) in hits
    ensures var (context, provenance) := RelevantContext(Some(store), Found(hits));
      Contains(context, q) && Contains(context, a)
      && "Previous conversation from " + timestamp in provenance
  {
    var e := TurnEntry(q, a, sources, timestamp);
    QualifyingHitFormatted(hits, e);
    var parts := Blocks(hits);
    var k :| 0 <= k < |parts| && parts[k] == Block(e);
    JoinContainsPart(Separator, parts, k);
    BlockMentionsTurn(e);
    ContainsTrans(Join(Separator, parts), Block(e), q);
    ContainsTrans(Join(Separator, parts), Block(e), a);
  }

  /** The memory index of one session, as `ChatHistoryManager(session_id)` sees it. */
  class ChatHistoryManager {
    const sessionId: string
    const storage: SessionStorage

    constructor (sessionId: string, storage: SessionStorage)
      ensures this.sessionId == sessionId && this.storage == storage
    {
      this.sessionId := sessionId;
      this.storage := storage;
    }

    /** The persisted memory index, if `chat_history_index` exists. */
    function Index(): Option<seq<MemoryEntry>>
      reads storage
    {
      if sessionId in storage.memoryIndexes then Some(storage.memoryIndexes[sessionId]) else None
    }

    /** Records one turn. `storageOk` says whether loading the index, embedding the text and
        saving the index all succeed; any failure is swallowed and leaves the index as it was. */
    method AddToHistory(userQuestion: string, assistantAnswer: string, sources: Option<seq<string>>,
                        now: string, storageOk: bool)
      modifies storage
      ensures storage.documentIndexes == old(storage.documentIndexes)
      ensures storage.memoryIndexes ==
        if storageOk
        then old(storage.memoryIndexes)[sessionId := RecordTurn(old(Index()), TurnEntry(userQuestion, assistantAnswer, sources, now))]
        else old(storage.memoryIndexes)
    {
      var conversationText := "User Question: " + userQuestion + "\nAssistant Answer: " + assistantAnswer;
      if sources.Some? && sources.value != [] {
        conversationText := conversationText + "\nSources: " + Join(", ", sources.value);
      }
      var metadata := MemoryMetadata(
        Some("conversation"), Some(now), Some(userQuestion), Some(assistantAnswer),
        Some(if sources.Some? then sources.value else []));
      var entry := MemoryEntry(conversationText, metadata);
      assert entry == TurnEntry(userQuestion, assistantAnswer, sources, now);
      if !storageOk {
        return;
      }
      var chatHistoryStore: seq<MemoryEntry>;
      if sessionId in storage.memoryIndexes {
        chatHistoryStore := storage.memoryIndexes[sessionId];
        chatHistoryStore := chatHistoryStore + [entry];
      } else {
        chatHistoryStore := [entry];
      }
      storage.memoryIndexes := storage.memoryIndexes[sessionId := chatHistoryStore];
    }

    /** Formats the retrieved turns. `search` is what the similarity search for
        `currentQuestion` with `k = maxResults` produced. */
    method GetRelevantContext(currentQuestion: string, maxResults: nat, search: Retrieval<MemoryEntry>)
      returns (chatContext: string, contextSources: seq<string>)
      requires Index().Some? && search.Found? ==> DrawnFrom(search.hits, Index().value, maxResults)
      ensures (chatContext, contextSources) == RelevantContext(Index(), search)
      ensures |contextSources| <= maxResults
    {
      if sessionId !in storage.memoryIndexes {
        return "", [];
      }
      if search.Failed? {
        return "", [];
      }
      var relevantDocs := search.hits;
      if relevantDocs == [] {
        return "", [];
      }
      var chatContextParts: seq<string> := [];
      contextSources := [];
      var i := 0;
      while i < |relevantDocs|
        invariant 0 <= i <= |relevantDocs|
        invariant chatContextParts == Blocks(relevantDocs[..i])
        invariant contextSources == Provenance(relevantDocs[..i])
      {
        var doc := relevantDocs[i];
        assert relevantDocs[..i + 1][..i] == relevantDocs[..i];
        if doc.metadata.userQuestion.Some? && doc.metadata.assistantAnswer.Some? {
          var part := "Previous Q: " + doc.metadata.userQuestion.value
                      + "\nPrevious A: " + doc.metadata.assistantAnswer.value;
          if doc.metadata.sources.Some? && doc.metadata.sources.value != [] {
            part := part + "\nSources: " + Join(", ", doc.metadata.sources.value);
          }
          assert part == Block(doc);
          var timestamp := if doc.metadata.timestamp.Some? then doc.metadata.timestamp.value else "unknown time";
          contextSources := contextSources + ["Previous conversation from " + timestamp];
          chatContextParts := chatContextParts + [part];
        }
        i := i + 1;
      }
      assert relevantDocs[..i] == relevantDocs;
      chatContext := if chatContextParts != [] then Join(Separator, chatContextParts) else "";
      BlocksMatchProvenance(relevantDocs);
    }

    /** Deletes the session's memory index if it exists. */
    method ClearHistory()
      modifies storage
      ensures storage.documentIndexes == old(storage.documentIndexes)
      ensures storage.memoryIndexes == old(storage.memoryIndexes) - {sessionId}
      ensures Index() == None
    {
      if sessionId in storage.memoryIndexes {
        storage.memoryIndexes := storage.memoryIndexes - {sessionId};
      }
    }
  }

  /** Writing a turn grows an existing index by exactly that entry at the end and creates a
      one-entry index when there is none. */
  lemma RecordTurnAppends(index: Option<seq<MemoryEntry>>, e: MemoryEntry)
    ensures index.None? ==> RecordTurn(index, e) == [e]
    ensures index.Some? ==>
      && |RecordTurn(index, e)| == |index.value| + 1
      && RecordTurn(index, e)[..|index.value|] == index.value
      && RecordTurn(index, e)[|index.value|] == e
  {
  }

  /** Clearing twice is clearing once, and a cleared memory yields the empty context. */
  lemma ClearIdempotent(indexes: map<string, seq<MemoryEntry>>, id: string, search: Retrieval<MemoryEntry>)
    ensures (indexes - {id}) - {id} == indexes - {id}
    ensures id !in indexes - {id}
    ensures RelevantContext(None, search) == ("", [])
  {
  }
}
