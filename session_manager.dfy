/** The in-memory session registry: a dictionary from session id to the session's record
    (processed flag, display transcript, uploaded file names, system-prompt override).
    The pure functions below give the registry after each operation; the class
    `SessionManager` performs the same operations in place on its `sessions` field. */
module Sessions {
  import opened Common

  /** One transcript message `{type, content}`. */
  datatype Message = Message(kind: string, content: string)

  /** The record stored for a session. */
  datatype Session = Session(
    processed: bool,
    history: seq<Message>,
    files: seq<string>,
    systemPrompt: Option<string>)

  type Registry = map<string, Session>

  /** What `get_session_info` returns: `{}` for an unknown id, otherwise a copy of the
      record extended with the `session_id` key. */
  datatype SessionInfo =
    | NoInfo
    | Info(sessionId: string, processed: bool, history: seq<Message>, files: seq<string>,
           systemPrompt: Option<string>)

  /** The record `create_session` stores. */
  function NewSession(files: seq<string>): Session
  {
    Session(true, [], files, None)
  }

  function Created(r: Registry, id: string, files: seq<string>): Registry
  {
    r[id := NewSession(files)]
  }

  function WithMessage(r: Registry, id: string, kind: string, content: string): Registry
  {
    if id in r then r[id := r[id].(history := r[id].history + [Message(kind, content)])] else r
  }

  function HistoryCleared(r: Registry, id: string): Registry
  {
    if id in r then r[id := r[id].(history := [])] else r
  }

  /** Both `set_system_prompt` (with `Some`) and `reset_system_prompt` (with `None`). */
  function WithPrompt(r: Registry, id: string, prompt: Option<string>): Registry
  {
    if id in r then r[id := r[id].(systemPrompt := prompt)] else r
  }

  function Lookup(r: Registry, id: string): Option<Session>
  {
    if id in r then Some(r[id]) else None
  }

  function Processed(r: Registry, id: string): bool
  {
    id in r && r[id].processed
  }

  function HistoryOf(r: Registry, id: string): seq<Message>
  {
    if id in r then r[id].history else []
  }

  function PromptOf(r: Registry, id: string): Option<string>
  {
    if id in r then r[id].systemPrompt else None
  }

  function InfoOf(r: Registry, id: string): SessionInfo
  {
    if id in r
    then Info(id, r[id].processed, r[id].history, r[id].files, r[id].systemPrompt)
    else NoInfo
  }

  /** The registry's state-changing operations, as a trace of requests. */
  datatype Op =
    | CreateSession(id: string, files: seq<string>)
    | AddToHistory(id: string, kind: string, content: string)
    | ClearHistory(id: string)
    | SetSystemPrompt(id: string, prompt: string)
    | ResetSystemPrompt(id: string)

  function Apply(r: Registry, op: Op): Registry
  {
    match op
    case CreateSession(id, files) => Created(r, id, files)
    case AddToHistory(id, kind, content) => WithMessage(r, id, kind, content)
    case ClearHistory(id) => HistoryCleared(r, id)
    case SetSystemPrompt(id, p) => WithPrompt(r, id, Some(p))
    case ResetSystemPrompt(id) => WithPrompt(r, id, None)
  }

  function Run(r: Registry, ops: seq<Op>): Registry
    decreases |ops|
  {
    if ops == [] then r else Run(Apply(r, ops[0]), ops[1..])
  }

  /** The ids that the `CreateSession` requests of a trace name. */
  function CreatedIds(ops: seq<Op>): set<string>
    decreases |ops|
  {
    if ops == [] then {}
    else (if ops[0].CreateSession? then {ops[0].id} else {}) + CreatedIds(ops[1..])
  }

  /** `create_session` stores a fresh processed record with an empty transcript and no
      prompt override, replacing any earlier record for that id, and touches no other id. */
  lemma CreateSessionReplaces(r: Registry, id: string, files: seq<string>, other: string)
    requires other != id
    ensures var r' := Created(r, id, files);
      && Lookup(r', id) == Some(Session(true, [], files, None))
      && Processed(r', id) && HistoryOf(r', id) == [] && PromptOf(r', id) == None
      && Lookup(r', other) == Lookup(r, other)
  {
  }

  /** Unknown ids read as not existing, not processed, with an empty transcript, no prompt
      and `{}` as their info. */
  lemma UnknownIdQueries(r: Registry, id: string)
    requires id !in r
    ensures Lookup(r, id) == None && !Processed(r, id) && HistoryOf(r, id) == []
    ensures PromptOf(r, id) == None && InfoOf(r, id) == NoInfo
  {
  }

  /** Appending to an existing transcript adds exactly one message at the end and changes
      nothing else of that record or of any other record. */
  lemma AddToHistoryAppendsOne(r: Registry, id: string, kind: string, content: string, other: string)
    requires id in r && other != id
    ensures var r' := WithMessage(r, id, kind, content);
      && id in r' && r'.Keys == r.Keys
      && |r'[id].history| == |r[id].history| + 1
      && r'[id].history[..|r[id].history|] == r[id].history
      && r'[id].history[|r[id].history|] == Message(kind, content)
      && r'[id].processed == r[id].processed && r'[id].files == r[id].files
      && r'[id].systemPrompt == r[id].systemPrompt
      && Lookup(r', other) == Lookup(r, other)
  {
  }

  /** Clearing empties only the transcript, and clearing twice is clearing once. */
  lemma ClearHistoryOnlyEmptiesTranscript(r: Registry, id: string)
    requires id in r
    ensures var r' := HistoryCleared(r, id);
      && r'.Keys == r.Keys && r'[id].history == []
      && r'[id].processed == r[id].processed && r'[id].files == r[id].files
      && r'[id].systemPrompt == r[id].systemPrompt
      && HistoryCleared(r', id) == r'
  {
  }

  /** A prompt that was set is the prompt read back; after a reset none is. */
  lemma SetThenGetPrompt(r: Registry, id: string, p: string)
    requires id in r
    ensures PromptOf(WithPrompt(r, id, Some(p)), id) == Some(p)
    ensures PromptOf(Apply(Apply(r, SetSystemPrompt(id, p)), ResetSystemPrompt(id)), id) == None
  {
  }

  /** Every request except `create_session` leaves the registry as it is when it names an
      unknown id. */
  lemma UnknownIdIsNoOp(r: Registry, op: Op)
    requires !op.CreateSession? && op.id !in r
    ensures Apply(r, op) == r
  {
  }

  /** No request changes a record other than the one it names. */
  lemma OtherSessionsUntouched(r: Registry, op: Op, other: string)
    requires other != op.id
    ensures Lookup(Apply(r, op), other) == Lookup(r, other)
  {
  }

  /** Over any trace of requests, a session that no request names keeps its record as it
      was: sessions are isolated from each other. */
  lemma {:induction false} TraceIsolation(r: Registry, ops: seq<Op>, other: string)
    requires forall i :: 0 <= i < |ops| ==> ops[i].id != other
    ensures Lookup(Run(r, ops), other) == Lookup(r, other)
    decreases |ops|
  {
    if ops != [] {
      OtherSessionsUntouched(r, ops[0], other);
      TraceIsolation(Apply(r, ops[0]), ops[1..], other);
    }
  }

  /** Over any trace of requests, the ids in the registry are the ids it started with plus
      those that a `create_session` request named: no other operation adds a key, and none
      removes one. */
  lemma {:induction false} OnlyCreateAddsKeys(r: Registry, ops: seq<Op>)
    ensures Run(r, ops).Keys == r.Keys + CreatedIds(ops)
    decreases |ops|
  {
    if ops != [] {
      OnlyCreateAddsKeys(Apply(r, ops[0]), ops[1..]);
      assert Apply(r, ops[0]).Keys == r.Keys + (if ops[0].CreateSession? then {ops[0].id} else {});
    }
  }

  /** A trace that creates nothing never changes any id's processed flag or file list:
      only `create_session` writes them. */
  lemma {:induction false} OnlyCreateWritesFiles(r: Registry, ops: seq<Op>, id: string)
    requires CreatedIds(ops) == {} && id in r
    ensures id in Run(r, ops)
    ensures Run(r, ops)[id].processed == r[id].processed && Run(r, ops)[id].files == r[id].files
    decreases |ops|
  {
    if ops != [] {
      assert CreatedIds(ops[1..]) <= CreatedIds(ops);
      assert !ops[0].CreateSession?;
      OnlyCreateWritesFiles(Apply(r, ops[0]), ops[1..], id);
    }
  }

  /** The registry object: `self.sessions`, updated in place. */
  class SessionManager {
    var sessions: Registry

    constructor ()
      ensures sessions == map[]
    {
      sessions := map[];
    }

    method CreateSession(sessionId: string, files: seq<string>)
      modifies this
      ensures sessions == Created(old(sessions), sessionId, files)
    {
      sessions := sessions[sessionId := Session(true, [], files, None)];
    }

    method GetSession(sessionId: string) returns (s: Option<Session>)
      ensures s == Lookup(sessions, sessionId)
    {
      if sessionId in sessions {
        s := Some(sessions[sessionId]);
      } else {
        s := None;
      }
    }

    method SessionExists(sessionId: string) returns (b: bool)
      ensures b <==> sessionId in sessions
    {
      b := sessionId in sessions;
    }

    method IsSessionProcessed(sessionId: string) returns (b: bool)
      ensures b == Processed(sessions, sessionId)
    {
      if sessionId !in sessions {
        return false;
      }
      b := sessions[sessionId].processed;
    }

    method AddToHistory(sessionId: string, messageType: string, content: string)
      modifies this
      ensures sessions == WithMessage(old(sessions), sessionId, messageType, content)
    {
      if sessionId in sessions {
        var s := sessions[sessionId];
        sessions := sessions[sessionId := s.(history := s.history + [Message(messageType, content)])];
      }
    }

    method GetHistory(sessionId: string) returns (h: seq<Message>)
      ensures h == HistoryOf(sessions, sessionId)
    {
      if sessionId !in sessions {
        return [];
      }
      h := sessions[sessionId].history;
    }

    method ClearHistory(sessionId: string)
      modifies this
      ensures sessions == HistoryCleared(old(sessions), sessionId)
    {
      if sessionId in sessions {
        sessions := sessions[sessionId := sessions[sessionId].(history := [])];
      }
    }

    method SetSystemPrompt(sessionId: string, systemPrompt: string)
      modifies this
      ensures sessions == WithPrompt(old(sessions), sessionId, Some(systemPrompt))
    {
      if sessionId in sessions {
        sessions := sessions[sessionId := sessions[sessionId].(systemPrompt := Some(systemPrompt))];
      }
    }

    method GetSystemPrompt(sessionId: string) returns (p: Option<string>)
      ensures p == PromptOf(sessions, sessionId)
    {
      if sessionId !in sessions {
        return None;
      }
      p := sessions[sessionId].systemPrompt;
    }

    method ResetSystemPrompt(sessionId: string)
      modifies this
      ensures sessions == WithPrompt(old(sessions), sessionId, None)
    {
      if sessionId in sessions {
        sessions := sessions[sessionId := sessions[sessionId].(systemPrompt := None)];
      }
    }

    /** `cleanup_old_sessions` is a stub that changes nothing. */
    method CleanupOldSessions()
      ensures sessions == old(sessions)
    {
    }

    method GetSessionInfo(sessionId: string) returns (info: SessionInfo)
      ensures info == InfoOf(sessions, sessionId)
    {
      if sessionId !in sessions {
        return NoInfo;
      }
      var s := sessions[sessionId];
      info := Info(sessionId, s.processed, s.history, s.files, s.systemPrompt);
    }
  }
}
