/** Values shared by the session store, the document cache, the request
    builder and the stream consumer of the transit chat assistant. */
module ChatTypes {

  datatype Option<+T> = None | Some(value: T)

  datatype Result<+T, +E> = Ok(value: T) | Err(error: E)

  /** A session identifier. The application draws a fresh uuid4 string; the
      model draws the next unused number. */
  type SessionId = nat

  /** One row of the `sessions` table. `pdfsUploaded` is the INTEGER column
      that is only ever written as 0 (at creation) or 1. */
  datatype Session = Session(
    name: string,
    createdAt: nat,
    lastUpdatedAt: nat,
    pdfsUploaded: bool)

  /** What the session list shows for one session. */
  datatype SessionInfo = SessionInfo(
    id: SessionId,
    name: string,
    lastUpdatedAt: nat,
    pdfsUploaded: bool)

  /** The summary `{search_performed, queries_used_by_gemini}` attached to an
      assistant message when the model used web search. */
  datatype GroundingSummary = GroundingSummary(searchPerformed: bool, queriesUsed: seq<string>)

  /** The `gemini_grounding_metadata_json` column: NULL, a JSON text that
      parses to a summary, or a text that does not parse. */
  datatype StoredGrounding = NullJson | Json(summary: GroundingSummary) | MalformedJson

  /** One row of the `messages` table (its uuid id is never read back). */
  datatype MessageRow = MessageRow(
    sessionId: SessionId,
    role: string,
    content: string,
    timestamp: nat,
    grounding: StoredGrounding)

  /** The optional grounding keys of an in-memory chat message. */
  datatype Metadata = NoMetadata | Grounding(summary: GroundingSummary) | MetadataParseError

  /** An in-memory chat message `{role, content, ...}` as held in the
      current chat history and as returned by loading a session. */
  datatype ChatMessage = ChatMessage(role: string, content: string, metadata: Metadata)

  /** A handle to a document registered with the remote model API. */
  datatype Handle = Handle(name: string, mimeType: string, uri: string)

  /** What saving a message writes into the grounding column: a summary is a
      non-empty dictionary, hence truthy, and is stored; no summary is NULL. */
  function StoredOf(g: Option<GroundingSummary>): StoredGrounding
  {
    match g
    case None => NullJson
    case Some(s) => Json(s)
  }

  /** What loading a message makes of the grounding column. */
  function MetadataOf(stored: StoredGrounding): Metadata
  {
    match stored
    case NullJson => NoMetadata
    case Json(s) => Grounding(s)
    case MalformedJson => MetadataParseError
  }

  /** The metadata the turn handler puts on an assistant message. */
  function MetadataFor(g: Option<GroundingSummary>): Metadata
  {
    match g
    case None => NoMetadata
    case Some(s) => Grounding(s)
  }

  /** A grounding summary survives being saved and loaded again, and a
      message saved without one loads without one. */
  lemma GroundingRoundTrip(g: Option<GroundingSummary>)
    ensures MetadataOf(StoredOf(g)) == MetadataFor(g)
    ensures MetadataOf(StoredOf(g)) == NoMetadata <==> g.None?
  {
  }
}
