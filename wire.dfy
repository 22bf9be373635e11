/** The request `generate_gemini_response_stream` sends: the conversation
    mapped to the remote API's roles, and the current user turn with its
    document attachments. */
module Wire {
  import opened ChatTypes

  /** The remote API's role vocabulary. */
  datatype WireRole = UserRole | ModelRole

  /** A part of a content block: text, or a reference to an uploaded file. */
  datatype Part = TextPart(text: string) | FilePart(mimeType: string, uri: string)

  /** One content block: a role and its ordered parts. */
  datatype Content = Content(role: WireRole, parts: seq<Part>)

  /** The one tool the request enables. */
  datatype Tool = GoogleSearchTool

  /** An outgoing streaming request. The fixed system instruction is not
      modelled. */
  datatype Request = Request(model: string, contents: seq<Content>, tools: seq<Tool>, responseMimeType: string)

  /** `GEMINI_MODEL_ID`. */
  const ModelId: string := "gemini-2.0-flash"

  const ResponseMimeType: string := "text/plain"

  /** History role `"user"` stays `user`; every other role becomes `model`. */
  function RoleOf(role: string): WireRole
  {
    if role == "user" then UserRole else ModelRole
  }

  /** The first loop of `generate_gemini_response_stream`: one content block
      with a single text part per history message, in order. */
  method HistoryToContents(history: seq<ChatMessage>) returns (contents: seq<Content>)
    ensures |contents| == |history|
    ensures forall i :: 0 <= i < |history| ==>
              (contents[i].role == UserRole <==> history[i].role == "user")
              && contents[i].parts == [TextPart(history[i].content)]
  {
    contents := [];
    for i := 0 to |history|
      invariant |contents| == i
      invariant forall k :: 0 <= k < i ==>
                  contents[k] == Content(RoleOf(history[k].role), [TextPart(history[k].content)])
    {
      contents := contents + [Content(RoleOf(history[i].role), [TextPart(history[i].content)])];
    }
  }

  /** The parts of the current user turn: the prompt text first, then one
      file part per handle, in handle order. */
  method TurnParts(prompt: string, handles: seq<Handle>) returns (parts: seq<Part>)
    ensures |parts| == |handles| + 1
    ensures parts[0] == TextPart(prompt)
    ensures forall i :: 0 <= i < |handles| ==> parts[i + 1] == FilePart(handles[i].mimeType, handles[i].uri)
  {
    parts := [TextPart(prompt)];
    for i := 0 to |handles|
      invariant |parts| == i + 1 && parts[0] == TextPart(prompt)
      invariant forall k :: 0 <= k < i ==> parts[k + 1] == FilePart(handles[k].mimeType, handles[k].uri)
    {
      parts := parts + [FilePart(handles[i].mimeType, handles[i].uri)];
    }
  }

  /** The file parts attached for `handles`. */
  function FileParts(handles: seq<Handle>): seq<Part>
  {
    seq(|handles|, i requires 0 <= i < |handles| => FilePart(handles[i].mimeType, handles[i].uri))
  }

  /** `request` is the one sent for `prompt` after `history`: the fixed model,
      tool and response type, one block per history message in order, and a
      final user block that starts with the prompt text. */
  ghost predicate Carries(request: Request, history: seq<ChatMessage>, prompt: string)
  {
    && request.model == ModelId && request.tools == [GoogleSearchTool]
    && request.responseMimeType == ResponseMimeType
    && |request.contents| == |history| + 1
    && (forall i :: 0 <= i < |history| ==>
          request.contents[i] == Content(RoleOf(history[i].role), [TextPart(history[i].content)]))
    && request.contents[|history|].role == UserRole
    && |request.contents[|history|].parts| >= 1
    && request.contents[|history|].parts[0] == TextPart(prompt)
  }
}
