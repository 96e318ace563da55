/** The gRPC client: its stored defaults, the `ChatRequest` it builds, the
    loop that turns a stream of `ChatChunk` frames into yielded text, and
    the mapping of the unary replies onto the interface records. The
    channel and the generated stubs are left to parameters: a reply is
    given as a function from the request to the message the stub returns,
    a stream as its frames. */
module GrpcClient {
  import opened Text
  import opened Interface

  const DefaultAddress := "127.0.0.1:3742"
  const StreamErrorPrefix := "gRPC stream error: "

  /** A `ChatMessage` protobuf message. */
  datatype RpcMessage = RpcMessage(role: string, content: string)

  /** A `ChatRequest` protobuf message; every field is a plain string. */
  datatype ChatRequest = ChatRequest(messages: seq<RpcMessage>, model: string, vendor: string, systemPrompt: string)

  /** A `ChatChunk` frame of the stream. */
  datatype ChatChunk = ChatChunk(content: string, done: bool, error: string)

  /** The unary replies; unset protobuf fields read as `""` and `0`. */
  datatype StatusReply = StatusReply(status: string, port: int, defaultModel: string, requestsServed: int, version: string)
  datatype ModelReply = ModelReply(id: string, name: string, vendor: string, family: string, version: string, maxInputTokens: int)
  datatype ChatReply = ChatReply(id: int, model: string, content: string)

  /** `x or ""` on an optional string. */
  function OrEmpty(o: Option<string>): (s: string)
    ensures Truthy(o) ==> s == o.value
    ensures !Truthy(o) ==> s == ""
  {
    Or(o, Some("")).value
  }

  /** The comprehension of `_build_request` over a list: each element's
      `role` and `content`, in order. Reading `role` off a dict raises
      `AttributeError`, so a list holding one fails as a whole. */
  function RpcMessages(items: seq<MessageItem>): (r: Result<seq<RpcMessage>>)
    ensures r.Ok? <==> forall i :: 0 <= i < |items| ==> items[i].MessageObject?
    ensures r.Ok? ==> |r.value| == |items|
    ensures r.Ok? ==> forall i :: 0 <= i < |items| ==>
              r.value[i] == RpcMessage(items[i].message.role, items[i].message.content)
    ensures r.Err? ==> r.error == AttributeError("role")
  {
    if items == [] then Ok([])
    else if items[0].DictItem? then Err(AttributeError("role"))
    else
      match RpcMessages(items[1..])
      case Err(e) => Err(e)
      case Ok(rest) => Ok([RpcMessage(items[0].message.role, items[0].message.content)] + rest)
  }

  /** The frames the generator looks at, what it yields from them and how
      it stops: a non-empty `error` raises, checked before `done`, which
      ends the stream; otherwise non-empty content is yielded. Nothing
      yielded is empty, there are no more fragments than frames, and
      the frames run out exactly when none carries an error or `done`. */
  function ChunkStream(frames: seq<ChatChunk>): (r: StreamResult)
    ensures |r.fragments| <= |frames|
    ensures forall k :: 0 <= k < |r.fragments| ==> r.fragments[k] != ""
    ensures r.end == Exhausted <==> forall k :: 0 <= k < |frames| ==> frames[k].error == "" && !frames[k].done
    ensures r.end.Raised? ==> r.end.error.RuntimeError? && StartsWith(r.end.error.message, StreamErrorPrefix)
  {
    if frames == [] then StreamResult([], Exhausted)
    else if frames[0].error != "" then StreamResult([], Raised(RuntimeError(StreamErrorPrefix + frames[0].error)))
    else if frames[0].done then StreamResult([], Finished)
    else if frames[0].content != "" then Prepend([frames[0].content], ChunkStream(frames[1..]))
    else ChunkStream(frames[1..])
  }

  /** One step of the frame loop: the frame at `i` raises, ends the
      stream, or contributes its content (when non-empty) ahead of what the
      frames after it give. */
  lemma ChunkStreamAt(frames: seq<ChatChunk>, i: nat)
    requires i < |frames|
    ensures ChunkStream(frames[i..]) ==
              if frames[i].error != "" then StreamResult([], Raised(RuntimeError(StreamErrorPrefix + frames[i].error)))
              else if frames[i].done then StreamResult([], Finished)
              else Prepend(if frames[i].content != "" then [frames[i].content] else [], ChunkStream(frames[i + 1..]))
  {
    assert frames[i..][0] == frames[i] && frames[i..][1..] == frames[i + 1..];
    assert [] + ChunkStream(frames[i + 1..]).fragments == ChunkStream(frames[i + 1..]).fragments;
  }

  /** A frame after which nothing more is read: exactly one that ends the
      stream when it arrives on its own. */
  predicate Stops(frame: ChatChunk)
    ensures Stops(frame) <==> ChunkStream([frame]).end != Exhausted
  {
    frame.error != "" || frame.done
  }

  /** The index of the first frame carrying an error or `done`, or the
      number of frames when there is none. */
  function FirstStop(frames: seq<ChatChunk>): (t: nat)
    ensures t <= |frames|
    ensures forall k :: 0 <= k < t ==> !Stops(frames[k])
    ensures t < |frames| ==> Stops(frames[t])
  {
    if frames == [] || Stops(frames[0]) then 0 else FirstStop(frames[1..]) + 1
  }

  /** The non-empty contents of the frames, in order. */
  function NonEmptyContents(frames: seq<ChatChunk>): (r: seq<string>)
    ensures |r| <= |frames|
    ensures forall c :: c in r ==> c != ""
  {
    if frames == [] then []
    else (if frames[0].content != "" then [frames[0].content] else []) + NonEmptyContents(frames[1..])
  }

  /** What `chat_stream` yields is exactly the non-empty contents of the
      frames before the first error or `done` frame, in order; an error
      there raises even when `done` is also set; `done` alone ends the
      stream quietly; without either the frames simply run out. */
  lemma {:induction false} ChunkStreamCharacterized(frames: seq<ChatChunk>)
    ensures var t := FirstStop(frames);
            && ChunkStream(frames).fragments == NonEmptyContents(frames[..t])
            && ChunkStream(frames).end ==
                 (if t == |frames| then Exhausted
                  else if frames[t].error != "" then Raised(RuntimeError(StreamErrorPrefix + frames[t].error))
                  else Finished)
    decreases |frames|
  {
    if frames != [] && !Stops(frames[0]) {
      var t := FirstStop(frames);
      ChunkStreamCharacterized(frames[1..]);
      assert frames[..t][0] == frames[0];
      assert frames[..t][1..] == frames[1..][..t - 1];
    }
  }

  /** Frames after the first error or `done` are never consumed. */
  lemma {:induction false} LaterFramesIgnored(a: seq<ChatChunk>, b: seq<ChatChunk>)
    requires exists k :: 0 <= k < |a| && Stops(a[k])
    ensures ChunkStream(a + b) == ChunkStream(a)
    decreases |a|
  {
    assert (a + b)[0] == a[0];
    if !Stops(a[0]) {
      assert (a + b)[1..] == a[1..] + b;
      var k :| 0 <= k < |a| && Stops(a[k]);
      assert Stops(a[1..][k - 1]);
      LaterFramesIgnored(a[1..], b);
    }
  }

  /** The same frame ends the two transports' streams differently: an
      error with `done` set raises here, while the event stream of the
      HTTP client checks `done` first and ends quietly. */
  lemma ErrorBeatsDone(error: string, content: string)
    requires error != ""
    ensures ChunkStream([ChatChunk(content, true, error)]).end == Raised(RuntimeError(StreamErrorPrefix + error))
  {
  }

  /** The `for chunk in stream` loop of `chat_stream`: it yields and ends
      exactly as the frame-stream function says. */
  method ReadFrames(frames: seq<ChatChunk>) returns (fragments: seq<string>, end: StreamEnd)
    ensures StreamResult(fragments, end) == ChunkStream(frames)
  {
    fragments := [];
    for i := 0 to |frames|
      invariant ChunkStream(frames) == Prepend(fragments, ChunkStream(frames[i..]))
    {
      var chunk := frames[i];
      ChunkStreamAt(frames, i);
      if chunk.error != "" {
        end := Raised(RuntimeError(StreamErrorPrefix + chunk.error));
        assert fragments + [] == fragments;
        return;
      }
      if chunk.done {
        end := Finished;
        assert fragments + [] == fragments;
        return;
      }
      if chunk.content != "" {
        PrependTwice(fragments, [chunk.content], ChunkStream(frames[i + 1..]));
        fragments := fragments + [chunk.content];
      } else {
        PrependTwice(fragments, [], ChunkStream(frames[i + 1..]));
        assert fragments + [] == fragments;
      }
    }
    end := Exhausted;
  }

  class CopilotGrpcClient {
    const address: string
    const defaultModel: string
    const defaultVendor: string

    /** `CopilotGrpcClient(...)`: a missing or empty default is stored as
        the empty string. */
    constructor (address: string := DefaultAddress, defaultModel: Option<string> := None,
                 defaultVendor: Option<string> := None)
      ensures this.address == address
      ensures this.defaultModel == OrEmpty(defaultModel) && this.defaultVendor == OrEmpty(defaultVendor)
      ensures defaultModel.None? ==> this.defaultModel == ""
      ensures defaultVendor.None? ==> this.defaultVendor == ""
    {
      this.address := address;
      this.defaultModel := OrEmpty(defaultModel);
      this.defaultVendor := OrEmpty(defaultVendor);
    }

    /** `_build_request`: a bare prompt is one user message, a list maps
        one to one; `model` and `vendor` are the argument when it is
        non-empty and the client default otherwise, `system_prompt` the
        argument or empty. */
    function BuildRequest(messages: Messages, model: Option<string>, vendor: Option<string>,
                          systemPrompt: Option<string>): (r: Result<ChatRequest>)
      ensures messages.Prompt? ==> r.Ok? && r.value.messages == [RpcMessage("user", messages.text)]
      ensures messages.Conversation? ==> r.Ok? == RpcMessages(messages.items).Ok?
      ensures messages.Conversation? && r.Ok? ==> r.value.messages == RpcMessages(messages.items).value
      ensures r.Err? ==> r.error == AttributeError("role")
      ensures r.Ok? ==> r.value.model == (if Truthy(model) then model.value else defaultModel)
      ensures r.Ok? ==> r.value.vendor == (if Truthy(vendor) then vendor.value else defaultVendor)
      ensures r.Ok? ==> r.value.systemPrompt == (if Truthy(systemPrompt) then systemPrompt.value else "")
    {
      var msgs := match messages
        case Prompt(text) => Ok([RpcMessage("user", text)])
        case Conversation(items) => RpcMessages(items);
      match msgs
      case Err(e) => Err(e)
      case Ok(m) =>
        Ok(ChatRequest(
          m,
          if Truthy(model) then model.value else defaultModel,
          if Truthy(vendor) then vendor.value else defaultVendor,
          OrEmpty(systemPrompt)))
    }

    /** `chat_stream`: builds the request, then walks the frames the stub
        returns for it. A request that cannot be built raises before any
        frame is read. */
    method ChatStream(messages: Messages, model: Option<string>, vendor: Option<string>,
                      systemPrompt: Option<string>, frames: seq<ChatChunk>)
      returns (request: Option<ChatRequest>, fragments: seq<string>, end: StreamEnd)
      ensures var built := BuildRequest(messages, model, vendor, systemPrompt);
              && (built.Err? ==> request.None? && fragments == [] && end == Raised(built.error))
              && (built.Ok? ==> request == Some(built.value) && StreamResult(fragments, end) == ChunkStream(frames))
    {
      var built := BuildRequest(messages, model, vendor, systemPrompt);
      if built.Err? {
        request, fragments, end := None, [], Raised(built.error);
        return;
      }
      request := Some(built.value);
      fragments, end := ReadFrames(frames);
    }

    /** `chat_full`: builds the request, makes the unary call through
        `stub`, and copies the reply's id, model and content. A request
        that cannot be built raises before the call is made. */
    function ChatFull(messages: Messages, model: Option<string>, vendor: Option<string>,
                      systemPrompt: Option<string>, stub: ChatRequest -> ChatReply): (r: Result<ChatResponse>)
      ensures var built := BuildRequest(messages, model, vendor, systemPrompt);
              && (built.Err? ==> r == Err(built.error))
              && (built.Ok? ==> r.Ok? && r.value.id == stub(built.value).id
                                && r.value.model == stub(built.value).model
                                && r.value.content == stub(built.value).content)
    {
      match BuildRequest(messages, model, vendor, systemPrompt)
      case Err(e) => Err(e)
      case Ok(req) =>
        var reply := stub(req);
        Ok(ChatResponse(reply.id, reply.model, reply.content))
    }

    /** `chat`: the same request and call as `chat_full`, returning only
        the reply's content; it raises exactly when `chat_full` does. */
    function Chat(messages: Messages, model: Option<string>, vendor: Option<string>,
                  systemPrompt: Option<string>, stub: ChatRequest -> ChatReply): (r: Result<string>)
      ensures var built := BuildRequest(messages, model, vendor, systemPrompt);
              && (built.Err? ==> r == Err(built.error))
              && (built.Ok? ==> r == Ok(stub(built.value).content))
      ensures r.Ok? <==> ChatFull(messages, model, vendor, systemPrompt, stub).Ok?
      ensures r.Ok? ==> r.value == ChatFull(messages, model, vendor, systemPrompt, stub).value.content
    {
      match BuildRequest(messages, model, vendor, systemPrompt)
      case Err(e) => Err(e)
      case Ok(req) => Ok(stub(req).content)
    }

    /** `status`: every field of the reply, unchanged. */
    function Status(reply: StatusReply): (r: StatusResponse)
      ensures r.status == reply.status && r.port == reply.port && r.defaultModel == reply.defaultModel
      ensures r.requestsServed == reply.requestsServed && r.version == reply.version
    {
      StatusResponse(reply.status, reply.port, reply.defaultModel, reply.requestsServed, reply.version)
    }

    /** `list_models`: one record per model of the reply, in order, with
        every field copied. */
    function ListModels(models: seq<ModelReply>): (r: seq<ModelInfo>)
      ensures |r| == |models|
      ensures forall i :: 0 <= i < |models| ==>
                r[i] == ModelInfo(models[i].id, models[i].name, models[i].vendor,
                                  models[i].family, models[i].version, models[i].maxInputTokens)
    {
      if models == [] then []
      else
        var m := models[0];
        [ModelInfo(m.id, m.name, m.vendor, m.family, m.version, m.maxInputTokens)] + ListModels(models[1..])
    }
  }

  /** Unset reply fields read as the interface records' defaults. */
  lemma UnsetRepliesAreDefaults(c: CopilotGrpcClient, prompt: string)
    ensures c.Status(StatusReply("", 0, "", 0, "")) == StatusResponse()
    ensures c.ChatFull(Prompt(prompt), None, None, None, req => ChatReply(0, "", "")) == Ok(ChatResponse())
  {
  }
}
