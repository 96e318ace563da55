/** The HTTP client: the request body and headers it sends, the URL it
    sends them to, how it reads the replies of `/status`, `/models` and
    `/chat`, its `chat_json`, its `chat_stream` and the module-level
    client cache behind `ask_copilot`. The transport itself is left to
    parameters: a reply is given as the decoded JSON body, a stream as the
    decoded reads of the response. */
module HttpClient {
  import opened Text
  import opened Interface
  import Sse

  const DefaultBaseUrl := "http://127.0.0.1:3741"
  const JsonContentType := "application/json"

  // ── Request bodies ───────────────────────────────────────────────────

  /** The body `_build_payload` builds: `messages` is always sent, each
      other key only when it is `Some`. */
  datatype Payload = Payload(
    messages: seq<map<string, string>>,
    model: Option<string>,
    vendor: Option<string>,
    systemPrompt: Option<string>)

  /** The keys of the JSON object a payload is sent as. */
  function PayloadKeys(p: Payload): set<string> {
    {"messages"}
    + (if p.model.Some? then {"model"} else {})
    + (if p.vendor.Some? then {"vendor"} else {})
    + (if p.systemPrompt.Some? then {"systemPrompt"} else {})
  }

  /** The dict a bare prompt is sent as: exactly what a user
      `ChatMessage` with that text is sent as. */
  function UserMessage(text: string): (m: map<string, string>)
    ensures m == WireItem(MessageObject(ChatMessage("user", text)))
    ensures m.Keys == {"role", "content"} && m["content"] == text
  {
    map["role" := "user", "content" := text]
  }

  /** One list element on the wire: a dict passes through unchanged, an
      object with a `role` becomes a `role`/`content` dict. */
  function WireItem(item: MessageItem): (w: map<string, string>)
    ensures item.DictItem? ==> w == item.fields
    ensures item.MessageObject? ==> w.Keys == {"role", "content"}
    ensures item.MessageObject? ==> ChatMessage(w["role"], w["content"]) == item.message
  {
    match item
    case DictItem(fields) => fields
    case MessageObject(m) => map["role" := m.role, "content" := m.content]
  }

  /** The list comprehension of `_build_payload`: one wire message per
      element, in order. */
  function WireItems(items: seq<MessageItem>): (wire: seq<map<string, string>>)
    ensures |wire| == |items|
    ensures forall i :: 0 <= i < |items| ==> wire[i] == WireItem(items[i])
  {
    if items == [] then [] else [WireItem(items[0])] + WireItems(items[1..])
  }

  /** The `messages` value of the payload: a bare prompt is one user
      message, a list keeps its length and order. */
  function WireMessages(messages: Messages): (wire: seq<map<string, string>>)
    ensures messages.Prompt? ==> wire == [map["role" := "user", "content" := messages.text]]
    ensures messages.Conversation? ==> |wire| == |messages.items|
    ensures messages.Conversation? ==> forall i :: 0 <= i < |wire| ==> wire[i] == WireItem(messages.items[i])
  {
    match messages
    case Prompt(text) => [UserMessage(text)]
    case Conversation(items) => WireItems(items)
  }

  /** A list made only of dicts is sent exactly as given. */
  lemma DictsPassThrough(items: seq<MessageItem>)
    requires forall i :: 0 <= i < |items| ==> items[i].DictItem?
    ensures WireMessages(Conversation(items)) == seq(|items|, i requires 0 <= i < |items| => items[i].fields)
  {
  }

  /** A message object's role and content can be read back from the dict
      sent in its place, and nothing else is sent with them. */
  lemma ObjectsBecomeDicts(items: seq<MessageItem>, i: nat)
    requires i < |items| && items[i].MessageObject?
    ensures var wire := WireMessages(Conversation(items))[i];
            && wire.Keys == {"role", "content"}
            && ChatMessage(wire["role"], wire["content"]) == items[i].message
  {
  }

  /** `x or default` followed by `if m: payload[key] = m`: the key is sent
      iff one of the two is non-empty, the argument winning, and what is
      sent is never empty. */
  function Merge(arg: Option<string>, default: Option<string>): (r: Option<string>)
    ensures r.Some? <==> Truthy(arg) || Truthy(default)
    ensures r.Some? ==> r.value != ""
    ensures Truthy(arg) ==> r == arg
    ensures !Truthy(arg) && Truthy(default) ==> r == default
  {
    var m := Or(arg, default);
    if Truthy(m) then m else None
  }

  // ── Replies ─────────────────────────────────────────────────────────

  /** The JSON body of a `/status` reply, each key absent or present. */
  datatype StatusBody = StatusBody(
    status: Option<string>,
    port: Option<int>,
    defaultModel: Option<string>,
    requestsServed: Option<int>,
    version: Option<string>)

  /** One element of the `models` list of a `/models` reply. */
  datatype ModelEntry = ModelEntry(
    id: Option<string>,
    name: Option<string>,
    vendor: Option<string>,
    family: Option<string>,
    version: Option<string>,
    maxInputTokens: Option<int>)

  datatype ModelsBody = ModelsBody(models: Option<seq<ModelEntry>>)

  /** The JSON body of a `/chat` reply. */
  datatype ChatBody = ChatBody(id: Option<int>, model: Option<string>, content: Option<string>)

  /** `status()`: every key the server sent is copied, every missing one
      takes the record's default. */
  function StatusFromBody(data: StatusBody): (r: StatusResponse)
    ensures data.status.Some? ==> r.status == data.status.value
    ensures data.status.None? ==> r.status == StatusResponse().status
    ensures data.port.Some? ==> r.port == data.port.value
    ensures data.port.None? ==> r.port == StatusResponse().port
    ensures data.defaultModel.Some? ==> r.defaultModel == data.defaultModel.value
    ensures data.defaultModel.None? ==> r.defaultModel == StatusResponse().defaultModel
    ensures data.requestsServed.Some? ==> r.requestsServed == data.requestsServed.value
    ensures data.requestsServed.None? ==> r.requestsServed == StatusResponse().requestsServed
    ensures data.version.Some? ==> r.version == data.version.value
    ensures data.version.None? ==> r.version == StatusResponse().version
  {
    StatusResponse(
      status := GetOr(data.status, ""),
      port := GetOr(data.port, 0),
      defaultModel := GetOr(data.defaultModel, ""),
      requestsServed := GetOr(data.requestsServed, 0),
      version := GetOr(data.version, ""))
  }

  /** An empty `/status` body reads as the default record. */
  lemma EmptyStatusIsDefault()
    ensures StatusFromBody(StatusBody(None, None, None, None, None)) == StatusResponse()
  {
  }

  /** One `ModelInfo(...)` of `list_models()`: every key the server sent
      is copied, every missing one takes the record's default. */
  function ModelFromEntry(m: ModelEntry): (r: ModelInfo)
    ensures m.id.Some? ==> r.id == m.id.value
    ensures m.id.None? ==> r.id == ModelInfo().id
    ensures m.name.Some? ==> r.name == m.name.value
    ensures m.name.None? ==> r.name == ModelInfo().name
    ensures m.vendor.Some? ==> r.vendor == m.vendor.value
    ensures m.vendor.None? ==> r.vendor == ModelInfo().vendor
    ensures m.family.Some? ==> r.family == m.family.value
    ensures m.family.None? ==> r.family == ModelInfo().family
    ensures m.version.Some? ==> r.version == m.version.value
    ensures m.version.None? ==> r.version == ModelInfo().version
    ensures m.maxInputTokens.Some? ==> r.maxInputTokens == m.maxInputTokens.value
    ensures m.maxInputTokens.None? ==> r.maxInputTokens == ModelInfo().maxInputTokens
  {
    ModelInfo(
      id := GetOr(m.id, ""),
      name := GetOr(m.name, ""),
      vendor := GetOr(m.vendor, ""),
      family := GetOr(m.family, ""),
      version := GetOr(m.version, ""),
      maxInputTokens := GetOr(m.maxInputTokens, 0))
  }

  /** The comprehension of `list_models`: one record per entry, in order. */
  function ModelsFromEntries(entries: seq<ModelEntry>): (r: seq<ModelInfo>)
    ensures |r| == |entries|
    ensures forall i :: 0 <= i < |entries| ==> r[i] == ModelFromEntry(entries[i])
  {
    if entries == [] then [] else [ModelFromEntry(entries[0])] + ModelsFromEntries(entries[1..])
  }

  /** `list_models()`: no `models` key is an empty list; otherwise the
      models come back in the server's order, each read field by field as
      `ModelFromEntry` states. */
  function ModelsFromBody(data: ModelsBody): (r: seq<ModelInfo>)
    ensures data.models.None? ==> r == []
    ensures data.models.Some? ==> |r| == |data.models.value|
    ensures data.models.Some? ==> forall i :: 0 <= i < |r| ==> r[i] == ModelFromEntry(data.models.value[i])
  {
    ModelsFromEntries(GetOr(data.models, []))
  }

  /** An entry with no keys reads as the default record. */
  lemma EmptyModelIsDefault()
    ensures ModelFromEntry(ModelEntry(None, None, None, None, None, None)) == ModelInfo()
  {
  }

  /** `chat()`: the `content` of the reply, or empty. */
  function ChatText(data: ChatBody): (text: string)
    ensures data.content.Some? ==> text == data.content.value
    ensures data.content.None? ==> text == ""
  {
    GetOr(data.content, "")
  }

  /** `chat_full()`: the reply's id, model and content, each defaulted. */
  function ChatFromBody(data: ChatBody): (r: ChatResponse)
    ensures data.id.Some? ==> r.id == data.id.value
    ensures data.id.None? ==> r.id == ChatResponse().id
    ensures data.model.Some? ==> r.model == data.model.value
    ensures data.model.None? ==> r.model == ChatResponse().model
    ensures data.content.Some? ==> r.content == data.content.value
    ensures data.content.None? ==> r.content == ChatResponse().content
  {
    ChatResponse(id := GetOr(data.id, 0), model := GetOr(data.model, ""), content := GetOr(data.content, ""))
  }

  /** `chat` and `chat_full` agree on the text of the same reply. */
  lemma ChatIsFullContent(data: ChatBody)
    ensures ChatText(data) == ChatFromBody(data).content
  {
  }

  // ── Requests ────────────────────────────────────────────────────────

  datatype Verb = Get | Post

  /** What `_get` and `_post` hand to `urlopen`. */
  datatype Request = Request(verb: Verb, url: string, headers: map<string, string>, body: Option<Payload>)

  /** The paths the client calls. */
  predicate IsEndpoint(path: string) {
    path in {"/status", "/models", "/chat", "/chat/stream"}
  }

  /** A base URL however many slashes end it is stored the same. */
  lemma {:induction false} TrailingSlashesIgnored(url: string, n: nat)
    ensures RStrip(url + seq(n, _ => '/'), '/') == RStrip(url, '/')
    decreases n
  {
    if n > 0 {
      var s := url + seq(n, _ => '/');
      assert s[..|s| - 1] == url + seq(n - 1, _ => '/');
      TrailingSlashesIgnored(url, n - 1);
    } else {
      assert url + seq(n, _ => '/') == url;
    }
  }

  class CopilotClient {
    const baseUrl: string
    const apiKey: Option<string>
    const defaultModel: Option<string>
    const defaultVendor: Option<string>

    /** The stored base URL never ends with a slash. */
    predicate Valid() {
      baseUrl == [] || baseUrl[|baseUrl| - 1] != '/'
    }

    /** `CopilotClient(...)`: the base URL loses its trailing slashes, the
        rest is stored as given. */
    constructor (baseUrl: string := DefaultBaseUrl, apiKey: Option<string> := None,
                 defaultModel: Option<string> := None, defaultVendor: Option<string> := None)
      ensures this.baseUrl == RStrip(baseUrl, '/')
      ensures this.apiKey == apiKey && this.defaultModel == defaultModel && this.defaultVendor == defaultVendor
      ensures Valid()
    {
      this.baseUrl := RStrip(baseUrl, '/');
      this.apiKey := apiKey;
      this.defaultModel := defaultModel;
      this.defaultVendor := defaultVendor;
    }

    /** `_build_payload`: the messages always; `model` and `vendor` when
        the argument or else the client default is non-empty, the argument
        winning; `systemPrompt` when the argument is non-empty. */
    function BuildPayload(messages: Messages, model: Option<string>, vendor: Option<string>,
                          systemPrompt: Option<string>): (p: Payload)
      ensures p.messages == WireMessages(messages)
      ensures p.model.Some? <==> Truthy(model) || Truthy(defaultModel)
      ensures p.model.Some? ==> p.model.value == (if Truthy(model) then model else defaultModel).value
      ensures p.model.Some? ==> p.model.value != ""
      ensures p.vendor.Some? <==> Truthy(vendor) || Truthy(defaultVendor)
      ensures p.vendor.Some? ==> p.vendor.value == (if Truthy(vendor) then vendor else defaultVendor).value
      ensures p.vendor.Some? ==> p.vendor.value != ""
      ensures p.systemPrompt.Some? <==> Truthy(systemPrompt)
      ensures p.systemPrompt.Some? ==> p.systemPrompt == systemPrompt
      ensures "messages" in PayloadKeys(p)
      ensures PayloadKeys(p) <= {"messages", "model", "vendor", "systemPrompt"}
    {
      Payload(
        WireMessages(messages),
        Merge(model, defaultModel),
        Merge(vendor, defaultVendor),
        if Truthy(systemPrompt) then systemPrompt else None)
    }

    /** `_headers`: the JSON content type always, a bearer token exactly
        when an API key is set, nothing else. */
    function Headers(): (h: map<string, string>)
      ensures "Content-Type" in h && h["Content-Type"] == JsonContentType
      ensures "Authorization" in h <==> Truthy(apiKey)
      ensures h.Keys <= {"Content-Type", "Authorization"}
      ensures "Authorization" in h ==>
                StartsWith(h["Authorization"], "Bearer ") && h["Authorization"][7..] == apiKey.value
    {
      var h := map["Content-Type" := JsonContentType];
      if Truthy(apiKey) then h["Authorization" := "Bearer " + apiKey.value] else h
    }

    /** `_get(path)`: a GET of the path under the stored base URL, with
        `_headers()` and no body. */
    function GetRequest(path: string): (r: Request)
      ensures r.verb == Get && r.body.None? && r.headers == Headers()
      ensures StartsWith(r.url, baseUrl) && r.url[|baseUrl|..] == path
    {
      Request(Get, baseUrl + path, Headers(), None)
    }

    /** `_post(path, payload)`: the same URL and headers as a GET of the
        path, as a POST carrying the payload. */
    function PostRequest(path: string, payload: Payload): (r: Request)
      ensures r.verb == Post && r.body == Some(payload)
      ensures r.url == GetRequest(path).url && r.headers == GetRequest(path).headers
    {
      Request(Post, baseUrl + path, Headers(), Some(payload))
    }

    /** Every request goes to the stored base URL followed by the path,
        with exactly the one slash the path starts with at the seam. */
    lemma RequestUrls(path: string, payload: Payload)
      requires Valid() && IsEndpoint(path)
      ensures GetRequest(path).url[..|baseUrl|] == baseUrl && GetRequest(path).url[|baseUrl|..] == path
      ensures PostRequest(path, payload).url == GetRequest(path).url
      ensures |baseUrl| > 0 ==> GetRequest(path).url[|baseUrl| - 1] != '/' && GetRequest(path).url[|baseUrl|] == '/'
    {
      var url := baseUrl + path;
      assert url[..|baseUrl|] == baseUrl;
      assert url[|baseUrl|..] == path;
      if |baseUrl| > 0 {
        assert url[|baseUrl| - 1] == baseUrl[|baseUrl| - 1];
      }
    }

    /** `chat()`: posts the built payload to `/chat` and returns the
        reply's text. */
    function Chat(messages: Messages, model: Option<string>, vendor: Option<string>,
                  systemPrompt: Option<string>, reply: ChatBody): (r: (Request, string))
      ensures r.0.verb == Post && r.0.url == baseUrl + "/chat"
      ensures r.0.headers == Headers()
      ensures r.0.body == Some(BuildPayload(messages, model, vendor, systemPrompt))
      ensures r.1 == ChatFromBody(reply).content
    {
      (PostRequest("/chat", BuildPayload(messages, model, vendor, systemPrompt)), ChatText(reply))
    }

    /** `chat_json()` on the text `chat` returned: the interface's three
        tiers, except that finding no JSON at all raises
        `CopilotClientError` with the same message instead of
        `ValueError`. */
    function ChatJson<J>(text: string, parse: string -> Option<J>): (r: Result<J>)
      ensures r.Err? && r.error.CopilotClientError? <==> Interface.ChatJson(text, parse).Err? && Interface.ChatJson(text, parse).error.ValueError?
      ensures r.Err? && r.error.CopilotClientError? ==> r.error.message == Interface.ChatJson(text, parse).error.message
      ensures !(r.Err? && r.error.CopilotClientError?) ==> r == Interface.ChatJson(text, parse)
    {
      match Extract(text, parse)
      case Decoded(v) => Ok(v)
      case DecodeFailed(doc) => Err(JsonDecodeError(doc))
      case NoJson(excerpt) => Err(CopilotClientError(NoJsonPrefix + excerpt))
    }

    /** `chat_stream()`: posts the built payload to `/chat/stream` and
        yields what the event stream read from the reply yields. */
    method ChatStream(messages: Messages, model: Option<string>, vendor: Option<string>,
                      systemPrompt: Option<string>, chunks: seq<string>, decode: Sse.Decoder)
      returns (request: Request, fragments: seq<string>, end: StreamEnd)
      ensures request.verb == Post && request.url == baseUrl + "/chat/stream"
      ensures request.headers == Headers()
      ensures request.body == Some(BuildPayload(messages, model, vendor, systemPrompt))
      ensures StreamResult(fragments, end) == Sse.SseSpec(chunks, decode)
    {
      request := PostRequest("/chat/stream", BuildPayload(messages, model, vendor, systemPrompt));
      fragments, end := Sse.ReadStream(chunks, decode);
    }
  }

  /** The module-level `_default_client` of `ask_copilot`. */
  class Session {
    var defaultClient: CopilotClient?

    /** The cached client, when there is one, was built by the constructor
        and so holds a base URL without a trailing slash. */
    predicate Valid()
      reads this
    {
      defaultClient != null ==> defaultClient.Valid()
    }

    constructor ()
      ensures defaultClient == null
      ensures Valid()
    {
      defaultClient := null;
    }

    /** `ask_copilot()`: the cached client is reused iff there is one and
        its stored base URL equals the argument; otherwise a fresh client
        for that URL replaces it. A base URL ending in `/` therefore always
        builds a new client, while after a call with a slash-free URL the
        cache holds exactly that URL. The prompt is then sent through
        `chat` with no vendor. */
    method AskCopilot(prompt: string, model: Option<string>, systemPrompt: Option<string>,
                      reply: ChatBody, baseUrl: string := DefaultBaseUrl)
      returns (request: Request, answer: string)
      requires Valid()
      modifies this
      ensures Valid()
      ensures old(defaultClient) != null && old(defaultClient.baseUrl) == baseUrl ==> defaultClient == old(defaultClient)
      ensures !(old(defaultClient) != null && old(defaultClient.baseUrl) == baseUrl) ==>
                && fresh(defaultClient)
                && defaultClient.baseUrl == RStrip(baseUrl, '/')
                && defaultClient.apiKey.None? && defaultClient.defaultModel.None? && defaultClient.defaultVendor.None?
      ensures defaultClient != null
      ensures |baseUrl| > 0 && baseUrl[|baseUrl| - 1] == '/' ==> fresh(defaultClient)
      ensures baseUrl == [] || baseUrl[|baseUrl| - 1] != '/' ==> defaultClient.baseUrl == baseUrl
      ensures (request, answer) == defaultClient.Chat(Prompt(prompt), model, None, systemPrompt, reply)
    {
      if defaultClient == null || defaultClient.baseUrl != baseUrl {
        defaultClient := new CopilotClient(baseUrl := baseUrl);
      }
      if |baseUrl| > 0 && baseUrl[|baseUrl| - 1] == '/' && old(defaultClient) != null {
        TrailingSlashNeverCached(old(defaultClient), baseUrl);
      }
      if baseUrl == [] || baseUrl[|baseUrl| - 1] != '/' {
        SlashFreeUrlIsCached(baseUrl);
      }
      var sent := defaultClient.Chat(Prompt(prompt), model, None, systemPrompt, reply);
      request, answer := sent.0, sent.1;
    }
  }

  /** A cached client never matches a base URL that ends with a slash, so
      such a call always builds a new client. */
  lemma TrailingSlashNeverCached(c: CopilotClient, baseUrl: string)
    requires c.Valid()
    requires |baseUrl| > 0 && baseUrl[|baseUrl| - 1] == '/'
    ensures c.baseUrl != baseUrl
  {
  }

  /** Calling `ask_copilot` twice with the same slash-free base URL builds
      the client once: the second call finds the first one's client. */
  lemma SlashFreeUrlIsCached(baseUrl: string)
    requires baseUrl == [] || baseUrl[|baseUrl| - 1] != '/'
    ensures RStrip(baseUrl, '/') == baseUrl
  {
  }
}
