/** The transport-independent client contract: the response records with
    their defaults, the message inputs both clients accept, the exceptions
    they raise, the shape of a streamed reply, and the default `chat_json`
    with its three extraction tiers. */
module Interface {
  import opened Text

  datatype Option<+T> = None | Some(value: T)

  /** Python's `a or b` on two optional strings: `a` unless it is `None` or
      empty. */
  predicate Truthy(o: Option<string>) {
    o.Some? && o.value != ""
  }

  function Or(a: Option<string>, b: Option<string>): (r: Option<string>)
    ensures Truthy(a) ==> r == a
    ensures !Truthy(a) ==> r == b
  {
    if Truthy(a) then a else b
  }

  /** `d.get(key, default)` once the key has been looked up. */
  function GetOr<T>(o: Option<T>, default: T): T {
    match o
    case Some(v) => v
    case None => default
  }

  // ── Data models ──────────────────────────────────────────────────────

  datatype ChatMessage = ChatMessage(role: string, content: string)

  datatype ChatOptions = ChatOptions(
    model: Option<string> := None,
    vendor: Option<string> := None,
    systemPrompt: Option<string> := None)

  datatype StatusResponse = StatusResponse(
    status: string := "",
    port: int := 0,
    defaultModel: string := "",
    requestsServed: int := 0,
    version: string := "")

  datatype ModelInfo = ModelInfo(
    id: string := "",
    name: string := "",
    vendor: string := "",
    family: string := "",
    version: string := "",
    maxInputTokens: int := 0)

  datatype ChatResponse = ChatResponse(
    id: int := 0,
    model: string := "",
    content: string := "")

  /** Every string field of the three response records defaults to the
      empty string and every integer field to zero. */
  lemma ResponseDefaults()
    ensures StatusResponse() == StatusResponse("", 0, "", 0, "")
    ensures ModelInfo() == ModelInfo("", "", "", "", "", 0)
    ensures ChatResponse() == ChatResponse(0, "", "")
    ensures ChatOptions() == ChatOptions(None, None, None)
  {
  }

  /** One element of a message list: a plain dict, or an object with `role`
      and `content` attributes (a `ChatMessage`). */
  datatype MessageItem = DictItem(fields: map<string, string>) | MessageObject(message: ChatMessage)

  /** The `messages` argument of every chat call: a bare prompt or a list. */
  datatype Messages = Prompt(text: string) | Conversation(items: seq<MessageItem>)

  /** The exceptions the clients raise, by Python class, with the class
      hierarchy flattened: `JsonDecodeError` stands for
      `json.JSONDecodeError`, which Python makes a subclass of
      `ValueError`, and `ValueError` stands for a plain `ValueError` raised
      by the clients' own code. */
  datatype Exception =
    | ValueError(message: string)
    | JsonDecodeError(document: string)
    | RuntimeError(message: string)
    | AttributeError(name: string)
    | CopilotClientError(message: string)

  datatype Result<+T> = Ok(value: T) | Err(error: Exception)

  /** How a streamed reply stops: a terminal `done` frame (the generator
      returns), an exception, or the transport running out of frames. */
  datatype StreamEnd = Finished | Raised(error: Exception) | Exhausted

  /** The fragments a `chat_stream` generator yields, then how it stops. */
  datatype StreamResult = StreamResult(fragments: seq<string>, end: StreamEnd)

  function Prepend(fragments: seq<string>, r: StreamResult): StreamResult {
    StreamResult(fragments + r.fragments, r.end)
  }

  /** Prepending twice is prepending the two runs of fragments at once. */
  lemma PrependTwice(a: seq<string>, b: seq<string>, r: StreamResult)
    ensures Prepend(a, Prepend(b, r)) == Prepend(a + b, r)
  {
    assert a + (b + r.fragments) == (a + b) + r.fragments;
  }

  // ── chat_json: best-effort JSON extraction ───────────────────────────

  /** A pair of indices into the reply text. */
  datatype Span = Span(start: nat, end: nat)

  predicate FenceAt(s: string, i: int) {
    0 <= i && i + 3 <= |s| && s[i] == '`' && s[i + 1] == '`' && s[i + 2] == '`'
  }

  /** The first triple backtick at or after `from`. */
  function FindFence(s: string, from: nat): (r: Option<nat>)
    ensures r.Some? ==> from <= r.value && FenceAt(s, r.value)
    ensures r.Some? ==> forall k :: from <= k < r.value ==> !FenceAt(s, k)
    ensures r.None? ==> forall k :: from <= k ==> !FenceAt(s, k)
    decreases |s| - from
  {
    if from + 3 > |s| then None
    else if FenceAt(s, from) then Some(from)
    else FindFence(s, from + 1)
  }

  /** Where the pattern ```` ```(?:json)?\s*([\s\S]*?)``` ```` can match:
      an opening fence and a closing fence that starts after it ends. */
  ghost predicate FenceMatch(s: string, i: int, j: int) {
    FenceAt(s, i) && FenceAt(s, j) && i + 3 <= j
  }

  /** The opening and closing fence that `re.search` picks: the leftmost
      fence, closed by the first fence after it. */
  function FenceSpan(text: string): (r: Option<Span>)
    ensures r.Some? ==> FenceMatch(text, r.value.start, r.value.end)
  {
    match FindFence(text, 0)
    case None => None
    case Some(i0) =>
      match FindFence(text, i0 + 3)
      case None => None
      case Some(j) => Some(Span(i0, j))
  }

  /** The fence tier applies exactly when some fence pair exists, and it
      uses the leftmost match and, for that start, the shortest one: the
      lazy `*?` stops at the first closing fence. */
  lemma FenceSpanIsLeftmostShortest(text: string)
    ensures FenceSpan(text).Some? <==> exists i, j :: FenceMatch(text, i, j)
    ensures FenceSpan(text).Some? ==>
              forall i, j :: FenceMatch(text, i, j) ==>
                FenceSpan(text).value.start < i
                || (FenceSpan(text).value.start == i && FenceSpan(text).value.end <= j)
  {
    match FindFence(text, 0)
    case None =>
    case Some(i0) =>
  }

  predicate JsonTagAt(s: string, p: nat) {
    p + 4 <= |s| && s[p..p + 4] == "json"
  }

  /** No fence starts inside a `json` tag. */
  lemma TagHoldsNoFence(s: string, p: nat)
    requires JsonTagAt(s, p)
    ensures forall k :: p <= k < p + 4 ==> !FenceAt(s, k)
  {
    assert s[p] == 'j' && s[p + 1] == 's' && s[p + 2] == 'o' && s[p + 3] == 'n' by {
      assert s[p..p + 4] == "json";
      assert s[p] == s[p..p + 4][0] && s[p + 1] == s[p..p + 4][1];
      assert s[p + 2] == s[p..p + 4][2] && s[p + 3] == s[p..p + 4][3];
    }
  }

  /** Where the opening fence and its optional `json` tag end: the tag is
      taken whenever it follows the fence. */
  function TagEnd(text: string, f: Span): (q: nat)
    requires FenceSpan(text) == Some(f)
    ensures JsonTagAt(text, f.start + 3) ==> q == f.start + 7
    ensures !JsonTagAt(text, f.start + 3) ==> q == f.start + 3
    ensures q <= f.end
    ensures forall k :: f.start + 3 <= k < q ==> !FenceAt(text, k)
  {
    var p := f.start + 3;
    if JsonTagAt(text, p) then
      TagHoldsNoFence(text, p);
      p + 4
    else
      p
  }

  /** Where the captured group starts: after the opening fence, the
      optional tag and the whitespace that follows them, at the first
      character that is not whitespace (or at the closing fence). */
  function GroupStart(text: string, f: Span): (g: nat)
    requires FenceSpan(text) == Some(f)
    ensures f.start + 3 <= TagEnd(text, f) <= g <= f.end
    ensures forall k :: TagEnd(text, f) <= k < g ==> IsSpace(text[k])
    ensures g < f.end ==> !IsSpace(text[g])
    ensures forall k :: f.start + 3 <= k < g ==> !FenceAt(text, k)
  {
    var q := TagEnd(text, f);
    assert !IsSpace(text[f.end]);
    var g := SkipSpaces(text, q);
    assert forall k :: q <= k < g ==> !FenceAt(text, k) by {
      forall k | q <= k < g ensures !FenceAt(text, k) {
        assert IsSpace(text[k]);
      }
    }
    g
  }

  /** The second tier's document: the text between the tag and the closing
      fence with the whitespace on both sides cut off; what is cut off is
      whitespace and the document neither starts nor ends with it. */
  function FenceCandidate(text: string, f: Span): (doc: string)
    requires FenceSpan(text) == Some(f)
    ensures var q := TagEnd(text, f);
            exists a, b :: q <= a <= b <= f.end && doc == text[a..b]
                           && (forall k :: q <= k < a ==> IsSpace(text[k]))
                           && (forall k :: b <= k < f.end ==> IsSpace(text[k]))
    ensures doc == [] || (!IsSpace(doc[0]) && !IsSpace(doc[|doc| - 1]))
  {
    var g := GroupStart(text, f);
    StripInside(text, TagEnd(text, f), g, f.end);
    Strip(text[g..f.end])
  }

  /** Stripping `s[lo..hi]` when `s[q..lo]` is whitespace: the result is a
      slice of `s` whose surroundings up to `q` and `hi` are whitespace. */
  lemma StripInside(s: string, q: nat, lo: nat, hi: nat)
    requires q <= lo <= hi <= |s|
    requires forall k :: q <= k < lo ==> IsSpace(s[k])
    ensures exists a, b :: q <= a <= b <= hi && Strip(s[lo..hi]) == s[a..b]
                           && (forall k :: q <= k < a ==> IsSpace(s[k]))
                           && (forall k :: b <= k < hi ==> IsSpace(s[k]))
  {
    var inner := s[lo..hi];
    var a := SkipSpaces(inner, 0);
    var b := TrimEnd(inner, a, |inner|);
    assert Strip(inner) == s[lo + a..lo + b] by {
      SliceOfSlice(s, lo, hi, a, b);
    }
    assert forall k :: q <= k < lo + a ==> IsSpace(s[k]) by {
      forall k | q <= k < lo + a ensures IsSpace(s[k]) {
        if k >= lo { assert s[k] == inner[k - lo]; }
      }
    }
    assert forall k :: lo + b <= k < hi ==> IsSpace(s[k]) by {
      forall k | lo + b <= k < hi ensures IsSpace(s[k]) {
        assert s[k] == inner[k - lo];
      }
    }
  }

  lemma SliceOfSlice(s: string, lo: nat, hi: nat, a: nat, b: nat)
    requires lo <= hi <= |s| && a <= b <= hi - lo
    ensures s[lo..hi][a..b] == s[lo + a..lo + b]
  {
    assert forall i :: 0 <= i < b - a ==> s[lo..hi][a..b][i] == s[lo + a + i];
  }

  /** The first `{` and the last `}` of the text. */
  function BraceSpan(text: string): (r: Option<Span>)
    ensures r.Some? ==> r.value.start < r.value.end < |text|
                        && text[r.value.start] == '{' && text[r.value.end] == '}'
  {
    if '{' in text && '}' in text then
      var b0 := IndexOf(text, '{');
      var b1 := LastIndexOf(text, '}');
      if b0 < b1 then Some(Span(b0, b1)) else None
    else
      None
  }

  /** The last index of `c` in `s`. */
  function LastIndexOf(s: string, c: char): (k: nat)
    requires c in s
    ensures k < |s| && s[k] == c
    ensures forall i :: k < i < |s| ==> s[i] != c
  {
    if s[|s| - 1] == c then |s| - 1
    else
      assert c in s[..|s| - 1] by { var i :| 0 <= i < |s| && s[i] == c; assert s[..|s| - 1][i] == c; }
      LastIndexOf(s[..|s| - 1], c)
  }

  ghost predicate BraceMatch(s: string, i: int, j: int) {
    0 <= i < j < |s| && s[i] == '{' && s[j] == '}'
  }

  /** `\{[\s\S]*\}` matches exactly when some `{` precedes some `}`, and
      `re.search` with the greedy star takes the widest such span. */
  lemma BraceSpanIsLeftmostLongest(text: string)
    ensures BraceSpan(text).Some? <==> exists i, j :: BraceMatch(text, i, j)
    ensures BraceSpan(text).Some? ==>
              forall i, j :: BraceMatch(text, i, j) ==>
                BraceSpan(text).value.start <= i && j <= BraceSpan(text).value.end
  {
    if exists i, j :: BraceMatch(text, i, j) {
      var i, j :| BraceMatch(text, i, j);
      assert text[i] == '{' && text[j] == '}';
      var b0 := IndexOf(text, '{');
      var b1 := LastIndexOf(text, '}');
      assert forall i' :: 0 <= i' < b0 ==> text[i'] == text[..b0][i'];
    }
    if BraceSpan(text).Some? {
      assert BraceMatch(text, BraceSpan(text).value.start, BraceSpan(text).value.end);
    }
  }

  /** What the three tiers produce, before a client turns a failure into
      its own exception class. */
  datatype JsonOutcome<+J> = Decoded(value: J) | DecodeFailed(document: string) | NoJson(excerpt: string)

  /** `json.loads(document)`: a decode error propagates. */
  function Attempt<J>(document: string, parse: string -> Option<J>): (r: JsonOutcome<J>)
    ensures r.Decoded? <==> parse(document).Some?
    ensures r.Decoded? ==> parse(document) == Some(r.value)
    ensures r.DecodeFailed? <==> parse(document).None?
    ensures r.DecodeFailed? ==> r.document == document
  {
    match parse(document)
    case Some(v) => Decoded(v)
    case None => DecodeFailed(document)
  }

  /** Holds when `doc` is a slice of `text`. */
  ghost predicate Within(doc: string, text: string) {
    exists a, b :: 0 <= a <= b <= |text| && doc == text[a..b]
  }

  /** The three tiers of `chat_json`, on the reply text: the whole text,
      else the first fenced block (whose failure propagates), else the
      brace span, else no JSON; `parse` is `json.loads`, `None` standing
      for `JSONDecodeError`. Whatever is decoded or fails to decode is a
      slice of the reply, and the excerpt is at most its first 500
      characters. */
  function Extract<J>(text: string, parse: string -> Option<J>): (r: JsonOutcome<J>)
    ensures r.Decoded? ==> exists a, b :: 0 <= a <= b <= |text| && parse(text[a..b]) == Some(r.value)
    ensures r.DecodeFailed? ==> Within(r.document, text) && parse(r.document).None?
    ensures r.NoJson? ==> r.excerpt == text[..if |text| < 500 then |text| else 500]
  {
    match parse(text)
    case Some(v) =>
      assert text[0..|text|] == text;
      Decoded(v)
    case None =>
      match FenceSpan(text)
      case Some(f) =>
        var doc := FenceCandidate(text, f);
        var a, b :| 0 <= a <= b <= |text| && doc == text[a..b];
        Attempt(doc, parse)
      case None =>
        match BraceSpan(text)
        case Some(s) =>
          var doc := text[s.start..s.end + 1];
          Attempt(doc, parse)
        case None => NoJson(text[..if |text| < 500 then |text| else 500])
  }

  const NoJsonPrefix := "Could not parse JSON from response:\n"

  /** `ICopilotClient.chat_json` applied to the text `chat` returned. */
  function ChatJson<J>(text: string, parse: string -> Option<J>): (r: Result<J>)
    ensures r.Err? && r.error.ValueError? <==>
              parse(text).None? && FenceSpan(text).None? && BraceSpan(text).None?
    ensures r.Err? && r.error.ValueError? ==>
              r.error.message == NoJsonPrefix + text[..if |text| < 500 then |text| else 500]
    ensures r.Err? ==> r.error.ValueError? || r.error.JsonDecodeError?
  {
    match Extract(text, parse)
    case Decoded(v) => Ok(v)
    case DecodeFailed(doc) => Err(JsonDecodeError(doc))
    case NoJson(excerpt) => Err(ValueError(NoJsonPrefix + excerpt))
  }

  /** A reply that is JSON as a whole is returned as parsed, and neither
      extraction tier is consulted. */
  lemma WholeTextFirst<J>(text: string, parse: string -> Option<J>)
    requires parse(text).Some?
    ensures Extract(text, parse) == Decoded(parse(text).value)
  {
  }

  /** Once a fence pair exists, the fenced document decides the outcome:
      its decode error propagates and the brace tier is never tried. */
  lemma FenceTierIsFinal<J>(text: string, parse: string -> Option<J>)
    requires parse(text).None?
    requires FenceSpan(text).Some?
    ensures Extract(text, parse) == Attempt(FenceCandidate(text, FenceSpan(text).value), parse)
  {
  }

  /** The brace tier runs only when the whole text fails and there is no
      fence pair: its document is the span from the first `{` to the last
      `}`, which is either decoded or reported as the failed document. */
  lemma BraceTierOnlyWithoutFence<J>(text: string, parse: string -> Option<J>)
    requires parse(text).None?
    requires FenceSpan(text).None?
    requires BraceSpan(text).Some?
    ensures var s := BraceSpan(text).value;
            Extract(text, parse) == Attempt(text[s.start..s.end + 1], parse)
  {
  }

  /** No JSON is reported exactly when the whole text fails to decode and
      neither a fence pair nor a brace span is found. */
  lemma NoJsonOnlyWithoutCandidates<J>(text: string, parse: string -> Option<J>)
    ensures Extract(text, parse).NoJson? <==>
              parse(text).None? && FenceSpan(text).None? && BraceSpan(text).None?
  {
  }

  /** A document wrapped in a `json` fence after prose without backticks
      comes back out: the fence tier recovers exactly the document. */
  lemma FencedRoundTrip<J>(prose: string, doc: string, tail: string, parse: string -> Option<J>)
    requires '`' !in prose && '`' !in doc
    requires doc == [] || (!IsSpace(doc[0]) && !IsSpace(doc[|doc| - 1]))
    requires parse(prose + "```json\n" + doc + "\n```" + tail).None?
    ensures Extract(prose + "```json\n" + doc + "\n```" + tail, parse) == Attempt(doc, parse)
  {
    var text := prose + "```json\n" + doc + "\n```" + tail;
    var f := Span(|prose|, |prose| + 9 + |doc|);
    FencedSpan(prose, doc, tail, text);
    FencedCandidate(prose, doc, tail, text);
  }

  /** Positions in `prose + "```json\n" + doc + "\n```" + tail`. */
  lemma FencedLayout(prose: string, doc: string, tail: string, text: string)
    requires text == prose + "```json\n" + doc + "\n```" + tail
    ensures forall k :: 0 <= k < |prose| ==> text[k] == prose[k]
    ensures text[|prose|..|prose| + 8] == "```json\n"
    ensures forall k :: 0 <= k < |doc| ==> text[|prose| + 8 + k] == doc[k]
    ensures text[|prose| + 8..|prose| + 8 + |doc|] == doc
    ensures text[|prose| + 8 + |doc|..|prose| + 12 + |doc|] == "\n```"
  {
    assert text == (prose + "```json\n") + doc + ("\n```" + tail);
  }

  lemma FencedSpan(prose: string, doc: string, tail: string, text: string)
    requires '`' !in prose && '`' !in doc
    requires text == prose + "```json\n" + doc + "\n```" + tail
    ensures FenceSpan(text) == Some(Span(|prose|, |prose| + 9 + |doc|))
  {
    FencedOpening(prose, doc, tail, text);
    FencedClosing(prose, doc, tail, text);
  }

  lemma FencedOpening(prose: string, doc: string, tail: string, text: string)
    requires '`' !in prose
    requires text == prose + "```json\n" + doc + "\n```" + tail
    ensures FindFence(text, 0) == Some(|prose|)
  {
    FencedLayout(prose, doc, tail, text);
    var i0 := |prose|;
    assert text[i0] == text[i0..i0 + 8][0];
    assert text[i0 + 1] == text[i0..i0 + 8][1];
    assert text[i0 + 2] == text[i0..i0 + 8][2];
    assert FenceAt(text, i0);
    forall k | 0 <= k < |text| && k < i0 ensures text[k] != '`' {
      assert text[k] == prose[k];
    }
  }

  lemma FencedClosing(prose: string, doc: string, tail: string, text: string)
    requires '`' !in doc
    requires text == prose + "```json\n" + doc + "\n```" + tail
    ensures FindFence(text, |prose| + 3) == Some(|prose| + 9 + |doc|)
  {
    FencedLayout(prose, doc, tail, text);
    var i0 := |prose|;
    var j := |prose| + 9 + |doc|;
    var close := text[|prose| + 8 + |doc|..|prose| + 12 + |doc|];
    assert text[j] == close[1] && text[j + 1] == close[2] && text[j + 2] == close[3];
    assert FenceAt(text, j);
    forall k | i0 + 3 <= k < j ensures text[k] != '`' {
      if k < i0 + 8 { assert text[k] == text[i0..i0 + 8][k - i0]; }
      else if k < j - 1 { assert text[k] == doc[k - i0 - 8]; }
      else { assert text[k] == close[0]; }
    }
  }

  lemma FencedCandidate(prose: string, doc: string, tail: string, text: string)
    requires '`' !in prose && '`' !in doc
    requires doc == [] || (!IsSpace(doc[0]) && !IsSpace(doc[|doc| - 1]))
    requires text == prose + "```json\n" + doc + "\n```" + tail
    requires FenceSpan(text) == Some(Span(|prose|, |prose| + 9 + |doc|))
    ensures FenceCandidate(text, Span(|prose|, |prose| + 9 + |doc|)) == doc
  {
    var i0 := |prose|;
    var j := i0 + 9 + |doc|;
    var f := Span(i0, j);
    FencedTag(prose, doc, tail, text);
    var g := GroupStart(text, f);
    if doc != [] {
      FencedBody(prose, doc, tail, text);
      assert g == i0 + 8;
      StripPadded("", doc, "\n");
      assert "" + doc + "\n" == doc + "\n";
    } else {
      assert text[i0 + 8] == "\n```"[0];
      assert g == j;
    }
  }

  /** The opening fence carries the `json` tag and a line break. */
  lemma FencedTag(prose: string, doc: string, tail: string, text: string)
    requires text == prose + "```json\n" + doc + "\n```" + tail
    ensures JsonTagAt(text, |prose| + 3) && text[|prose| + 7] == '\n'
    ensures |doc| == 0 ==> text[|prose| + 8] == '\n'
  {
    assert text == prose + ("```json\n" + doc + "\n```" + tail);
    var rest := "```json\n" + doc + "\n```" + tail;
    assert text[|prose| + 3..|prose| + 7] == rest[3..7];
  }

  /** Between the tag's line break and the closing fence lies the document
      and one more line break. */
  lemma FencedBody(prose: string, doc: string, tail: string, text: string)
    requires |doc| > 0
    requires text == prose + "```json\n" + doc + "\n```" + tail
    ensures text[|prose| + 8] == doc[0]
    ensures text[|prose| + 8..|prose| + 9 + |doc|] == doc + "\n"
  {
    assert text == (prose + "```json\n") + (doc + "\n") + ("```" + tail);
  }

  /** A single JSON object embedded in prose that holds no braces and no
      backticks comes back out through the brace tier. */
  lemma {:induction false} EmbeddedRoundTrip<J>(prose: string, doc: string, tail: string, parse: string -> Option<J>)
    requires '`' !in prose && '`' !in doc && '`' !in tail
    requires '{' !in prose && '}' !in tail
    requires |doc| >= 2 && doc[0] == '{' && doc[|doc| - 1] == '}'
    requires parse(prose + doc + tail).None?
    ensures Extract(prose + doc + tail, parse) == Attempt(doc, parse)
  {
    var text := prose + doc + tail;
    assert FenceSpan(text).None? by {
      forall k | 0 <= k < |text| ensures text[k] != '`' {
        if k < |prose| { assert text[k] == prose[k]; }
        else if k < |prose| + |doc| { assert text[k] == doc[k - |prose|]; }
        else { assert text[k] == tail[k - |prose| - |doc|]; }
      }
    }
    var b0 := |prose|;
    var b1 := |prose| + |doc| - 1;
    assert text[b0] == '{' && text[b1] == '}';
    BraceSpanIsLeftmostLongest(text);
    assert BraceMatch(text, b0, b1);
    var s := BraceSpan(text).value;
    forall k | 0 <= k < b0 ensures text[k] != '{' { assert text[k] == prose[k]; }
    forall k | b1 < k < |text| ensures text[k] != '}' { assert text[k] == tail[k - |prose| - |doc|]; }
    assert text[b0..b1 + 1] == doc;
  }
}
