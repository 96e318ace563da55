/** The server-sent-events reader behind `CopilotClient.chat_stream`: a
    text buffer grows read by read, is cut at its first blank line into
    events, and the `data: ` lines of each event are decoded into frames
    until one of them ends the stream. */
module Sse {
  import opened Text
  import opened Interface

  /** A decoded `data: ` payload, seen through the three keys the reader
      looks at: whether the value of `done` is truthy, and the values of
      `error` and `content` when those keys are present. */
  datatype SseFrame = SseFrame(done: bool, error: Option<string>, content: Option<string>)

  /** `json.loads(payload)` followed by the frame's key lookups; `None`
      when the payload is not JSON or not a JSON object (both raise). */
  type Decoder = string -> Option<SseFrame>

  // ── Cutting the text into events ─────────────────────────────────────

  predicate SeparatorAt(s: string, k: int) {
    0 <= k && k + 1 < |s| && s[k] == '\n' && s[k + 1] == '\n'
  }

  function FindSeparatorFrom(s: string, from: nat): (r: Option<nat>)
    ensures r.Some? ==> from <= r.value && SeparatorAt(s, r.value)
    ensures r.Some? ==> forall k :: from <= k < r.value ==> !SeparatorAt(s, k)
    ensures r.None? ==> forall k :: from <= k ==> !SeparatorAt(s, k)
    decreases |s| - from
  {
    if from + 1 >= |s| then None
    else if SeparatorAt(s, from) then Some(from)
    else FindSeparatorFrom(s, from + 1)
  }

  /** The first `"\n\n"` of `s`: `"\n\n" in s` holds iff this is `Some`,
      and `s.split("\n\n", 1)` cuts there. */
  function FindSeparator(s: string): (r: Option<nat>)
    ensures r.Some? ==> SeparatorAt(s, r.value)
    ensures r.Some? ==> forall k :: 0 <= k < r.value ==> !SeparatorAt(s, k)
    ensures r.None? ==> forall k :: !SeparatorAt(s, k)
  {
    FindSeparatorFrom(s, 0)
  }

  /** Complete events, and the text after the last blank line. */
  datatype Cut = Cut(events: seq<string>, rest: string)

  /** What repeated `buffer.split("\n\n", 1)` makes of a text: there is
      an event iff the text holds a blank line, and each event uses up its
      own separator. */
  function Events(s: string): (c: Cut)
    ensures c.events == [] <==> FindSeparator(s).None?
    ensures 2 * |c.events| + |c.rest| <= |s|
    decreases |s|
  {
    match FindSeparator(s)
    case None => Cut([], s)
    case Some(k) =>
      var c := Events(s[k + 2..]);
      Cut([s[..k]] + c.events, c.rest)
  }

  /** Each event followed by its blank line. */
  function Framed(events: seq<string>): string {
    if events == [] then "" else events[0] + "\n\n" + Framed(events[1..])
  }

  /** The events, each followed by its blank line, and then the leftover
      put back together give the text. */
  lemma {:induction false} EventsRoundTrip(s: string)
    ensures Framed(Events(s).events) + Events(s).rest == s
    decreases |s|
  {
    match FindSeparator(s)
    case None =>
    case Some(k) =>
      var e, r := s[..k], s[k + 2..];
      var c := Events(r);
      EventsRoundTrip(r);
      assert Events(s) == Cut([e] + c.events, c.rest);
      FramedCons(e, c.events, c.rest);
      CutAtSeparator(s, k);
  }

  lemma FramedCons(e: string, events: seq<string>, rest: string)
    ensures Framed([e] + events) + rest == e + "\n\n" + (Framed(events) + rest)
  {
    assert ([e] + events)[0] == e && ([e] + events)[1..] == events;
  }

  lemma CutAtSeparator(s: string, k: int)
    requires SeparatorAt(s, k)
    ensures s == s[..k] + "\n\n" + s[k + 2..]
  {
    assert s[k..k + 2] == "\n\n";
    assert s == s[..k] + s[k..k + 2] + s[k + 2..];
  }

  /** No event and not the leftover holds a blank line, and no event
      ends with a line break: with `EventsRoundTrip`, every event is cut
      at the first `"\n\n"` after the previous one. */
  lemma {:induction false} EventsAreSeparatorFree(s: string)
    ensures forall k :: !SeparatorAt(Events(s).rest, k)
    ensures forall e, k :: e in Events(s).events ==> !SeparatorAt(e, k)
    ensures forall e :: e in Events(s).events ==> e == [] || e[|e| - 1] != '\n'
    decreases |s|
  {
    match FindSeparator(s)
    case None =>
    case Some(k) =>
      var c := Events(s[k + 2..]);
      EventsAreSeparatorFree(s[k + 2..]);
      assert Events(s).events == [s[..k]] + c.events;
      forall k' | 0 <= k' ensures !SeparatorAt(s[..k], k') {
        if k' + 1 < k {
          assert !SeparatorAt(s, k');
        }
      }
      if k > 0 {
        assert !SeparatorAt(s, k - 1);
      }
  }

  /** A separator found in the buffer stays the first one whatever text
      is appended to it. */
  lemma SeparatorStable(b: string, t: string)
    requires FindSeparator(b).Some?
    ensures FindSeparator(b + t) == FindSeparator(b)
  {
    var k := FindSeparator(b).value;
    assert SeparatorAt(b + t, k);
    forall k' | 0 <= k' < k ensures !SeparatorAt(b + t, k') {
      assert !SeparatorAt(b, k');
    }
  }

  /** Cutting the first event off the buffer is cutting it off the buffer
      followed by everything still to be read. */
  lemma EventsStep(b: string, t: string)
    requires FindSeparator(b).Some?
    ensures var k := FindSeparator(b).value;
            Events(b + t).events == [b[..k]] + Events(b[k + 2..] + t).events
  {
    var k := FindSeparator(b).value;
    SeparatorStable(b, t);
    assert (b + t)[..k] == b[..k];
    assert (b + t)[k + 2..] == b[k + 2..] + t;
  }

  // ── From events to payloads ──────────────────────────────────────────

  /** The lines that start with `data: `, from their seventh character:
      nothing when no line does, and every payload is the tail of such a
      line. */
  function DataLines(lines: seq<string>): (r: seq<string>)
    ensures |r| <= |lines|
    ensures forall x :: x in r ==> exists l :: l in lines && StartsWith(l, "data: ") && x == l[6..]
  {
    if lines == [] then []
    else (if StartsWith(lines[0], "data: ") then [lines[0][6..]] else []) + DataLines(lines[1..])
  }

  /** Every `data: ` line gives a payload, so there is none exactly when
      no line starts with `data: `. */
  lemma {:induction false} DataLinesComplete(lines: seq<string>)
    ensures forall l :: l in lines && StartsWith(l, "data: ") ==> l[6..] in DataLines(lines)
    ensures DataLines(lines) == [] <==> forall l :: l in lines ==> !StartsWith(l, "data: ")
  {
    if lines != [] {
      DataLinesComplete(lines[1..]);
      assert forall l :: l in lines ==> l == lines[0] || l in lines[1..];
    }
  }

  lemma {:induction false} DataLinesAppend(a: seq<string>, b: seq<string>)
    ensures DataLines(a + b) == DataLines(a) + DataLines(b)
  {
    if a == [] {
      assert a + b == b;
    } else {
      assert (a + b)[0] == a[0];
      assert (a + b)[1..] == a[1..] + b;
      DataLinesAppend(a[1..], b);
    }
  }

  /** The payloads of a sequence of events, in order: every payload comes
      from the `data: ` lines of one of the events. */
  function Payloads(events: seq<string>): (r: seq<string>)
    ensures forall x :: x in r ==> exists e :: e in events && x in DataLines(Split(e, '\n'))
  {
    if events == [] then []
    else
      var here, more := DataLines(Split(events[0], '\n')), Payloads(events[1..]);
      assert events[0] in events;
      assert forall e :: e in events[1..] ==> e in events;
      here + more
  }

  /** Every payload of every event is among the payloads. */
  lemma {:induction false} PayloadsComplete(events: seq<string>)
    ensures forall e, x :: e in events && x in DataLines(Split(e, '\n')) ==> x in Payloads(events)
  {
    if events != [] {
      PayloadsComplete(events[1..]);
      assert forall e :: e in events ==> e == events[0] || e in events[1..];
    }
  }

  /** There is no payload exactly when no event has one. */
  lemma {:induction false} PayloadsNone(events: seq<string>)
    ensures Payloads(events) == [] <==> forall e :: e in events ==> DataLines(Split(e, '\n')) == []
  {
    if events != [] {
      PayloadsNone(events[1..]);
      assert events[0] in events;
      assert forall e :: e in events[1..] ==> e in events;
      assert forall e :: e in events ==> e == events[0] || e in events[1..];
    }
  }

  lemma {:induction false} PayloadsAppend(a: seq<string>, b: seq<string>)
    ensures Payloads(a + b) == Payloads(a) + Payloads(b)
  {
    if a == [] {
      assert a + b == b;
    } else {
      assert (a + b)[0] == a[0];
      assert (a + b)[1..] == a[1..] + b;
      PayloadsAppend(a[1..], b);
    }
  }

  // ── Frames ───────────────────────────────────────────────────────────

  /** A payload after which nothing more is read. */
  predicate Terminal(frame: Option<SseFrame>) {
    frame.None? || frame.value.done || frame.value.error.Some?
  }

  /** How a terminal payload ends the stream: a truthy `done` is checked
      first and ends it quietly, else `error` raises, and a payload that
      does not decode raises the decoder's error. */
  function Ending(payload: string, frame: Option<SseFrame>): (r: StreamEnd)
    requires Terminal(frame)
    ensures r != Exhausted
    ensures r == Finished <==> frame.Some? && frame.value.done
    ensures frame.None? ==> r == Raised(JsonDecodeError(payload))
    ensures frame.Some? && !frame.value.done ==> r == Raised(CopilotClientError(frame.value.error.value))
  {
    if frame.None? then Raised(JsonDecodeError(payload))
    else if frame.value.done then Finished
    else Raised(CopilotClientError(frame.value.error.value))
  }

  /** The generator run on a sequence of payloads: it yields no more
      fragments than there are payloads, runs out exactly when no payload
      is terminal, and otherwise ends as some terminal payload says. */
  function Run(payloads: seq<string>, decode: Decoder): (r: StreamResult)
    ensures |r.fragments| <= |payloads|
    ensures r.end == Exhausted <==> forall k :: 0 <= k < |payloads| ==> !Terminal(decode(payloads[k]))
    ensures r.end != Exhausted ==>
              exists k :: 0 <= k < |payloads| && Terminal(decode(payloads[k]))
                          && r.end == Ending(payloads[k], decode(payloads[k]))
    decreases |payloads|
  {
    if payloads == [] then StreamResult([], Exhausted)
    else
      var frame := decode(payloads[0]);
      if Terminal(frame) then StreamResult([], Ending(payloads[0], frame))
      else if frame.value.content.Some? then Prepend([frame.value.content.value], Run(payloads[1..], decode))
      else Run(payloads[1..], decode)
  }

  /** A payload is terminal exactly when, on its own, it ends the stream. */
  lemma TerminalEndsAlone(p: string, decode: Decoder)
    ensures Terminal(decode(p)) <==> Run([p], decode).end != Exhausted
  {
    assert [p][1..] == [];
  }

  /** Running two stretches of payloads one after the other: the second
      only matters when the first did not end the stream. */
  lemma {:induction false} RunAppend(a: seq<string>, b: seq<string>, decode: Decoder)
    ensures Run(a + b, decode) ==
              if Run(a, decode).end == Exhausted then Prepend(Run(a, decode).fragments, Run(b, decode))
              else Run(a, decode)
    decreases |a|
  {
    if a == [] {
      assert a + b == b;
      assert [] + Run(b, decode).fragments == Run(b, decode).fragments;
    } else {
      assert (a + b)[0] == a[0];
      assert (a + b)[1..] == a[1..] + b;
      RunAppend(a[1..], b, decode);
      var frame := decode(a[0]);
      if !Terminal(frame) && frame.value.content.Some? {
        var r := Run(a[1..], decode);
        if r.end == Exhausted {
          assert [frame.value.content.value] + r.fragments + Run(b, decode).fragments
              == [frame.value.content.value] + (r.fragments + Run(b, decode).fragments);
        }
      }
    }
  }

  /** The index of the first terminal payload, or the length when there
      is none. */
  function TerminalIndex(payloads: seq<string>, decode: Decoder): (t: nat)
    ensures t <= |payloads|
    ensures forall k :: 0 <= k < t ==> !Terminal(decode(payloads[k]))
    ensures t < |payloads| ==> Terminal(decode(payloads[t]))
    decreases |payloads|
  {
    if payloads == [] || Terminal(decode(payloads[0])) then 0
    else 1 + TerminalIndex(payloads[1..], decode)
  }

  /** The `content` values of frames, present ones only (empty included). */
  function Contents(payloads: seq<string>, decode: Decoder): seq<string>
    requires forall k :: 0 <= k < |payloads| ==> decode(payloads[k]).Some?
  {
    if payloads == [] then []
    else
      var c := decode(payloads[0]).value.content;
      (if c.Some? then [c.value] else []) + Contents(payloads[1..], decode)
  }

  /** The yielded fragments are exactly the present `content` values of
      the frames before the first terminal one, in order; the stream ends
      as that frame says, or runs out when there is none. */
  lemma {:induction false} RunCharacterized(payloads: seq<string>, decode: Decoder)
    ensures var t := TerminalIndex(payloads, decode);
            && Run(payloads, decode).fragments == Contents(payloads[..t], decode)
            && Run(payloads, decode).end ==
                 (if t == |payloads| then Exhausted else Ending(payloads[t], decode(payloads[t])))
    decreases |payloads|
  {
    if payloads != [] && !Terminal(decode(payloads[0])) {
      RunCharacterized(payloads[1..], decode);
      var t := TerminalIndex(payloads, decode);
      assert payloads[..t][1..] == payloads[1..][..t - 1];
      assert payloads[..t][0] == payloads[0];
    }
  }

  /** A truthy `done` ends the stream before anything else is looked at:
      nothing is yielded from that frame and nothing is raised, even when
      it also carries an `error`; what follows it is never read. */
  lemma DoneEndsQuietly(a: seq<string>, p: string, b: seq<string>, decode: Decoder)
    requires Run(a, decode).end == Exhausted
    requires decode(p).Some? && decode(p).value.done
    ensures Run(a + [p] + b, decode) == StreamResult(Run(a, decode).fragments, Finished)
  {
    StopsAfter(a, p, b, decode);
  }

  /** Nothing after a terminal payload is processed. */
  lemma StopsAfter(a: seq<string>, p: string, b: seq<string>, decode: Decoder)
    requires Run(a, decode).end == Exhausted
    requires Terminal(decode(p))
    ensures Run(a + [p] + b, decode) == StreamResult(Run(a, decode).fragments, Ending(p, decode(p)))
  {
    RunAppend(a, [p], decode);
    RunAppend(a + [p], b, decode);
    assert Run(a, decode).fragments + [] == Run(a, decode).fragments;
  }

  // ── The reader ───────────────────────────────────────────────────────

  /** The successful reads: `resp.read` returning an empty chunk means the
      end of the body, after which nothing is read. */
  function UntilEof(chunks: seq<string>): (r: seq<string>)
    ensures |r| <= |chunks| && r == chunks[..|r|]
    ensures forall k :: 0 <= k < |r| ==> chunks[k] != ""
    ensures |r| < |chunks| ==> chunks[|r|] == ""
  {
    if chunks == [] || chunks[0] == "" then [] else [chunks[0]] + UntilEof(chunks[1..])
  }

  /** What the stream yields, as a function of the text read before the
      end of the body, however the reads split it. An empty body, or one
      with no blank line, yields nothing and ends without error: text not
      followed by `"\n\n"` is never processed. */
  function SseSpec(chunks: seq<string>, decode: Decoder): (r: StreamResult)
    ensures chunks == [] || chunks[0] == "" ==> r == StreamResult([], Exhausted)
    ensures FindSeparator(Concat(UntilEof(chunks))).None? ==> r == StreamResult([], Exhausted)
  {
    Run(Payloads(Events(Concat(UntilEof(chunks))).events), decode)
  }

  /** Two ways of splitting the same body into reads yield the same. */
  lemma SplitIrrelevant(c1: seq<string>, c2: seq<string>, decode: Decoder)
    requires forall k :: 0 <= k < |c1| ==> c1[k] != ""
    requires forall k :: 0 <= k < |c2| ==> c2[k] != ""
    requires Concat(c1) == Concat(c2)
    ensures SseSpec(c1, decode) == SseSpec(c2, decode)
  {
    assert UntilEof(c1) == c1;
    assert UntilEof(c2) == c2;
  }

  /** The `while True` loop of `_post_stream`, over the decoded reads of
      the response body. */
  method ReadStream(chunks: seq<string>, decode: Decoder) returns (fragments: seq<string>, end: StreamEnd)
    ensures StreamResult(fragments, end) == SseSpec(chunks, decode)
  {
    ghost var u := |UntilEof(chunks)|;
    ghost var full := Payloads(Events(Concat(UntilEof(chunks))).events);
    ghost var seen: seq<string> := [];
    var buffer := "";
    fragments := [];
    var i := 0;
    assert chunks[0..u] == UntilEof(chunks);
    assert buffer + Concat(chunks[i..u]) == Concat(UntilEof(chunks));
    while i < |chunks|
      invariant 0 <= i <= u
      invariant full == seen + Payloads(Events(buffer + Concat(chunks[i..u])).events)
      invariant FindSeparator(buffer).None?
      invariant Run(seen, decode) == StreamResult(fragments, Exhausted)
    {
      var chunk := chunks[i];
      if chunk == "" {
        break;
      }
      ghost var later := Concat(chunks[i + 1..u]);
      ChunkStep(chunks, i, u, buffer);
      buffer := buffer + chunk;
      var yielded, rest, stop, handled := ReadEvents(buffer, decode, seen, later);
      Regroup(seen, handled, Payloads(Events(rest + later).events));
      seen := seen + handled;
      fragments := fragments + yielded;
      buffer := rest;
      if stop.Some? {
        end := stop.value;
        RunAppend(seen, Payloads(Events(buffer + later).events), decode);
        return;
      }
      i := i + 1;
    }
    end := Exhausted;
    assert i == u;
    assert buffer + Concat(chunks[i..u]) == buffer;
    assert Events(buffer).events == [];
    assert full == seen;
  }

  /** The `while "\n\n" in buffer` loop of `_post_stream`: handles the
      complete events of the buffer in order until one ends the stream.
      `seen` holds the payloads handled before, none of which ended it,
      and `later` the text still to be read; `handled` are the payloads
      of the events taken off the buffer. */
  method ReadEvents(buffer: string, decode: Decoder, ghost seen: seq<string>, ghost later: string)
    returns (yielded: seq<string>, rest: string, stop: Option<StreamEnd>, ghost handled: seq<string>)
    requires Run(seen, decode).end == Exhausted
    ensures Payloads(Events(buffer + later).events) == handled + Payloads(Events(rest + later).events)
    ensures Run(seen + handled, decode).fragments == Run(seen, decode).fragments + yielded
    ensures stop.None? <==> Run(seen + handled, decode).end == Exhausted
    ensures stop.Some? ==> Run(seen + handled, decode).end == stop.value
    ensures stop.None? ==> FindSeparator(rest).None?
  {
    rest := buffer;
    yielded := [];
    handled := [];
    stop := None;
    assert seen + handled == seen;
    var cut := FindSeparator(rest);
    while cut.Some?
      invariant Payloads(Events(buffer + later).events) == handled + Payloads(Events(rest + later).events)
      invariant Run(seen + handled, decode) == StreamResult(Run(seen, decode).fragments + yielded, Exhausted)
      invariant cut == FindSeparator(rest)
      decreases |rest|
    {
      var k := cut.value;
      var event := rest[..k];
      ghost var payloads := DataLines(Split(event, '\n'));
      BufferStep(rest, later);
      rest := rest[k + 2..];
      var more, s := ReadEvent(event, decode, seen + handled);
      Regroup(handled, payloads, Payloads(Events(rest + later).events));
      Regroup(seen, handled, payloads);
      Regroup(Run(seen, decode).fragments, yielded, more);
      handled := handled + payloads;
      yielded := yielded + more;
      if s.Some? {
        stop := s;
        return;
      }
      cut := FindSeparator(rest);
    }
  }

  /** The `for line in event.split("\n")` loop of `_post_stream`: decodes
      the event's `data: ` lines in order until one ends the stream.
      `seen` holds the payloads before this event, none of which ended it. */
  method ReadEvent(event: string, decode: Decoder, ghost seen: seq<string>)
    returns (yielded: seq<string>, stop: Option<StreamEnd>)
    requires Run(seen, decode).end == Exhausted
    ensures var r := Run(seen + DataLines(Split(event, '\n')), decode);
            && r.fragments == Run(seen, decode).fragments + yielded
            && (stop.None? <==> r.end == Exhausted)
            && (stop.Some? ==> r.end == stop.value)
  {
    var lines := Split(event, '\n');
    yielded := [];
    assert seen + DataLines(lines[..0]) == seen;
    for j := 0 to |lines|
      invariant Run(seen + DataLines(lines[..j]), decode)
                == StreamResult(Run(seen, decode).fragments + yielded, Exhausted)
    {
      var line := lines[j];
      if StartsWith(line, "data: ") {
        var payload := line[6..];
        var frame := decode(payload);
        if Terminal(frame) {
          stop := Some(Ending(payload, frame));
          FrameEndsStream(seen, lines, j, decode);
          return;
        }
        LineStep(seen, lines, j, decode);
        if frame.value.content.Some? {
          Regroup(Run(seen, decode).fragments, yielded, [frame.value.content.value]);
          yielded := yielded + [frame.value.content.value];
        } else {
          assert Run(seen, decode).fragments + yielded + [] == Run(seen, decode).fragments + yielded;
        }
      } else {
        LineStep(seen, lines, j, decode);
        assert Run(seen, decode).fragments + yielded + [] == Run(seen, decode).fragments + yielded;
      }
    }
    stop := None;
    assert lines[..|lines|] == lines;
  }

  /** A line that does not end the stream adds the content of its frame,
      if it is a `data: ` line whose frame has one, and nothing else. */
  lemma LineStep(seen: seq<string>, lines: seq<string>, j: nat, decode: Decoder)
    requires j < |lines|
    requires Run(seen + DataLines(lines[..j]), decode).end == Exhausted
    requires StartsWith(lines[j], "data: ") ==> !Terminal(decode(lines[j][6..]))
    ensures var r := Run(seen + DataLines(lines[..j]), decode);
            var added := if StartsWith(lines[j], "data: ") && decode(lines[j][6..]).value.content.Some?
                         then [decode(lines[j][6..]).value.content.value] else [];
            Run(seen + DataLines(lines[..j + 1]), decode) == StreamResult(r.fragments + added, Exhausted)
  {
    var before := seen + DataLines(lines[..j]);
    var extra := if StartsWith(lines[j], "data: ") then [lines[j][6..]] else [];
    DataLinesSnoc(lines, j);
    Regroup(seen, DataLines(lines[..j]), extra);
    if StartsWith(lines[j], "data: ") {
      RunSnoc(before, lines[j][6..], decode);
    } else {
      assert before + extra == before;
      assert Run(before, decode).fragments + [] == Run(before, decode).fragments;
    }
  }

  /** The payloads of one more line. */
  lemma DataLinesSnoc(lines: seq<string>, j: nat)
    requires j < |lines|
    ensures DataLines(lines[..j + 1])
            == DataLines(lines[..j]) + (if StartsWith(lines[j], "data: ") then [lines[j][6..]] else [])
  {
    var single: seq<string> := [lines[j]];
    assert lines[..j + 1] == lines[..j] + single;
    DataLinesAppend(lines[..j], single);
    assert single[1..] == [];
  }

  /** Running one more payload that does not end the stream. */
  lemma RunSnoc(before: seq<string>, p: string, decode: Decoder)
    requires Run(before, decode).end == Exhausted
    requires !Terminal(decode(p))
    ensures Run(before + [p], decode)
            == StreamResult(Run(before, decode).fragments
                              + (if decode(p).value.content.Some? then [decode(p).value.content.value] else []),
                            Exhausted)
  {
    RunAppend(before, [p], decode);
    var one: seq<string> := [p];
    assert one[1..] == [];
  }


  lemma Regroup<T>(a: seq<T>, b: seq<T>, c: seq<T>)
    ensures a + (b + c) == (a + b) + c
  {
  }

  lemma ChunkStep(chunks: seq<string>, i: nat, u: nat, buffer: string)
    requires i < u <= |chunks|
    ensures buffer + Concat(chunks[i..u]) == (buffer + chunks[i]) + Concat(chunks[i + 1..u])
  {
    ConcatAppend([chunks[i]], chunks[i + 1..u]);
    assert chunks[i..u] == [chunks[i]] + chunks[i + 1..u];
    assert [chunks[i]][..0] == [];
  }

  lemma PayloadsCons(e: string, events: seq<string>)
    ensures Payloads([e] + events) == DataLines(Split(e, '\n')) + Payloads(events)
  {
    assert ([e] + events)[0] == e && ([e] + events)[1..] == events;
  }

  /** Taking the first event off the buffer moves its payloads from what
      is still to come to what has been handled. */
  lemma BufferStep(buffer: string, later: string)
    requires FindSeparator(buffer).Some?
    ensures var k := FindSeparator(buffer).value;
            Payloads(Events(buffer + later).events)
            == DataLines(Split(buffer[..k], '\n')) + Payloads(Events(buffer[k + 2..] + later).events)
  {
    var k := FindSeparator(buffer).value;
    EventsStep(buffer, later);
    PayloadsCons(buffer[..k], Events(buffer[k + 2..] + later).events);
  }

  /** The terminal payload on line `j` decides the outcome of the event. */
  lemma FrameEndsStream(before: seq<string>, lines: seq<string>, j: nat, decode: Decoder)
    requires j < |lines| && StartsWith(lines[j], "data: ")
    requires Run(before + DataLines(lines[..j]), decode).end == Exhausted
    requires Terminal(decode(lines[j][6..]))
    ensures Run(before + DataLines(lines), decode)
            == StreamResult(Run(before + DataLines(lines[..j]), decode).fragments,
                            Ending(lines[j][6..], decode(lines[j][6..])))
  {
    var p := lines[j][6..];
    DataLineAt(lines, j);
    var a := before + DataLines(lines[..j]);
    Regroup(before, DataLines(lines[..j]), [p] + DataLines(lines[j + 1..]));
    Regroup(a, [p], DataLines(lines[j + 1..]));
    StopsAfter(a, p, DataLines(lines[j + 1..]), decode);
  }

  /** The payload of a `data: ` line sits between those of the lines
      around it. */
  lemma DataLineAt(lines: seq<string>, j: nat)
    requires j < |lines| && StartsWith(lines[j], "data: ")
    ensures DataLines(lines) == DataLines(lines[..j]) + ([lines[j][6..]] + DataLines(lines[j + 1..]))
  {
    var tail := lines[j..];
    assert lines == lines[..j] + tail;
    assert tail[0] == lines[j] && tail[1..] == lines[j + 1..];
    DataLinesAppend(lines[..j], tail);
  }
}
