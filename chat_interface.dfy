/** The browser client. `ChatInterface` holds the widgets' state: the input
    text, whether the send button is enabled, the status label's text and
    colour, the upload status text and the cards shown in the chat. Sending a
    message reads the streamed reply line by line: only `data: ` lines count,
    `[DONE]` stops reading, a payload starting with `[ERROR` shows an error
    card and stops reading, and any other payload is appended to the
    assistant's answer. The network replies are parameters. */
module ChatUi {
  import opened Wrappers
  import opened Text
  import ChatRoutes
  import ChatAgentModel
  import Upload

  /** A card in the chat column. */
  datatype Card = UserCard(text: string) | AssistantCard(text: string) | ErrorCard(text: string) | SystemCard(text: string)

  /** `add_message`: the card it adds, by the first flag that is set; with no
      flag set it adds nothing. */
  function MessageCard(text: string, isUser: bool, isSystem: bool, isError: bool): (r: Option<Card>)
    ensures r.Some? ==> r.value.text == text
    ensures r.None? <==> !isUser && !isSystem && !isError
    ensures isError ==> r == Some(ErrorCard(text))
    ensures !isError && isSystem ==> r == Some(SystemCard(text))
    ensures !isError && !isSystem && isUser ==> r == Some(UserCard(text))
  {
    if isError then Some(ErrorCard(text))
    else if isSystem then Some(SystemCard(text))
    else if isUser then Some(UserCard(text))
    else None
  }

  /** `add_message` never draws an assistant card, and every other card is
      what `add_message` draws when the card's own flag alone is set. */
  lemma MessageCardCovers(c: Card)
    ensures c.AssistantCard? <==> MessageCard(c.text, c.UserCard?, c.SystemCard?, c.ErrorCard?).None?
    ensures !c.AssistantCard? ==> MessageCard(c.text, c.UserCard?, c.SystemCard?, c.ErrorCard?) == Some(c)
  {
  }

  /** The cards `add_message` adds: the one it draws, or none. */
  function Drawn(card: Option<Card>): (r: seq<Card>)
    ensures card.Some? ==> r == [card.value]
    ensures card.None? ==> r == []
  {
    if card.Some? then [card.value] else []
  }

  /** `set_status`'s colour map. */
  const StatusColors: map<string, string> := map[
    "ready" := "text-green-600",
    "uploading" := "text-blue-600",
    "processing" := "text-orange-600",
    "searching" := "text-purple-600",
    "generating" := "text-indigo-600"]

  const DefaultColor := "text-gray-500"

  /** `color_map.get(status_type, 'text-gray-500')`. */
  function StatusColor(statusType: string): string {
    if statusType in StatusColors then StatusColors[statusType] else DefaultColor
  }

  /** The five known status kinds get their own colours, all different from
      the grey that every other kind gets. */
  lemma StatusColorTable(statusType: string)
    ensures StatusColor(statusType) == DefaultColor <==> statusType !in StatusColors
    ensures statusType in StatusColors ==> StatusColor(statusType) == StatusColors[statusType]
  {
  }

  // ---------------------------------------------------------------------------
  // Reading the body line by line

  /** The index of the first line break in `s`, or `|s|` if there is none. */
  function LineEnd(s: string): (k: nat)
    ensures k <= |s|
    ensures k < |s| ==> IsLineBreak(s[k])
    ensures forall j :: 0 <= j < k ==> !IsLineBreak(s[j])
  {
    if s == [] || IsLineBreak(s[0]) then 0 else 1 + LineEnd(s[1..])
  }

  /** The lines of a body as the client's `aiter_lines` yields them: split
      at every line break, a carriage return followed by a line feed
      counting as one; a final line break does not start another, empty,
      line. */
  function Lines(s: string): seq<string>
    decreases |s|
  {
    if s == [] then []
    else
      var k := LineEnd(s);
      if k == |s| then [s]
      else if s[k] == '\r' && k + 1 < |s| && s[k + 1] == '\n' then [s[..k]] + Lines(s[k + 2..])
      else [s[..k]] + Lines(s[k + 1..])
  }

  /** `s` holds no character at which the client would end a line. */
  predicate NoLineBreak(s: string) {
    forall i :: 0 <= i < |s| ==> !IsLineBreak(s[i])
  }

  lemma LinesCons(a: string, rest: string)
    requires NoLineBreak(a)
    ensures Lines(a + ['\n'] + rest) == [a] + Lines(rest)
  {
    var s := a + ['\n'] + rest;
    var k := LineEnd(s);
    assert s[|a|] == '\n';
    assert k == |a|;
    assert s[..k] == a;
    assert s[k + 1..] == rest;
  }

  /** The first line break of `a + b` is the first in `a`, or, when `a` has
      none, the first in `b` shifted past `a`. */
  lemma {:induction false} LineEndConcat(a: string, b: string)
    ensures LineEnd(a + b) == if LineEnd(a) < |a| then LineEnd(a) else |a| + LineEnd(b)
  {
    if a != [] && !IsLineBreak(a[0]) {
      LineEndConcat(a[1..], b);
      assert (a + b)[1..] == a[1..] + b;
    } else if a == [] {
      assert a + b == b;
    }
  }

  /** The text of `s` up to its first line break: what the client reads as
      the first line. */
  function FirstLine(s: string): (r: string)
    ensures |r| <= |s| && r == s[..|r|] && NoLineBreak(r)
    ensures |r| < |s| ==> IsLineBreak(s[|r|])
  {
    s[..LineEnd(s)]
  }

  /** A first line that starts with a whole line-free `a`. */
  lemma FirstLineAfter(a: string, b: string)
    requires NoLineBreak(a)
    ensures FirstLine(a + b) == a + FirstLine(b)
  {
    LineEndConcat(a, b);
    assert LineEnd(a) == |a|;
    assert (a + b)[..|a| + LineEnd(b)] == a + b[..LineEnd(b)];
  }

  /** A first line that ends inside `a` ignores what follows `a`. */
  lemma FirstLineBefore(a: string, b: string)
    requires |FirstLine(a)| < |a|
    ensures FirstLine(a + b) == FirstLine(a)
  {
    LineEndConcat(a, b);
    assert (a + b)[..LineEnd(a)] == a[..LineEnd(a)];
  }

  /** How reading the lines ended. */
  datatype ParseEnd = SawDone | SawError(payload: string) | Exhausted

  /** What the reading loop leaves: the accumulated answer, whether the
      assistant card has been created, and how reading ended. */
  datatype ParseState = ParseState(accumulated: string, cardShown: bool, end: ParseEnd)

  const ErrorMarker := "[ERROR"

  /** The reading loop from a given point, with the answer so far. */
  function ParseFrom(lines: seq<string>, accumulated: string, cardShown: bool): ParseState
    decreases |lines|
  {
    if lines == [] then ParseState(accumulated, cardShown, Exhausted)
    else if !StartsWith(lines[0], ChatRoutes.DataPrefix) then ParseFrom(lines[1..], accumulated, cardShown)
    else
      var chunk := lines[0][|ChatRoutes.DataPrefix|..];
      if chunk == ChatRoutes.DoneMarker then ParseState(accumulated, cardShown, SawDone)
      else if StartsWith(chunk, ErrorMarker) then ParseState(accumulated, cardShown, SawError(chunk))
      else ParseFrom(lines[1..], accumulated + chunk, true)
  }

  function ParseLines(lines: seq<string>): ParseState {
    ParseFrom(lines, "", false)
  }

  /** A line that stops the reading loop. */
  predicate IsStopLine(line: string) {
    StartsWith(line, ChatRoutes.DataPrefix)
    && var chunk := line[|ChatRoutes.DataPrefix|..];
       chunk == ChatRoutes.DoneMarker || StartsWith(chunk, ErrorMarker)
  }

  /** Nothing after a stop line changes what was read. */
  lemma {:induction false} StopLineEndsReading(before: seq<string>, stop: string, after: seq<string>,
                                                accumulated: string, cardShown: bool)
    requires IsStopLine(stop)
    ensures ParseFrom(before + [stop] + after, accumulated, cardShown)
         == ParseFrom(before + [stop], accumulated, cardShown)
  {
    if before == [] {
      assert ([stop] + after)[1..] == after;
    } else {
      var line := before[0];
      assert (before + [stop] + after)[0] == line;
      assert (before + [stop] + after)[1..] == before[1..] + [stop] + after;
      assert (before + [stop])[1..] == before[1..] + [stop];
      if StartsWith(line, ChatRoutes.DataPrefix) {
        var chunk := line[|ChatRoutes.DataPrefix|..];
        StopLineEndsReading(before[1..], stop, after, accumulated + chunk, true);
      } else {
        StopLineEndsReading(before[1..], stop, after, accumulated, cardShown);
      }
    }
  }

  /** The payloads of the `data: ` lines, in order. */
  function DataPayloads(lines: seq<string>): seq<string>
    decreases |lines|
  {
    if lines == [] then []
    else if StartsWith(lines[0], ChatRoutes.DataPrefix) then
      [lines[0][|ChatRoutes.DataPrefix|..]] + DataPayloads(lines[1..])
    else DataPayloads(lines[1..])
  }

  /** With no stop line, the answer is every payload appended in arrival
      order, and the assistant card exists once any payload arrived. */
  lemma {:induction false} ParseAccumulates(lines: seq<string>, accumulated: string, cardShown: bool)
    requires forall i :: 0 <= i < |lines| ==> !IsStopLine(lines[i])
    ensures ParseFrom(lines, accumulated, cardShown)
         == ParseState(accumulated + Concat(DataPayloads(lines)), cardShown || DataPayloads(lines) != [], Exhausted)
  {
    if lines != [] {
      assert !IsStopLine(lines[0]);
      ParseAccumulates(lines[1..], if StartsWith(lines[0], ChatRoutes.DataPrefix)
        then accumulated + lines[0][|ChatRoutes.DataPrefix|..] else accumulated,
        cardShown || StartsWith(lines[0], ChatRoutes.DataPrefix));
      if StartsWith(lines[0], ChatRoutes.DataPrefix) {
        ConcatCons(lines[0][|ChatRoutes.DataPrefix|..], DataPayloads(lines[1..]));
      }
    }
  }

  // ---------------------------------------------------------------------------
  // Round trip with the server's framing

  /** A token the framing carries intact: one line, and not mistakable for a
      terminal payload. */
  predicate PlainToken(t: string) {
    NoLineBreak(t) && t != ChatRoutes.DoneMarker && !StartsWith(t, ErrorMarker)
  }

  /** How the client's reading ends for a stream that ended with `raised`:
      on `[DONE]`, or on the first line of the error frame's payload. */
  function EndFor(raised: Option<string>): ParseEnd {
    if raised.None? then SawDone else SawError(FirstLine("[ERROR: " + raised.value + "]"))
  }

  lemma FrameLines(payload: string, rest: string)
    requires NoLineBreak(payload)
    ensures Lines(ChatRoutes.Frame(payload) + rest)
         == [ChatRoutes.DataPrefix + payload, ""] + Lines(rest)
  {
    var line := ChatRoutes.DataPrefix + payload;
    var tail := ['\n'] + rest;
    calc {
      Lines(ChatRoutes.Frame(payload) + rest);
      { assert ChatRoutes.Frame(payload) + rest == line + ['\n'] + tail; }
      Lines(line + ['\n'] + tail);
      { assert NoLineBreak(line);
        LinesCons(line, tail); }
      [line] + Lines(tail);
      { assert tail == [] + ['\n'] + rest;
        LinesCons([], rest); }
      [line] + ([""] + Lines(rest));
      [line, ""] + Lines(rest);
    }
  }

  /** The two lines of a token's frame append the token to the answer. */
  lemma ParseTokenFrame(t: string, rest: seq<string>, accumulated: string, cardShown: bool)
    requires PlainToken(t)
    ensures ParseFrom([ChatRoutes.DataPrefix + t, ""] + rest, accumulated, cardShown)
         == ParseFrom(rest, accumulated + t, true)
  {
    var line := ChatRoutes.DataPrefix + t;
    var lines := [line, ""] + rest;
    assert line[..|ChatRoutes.DataPrefix|] == ChatRoutes.DataPrefix;
    assert line[|ChatRoutes.DataPrefix|..] == t;
    assert lines[0] == line && lines[1..] == [""] + rest;
    assert ([""] + rest)[0] == "" && ([""] + rest)[1..] == rest;
  }

  /** The two lines of the `[DONE]` frame end the reading. */
  lemma ParseDoneFrame(accumulated: string, cardShown: bool)
    ensures ParseFrom([ChatRoutes.DataPrefix + ChatRoutes.DoneMarker, ""], accumulated, cardShown)
         == ParseState(accumulated, cardShown, SawDone)
  {
    var line := ChatRoutes.DataPrefix + ChatRoutes.DoneMarker;
    assert line[..|ChatRoutes.DataPrefix|] == ChatRoutes.DataPrefix;
    assert line[|ChatRoutes.DataPrefix|..] == ChatRoutes.DoneMarker;
  }

  /** The body for a token source that yields nothing more: the terminal frame. */
  lemma StreamBodyTerminal(raised: Option<string>)
    ensures Concat(ChatRoutes.EventStream(ChatRoutes.TokenSource([], raised)))
         == ChatRoutes.Frame(if raised.None? then ChatRoutes.DoneMarker else "[ERROR: " + raised.value + "]") + []
  {
    var payload := if raised.None? then ChatRoutes.DoneMarker else "[ERROR: " + raised.value + "]";
    assert ChatRoutes.EventStream(ChatRoutes.TokenSource([], raised)) == [ChatRoutes.Frame(payload)];
    ConcatCons(ChatRoutes.Frame(payload), []);
  }

  /** The body for a token source whose next token is `t`: that token's frame,
      then the body for the remaining tokens. */
  lemma StreamBodyCons(t: string, ts: seq<string>, raised: Option<string>)
    ensures Concat(ChatRoutes.EventStream(ChatRoutes.TokenSource([t] + ts, raised)))
         == ChatRoutes.Frame(t) + Concat(ChatRoutes.EventStream(ChatRoutes.TokenSource(ts, raised)))
  {
    var rest := ChatRoutes.EventStream(ChatRoutes.TokenSource(ts, raised));
    assert ChatRoutes.EventStream(ChatRoutes.TokenSource([t] + ts, raised)) == [ChatRoutes.Frame(t)] + rest;
    ConcatCons(ChatRoutes.Frame(t), rest);
  }

  /** For an exception text of one line the client reads the whole error
      payload. */
  lemma EndForOneLine(m: string)
    requires NoLineBreak(m)
    ensures EndFor(Some(m)) == SawError("[ERROR: " + m + "]")
  {
    var p := "[ERROR: " + m + "]";
    forall i | 0 <= i < |p| ensures !IsLineBreak(p[i]) {
      if 8 <= i < |p| - 1 {
        assert p[i] == m[i - 8];
      }
    }
    assert LineEnd(p) == |p|;
  }

  /** For an exception text that spans lines the client reads the error
      payload only up to the text's first line break. */
  lemma EndForCutsAtBreak(m: string)
    requires |FirstLine(m)| < |m|
    ensures EndFor(Some(m)) == SawError("[ERROR: " + FirstLine(m))
  {
    var head := "[ERROR: ";
    assert "[ERROR: " + m + "]" == head + (m + "]");
    assert NoLineBreak(head);
    FirstLineAfter(head, m + "]");
    FirstLineBefore(m, "]");
  }

  /** The first line of an error frame is `data: ` followed by the first
      line of its payload. */
  lemma ErrorFrameFirstLine(payload: string)
    ensures var body := ChatRoutes.Frame(payload);
      |FirstLine(body)| < |body| && FirstLine(body) == ChatRoutes.DataPrefix + FirstLine(payload)
  {
    var prefix, tail := ChatRoutes.DataPrefix, payload + ChatRoutes.FrameEnd;
    assert ChatRoutes.Frame(payload) == prefix + tail;
    assert NoLineBreak(prefix);
    FirstLineAfter(prefix, tail);
    if |FirstLine(payload)| < |payload| {
      FirstLineBefore(payload, ChatRoutes.FrameEnd);
    } else {
      assert FirstLine(payload) == payload;
      assert NoLineBreak(payload);
      FirstLineAfter(payload, ChatRoutes.FrameEnd);
      assert FirstLine(ChatRoutes.FrameEnd) == "";
    }
  }

  /** Reading an error frame ends the reading on the first line of its
      payload, whatever follows that line. */
  lemma ReadErrorFrame(payload: string, accumulated: string, cardShown: bool)
    requires |payload| >= 8 && payload[..8] == "[ERROR: "
    ensures ParseFrom(Lines(ChatRoutes.Frame(payload)), accumulated, cardShown)
         == ParseState(accumulated, cardShown, SawError(FirstLine(payload)))
  {
    var body := ChatRoutes.Frame(payload);
    var chunk := FirstLine(payload);
    var lines := Lines(body);
    assert lines == [ChatRoutes.DataPrefix + chunk] + lines[1..] by {
      ErrorFrameFirstLine(payload);
      assert lines[0] == FirstLine(body);
    }
    assert chunk == "[ERROR: " + FirstLine(payload[8..]) by {
      assert payload == "[ERROR: " + payload[8..];
      assert NoLineBreak("[ERROR: ");
      FirstLineAfter("[ERROR: ", payload[8..]);
    }
    ParseErrorLine(chunk, lines[1..], accumulated, cardShown);
  }

  /** A `data: ` line carrying an error payload ends the reading on it. */
  lemma ParseErrorLine(chunk: string, rest: seq<string>, accumulated: string, cardShown: bool)
    requires |chunk| >= 8 && chunk[..8] == "[ERROR: "
    ensures ParseFrom([ChatRoutes.DataPrefix + chunk] + rest, accumulated, cardShown)
         == ParseState(accumulated, cardShown, SawError(chunk))
  {
    var line := ChatRoutes.DataPrefix + chunk;
    assert ([line] + rest)[0] == line;
    assert line[..|ChatRoutes.DataPrefix|] == ChatRoutes.DataPrefix;
    assert line[|ChatRoutes.DataPrefix|..] == chunk;
    assert chunk[..|ErrorMarker|] == ErrorMarker;
    assert chunk != ChatRoutes.DoneMarker by {
      assert chunk[1] != ChatRoutes.DoneMarker[1];
    }
  }

  /** Reading the `[DONE]` frame ends the reading with the answer untouched. */
  lemma ReadDoneFrame(accumulated: string, cardShown: bool)
    ensures ParseFrom(Lines(ChatRoutes.Frame(ChatRoutes.DoneMarker)), accumulated, cardShown)
         == ParseState(accumulated, cardShown, SawDone)
  {
    var line := ChatRoutes.DataPrefix + ChatRoutes.DoneMarker;
    calc {
      ParseFrom(Lines(ChatRoutes.Frame(ChatRoutes.DoneMarker)), accumulated, cardShown);
      { assert ChatRoutes.Frame(ChatRoutes.DoneMarker) + [] == ChatRoutes.Frame(ChatRoutes.DoneMarker);
        FrameLines(ChatRoutes.DoneMarker, []); }
      ParseFrom([line, ""] + Lines([]), accumulated, cardShown);
      { assert [line, ""] + Lines([]) == [line, ""]; }
      ParseFrom([line, ""], accumulated, cardShown);
      { ParseDoneFrame(accumulated, cardShown); }
      ParseState(accumulated, cardShown, SawDone);
    }
  }

  /** Reading a body that holds only the terminal frame ends the reading
      with the answer untouched. */
  lemma ReadTerminalBody(raised: Option<string>, accumulated: string, cardShown: bool)
    ensures ParseFrom(Lines(Concat(ChatRoutes.EventStream(ChatRoutes.TokenSource([], raised)))), accumulated, cardShown)
         == ParseState(accumulated, cardShown, EndFor(raised))
  {
    var payload := if raised.None? then ChatRoutes.DoneMarker else "[ERROR: " + raised.value + "]";
    var body := ChatRoutes.Frame(payload);
    assert Concat(ChatRoutes.EventStream(ChatRoutes.TokenSource([], raised))) == body by {
      StreamBodyTerminal(raised);
      assert body + [] == body;
    }
    if raised.None? {
      ReadDoneFrame(accumulated, cardShown);
    } else {
      assert payload[..8] == "[ERROR: ";
      ReadErrorFrame(payload, accumulated, cardShown);
    }
  }

  /** Reading the body `generate` sends gives back exactly the tokens,
      concatenated, and ends on the terminal frame. */
  lemma {:induction false} RoundTripFrom(tokens: seq<string>, raised: Option<string>,
                                         accumulated: string, cardShown: bool)
    requires forall i :: 0 <= i < |tokens| ==> PlainToken(tokens[i])
    ensures ParseFrom(Lines(Concat(ChatRoutes.EventStream(ChatRoutes.TokenSource(tokens, raised)))), accumulated, cardShown)
         == ParseState(accumulated + Concat(tokens), cardShown || tokens != [], EndFor(raised))
  {
    if tokens == [] {
      ReadTerminalBody(raised, accumulated, cardShown);
    } else {
      var t, ts := tokens[0], tokens[1..];
      var restBody := Concat(ChatRoutes.EventStream(ChatRoutes.TokenSource(ts, raised)));
      calc {
        ParseFrom(Lines(Concat(ChatRoutes.EventStream(ChatRoutes.TokenSource(tokens, raised)))), accumulated, cardShown);
        { assert tokens == [t] + ts;
          StreamBodyCons(t, ts, raised); }
        ParseFrom(Lines(ChatRoutes.Frame(t) + restBody), accumulated, cardShown);
        { FrameLines(t, restBody); }
        ParseFrom([ChatRoutes.DataPrefix + t, ""] + Lines(restBody), accumulated, cardShown);
        { ParseTokenFrame(t, Lines(restBody), accumulated, cardShown); }
        ParseFrom(Lines(restBody), accumulated + t, true);
        { RoundTripFrom(ts, raised, accumulated + t, true); }
        ParseState(accumulated + t + Concat(ts), true, EndFor(raised));
        { assert tokens == [t] + ts;
          ConcatCons(t, ts); }
        ParseState(accumulated + Concat(tokens), cardShown || tokens != [], EndFor(raised));
      }
    }
  }

  /** The client reads back exactly the concatenated tokens from the body the
      streaming route sends, stopping at `[DONE]`, or at the error frame when
      the token source raised. */
  lemma RoundTrip(tokens: seq<string>, raised: Option<string>)
    requires forall i :: 0 <= i < |tokens| ==> PlainToken(tokens[i])
    ensures ParseLines(Lines(Concat(ChatRoutes.EventStream(ChatRoutes.TokenSource(tokens, raised)))))
         == ParseState(Concat(tokens), tokens != [], EndFor(raised))
  {
    var lines := Lines(Concat(ChatRoutes.EventStream(ChatRoutes.TokenSource(tokens, raised))));
    calc {
      ParseLines(lines);
      ParseFrom(lines, "", false);
      { RoundTripFrom(tokens, raised, "", false); }
      ParseState("" + Concat(tokens), false || tokens != [], EndFor(raised));
      { assert "" + Concat(tokens) == Concat(tokens); }
      ParseState(Concat(tokens), tokens != [], EndFor(raised));
    }
  }

  // ---------------------------------------------------------------------------
  // The interface object

  /** How the streaming request went: it failed before any line was read
      (connection failure or an error status), or these lines arrived and
      then, possibly, reading raised. */
  datatype StreamReply = RequestFailed(message: string) | Streamed(lines: seq<string>, brokenBy: Option<string>)

  /** The cards a reply adds after the user's card. */
  function ReplyCards(reply: StreamReply): seq<Card> {
    match reply
    case RequestFailed(m) => [ErrorCard("Error: " + m)]
    case Streamed(lines, brokenBy) =>
      var st := ParseLines(lines);
      (if st.cardShown then [AssistantCard(st.accumulated)] else [])
      + (match st.end
         case SawError(p) => [ErrorCard("Error: " + p)]
         case SawDone => []
         case Exhausted => if brokenBy.Some? then [ErrorCard("Error: " + brokenBy.value)] else [])
  }

  /** A successful reply adds one assistant card holding every token, and no
      error card. */
  lemma ReplyCardsForStream(tokens: seq<string>, brokenBy: Option<string>)
    requires tokens != []
    requires forall i :: 0 <= i < |tokens| ==> PlainToken(tokens[i])
    ensures ReplyCards(Streamed(Lines(Concat(ChatRoutes.EventStream(ChatRoutes.TokenSource(tokens, None)))), brokenBy))
         == [AssistantCard(Concat(tokens))]
  {
    RoundTrip(tokens, None);
    ReplyCardsAfterDone(Lines(Concat(ChatRoutes.EventStream(ChatRoutes.TokenSource(tokens, None)))),
                        brokenBy, Concat(tokens));
  }

  /** A reading that stopped at `[DONE]` after some payload shows the answer
      card and nothing else, whatever happened to the connection afterwards. */
  lemma ReplyCardsAfterDone(lines: seq<string>, brokenBy: Option<string>, answer: string)
    requires ParseLines(lines) == ParseState(answer, true, SawDone)
    ensures ReplyCards(Streamed(lines, brokenBy)) == [AssistantCard(answer)]
  {
    assert ([AssistantCard(answer)] + []) == [AssistantCard(answer)];
  }

  /** A line without the `data: ` prefix is skipped. */
  lemma ParseSkipLine(line: string, rest: seq<string>, accumulated: string, cardShown: bool)
    requires !StartsWith(line, ChatRoutes.DataPrefix)
    ensures ParseFrom([line] + rest, accumulated, cardShown) == ParseFrom(rest, accumulated, cardShown)
  {
    assert ([line] + rest)[0] == line && ([line] + rest)[1..] == rest;
  }

  /** A `data: ` line with an empty payload appends nothing but creates the
      assistant card. */
  lemma ParseEmptyPayload(rest: seq<string>, accumulated: string, cardShown: bool)
    ensures ParseFrom([ChatRoutes.DataPrefix] + rest, accumulated, cardShown) == ParseFrom(rest, accumulated, true)
  {
    var lines := [ChatRoutes.DataPrefix] + rest;
    assert lines[0] == ChatRoutes.DataPrefix && lines[1..] == rest;
    assert StartsWith(lines[0], ChatRoutes.DataPrefix);
    assert lines[0][|ChatRoutes.DataPrefix|..] == [];
    assert accumulated + [] == accumulated;
  }

  /** The body sent for the lone error fragment: a `data: ` line with
      nothing after the prefix, the error text, a blank line, then the
      `[DONE]` frame. */
  lemma AgentFailureBody(m: string)
    ensures Concat(ChatRoutes.EventStream(ChatRoutes.TokenSource([ChatAgentModel.ErrorFragment(m)], None)))
         == ChatRoutes.DataPrefix + ['\n'] + (("[Error: " + m + "]") + ['\n'] + (['\n'] + (ChatRoutes.Frame(ChatRoutes.DoneMarker) + [])))
  {
    var e := ChatAgentModel.ErrorFragment(m);
    assert Concat(ChatRoutes.EventStream(ChatRoutes.TokenSource([e], None)))
        == ChatRoutes.Frame(e) + (ChatRoutes.Frame(ChatRoutes.DoneMarker) + []) by {
      assert [e] == [e] + [];
      StreamBodyCons(e, [], None);
      StreamBodyTerminal(None);
    }
  }

  /** The lines the client reads when the agent's generation fails before
      any chunk: the error fragment starts with a line feed, so the error
      text lands on a line of its own without the `data: ` prefix. */
  lemma AgentFailureLines(m: string)
    requires NoLineBreak(m)
    ensures Lines(Concat(ChatRoutes.EventStream(ChatRoutes.TokenSource([ChatAgentModel.ErrorFragment(m)], None))))
         == [ChatRoutes.DataPrefix, "[Error: " + m + "]", "", ChatRoutes.DataPrefix + ChatRoutes.DoneMarker, ""]
  {
    var errLine := "[Error: " + m + "]";
    var rest := ChatRoutes.Frame(ChatRoutes.DoneMarker) + [];
    calc {
      Lines(Concat(ChatRoutes.EventStream(ChatRoutes.TokenSource([ChatAgentModel.ErrorFragment(m)], None))));
      { AgentFailureBody(m); }
      Lines(ChatRoutes.DataPrefix + ['\n'] + (errLine + ['\n'] + (['\n'] + rest)));
      { LinesCons(ChatRoutes.DataPrefix, errLine + ['\n'] + (['\n'] + rest)); }
      [ChatRoutes.DataPrefix] + Lines(errLine + ['\n'] + (['\n'] + rest));
      { assert NoLineBreak(errLine);
        LinesCons(errLine, ['\n'] + rest); }
      [ChatRoutes.DataPrefix] + ([errLine] + Lines(['\n'] + rest));
      { assert ['\n'] + rest == [] + ['\n'] + rest;
        LinesCons([], rest); }
      [ChatRoutes.DataPrefix] + ([errLine] + ([""] + Lines(rest)));
      { FrameLines(ChatRoutes.DoneMarker, []); }
      [ChatRoutes.DataPrefix] + ([errLine] + ([""] + ([ChatRoutes.DataPrefix + ChatRoutes.DoneMarker, ""] + Lines([]))));
      [ChatRoutes.DataPrefix, errLine, "", ChatRoutes.DataPrefix + ChatRoutes.DoneMarker, ""];
    }
  }

  /** A generation that fails before producing any chunk shows no error in
      the chat: the client reads one empty payload, skips the error text,
      and stops at `[DONE]`, so the reply is a single empty assistant card. */
  lemma AgentFailureShowsEmptyAnswer(m: string, brokenBy: Option<string>)
    requires NoLineBreak(m)
    ensures var fragments := ChatAgentModel.Fragments(ChatAgentModel.RunOutcome([], Some(m)));
      ReplyCards(Streamed(Lines(Concat(ChatRoutes.EventStream(ChatRoutes.TokenSource(fragments, None)))), brokenBy))
        == [AssistantCard("")]
  {
    var errLine := "[Error: " + m + "]";
    var doneLines := [ChatRoutes.DataPrefix + ChatRoutes.DoneMarker, ""];
    var lines := [ChatRoutes.DataPrefix, errLine, "", ChatRoutes.DataPrefix + ChatRoutes.DoneMarker, ""];
    assert ChatAgentModel.Fragments(ChatAgentModel.RunOutcome([], Some(m))) == [ChatAgentModel.ErrorFragment(m)];
    AgentFailureLines(m);
    calc {
      ParseLines(lines);
      { assert lines == [ChatRoutes.DataPrefix] + ([errLine] + ([""] + doneLines)); }
      ParseFrom([ChatRoutes.DataPrefix] + ([errLine] + ([""] + doneLines)), "", false);
      { ParseEmptyPayload([errLine] + ([""] + doneLines), "", false); }
      ParseFrom([errLine] + ([""] + doneLines), "", true);
      { assert errLine[0] != ChatRoutes.DataPrefix[0];
        ParseSkipLine(errLine, [""] + doneLines, "", true); }
      ParseFrom([""] + doneLines, "", true);
      { ParseSkipLine("", doneLines, "", true); }
      ParseFrom(doneLines, "", true);
      { ParseDoneFrame("", true); }
      ParseState("", true, SawDone);
    }
    ReplyCardsAfterDone(lines, brokenBy, "");
  }

  /** What the upload widget hands over: the file name and the outcome of reading it. */
  datatype UploadEvent = UploadEvent(name: string, content: Result<Upload.Bytes, string>)

  /** How the upload request went: a response with its status and its
      `detail` field, if any, or an exception. */
  datatype UploadAnswer = Answered(status: int, detail: Option<string>) | PostRaised(message: string)

  class ChatInterface {
    var inputValue: string
    var sendEnabled: bool
    var statusText: string
    var statusColor: string
    var uploadStatus: string
    var cards: seq<Card>
    const sessionId: string

    /** The interface as `create_ui` first shows it. */
    constructor ()
      ensures sessionId == "nicegui_session_001"
      ensures inputValue == "" && sendEnabled && cards == [] && uploadStatus == ""
      ensures statusText == "Ready" && statusColor == DefaultColor
    {
      sessionId := "nicegui_session_001";
      inputValue := "";
      sendEnabled := true;
      statusText := "Ready";
      statusColor := DefaultColor;
      uploadStatus := "";
      cards := [];
    }

    /** `add_message`: draw the card for the first flag that is set. */
    method AddMessage(text: string, isUser: bool, isSystem: bool, isError: bool)
      modifies this`cards
      ensures cards == old(cards) + Drawn(MessageCard(text, isUser, isSystem, isError))
    {
      var card := MessageCard(text, isUser, isSystem, isError);
      if card.Some? {
        cards := cards + [card.value];
      }
    }

    /** `set_status`: the label's text and its colour. */
    method SetStatus(text: string, statusType: string)
      modifies this`statusText, this`statusColor
      ensures statusText == text && statusColor == StatusColor(statusType)
    {
      statusText := text;
      statusColor := StatusColor(statusType);
    }

    /** The reading loop of `send_message`: each `data: ` payload is appended
        to the answer, the assistant card is created on the first and updated
        after; `[DONE]` stops, an `[ERROR` payload adds an error card and
        stops, and an exception while reading adds an error card. */
    method ReadReply(lines: seq<string>, brokenBy: Option<string>)
      modifies this`cards
      ensures cards == old(cards) + ReplyCards(Streamed(lines, brokenBy))
    {
      var accumulated := "";
      var shown := false;
      var end := Exhausted;
      var i := 0;
      while i < |lines| && end == Exhausted
        invariant 0 <= i <= |lines|
        invariant end == Exhausted ==> ParseLines(lines) == ParseFrom(lines[i..], accumulated, shown)
        invariant end != Exhausted ==> ParseLines(lines) == ParseState(accumulated, shown, end)
        invariant cards == old(cards) + (if shown then [AssistantCard(accumulated)] else [])
                           + (if end.SawError? then [ErrorCard("Error: " + end.payload)] else [])
        decreases |lines| - i, if end == Exhausted then 1 else 0
      {
        var line := lines[i];
        assert lines[i..][0] == line && lines[i..][1..] == lines[i + 1..];
        if StartsWith(line, ChatRoutes.DataPrefix) {
          var chunk := line[|ChatRoutes.DataPrefix|..];
          if chunk == ChatRoutes.DoneMarker {
            end := SawDone;
          } else if StartsWith(chunk, ErrorMarker) {
            AddMessage("Error: " + chunk, false, false, true);
            end := SawError(chunk);
          } else {
            accumulated := accumulated + chunk;
            if !shown {
              cards := cards + [AssistantCard(accumulated)];
              shown := true;
            } else {
              cards := cards[|cards| - 1 := AssistantCard(accumulated)];
            }
            i := i + 1;
          }
        } else {
          i := i + 1;
        }
      }
      if end == Exhausted {
        assert lines[i..] == [];
        if brokenBy.Some? {
          AddMessage("Error: " + brokenBy.value, false, false, true);
        }
      }
    }

    /** The `try` block of `send_message` with its handler: a request that
        fails adds one error card, a reply that arrives is read. */
    method ReceiveReply(reply: StreamReply)
      modifies this`cards
      ensures cards == old(cards) + ReplyCards(reply)
    {
      match reply {
        case RequestFailed(m) =>
          AddMessage("Error: " + m, false, false, true);
        case Streamed(lines, brokenBy) =>
          ReadReply(lines, brokenBy);
      }
    }

    /** The first steps of `send_message` for a non-blank message: clear the
        input, disable the send button, show the user's card, and report
        searching, then generating. */
    method BeginSend(message: string)
      modifies this`inputValue, this`sendEnabled, this`cards, this`statusText, this`statusColor
      ensures inputValue == "" && !sendEnabled && cards == old(cards) + [UserCard(message)]
      ensures statusText == "Generating response..." && statusColor == StatusColor("generating")
    {
      inputValue := "";
      sendEnabled := false;
      AddMessage(message, true, false, false);
      SetStatus("Searching documents...", "searching");
      SetStatus("Generating response...", "generating");
    }

    /** `send_message`: a blank input does nothing; otherwise the input is
        cleared, the user's card added, the reply read into the assistant's
        card, and the send button enabled again on every path. */
    method SendMessage(reply: StreamReply) returns (sent: Option<ChatRoutes.ChatRequest>)
      modifies this
      ensures sent == if Strip(old(inputValue)) == [] then None
                      else Some(ChatRoutes.ChatRequest(Strip(old(inputValue)), Some(sessionId)))
      ensures sent.None? ==> unchanged(this)
      ensures sent.Some? ==>
        && inputValue == ""
        && sendEnabled
        && statusText == "Ready" && statusColor == StatusColor("ready")
        && cards == old(cards) + [UserCard(sent.value.message)] + ReplyCards(reply)
        && uploadStatus == old(uploadStatus)
    {
      var message := Strip(inputValue);
      if message == [] {
        return None;
      }
      BeginSend(message);
      sent := Some(ChatRoutes.ChatRequest(message, Some(sessionId)));

      ReceiveReply(reply);
      SetStatus("Ready", "ready");
      sendEnabled := true;
    }

    /** `handle_upload`: a name without the `.pdf` ending is refused before
        any request is made; otherwise the file is posted, and the upload
        status reports the outcome. The status label ends at "Ready" on
        every path. Returns the name and content posted, if any. */
    method HandleUpload(event: UploadEvent, answer: UploadAnswer)
      returns (posted: Option<(string, Upload.Bytes)>)
      modifies this
      ensures statusText == "Ready" && statusColor == StatusColor("ready")
      ensures inputValue == old(inputValue) && sendEnabled == old(sendEnabled)
      ensures event.content.Failure? ==>
        posted.None? && uploadStatus == "Error: " + event.content.error && cards == old(cards)
      ensures event.content.Success? && !Upload.IsPdfName(Some(event.name)) ==>
        posted.None? && uploadStatus == "Only PDF files allowed!" && cards == old(cards)
      ensures event.content.Success? && Upload.IsPdfName(Some(event.name)) ==>
        && posted == Some((event.name, event.content.value))
        && match answer
           case Answered(status, detail) =>
             if status == 200 then
               uploadStatus == event.name + " uploaded!" && cards == old(cards) + [SystemCard("Uploaded: " + event.name)]
             else
               uploadStatus == "Error: " + (if detail.Some? then detail.value else "Upload failed")
               && cards == old(cards)
           case PostRaised(m) => uploadStatus == "Error: " + m && cards == old(cards)
    {
      posted := None;
      SetStatus("Uploading PDF...", "uploading");
      uploadStatus := "Uploading...";
      if event.content.Failure? {
        uploadStatus := "Error: " + event.content.error;
        SetStatus("Ready", "ready");
        return;
      }
      if !Upload.IsPdfName(Some(event.name)) {
        uploadStatus := "Only PDF files allowed!";
        SetStatus("Ready", "ready");
        return;
      }
      SetStatus("Processing PDF...", "processing");
      uploadStatus := "Processing...";
      posted := Some((event.name, event.content.value));
      match answer {
        case Answered(status, detail) =>
          if status == 200 {
            uploadStatus := event.name + " uploaded!";
            SetStatus("Ready", "ready");
            AddMessage("Uploaded: " + event.name, false, true, false);
          } else {
            var error := if detail.Some? then detail.value else "Upload failed";
            uploadStatus := "Error: " + error;
            SetStatus("Ready", "ready");
          }
        case PostRaised(m) =>
          uploadStatus := "Error: " + m;
          SetStatus("Ready", "ready");
      }
    }
  }
}
