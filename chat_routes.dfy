/** The two chat routes. `POST /api/chat/stream` relays the agent's tokens as
    a server-sent event stream: every token is one `data: <token>\n\n` frame,
    and the stream ends with `data: [DONE]\n\n`, or with
    `data: [ERROR: <message>]\n\n` when the token source raises. `POST
    /api/chat` concatenates the same tokens into one response. The token
    source (the agent's `stream_response`) is a parameter: the tokens it
    yields and the exception that ended it, if any. */
module ChatRoutes {
  import opened Wrappers
  import opened Text
  import opened Http
  import ChatAgentModel

  /** The request body (`ChatRequest`). */
  datatype ChatRequest = ChatRequest(message: string, sessionId: Option<string>)

  /** The non-streaming reply body. */
  datatype ChatReply = ChatReply(response: string, sessionId: string)

  /** What the token source did: the tokens it yielded, in order, and the
      message of the exception that ended it, if any. */
  datatype TokenSource = TokenSource(tokens: seq<string>, raised: Option<string>)

  /** The detail pydantic reports for a message shorter than one character. */
  const TooShortDetail := "String should have at least 1 character"

  /** Request validation: `message` must have at least one character. */
  function Admit(body: ChatRequest): (r: Result<ChatRequest, HttpError>)
    ensures r.Success? <==> |body.message| >= 1
    ensures r.Success? ==> r.value == body
    ensures r.Failure? ==> r.error.status == UnprocessableEntity
  {
    if |body.message| < 1 then Failure(HttpError(UnprocessableEntity, TooShortDetail)) else Success(body)
  }

  // ---------------------------------------------------------------------------
  // Framing

  const DataPrefix := "data: "
  const FrameEnd := "\n\n"

  /** One event: `f"data: {payload}\n\n"`. */
  function Frame(payload: string): string {
    DataPrefix + payload + FrameEnd
  }

  /** The payload of the frame that ends a normal stream. */
  const DoneMarker := "[DONE]"

  const DoneFrame := Frame(DoneMarker)

  function ErrorFrame(message: string): string {
    Frame("[ERROR: " + message + "]")
  }

  /** The payload a frame carries, read back from between prefix and terminator. */
  function FramePayload(frame: string): string
    requires |frame| >= |DataPrefix| + |FrameEnd|
  {
    frame[|DataPrefix|..|frame| - |FrameEnd|]
  }

  /** Framing loses nothing: the payload reads back out of its frame, so
      distinct payloads make distinct frames. */
  lemma FramePayloadRoundTrip(payload: string)
    ensures |Frame(payload)| == |DataPrefix| + |payload| + |FrameEnd|
    ensures FramePayload(Frame(payload)) == payload
  {
    var f := Frame(payload);
    assert f[|DataPrefix|..|f| - |FrameEnd|] == payload;
  }

  lemma FrameInjective(a: string, b: string)
    requires Frame(a) == Frame(b)
    ensures a == b
  {
    FramePayloadRoundTrip(a);
    FramePayloadRoundTrip(b);
  }

  /** The frame that ends the stream. */
  function Terminal(raised: Option<string>): string {
    if raised.None? then DoneFrame else ErrorFrame(raised.value)
  }

  /** Every frame `generate` yields for a token source, in order. */
  function EventStream(src: TokenSource): seq<string> {
    seq(|src.tokens|, i requires 0 <= i < |src.tokens| => Frame(src.tokens[i])) + [Terminal(src.raised)]
  }

  /** `generate`: one frame per token, as the tokens arrive, then the
      terminal frame. */
  method Generate(src: TokenSource) returns (frames: seq<string>)
    ensures frames == EventStream(src)
  {
    frames := [];
    for i := 0 to |src.tokens|
      invariant |frames| == i
      invariant forall j :: 0 <= j < i ==> frames[j] == Frame(src.tokens[j])
    {
      frames := frames + [Frame(src.tokens[i])];
    }
    if src.raised.None? {
      frames := frames + [DoneFrame];
    } else {
      frames := frames + [ErrorFrame(src.raised.value)];
    }
  }

  /** The frames are the token frames in order, and exactly one more: the last,
      which is `[DONE]` on normal completion and the error frame otherwise. */
  lemma EventStreamShape(src: TokenSource)
    ensures var frames := EventStream(src);
      |frames| == |src.tokens| + 1
      && (forall i :: 0 <= i < |src.tokens| ==> FramePayload(frames[i]) == src.tokens[i])
      && frames[|src.tokens|] == (if src.raised.None? then DoneFrame else ErrorFrame(src.raised.value))
  {
    forall i | 0 <= i < |src.tokens| ensures FramePayload(EventStream(src)[i]) == src.tokens[i] {
      FramePayloadRoundTrip(src.tokens[i]);
    }
  }

  /** If no token is itself "[DONE]", the stream holds exactly one `[DONE]`
      frame on normal completion and none when the source raised. */
  lemma {:induction false} DoneFrameCount(src: TokenSource)
    requires forall i :: 0 <= i < |src.tokens| ==> src.tokens[i] != DoneMarker
    ensures multiset(EventStream(src))[DoneFrame] == if src.raised.None? then 1 else 0
  {
    var frames := seq(|src.tokens|, i requires 0 <= i < |src.tokens| => Frame(src.tokens[i]));
    forall i | 0 <= i < |frames| ensures frames[i] != DoneFrame {
      if frames[i] == DoneFrame {
        FrameInjective(src.tokens[i], DoneMarker);
      }
    }
    NotInMultiset(frames, DoneFrame);
    if src.raised.Some? {
      var m := "[ERROR: " + src.raised.value + "]";
      if ErrorFrame(src.raised.value) == DoneFrame {
        FrameInjective(m, DoneMarker);
        assert false;
      }
    }
    assert EventStream(src) == frames + [Terminal(src.raised)];
  }

  lemma {:induction false} NotInMultiset(s: seq<string>, x: string)
    requires forall i :: 0 <= i < |s| ==> s[i] != x
    ensures multiset(s)[x] == 0
  {
    if s != [] {
      assert s == s[..|s| - 1] + [s[|s| - 1]];
      NotInMultiset(s[..|s| - 1], x);
    }
  }

  // ---------------------------------------------------------------------------
  // The routes

  /** The arguments a route passes to the agent's `stream_response`. */
  datatype AgentCall = AgentCall(message: string, sessionId: Option<string>)

  /** `stream_chat`: validation, then `get_agent()` (a failure there is a 500
      before any frame), then the event stream. */
  method StreamChat(body: ChatRequest, agentFailure: Option<string>, src: TokenSource)
    returns (r: Result<seq<string>, HttpError>, asked: Option<AgentCall>)
    ensures |body.message| == 0 ==> r == Failure(HttpError(UnprocessableEntity, TooShortDetail))
    ensures |body.message| >= 1 && agentFailure.Some? ==> r == Failure(HttpError(InternalServerError, agentFailure.value))
    ensures asked == if |body.message| >= 1 && agentFailure.None? then Some(AgentCall(body.message, body.sessionId)) else None
    ensures |body.message| >= 1 && agentFailure.None? ==> r == Success(EventStream(src))
  {
    asked := None;
    var admitted := Admit(body);
    if admitted.Failure? {
      return Failure(admitted.error), None;
    }
    if agentFailure.Some? {
      return Failure(HttpError(InternalServerError, agentFailure.value)), None;
    }
    asked := Some(AgentCall(admitted.value.message, admitted.value.sessionId));
    var frames := Generate(src);
    r := Success(frames);
  }

  /** `chat`: validation, then the tokens concatenated in arrival order; a
      raising token source is a 500 with the exception's text. */
  method Chat(body: ChatRequest, agentFailure: Option<string>, src: TokenSource)
    returns (r: Result<ChatReply, HttpError>, asked: Option<AgentCall>)
    ensures |body.message| == 0 ==> r == Failure(HttpError(UnprocessableEntity, TooShortDetail))
    ensures |body.message| >= 1 && agentFailure.Some? ==> r == Failure(HttpError(InternalServerError, agentFailure.value))
    ensures asked == if |body.message| >= 1 && agentFailure.None? then Some(AgentCall(body.message, body.sessionId)) else None
    ensures |body.message| >= 1 && agentFailure.None? && src.raised.Some? ==>
      r == Failure(HttpError(InternalServerError, src.raised.value))
    ensures |body.message| >= 1 && agentFailure.None? && src.raised.None? ==>
      r == Success(ChatReply(Concat(src.tokens), ChatAgentModel.SessionOrDefault(body.sessionId)))
  {
    asked := None;
    var admitted := Admit(body);
    if admitted.Failure? {
      return Failure(admitted.error), None;
    }
    if agentFailure.Some? {
      return Failure(HttpError(InternalServerError, agentFailure.value)), None;
    }
    asked := Some(AgentCall(admitted.value.message, admitted.value.sessionId));
    var responseText := "";
    for i := 0 to |src.tokens|
      invariant responseText == Concat(src.tokens[..i])
    {
      assert src.tokens[..i + 1][..i] == src.tokens[..i];
      responseText := responseText + src.tokens[i];
    }
    assert src.tokens[..|src.tokens|] == src.tokens;
    if src.raised.Some? {
      return Failure(HttpError(InternalServerError, src.raised.value)), asked;
    }
    r := Success(ChatReply(responseText, ChatAgentModel.SessionOrDefault(body.sessionId)));
  }

  /** The payloads of a sequence of frames, concatenated. */
  function ConcatPayloads(frames: seq<string>): string
    requires forall i :: 0 <= i < |frames| ==> |frames[i]| >= |DataPrefix| + |FrameEnd|
  {
    if frames == [] then ""
    else ConcatPayloads(frames[..|frames| - 1]) + FramePayload(frames[|frames| - 1])
  }

  /** The non-streaming response is the concatenation of the payloads of the
      non-terminal frames the streaming route emits for the same tokens. */
  lemma {:induction false} ChatAgreesWithStream(tokens: seq<string>)
    ensures var frames := EventStream(TokenSource(tokens, None))[..|tokens|];
      (forall i :: 0 <= i < |frames| ==> |frames[i]| >= |DataPrefix| + |FrameEnd|)
      && ConcatPayloads(frames) == Concat(tokens)
  {
    var frames := EventStream(TokenSource(tokens, None))[..|tokens|];
    if tokens != [] {
      var n := |tokens|;
      ChatAgreesWithStream(tokens[..n - 1]);
      assert frames[..n - 1] == EventStream(TokenSource(tokens[..n - 1], None))[..n - 1];
      FramePayloadRoundTrip(tokens[n - 1]);
    }
  }

  /** With the real agent, whose `stream_response` never raises, the stream
      always ends with `[DONE]`; a generation failure arrives as the ordinary
      frame of the error fragment just before it. */
  lemma AgentStreamEndsWithDone(run: ChatAgentModel.RunOutcome)
    ensures var fragments := ChatAgentModel.Fragments(run);
      var frames := EventStream(TokenSource(fragments, None));
      frames[|frames| - 1] == DoneFrame
      && (run.raised.Some? ==>
            |frames| >= 2 && frames[|frames| - 2] == Frame(ChatAgentModel.ErrorFragment(run.raised.value)))
  {
    ChatAgentModel.FragmentsOnFailure(run);
  }
}
