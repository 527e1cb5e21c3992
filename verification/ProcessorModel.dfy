/** One ext_proc stream on values: what each message does to the per-stream state, and the
    terminal outcome a turn ends with. */
module ProcessorModel {
  import opened Llm
  import opened ContentEncoding
  import opened RawLane
  import opened Ingest

  datatype DropReason =
    | UpstreamStatus
    | NonTurnRequest
    | RequestDecode
    | EmptyResponse
    | UnknownProvider
    | ResponseDecode
    | ReducerError
    | ClientDisconnect
    | UpstreamNoResponse
    | MissingStatus
    | RequestOverBudget

  /** The capture-policy reasons, in precedence order. */
  const POLICY_DROP_REASONS :=
    [UpstreamStatus, NonTurnRequest, RequestDecode, EmptyResponse, UnknownProvider, ResponseDecode, ReducerError]

  datatype Terminal = Dropped(reason: DropReason) | Dispatched(envelope: Envelope)

  datatype Headers = Headers(provider: string, verb: string, path: string, encoding: string)

  /** Message is what the stream delivers; trailers and the like are Other. */
  datatype Message =
    | RequestHeaders(headers: Headers)
    | RequestBody(chunk: Bytes, end: bool)
    | ResponseHeaders(status: int, contentType: string, contentEncoding: string)
    | ResponseBody(chunk: Bytes, end: bool)
    | Other

  /** The deployment: the codecs, the mode, and the path tests that classify a request. */
  datatype Setup = Setup(codec: Codec, mode: Mode, isTurn: (string, string) -> bool, endpoint: string -> string)

  datatype Stream = Stream(
    provider: string,
    verb: string,
    path: string,
    requestEncoding: string,
    status: int,
    contentType: string,
    contentEncoding: string,
    reqBuf: Bytes,
    decodedReq: Bytes,
    requestDecodeErr: bool,
    respBuf: Bytes,
    reqOverBudget: bool,
    reqEnded: bool,
    respEnded: bool,
    outcomes: seq<Terminal>)

  const OPENED := Stream("", "", "", "", 0, "", "", [], [], false, [], false, false, false, [])

  /** reducerHandlesEndpoint: each reducer reads one wire format. */
  predicate HandlesEndpoint(provider: string, endpoint: string) {
    (provider == "anthropic" && endpoint == "messages") || (provider == "openai" && endpoint == "responses")
  }

  /** decodeRequestBody refuses what was salvaged. */
  function DecodedRequest(setup: Setup, body: Bytes, encoding: string): Option<Bytes> {
    match Decode(setup.codec.reader, body, encoding)
    case None => None
    case Some(d) => if d.truncated then None else Some(d.body)
  }

  /** onRequestBody */
  function TakeRequestChunk(setup: Setup, s: Stream, chunk: Bytes, end: bool): Stream {
    var over := s.reqOverBudget || |s.reqBuf| + |chunk| > REQUEST_BUDGET;
    var buffered := if over then s.(reqOverBudget := true) else s.(reqBuf := s.reqBuf + chunk);
    if !end then buffered
    else if over then buffered.(reqEnded := true)
    else
      match DecodedRequest(setup, buffered.reqBuf, s.requestEncoding)
      case None => buffered.(reqEnded := true, decodedReq := [], requestDecodeErr := true)
      case Some(d) =>
        if |d| > REQUEST_BUDGET then buffered.(reqEnded := true, decodedReq := [], requestDecodeErr := false, reqOverBudget := true)
        else buffered.(reqEnded := true, decodedReq := d, requestDecodeErr := false)
  }

  function ResponseOf(setup: Setup, s: Stream): Option<Decoded> {
    Decode(setup.codec.reader, s.respBuf, s.contentEncoding)
  }

  function MetaOf(s: Stream, elapsedNs: int): Meta {
    Meta(s.contentType, elapsedNs, Absent, Absent)
  }

  /** dispatchTurn: the gates in order, then the envelope. */
  function Verdict(setup: Setup, s: Stream, elapsedNs: int): Terminal {
    if s.reqOverBudget then Dropped(RequestOverBudget)
    else if !setup.isTurn(s.verb, s.path) then Dropped(NonTurnRequest)
    else if s.requestDecodeErr then Dropped(RequestDecode)
    else if s.respBuf == [] then Dropped(EmptyResponse)
    else if !HandlesEndpoint(s.provider, setup.endpoint(s.path)) then Dropped(UnknownProvider)
    else
      match ResponseOf(setup, s)
      case None => Dropped(ResponseDecode)
      case Some(d) =>
        match setup.codec.reduce(s.provider, d.body, s.contentType)
        case None => Dropped(ReducerError)
        case Some(reply) => Dispatched(Pack(setup.mode, CapturedTurn(s, reply, elapsedNs)))
  }

  function CapturedTurn(s: Stream, reply: Option<Reply>, elapsedNs: int): Captured {
    Captured(s.provider, s.decodedReq,
             if reply.None? then None else Some(reply.value.(usage := Some(UsageOf(reply.value).(durationNs := elapsedNs)))),
             s.respBuf, s.contentEncoding, MetaOf(s, elapsedNs))
  }

  /** What ends a turn at the response's end of stream. */
  function EndOfResponse(setup: Setup, s: Stream, elapsedNs: int): Terminal {
    if s.status == 0 then Dropped(MissingStatus)
    else if s.status == 200 then Verdict(setup, s, elapsedNs)
    else Dropped(UpstreamStatus)
  }

  function Feed(setup: Setup, s: Stream, m: Message, elapsedNs: int): Stream {
    match m
    case RequestHeaders(h) => s.(provider := h.provider, verb := h.verb, path := h.path, requestEncoding := h.encoding)
    case RequestBody(chunk, end) => TakeRequestChunk(setup, s, chunk, end)
    case ResponseHeaders(status, contentType, encoding) =>
      s.(status := status, contentType := contentType, contentEncoding := encoding)
    case ResponseBody(chunk, end) =>
      var t := s.(respBuf := s.respBuf + chunk);
      if !end then t else t.(respEnded := true, outcomes := s.outcomes + [EndOfResponse(setup, t, elapsedNs)])
    case Other => s
  }

  /** The deferred classification of a stream that closed before a terminal state. */
  function Close(setup: Setup, s: Stream, elapsedNs: int): Stream {
    if s.respEnded then s
    else if s.reqEnded && s.respBuf == [] then s.(outcomes := s.outcomes + [Dropped(UpstreamNoResponse)])
    else if s.reqEnded && s.status == 200 then s.(outcomes := s.outcomes + [Verdict(setup, s, elapsedNs)])
    else if s.respBuf != [] || s.reqEnded then s.(outcomes := s.outcomes + [Dropped(ClientDisconnect)])
    else s
  }

  /** The stream after some messages; clock gives the elapsed time at each. */
  function After(setup: Setup, clock: nat -> int, ms: seq<Message>): Stream {
    if ms == [] then OPENED
    else Feed(setup, After(setup, clock, ms[..|ms| - 1]), ms[|ms| - 1], clock(|ms| - 1))
  }

  /** Process: the messages that arrived before the stream ended or broke, then the close. */
  function Processed(setup: Setup, clock: nat -> int, ms: seq<Message>): Stream {
    Close(setup, After(setup, clock, ms), clock(|ms|))
  }

  // ---------------------------------------------------------------- outcomes

  function Ends(ms: seq<Message>): nat {
    if ms == [] then 0
    else
      var m := ms[|ms| - 1];
      Ends(ms[..|ms| - 1]) + (if m.ResponseBody? && m.end then 1 else 0)
  }

  ghost predicate RequestEnded(ms: seq<Message>) {
    exists m :: m in ms && m.RequestBody? && m.end
  }

  ghost predicate ByteArrived(ms: seq<Message>) {
    exists m :: m in ms && m.ResponseBody? && m.chunk != []
  }

  lemma OneMoreMessage(rest: seq<Message>, m: Message)
    ensures RequestEnded(rest + [m]) <==> RequestEnded(rest) || (m.RequestBody? && m.end)
    ensures ByteArrived(rest + [m]) <==> ByteArrived(rest) || (m.ResponseBody? && m.chunk != [])
    ensures Ends(rest + [m]) == Ends(rest) + (if m.ResponseBody? && m.end then 1 else 0)
  {
    var ms := rest + [m];
    assert ms[..|rest|] == rest;
    assert m in ms && forall x | x in rest :: x in ms;
  }

  lemma FeedMeans(setup: Setup, s: Stream, m: Message, elapsedNs: int)
    ensures var t := Feed(setup, s, m, elapsedNs);
            && |t.outcomes| == |s.outcomes| + (if m.ResponseBody? && m.end then 1 else 0)
            && (t.respEnded <==> s.respEnded || (m.ResponseBody? && m.end))
            && (t.reqEnded <==> s.reqEnded || (m.RequestBody? && m.end))
            && (t.respBuf != [] <==> s.respBuf != [] || (m.ResponseBody? && m.chunk != []))
  {
    hide EndOfResponse, DecodedRequest;
  }

  lemma {:induction false} AfterMeans(setup: Setup, clock: nat -> int, ms: seq<Message>)
    ensures var s := After(setup, clock, ms);
            && |s.outcomes| == Ends(ms) && (s.respEnded <==> Ends(ms) > 0)
            && (s.reqEnded <==> RequestEnded(ms)) && (s.respBuf != [] <==> ByteArrived(ms))
  {
    if ms != [] {
      hide Feed, RequestEnded, ByteArrived, Ends;
      var rest, m := ms[..|ms| - 1], ms[|ms| - 1];
      AfterMeans(setup, clock, rest);
      assert ms == rest + [m];
      OneMoreMessage(rest, m);
      FeedMeans(setup, After(setup, clock, rest), m, clock(|ms| - 1));
    }
  }

  /** With at most one response end of stream, at most one terminal outcome is recorded, and
      exactly one when the request ended, a response byte arrived or the response ended. */
  lemma OneOutcomePerStream(setup: Setup, clock: nat -> int, ms: seq<Message>)
    requires Ends(ms) <= 1
    ensures var n := |Processed(setup, clock, ms).outcomes|;
            n <= 1 && (n == 1 <==> RequestEnded(ms) || ByteArrived(ms) || Ends(ms) == 1)
  {
    hide Verdict, After;
    AfterMeans(setup, clock, ms);
  }

  // ---------------------------------------------------------------- the request buffer

  function Chunks(ms: seq<Message>): seq<Bytes> {
    if ms == [] then []
    else
      var m := ms[|ms| - 1];
      Chunks(ms[..|ms| - 1]) + (if m.RequestBody? then [m.chunk] else [])
  }

  function Concat(chunks: seq<Bytes>): Bytes {
    if chunks == [] then [] else Concat(chunks[..|chunks| - 1]) + chunks[|chunks| - 1]
  }

  /** Buffered: the first k chunks whole, and all of them unless the budget was hit. */
  ghost predicate Buffered(s: Stream, chunks: seq<Bytes>, k: int) {
    0 <= k <= |chunks| && s.reqBuf == Concat(chunks[..k]) && (!s.reqOverBudget ==> k == |chunks|)
  }

  lemma BufferedMore(setup: Setup, s: Stream, chunks: seq<Bytes>, k: int, chunk: Bytes, end: bool)
    requires Buffered(s, chunks, k)
    ensures Buffered(TakeRequestChunk(setup, s, chunk, end), chunks + [chunk],
                     if s.reqOverBudget || |s.reqBuf| + |chunk| > REQUEST_BUDGET then k else k + 1)
  {
    hide DecodedRequest;
    var all := chunks + [chunk];
    assert all[..k] == chunks[..k];
    if !s.reqOverBudget {
      assert chunks[..k] == chunks && all[..k + 1] == all;
      assert all[..|all| - 1] == chunks;
    }
  }

  ghost predicate WellBuffered(s: Stream, chunks: seq<Bytes>) {
    |s.reqBuf| <= REQUEST_BUDGET && |s.decodedReq| <= REQUEST_BUDGET && exists k :: Buffered(s, chunks, k)
  }

  lemma FeedBuffers(setup: Setup, s: Stream, m: Message, elapsedNs: int, chunks: seq<Bytes>)
    requires WellBuffered(s, chunks)
    ensures WellBuffered(Feed(setup, s, m, elapsedNs), if m.RequestBody? then chunks + [m.chunk] else chunks)
  {
    hide EndOfResponse, DecodedRequest, Concat;
    var k :| Buffered(s, chunks, k);
    var t := Feed(setup, s, m, elapsedNs);
    if m.RequestBody? {
      BufferedMore(setup, s, chunks, k, m.chunk, m.end);
    } else {
      assert t.reqBuf == s.reqBuf && t.reqOverBudget == s.reqOverBudget && t.decodedReq == s.decodedReq;
      assert Buffered(t, chunks, k);
    }
  }

  /** The request buffer is always a whole number of leading chunks, within the budget, and
      everything that arrived unless the budget was hit. */
  lemma {:induction false} RequestBufferIsPrefix(setup: Setup, clock: nat -> int, ms: seq<Message>)
    ensures WellBuffered(After(setup, clock, ms), Chunks(ms))
  {
    if ms == [] {
      assert Concat([]) == [] by { NoChunks(); }
      assert Buffered(OPENED, Chunks(ms), 0);
    } else {
      hide Feed, WellBuffered;
      var rest, m := ms[..|ms| - 1], ms[|ms| - 1];
      RequestBufferIsPrefix(setup, clock, rest);
      FeedBuffers(setup, After(setup, clock, rest), m, clock(|ms| - 1), Chunks(rest));
      assert Chunks(ms) == if m.RequestBody? then Chunks(rest) + [m.chunk] else Chunks(rest);
    }
  }

  lemma NoChunks()
    ensures Concat([]) == []
  {
  }

  // ---------------------------------------------------------------- precedence

  /** When a policy reason applies to a turn, each read on its own. */
  ghost predicate Applies(setup: Setup, s: Stream, r: DropReason) {
    match r
    case UpstreamStatus => s.status != 200
    case NonTurnRequest => !setup.isTurn(s.verb, s.path)
    case RequestDecode => s.requestDecodeErr
    case EmptyResponse => s.respBuf == []
    case UnknownProvider => !HandlesEndpoint(s.provider, setup.endpoint(s.path))
    case ResponseDecode => ResponseOf(setup, s).None?
    case ReducerError => ResponseOf(setup, s).Some? && setup.codec.reduce(s.provider, ResponseOf(setup, s).value.body, s.contentType).None?
    case _ => false
  }

  /** r is the first reason of the list that applies. */
  ghost predicate FirstApplicable(setup: Setup, s: Stream, r: DropReason) {
    exists i :: 0 <= i < |POLICY_DROP_REASONS| && POLICY_DROP_REASONS[i] == r && Applies(setup, s, r)
                && forall j | 0 <= j < i :: !Applies(setup, s, POLICY_DROP_REASONS[j])
  }

  /** The gates reduced to a position in the list. */
  lemma GateAt(setup: Setup, s: Stream, elapsedNs: int) returns (i: nat)
    requires s.status != 0 && !s.reqOverBudget
    ensures i <= 7 && forall j | 0 <= j < i :: !Applies(setup, s, POLICY_DROP_REASONS[j])
    ensures i < 7 ==> Applies(setup, s, POLICY_DROP_REASONS[i]) && EndOfResponse(setup, s, elapsedNs) == Dropped(POLICY_DROP_REASONS[i])
    ensures i == 7 ==> EndOfResponse(setup, s, elapsedNs).Dispatched?
  {
    if s.status != 200 { return 0; }
    if !setup.isTurn(s.verb, s.path) { return 1; }
    if s.requestDecodeErr { return 2; }
    if s.respBuf == [] { return 3; }
    if !HandlesEndpoint(s.provider, setup.endpoint(s.path)) { return 4; }
    if ResponseOf(setup, s).None? { return 5; }
    if setup.codec.reduce(s.provider, ResponseOf(setup, s).value.body, s.contentType).None? { return 6; }
    i := 7;
  }

  /** A response phase that completed with a status, within budget, is dropped exactly for the
      first applicable reason of the shared list, and dispatched when none applies. */
  lemma DropsFollowPrecedence(setup: Setup, s: Stream, elapsedNs: int)
    requires s.status != 0 && !s.reqOverBudget
    ensures forall r :: EndOfResponse(setup, s, elapsedNs) == Dropped(r) <==> FirstApplicable(setup, s, r)
    ensures EndOfResponse(setup, s, elapsedNs).Dispatched? <==> forall r :: !Applies(setup, s, r)
  {
    hide EndOfResponse, Applies;
    var i := GateAt(setup, s, elapsedNs);
    forall r ensures EndOfResponse(setup, s, elapsedNs) == Dropped(r) <==> FirstApplicable(setup, s, r) {
      if FirstApplicable(setup, s, r) {
        var k :| 0 <= k < 7 && POLICY_DROP_REASONS[k] == r && Applies(setup, s, r)
                 && forall j | 0 <= j < k :: !Applies(setup, s, POLICY_DROP_REASONS[j]);
        assert k == i;
      }
    }
    forall r | Applies(setup, s, r) ensures i < 7 {
      var k := PolicyPosition(setup, s, r);
      assert POLICY_DROP_REASONS[k] == r;
    }
  }

  lemma PolicyPosition(setup: Setup, s: Stream, r: DropReason) returns (k: nat)
    requires Applies(setup, s, r)
    ensures k < 7 && POLICY_DROP_REASONS[k] == r
  {
    match r
    case UpstreamStatus => k := 0;
    case NonTurnRequest => k := 1;
    case RequestDecode => k := 2;
    case EmptyResponse => k := 3;
    case UnknownProvider => k := 4;
    case ResponseDecode => k := 5;
    case ReducerError => k := 6;
  }

  // ---------------------------------------------------------------- what is dispatched

  /** A dispatched turn is one ingest can serve: it has bytes, a reducer, and the reply that
      reducer gave on those bytes, so the storage theorems apply to it. */
  lemma DispatchedIsPostable(setup: Setup, s: Stream, elapsedNs: int)
    requires Verdict(setup, s, elapsedNs).Dispatched?
    ensures exists reply :: Verdict(setup, s, elapsedNs) == Dispatched(Pack(setup.mode, CapturedTurn(s, reply, elapsedNs)))
                            && Postable(setup.codec, CapturedTurn(s, reply, elapsedNs))
  {
    hide Decode, Pack;
    var d := ResponseOf(setup, s).value;
    var reply := setup.codec.reduce(s.provider, d.body, s.contentType).value;
    assert Verdict(setup, s, elapsedNs) == Dispatched(Pack(setup.mode, CapturedTurn(s, reply, elapsedNs)));
    assert Postable(setup.codec, CapturedTurn(s, reply, elapsedNs));
  }
}
