/** The processor as it runs: one stream's state updated message by message, and the deferred
    classification when the stream closes. */
module Processor {
  import opened Llm
  import opened ContentEncoding
  import opened RawLane
  import opened Ingest
  import opened ProcessorModel
  import CapturedTurns

  class StreamState {
    const setup: Setup
    var provider: string
    var verb: string
    var path: string
    var requestEncoding: string
    var status: int
    var contentType: string
    var contentEncoding: string
    var reqBuf: Bytes
    var decodedReq: Bytes
    var requestDecodeErr: bool
    var respBuf: Bytes
    var reqOverBudget: bool
    var reqEnded: bool
    var respEnded: bool
    var outcomes: seq<Terminal>

    ghost function State(): Stream
      reads this
    {
      Stream(provider, verb, path, requestEncoding, status, contentType, contentEncoding, reqBuf, decodedReq,
             requestDecodeErr, respBuf, reqOverBudget, reqEnded, respEnded, outcomes)
    }

    constructor (s: Setup)
      ensures setup == s && State() == OPENED
    {
      setup := s;
      provider, verb, path, requestEncoding := "", "", "", "";
      status, contentType, contentEncoding := 0, "", "";
      reqBuf, decodedReq, respBuf := [], [], [];
      requestDecodeErr, reqOverBudget, reqEnded, respEnded := false, false, false, false;
      outcomes := [];
    }

    /** onRequestBody, the capture half: forwarding is acknowledged whatever happens here. */
    method OnRequestBody(chunk: Bytes, end: bool)
      modifies this`reqBuf, this`decodedReq, this`requestDecodeErr, this`reqOverBudget, this`reqEnded
      ensures State() == TakeRequestChunk(setup, old(State()), chunk, end)
    {
      hide Decode;
      if reqOverBudget || |reqBuf| + |chunk| > REQUEST_BUDGET {
        reqOverBudget := true;
      } else {
        reqBuf := reqBuf + chunk;
      }
      if end {
        reqEnded := true;
        if !reqOverBudget {
          var decoded := DecodeContentEncoding(setup.codec.reader, reqBuf, requestEncoding);
          if decoded.None? || decoded.value.truncated {
            decodedReq, requestDecodeErr := [], true;
          } else {
            decodedReq, requestDecodeErr := decoded.value.body, false;
            if |decodedReq| > REQUEST_BUDGET {
              reqOverBudget := true;
              decodedReq := [];
            }
          }
        }
      }
    }

    /** dispatchTurn */
    method DispatchTurn(elapsedNs: int)
      modifies this`outcomes
      ensures State() == old(State()).(outcomes := old(outcomes) + [Verdict(setup, old(State()), elapsedNs)])
    {
      hide Decode, Pack;
      if reqOverBudget { outcomes := outcomes + [Dropped(RequestOverBudget)]; return; }
      if !setup.isTurn(verb, path) { outcomes := outcomes + [Dropped(NonTurnRequest)]; return; }
      if requestDecodeErr { outcomes := outcomes + [Dropped(RequestDecode)]; return; }
      if |respBuf| == 0 { outcomes := outcomes + [Dropped(EmptyResponse)]; return; }
      if !HandlesEndpoint(provider, setup.endpoint(path)) { outcomes := outcomes + [Dropped(UnknownProvider)]; return; }
      var decoded := DecodeContentEncoding(setup.codec.reader, respBuf, contentEncoding);
      if decoded.None? { outcomes := outcomes + [Dropped(ResponseDecode)]; return; }
      var reduced := setup.codec.reduce(provider, decoded.value.body, contentType);
      if reduced.None? { outcomes := outcomes + [Dropped(ReducerError)]; return; }
      var reply := reduced.value;
      if reply.Some? {
        var r := reply.value;
        if r.usage.None? { r := r.(usage := Some(NO_USAGE)); }
        reply := Some(r.(usage := Some(r.usage.value.(durationNs := elapsedNs))));
      }
      var envelope := BuildEnvelope(reply, elapsedNs);
      outcomes := outcomes + [Dispatched(envelope)];
    }

    /** The raw-lane decision written onto the envelope. */
    method BuildEnvelope(reply: Option<Reply>, elapsedNs: int) returns (e: Envelope)
      ensures e == Pack(setup.mode, Captured(provider, decodedReq, reply, respBuf, contentEncoding, MetaOf(State(), elapsedNs)))
    {
      hide Fits;
      var d := Decide(setup.mode, |respBuf|, |decodedReq|, true);
      e := Envelope(provider, decodedReq, reply, [], "", false, Meta(contentType, elapsedNs, Absent, Absent), None);
      if d.attachRaw { e := e.(raw := respBuf, encoding := contentEncoding); }
      if d.skipReason != "" { e := e.(withheld := true); }
      if d.omitReduction { e := e.(fallback := reply, response := None); }
    }

    method OnResponseBody(chunk: Bytes, end: bool, elapsedNs: int)
      modifies this`respBuf, this`respEnded, this`outcomes
      ensures State() == Feed(setup, old(State()), ResponseBody(chunk, end), elapsedNs)
    {
      hide Verdict;
      respBuf := respBuf + chunk;
      if end {
        respEnded := true;
        if status == 0 {
          outcomes := outcomes + [Dropped(MissingStatus)];
        } else if status == 200 {
          VerdictIgnoresOutcome(setup, State(), old(State()).(respBuf := old(respBuf) + chunk), elapsedNs);
          DispatchTurn(elapsedNs);
        } else {
          outcomes := outcomes + [Dropped(UpstreamStatus)];
        }
      }
    }

    method Receive(m: Message, elapsedNs: int)
      modifies this
      ensures State() == Feed(setup, old(State()), m, elapsedNs)
    {
      hide EndOfResponse, DecodedRequest;
      match m {
        case RequestHeaders(h) =>
          provider, verb, path, requestEncoding := h.provider, h.verb, h.path, h.encoding;
        case RequestBody(chunk, end) => OnRequestBody(chunk, end);
        case ResponseHeaders(code, kind, encoding) =>
          status, contentType, contentEncoding := code, kind, encoding;
        case ResponseBody(chunk, end) => OnResponseBody(chunk, end, elapsedNs);
        case Other =>
      }
    }

    method OnClose(elapsedNs: int)
      modifies this`outcomes
      ensures State() == Close(setup, old(State()), elapsedNs)
    {
      hide Verdict;
      if respEnded { return; }
      if reqEnded && |respBuf| == 0 {
        outcomes := outcomes + [Dropped(UpstreamNoResponse)];
      } else if reqEnded && status == 200 && |respBuf| > 0 {
        DispatchTurn(elapsedNs);
      } else if |respBuf| > 0 || reqEnded {
        outcomes := outcomes + [Dropped(ClientDisconnect)];
      }
    }
  }

  lemma VerdictIgnoresOutcome(setup: Setup, s: Stream, t: Stream, elapsedNs: int)
    requires s == t.(respEnded := s.respEnded, outcomes := s.outcomes)
    ensures Verdict(setup, s, elapsedNs) == Verdict(setup, t, elapsedNs)
  {
    hide Decode, Pack;
  }

  /** Process: the messages up to the stream's end or first transport error. */
  method Process(setup: Setup, ms: seq<Message>, clock: nat -> int) returns (outcomes: seq<Terminal>)
    ensures outcomes == Processed(setup, clock, ms).outcomes
    ensures Ends(ms) <= 1 ==> |outcomes| <= 1
    ensures Ends(ms) <= 1 && (RequestEnded(ms) || ByteArrived(ms)) ==> |outcomes| == 1
    ensures forall e | Dispatched(e) in outcomes :: CapturedTurns.CarriedFrom(setup, clock, ms, e)
  {
    hide Feed, Close, RequestEnded, ByteArrived, CapturedTurns.CarriedFrom;
    var st := new StreamState(setup);
    var i := 0;
    while i < |ms|
      invariant 0 <= i <= |ms| && fresh(st) && st.setup == setup
      invariant st.State() == After(setup, clock, ms[..i])
    {
      st.Receive(ms[i], clock(i));
      assert ms[..i + 1][..i] == ms[..i];
      i := i + 1;
    }
    assert ms[..i] == ms;
    st.OnClose(clock(i));
    outcomes := st.outcomes;
    if Ends(ms) <= 1 { OneOutcomePerStream(setup, clock, ms); }
    forall e | Dispatched(e) in outcomes ensures CapturedTurns.CarriedFrom(setup, clock, ms, e) {
      CapturedTurns.DispatchedCarriesTheTurn(setup, clock, ms, e);
    }
  }
}
