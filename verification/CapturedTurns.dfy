/** What one stream's outcome says about the messages that arrived: the state read off the
    message list alone, and from it the envelope and every drop. */
module CapturedTurns {
  import opened Llm
  import opened ContentEncoding
  import opened RawLane
  import opened Ingest
  import opened ProcessorModel

  // ---------------------------------------------------------------- reading the messages

  const NO_HEADERS := Headers("", "", "", "")

  /** The request headers in force after some messages: the last ones. */
  ghost function RequestHead(ms: seq<Message>): Headers {
    if ms == [] then NO_HEADERS
    else if ms[|ms| - 1].RequestHeaders? then ms[|ms| - 1].headers
    else RequestHead(ms[..|ms| - 1])
  }

  ghost function ResponseHead(ms: seq<Message>): (int, string, string) {
    if ms == [] then (0, "", "")
    else
      match ms[|ms| - 1]
      case ResponseHeaders(status, contentType, encoding) => (status, contentType, encoding)
      case _ => ResponseHead(ms[..|ms| - 1])
  }

  ghost function ResponseChunks(ms: seq<Message>): seq<Bytes> {
    if ms == [] then []
    else
      var m := ms[|ms| - 1];
      ResponseChunks(ms[..|ms| - 1]) + (if m.ResponseBody? then [m.chunk] else [])
  }

  /** The bytes the upstream sent, and those the client sent. */
  ghost function ResponseBytes(ms: seq<Message>): Bytes { Concat(ResponseChunks(ms)) }

  ghost function RequestBytes(ms: seq<Message>): Bytes { Concat(Chunks(ms)) }

  /** How many messages there are up to the last end of the request, 0 if it never ended. */
  ghost function LastRequestEnd(ms: seq<Message>): (n: nat)
    ensures n <= |ms|
  {
    if ms == [] then 0
    else if ms[|ms| - 1].RequestBody? && ms[|ms| - 1].end then |ms|
    else LastRequestEnd(ms[..|ms| - 1])
  }

  /** The whole request body as it decodes; a salvaged decode does not count. */
  ghost function DecodedBody(setup: Setup, ms: seq<Message>): Option<Bytes> {
    match Decode(setup.codec.reader, RequestBytes(ms), RequestHead(ms).encoding)
    case Some(d) => if d.truncated then None else Some(d.body)
    case None => None
  }

  /** The request ended at n within the budget on the wire and decoded past it. */
  ghost predicate Swells(setup: Setup, ms: seq<Message>, n: nat) {
    && 0 < n <= |ms| && ms[n - 1].RequestBody? && ms[n - 1].end
    && |RequestBytes(ms[..n])| <= REQUEST_BUDGET
    && DecodedBody(setup, ms[..n]).Some? && |DecodedBody(setup, ms[..n]).value| > REQUEST_BUDGET
  }

  /** The turn is over budget: on the wire, or once decoded. */
  ghost predicate OverBudget(setup: Setup, ms: seq<Message>) {
    |RequestBytes(ms)| > REQUEST_BUDGET || exists n :: Swells(setup, ms, n)
  }

  // ---------------------------------------------------------------- the state says that

  ghost predicate HeadsRead(s: Stream, ms: seq<Message>) {
    && s.provider == RequestHead(ms).provider && s.verb == RequestHead(ms).verb
    && s.path == RequestHead(ms).path && s.requestEncoding == RequestHead(ms).encoding
    && (s.status, s.contentType, s.contentEncoding) == ResponseHead(ms)
    && s.respBuf == ResponseBytes(ms)
  }

  lemma ConcatSnoc(chunks: seq<Bytes>, chunk: Bytes)
    ensures Concat(chunks + [chunk]) == Concat(chunks) + chunk
  {
    assert (chunks + [chunk])[..|chunks|] == chunks;
  }

  lemma FeedHeads(setup: Setup, s: Stream, rest: seq<Message>, m: Message, elapsedNs: int)
    requires HeadsRead(s, rest)
    ensures HeadsRead(Feed(setup, s, m, elapsedNs), rest + [m])
  {
    hide EndOfResponse, DecodedRequest, Concat;
    var ms := rest + [m];
    assert ms[..|rest|] == rest;
    assert ResponseChunks(ms) == if m.ResponseBody? then ResponseChunks(rest) + [m.chunk] else ResponseChunks(rest);
    if m.ResponseBody? { ConcatSnoc(ResponseChunks(rest), m.chunk); }
  }

  /** The stream's fields are the last headers of each side, and the response buffer is the
      concatenation of the response chunks in the order they came. */
  lemma {:induction false} StateReadsMessages(setup: Setup, clock: nat -> int, ms: seq<Message>)
    ensures HeadsRead(After(setup, clock, ms), ms)
  {
    if ms == [] {
      NoChunks();
    } else {
      hide HeadsRead, Feed;
      var rest, m := ms[..|ms| - 1], ms[|ms| - 1];
      StateReadsMessages(setup, clock, rest);
      FeedHeads(setup, After(setup, clock, rest), rest, m, clock(|ms| - 1));
      assert ms == rest + [m];
    }
  }

  /** The request side: while within budget, everything sent is buffered, and the decoded
      request is the decode of what had been sent when the request last ended. */
  ghost predicate RequestRead(setup: Setup, s: Stream, ms: seq<Message>) {
    && (s.reqOverBudget <==> OverBudget(setup, ms))
    && (!s.reqOverBudget ==>
          && s.reqBuf == RequestBytes(ms)
          && var n := LastRequestEnd(ms);
             if n == 0 then s.decodedReq == [] && !s.requestDecodeErr
             else
               && s.requestDecodeErr == DecodedBody(setup, ms[..n]).None?
               && s.decodedReq == (if s.requestDecodeErr then [] else DecodedBody(setup, ms[..n]).value))
  }

  lemma OneMoreByte(rest: seq<Message>, m: Message)
    ensures RequestBytes(rest + [m]) == RequestBytes(rest) + (if m.RequestBody? then m.chunk else [])
  {
    hide Concat;
    var ms := rest + [m];
    assert ms[..|rest|] == rest;
    assert Chunks(ms) == if m.RequestBody? then Chunks(rest) + [m.chunk] else Chunks(rest);
    if m.RequestBody? { ConcatSnoc(Chunks(rest), m.chunk); }
  }

  lemma SwellsLater(setup: Setup, rest: seq<Message>, m: Message)
    ensures (exists n :: Swells(setup, rest + [m], n)) <==>
              (exists n :: Swells(setup, rest, n)) || Swells(setup, rest + [m], |rest| + 1)
  {
    hide DecodedBody, RequestBytes;
    var ms := rest + [m];
    forall n: nat | n <= |rest| ensures Swells(setup, ms, n) <==> Swells(setup, rest, n) {
      assert ms[..n] == rest[..n];
    }
  }

  lemma OverBudgetMore(setup: Setup, rest: seq<Message>, m: Message)
    ensures OverBudget(setup, rest + [m]) <==>
              || OverBudget(setup, rest)
              || |RequestBytes(rest + [m])| > REQUEST_BUDGET
              || Swells(setup, rest + [m], |rest| + 1)
  {
    hide DecodedBody, RequestBytes;
    OneMoreByte(rest, m);
    SwellsLater(setup, rest, m);
  }

  /** What one chunk of the request does, against everything sent so far. */
  lemma ChunkRead(setup: Setup, s: Stream, rest: seq<Message>, m: Message)
    requires RequestRead(setup, s, rest) && m.RequestBody? && s.requestEncoding == RequestHead(rest).encoding
    ensures RequestRead(setup, TakeRequestChunk(setup, s, m.chunk, m.end), rest + [m])
  {
    hide Decode, RequestBytes, OverBudget, Swells;
    var ms, t := rest + [m], TakeRequestChunk(setup, s, m.chunk, m.end);
    assert ms[..|rest|] == rest && ms[..|ms|] == ms;
    OneMoreByte(rest, m);
    OverBudgetMore(setup, rest, m);
    OverBudgetSize(setup, rest);
    SwellsHere(setup, rest, m);
    assert RequestHead(ms) == RequestHead(rest);
    EndBefore(rest);
    assert !m.end ==> LastRequestEnd(ms) == LastRequestEnd(rest);
    assert m.end ==> LastRequestEnd(ms) == |ms|;
    assert ms[..LastRequestEnd(rest)] == rest[..LastRequestEnd(rest)];
  }

  lemma OverBudgetSize(setup: Setup, ms: seq<Message>)
    ensures |RequestBytes(ms)| > REQUEST_BUDGET ==> OverBudget(setup, ms)
  {
  }

  lemma EndBefore(ms: seq<Message>)
    ensures LastRequestEnd(ms) <= |ms|
  {
  }

  lemma SwellsHere(setup: Setup, rest: seq<Message>, m: Message)
    ensures var ms := rest + [m];
            Swells(setup, ms, |ms|) <==>
              && m.RequestBody? && m.end && |RequestBytes(ms)| <= REQUEST_BUDGET
              && DecodedBody(setup, ms).Some? && |DecodedBody(setup, ms).value| > REQUEST_BUDGET
  {
    assert (rest + [m])[..|rest| + 1] == rest + [m];
  }

  lemma OtherRead(setup: Setup, s: Stream, rest: seq<Message>, m: Message, elapsedNs: int)
    requires RequestRead(setup, s, rest) && !m.RequestBody?
    ensures RequestRead(setup, Feed(setup, s, m, elapsedNs), rest + [m])
  {
    hide Decode, RequestBytes, OverBudget, Swells, EndOfResponse, DecodedBody;
    var ms := rest + [m];
    assert ms[..|rest|] == rest;
    OneMoreByte(rest, m);
    OverBudgetMore(setup, rest, m);
    OverBudgetSize(setup, rest);
    SwellsHere(setup, rest, m);
    assert LastRequestEnd(ms) == LastRequestEnd(rest);
    assert ms[..LastRequestEnd(rest)] == rest[..LastRequestEnd(rest)];
  }

  lemma {:induction false} RequestReadsMessages(setup: Setup, clock: nat -> int, ms: seq<Message>)
    ensures RequestRead(setup, After(setup, clock, ms), ms)
  {
    if ms == [] {
      NoChunks();
    } else {
      var rest, m := ms[..|ms| - 1], ms[|ms| - 1];
      RequestReadsMessages(setup, clock, rest);
      StateReadsMessages(setup, clock, rest);
      hide RequestRead, TakeRequestChunk;
      assert ms == rest + [m];
      if m.RequestBody? {
        ChunkRead(setup, After(setup, clock, rest), rest, m);
      } else {
        OtherRead(setup, After(setup, clock, rest), rest, m, clock(|ms| - 1));
      }
    }
  }

  // ---------------------------------------------------------------- the envelope

  /** The reply of the reducer on some bytes, its usage present and stamped with the time the
      turn took. */
  ghost predicate RepliesWith(setup: Setup, provider: string, body: Bytes, encoding: string, contentType: string, elapsedNs: int,
                              reply: Option<Reply>) {
    match Decode(setup.codec.reader, body, encoding)
    case None => false
    case Some(d) =>
      match setup.codec.reduce(provider, d.body, contentType)
      case None => false
      case Some(None) => reply == None
      case Some(Some(r)) =>
        && reply.Some? && reply.value.usage.Some? && reply.value.usage.value.durationNs == elapsedNs
        && reply.value.(usage := r.usage) == r
        && (r.usage.Some? ==> reply.value.usage.value.(durationNs := r.usage.value.durationNs) == r.usage.value)
        && (r.usage.None? ==> reply.value.usage.value.(durationNs := 0) == NO_USAGE)
  }

  /** A reducer reads the wire format of the endpoint that was asked. */
  predicate Reducible(provider: string, endpoint: string) {
    || (provider == "anthropic" && endpoint == "messages")
    || (provider == "openai" && endpoint == "responses")
  }

  /** The envelope of a turn whose messages were p: the whole request, decoded; the reply of
      the reducer on the whole response; and the response bytes themselves, untouched, when
      the mode wants them and they fit. */
  ghost predicate Carries(setup: Setup, p: seq<Message>, elapsedNs: int, e: Envelope) {
    var h, r, body := RequestHead(p), ResponseHead(p), ResponseBytes(p);
    var ended := LastRequestEnd(p);
    && r.0 == 200 && body != [] && !OverBudget(setup, p)
    && setup.isTurn(h.verb, h.path) && Reducible(h.provider, setup.endpoint(h.path))
    && e.provider == h.provider && e.meta == Meta(r.1, elapsedNs, Absent, Absent)
    && (if ended == 0 then e.request == []
        else DecodedBody(setup, p[..ended]).Some? && e.request == DecodedBody(setup, p[..ended]).value)
    && (exists reply :: RepliesWith(setup, h.provider, body, r.2, r.1, elapsedNs, reply) && Half(setup.mode, body, r.2, e, reply))
  }

  /** Which halves are aboard: bytes never in off mode, otherwise whenever they fit; the
      reduction always, save in raw mode with the bytes aboard. */
  ghost predicate Half(mode: Mode, body: Bytes, encoding: string, e: Envelope, reply: Option<Reply>) {
    var room := MAX_INGEST_BODY - |e.request| - ENVELOPE_RESERVE;
    var aboard := mode != Off && Base64Len(|body|) <= room;
    && e.raw == (if aboard then body else []) && e.encoding == (if aboard then encoding else "")
    && (e.withheld <==> mode != Off && !aboard)
    && (if aboard && mode == Raw then e.response == None && e.fallback == reply else e.response == reply && e.fallback == None)
  }

  lemma PackMeans(mode: Mode, t: Captured)
    requires t.bytes != []
    ensures Half(mode, t.bytes, t.encoding, Pack(mode, t), t.reply)
    ensures var e := Pack(mode, t); e.provider == t.provider && e.request == t.request && e.meta == t.meta
  {
    assert Base64Len(|t.bytes|) > 0;
  }

  lemma VerdictCarries(setup: Setup, s: Stream, p: seq<Message>, elapsedNs: int)
    requires HeadsRead(s, p) && RequestRead(setup, s, p) && s.status == 200
    requires Verdict(setup, s, elapsedNs).Dispatched?
    ensures Carries(setup, p, elapsedNs, Verdict(setup, s, elapsedNs).envelope)
  {
    hide Decode, Pack, OverBudget, DecodedBody, LastRequestEnd, ResponseBytes, RequestBytes, RequestHead, ResponseHead, Half;
    var d := ResponseOf(setup, s).value;
    var reply := setup.codec.reduce(s.provider, d.body, s.contentType).value;
    var t := CapturedTurn(s, reply, elapsedNs);
    PackMeans(setup.mode, t);
    assert RepliesWith(setup, s.provider, s.respBuf, s.contentEncoding, s.contentType, elapsedNs, t.reply);
  }

  /** Where an outcome of the stream was decided: at a response end, or at the close. */
  ghost predicate DecidedAt(ms: seq<Message>, n: nat) {
    n <= |ms| && (n == |ms| || (n > 0 && ms[n - 1].ResponseBody? && ms[n - 1].end))
  }

  ghost predicate CarriedFrom(setup: Setup, clock: nat -> int, ms: seq<Message>, e: Envelope) {
    exists n: nat, elapsedNs :: DecidedAt(ms, n) && Carries(setup, ms[..n], elapsedNs, e)
                                && (elapsedNs == clock(n) || (n > 0 && elapsedNs == clock(n - 1)))
  }

  /** Everything dispatched while messages come in was decided at a response end. */
  ghost predicate AtAnEnd(setup: Setup, clock: nat -> int, ms: seq<Message>, e: Envelope) {
    exists n: nat :: 0 < n <= |ms| && ms[n - 1].ResponseBody? && ms[n - 1].end && Carries(setup, ms[..n], clock(n - 1), e)
  }

  lemma {:induction false} DispatchedAtEnds(setup: Setup, clock: nat -> int, ms: seq<Message>, e: Envelope)
    requires Dispatched(e) in After(setup, clock, ms).outcomes
    ensures AtAnEnd(setup, clock, ms, e)
  {
    if ms != [] {
      var rest, m := ms[..|ms| - 1], ms[|ms| - 1];
      var s := After(setup, clock, rest);
      FeedOutcomes(setup, s, m, clock(|ms| - 1));
      if Dispatched(e) in s.outcomes {
        DispatchedAtEnds(setup, clock, rest, e);
        AtEarlierEnd(setup, clock, ms, e);
      } else {
        DispatchedHere(setup, clock, ms, e);
      }
    }
  }

  lemma AtEarlierEnd(setup: Setup, clock: nat -> int, ms: seq<Message>, e: Envelope)
    requires ms != [] && AtAnEnd(setup, clock, ms[..|ms| - 1], e)
    ensures AtAnEnd(setup, clock, ms, e)
  {
    hide Carries;
    var rest := ms[..|ms| - 1];
    var n :| 0 < n <= |rest| && rest[n - 1].ResponseBody? && rest[n - 1].end && Carries(setup, rest[..n], clock(n - 1), e);
    assert ms[..n] == rest[..n];
  }

  lemma DispatchedHere(setup: Setup, clock: nat -> int, ms: seq<Message>, e: Envelope)
    requires ms != [] && ms[|ms| - 1].ResponseBody? && ms[|ms| - 1].end
    requires var t := After(setup, clock, ms); t.status == 200 && Dispatched(e) == Verdict(setup, t, clock(|ms| - 1))
    ensures AtAnEnd(setup, clock, ms, e)
  {
    StateReadsMessages(setup, clock, ms);
    RequestReadsMessages(setup, clock, ms);
    hide Carries, HeadsRead, RequestRead, Verdict, After;
    VerdictCarries(setup, After(setup, clock, ms), ms, clock(|ms| - 1));
    assert ms[..|ms|] == ms;
  }

  /** A message adds an outcome only at a response end, and a dispatch only as the verdict on
      the state it leaves. */
  lemma FeedOutcomes(setup: Setup, s: Stream, m: Message, elapsedNs: int)
    ensures var t := Feed(setup, s, m, elapsedNs);
            forall o | o in t.outcomes && o !in s.outcomes ::
              m.ResponseBody? && m.end && (o.Dispatched? ==> t.status == 200 && o == Verdict(setup, t, elapsedNs))
  {
    hide DecodedRequest, Verdict;
    if m.ResponseBody? && m.end {
      var t := Feed(setup, s, m, elapsedNs);
      VerdictFields(setup, s.(respBuf := s.respBuf + m.chunk), t, elapsedNs);
    }
  }

  lemma VerdictFields(setup: Setup, s: Stream, t: Stream, elapsedNs: int)
    requires t == s.(respEnded := t.respEnded, outcomes := t.outcomes)
    ensures Verdict(setup, s, elapsedNs) == Verdict(setup, t, elapsedNs)
  {
    hide Decode, Pack;
  }

  /** Every envelope a stream dispatches carries the whole turn, as the messages had it when
      it was decided. */
  lemma DispatchedCarriesTheTurn(setup: Setup, clock: nat -> int, ms: seq<Message>, e: Envelope)
    requires Dispatched(e) in Processed(setup, clock, ms).outcomes
    ensures CarriedFrom(setup, clock, ms, e)
  {
    var s := After(setup, clock, ms);
    if Dispatched(e) in s.outcomes {
      DispatchedAtEnds(setup, clock, ms, e);
      hide Carries;
      var n :| 0 < n <= |ms| && ms[n - 1].ResponseBody? && ms[n - 1].end && Carries(setup, ms[..n], clock(n - 1), e);
      assert DecidedAt(ms, n);
    } else {
      StateReadsMessages(setup, clock, ms);
      RequestReadsMessages(setup, clock, ms);
      hide Carries, HeadsRead, RequestRead, Verdict, After;
      VerdictCarries(setup, s, ms, clock(|ms|));
      assert ms[..|ms|] == ms && DecidedAt(ms, |ms|);
    }
  }

  // ---------------------------------------------------------------- what is not dispatched

  /** The verdict's refusals, read off the messages: the first reason of the list, a turn over
      budget before all. */
  ghost predicate RefusedFor(setup: Setup, p: seq<Message>, r: DropReason) {
    var h, body := RequestHead(p), ResponseBytes(p);
    var head := ResponseHead(p);
    var ended := LastRequestEnd(p);
    var shed := OverBudget(setup, p);
    var notTurn := !setup.isTurn(h.verb, h.path);
    var unread := ended > 0 && DecodedBody(setup, p[..ended]).None?;
    var unserved := !Reducible(h.provider, setup.endpoint(h.path));
    var decoded := Decode(setup.codec.reader, body, head.2);
    match r
    case RequestOverBudget => shed
    case NonTurnRequest => !shed && notTurn
    case RequestDecode => !shed && !notTurn && unread
    case EmptyResponse => !shed && !notTurn && !unread && body == []
    case UnknownProvider => !shed && !notTurn && !unread && body != [] && unserved
    case ResponseDecode => !shed && !notTurn && !unread && body != [] && !unserved && decoded.None?
    case ReducerError =>
      !shed && !notTurn && !unread && body != [] && !unserved && decoded.Some?
      && setup.codec.reduce(h.provider, decoded.value.body, head.1).None?
    case _ => false
  }

  lemma VerdictRefuses(setup: Setup, s: Stream, p: seq<Message>, elapsedNs: int, r: DropReason)
    requires HeadsRead(s, p) && RequestRead(setup, s, p)
    ensures Verdict(setup, s, elapsedNs) == Dropped(r) <==> RefusedFor(setup, p, r)
  {
    hide Decode, Pack, OverBudget, DecodedBody, LastRequestEnd, ResponseBytes, RequestBytes, RequestHead, ResponseHead;
    if !s.reqOverBudget {
      var n := LastRequestEnd(p);
      EndBefore(p);
      assert n > 0 ==> s.requestDecodeErr == DecodedBody(setup, p[..n]).None?;
    }
  }

  lemma CloseAdds(setup: Setup, s: Stream, elapsedNs: int)
    requires !s.respEnded && s.outcomes == []
    ensures Close(setup, s, elapsedNs).outcomes
         == if s.respBuf == [] then (if s.reqEnded then [Dropped(UpstreamNoResponse)] else [])
            else if s.reqEnded && s.status == 200 then [Verdict(setup, s, elapsedNs)]
            else [Dropped(ClientDisconnect)]
  {
    hide Verdict;
  }

  lemma EndAdds(setup: Setup, s: Stream, chunk: Bytes, elapsedNs: int)
    requires s.outcomes == []
    ensures var t := Feed(setup, s, ResponseBody(chunk, true), elapsedNs);
            t.outcomes == if t.status == 0 then [Dropped(MissingStatus)]
                          else if t.status == 200 then [Verdict(setup, t, elapsedNs)]
                          else [Dropped(UpstreamStatus)]
    ensures forall at :: Close(setup, Feed(setup, s, ResponseBody(chunk, true), elapsedNs), at).outcomes
                         == Feed(setup, s, ResponseBody(chunk, true), elapsedNs).outcomes
  {
    VerdictFields(setup, s.(respBuf := s.respBuf + chunk), Feed(setup, s, ResponseBody(chunk, true), elapsedNs), elapsedNs);
    hide Verdict;
  }

  /** The outcomes of a stream decided by the verdict on its messages. */
  ghost predicate Judged(setup: Setup, p: seq<Message>, os: seq<Terminal>) {
    |os| == 1 && forall r :: os[0] == Dropped(r) <==> RefusedFor(setup, p, r)
  }

  lemma VerdictJudges(setup: Setup, clock: nat -> int, p: seq<Message>, elapsedNs: int)
    ensures Judged(setup, p, [Verdict(setup, After(setup, clock, p), elapsedNs)])
  {
    StateReadsMessages(setup, clock, p);
    RequestReadsMessages(setup, clock, p);
    hide After, RequestRead, HeadsRead, RefusedFor, Verdict;
    forall r ensures Verdict(setup, After(setup, clock, p), elapsedNs) == Dropped(r) <==> RefusedFor(setup, p, r) {
      VerdictRefuses(setup, After(setup, clock, p), p, elapsedNs, r);
    }
  }

  /** What a stream that never ended its response ends with, read off the messages. */
  lemma EarlyCloseMeans(setup: Setup, clock: nat -> int, ms: seq<Message>)
    requires Ends(ms) == 0
    ensures var os, body := Processed(setup, clock, ms).outcomes, ResponseBytes(ms);
            if body == [] then os == (if RequestEnded(ms) then [Dropped(UpstreamNoResponse)] else [])
            else if RequestEnded(ms) && ResponseHead(ms).0 == 200 then Judged(setup, ms, os)
            else os == [Dropped(ClientDisconnect)]
  {
    AfterMeans(setup, clock, ms);
    StateReadsMessages(setup, clock, ms);
    VerdictJudges(setup, clock, ms, clock(|ms|));
    hide After, Close, Verdict, Judged, ResponseBytes, ResponseHead, Ends, RequestEnded;
    CloseAdds(setup, After(setup, clock, ms), clock(|ms|));
  }

  /** And what one whose response ended ends with, at that end. */
  lemma ResponseEndMeans(setup: Setup, clock: nat -> int, rest: seq<Message>, chunk: Bytes)
    requires Ends(rest) == 0
    ensures var ms := rest + [ResponseBody(chunk, true)];
            var os, status := Processed(setup, clock, ms).outcomes, ResponseHead(ms).0;
            if status == 0 then os == [Dropped(MissingStatus)]
            else if status != 200 then os == [Dropped(UpstreamStatus)]
            else Judged(setup, ms, os)
  {
    var ms := rest + [ResponseBody(chunk, true)];
    assert ms[..|rest|] == rest;
    AfterMeans(setup, clock, rest);
    StateReadsMessages(setup, clock, ms);
    VerdictJudges(setup, clock, ms, clock(|rest|));
    assert After(setup, clock, ms) == Feed(setup, After(setup, clock, rest), ResponseBody(chunk, true), clock(|rest|));
    hide After, Close, Feed, Verdict, Judged, ResponseBytes, ResponseHead, Ends, RequestEnded;
    EndAdds(setup, After(setup, clock, rest), chunk, clock(|rest|));
  }
}
