/** The envelope one captured turn is posted in: which of the reduction and the verbatim
    bytes it carries, and the size backstop that strips the bytes. */
module RawLane {
  import opened Llm
  import opened ContentEncoding

  datatype Mode = Off | Dual | Raw

  const MAX_RAW_RESPONSE := 8 * 1024 * 1024
  const MAX_DECODED_REQUEST := 32 * 1024 * 1024
  const MAX_INGEST_BODY := MAX_DECODED_REQUEST + MAX_RAW_RESPONSE * 4 / 3 + 4 * 1024 * 1024
  const ENVELOPE_RESERVE := 1024 * 1024
  const REQUEST_BUDGET := MAX_INGEST_BODY - ENVELOPE_RESERVE

  const TRANSPORT_BUDGET := "transport_budget"
  const ENCODING_FALLBACK := "encoding_not_decodable"

  /** llm.ChatResponse, as far as storage compares it. */
  datatype Reply = Reply(
    model: string,
    role: string,
    content: seq<ContentBlock>,
    stopReason: string,
    done: bool,
    usage: Option<Usage>,
    createdAt: int)

  /** A capture-side timestamp as it parses. */
  datatype Stamp = Absent | Malformed | At(ns: int)

  datatype Meta = Meta(contentType: string, elapsedNs: int, capturedAt: Stamp, tsRequest: Stamp)

  /** raw empty means the envelope carries no bytes; fallback never reaches the wire. */
  datatype Envelope = Envelope(
    provider: string,
    request: Bytes,
    response: Option<Reply>,
    raw: Bytes,
    encoding: string,
    withheld: bool,
    meta: Meta,
    fallback: Option<Reply>)

  datatype Decision = Decision(attachRaw: bool, omitReduction: bool, skipReason: string, fallbackReason: string)

  /** Standard padded base64, section 4 of RFC 4648. */
  function Base64Len(n: nat): nat {
    ((n + 2) / 3) * 4
  }

  /** rawResponseFits */
  predicate Fits(rawLen: nat, reqLen: nat) {
    var budget := MAX_INGEST_BODY - reqLen - ENVELOPE_RESERVE;
    budget > 0 && Base64Len(rawLen) <= budget
  }

  /** decideRawLane */
  function Decide(mode: Mode, rawLen: nat, reqLen: nat, ingestCanDecode: bool): Decision {
    if mode == Off then Decision(false, false, "", "")
    else if !Fits(rawLen, reqLen) then Decision(false, false, TRANSPORT_BUDGET, "")
    else if mode != Raw then Decision(true, false, "", "")
    else if !ingestCanDecode then Decision(true, false, "", ENCODING_FALLBACK)
    else Decision(true, true, "", "")
  }

  /** What the processor knows of a turn it is about to post. */
  datatype Captured = Captured(provider: string, request: Bytes, reply: Option<Reply>, bytes: Bytes, encoding: string, meta: Meta)

  /** The tail of dispatchTurn. The bytes were decoded here already, by the decoder ingest
      will run on the same pair. */
  function Pack(mode: Mode, t: Captured): Envelope {
    var d := Decide(mode, |t.bytes|, |t.request|, true);
    Envelope(t.provider, t.request, if d.omitReduction then None else t.reply,
             if d.attachRaw then t.bytes else [], if d.attachRaw then t.encoding else "",
             d.skipReason != "", t.meta, if d.omitReduction then t.reply else None)
  }

  /** The marshalled size: the request, the bytes in base64, and a remainder that may depend
      on everything else. */
  function Size(rest: Envelope -> nat, e: Envelope): nat {
    |e.request| + Base64Len(|e.raw|) + rest(e)
  }

  function Stripped(e: Envelope): Envelope {
    e.(raw := [], encoding := "", withheld := true, response := if e.response.None? then e.fallback else e.response)
  }

  /** enforceBodyLimit; repacks is false when the stripped envelope fails to marshal. */
  function Limited(rest: Envelope -> nat, repacks: bool, e: Envelope): Envelope {
    if Size(rest, e) <= MAX_INGEST_BODY || e.raw == [] || !repacks then e else Stripped(e)
  }

  method EnforceBodyLimit(rest: Envelope -> nat, repacks: bool, e: Envelope) returns (r: Envelope, size: nat)
    ensures r == Limited(rest, repacks, e) && size == Size(rest, r)
  {
    size := Size(rest, e);
    if size <= MAX_INGEST_BODY || |e.raw| == 0 { return e, size; }
    var stripped := e;
    stripped := stripped.(raw := []);
    stripped := stripped.(encoding := "");
    stripped := stripped.(withheld := true);
    if stripped.response.None? { stripped := stripped.(response := stripped.fallback); }
    if !repacks { return e, size; }
    r := stripped;
    size := Size(rest, stripped);
  }

  // ---------------------------------------------------------------- properties

  /** Nothing over the limit is ever posted with bytes aboard, save where the stripped
      envelope would not marshal. */
  lemma OversizeCarriesNoBytes(rest: Envelope -> nat, e: Envelope)
    ensures var r := Limited(rest, true, e); Size(rest, r) > MAX_INGEST_BODY ==> r.raw == []
  {
  }

  /** The reserve is honest: where everything but the request and the bytes fits in it, the
      estimate and the exact backstop agree, and attached bytes are never stripped. */
  lemma ReserveSuffices(rest: Envelope -> nat, mode: Mode, t: Captured, repacks: bool)
    requires rest(Pack(mode, t)) <= ENVELOPE_RESERVE
    ensures Pack(mode, t).raw != [] ==>
              Limited(rest, repacks, Pack(mode, t)) == Pack(mode, t) && Size(rest, Pack(mode, t)) <= MAX_INGEST_BODY
    ensures |t.request| <= REQUEST_BUDGET ==> Size(rest, Pack(mode, t)) <= MAX_INGEST_BODY
  {
  }

  lemma {:induction false} Base64Grows(m: nat, n: nat)
    requires m <= n
    ensures Base64Len(m) <= Base64Len(n) && 3 * Base64Len(n) >= 4 * n
  {
    assert (m + 2) / 3 <= (n + 2) / 3;
    assert ((n + 2) / 3) * 3 >= n;
  }

  /** Three bytes become four characters, the last group padded. */
  lemma Base64IsPadded(n: nat)
    ensures Base64Len(n) % 4 == 0 && 4 * n <= 3 * Base64Len(n) < 4 * n + 12
  {
  }

  /** The limits cover what they were derived from: a full decoded request together with any
      response ingest would store fits, so the storage cap is reachable. The decoder's cap
      leaves room above the request budget, so a request decoding past the budget is seen. */
  lemma LimitsAreConsistent(rawLen: nat, reqLen: nat)
    requires rawLen <= MAX_RAW_RESPONSE && reqLen <= MAX_DECODED_REQUEST
    ensures Fits(rawLen, reqLen) && REQUEST_BUDGET < MAX_DECOMPRESSED
  {
    Base64Grows(rawLen, MAX_RAW_RESPONSE);
  }

  /** The turn's bytes and reduction on the envelope that is posted. */
  function Posted(rest: Envelope -> nat, repacks: bool, mode: Mode, t: Captured): Envelope {
    Limited(rest, repacks, Pack(mode, t))
  }

  predicate LacksBoth(e: Envelope) {
    e.response.None? && e.raw == []
  }

  /** A turn with bytes and a reduction is never posted with neither. The lane itself loses
      both only for a raw-only turn with an empty body, which the processor drops before. */
  lemma NeverBothAbsent(rest: Envelope -> nat, repacks: bool, mode: Mode, t: Captured)
    ensures t.reply.Some? ==> (LacksBoth(Posted(rest, repacks, mode, t)) <==> t.bytes == [] && mode == Raw && Fits(0, |t.request|))
    ensures t.reply.None? ==> (LacksBoth(Posted(rest, repacks, mode, t)) <==> Posted(rest, repacks, mode, t).raw == [])
  {
  }

  /** The withheld marker: set exactly when the mode wanted bytes and none are aboard. */
  lemma WithheldMeansWanted(rest: Envelope -> nat, repacks: bool, mode: Mode, t: Captured)
    requires t.bytes != []
    ensures var e := Posted(rest, repacks, mode, t);
            && (e.withheld <==> mode != Off && e.raw == [])
            && (e.raw != [] ==> e.raw == t.bytes && e.encoding == t.encoding && mode != Off)
            && (e.response.Some? ==> e.response == t.reply)
            && (t.reply.Some? ==> (e.response.None? <==> mode == Raw && e.raw != []))
            && e.provider == t.provider && e.request == t.request && e.meta == t.meta
  {
  }

  /** Bytes ingest would store go aboard in every mode that wants them, and stay. */
  lemma StorableBytesGoAboard(rest: Envelope -> nat, repacks: bool, mode: Mode, t: Captured)
    requires |t.bytes| <= MAX_RAW_RESPONSE && |t.request| <= MAX_DECODED_REQUEST
    requires rest(Pack(mode, t)) <= ENVELOPE_RESERVE
    ensures Posted(rest, repacks, mode, t).raw == if mode == Off then [] else t.bytes
  {
    hide Base64Len, Size;
    LimitsAreConsistent(|t.bytes|, |t.request|);
    ReserveSuffices(rest, mode, t, repacks);
  }
}
