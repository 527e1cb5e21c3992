/** What ingest stores for a posted envelope, and why the three raw-response modes store the
    same reduction. */
module Ingest {
  import opened Llm
  import opened ContentEncoding
  import opened RawLane

  /** Shared by both sides: the codec readers, and one reducer per provider. A reducer fails
      (None), or returns a response that may be nil. */
  datatype Codec = Codec(reader: Reader, reduce: (string, Bytes, string) -> Option<Option<Reply>>)

  datatype Row = Row(request: Bytes, response: Option<Reply>, raw: Bytes, encoding: string, dropped: bool)

  predicate HasReducer(provider: string) {
    provider == "anthropic" || provider == "openai"
  }

  const MAX_ELAPSED_NS := 7 * 24 * 60 * 60 * 1_000_000_000

  predicate UsableElapsed(ns: int) {
    0 < ns <= MAX_ELAPSED_NS
  }

  function UsageOf(r: Reply): Usage {
    if r.usage.Some? then r.usage.value else NO_USAGE
  }

  /** stampDuration */
  function StampedDuration(r: Reply, meta: Meta): Reply {
    if UsableElapsed(meta.elapsedNs) then r.(usage := Some(UsageOf(r).(durationNs := meta.elapsedNs))) else r
  }

  /** stampCaptureTime: the completion instant, else the request instant plus the duration. */
  function StampedTime(r: Reply, meta: Meta): Reply {
    match meta.capturedAt
    case At(t) => r.(createdAt := t)
    case _ =>
      match meta.tsRequest
      case At(t) => r.(createdAt := if UsableElapsed(meta.elapsedNs) then t + meta.elapsedNs else t)
      case _ => r
  }

  /** ReduceStoredRawTurn */
  function ReduceStored(codec: Codec, e: Envelope): Option<Reply> {
    if !HasReducer(e.provider) then None
    else
      match Decode(codec.reader, e.raw, e.encoding)
      case None => None
      case Some(d) =>
        match codec.reduce(e.provider, d.body, e.meta.contentType)
        case Some(Some(r)) => Some(StampedTime(StampedDuration(r, e.meta), e.meta))
        case _ => None
  }

  /** ReducedResponseAbsent, on the wire value: an absent response and a zero one are one. */
  predicate ResponseAbsent(r: Option<Reply>) {
    r.None? || (r.value.model == "" && r.value.role == "" && r.value.content == [] && !r.value.done
                && r.value.stopReason == "" && r.value.usage.None?)
  }

  /** reduceRawOnly: the reduction computed here, if there was one to compute. */
  function ReducedHere(codec: Codec, e: Envelope): Option<Reply> {
    if e.raw == [] || !ResponseAbsent(e.response) then None else ReduceStored(codec, e)
  }

  /** handleIngest up to the raw-layer write. */
  function Stored(codec: Codec, e: Envelope): Row {
    var reduced := ReducedHere(codec, e);
    var raw := if |e.raw| > MAX_RAW_RESPONSE then [] else e.raw;
    Row(e.request, if reduced.Some? then reduced else e.response, raw, e.encoding,
        |e.raw| > MAX_RAW_RESPONSE || (e.withheld && raw == []))
  }

  method ReduceRawOnly(codec: Codec, e: Envelope) returns (response: Option<Reply>)
    ensures response == if ReducedHere(codec, e).Some? then ReducedHere(codec, e) else e.response
  {
    response := e.response;
    if |e.raw| == 0 { return; }
    if !ResponseAbsent(e.response) { return; }
    if e.provider != "anthropic" && e.provider != "openai" { return; }
    var decoded := DecodeContentEncoding(codec.reader, e.raw, e.encoding);
    if decoded.None? { return; }
    var reduced := codec.reduce(e.provider, decoded.value.body, e.meta.contentType);
    if reduced.None? || reduced.value.None? { return; }
    var r := reduced.value.value;
    if 0 < e.meta.elapsedNs <= MAX_ELAPSED_NS {
      if r.usage.None? { r := r.(usage := Some(NO_USAGE)); }
      r := r.(usage := Some(r.usage.value.(durationNs := e.meta.elapsedNs)));
    }
    if e.meta.capturedAt.At? {
      r := r.(createdAt := e.meta.capturedAt.ns);
    } else if e.meta.tsRequest.At? {
      var requested := e.meta.tsRequest.ns;
      if 0 < e.meta.elapsedNs <= MAX_ELAPSED_NS { requested := requested + e.meta.elapsedNs; }
      r := r.(createdAt := requested);
    }
    response := Some(r);
  }

  /** persistRawTurn */
  method PersistRawTurn(e: Envelope, response: Option<Reply>) returns (row: Row)
    ensures row.request == e.request && row.response == response && row.encoding == e.encoding
    ensures row.raw == if |e.raw| > MAX_RAW_RESPONSE then [] else e.raw
    ensures row.dropped <==> |e.raw| > MAX_RAW_RESPONSE || (e.withheld && row.raw == [])
  {
    var rawResponse, dropped := e.raw, false;
    if |rawResponse| > MAX_RAW_RESPONSE {
      rawResponse, dropped := [], true;
    }
    if e.withheld && |rawResponse| == 0 { dropped := true; }
    row := Row(e.request, response, rawResponse, e.encoding, dropped);
  }

  method HandleIngest(codec: Codec, e: Envelope) returns (row: Row)
    ensures row == Stored(codec, e)
  {
    var response := ReduceRawOnly(codec, e);
    row := PersistRawTurn(e, response);
  }

  // ---------------------------------------------------------------- end to end

  /** Equal but for timestamp and duration; no usage and zero usage are one. */
  predicate SameReduction(a: Option<Reply>, b: Option<Reply>) {
    || (a.None? && b.None?)
    || (a.Some? && b.Some?
        && a.value.(usage := None, createdAt := 0) == b.value.(usage := None, createdAt := 0)
        && UsageOf(a.value).(durationNs := 0) == UsageOf(b.value).(durationNs := 0))
  }

  /** The processor's own reduction of a turn, its measured duration stamped on it. */
  function ReducedThere(codec: Codec, t: Captured): Option<Option<Reply>> {
    match Decode(codec.reader, t.bytes, t.encoding)
    case None => None
    case Some(d) =>
      match codec.reduce(t.provider, d.body, t.meta.contentType)
      case None => None
      case Some(None) => Some(None)
      case Some(Some(r)) => Some(Some(r.(usage := Some(UsageOf(r).(durationNs := t.meta.elapsedNs)))))
  }

  /** A turn as the processor posts it: it has bytes, a reducer took it, and its reply is
      that reducer's. */
  ghost predicate Postable(codec: Codec, t: Captured) {
    t.bytes != [] && HasReducer(t.provider) && ReducedThere(codec, t) == Some(t.reply)
  }

  /** Ingest accepts a body up to its limit; past it the turn does not land. */
  predicate Lands(rest: Envelope -> nat, e: Envelope) {
    Size(rest, e) <= MAX_INGEST_BODY
  }

  /** What one mode leaves in the raw layer. */
  function RowFor(codec: Codec, rest: Envelope -> nat, repacks: bool, mode: Mode, t: Captured): Row {
    Stored(codec, Posted(rest, repacks, mode, t))
  }

  /** Every mode stores the processor's reduction, up to timestamp and duration. */
  lemma StoresTheReduction(codec: Codec, rest: Envelope -> nat, repacks: bool, mode: Mode, t: Captured)
    requires Postable(codec, t)
    ensures SameReduction(RowFor(codec, rest, repacks, mode, t).response, t.reply)
  {
    hide Decode, Fits, Size;
    WithheldMeansWanted(rest, repacks, mode, t);
  }

  /** off, dual and raw store the same reduction, whatever the sizes. */
  lemma ModesAgree(codec: Codec, rest: Envelope -> nat, repacks: bool, m1: Mode, m2: Mode, t: Captured)
    requires Postable(codec, t)
    ensures SameReduction(RowFor(codec, rest, repacks, m1, t).response, RowFor(codec, rest, repacks, m2, t).response)
  {
    hide RowFor;
    StoresTheReduction(codec, rest, repacks, m1, t);
    StoresTheReduction(codec, rest, repacks, m2, t);
  }

  /** Stored bytes are the captured ones, under the captured encoding, and a row is marked
      dropped exactly when its mode wanted bytes and none are stored. */
  lemma BytesAreVerbatimOrMarked(codec: Codec, rest: Envelope -> nat, repacks: bool, mode: Mode, t: Captured)
    requires Postable(codec, t)
    ensures var row := RowFor(codec, rest, repacks, mode, t);
            && (row.raw != [] ==> row.raw == t.bytes && row.encoding == t.encoding)
            && (row.dropped <==> mode != Off && row.raw == [])
            && row.request == t.request
  {
    hide Decode, Fits, Size, ReducedHere;
    WithheldMeansWanted(rest, repacks, mode, t);
  }

  /** Landing is decided on the posted envelope: within the reserve every turn the processor
      lets through lands, in every mode. */
  lemma WithinReserveLands(rest: Envelope -> nat, repacks: bool, mode: Mode, t: Captured)
    requires |t.request| <= REQUEST_BUDGET && rest(Pack(mode, t)) <= ENVELOPE_RESERVE
    ensures Lands(rest, Posted(rest, repacks, mode, t))
  {
    ReserveSuffices(rest, mode, t, repacks);
  }

  /** The reduction is never lost: a row has one exactly when the reducer returned one. */
  lemma RowHasReduction(codec: Codec, rest: Envelope -> nat, repacks: bool, mode: Mode, t: Captured)
    requires Postable(codec, t)
    ensures RowFor(codec, rest, repacks, mode, t).response.Some? <==> t.reply.Some?
  {
    hide RowFor;
    StoresTheReduction(codec, rest, repacks, mode, t);
  }

  /** In every mode that wants them, bytes within the storage cap are stored, unmarked. */
  lemma StorableBytesAreStored(codec: Codec, rest: Envelope -> nat, repacks: bool, mode: Mode, t: Captured)
    requires Postable(codec, t) && mode != Off
    requires |t.bytes| <= MAX_RAW_RESPONSE && |t.request| <= MAX_DECODED_REQUEST && rest(Pack(mode, t)) <= ENVELOPE_RESERVE
    ensures var row := RowFor(codec, rest, repacks, mode, t); row.raw == t.bytes && row.encoding == t.encoding && !row.dropped
  {
    hide Posted;
    StorableBytesGoAboard(rest, repacks, mode, t);
    BytesAreVerbatimOrMarked(codec, rest, repacks, mode, t);
  }

  // ---------------------------------------------------------------- who reduces, and when

  /** An absent response is none or the zero one, whatever its timestamp. */
  lemma AbsentIsZero(r: Option<Reply>)
    ensures ResponseAbsent(r) <==> r.None? || r.value.(createdAt := 0) == Reply("", "", [], "", false, None, 0)
  {
  }

  /** A reduction that came with the envelope is stored untouched: only a bytes-only envelope
      is reduced here. */
  lemma CarriedReductionIsStored(codec: Codec, e: Envelope)
    requires e.raw == [] || (e.response.Some? && e.response.value.(createdAt := 0) != Reply("", "", [], "", false, None, 0))
    ensures Stored(codec, e).response == e.response
  {
  }

  /** Instants of a row reduced here: the completion stamp, else the request stamp and the
      measured duration, else the reducer's own; and a measured duration within bounds. */
  lemma ReducedHereIsDated(codec: Codec, e: Envelope, d: Decoded, r: Reply)
    requires e.raw != [] && ResponseAbsent(e.response) && HasReducer(e.provider)
    requires Decode(codec.reader, e.raw, e.encoding) == Some(d) && codec.reduce(e.provider, d.body, e.meta.contentType) == Some(Some(r))
    ensures var took := e.meta.elapsedNs;
            var bounded := 0 < took <= 7 * 24 * 3600 * 1000_000_000;
            && Stored(codec, e).response.Some?
            && var s := Stored(codec, e).response.value;
               && (e.meta.capturedAt.At? ==> s.createdAt == e.meta.capturedAt.ns)
               && (!e.meta.capturedAt.At? && e.meta.tsRequest.At? ==> s.createdAt == e.meta.tsRequest.ns + if bounded then took else 0)
               && (!e.meta.capturedAt.At? && !e.meta.tsRequest.At? ==> s.createdAt == r.createdAt)
               && (bounded ==> s.usage.Some? && s.usage.value.durationNs == took)
               && (!bounded ==> s.usage == r.usage)
  {
    hide Decode;
  }

  /** With a duration within bounds, every mode stores the one the processor measured. */
  lemma ModesAgreeOnDuration(codec: Codec, rest: Envelope -> nat, repacks: bool, mode: Mode, t: Captured)
    requires Postable(codec, t) && t.reply.Some? && UsableElapsed(t.meta.elapsedNs)
    ensures var row := RowFor(codec, rest, repacks, mode, t);
            row.response.Some? && row.response.value.usage.Some? && row.response.value.usage.value.durationNs == t.meta.elapsedNs
  {
    hide Decode, Fits, Size;
    WithheldMeansWanted(rest, repacks, mode, t);
  }
}
