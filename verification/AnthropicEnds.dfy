/** How a stream's ending shows in the response, read off its events: done, incomplete and the
    stop reason, for whole, cut and failed streams. */
module AnthropicEnds {
  import opened Llm
  import opened AnthropicModel
  import opened AnthropicStream

  ghost predicate Stopped(events: seq<Event>) {
    MessageStop in events
  }

  ghost predicate HasError(events: seq<Event>) {
    exists e :: e in events && e.StreamError?
  }

  ghost predicate HasMalformed(events: seq<Event>) {
    exists e :: e in events && e.Malformed?
  }

  /** Where the last error event stands, or -1. */
  ghost function LastError(events: seq<Event>): (k: int)
    ensures -1 <= k < |events| && (k >= 0 ==> events[k].StreamError?)
    ensures forall j | k < j < |events| :: !events[j].StreamError?
  {
    if events == [] then -1
    else if events[|events| - 1].StreamError? then |events| - 1
    else LastError(events[..|events| - 1])
  }

  /** A typed failure is on record: the last error event has a type, or a malformed frame came
      when no error message was on record. */
  ghost predicate Failed(events: seq<Event>) {
    var k := LastError(events);
    || (k >= 0 && events[k].errorType != "")
    || ((k < 0 || events[k].message == "") && HasMalformed(events[k + 1..]))
  }

  /** The reason delivered last, else "error" once an error event came. */
  ghost function ReasonOf(events: seq<Event>): string {
    if LastReason(events) != "" then LastReason(events) else if HasError(events) then "error" else ""
  }

  lemma OneMoreEvent(rest: seq<Event>, e: Event)
    ensures Stopped(rest + [e]) <==> Stopped(rest) || e == MessageStop
    ensures HasError(rest + [e]) <==> HasError(rest) || e.StreamError?
    ensures HasMalformed(rest + [e]) <==> HasMalformed(rest) || e.Malformed?
    ensures LastReason(rest + [e]) == if e.MessageDelta? && e.stopReason != "" then e.stopReason else LastReason(rest)
  {
    var es := rest + [e];
    assert es[..|rest|] == rest && es[|rest|] == e;
    assert e in es && forall x | x in rest :: x in es;
  }

  lemma LastErrorMore(rest: seq<Event>, e: Event)
    ensures LastError(rest + [e]) == if e.StreamError? then |rest| else LastError(rest)
  {
    assert (rest + [e])[..|rest|] == rest;
  }

  lemma SuffixMore<T>(rest: seq<T>, e: T, k: int)
    requires -1 <= k < |rest|
    ensures (rest + [e])[k + 1..] == rest[k + 1..] + [e] && (rest + [e])[|rest| + 1..] == []
    ensures k >= 0 ==> (rest + [e])[k] == rest[k]
  {
  }

  /** What the events say about the ending: the last error event, and whether a malformed
      frame came after it. */
  datatype Ending = Ending(stopped: bool, reason: string, kind: string, message: string, malformed: bool)

  /** The last error event, and what came after it. */
  ghost function ErrorOf(events: seq<Event>): (string, string) {
    var k := LastError(events);
    if k >= 0 then (events[k].errorType, events[k].message) else ("", "")
  }

  ghost function SinceError(events: seq<Event>): seq<Event> {
    events[LastError(events) + 1..]
  }

  lemma ErrorMore(rest: seq<Event>, e: Event)
    ensures var all := rest + [e];
            if e.StreamError? then ErrorOf(all) == (e.errorType, e.message) && SinceError(all) == []
            else ErrorOf(all) == ErrorOf(rest) && SinceError(all) == SinceError(rest) + [e]
  {
    hide LastError;
    LastErrorMore(rest, e);
    SuffixMore(rest, e, LastError(rest));
    assert (rest + [e])[|rest|] == e;
  }

  ghost function EndingOf(events: seq<Event>): Ending {
    Ending(Stopped(events), ReasonOf(events), ErrorOf(events).0, ErrorOf(events).1, HasMalformed(SinceError(events)))
  }

  lemma FailedIs(events: seq<Event>)
    ensures var x := EndingOf(events); Failed(events) <==> x.kind != "" || (x.message == "" && x.malformed)
  {
  }

  ghost function NextReason(reason: string, e: Event): string {
    if e.MessageDelta? && e.stopReason != "" then e.stopReason
    else if e.StreamError? && reason == "" then "error"
    else reason
  }

  lemma EndingMore(rest: seq<Event>, e: Event)
    ensures EndingOf(rest + [e])
         == (var x := EndingOf(rest).(reason := NextReason(EndingOf(rest).reason, e));
             if e.StreamError? then x.(kind := e.errorType, message := e.message, malformed := false)
             else x.(stopped := x.stopped || e == MessageStop, malformed := x.malformed || e.Malformed?))
  {
    hide ErrorOf, SinceError, HasMalformed, Stopped, ReasonOf, NextReason;
    ErrorMore(rest, e);
    MalformedMore(SinceError(rest), e);
    assert Stopped(rest + [e]) <==> Stopped(rest) || e == MessageStop by { OneMoreEvent(rest, e); }
    assert ReasonOf(rest + [e]) == NextReason(ReasonOf(rest), e) by { ReasonMore(rest, e); }
  }

  lemma MalformedMore(rest: seq<Event>, e: Event)
    ensures HasMalformed(rest + [e]) <==> HasMalformed(rest) || e.Malformed?
    ensures !HasMalformed([])
  {
    OneMoreEvent(rest, e);
  }

  lemma ReasonMore(rest: seq<Event>, e: Event)
    ensures ReasonOf(rest + [e]) == NextReason(ReasonOf(rest), e)
  {
    hide LastReason, HasError, HasMalformed, Stopped;
    OneMoreEvent(rest, e);
  }

  ghost predicate EndState(s: Turn, x: Ending) {
    && s.seenStop == x.stopped && s.stopReason == x.reason
    && (s.errorType != "" <==> x.kind != "" || (x.message == "" && x.malformed))
    && (x.message != "" ==> s.errorMessage != "")
    && (x.message == "" && !x.malformed ==> s.errorMessage == "")
    && (!x.malformed ==> s.errorType == x.kind && s.errorMessage == x.message)
    && (x.message != "" ==> s.errorType == x.kind && s.errorMessage == x.message)
  }

  lemma StepEnds(json: Decoder, s: Turn, rest: seq<Event>, e: Event)
    requires EndState(s, EndingOf(rest))
    ensures EndState(Step(json, s, e), EndingOf(rest + [e]))
  {
    hide EndingOf;
    EndingMore(rest, e);
    if e.MessageStart? || e.BlockStart? || e.BlockDelta? || e.BlockStop? || e.Skipped? {
      KeepsEnds(json, s, e);
    }
  }

  /** Block frames and message starts leave the ending alone. */
  lemma KeepsEnds(json: Decoder, s: Turn, e: Event)
    requires e.MessageStart? || e.BlockStart? || e.BlockDelta? || e.BlockStop? || e.Skipped?
    ensures var t := Step(json, s, e);
            && t.seenStop == s.seenStop && t.stopReason == s.stopReason
            && t.errorType == s.errorType && t.errorMessage == s.errorMessage
  {
    hide Opened, Appended, Present;
  }

  lemma {:induction false} FoldEnds(json: Decoder, events: seq<Event>)
    ensures EndState(Fold(json, events), EndingOf(events))
  {
    hide EndState, Step, EndingOf;
    if events == [] {
      NothingEnded();
    } else {
      var rest, e := events[..|events| - 1], events[|events| - 1];
      FoldEnds(json, rest);
      StepEnds(json, Fold(json, rest), rest, e);
      assert events == rest + [e];
    }
  }

  lemma NothingEnded()
    ensures EndState(NEW_TURN, EndingOf([]))
  {
    assert !HasMalformed([]) && !HasError([]);
  }

  /** For every stream whatever: done exactly when message_stop came; incomplete exactly when
      neither it nor a typed failure did; and the stop reason is the last one delivered, else
      the error, else the cut. */
  lemma EndingsAreMarked(json: Decoder, events: seq<Event>)
    ensures var r := Finalize(Fold(json, events));
            && (r.done <==> Stopped(events))
            && (r.incomplete <==> !Stopped(events) && !Failed(events))
            && r.stopReason == if ReasonOf(events) != "" then ReasonOf(events) else if r.incomplete then "incomplete" else ""
  {
    FoldEnds(json, events);
    FailedIs(events);
    hide Fold, Failed;
  }

  /** The failure on record is the last error event's, unless that has no message and a
      malformed frame came after it. */
  lemma LastErrorIsOnRecord(json: Decoder, events: seq<Event>)
    requires var k := LastError(events); k >= 0 && (events[k].message != "" || !HasMalformed(events[k + 1..]))
    ensures var s, k := Fold(json, events), LastError(events);
            s.errorType == events[k].errorType && s.errorMessage == events[k].message
  {
    FoldEnds(json, events);
    hide Fold;
  }

  /** A stream of a whole message is done and unmarked, malformed frames in it or not. */
  lemma WholeStreamIsComplete(json: Decoder, events: seq<Event>, m: Message)
    requires Streams(json, events, m)
    ensures var r := Finalize(Fold(json, events)); r.done && !r.incomplete
  {
    hide Fold, Finalize, Streams, Failed, ReasonOf;
    EndingsAreMarked(json, events);
    WholeStreamStops(json, events, m);
  }

  lemma WholeStreamStops(json: Decoder, events: seq<Event>, m: Message)
    requires Streams(json, events, m)
    ensures Stopped(events)
  {
    hide TurnEvents, BlockEvents, Spells;
    var es := TurnEvents(events);
    assert es[|es| - 1] == MessageStop;
    TurnEventsArrived(events, MessageStop);
  }

  lemma {:induction false} TurnEventsArrived(events: seq<Event>, e: Event)
    requires e in TurnEvents(events)
    ensures e in events
  {
    if e != events[|events| - 1] { TurnEventsArrived(events[..|events| - 1], e); }
  }

  /** A stream cut before message_stop, with no error and no malformed frame, is incomplete and
      stops for the last reason delivered, or for being cut. */
  lemma CutStreamIsMarked(json: Decoder, events: seq<Event>)
    requires !Stopped(events) && !HasError(events) && !HasMalformed(events)
    ensures var r := Finalize(Fold(json, events));
            && r.incomplete && !r.done
            && r.stopReason == if LastReason(events) != "" then LastReason(events) else "incomplete"
  {
    hide Fold, Finalize, LastReason;
    EndingsAreMarked(json, events);
    assert events[0..] == events;
  }

  /** A stream that ends in a typed error is not a cut one, and stops for the error unless a
      reason had been delivered. */
  lemma FailedStreamSaysSo(json: Decoder, rest: seq<Event>, kind: string, message: string)
    requires kind != "" && !Stopped(rest)
    ensures var r := Finalize(Fold(json, rest + [StreamError(kind, message)]));
            && !r.incomplete && !r.done
            && r.stopReason == if LastReason(rest) != "" then LastReason(rest) else "error"
  {
    hide Fold, Finalize, LastReason;
    var e := StreamError(kind, message);
    EndingsAreMarked(json, rest + [e]);
    OneMoreEvent(rest, e);
    LastErrorMore(rest, e);
  }

  // ---------------------------------------------------------------- unparsable inputs

  /** Event k stops a tool block whose delivered input is not empty and does not parse. */
  ghost predicate StopsBadInput(json: Decoder, events: seq<Event>, k: int) {
    && 0 <= k < |events| && events[k].BlockStop?
    && var s, i := Fold(json, events[..k]), events[k].index;
       && i in s.blocks && s.blocks[i].kind in {ToolUse, ServerToolUse}
       && i in s.fragments && s.fragments[i] != "" && json(s.fragments[i]).None?
  }

  ghost function BadInputs(json: Decoder, events: seq<Event>): set<int> {
    set k | 0 <= k < |events| && StopsBadInput(json, events, k)
  }

  /** Parse failures recorded are the stops of unparsable inputs, no more and no fewer. */
  lemma {:induction false} BadInputsAreCounted(json: Decoder, events: seq<Event>)
    ensures Fold(json, events).toolInputErrors == |BadInputs(json, events)|
  {
    hide BadInputs, StopsBadInput, Step;
    if events == [] {
      NoBadInputs(json);
    } else {
      var n := |events| - 1;
      var rest := events[..n];
      BadInputsAreCounted(json, rest);
      forall k | 0 <= k < n ensures StopsBadInput(json, events, k) <==> StopsBadInput(json, rest, k) {
        StopsEarlier(json, events, k);
      }
      BadInputsMore(json, events);
      hide Fold;
      LastStops(json, events);
      StepCounts(json, Fold(json, rest), events[n]);
      FoldsOne(json, events);
    }
  }

  lemma NoBadInputs(json: Decoder)
    ensures BadInputs(json, []) == {}
  {
  }

  lemma LastStops(json: Decoder, events: seq<Event>)
    requires events != []
    ensures StopsBadInput(json, events, |events| - 1) <==> BadStep(json, Fold(json, events[..|events| - 1]), events[|events| - 1])
  {
    hide Fold;
  }

  lemma FoldsOne(json: Decoder, events: seq<Event>)
    requires events != []
    ensures Fold(json, events) == Step(json, Fold(json, events[..|events| - 1]), events[|events| - 1])
  {
    hide Step;
  }

  lemma StopsEarlier(json: Decoder, events: seq<Event>, k: int)
    requires 0 <= k < |events| - 1
    ensures StopsBadInput(json, events, k) <==> StopsBadInput(json, events[..|events| - 1], k)
  {
    hide Fold;
    assert events[..k] == events[..|events| - 1][..k];
  }

  lemma BadInputsMore(json: Decoder, events: seq<Event>)
    requires events != []
    requires forall k | 0 <= k < |events| - 1 :: StopsBadInput(json, events, k) <==> StopsBadInput(json, events[..|events| - 1], k)
    ensures var n := |events| - 1;
            |BadInputs(json, events)| == |BadInputs(json, events[..n])| + if StopsBadInput(json, events, n) then 1 else 0
  {
    hide StopsBadInput;
    var n := |events| - 1;
    assert BadInputs(json, events) == BadInputs(json, events[..n]) + if StopsBadInput(json, events, n) then {n} else {};
  }

  ghost predicate BadStep(json: Decoder, s: Turn, e: Event) {
    && e.BlockStop? && e.index in s.blocks && s.blocks[e.index].kind in {ToolUse, ServerToolUse}
    && e.index in s.fragments && s.fragments[e.index] != "" && json(s.fragments[e.index]).None?
  }

  lemma StepCounts(json: Decoder, s: Turn, e: Event)
    ensures Step(json, s, e).toolInputErrors == s.toolInputErrors + if BadStep(json, s, e) then 1 else 0
  {
    hide Opened, Appended;
  }
}
