/** The dispatcher as interleaved dispatches: every step a goroutine can take on its own, the
    two semaphores they share, and the answers of the world as parameters of the step. */
module Dispatcher {
  import opened Llm

  datatype DropReason = SemFull | MarshalError | IngestTimeout | IngestReject

  datatype Outcome = Accepted | Dropped(reason: DropReason)

  /** What a dispatch does next. Settled has recorded its outcome and still holds its bytes
      and slot: the deferred release runs bytes first. */
  datatype Stage =
    | Arrived
    | SlotTaken
    | Marshalled(size: nat)
    | Refused(reason: DropReason)
    | Checking(attempt: nat)
    | Sending(attempt: nat)
    | Failed(attempt: nat)
    | Settled
    | BytesReturned
    | Finished

  datatype Task = Task(stage: Stage, weight: nat, posts: nat, outcomes: seq<Outcome>)

  /** An answer of the world: the marshaller, the context, the request builder, ingest's
      status, the backoff timer. */
  datatype Answer = Encoded(size: nat) | EncodingFailed | Alive | Cancelled | BadRequest | Status(code: nat) | NetworkError | Go

  datatype System = System(tasks: seq<Task>, slots: nat, bytes: nat, maxSlots: nat, maxBytes: nat)

  datatype Move = Enter | Step(task: nat, answer: Answer)

  const NEW_TASK := Task(Arrived, 0, 0, [])
  const MAX_ATTEMPTS := 3

  function Recorded(t: Task, o: Outcome, next: Stage): Task {
    t.(outcomes := t.outcomes + [o], stage := next)
  }

  /** Whether a stage owns a count slot. */
  predicate HoldsSlot(s: Stage) {
    !s.Arrived? && !s.Refused? && !s.Finished?
  }

  predicate HoldsBytes(s: Stage) {
    s.Checking? || s.Sending? || s.Failed? || s.Settled?
  }

  function SlotsOf(t: Task): nat {
    if HoldsSlot(t.stage) then 1 else 0
  }

  function BytesOf(t: Task): nat {
    if HoldsBytes(t.stage) then t.weight else 0
  }

  function Reply(t: Task, attempt: nat, code: nat): Task {
    if code == 200 || code == 202 then Recorded(t, Accepted, Settled)
    else if code >= 500 then t.(stage := Failed(attempt))
    else Recorded(t, Dropped(IngestReject), Settled)
  }

  /** One step of one dispatch; an answer that does not belong to the stage does nothing.
      room says whether a slot is free, space how many bytes are. */
  function StepTask(t: Task, a: Answer, room: bool, space: int): Task {
    match t.stage
    case Arrived => if room then t.(stage := SlotTaken) else Recorded(t, Dropped(SemFull), Finished)
    case SlotTaken =>
      (match a
       case Encoded(size) => t.(stage := Marshalled(size))
       case EncodingFailed => t.(stage := Refused(MarshalError))
       case _ => t)
    case Marshalled(size) =>
      if size <= space then t.(stage := Checking(1), weight := size) else t.(stage := Refused(SemFull))
    case Refused(reason) => Recorded(t, Dropped(reason), Finished)
    case Checking(n) =>
      (match a
       case Alive => t.(stage := Sending(n))
       case Cancelled => Recorded(t, Dropped(IngestTimeout), Settled)
       case BadRequest => Recorded(t, Dropped(IngestTimeout), Settled)
       case _ => t)
    case Sending(n) =>
      (match a
       case Status(code) => Reply(t.(posts := t.posts + 1), n, code)
       case NetworkError => t.(stage := Failed(n), posts := t.posts + 1)
       case _ => t)
    case Failed(n) =>
      if n >= MAX_ATTEMPTS then Recorded(t, Dropped(IngestTimeout), Settled)
      else
        (match a
         case Go => t.(stage := Checking(n + 1))
         case Cancelled => Recorded(t, Dropped(IngestTimeout), Settled)
         case _ => t)
    case Settled => t.(stage := BytesReturned)
    case BytesReturned => t.(stage := Finished)
    case Finished => t
  }

  /** The semaphores move with the stage: acquired by TryAcquire and the channel send, given
      back by Release and the channel receive, each in the step that runs it. */
  function SlotChange(before: Stage, after: Stage): int {
    match before
    case Arrived => if after.SlotTaken? then 1 else 0
    case SlotTaken => if after.Refused? then -1 else 0
    case Marshalled(_) => if after.Refused? then -1 else 0
    case BytesReturned => if after.Finished? then -1 else 0
    case _ => 0
  }

  function ByteChange(before: Stage, after: Stage, weight: nat): int {
    match before
    case Marshalled(_) => if after.Checking? then weight else 0
    case Settled => if after.BytesReturned? then 0 - weight else 0
    case _ => 0
  }

  function Apply(s: System, m: Move): System {
    match m
    case Enter => s.(tasks := s.tasks + [NEW_TASK])
    case Step(i, a) =>
      if i >= |s.tasks| then s
      else
        var t := s.tasks[i];
        var u := StepTask(t, a, s.slots < s.maxSlots, s.maxBytes - s.bytes);
        var slots := s.slots + SlotChange(t.stage, u.stage);
        var bytes := s.bytes + ByteChange(t.stage, u.stage, u.weight);
        s.(tasks := s.tasks[i := u],
           slots := if slots < 0 then 0 else slots,
           bytes := if bytes < 0 then 0 else bytes)
  }

  function Run(maxSlots: nat, maxBytes: nat, moves: seq<Move>): System {
    if moves == [] then System([], 0, 0, maxSlots, maxBytes)
    else Apply(Run(maxSlots, maxBytes, moves[..|moves| - 1]), moves[|moves| - 1])
  }

  // ---------------------------------------------------------------- invariants

  ghost function SlotSum(tasks: seq<Task>): nat {
    if tasks == [] then 0 else SlotSum(tasks[..|tasks| - 1]) + SlotsOf(tasks[|tasks| - 1])
  }

  ghost function ByteSum(tasks: seq<Task>): nat {
    if tasks == [] then 0 else ByteSum(tasks[..|tasks| - 1]) + BytesOf(tasks[|tasks| - 1])
  }

  predicate Over(s: Stage) {
    s.Settled? || s.BytesReturned? || s.Finished?
  }

  /** A dispatch has recorded one outcome exactly when it is over, and never posts more than
      once per attempt. */
  ghost predicate TaskOk(t: Task) {
    && |t.outcomes| == (if Over(t.stage) then 1 else 0)
    && t.posts <= MAX_ATTEMPTS
    && (match t.stage
        case Checking(n) => 1 <= n <= MAX_ATTEMPTS && t.posts == n - 1
        case Sending(n) => 1 <= n <= MAX_ATTEMPTS && t.posts == n - 1
        case Failed(n) => 1 <= n <= MAX_ATTEMPTS && t.posts == n
        case Arrived => t.posts == 0
        case SlotTaken => t.posts == 0
        case Marshalled(_) => t.posts == 0
        case Refused(reason) => t.posts == 0 && (reason == MarshalError || reason == SemFull)
        case _ => true)
  }

  ghost predicate SystemOk(s: System) {
    && s.slots == SlotSum(s.tasks) && s.bytes == ByteSum(s.tasks)
    && s.slots <= s.maxSlots && s.bytes <= s.maxBytes
    && forall i | 0 <= i < |s.tasks| :: TaskOk(s.tasks[i])
  }

  lemma {:induction false} SumsReplace(tasks: seq<Task>, i: nat, u: Task)
    requires i < |tasks|
    ensures SlotSum(tasks[i := u]) == SlotSum(tasks) - SlotsOf(tasks[i]) + SlotsOf(u)
    ensures ByteSum(tasks[i := u]) == ByteSum(tasks) - BytesOf(tasks[i]) + BytesOf(u)
    ensures SlotsOf(tasks[i]) <= SlotSum(tasks) && BytesOf(tasks[i]) <= ByteSum(tasks)
  {
    var n := |tasks| - 1;
    if i == n {
      assert tasks[i := u][..n] == tasks[..n];
    } else {
      assert tasks[i := u][..n] == tasks[..n][i := u];
      SumsReplace(tasks[..n], i, u);
    }
  }

  lemma StepKeepsTask(t: Task, a: Answer, room: bool, space: int)
    requires TaskOk(t)
    ensures var u := StepTask(t, a, room, space);
            && TaskOk(u)
            && SlotsOf(u) == SlotsOf(t) + SlotChange(t.stage, u.stage)
            && BytesOf(u) == BytesOf(t) + ByteChange(t.stage, u.stage, u.weight)
            && (SlotChange(t.stage, u.stage) > 0 ==> room)
            && (ByteChange(t.stage, u.stage, u.weight) > 0 ==> ByteChange(t.stage, u.stage, u.weight) <= space)
            && t.outcomes <= u.outcomes
  {
  }

  lemma StepKeepsSystem(s: System, m: Move)
    requires SystemOk(s)
    ensures SystemOk(Apply(s, m)) && Apply(s, m).maxSlots == s.maxSlots && Apply(s, m).maxBytes == s.maxBytes
  {
    hide TaskOk, SlotSum, ByteSum, StepTask, SlotChange, ByteChange, SlotsOf, BytesOf;
    match m
    case Enter =>
      assert (s.tasks + [NEW_TASK])[..|s.tasks|] == s.tasks;
      EnterSums(s.tasks);
    case Step(i, a) =>
      if i < |s.tasks| {
        var t := s.tasks[i];
        var u := StepTask(t, a, s.slots < s.maxSlots, s.maxBytes - s.bytes);
        StepKeepsTask(t, a, s.slots < s.maxSlots, s.maxBytes - s.bytes);
        SumsReplace(s.tasks, i, u);
        SlotChangeIsOne(t.stage, u.stage);
      }
  }

  lemma SlotChangeIsOne(a: Stage, b: Stage)
    ensures -1 <= SlotChange(a, b) <= 1
  {
  }

  lemma EnterSums(tasks: seq<Task>)
    ensures SlotSum(tasks + [NEW_TASK]) == SlotSum(tasks) && ByteSum(tasks + [NEW_TASK]) == ByteSum(tasks)
    ensures TaskOk(NEW_TASK)
  {
    assert (tasks + [NEW_TASK])[..|tasks|] == tasks;
  }

  // ---------------------------------------------------------------- the theorems

  /** Under every interleaving the held slots and bytes are the sums over the dispatches in
      flight and never exceed the caps. */
  lemma {:induction false} EveryRunIsBounded(maxSlots: nat, maxBytes: nat, moves: seq<Move>)
    ensures var s := Run(maxSlots, maxBytes, moves); SystemOk(s) && s.maxSlots == maxSlots && s.maxBytes == maxBytes
  {
    hide Apply, TaskOk, SlotSum, ByteSum;
    if moves == [] {
      assert SlotSum([]) == 0 && ByteSum([]) == 0 by { NoTasks(); }
    } else {
      EveryRunIsBounded(maxSlots, maxBytes, moves[..|moves| - 1]);
      StepKeepsSystem(Run(maxSlots, maxBytes, moves[..|moves| - 1]), moves[|moves| - 1]);
    }
  }

  lemma NoTasks()
    ensures SlotSum([]) == 0 && ByteSum([]) == 0
  {
  }

  lemma {:induction false} FinishedHoldNothing(tasks: seq<Task>)
    requires forall i | 0 <= i < |tasks| :: tasks[i].stage.Finished?
    ensures SlotSum(tasks) == 0 && ByteSum(tasks) == 0
  {
    if tasks != [] { FinishedHoldNothing(tasks[..|tasks| - 1]); }
  }

  /** Once every dispatch has finished, whatever paths they took, nothing is held and each
      has recorded exactly one accept or drop after at most three posts. */
  lemma QuiescenceReturnsEverything(maxSlots: nat, maxBytes: nat, moves: seq<Move>)
    requires var s := Run(maxSlots, maxBytes, moves); forall i | 0 <= i < |s.tasks| :: s.tasks[i].stage.Finished?
    ensures var s := Run(maxSlots, maxBytes, moves);
            && s.slots == 0 && s.bytes == 0
            && forall i | 0 <= i < |s.tasks| :: |s.tasks[i].outcomes| == 1 && s.tasks[i].posts <= 3
  {
    hide Run, SlotSum, ByteSum;
    EveryRunIsBounded(maxSlots, maxBytes, moves);
    var s := Run(maxSlots, maxBytes, moves);
    FinishedHoldNothing(s.tasks);
    forall i | 0 <= i < |s.tasks| ensures TaskOk(s.tasks[i]) {
    }
  }

  // ---------------------------------------------------------------- and it does finish

  /** Steps a dispatch can still take. */
  function Fuel(t: Task): nat {
    match t.stage
    case Arrived => 20
    case SlotTaken => 19
    case Marshalled(_) => 18
    case Refused(_) => 1
    case Checking(n) => if n > 3 then 5 else 5 + 3 * (3 - n) + 2
    case Sending(n) => if n > 3 then 4 else 4 + 3 * (3 - n) + 2
    case Failed(n) => if n > 3 then 3 else 3 + 3 * (3 - n) + 2
    case Settled => 2
    case BytesReturned => 1
    case Finished => 0
  }

  /** The answer a stage waits for, if it waits for one. */
  predicate Answers(t: Task, a: Answer) {
    match t.stage
    case SlotTaken => a.Encoded? || a.EncodingFailed?
    case Checking(_) => a.Alive? || a.Cancelled? || a.BadRequest?
    case Sending(_) => a.Status? || a.NetworkError?
    case Failed(n) => n >= MAX_ATTEMPTS || a.Go? || a.Cancelled?
    case Finished => false
    case _ => true
  }

  /** No dispatch can run for ever or wait for another: whatever the others do, a step whose
      answer has come brings it closer to finished, within twenty steps in all. */
  lemma EveryStepIsProgress(t: Task, a: Answer, room: bool, space: int)
    requires TaskOk(t) && Answers(t, a)
    ensures Fuel(StepTask(t, a, room, space)) < Fuel(t) <= 20
  {
  }

  /** Acceptance is recorded on a 200 or 202 exactly, a rejection on any other reply below 500,
      a full semaphore where no slot was free or the bytes did not fit, and a timeout where the
      context ended, the request could not be built or the last attempt failed. */
  lemma OutcomeSaysWhatHappened(t: Task, a: Answer, room: bool, space: int)
    requires TaskOk(t) && !Over(t.stage)
    ensures var u := StepTask(t, a, room, space);
            && (u.outcomes == [Accepted] <==> t.stage.Sending? && a.Status? && (a.code == 200 || a.code == 202))
            && (u.outcomes == [Dropped(IngestReject)]
                <==> t.stage.Sending? && a.Status? && a.code < 500 && a.code != 200 && a.code != 202)
            && (u.outcomes == [Dropped(IngestTimeout)]
                <==> (t.stage.Checking? && (a.Cancelled? || a.BadRequest?))
                     || (t.stage.Failed? && (t.stage.attempt == 3 || a.Cancelled?)))
            && (u.outcomes == [Dropped(SemFull)] <==> (t.stage.Arrived? && !room) || t.stage == Refused(SemFull))
            && (u.outcomes == [Dropped(MarshalError)] <==> t.stage == Refused(MarshalError))
            && (u.stage == Refused(SemFull) <==> t.stage.Marshalled? && t.stage.size > space)
            && (u.stage == Refused(MarshalError) <==> t.stage.SlotTaken? && a.EncodingFailed?)
            && (u.stage.Checking? && u.stage != t.stage <==>
                  (t.stage.Marshalled? && t.stage.size <= space) || (t.stage.Failed? && t.stage.attempt < 3 && a.Go?))
  {
    assert t.outcomes == [];
    assert forall o: Outcome :: [] + [o] == [o];
  }

  // ---------------------------------------------------------------- the retry loop

  /** What one attempt meets: cancelled before it, a request that cannot be built, a status
      or a network error, and whether the backoff after it ran out. */
  datatype Attempt = Attempt(alive: bool, buildable: bool, status: Answer, slept: bool)

  predicate Retries(x: Attempt) {
    x.alive && x.buildable && !Answered(x) && x.slept
  }

  predicate Answered(x: Attempt) {
    x.status.Status? && x.status.code < 500
  }

  predicate Posting(s: Stage) {
    s.Checking? || s.Sending? || s.Failed?
  }

  /** What the world of these attempts answers the state machine. */
  function WorldAnswer(t: Task, world: nat -> Attempt): Answer {
    match t.stage
    case Checking(n) => if !world(n).alive then Cancelled else if !world(n).buildable then BadRequest else Alive
    case Sending(n) => if world(n).status.Status? then world(n).status else NetworkError
    case Failed(n) => if world(n).slept then Go else Cancelled
    case _ => Alive
  }

  /** The dispatch's own steps, in that world, until it has settled. */
  ghost function Drive(t: Task, world: nat -> Attempt): Task
    requires TaskOk(t)
    decreases Fuel(t)
  {
    if !Posting(t.stage) then t
    else
      EveryStepIsProgress(t, WorldAnswer(t, world), true, 0);
      StepKeepsTask(t, WorldAnswer(t, world), true, 0);
      Drive(StepTask(t, WorldAnswer(t, world), true, 0), world)
  }

  function AtAttempt(w: nat, n: nat): Task
    requires 1 <= n <= 3
  {
    Task(Checking(n), w, n - 1, [])
  }

  /** One turn of the retry loop, as the machine takes it. */
  lemma DriveAttempt(w: nat, n: nat, world: nat -> Attempt)
    requires 1 <= n <= 3
    ensures var x, r := world(n), Drive(AtAttempt(w, n), world);
            if !x.alive || !x.buildable then r == Task(Settled, w, n - 1, [Dropped(IngestTimeout)])
            else if Answered(x) then
              r == Task(Settled, w, n, [if x.status.code == 200 || x.status.code == 202 then Accepted else Dropped(IngestReject)])
            else if n == 3 || !x.slept then r == Task(Settled, w, n, [Dropped(IngestTimeout)])
            else r == Drive(AtAttempt(w, n + 1), world)
  {
    var t := AtAttempt(w, n);
    NoneBefore();
    DriveStep(t, world);
    if world(n).alive && world(n).buildable {
      var sent := Task(Sending(n), w, n - 1, []);
      DriveStep(sent, world);
      if !Answered(world(n)) {
        DriveStep(Task(Failed(n), w, n, []), world);
      }
    }
  }

  lemma NoneBefore()
    ensures forall o: Outcome :: [] + [o] == [o]
  {
  }

  lemma DriveStep(t: Task, world: nat -> Attempt)
    requires TaskOk(t) && Posting(t.stage)
    ensures var u := StepTask(t, WorldAnswer(t, world), true, 0);
            TaskOk(u) && Drive(t, world) == Drive(u, world) && (!Posting(u.stage) ==> Drive(u, world) == u)
  {
    StepKeepsTask(t, WorldAnswer(t, world), true, 0);
  }

  function Power(n: nat): nat {
    if n == 0 then 1 else 2 * Power(n - 1)
  }

  /** postWithRetry: the first attempt that does not retry decides, and there are three. */
  method PostWithRetry(world: nat -> Attempt, ghost w: nat) returns (o: Outcome, posts: nat, waited: nat)
    ensures posts <= 3 && Drive(AtAttempt(w, 1), world) == Task(Settled, w, posts, [o])
    ensures forall k | 1 <= k < posts :: Retries(world(k))
    ensures o == Accepted <==>
              exists k :: 1 <= k <= 3 && (forall j | 1 <= j < k :: Retries(world(j))) && world(k).alive && world(k).buildable
                          && Answered(world(k)) && world(k).status.code in {200, 202}
    ensures o == Dropped(IngestReject) <==>
              exists k :: 1 <= k <= 3 && (forall j | 1 <= j < k :: Retries(world(j))) && world(k).alive && world(k).buildable
                          && Answered(world(k)) && world(k).status.code !in {200, 202}
    ensures o in {Accepted, Dropped(IngestReject), Dropped(IngestTimeout)}
    ensures waited <= 500 + 1000
  {
    posts, waited := 0, 0;
    var backoff := 500;
    var attempt := 1;
    while attempt <= 3
      invariant 1 <= attempt <= 3 && posts == attempt - 1
      invariant forall j | 1 <= j < attempt :: Retries(world(j))
      invariant backoff == 500 * Power(attempt - 1) && waited == backoff - 500
      invariant Drive(AtAttempt(w, 1), world) == Drive(AtAttempt(w, attempt), world)
    {
      hide Drive;
      DriveAttempt(w, attempt, world);
      var x := world(attempt);
      if !x.alive { return Dropped(IngestTimeout), posts, waited; }
      if !x.buildable { return Dropped(IngestTimeout), posts, waited; }
      posts := posts + 1;
      if Answered(x) {
        if x.status.code == 200 || x.status.code == 202 { return Accepted, posts, waited; }
        return Dropped(IngestReject), posts, waited;
      }
      if attempt == 3 { return Dropped(IngestTimeout), posts, waited; }
      if !x.slept { return Dropped(IngestTimeout), posts, waited; }
      waited := waited + backoff;
      backoff := backoff * 2;
      attempt := attempt + 1;
    }
    assert false;
  }

  /** Why a dispatch arriving at s is turned away, if it is. */
  function Refusal(s: System, encoding: Answer): (r: Option<DropReason>)
    requires encoding.Encoded? || encoding.EncodingFailed?
    ensures r.None? ==> encoding.Encoded?
  {
    if s.slots >= s.maxSlots then Some(SemFull)
    else if encoding.EncodingFailed? then Some(MarshalError)
    else if encoding.size > s.maxBytes - s.bytes then Some(SemFull)
    else None
  }

  /** How a dispatch that nobody interrupts ends. */
  ghost function Ending(s: System, encoding: Answer, world: nat -> Attempt): (t: Task)
    requires encoding.Encoded? || encoding.EncodingFailed?
    ensures t.stage.Finished? && |t.outcomes| == 1 && t.posts <= 3
  {
    match Refusal(s, encoding)
    case Some(reason) => Task(Finished, 0, 0, [Dropped(reason)])
    case None =>
      DriveSettles(AtAttempt(encoding.size, 1), world);
      Drive(AtAttempt(encoding.size, 1), world).(stage := Finished)
  }

  /** A dispatch that holds bytes and a slot finds both counted. */
  lemma Holds(s: System, i: nat)
    requires SystemOk(s) && i < |s.tasks| && HoldsBytes(s.tasks[i].stage)
    ensures s.tasks[i].weight <= s.bytes && 0 < s.slots && TaskOk(s.tasks[i])
  {
    SumsReplace(s.tasks, i, s.tasks[i]);
  }

  /** The posting steps always settle, on one outcome and the same weight. */
  lemma {:induction false} DriveSettles(t: Task, world: nat -> Attempt)
    requires TaskOk(t) && (Posting(t.stage) || t.stage.Settled?)
    ensures var r := Drive(t, world); r.stage.Settled? && TaskOk(r) && r.weight == t.weight
    decreases Fuel(t)
  {
    if Posting(t.stage) {
      EveryStepIsProgress(t, WorldAnswer(t, world), true, 0);
      StepKeepsTask(t, WorldAnswer(t, world), true, 0);
      DriveSettles(StepTask(t, WorldAnswer(t, world), true, 0), world);
    }
  }

  // ---------------------------------------------------------------- the shared state

  /** The two semaphores and the dispatches around them. Each method up to Refuse is one atomic
      step; the others run several, as the program's functions do. */
  class Dispatches {
    const maxSlots: nat
    const maxBytes: nat
    var tasks: seq<Task>
    var slots: nat
    var bytes: nat

    ghost function State(): System
      reads this
    {
      System(tasks, slots, bytes, maxSlots, maxBytes)
    }

    constructor (count: nat, budget: nat)
      ensures State() == Run(count, budget, [])
      ensures SystemOk(State())
    {
      maxSlots, maxBytes := count, budget;
      tasks, slots, bytes := [], 0, 0;
    }

    method Arrive()
      requires SystemOk(State())
      modifies this`tasks
      ensures SystemOk(State()) && State() == Apply(old(State()), Enter)
    {
      StepKeepsSystem(State(), Enter);
      tasks := tasks + [NEW_TASK];
    }

    /** The channel send, or the drop that answers a full channel. */
    method TakeSlot(i: nat, a: Answer)
      requires SystemOk(State()) && i < |tasks| && tasks[i].stage.Arrived?
      modifies this`tasks, this`slots
      ensures SystemOk(State()) && State() == Apply(old(State()), Step(i, a))
    {
      StepKeepsSystem(State(), Step(i, a));
      if slots < maxSlots {
        slots := slots + 1;
        tasks := tasks[i := tasks[i].(stage := SlotTaken)];
      } else {
        tasks := tasks[i := Recorded(tasks[i], Dropped(SemFull), Finished)];
      }
    }

    /** Marshalling; a failure gives the slot back before it is recorded. */
    method Marshal(i: nat, a: Answer)
      requires SystemOk(State()) && i < |tasks| && tasks[i].stage.SlotTaken? && (a.Encoded? || a.EncodingFailed?)
      modifies this`tasks, this`slots
      ensures SystemOk(State()) && State() == Apply(old(State()), Step(i, a))
    {
      StepKeepsSystem(State(), Step(i, a));
      SumsReplace(tasks, i, tasks[i]);
      if a.EncodingFailed? {
        slots := slots - 1;
        tasks := tasks[i := tasks[i].(stage := Refused(MarshalError))];
      } else {
        tasks := tasks[i := tasks[i].(stage := Marshalled(a.size))];
      }
    }

    /** TryAcquire of the marshalled size; a failure gives the slot back. */
    method AcquireBytes(i: nat, a: Answer)
      requires SystemOk(State()) && i < |tasks| && tasks[i].stage.Marshalled?
      modifies this`tasks, this`slots, this`bytes
      ensures SystemOk(State()) && State() == Apply(old(State()), Step(i, a))
    {
      StepKeepsSystem(State(), Step(i, a));
      SumsReplace(tasks, i, tasks[i]);
      var weight := tasks[i].stage.size;
      if weight <= maxBytes - bytes {
        bytes := bytes + weight;
        tasks := tasks[i := tasks[i].(stage := Checking(1), weight := weight)];
      } else {
        slots := slots - 1;
        tasks := tasks[i := tasks[i].(stage := Refused(SemFull))];
      }
    }

    /** The deferred release: bytes, then the slot. */
    method Release(i: nat, a: Answer)
      requires SystemOk(State()) && i < |tasks| && (tasks[i].stage.Settled? || tasks[i].stage.BytesReturned?)
      modifies this`tasks, this`slots, this`bytes
      ensures SystemOk(State()) && State() == Apply(old(State()), Step(i, a))
    {
      StepKeepsSystem(State(), Step(i, a));
      SumsReplace(tasks, i, tasks[i]);
      if tasks[i].stage.Settled? {
        bytes := bytes - tasks[i].weight;
        tasks := tasks[i := tasks[i].(stage := BytesReturned)];
      } else {
        slots := slots - 1;
        tasks := tasks[i := tasks[i].(stage := Finished)];
      }
    }

    /** A refused dispatch, its slot given back, records the drop. */
    method Refuse(i: nat, a: Answer)
      requires SystemOk(State()) && i < |tasks| && tasks[i].stage.Refused?
      modifies this`tasks
      ensures SystemOk(State()) && State() == Apply(old(State()), Step(i, a))
    {
      StepKeepsSystem(State(), Step(i, a));
      tasks := tasks[i := Recorded(tasks[i], Dropped(tasks[i].stage.reason), Finished)];
    }

    /** The posting steps of one admitted dispatch, in the world of its attempts. */
    method Post(i: nat, world: nat -> Attempt)
      requires SystemOk(State()) && i < |tasks| && tasks[i].stage == Checking(1) && tasks[i].outcomes == []
      modifies this`tasks
      ensures SystemOk(State()) && TaskOk(old(tasks[i])) && tasks == old(tasks)[i := Drive(old(tasks[i]), world)]
      ensures tasks[i].stage.Settled? && tasks[i].weight == old(tasks[i].weight)
    {
      hide Drive;
      assert TaskOk(tasks[i]);
      var o, posts, waited := PostWithRetry(world, tasks[i].weight);
      var settled := Task(Settled, tasks[i].weight, posts, [o]);
      SumsReplace(tasks, i, settled);
      tasks := tasks[i := settled];
    }

    /** The part of Dispatch that runs on the caller: a refused dispatch is over and holds
        nothing, an admitted one holds its slot and its bytes. */
    method Admit(encoding: Answer) returns (admitted: bool)
      requires SystemOk(State()) && (encoding.Encoded? || encoding.EncodingFailed?)
      modifies this`tasks, this`slots, this`bytes
      ensures SystemOk(State()) && admitted == Refusal(old(State()), encoding).None?
      ensures !admitted ==> slots == old(slots) && bytes == old(bytes)
                            && tasks == old(tasks) + [Task(Finished, 0, 0, [Dropped(Refusal(old(State()), encoding).value)])]
      ensures admitted ==> slots == old(slots) + 1 && bytes == old(bytes) + encoding.size
                           && tasks == old(tasks) + [AtAttempt(encoding.size, 1)]
    {
      hide SystemOk;
      NoneBefore();
      var i := |tasks|;
      Arrive();
      TakeSlot(i, Go);
      if tasks[i].stage.Finished? { return false; }
      Marshal(i, encoding);
      if tasks[i].stage.Marshalled? { AcquireBytes(i, Go); }
      admitted := tasks[i].stage.Checking?;
      if !admitted { Refuse(i, Go); }
    }

    /** The part that runs on its own: post until settled, then release bytes and slot. */
    method Finish(i: nat, world: nat -> Attempt)
      requires SystemOk(State()) && i < |tasks| && tasks[i].stage == Checking(1) && tasks[i].outcomes == []
      modifies this`tasks, this`slots, this`bytes
      ensures SystemOk(State()) && TaskOk(old(tasks[i]))
      ensures tasks == old(tasks)[i := Drive(old(tasks[i]), world).(stage := Finished)]
      ensures slots == old(slots) - 1 && bytes == old(bytes) - old(tasks[i].weight)
    {
      hide SystemOk, Drive, TaskOk;
      assert old(tasks[i].weight) <= bytes && 0 < slots by { Holds(State(), i); }
      Post(i, world);
      Release(i, Go);
      Release(i, Go);
    }

    /** Dispatch, from arrival to the end: whatever happens to it, the dispatch leaves the
        semaphores as it found them and itself finished with one outcome. */
    method Dispatch(encoding: Answer, world: nat -> Attempt)
      requires SystemOk(State()) && (encoding.Encoded? || encoding.EncodingFailed?)
      modifies this`tasks, this`slots, this`bytes
      ensures SystemOk(State()) && slots == old(slots) && bytes == old(bytes)
      ensures tasks == old(tasks) + [Ending(old(State()), encoding, world)]
    {
      hide SystemOk, Drive;
      var i := |tasks|;
      var admitted := Admit(encoding);
      if admitted { Finish(i, world); }
    }
  }
}
