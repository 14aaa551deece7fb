// The message delivery protocol of src/infrastructure/queues/stream_queue.py as a step
// system. One stream, one consumer group, any number of producers and handlers. Every
// store command is one atomic step and handlers interleave arbitrarily; a handler may
// vanish between any two of its commands (process crash, or a command that raises).

module DeliveryProtocol {
  type MessageId = string
  type EntryId = nat
  type TaskId = nat

  datatype Message = Message(id: MessageId, retryCount: int)

  // What a stream entry holds: an envelope, or a payload that does not parse as one.
  datatype Payload = Envelope(message: Message) | Garbage(text: string)

  datatype Phase =
    | Received    // entry data in hand, no command sent for it yet
    | Working     // won the dedup key, callback running
    | Releasing   // callback failed, DEL not yet sent
    | Requeueing  // DEL done, retry or dead-letter entry not yet written
    | Acking      // only XACK is left

  datatype Handler = Handler(entry: EntryId, payload: Payload, phase: Phase)

  // The ways `push` can end: the memory probe may divert the message to the dead-letter
  // queue, and a failure inside the probe falls through to the ordinary XADD.
  datatype PushOutcome = ToStream | ToDlq | ToBoth | DlqThenRaise

  datatype Event = Started(id: MessageId) | Succeeded(id: MessageId) | Failed(id: MessageId)

  // `stream` keeps acknowledged entries (XACK only clears the pending list); `delivered`
  // is the group's read cursor. The fields after `handlers` record history.
  datatype State = State(
    stream: seq<Payload>,
    delivered: nat,
    acked: set<EntryId>,
    keys: set<MessageId>,
    dlq: seq<Message>,
    rawDlq: set<EntryId>,
    handlers: map<TaskId, Handler>,
    pushed: set<MessageId>,
    abandoned: set<MessageId>,  // a handler died with the id's key in hand
    overtaken: set<MessageId>,  // a handler died after DEL, its entry acknowledged by another, nothing else left
    rawDropped: set<EntryId>,
    log: seq<Event>
  )

  const INIT := State([], 0, {}, {}, [], {}, map[], {}, {}, {}, {}, [])

  datatype Step =
    | Publish(message: Message, outcome: PushOutcome)  // any producer, the outbox relay included
    | PublishGarbage(text: string)
    | Deliver                                          // XREADGROUP hands out the next entry
    | Begin(task: TaskId, entry: EntryId)              // own batch, or XCLAIM of a pending entry
    | DeadLetterRaw(task: TaskId, written: bool)       // `_dlq_raw`, whose failure is swallowed
    | ClaimKey(task: TaskId)                           // SET NX on the dedup key
    | Return(task: TaskId, success: bool)              // the callback's verdict; an exception is a failure
    | ReleaseKey(task: TaskId)                         // DEL
    | Requeue(task: TaskId, outcome: PushOutcome)      // retry push, or push_dlq when exhausted
    | Ack(task: TaskId)                                // XACK
    | Die(task: TaskId)

  // --- Steps ---

  // A message copy written by `push` or `push_dlq`.
  function Deposit(s: State, m: Message, o: PushOutcome): State {
    var s1 := if o.ToDlq? || o.ToBoth? || o.DlqThenRaise? then s.(dlq := s.dlq + [m]) else s;
    var s2 := if o.ToStream? || o.ToBoth? then s1.(stream := s1.stream + [Envelope(m)]) else s1;
    s2.(pushed := s2.pushed + {m.id})
  }

  predicate HasPhase(s: State, t: TaskId, p: Phase) {
    t in s.handlers && s.handlers[t].phase == p
  }

  predicate Handles(s: State, t: TaskId, p: Phase) {
    HasPhase(s, t, p) && s.handlers[t].payload.Envelope?
  }

  predicate Enabled(s: State, step: Step, maxRetries: int) {
    match step
    case Publish(_, _) => true
    case PublishGarbage(_) => true
    case Deliver => s.delivered < |s.stream|
    case Begin(t, e) => t !in s.handlers && e < s.delivered <= |s.stream|
    case DeadLetterRaw(t, _) => HasPhase(s, t, Received) && s.handlers[t].payload.Garbage?
    case ClaimKey(t) => Handles(s, t, Received)
    case Return(t, _) => Handles(s, t, Working)
    case ReleaseKey(t) => Handles(s, t, Releasing)
    case Requeue(t, o) =>
      Handles(s, t, Requeueing) &&
      (s.handlers[t].payload.message.retryCount + 1 >= maxRetries ==> o == ToDlq)
    case Ack(t) => HasPhase(s, t, Acking)
    case Die(t) => t in s.handlers
  }

  function Enter(s: State, t: TaskId, p: Phase): State
    requires t in s.handlers
  {
    s.(handlers := s.handlers[t := s.handlers[t].(phase := p)])
  }

  function Leave(s: State, t: TaskId): State {
    s.(handlers := s.handlers - {t})
  }

  function TryClaim(s: State, t: TaskId): State
    requires Handles(s, t, Received)
  {
    var id := s.handlers[t].payload.message.id;
    if id in s.keys then Enter(s, t, Acking)
    else Enter(s, t, Working).(keys := s.keys + {id}, log := s.log + [Started(id)])
  }

  function FinishCallback(s: State, t: TaskId, success: bool): State
    requires Handles(s, t, Working)
  {
    var id := s.handlers[t].payload.message.id;
    Enter(s, t, if success then Acking else Releasing)
      .(log := s.log + [if success then Succeeded(id) else Failed(id)])
  }

  // The failing branch after DEL: dead-letter the message as received, or push it again
  // with its retry count raised by one.
  function WriteRetry(s: State, t: TaskId, o: PushOutcome, maxRetries: int): State
    requires Handles(s, t, Requeueing)
  {
    var m := s.handlers[t].payload.message;
    var written := if m.retryCount + 1 >= maxRetries then m else m.(retryCount := m.retryCount + 1);
    var s1 := Deposit(s, written, o);
    if o.DlqThenRaise? then Leave(s1, t) else Enter(s1, t, Acking)
  }

  predicate OwesDisposition(h: Handler) {
    h.phase == Working || h.phase == Releasing || h.phase == Requeueing
  }

  // Another handler has acknowledged the entry of this one, or has only that left to do: it was
  // given the entry by a claim, found the key taken, and took the entry for a duplicate.
  ghost predicate Overtaken(s: State, t: TaskId)
    requires t in s.handlers
  {
    s.handlers[t].entry in s.acked ||
    exists u :: u in s.handlers && s.handlers[u].entry == s.handlers[t].entry && s.handlers[u].phase == Acking
  }

  // A message has been settled, or someone or something other than handler t and its entry has it.
  ghost predicate ProvidedElsewhere(s: State, t: TaskId, id: MessageId)
    requires t in s.handlers
  {
    || HasSucceeded(s, id) || InDlq(s, id)
    || (exists u :: u in s.handlers && u != t && Owes(s.handlers[u], id))
    || exists e: EntryId :: e != s.handlers[t].entry && Awaiting(s, e, id)
  }

  // A handler that dies with the key in hand leaves it taken, so every later delivery is taken for
  // a duplicate. One that dies after DEL leaves its entry to be claimed, unless it was overtaken.
  ghost function Perish(s: State, t: TaskId): State
    requires t in s.handlers
  {
    var h, s' := s.handlers[t], Leave(s, t);
    if !h.payload.Envelope? then s'
    else
      var id := h.payload.message.id;
      if h.phase == Working || h.phase == Releasing then s'.(abandoned := s.abandoned + {id})
      else if h.phase == Requeueing && Overtaken(s, t) && !ProvidedElsewhere(s, t, id)
      then s'.(overtaken := s.overtaken + {id})
      else s'
  }

  ghost function Apply(s: State, step: Step, maxRetries: int): State
    requires Enabled(s, step, maxRetries)
  {
    match step
    case Publish(m, o) => Deposit(s, m, o)
    case PublishGarbage(x) => s.(stream := s.stream + [Garbage(x)])
    case Deliver => s.(delivered := s.delivered + 1)
    case Begin(t, e) => s.(handlers := s.handlers[t := Handler(e, s.stream[e], Received)])
    case DeadLetterRaw(t, written) =>
      var e := s.handlers[t].entry;
      if written then Enter(s, t, Acking).(rawDlq := s.rawDlq + {e})
      else Enter(s, t, Acking).(rawDropped := s.rawDropped + {e})
    case ClaimKey(t) => TryClaim(s, t)
    case Return(t, success) => FinishCallback(s, t, success)
    case ReleaseKey(t) => Enter(s, t, Requeueing).(keys := s.keys - {s.handlers[t].payload.message.id})
    case Requeue(t, o) => WriteRetry(s, t, o, maxRetries)
    case Ack(t) => Leave(s, t).(acked := s.acked + {s.handlers[t].entry})
    case Die(t) => Perish(s, t)
  }

  // `s` is what a list of steps leads to from `from`; every step must be enabled in turn.
  ghost predicate Leads(from: State, steps: seq<Step>, maxRetries: int, s: State)
    decreases |steps|
  {
    if steps == [] then s == from
    else Enabled(from, steps[0], maxRetries) &&
         Leads(Apply(from, steps[0], maxRetries), steps[1..], maxRetries, s)
  }

  // --- What a run records ---

  // The life of one message id as its callbacks see it.
  datatype Life = Idle | Busy | Done | Broken

  function Advance(l: Life, ev: Event): Life {
    match (l, ev)
    case (Idle, Started(_)) => Busy
    case (Busy, Failed(_)) => Idle
    case (Busy, Succeeded(_)) => Done
    case _ => Broken
  }

  // Broken as soon as a callback starts while another is running or after a success, or
  // a verdict arrives with no callback running.
  function LifeOf(log: seq<Event>, id: MessageId): Life {
    if log == [] then Idle
    else
      var before := LifeOf(log[..|log|-1], id);
      var ev := log[|log|-1];
      if ev.id == id then Advance(before, ev) else before
  }

  lemma LifeAfter(log: seq<Event>, ev: Event, id: MessageId)
    ensures LifeOf(log + [ev], id) == if ev.id == id then Advance(LifeOf(log, id), ev) else LifeOf(log, id)
  {
    assert (log + [ev])[..|log|] == log;
  }

  ghost predicate HasSucceeded(s: State, id: MessageId) {
    Succeeded(id) in s.log
  }

  // --- Invariant 1: bookkeeping ---

  ghost predicate Tidy(s: State) {
    && s.delivered <= |s.stream|
    && (forall e :: e in s.acked ==> e < s.delivered)
    && (forall t :: t in s.handlers ==>
          var h := s.handlers[t];
          h.entry < s.delivered && h.payload == s.stream[h.entry] &&
          (OwesDisposition(h) ==> h.payload.Envelope?))
  }

  // --- Invariant 2: the dedup key is a lock with one holder ---

  predicate Holds(h: Handler, id: MessageId) {
    (h.phase == Working || h.phase == Releasing) && h.payload.Envelope? && h.payload.message.id == id
  }

  ghost predicate Held(s: State, id: MessageId) {
    exists t :: t in s.handlers && Holds(s.handlers[t], id)
  }

  ghost predicate OneHolder(s: State) {
    && (forall t, u, id ::
          t in s.handlers && u in s.handlers && Holds(s.handlers[t], id) && Holds(s.handlers[u], id) ==> t == u)
    && (forall t, id :: t in s.handlers && Holds(s.handlers[t], id) ==> id in s.keys)
  }

  ghost predicate KeysExplained(s: State) {
    forall id :: id in s.keys ==> HasSucceeded(s, id) || id in s.abandoned || Held(s, id)
  }

  // A key that is taken for good: its id has not succeeded and nobody is there to give it back.
  ghost predicate Stuck(s: State, id: MessageId) {
    id in s.keys && !HasSucceeded(s, id) && !Held(s, id)
  }

  ghost predicate AbandonedStuck(s: State) {
    forall id :: id in s.abandoned ==> Stuck(s, id)
  }

  ghost predicate LivesMatchKeys(s: State) {
    && (forall id :: LifeOf(s.log, id) == Done <==> HasSucceeded(s, id))
    && (forall id :: id !in s.keys ==> LifeOf(s.log, id) == Idle)
    && (forall id :: LifeOf(s.log, id) != Broken)
    && (forall t, id :: t in s.handlers && Holds(s.handlers[t], id) ==>
          LifeOf(s.log, id) == if s.handlers[t].phase == Working then Busy else Idle)
  }

  // --- Invariant 3: every message is somewhere ---

  // An entry that will still be handed out and that no handler is about to acknowledge.
  ghost predicate Awaiting(s: State, e: EntryId, id: MessageId) {
    && e < |s.stream| && s.stream[e].Envelope? && s.stream[e].message.id == id
    && e !in s.acked
    && !exists t :: t in s.handlers && s.handlers[t].entry == e && s.handlers[t].phase == Acking
  }

  ghost predicate InDlq(s: State, id: MessageId) {
    exists i :: 0 <= i < |s.dlq| && s.dlq[i].id == id
  }

  predicate Owes(h: Handler, id: MessageId) {
    OwesDisposition(h) && h.payload.Envelope? && h.payload.message.id == id
  }

  ghost predicate InFlight(s: State, id: MessageId) {
    exists t :: t in s.handlers && Owes(s.handlers[t], id)
  }

  ghost predicate Provided(s: State, id: MessageId) {
    HasSucceeded(s, id) || InDlq(s, id) || InFlight(s, id) || exists e: EntryId :: Awaiting(s, e, id)
  }

  ghost predicate Secure(s: State, id: MessageId) {
    Provided(s, id) || id in s.abandoned || id in s.overtaken
  }

  ghost predicate AllSecure(s: State) {
    && (forall id :: id in s.pushed ==> Secure(s, id))
    && (forall e :: 0 <= e < |s.stream| && s.stream[e].Envelope? ==> s.stream[e].message.id in s.pushed)
  }

  // Garbage entries: still pending, dead-lettered raw, or dropped by a failed raw write.
  ghost predicate RawAccounted(s: State) {
    && (forall e :: e in s.acked && e < |s.stream| && s.stream[e].Garbage? ==> e in s.rawDlq || e in s.rawDropped)
    && (forall t :: t in s.handlers && s.handlers[t].payload.Garbage? && s.handlers[t].phase == Acking ==>
          s.handlers[t].entry in s.rawDlq || s.handlers[t].entry in s.rawDropped)
  }

  ghost predicate Inv(s: State) {
    && Tidy(s) && OneHolder(s) && KeysExplained(s) && AbandonedStuck(s)
    && LivesMatchKeys(s) && AllSecure(s) && RawAccounted(s)
  }

  // --- What a death leaves ---

  // When a handler that owes its message is gone, what is left of the message is exactly what others
  // have, and the handler's own entry unless it was overtaken.
  lemma DeathAfterReleaseExactly(s: State, t: TaskId, id: MessageId)
    requires Tidy(s) && t in s.handlers && Owes(s.handlers[t], id)
    ensures Provided(Leave(s, t), id) <==> !Overtaken(s, t) || ProvidedElsewhere(s, t, id)
  {
    var s', e := Leave(s, t), s.handlers[t].entry;
    forall d: EntryId ensures Awaiting(s', d, id) <==> Awaiting(s, d, id) {
      AwaitingLeave(s, t, d, id);
    }
    assert Awaiting(s, e, id) <==> !Overtaken(s, t);
    if exists u :: u in s.handlers && u != t && Owes(s.handlers[u], id) {
      var u :| u in s.handlers && u != t && Owes(s.handlers[u], id);
      assert u in s'.handlers && Owes(s'.handlers[u], id);
    }
  }

  lemma AwaitingLeave(s: State, t: TaskId, e: EntryId, id: MessageId)
    requires t in s.handlers && s.handlers[t].phase != Acking
    ensures Awaiting(Leave(s, t), e, id) <==> Awaiting(s, e, id)
  {
    var s' := Leave(s, t);
    forall u | u in s.handlers && s.handlers[u].phase == Acking
      ensures u in s'.handlers && s'.handlers[u] == s.handlers[u]
    {}
  }

  // --- Every step keeps the invariant ---

  lemma TidyStep(s: State, step: Step, maxRetries: int)
    requires Tidy(s) && Enabled(s, step, maxRetries)
    ensures Tidy(Apply(s, step, maxRetries))
  {
    var s' := Apply(s, step, maxRetries);
    assert s.stream <= s'.stream && s.delivered <= s'.delivered <= |s'.stream|;
    forall t | t in s'.handlers
      ensures s'.handlers[t].entry < s'.delivered && s'.handlers[t].payload == s'.stream[s'.handlers[t].entry]
      ensures OwesDisposition(s'.handlers[t]) ==> s'.handlers[t].payload.Envelope?
    {
      HandlerStep(s, step, maxRetries, t);
    }
  }

  // A handler keeps its entry and payload for as long as it lives.
  lemma HandlerStep(s: State, step: Step, maxRetries: int, t: TaskId)
    requires Enabled(s, step, maxRetries) && t in Apply(s, step, maxRetries).handlers
    ensures var h := Apply(s, step, maxRetries).handlers[t];
            if t in s.handlers then
              && h.entry == s.handlers[t].entry && h.payload == s.handlers[t].payload
              && (OwesDisposition(h) ==> OwesDisposition(s.handlers[t]) || h.payload.Envelope?)
            else step.Begin? && h == Handler(step.entry, s.stream[step.entry], Received)
  {}

  lemma RawStep(s: State, step: Step, maxRetries: int)
    requires Tidy(s) && RawAccounted(s) && Enabled(s, step, maxRetries)
    ensures RawAccounted(Apply(s, step, maxRetries))
  {
    var s' := Apply(s, step, maxRetries);
    forall t | t in s'.handlers && s'.handlers[t].payload.Garbage? && s'.handlers[t].phase == Acking
      ensures s'.handlers[t].entry in s'.rawDlq || s'.handlers[t].entry in s'.rawDropped
    {
      RawHandlerStep(s, step, maxRetries, t);
    }
    forall e | e in s'.acked && e < |s'.stream| && s'.stream[e].Garbage?
      ensures e in s'.rawDlq || e in s'.rawDropped
    {
      RawEntryStep(s, step, maxRetries, e);
    }
  }

  lemma RawHandlerStep(s: State, step: Step, maxRetries: int, t: TaskId)
    requires RawAccounted(s) && Enabled(s, step, maxRetries)
    requires var s' := Apply(s, step, maxRetries);
             t in s'.handlers && s'.handlers[t].payload.Garbage? && s'.handlers[t].phase == Acking
    ensures var s' := Apply(s, step, maxRetries);
            s'.handlers[t].entry in s'.rawDlq || s'.handlers[t].entry in s'.rawDropped
  {
    var s' := Apply(s, step, maxRetries);
    HistoryGrows(s, step, maxRetries);
    assert (t in s.handlers && s.handlers[t] == s'.handlers[t]) || step == DeadLetterRaw(t, step.written);
  }

  lemma RawEntryStep(s: State, step: Step, maxRetries: int, e: EntryId)
    requires Tidy(s) && RawAccounted(s) && Enabled(s, step, maxRetries)
    requires var s' := Apply(s, step, maxRetries); e in s'.acked && e < |s'.stream| && s'.stream[e].Garbage?
    ensures var s' := Apply(s, step, maxRetries); e in s'.rawDlq || e in s'.rawDropped
  {
    HistoryGrows(s, step, maxRetries);
    assert e in s.acked || (step.Ack? && s.handlers[step.task].entry == e);
  }

  lemma DepositGrows(s: State, m: Message, o: PushOutcome)
    ensures var s' := Deposit(s, m, o);
            s.stream <= s'.stream && s.dlq <= s'.dlq && s'.log == s.log
  {}

  lemma SequencesGrow(s: State, step: Step, maxRetries: int)
    requires Enabled(s, step, maxRetries)
    ensures var s' := Apply(s, step, maxRetries);
            s.stream <= s'.stream && s.log <= s'.log && s.dlq <= s'.dlq
  {
    match step
    case Publish(m, o) => DepositGrows(s, m, o);
    case Requeue(t, o) =>
      var m := s.handlers[t].payload.message;
      DepositGrows(s, if m.retryCount + 1 >= maxRetries then m else m.(retryCount := m.retryCount + 1), o);
    case _ =>
  }

  lemma SetsGrow(s: State, step: Step, maxRetries: int)
    requires Enabled(s, step, maxRetries)
    ensures var s' := Apply(s, step, maxRetries);
            && s.abandoned <= s'.abandoned && s.overtaken <= s'.overtaken
            && s.rawDlq <= s'.rawDlq && s.rawDropped <= s'.rawDropped
  {}

  // The stream and everything recorded only grow.
  lemma HistoryGrows(s: State, step: Step, maxRetries: int)
    requires Enabled(s, step, maxRetries)
    ensures var s' := Apply(s, step, maxRetries);
            && s.stream <= s'.stream && s.log <= s'.log && s.dlq <= s'.dlq
            && s.abandoned <= s'.abandoned && s.overtaken <= s'.overtaken
            && s.rawDlq <= s'.rawDlq && s.rawDropped <= s'.rawDropped
  {
    SequencesGrow(s, step, maxRetries);
    SetsGrow(s, step, maxRetries);
  }

  lemma SuccessStays(s: State, step: Step, maxRetries: int, id: MessageId)
    requires Enabled(s, step, maxRetries) && HasSucceeded(s, id)
    ensures HasSucceeded(Apply(s, step, maxRetries), id)
  {
    HistoryGrows(s, step, maxRetries);
    var k :| 0 <= k < |s.log| && s.log[k] == Succeeded(id);
    assert Apply(s, step, maxRetries).log[k] == Succeeded(id);
  }

  // Who holds a key held it before, or has just claimed it while it was free.
  lemma HeldBefore(s: State, step: Step, maxRetries: int, t: TaskId, id: MessageId)
    requires Enabled(s, step, maxRetries)
    requires var s' := Apply(s, step, maxRetries); t in s'.handlers && Holds(s'.handlers[t], id)
    ensures || (t in s.handlers && Holds(s.handlers[t], id) && step != ReleaseKey(t))
            || (step == ClaimKey(t) && id !in s.keys && id in Apply(s, step, maxRetries).keys)
  {}

  lemma HeldBeforeOrNot(s: State, step: Step, maxRetries: int, t: TaskId, id: MessageId)
    requires Enabled(s, step, maxRetries) && t in Apply(s, step, maxRetries).handlers
    ensures Holds(Apply(s, step, maxRetries).handlers[t], id) ==>
              (t in s.handlers && Holds(s.handlers[t], id)) || id !in s.keys
  {}

  lemma KeysStep(s: State, step: Step, maxRetries: int, id: MessageId)
    requires Enabled(s, step, maxRetries)
    ensures var s' := Apply(s, step, maxRetries);
            && (id in s.keys && id !in s'.keys ==> step.ReleaseKey? && Holds(s.handlers[step.task], id))
            && (id in s'.keys && id !in s.keys ==>
                  step.ClaimKey? && step.task in s'.handlers && Holds(s'.handlers[step.task], id))
  {}

  lemma HolderStep(s: State, step: Step, maxRetries: int)
    requires Tidy(s) && OneHolder(s) && Enabled(s, step, maxRetries)
    ensures OneHolder(Apply(s, step, maxRetries))
  {
    var s' := Apply(s, step, maxRetries);
    forall t, id | t in s'.handlers && Holds(s'.handlers[t], id)
      ensures id in s'.keys
    {
      HeldBefore(s, step, maxRetries, t, id);
      KeysStep(s, step, maxRetries, id);
    }
    forall t, u, id | t in s'.handlers && u in s'.handlers && Holds(s'.handlers[t], id) && Holds(s'.handlers[u], id)
      ensures t == u
    {
      HeldBefore(s, step, maxRetries, t, id);
      HeldBefore(s, step, maxRetries, u, id);
    }
  }

  // A holder keeps its key until it succeeds, gives it back, or dies and leaves it behind.
  lemma HolderMoves(s: State, step: Step, maxRetries: int, t: TaskId, id: MessageId)
    requires Enabled(s, step, maxRetries) && t in s.handlers && Holds(s.handlers[t], id)
    ensures var s' := Apply(s, step, maxRetries);
            (t in s'.handlers && Holds(s'.handlers[t], id)) || HasSucceeded(s', id)
            || id in s'.abandoned || id !in s'.keys
  {
    if step == Return(t, true) {
      assert Apply(s, step, maxRetries).log[|s.log|] == Succeeded(id);
    }
  }

  lemma ExplainedStep(s: State, step: Step, maxRetries: int)
    requires KeysExplained(s) && Enabled(s, step, maxRetries)
    ensures KeysExplained(Apply(s, step, maxRetries))
  {
    var s' := Apply(s, step, maxRetries);
    HistoryGrows(s, step, maxRetries);
    forall id | id in s'.keys
      ensures HasSucceeded(s', id) || id in s'.abandoned || Held(s', id)
    {
      KeysStep(s, step, maxRetries, id);
      if id in s.keys {
        if HasSucceeded(s, id) {
          SuccessStays(s, step, maxRetries, id);
        } else if Held(s, id) {
          var t :| t in s.handlers && Holds(s.handlers[t], id);
          HolderMoves(s, step, maxRetries, t, id);
        }
      }
    }
  }

  lemma UnheldKeyStep(s: State, step: Step, maxRetries: int, id: MessageId)
    requires id in s.keys && !Held(s, id) && Enabled(s, step, maxRetries)
    ensures var s' := Apply(s, step, maxRetries);
            && id in s'.keys && !Held(s', id)
            && (s'.log == s.log || (|s'.log| == |s.log| + 1 && s'.log[..|s.log|] == s.log && s'.log[|s.log|].id != id))
  {
    var s' := Apply(s, step, maxRetries);
    KeysStep(s, step, maxRetries, id);
    UnheldLog(s, step, maxRetries, id);
    forall t | t in s'.handlers
      ensures !Holds(s'.handlers[t], id)
    {
      HeldBeforeOrNot(s, step, maxRetries, t, id);
    }
  }

  // Only a holder and a task that finds the key free write to the log under an id.
  lemma UnheldLog(s: State, step: Step, maxRetries: int, id: MessageId)
    requires id in s.keys && !Held(s, id) && Enabled(s, step, maxRetries)
    ensures var s' := Apply(s, step, maxRetries);
            s'.log == s.log || (|s'.log| == |s.log| + 1 && s'.log[..|s.log|] == s.log && s'.log[|s.log|].id != id)
  {
    if step.Return? {
      assert !Holds(s.handlers[step.task], id);
    }
  }

  lemma StuckStep(s: State, step: Step, maxRetries: int)
    requires OneHolder(s) && LivesMatchKeys(s) && AbandonedStuck(s) && Enabled(s, step, maxRetries)
    ensures AbandonedStuck(Apply(s, step, maxRetries))
  {
    var s' := Apply(s, step, maxRetries);
    forall id | id in s'.abandoned
      ensures Stuck(s', id)
    {
      if id in s.abandoned {
        UnheldKeyStep(s, step, maxRetries, id);
        SuccessNeedsEvent(s, s', id);
      } else {
        DeathLeavesStuck(s, step.task, id);
      }
    }
  }

  lemma DeathLeavesStuck(s: State, t: TaskId, id: MessageId)
    requires OneHolder(s) && LivesMatchKeys(s) && t in s.handlers && Holds(s.handlers[t], id)
    ensures Stuck(Perish(s, t), id)
  {
    assert LifeOf(s.log, id) != Done;
    var s' := Perish(s, t);
    forall u | u in s'.handlers
      ensures !Holds(s'.handlers[u], id)
    {
      assert u != t && s'.handlers[u] == s.handlers[u];
    }
  }

  lemma LivesAfterClaim(s: State, t: TaskId)
    requires OneHolder(s) && LivesMatchKeys(s) && Handles(s, t, Received)
    ensures LivesMatchKeys(TryClaim(s, t))
  {
    var id0 := s.handlers[t].payload.message.id;
    var s' := TryClaim(s, t);
    if id0 !in s.keys {
      forall id ensures LifeOf(s'.log, id) == if id == id0 then Busy else LifeOf(s.log, id) {
        LifeAfter(s.log, Started(id0), id);
      }
      forall id ensures HasSucceeded(s', id) <==> HasSucceeded(s, id) {
        assert Succeeded(id) in s'.log <==> Succeeded(id) in s.log;
      }
    }
    forall u, id | u in s'.handlers && Holds(s'.handlers[u], id)
      ensures LifeOf(s'.log, id) == if s'.handlers[u].phase == Working then Busy else Idle
    {
      if u != t {
        assert Holds(s.handlers[u], id) && id in s.keys;
      }
    }
  }

  lemma LivesAfterReturn(s: State, t: TaskId, success: bool)
    requires Tidy(s) && OneHolder(s) && LivesMatchKeys(s) && Handles(s, t, Working)
    ensures LivesMatchKeys(FinishCallback(s, t, success))
  {
    var id0 := s.handlers[t].payload.message.id;
    assert Holds(s.handlers[t], id0);
    forall id { LifeAfter(s.log, if success then Succeeded(id0) else Failed(id0), id); }
    var s' := FinishCallback(s, t, success);
    forall u, id | u in s'.handlers && Holds(s'.handlers[u], id)
      ensures LifeOf(s'.log, id) == if s'.handlers[u].phase == Working then Busy else Idle
    {
      assert u in s.handlers && Holds(s.handlers[u], id);
    }
  }

  lemma LivesAfterRelease(s: State, t: TaskId, maxRetries: int)
    requires Tidy(s) && OneHolder(s) && LivesMatchKeys(s) && Handles(s, t, Releasing)
    ensures LivesMatchKeys(Apply(s, ReleaseKey(t), maxRetries))
  {
    assert Holds(s.handlers[t], s.handlers[t].payload.message.id);
  }

  lemma LivesStep(s: State, step: Step, maxRetries: int)
    requires Tidy(s) && OneHolder(s) && LivesMatchKeys(s) && Enabled(s, step, maxRetries)
    ensures LivesMatchKeys(Apply(s, step, maxRetries))
  {
    match step
    case ClaimKey(t) => LivesAfterClaim(s, t);
    case Return(t, success) => LivesAfterReturn(s, t, success);
    case ReleaseKey(t) => LivesAfterRelease(s, t, maxRetries);
    case _ => LivesUntouched(s, step, maxRetries);
  }

  lemma LivesUntouched(s: State, step: Step, maxRetries: int)
    requires LivesMatchKeys(s) && Enabled(s, step, maxRetries)
    requires !step.ClaimKey? && !step.Return? && !step.ReleaseKey?
    ensures LivesMatchKeys(Apply(s, step, maxRetries))
  {
    var s' := Apply(s, step, maxRetries);
    KeysAndLogKept(s, step, maxRetries);
    forall t, id | t in s'.handlers && Holds(s'.handlers[t], id)
      ensures LifeOf(s'.log, id) == if s'.handlers[t].phase == Working then Busy else Idle
    {
      HolderUntouched(s, step, maxRetries, t, id);
    }
  }

  lemma KeysAndLogKept(s: State, step: Step, maxRetries: int)
    requires Enabled(s, step, maxRetries) && !step.ClaimKey? && !step.Return? && !step.ReleaseKey?
    ensures Apply(s, step, maxRetries).log == s.log && Apply(s, step, maxRetries).keys == s.keys
  {}

  lemma HolderUntouched(s: State, step: Step, maxRetries: int, t: TaskId, id: MessageId)
    requires Enabled(s, step, maxRetries) && !step.ClaimKey? && !step.Return? && !step.ReleaseKey?
    requires var s' := Apply(s, step, maxRetries); t in s'.handlers && Holds(s'.handlers[t], id)
    ensures t in s.handlers && s.handlers[t] == Apply(s, step, maxRetries).handlers[t]
  {}

  lemma AwaitingClaim(s: State, t: TaskId, maxRetries: int, e: EntryId, id: MessageId)
    requires Tidy(s) && KeysExplained(s) && Awaiting(s, e, id) && Enabled(s, ClaimKey(t), maxRetries)
    ensures Secure(TryClaim(s, t), id)
  {
    var s' := TryClaim(s, t);
    if s.handlers[t].entry == e && id in s.keys {
      if Held(s, id) {
        var u :| u in s.handlers && Holds(s.handlers[u], id);
        assert u in s'.handlers && s'.handlers[u] == s.handlers[u];
      }
    } else {
      assert Awaiting(s', e, id);
    }
  }

  // A message kept by an entry stays kept when that entry gains or loses an acknowledging
  // handler: whoever acknowledges it has seen the key taken, or has settled the message.
  lemma AwaitingReturn(s: State, t: TaskId, success: bool, e: EntryId, id: MessageId)
    requires Tidy(s) && Awaiting(s, e, id) && Handles(s, t, Working)
    ensures Secure(FinishCallback(s, t, success), id)
  {
    var s' := FinishCallback(s, t, success);
    if s.handlers[t].entry == e && success {
      assert s'.log[|s.log|] == Succeeded(id);
    } else {
      assert Awaiting(s', e, id);
    }
  }

  lemma AwaitingRequeue(s: State, t: TaskId, o: PushOutcome, maxRetries: int, e: EntryId, id: MessageId)
    requires Tidy(s) && Awaiting(s, e, id) && Enabled(s, Requeue(t, o), maxRetries)
    ensures Secure(Apply(s, Requeue(t, o), maxRetries), id)
  {
    if s.handlers[t].entry == e {
      WriteRetrySecures(s, t, o, maxRetries);
    } else {
      assert Awaiting(Apply(s, Requeue(t, o), maxRetries), e, id);
    }
  }

  lemma AwaitingDeath(s: State, t: TaskId, e: EntryId, id: MessageId)
    requires Awaiting(s, e, id) && t in s.handlers
    ensures Awaiting(Perish(s, t), e, id)
  {
    var s' := Perish(s, t);
    assert forall u :: u in s'.handlers ==> u in s.handlers && s'.handlers[u] == s.handlers[u];
  }

  lemma AwaitingElse(s: State, step: Step, maxRetries: int, e: EntryId, id: MessageId)
    requires Tidy(s) && Awaiting(s, e, id) && Enabled(s, step, maxRetries)
    requires !step.ClaimKey? && !step.Return? && !step.Requeue? && !step.Die?
    ensures Awaiting(Apply(s, step, maxRetries), e, id)
  {}

  lemma AwaitingStep(s: State, step: Step, maxRetries: int, e: EntryId, id: MessageId)
    requires Tidy(s) && KeysExplained(s) && Awaiting(s, e, id) && Enabled(s, step, maxRetries)
    ensures Secure(Apply(s, step, maxRetries), id)
  {
    match step
    case ClaimKey(t) => AwaitingClaim(s, t, maxRetries, e, id);
    case Return(t, success) => AwaitingReturn(s, t, success, e, id);
    case Requeue(t, o) => AwaitingRequeue(s, t, o, maxRetries, e, id);
    case Die(t) => AwaitingDeath(s, t, e, id);
    case _ => AwaitingElse(s, step, maxRetries, e, id);
  }

  lemma DepositSecures(s: State, m: Message, o: PushOutcome)
    requires Tidy(s)
    ensures Secure(Deposit(s, m, o), m.id)
  {
    var s' := Deposit(s, m, o);
    if o.ToStream? {
      assert Awaiting(s', |s.stream|, m.id);
    } else {
      assert s'.dlq[|s.dlq|].id == m.id;
    }
  }

  lemma WriteRetrySecures(s: State, t: TaskId, o: PushOutcome, maxRetries: int)
    requires Tidy(s) && Enabled(s, Requeue(t, o), maxRetries)
    ensures Secure(Apply(s, Requeue(t, o), maxRetries), s.handlers[t].payload.message.id)
  {
    var s' := Apply(s, Requeue(t, o), maxRetries);
    if o.ToStream? {
      assert Awaiting(s', |s.stream|, s.handlers[t].payload.message.id);
    } else {
      assert s'.dlq[|s.dlq|].id == s.handlers[t].payload.message.id;
    }
  }

  lemma InFlightDies(s: State, t: TaskId)
    requires Tidy(s) && t in s.handlers && s.handlers[t].payload.Envelope? && OwesDisposition(s.handlers[t])
    ensures Secure(Perish(s, t), s.handlers[t].payload.message.id)
  {
    var id := s.handlers[t].payload.message.id;
    if s.handlers[t].phase == Requeueing {
      DeathAfterReleaseExactly(s, t, id);
    }
  }

  // A handler that owes a disposition goes on owing it until it succeeds, requeues or dies.
  lemma InFlightElse(s: State, step: Step, maxRetries: int, t: TaskId)
    requires Enabled(s, step, maxRetries) && t in s.handlers && OwesDisposition(s.handlers[t])
    requires step != Return(t, true) && step != Die(t) && !(step.Requeue? && step.task == t)
    ensures var s' := Apply(s, step, maxRetries);
            t in s'.handlers && OwesDisposition(s'.handlers[t]) && s'.handlers[t].payload == s.handlers[t].payload
  {}

  lemma InFlightStep(s: State, step: Step, maxRetries: int, t: TaskId, id: MessageId)
    requires Tidy(s) && Enabled(s, step, maxRetries)
    requires t in s.handlers && Owes(s.handlers[t], id)
    ensures Secure(Apply(s, step, maxRetries), id)
  {
    if step == Return(t, true) {
      assert Apply(s, step, maxRetries).log[|s.log|] == Succeeded(id);
    } else if step.Requeue? && step.task == t {
      WriteRetrySecures(s, t, step.outcome, maxRetries);
    } else if step == Die(t) {
      InFlightDies(s, t);
    } else {
      InFlightElse(s, step, maxRetries, t);
    }
  }

  lemma PushedStep(s: State, step: Step, maxRetries: int, id: MessageId)
    requires Enabled(s, step, maxRetries)
    ensures id in Apply(s, step, maxRetries).pushed <==>
              || id in s.pushed
              || (step.Publish? && id == step.message.id)
              || (step.Requeue? && id == s.handlers[step.task].payload.message.id)
  {}

  lemma StreamIdsStep(s: State, step: Step, maxRetries: int)
    requires AllSecure(s) && Enabled(s, step, maxRetries)
    ensures var s' := Apply(s, step, maxRetries);
            forall e :: 0 <= e < |s'.stream| && s'.stream[e].Envelope? ==> s'.stream[e].message.id in s'.pushed
  {}

  lemma SecureStep(s: State, step: Step, maxRetries: int)
    requires Tidy(s) && KeysExplained(s) && AllSecure(s) && Enabled(s, step, maxRetries)
    ensures AllSecure(Apply(s, step, maxRetries))
  {
    var s' := Apply(s, step, maxRetries);
    StreamIdsStep(s, step, maxRetries);
    forall id | id in s'.pushed
      ensures Secure(s', id)
    {
      PushedStep(s, step, maxRetries, id);
      if step.Publish? && id == step.message.id {
        DepositSecures(s, step.message, step.outcome);
      } else if step.Requeue? && id == s.handlers[step.task].payload.message.id {
        WriteRetrySecures(s, step.task, step.outcome, maxRetries);
      } else {
        SecureKept(s, step, maxRetries, id);
      }
    }
  }

  lemma SecureKept(s: State, step: Step, maxRetries: int, id: MessageId)
    requires Tidy(s) && KeysExplained(s) && Secure(s, id) && Enabled(s, step, maxRetries)
    ensures Secure(Apply(s, step, maxRetries), id)
  {
    var s' := Apply(s, step, maxRetries);
    HistoryGrows(s, step, maxRetries);
    if HasSucceeded(s, id) {
      SuccessStays(s, step, maxRetries, id);
    } else if InDlq(s, id) {
      var k :| 0 <= k < |s.dlq| && s.dlq[k].id == id;
      assert s'.dlq[k].id == id;
    } else if id in s.abandoned || id in s.overtaken {
    } else if InFlight(s, id) {
      var t :| t in s.handlers && Owes(s.handlers[t], id);
      InFlightStep(s, step, maxRetries, t, id);
    } else {
      var e: EntryId :| Awaiting(s, e, id);
      AwaitingStep(s, step, maxRetries, e, id);
    }
  }

  lemma InvStep(s: State, step: Step, maxRetries: int)
    requires Inv(s) && Enabled(s, step, maxRetries)
    ensures Inv(Apply(s, step, maxRetries))
  {
    TidyStep(s, step, maxRetries);
    RawStep(s, step, maxRetries);
    HolderStep(s, step, maxRetries);
    ExplainedStep(s, step, maxRetries);
    StuckStep(s, step, maxRetries);
    LivesStep(s, step, maxRetries);
    SecureStep(s, step, maxRetries);
  }

  lemma {:induction false} InvRun(from: State, steps: seq<Step>, maxRetries: int, s: State)
    requires Inv(from) && Leads(from, steps, maxRetries, s)
    ensures Inv(s)
    decreases |steps|
  {
    if steps != [] {
      InvStep(from, steps[0], maxRetries);
      InvRun(Apply(from, steps[0], maxRetries), steps[1..], maxRetries, s);
    }
  }

  // --- Longer runs ---

  lemma {:induction false} LeadsSnoc(from: State, steps: seq<Step>, maxRetries: int, s: State, step: Step)
    requires Leads(from, steps, maxRetries, s) && Enabled(s, step, maxRetries)
    ensures Leads(from, steps + [step], maxRetries, Apply(s, step, maxRetries))
    decreases |steps|
  {
    if steps == [] {
      assert (steps + [step])[1..] == [];
    } else {
      LeadsSnoc(Apply(from, steps[0], maxRetries), steps[1..], maxRetries, s, step);
      assert (steps + [step])[1..] == steps[1..] + [step];
    }
  }

  lemma {:induction false} LeadsTrans(s0: State, a: seq<Step>, s1: State, b: seq<Step>, maxRetries: int, s2: State)
    requires Leads(s0, a, maxRetries, s1) && Leads(s1, b, maxRetries, s2)
    ensures Leads(s0, a + b, maxRetries, s2)
    decreases |a|
  {
    if a == [] {
      assert a + b == b;
    } else {
      LeadsTrans(Apply(s0, a[0], maxRetries), a[1..], s1, b, maxRetries, s2);
      assert (a + b)[1..] == a[1..] + b;
    }
  }

  lemma LeadsCons(s0: State, step: Step, rest: seq<Step>, maxRetries: int, s: State)
    requires Enabled(s0, step, maxRetries) && Leads(Apply(s0, step, maxRetries), rest, maxRetries, s)
    ensures Leads(s0, [step] + rest, maxRetries, s)
  {
    assert ([step] + rest)[1..] == rest;
  }

  lemma SuccessNeedsEvent(s: State, later: State, id: MessageId)
    requires s.log <= later.log && forall k :: |s.log| <= k < |later.log| ==> later.log[k].id != id
    ensures HasSucceeded(later, id) ==> HasSucceeded(s, id)
  {
    if HasSucceeded(later, id) {
      var k :| 0 <= k < |later.log| && later.log[k] == Succeeded(id);
      assert s.log[k] == Succeeded(id);
    }
  }
}
