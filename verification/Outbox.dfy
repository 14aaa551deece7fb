// The transactional outbox: `OutboxRelay` polls pending rows, pushes each to the stream and
// records the outcome. Every push, mark and crash is a step, interleaved with the steps of the
// queue's other producers and consumers.

module Outbox {
  import opened Wrappers
  import G = DeliveryGuarantees
  import Q = DeliveryProtocol
  import StreamQueue

  type EventId = Q.MessageId
  type RelayId = nat
  type Time = int

  const MAX_ATTEMPTS: nat := 3

  datatype Status = Pending | Delivered | Failed

  datatype Row = Row(status: Status, retryCount: int, maxRetries: int, lastAttempt: Option<Time>)

  // --- The rows, as the repository's statements leave them ---

  function WithDelivered(rows: map<EventId, Row>, id: EventId, now: Time): map<EventId, Row> {
    if id in rows then rows[id := rows[id].(status := Delivered, lastAttempt := Some(now))] else rows
  }

  // The UPDATE of `mark_failed`, with the count its SELECT led to.
  function WithCount(rows: map<EventId, Row>, id: EventId, retries: int, max: int, now: Time): map<EventId, Row> {
    if id !in rows then rows
    else rows[id := Row(if retries >= max then Failed else Pending, retries, rows[id].maxRetries, Some(now))]
  }

  // Both statements with nothing between them.
  function WithFailure(rows: map<EventId, Row>, id: EventId, now: Time): map<EventId, Row> {
    if id !in rows then rows else WithCount(rows, id, rows[id].retryCount + 1, rows[id].maxRetries, now)
  }

  predicate Due(row: Row, cutoff: Time) {
    row.status.Pending? && (row.lastAttempt.None? || row.lastAttempt.value < cutoff)
  }

  function DueOf(rows: map<EventId, Row>, created: seq<EventId>, cutoff: Time): seq<EventId> {
    if created == [] then []
    else (if created[0] in rows && Due(rows[created[0]], cutoff) then [created[0]] else [])
         + DueOf(rows, created[1..], cutoff)
  }

  function Take(s: seq<EventId>, limit: nat): seq<EventId> { if |s| <= limit then s else s[..limit] }

  // --- The step system ---

  // What a relay is doing: the head of `batch` is the event in hand.
  datatype Hand =
    | Idle
    | Pushing(batch: seq<EventId>, attempt: nat)
    | Marking(batch: seq<EventId>, attempt: nat)
    | Failing(batch: seq<EventId>)
    | Recording(batch: seq<EventId>, retries: int, max: int)  // the SELECT of `mark_failed` done, its UPDATE next

  datatype Entry = Attempted(id: EventId) | CutShort(id: EventId)

  // `log` records push attempts and the deliveries given up without a mark.
  datatype World = World(rows: map<EventId, Row>, queue: Q.State, hands: map<RelayId, Hand>, log: seq<Entry>)

  const START := World(map[], Q.INIT, map[], [])

  datatype Step =
    | Create(id: EventId, maxRetries: int)
    | Poll(relay: RelayId, batch: seq<EventId>)
    | Push(relay: RelayId, route: Option<Q.PushOutcome>, raised: bool)
    | MarkDelivered(relay: RelayId, now: Time, raised: bool)
    | ReadRetries(relay: RelayId, raised: bool)
    | MarkFailed(relay: RelayId, now: Time, raised: bool)
    | Crash(relay: RelayId)
    | Queue(step: Q.Step)

  function HandOf(w: World, r: RelayId): Hand { if r in w.hands then w.hands[r] else Idle }

  predicate NoneTwice(batch: seq<EventId>) { forall i, j :: 0 <= i < j < |batch| ==> batch[i] != batch[j] }

  predicate Enabled(w: World, step: Step, maxRetries: int) {
    match step
    case Create(id, _) => id !in w.rows
    case Poll(r, batch) =>
      && HandOf(w, r).Idle? && NoneTwice(batch)
      && forall i :: 0 <= i < |batch| ==> batch[i] in w.rows && w.rows[batch[i]].status.Pending?
    case Push(r, route, raised) =>
      && HandOf(w, r).Pushing? && HandOf(w, r).batch != []
      && (route == None || route == Some(Q.DlqThenRaise) ==> raised)
    case MarkDelivered(r, _, _) => HandOf(w, r).Marking? && HandOf(w, r).batch != []
    case ReadRetries(r, _) => HandOf(w, r).Failing? && HandOf(w, r).batch != []
    case MarkFailed(r, _, _) => HandOf(w, r).Recording? && HandOf(w, r).batch != []
    case Crash(r) => !HandOf(w, r).Idle? && HandOf(w, r).batch != []
    case Queue(s) => Q.Enabled(w.queue, s, maxRetries)
  }

  function NextEvent(batch: seq<EventId>): Hand
    requires batch != []
  {
    if |batch| > 1 then Pushing(batch[1..], 0) else Idle
  }

  function NextAttempt(batch: seq<EventId>, attempt: nat): Hand {
    if attempt + 1 < MAX_ATTEMPTS then Pushing(batch, attempt + 1) else Failing(batch)
  }

  // An unknown event is passed over.
  function AfterRead(rows: map<EventId, Row>, batch: seq<EventId>): Hand
    requires batch != []
  {
    if batch[0] !in rows then NextEvent(batch)
    else Recording(batch, rows[batch[0]].retryCount + 1, rows[batch[0]].maxRetries)
  }

  ghost function After(w: World, step: Step, maxRetries: int): World
    requires Enabled(w, step, maxRetries)
  {
    match step
    case Create(id, max) => w.(rows := w.rows[id := Row(Pending, 0, max, None)])
    case Poll(r, batch) => w.(hands := w.hands[r := if batch == [] then Idle else Pushing(batch, 0)])
    case Push(r, route, raised) =>
      var Pushing(batch, attempt) := HandOf(w, r);
      w.(queue := if route.Some? then Q.Deposit(w.queue, Q.Message(batch[0], 0), route.value) else w.queue,
         hands := w.hands[r := if raised then NextAttempt(batch, attempt) else Marking(batch, attempt)],
         log := w.log + [Attempted(batch[0])])
    case MarkDelivered(r, now, raised) =>
      var Marking(batch, attempt) := HandOf(w, r);
      if raised then w.(hands := w.hands[r := NextAttempt(batch, attempt)])
      else w.(rows := WithDelivered(w.rows, batch[0], now), hands := w.hands[r := NextEvent(batch)])
    case ReadRetries(r, raised) =>
      var Failing(batch) := HandOf(w, r);
      if raised then w.(hands := w.hands[r := Idle], log := w.log + [CutShort(batch[0])])
      else w.(hands := w.hands[r := AfterRead(w.rows, batch)])
    case MarkFailed(r, now, raised) =>
      var Recording(batch, retries, max) := HandOf(w, r);
      if raised then w.(hands := w.hands[r := Idle], log := w.log + [CutShort(batch[0])])
      else w.(rows := WithCount(w.rows, batch[0], retries, max, now), hands := w.hands[r := NextEvent(batch)])
    case Crash(r) => w.(hands := w.hands[r := Idle], log := w.log + [CutShort(HandOf(w, r).batch[0])])
    case Queue(s) => w.(queue := Q.Apply(w.queue, s, maxRetries))
  }

  ghost predicate Leads(from: World, steps: seq<Step>, maxRetries: int, w: World)
    decreases |steps|
  {
    if steps == [] then w == from
    else Enabled(from, steps[0], maxRetries) && Leads(After(from, steps[0], maxRetries), steps[1..], maxRetries, w)
  }

  lemma LeadsCons(w0: World, step: Step, rest: seq<Step>, maxRetries: int, w: World)
    requires Enabled(w0, step, maxRetries) && Leads(After(w0, step, maxRetries), rest, maxRetries, w)
    ensures Leads(w0, [step] + rest, maxRetries, w)
  {
    assert ([step] + rest)[1..] == rest;
  }

  lemma {:induction false} LeadsTrans(w0: World, a: seq<Step>, w1: World, b: seq<Step>, maxRetries: int, w2: World)
    requires Leads(w0, a, maxRetries, w1) && Leads(w1, b, maxRetries, w2)
    ensures Leads(w0, a + b, maxRetries, w2)
    decreases |a|
  {
    if a == [] {
      assert a + b == b;
    } else {
      LeadsTrans(After(w0, a[0], maxRetries), a[1..], w1, b, maxRetries, w2);
      assert (a + b)[1..] == a[1..] + b;
    }
  }

  // --- The lifecycle under any number of relays ---

  // Deliveries an event may fail: one when max_retries is not positive.
  function Limit(row: Row): int { if row.maxRetries < 1 then 1 else row.maxRetries }

  ghost predicate RowsBounded(w: World) {
    forall id :: id in w.rows ==>
      && 0 <= w.rows[id].retryCount
      && (w.rows[id].status.Pending? ==> w.rows[id].retryCount < Limit(w.rows[id]))
      && (w.rows[id].status.Failed? ==> w.rows[id].retryCount >= Limit(w.rows[id]))
  }

  // What is marked delivered, or about to be, has been pushed.
  ghost predicate MarksArePushed(w: World) {
    && (forall id :: id in w.rows && w.rows[id].status.Delivered? ==> id in w.queue.pushed)
    && (forall r :: r in w.hands && w.hands[r].Marking? && w.hands[r].batch != [] ==>
          w.hands[r].batch[0] in w.queue.pushed)
  }

  // What is about to be written as a count goes with the row's limit, which never changes.
  ghost predicate RecordingsFit(w: World) {
    forall r :: r in w.hands && w.hands[r].Recording? && w.hands[r].batch != [] ==>
      && w.hands[r].retries >= 1 && w.hands[r].batch[0] in w.rows
      && w.hands[r].max == w.rows[w.hands[r].batch[0]].maxRetries
  }

  lemma LimitsStep(w: World, step: Step, maxRetries: int, id: EventId)
    requires Enabled(w, step, maxRetries) && id in w.rows
    ensures id in After(w, step, maxRetries).rows
    ensures After(w, step, maxRetries).rows[id].maxRetries == w.rows[id].maxRetries
  {
  }

  lemma RecordingsFitStep(w: World, step: Step, maxRetries: int)
    requires RowsBounded(w) && RecordingsFit(w) && Enabled(w, step, maxRetries)
    ensures RecordingsFit(After(w, step, maxRetries))
  {
    var w' := After(w, step, maxRetries);
    forall r | r in w'.hands && w'.hands[r].Recording? && w'.hands[r].batch != []
      ensures w'.hands[r].retries >= 1 && w'.hands[r].batch[0] in w'.rows
      ensures w'.hands[r].max == w'.rows[w'.hands[r].batch[0]].maxRetries
    {
      if !(step.ReadRetries? && step.relay == r) {
        LimitsStep(w, step, maxRetries, w'.hands[r].batch[0]);
      }
    }
  }

  lemma RowsBoundedStep(w: World, step: Step, maxRetries: int)
    requires RowsBounded(w) && RecordingsFit(w) && Enabled(w, step, maxRetries)
    ensures RowsBounded(After(w, step, maxRetries))
  {
  }

  lemma MarksArePushedStep(w: World, step: Step, maxRetries: int)
    requires MarksArePushed(w) && Enabled(w, step, maxRetries)
    ensures MarksArePushed(After(w, step, maxRetries))
  {
    assert w.queue.pushed <= After(w, step, maxRetries).queue.pushed;
  }

  lemma {:induction false} LifecycleRun(from: World, steps: seq<Step>, maxRetries: int, w: World)
    requires RowsBounded(from) && RecordingsFit(from) && MarksArePushed(from) && Leads(from, steps, maxRetries, w)
    ensures RowsBounded(w) && MarksArePushed(w)
    decreases |steps|
  {
    if steps != [] {
      RowsBoundedStep(from, steps[0], maxRetries);
      RecordingsFitStep(from, steps[0], maxRetries);
      MarksArePushedStep(from, steps[0], maxRetries);
      LifecycleRun(After(from, steps[0], maxRetries), steps[1..], maxRetries, w);
    }
  }

  // Pending means retries remain, failed means they are used up, delivered means pushed.
  lemma Lifecycle(steps: seq<Step>, maxRetries: int, w: World, id: EventId)
    requires Leads(START, steps, maxRetries, w) && id in w.rows
    ensures var row := w.rows[id];
            && (row.status.Pending? ==> row.retryCount < Limit(row))
            && (row.status.Failed? ==> row.retryCount >= Limit(row))
            && (row.status.Delivered? ==> id in w.queue.pushed)
  {
    LifecycleRun(START, steps, maxRetries, w);
  }

  // --- The lifecycle under one relay ---

  // Nobody but the relays in `relays` takes part in the step.
  predicate Uses(step: Step, relays: set<RelayId>) { step.Create? || step.Queue? || step.relay in relays }

  predicate UsesOnly(steps: seq<Step>, relays: set<RelayId>) {
    forall i :: 0 <= i < |steps| ==> Uses(steps[i], relays)
  }

  ghost predicate RowsInv(w: World) {
    forall id :: id in w.rows ==>
      var row := w.rows[id];
      0 <= row.retryCount && if row.status.Failed? then row.retryCount == Limit(row) else row.retryCount < Limit(row)
  }

  // The relay holds only pending events, each once.
  ghost predicate HandInv(w: World, r: RelayId) {
    var h := HandOf(w, r);
    h.Idle? ||
    (&& h.batch != [] && NoneTwice(h.batch)
     && (forall i :: 0 <= i < |h.batch| ==> h.batch[i] in w.rows && w.rows[h.batch[i]].status.Pending?)
     && (h.Pushing? || h.Marking? ==> h.attempt < MAX_ATTEMPTS)
     && (h.Recording? ==> var row := w.rows[h.batch[0]]; h.retries == row.retryCount + 1 && h.max == row.maxRetries))
  }

  function Attempts(w: World, id: EventId): nat { multiset(w.log)[Attempted(id)] }

  function Cuts(w: World, id: EventId): nat { multiset(w.log)[CutShort(id)] }

  function Retries(w: World, id: EventId): int { if id in w.rows then w.rows[id].retryCount else 0 }

  function Deliveries(w: World, id: EventId): nat { if id in w.rows && w.rows[id].status.Delivered? then 1 else 0 }

  // Push attempts of the delivery in progress.
  function Underway(w: World, r: RelayId, id: EventId): nat {
    match HandOf(w, r)
    case Idle => 0
    case Pushing(batch, attempt) => if batch != [] && batch[0] == id then attempt else 0
    case Marking(batch, attempt) => if batch != [] && batch[0] == id then attempt + 1 else 0
    case Failing(batch) => if batch != [] && batch[0] == id then MAX_ATTEMPTS else 0
    case Recording(batch, _, _) => if batch != [] && batch[0] == id then MAX_ATTEMPTS else 0
  }

  ghost predicate Counted(w: World, r: RelayId, id: EventId) {
    && MAX_ATTEMPTS * Retries(w, id) + Underway(w, r, id) <= Attempts(w, id)
    && Attempts(w, id) <= MAX_ATTEMPTS * (Retries(w, id) + Deliveries(w, id) + Cuts(w, id)) + Underway(w, r, id)
  }

  ghost predicate Inv(w: World, r: RelayId) { RowsInv(w) && HandInv(w, r) && forall id :: Counted(w, r, id) }

  lemma RowsStep(w: World, r: RelayId, step: Step, maxRetries: int)
    requires RowsInv(w) && HandInv(w, r) && Enabled(w, step, maxRetries) && Uses(step, {r})
    ensures RowsInv(After(w, step, maxRetries))
  {
  }

  lemma HandStep(w: World, r: RelayId, step: Step, maxRetries: int)
    requires HandInv(w, r) && Enabled(w, step, maxRetries) && Uses(step, {r})
    ensures HandInv(After(w, step, maxRetries), r)
  {
  }

  lemma CountPush(w: World, r: RelayId, step: Step, maxRetries: int, id: EventId)
    requires HandInv(w, r) && Counted(w, r, id) && Enabled(w, step, maxRetries) && Uses(step, {r}) && step.Push?
    ensures Counted(After(w, step, maxRetries), r, id)
  {
  }

  lemma CountMark(w: World, r: RelayId, step: Step, maxRetries: int, id: EventId)
    requires HandInv(w, r) && Counted(w, r, id) && Enabled(w, step, maxRetries) && Uses(step, {r})
    requires step.MarkDelivered? || step.ReadRetries? || step.MarkFailed?
    ensures Counted(After(w, step, maxRetries), r, id)
  {
  }

  lemma CountStep(w: World, r: RelayId, step: Step, maxRetries: int, id: EventId)
    requires HandInv(w, r) && Counted(w, r, id) && Enabled(w, step, maxRetries) && Uses(step, {r})
    ensures Counted(After(w, step, maxRetries), r, id)
  {
    match step
    case Push(_, _, _) => CountPush(w, r, step, maxRetries, id);
    case MarkDelivered(_, _, _) => CountMark(w, r, step, maxRetries, id);
    case ReadRetries(_, _) => CountMark(w, r, step, maxRetries, id);
    case MarkFailed(_, _, _) => CountMark(w, r, step, maxRetries, id);
    case _ =>
  }

  lemma InvStep(w: World, r: RelayId, step: Step, maxRetries: int)
    requires Inv(w, r) && Enabled(w, step, maxRetries) && Uses(step, {r})
    ensures Inv(After(w, step, maxRetries), r)
  {
    RowsStep(w, r, step, maxRetries);
    HandStep(w, r, step, maxRetries);
    forall id ensures Counted(After(w, step, maxRetries), r, id) {
      CountStep(w, r, step, maxRetries, id);
    }
  }

  lemma {:induction false} InvRun(from: World, r: RelayId, steps: seq<Step>, maxRetries: int, w: World)
    requires Inv(from, r) && UsesOnly(steps, {r}) && Leads(from, steps, maxRetries, w)
    ensures Inv(w, r)
    decreases |steps|
  {
    if steps != [] {
      InvStep(from, r, steps[0], maxRetries);
      InvRun(After(from, steps[0], maxRetries), r, steps[1..], maxRetries, w);
    }
  }

  // Under one relay a failed event has used its retries exactly, and a delivered one had some left.
  lemma RetriesExact(r: RelayId, steps: seq<Step>, maxRetries: int, w: World, id: EventId)
    requires UsesOnly(steps, {r}) && Leads(START, steps, maxRetries, w) && id in w.rows
    ensures w.rows[id].status.Failed? <==> w.rows[id].retryCount == Limit(w.rows[id])
    ensures 0 <= w.rows[id].retryCount <= Limit(w.rows[id])
  {
    InvRun(START, r, steps, maxRetries, w);
  }

  // An event is pushed at most three times a delivery, and a failed one exactly three times for
  // each of its retries, unless a crash or a failing mark cut a delivery short.
  lemma PushesBounded(r: RelayId, steps: seq<Step>, maxRetries: int, w: World, id: EventId)
    requires UsesOnly(steps, {r}) && Leads(START, steps, maxRetries, w) && id in w.rows
    ensures Attempts(w, id) <= 3 * (Limit(w.rows[id]) + Cuts(w, id))
    ensures w.rows[id].status.Failed? ==> Attempts(w, id) >= 3 * Limit(w.rows[id])
    ensures w.rows[id].status.Failed? && Cuts(w, id) == 0 ==> Attempts(w, id) == 3 * Limit(w.rows[id])
  {
    InvRun(START, r, steps, maxRetries, w);
    assert Counted(w, r, id);
    UnderwayIsPending(w, r, id);
  }

  lemma UnderwayIsPending(w: World, r: RelayId, id: EventId)
    requires Inv(w, r)
    ensures Underway(w, r, id) <= MAX_ATTEMPTS
    ensures Underway(w, r, id) > 0 ==> id in w.rows && w.rows[id].status.Pending?
  {
  }

  // A terminal row is never touched again.
  lemma TerminalStep(w: World, r: RelayId, step: Step, maxRetries: int, id: EventId)
    requires HandInv(w, r) && Enabled(w, step, maxRetries) && Uses(step, {r})
    requires id in w.rows && !w.rows[id].status.Pending?
    ensures id in After(w, step, maxRetries).rows && After(w, step, maxRetries).rows[id] == w.rows[id]
  {
  }

  lemma {:induction false} TerminalIsFinal(from: World, r: RelayId, steps: seq<Step>, maxRetries: int, w: World,
                                           id: EventId)
    requires Inv(from, r) && UsesOnly(steps, {r}) && Leads(from, steps, maxRetries, w)
    requires id in from.rows && !from.rows[id].status.Pending?
    ensures id in w.rows && w.rows[id] == from.rows[id]
    decreases |steps|
  {
    if steps != [] {
      InvStep(from, r, steps[0], maxRetries);
      TerminalStep(from, r, steps[0], maxRetries, id);
      TerminalIsFinal(After(from, steps[0], maxRetries), r, steps[1..], maxRetries, w, id);
    }
  }

  // --- From the outbox to the callback, under any number of relays ---

  // The queue a run leaves is the queue of a protocol run: a relay is one more producer.
  lemma {:induction false} QueueRun(from: World, steps: seq<Step>, maxRetries: int, w: World)
    returns (run: seq<Q.Step>)
    requires Leads(from, steps, maxRetries, w)
    ensures Q.Leads(from.queue, run, maxRetries, w.queue)
    decreases |steps|
  {
    run := [];
    if steps != [] {
      run := QueueRun(After(from, steps[0], maxRetries), steps[1..], maxRetries, w);
      match steps[0]
      case Push(r, Some(o), _) =>
        var publish := Q.Publish(Q.Message(HandOf(from, r).batch[0], 0), o);
        Q.LeadsCons(from.queue, publish, run, maxRetries, w.queue);
        run := [publish] + run;
      case Queue(s) =>
        Q.LeadsCons(from.queue, s, run, maxRetries, w.queue);
        run := [s] + run;
      case _ =>
    }
  }

  // Nothing is lost between the outbox and the callback: a created event is pending, failed, or
  // delivered and then accounted for at the queue as any pushed message is.
  lemma NothingLostOnTheWay(steps: seq<Step>, maxRetries: int, w: World, id: EventId)
    requires Leads(START, steps, maxRetries, w) && id in w.rows && w.rows[id].status.Delivered?
    ensures || Q.HasSucceeded(w.queue, id) || Q.InDlq(w.queue, id) || Q.InFlight(w.queue, id)
            || Q.Stuck(w.queue, id) || id in w.queue.overtaken
            || exists e :: 0 <= e < |w.queue.stream| && e !in w.queue.acked && w.queue.stream[e].Envelope?
                           && w.queue.stream[e].message.id == id
  {
    Lifecycle(steps, maxRetries, w, id);
    var run := QueueRun(START, steps, maxRetries, w);
    G.Conservation(run, maxRetries, w.queue, id);
  }

  // However often the relays push an event, its callback succeeds at most once.
  lemma DuplicatePushesSucceedOnce(steps: seq<Step>, maxRetries: int, w: World, id: EventId)
    requires Leads(START, steps, maxRetries, w)
    ensures forall i, j :: 0 <= i < j < |w.queue.log| && w.queue.log[i] == Q.Succeeded(id) ==> w.queue.log[j].id != id
  {
    var run := QueueRun(START, steps, maxRetries, w);
    G.SingleHolderSingleSuccess(run, maxRetries, w.queue, id);
  }

  // --- Two relays ---

  // A relay that fails to push its event three times and has read the retry count.
  lemma FailsToRead(w: World, r: RelayId, id: EventId, maxRetries: int) returns (steps: seq<Step>, v: World)
    requires HandOf(w, r) == Pushing([id], 0) && id in w.rows
    ensures Leads(w, steps, maxRetries, v) && UsesOnly(steps, {r})
    ensures v.rows == w.rows && v.hands == w.hands[r := AfterRead(w.rows, [id])]
  {
    var miss, read := Push(r, None, true), ReadRetries(r, false);
    var v1 := After(w, miss, maxRetries);
    var v2 := After(v1, miss, maxRetries);
    var v3 := After(v2, miss, maxRetries);
    v := After(v3, read, maxRetries);
    steps := [read] + [];
    LeadsCons(v3, read, [], maxRetries, v);
    LeadsCons(v2, miss, steps, maxRetries, v);
    steps := [miss] + steps;
    LeadsCons(v1, miss, steps, maxRetries, v);
    steps := [miss] + steps;
    LeadsCons(w, miss, steps, maxRetries, v);
    steps := [miss] + steps;
  }

  // And has marked it failed.
  lemma FailsThrough(w: World, r: RelayId, id: EventId, maxRetries: int, now: Time) returns (steps: seq<Step>, v: World)
    requires HandOf(w, r) == Pushing([id], 0) && id in w.rows
    ensures Leads(w, steps, maxRetries, v) && UsesOnly(steps, {r})
    ensures v.rows == WithFailure(w.rows, id, now) && v.hands == w.hands[r := Idle]
  {
    var first, u := FailsToRead(w, r, id, maxRetries);
    var fail := MarkFailed(r, now, false);
    v := After(u, fail, maxRetries);
    LeadsCons(u, fail, [], maxRetries, v);
    LeadsTrans(w, first, u, [fail] + [], maxRetries, v);
    steps := first + ([fail] + []);
  }

  // Two relays have polled the event and the first has delivered it.
  lemma DeliveredByOneOfTwo(r: RelayId, q: RelayId, id: EventId, maxRetries: int, max: int, now: Time)
    returns (steps: seq<Step>, w: World)
    requires r != q
    ensures Leads(START, steps, maxRetries, w) && UsesOnly(steps, {r, q})
    ensures id in w.rows && w.rows[id] == Row(Delivered, 0, max, Some(now)) && HandOf(w, q) == Pushing([id], 0)
  {
    var create, first, second := Create(id, max), Poll(r, [id]), Poll(q, [id]);
    var push, mark := Push(r, Some(Q.ToStream), false), MarkDelivered(r, now, false);
    var w1 := After(START, create, maxRetries);
    var w2 := After(w1, first, maxRetries);
    var w3 := After(w2, second, maxRetries);
    var w4 := After(w3, push, maxRetries);
    w := After(w4, mark, maxRetries);
    steps := [mark] + [];
    LeadsCons(w4, mark, [], maxRetries, w);
    LeadsCons(w3, push, steps, maxRetries, w);
    steps := [push] + steps;
    LeadsCons(w2, second, steps, maxRetries, w);
    steps := [second] + steps;
    LeadsCons(w1, first, steps, maxRetries, w);
    steps := [first] + steps;
    LeadsCons(START, create, steps, maxRetries, w);
    steps := [create] + steps;
  }

  // Any two relays can take a delivered event back to pending, to be pushed again.
  lemma TwoRelaysReviveDelivered(r: RelayId, q: RelayId, id: EventId, maxRetries: int, max: int, now: Time)
    returns (steps: seq<Step>, between: World, more: seq<Step>, w: World)
    requires r != q && max > 1
    ensures UsesOnly(steps, {r, q}) && UsesOnly(more, {r, q})
    ensures Leads(START, steps, maxRetries, between) && id in between.rows && between.rows[id].status.Delivered?
    ensures Leads(between, more, maxRetries, w) && id in w.rows && w.rows[id].status.Pending?
  {
    steps, between := DeliveredByOneOfTwo(r, q, id, maxRetries, max, now);
    more, w := FailsThrough(between, q, id, maxRetries, now);
  }

  // A run over these relays leaves the row of `id` as its first part left it, if that was terminal.
  ghost predicate Keeps(relays: set<RelayId>, maxRetries: int, steps: seq<Step>, w: World, more: seq<Step>, v: World,
                        id: EventId)
  {
    Leads(START, steps, maxRetries, w) && UsesOnly(steps, relays)
    && Leads(w, more, maxRetries, v) && UsesOnly(more, relays)
    && id in w.rows && !w.rows[id].status.Pending? ==>
      id in v.rows && v.rows[id] == w.rows[id]
  }

  // In no run over these relays is a delivered or failed row ever changed.
  ghost predicate TerminalKept(relays: set<RelayId>, maxRetries: int) {
    forall steps, w, more, v, id :: Keeps(relays, maxRetries, steps, w, more, v, id)
  }

  // Terminal rows are final exactly when there is at most one relay.
  lemma TerminalKeptExactly(relays: set<RelayId>, maxRetries: int)
    ensures TerminalKept(relays, maxRetries) <==> |relays| <= 1
  {
    if |relays| <= 1 {
      AtMostOneKeeps(relays, maxRetries);
    } else {
      ManyRevive(relays, maxRetries);
    }
  }

  lemma AtMostOneKeeps(relays: set<RelayId>, maxRetries: int)
    requires |relays| <= 1
    ensures TerminalKept(relays, maxRetries)
  {
    var r := AtMost(relays);
    forall steps, w, more, v, id
      ensures Keeps(relays, maxRetries, steps, w, more, v, id)
    {
      OneKeeps(relays, r, maxRetries, steps, w, more, v, id);
    }
  }

  lemma OneKeeps(relays: set<RelayId>, r: RelayId, maxRetries: int, steps: seq<Step>, w: World, more: seq<Step>,
                 v: World, id: EventId)
    requires relays <= {r}
    ensures Keeps(relays, maxRetries, steps, w, more, v, id)
  {
    if Leads(START, steps, maxRetries, w) && UsesOnly(steps, relays)
       && Leads(w, more, maxRetries, v) && UsesOnly(more, relays)
       && id in w.rows && !w.rows[id].status.Pending? {
      UsesMore(steps, relays, {r});
      UsesMore(more, relays, {r});
      TerminalKeptBy(r, steps, maxRetries, w, more, v, id);
    }
  }

  lemma UsesMore(steps: seq<Step>, few: set<RelayId>, many: set<RelayId>)
    requires UsesOnly(steps, few) && few <= many
    ensures UsesOnly(steps, many)
  {
  }

  lemma TerminalKeptBy(r: RelayId, steps: seq<Step>, maxRetries: int, w: World, more: seq<Step>, v: World, id: EventId)
    requires Leads(START, steps, maxRetries, w) && UsesOnly(steps, {r})
    requires Leads(w, more, maxRetries, v) && UsesOnly(more, {r})
    requires id in w.rows && !w.rows[id].status.Pending?
    ensures id in v.rows && v.rows[id] == w.rows[id]
  {
    InvRun(START, r, steps, maxRetries, w);
    TerminalIsFinal(w, r, more, maxRetries, v, id);
  }

  lemma ManyRevive(relays: set<RelayId>, maxRetries: int)
    requires |relays| > 1
    ensures !TerminalKept(relays, maxRetries)
  {
    var r :| r in relays;
    assert relays == {r} + (relays - {r});
    var q :| q in relays - {r};
    var steps, w, more, v := TwoRelaysReviveDelivered(r, q, "", maxRetries, 2, 0);
    assert UsesOnly(steps, relays) && UsesOnly(more, relays);
    assert !Keeps(relays, maxRetries, steps, w, more, v, "");
  }

  // --- A count that is lost ---

  // One relay only ever raises a row's retry count.
  lemma CountStepGrows(w: World, r: RelayId, step: Step, maxRetries: int, id: EventId)
    requires HandInv(w, r) && Enabled(w, step, maxRetries) && Uses(step, {r}) && id in w.rows
    ensures var w' := After(w, step, maxRetries); id in w'.rows && w.rows[id].retryCount <= w'.rows[id].retryCount
  {
  }

  lemma {:induction false} CountGrows(from: World, r: RelayId, steps: seq<Step>, maxRetries: int, w: World, id: EventId)
    requires HandInv(from, r) && UsesOnly(steps, {r}) && Leads(from, steps, maxRetries, w) && id in from.rows
    ensures id in w.rows && from.rows[id].retryCount <= w.rows[id].retryCount
    decreases |steps|
  {
    if steps != [] {
      HandStep(from, r, steps[0], maxRetries);
      CountStepGrows(from, r, steps[0], maxRetries, id);
      CountGrows(After(from, steps[0], maxRetries), r, steps[1..], maxRetries, w, id);
    }
  }

  // Two relays have polled the event, and the first has failed it as far as reading its count.
  lemma ReadByOneOfTwo(r: RelayId, q: RelayId, id: EventId, maxRetries: int, max: int)
    returns (steps: seq<Step>, w: World)
    requires r != q
    ensures Leads(START, steps, maxRetries, w) && UsesOnly(steps, {r, q})
    ensures w.rows == map[id := Row(Pending, 0, max, None)]
    ensures HandOf(w, r) == Recording([id], 1, max) && HandOf(w, q) == Pushing([id], 0)
  {
    var create, first, second := Create(id, max), Poll(r, [id]), Poll(q, [id]);
    var w1 := After(START, create, maxRetries);
    var w2 := After(w1, first, maxRetries);
    var w3 := After(w2, second, maxRetries);
    steps, w := FailsToRead(w3, r, id, maxRetries);
    LeadsCons(w2, second, steps, maxRetries, w);
    steps := [second] + steps;
    LeadsCons(w1, first, steps, maxRetries, w);
    steps := [first] + steps;
    LeadsCons(START, create, steps, maxRetries, w);
    steps := [create] + steps;
  }

  // Relay q polls a pending event and fails it.
  lemma PollsAndFails(w: World, q: RelayId, id: EventId, maxRetries: int, now: Time)
    returns (steps: seq<Step>, v: World)
    requires HandOf(w, q).Idle? && id in w.rows && w.rows[id].status.Pending?
    ensures Leads(w, steps, maxRetries, v) && UsesOnly(steps, {q})
    ensures v.rows == WithFailure(w.rows, id, now) && v.hands == w.hands[q := Idle]
  {
    var poll := Poll(q, [id]);
    var w1 := After(w, poll, maxRetries);
    steps, v := FailsThrough(w1, q, id, maxRetries, now);
    LeadsCons(w, poll, steps, maxRetries, v);
    steps := [poll] + steps;
  }

  // Any two relays can take a row's retry count back: one reads it, the other counts two failed
  // deliveries, and the first writes what its own read led to. Three deliveries failed, one counts.
  lemma TwoRelaysLoseCount(r: RelayId, q: RelayId, id: EventId, maxRetries: int, max: int, now: Time)
    returns (steps: seq<Step>, between: World, more: seq<Step>, w: World)
    requires r != q && max > 2
    ensures UsesOnly(steps, {r, q}) && UsesOnly(more, {r, q})
    ensures Leads(START, steps, maxRetries, between) && Leads(between, more, maxRetries, w)
    ensures id in between.rows && between.rows[id].retryCount == 2 && id in w.rows && w.rows[id].retryCount == 1
  {
    var w1, first, second;
    steps, w1 := ReadByOneOfTwo(r, q, id, maxRetries, max);
    var w2;
    first, w2 := FailsThrough(w1, q, id, maxRetries, now);
    LeadsTrans(START, steps, w1, first, maxRetries, w2);
    second, between := PollsAndFails(w2, q, id, maxRetries, now);
    LeadsTrans(START, steps + first, w2, second, maxRetries, between);
    steps := steps + first + second;
    var write := MarkFailed(r, now, false);
    w := After(between, write, maxRetries);
    LeadsCons(between, write, [], maxRetries, w);
    more := [write] + [];
  }

  // A run over these relays never takes the retry count of `id` below what its first part left.
  ghost predicate Counts(relays: set<RelayId>, maxRetries: int, steps: seq<Step>, w: World, more: seq<Step>, v: World,
                         id: EventId)
  {
    Leads(START, steps, maxRetries, w) && UsesOnly(steps, relays)
    && Leads(w, more, maxRetries, v) && UsesOnly(more, relays) && id in w.rows ==>
      id in v.rows && w.rows[id].retryCount <= v.rows[id].retryCount
  }

  ghost predicate CountsKept(relays: set<RelayId>, maxRetries: int) {
    forall steps, w, more, v, id :: Counts(relays, maxRetries, steps, w, more, v, id)
  }

  // Retry counts never fall exactly when there is at most one relay.
  lemma CountsKeptExactly(relays: set<RelayId>, maxRetries: int)
    ensures CountsKept(relays, maxRetries) <==> |relays| <= 1
  {
    if |relays| <= 1 {
      var r := AtMost(relays);
      forall steps, w, more, v, id
        ensures Counts(relays, maxRetries, steps, w, more, v, id)
      {
        OneCounts(relays, r, maxRetries, steps, w, more, v, id);
      }
    } else {
      ManyLoseCount(relays, maxRetries);
    }
  }

  lemma OneCounts(relays: set<RelayId>, r: RelayId, maxRetries: int, steps: seq<Step>, w: World, more: seq<Step>,
                  v: World, id: EventId)
    requires relays <= {r}
    ensures Counts(relays, maxRetries, steps, w, more, v, id)
  {
    if Leads(START, steps, maxRetries, w) && UsesOnly(steps, relays)
       && Leads(w, more, maxRetries, v) && UsesOnly(more, relays) && id in w.rows {
      UsesMore(steps, relays, {r});
      UsesMore(more, relays, {r});
      InvRun(START, r, steps, maxRetries, w);
      CountGrows(w, r, more, maxRetries, v, id);
    }
  }

  lemma ManyLoseCount(relays: set<RelayId>, maxRetries: int)
    requires |relays| > 1
    ensures !CountsKept(relays, maxRetries)
  {
    var r :| r in relays;
    assert relays == {r} + (relays - {r});
    var q :| q in relays - {r};
    var steps, w, more, v := TwoRelaysLoseCount(r, q, "", maxRetries, 3, 0);
    assert UsesOnly(steps, relays) && UsesOnly(more, relays);
    assert !Counts(relays, maxRetries, steps, w, more, v, "");
  }

  lemma AtMost(relays: set<RelayId>) returns (r: RelayId)
    requires |relays| <= 1
    ensures relays <= {r}
  {
    r := 0;
    if relays != {} {
      r :| r in relays;
      assert |relays - {r}| == 0;
    }
  }

  // --- The relay and its repository as objects ---

  class SqliteOutboxRepository {
    var rows: map<EventId, Row>
    var created: seq<EventId>  // by created_at

    ghost predicate Valid()
      reads this
    {
      NoneTwice(created) && forall id :: id in created <==> id in rows
    }

    constructor ()
      ensures Valid() && rows == map[]
    {
      rows, created := map[], [];
    }

    // The primary key makes a second insert of the same event raise.
    method CreateEvent(id: EventId, maxRetries: int) returns (raised: bool)
      requires Valid()
      modifies this
      ensures Valid()
      ensures raised <==> id in old(rows)
      ensures rows == if raised then old(rows) else old(rows)[id := Row(Pending, 0, maxRetries, None)]
    {
      if id in rows {
        return true;
      }
      rows := rows[id := Row(Pending, 0, maxRetries, None)];
      created := created + [id];
      return false;
    }

    method GetPendingEvents(limit: nat, cutoff: Time) returns (events: seq<EventId>)
      requires Valid()
      ensures events == Take(DueOf(rows, created, cutoff), limit)
      ensures NoneTwice(events) && |events| <= limit
      // pending and not tried since the cutoff, in the order of creation
      ensures forall i :: 0 <= i < |events| ==>
                && events[i] in rows && rows[events[i]].status == Pending
                && (rows[events[i]].lastAttempt == None || rows[events[i]].lastAttempt.value < cutoff)
      ensures forall i, j :: 0 <= i < j < |events| ==> Precedes(created, events[i], events[j])
      // one that is left out comes after as many as were asked for
      ensures forall id :: id in rows && id !in events && rows[id].status == Pending
                           && (rows[id].lastAttempt == None || rows[id].lastAttempt.value < cutoff) ==>
                |events| == limit && forall i :: 0 <= i < |events| ==> Precedes(created, events[i], id)
    {
      events := [];
      for i := 0 to |created|
        invariant DueOf(rows, created, cutoff) == events + DueOf(rows, created[i..], cutoff)
      {
        DueOfFrom(rows, created, i, cutoff, events);
        if created[i] in rows && Due(rows[created[i]], cutoff) {
          events := events + [created[i]];
        }
      }
      assert created[|created|..] == [];
      TakenAreDue(rows, created, cutoff, limit);
      TakenAreFirst(rows, created, cutoff, limit);
      if |events| > limit {
        events := events[..limit];
      }
    }

    method MarkDelivered(id: EventId, now: Time, fault: bool) returns (raised: bool)
      modifies this`rows
      ensures raised <==> fault
      ensures rows == if raised then old(rows) else WithDelivered(old(rows), id, now)
      ensures !raised && id in old(rows) ==>
                rows == old(rows)[id := Row(Delivered, old(rows)[id].retryCount, old(rows)[id].maxRetries, Some(now))]
    {
      if fault {
        return true;
      }
      if id in rows {
        rows := rows[id := rows[id].(status := Delivered, lastAttempt := Some(now))];
      }
      return false;
    }

    // Other relays may update rows between the SELECT and the UPDATE.
    method MarkFailed(id: EventId, now: Time, meanwhile: seq<Update>, fault: FailFault) returns (raised: bool)
      modifies this`rows
      ensures raised <==> fault == AtSelect || (fault == AtUpdate && id in old(rows))
      ensures rows == if fault.AtSelect? || id !in old(rows) then old(rows)
                      else var others := Updated(old(rows), meanwhile);
                           if raised then others
                           else WithCount(others, id, old(rows)[id].retryCount + 1, old(rows)[id].maxRetries, now)
      ensures !raised && id in old(rows) ==>
                var n, max := old(rows)[id].retryCount + 1, old(rows)[id].maxRetries;
                rows == Updated(old(rows), meanwhile)[id := Row(if n < max then Pending else Failed, n, max, Some(now))]
    {
      if fault.AtSelect? {
        return true;
      }
      if id !in rows {
        return false;
      }
      var retryCount := rows[id].retryCount + 1;
      var maxRetries := rows[id].maxRetries;
      var newStatus := if retryCount >= maxRetries then Failed else Pending;
      UpdatesKeepLimits(rows, meanwhile, id);
      rows := Updated(rows, meanwhile);
      if fault.AtUpdate? {
        return true;
      }
      if id in rows {
        rows := rows[id := rows[id].(status := newStatus, retryCount := retryCount, lastAttempt := Some(now))];
      }
      return false;
    }
  }

  // The updates relays make.
  datatype Update = Delivers(id: EventId, now: Time) | Records(id: EventId, retries: int, max: int, now: Time)

  function Updated(rows: map<EventId, Row>, us: seq<Update>): map<EventId, Row> {
    if us == [] then rows
    else
      var before := Updated(rows, us[..|us|-1]);
      match us[|us|-1]
      case Delivers(id, now) => WithDelivered(before, id, now)
      case Records(id, retries, max, now) => WithCount(before, id, retries, max, now)
  }

  lemma {:induction false} UpdatesKeepLimits(rows: map<EventId, Row>, us: seq<Update>, id: EventId)
    requires id in rows
    ensures id in Updated(rows, us) && Updated(rows, us)[id].maxRetries == rows[id].maxRetries
  {
    if us != [] {
      UpdatesKeepLimits(rows, us[..|us|-1], id);
    }
  }

  datatype FailFault = NoFault | AtSelect | AtUpdate

  // `mark_failed` raises; an unknown event has no UPDATE.
  predicate Stops(rows: map<EventId, Row>, id: EventId, fault: FailFault) {
    fault.AtSelect? || (fault.AtUpdate? && id in rows)
  }

  lemma DueOfFrom(rows: map<EventId, Row>, created: seq<EventId>, i: nat, cutoff: Time, done: seq<EventId>)
    requires i < |created|
    ensures done + DueOf(rows, created[i..], cutoff)
         == (if created[i] in rows && Due(rows[created[i]], cutoff) then done + [created[i]] else done)
            + DueOf(rows, created[i + 1..], cutoff)
  {
    assert created[i..][1..] == created[i + 1..];
    var rest := DueOf(rows, created[i + 1..], cutoff);
    if created[i] in rows && Due(rows[created[i]], cutoff) {
      assert done + ([created[i]] + rest) == done + [created[i]] + rest;
    } else {
      assert [] + rest == rest;
    }
  }

  lemma {:induction false} DueOfMembers(rows: map<EventId, Row>, created: seq<EventId>, cutoff: Time)
    requires NoneTwice(created)
    ensures NoneTwice(DueOf(rows, created, cutoff))
    ensures forall id :: id in DueOf(rows, created, cutoff) <==> id in created && id in rows && Due(rows[id], cutoff)
  {
    if created != [] {
      DueOfMembers(rows, created[1..], cutoff);
      assert created == [created[0]] + created[1..];
    }
  }

  lemma TakenAreDue(rows: map<EventId, Row>, created: seq<EventId>, cutoff: Time, limit: nat)
    requires NoneTwice(created)
    ensures var events := Take(DueOf(rows, created, cutoff), limit);
            NoneTwice(events) && forall i :: 0 <= i < |events| ==> events[i] in rows && Due(rows[events[i]], cutoff)
  {
    DueOfMembers(rows, created, cutoff);
    var all := DueOf(rows, created, cutoff);
    assert forall i :: 0 <= i < |all| ==> all[i] in all;
  }

  // x was created before y.
  ghost predicate Precedes(created: seq<EventId>, x: EventId, y: EventId) {
    exists a, b :: 0 <= a < b < |created| && created[a] == x && created[b] == y
  }

  lemma PrecedesLater(created: seq<EventId>, x: EventId, y: EventId)
    requires created != [] && Precedes(created[1..], x, y)
    ensures Precedes(created, x, y)
  {
    var a, b :| 0 <= a < b < |created[1..]| && created[1..][a] == x && created[1..][b] == y;
    assert created[a + 1] == x && created[b + 1] == y;
  }

  // Events of `created`, in its order.
  ghost predicate InOrder(created: seq<EventId>, s: seq<EventId>) {
    && (forall i :: 0 <= i < |s| ==> s[i] in created)
    && (forall i, j :: 0 <= i < j < |s| ==> Precedes(created, s[i], s[j]))
  }

  lemma InOrderCons(x: EventId, created: seq<EventId>, s: seq<EventId>)
    requires InOrder(created, s)
    ensures InOrder([x] + created, s) && InOrder([x] + created, [x] + s)
  {
    var more, longer := [x] + created, [x] + s;
    assert more[1..] == created;
    forall i, j | 0 <= i < j < |s| ensures Precedes(more, s[i], s[j]) {
      PrecedesLater(more, s[i], s[j]);
    }
    forall i, j | 0 <= i < j < |longer| ensures Precedes(more, longer[i], longer[j]) {
      if i == 0 {
        var b :| 0 <= b < |created| && created[b] == s[j - 1];
        assert more[0] == x && more[b + 1] == longer[j];
      } else {
        assert longer[i] == s[i - 1] && longer[j] == s[j - 1];
      }
    }
  }

  lemma {:induction false} DueOfInOrder(rows: map<EventId, Row>, created: seq<EventId>, cutoff: Time)
    ensures InOrder(created, DueOf(rows, created, cutoff))
  {
    if created != [] {
      var rest := DueOf(rows, created[1..], cutoff);
      DueOfInOrder(rows, created[1..], cutoff);
      assert created == [created[0]] + created[1..];
      InOrderCons(created[0], created[1..], rest);
      assert [] + rest == rest;
    }
  }

  lemma TakenAreFirst(rows: map<EventId, Row>, created: seq<EventId>, cutoff: Time, limit: nat)
    requires NoneTwice(created)
    ensures var events := Take(DueOf(rows, created, cutoff), limit);
            && (forall i, j :: 0 <= i < j < |events| ==> Precedes(created, events[i], events[j]))
            && (forall id :: id in created && id in rows && id !in events && Due(rows[id], cutoff) ==>
                  |events| == limit && forall i :: 0 <= i < |events| ==> Precedes(created, events[i], id))
  {
    DueOfInOrder(rows, created, cutoff);
    DueOfMembers(rows, created, cutoff);
    var all := DueOf(rows, created, cutoff);
    forall id | id in created && id in rows && id !in Take(all, limit) && Due(rows[id], cutoff)
      ensures |Take(all, limit)| == limit
      ensures forall i :: 0 <= i < |Take(all, limit)| ==> Precedes(created, Take(all, limit)[i], id)
    {
      LeftOutIsLater(created, all, limit, id);
    }
  }

  lemma LeftOutIsLater(created: seq<EventId>, all: seq<EventId>, limit: nat, id: EventId)
    requires InOrder(created, all) && id in all && id !in Take(all, limit)
    ensures |Take(all, limit)| == limit
    ensures forall i :: 0 <= i < |Take(all, limit)| ==> Precedes(created, Take(all, limit)[i], id)
  {
    var d :| 0 <= d < |all| && all[d] == id;
    assert forall i :: 0 <= i < |Take(all, limit)| ==> Take(all, limit)[i] == all[i] && all[i] != id;
  }

  // A failed delivery that has retries left is due again exactly when the cutoff has passed it.
  lemma RetryWaitsItsDelay(rows: map<EventId, Row>, created: seq<EventId>, id: EventId, now: Time, cutoff: Time)
    requires NoneTwice(created) && id in created && id in rows && rows[id].retryCount + 1 < rows[id].maxRetries
    ensures id in DueOf(WithFailure(rows, id, now), created, cutoff) <==> now < cutoff
  {
    DueOfMembers(WithFailure(rows, id, now), created, cutoff);
  }

  lemma MarksKeepKeys(rows: map<EventId, Row>, id: EventId, now: Time)
    ensures WithDelivered(rows, id, now).Keys == WithFailure(rows, id, now).Keys == rows.Keys
  {
  }

  datatype AttemptFaults = AttemptFaults(push: StreamQueue.PushFaults, mark: bool)

  // One attempt succeeds when neither the push nor the mark raises.
  predicate Succeeds(queue: StreamQueue.ValkeyStreamQueue, f: AttemptFaults) {
    queue.RouteOf(f.push).Some? && queue.RouteOf(f.push) != Some(Q.DlqThenRaise) && !f.mark
  }

  predicate SomeSucceeds(queue: StreamQueue.ValkeyStreamQueue, f: nat -> AttemptFaults) {
    exists n: nat :: n < MAX_ATTEMPTS && Succeeds(queue, f(n))
  }

  class OutboxRelay {
    const repo: SqliteOutboxRepository
    const queue: StreamQueue.ValkeyStreamQueue

    ghost var hand: Hand
    ghost var log: seq<Entry>

    constructor (repo: SqliteOutboxRepository, queue: StreamQueue.ValkeyStreamQueue)
      ensures this.repo == repo && this.queue == queue && hand == Idle && log == []
    {
      this.repo, this.queue := repo, queue;
      hand, log := Idle, [];
    }

    ghost function Snapshot(): World
      reads this, repo, queue
    {
      World(repo.rows, queue.Snapshot(), map[0 := hand], log)
    }

    method PushOnce(ghost batch: seq<EventId>, ghost attempt: nat, id: EventId, f: StreamQueue.PushFaults,
                    ghost maxRetries: int)
      returns (raised: bool, ghost steps: seq<Step>)
      requires hand == Pushing(batch, attempt) && batch != [] && batch[0] == id
      modifies this, queue
      ensures Leads(old(Snapshot()), steps, maxRetries, Snapshot())
      ensures raised <==> queue.RouteOf(f).None? || queue.RouteOf(f) == Some(Q.DlqThenRaise)
      ensures hand == if raised then NextAttempt(batch, attempt) else Marking(batch, attempt)
    {
      ghost var before := Snapshot();
      raised := queue.Push(Q.Message(id, 0), f);
      ghost var push := Push(0, queue.RouteOf(f), raised);
      hand := if raised then NextAttempt(batch, attempt) else Marking(batch, attempt);
      log := log + [Attempted(id)];
      assert Enabled(before, push, maxRetries) && Snapshot() == After(before, push, maxRetries);
      LeadsCons(before, push, [], maxRetries, Snapshot());
      steps := [push] + [];
    }

    method MarkOnce(ghost batch: seq<EventId>, ghost attempt: nat, id: EventId, fault: bool, now: Time,
                    ghost maxRetries: int)
      returns (raised: bool, ghost steps: seq<Step>)
      requires hand == Marking(batch, attempt) && batch != [] && batch[0] == id
      modifies this, repo`rows
      ensures Leads(old(Snapshot()), steps, maxRetries, Snapshot())
      ensures raised <==> fault
      ensures hand == if raised then NextAttempt(batch, attempt) else NextEvent(batch)
      ensures repo.rows == if raised then old(repo.rows) else WithDelivered(old(repo.rows), id, now)
    {
      ghost var before := Snapshot();
      raised := repo.MarkDelivered(id, now, fault);
      ghost var mark := MarkDelivered(0, now, raised);
      hand := if raised then NextAttempt(batch, attempt) else NextEvent(batch);
      assert Enabled(before, mark, maxRetries) && Snapshot() == After(before, mark, maxRetries);
      LeadsCons(before, mark, [], maxRetries, Snapshot());
      steps := [mark] + [];
    }

    // The body of the attempt loop: push, then mark.
    method TryOnce(ghost batch: seq<EventId>, ghost attempt: nat, id: EventId, f: AttemptFaults, now: Time,
                   ghost maxRetries: int)
      returns (ok: bool, ghost steps: seq<Step>)
      requires hand == Pushing(batch, attempt) && batch != [] && batch[0] == id
      modifies this, repo`rows, queue
      ensures Leads(old(Snapshot()), steps, maxRetries, Snapshot())
      ensures ok <==> Succeeds(queue, f)
      ensures hand == if ok then NextEvent(batch) else NextAttempt(batch, attempt)
      ensures repo.rows == if ok then WithDelivered(old(repo.rows), id, now) else old(repo.rows)
    {
      var raised;
      raised, steps := PushOnce(batch, attempt, id, f.push, maxRetries);
      if raised {
        return false, steps;
      }
      ghost var between := Snapshot();
      ghost var more;
      raised, more := MarkOnce(batch, attempt, id, f.mark, now, maxRetries);
      LeadsTrans(old(Snapshot()), steps, between, more, maxRetries, Snapshot());
      return !raised, steps + more;
    }

    method GiveUp(ghost batch: seq<EventId>, id: EventId, fault: FailFault, now: Time, ghost maxRetries: int)
      returns (raised: bool, ghost steps: seq<Step>)
      requires hand == Failing(batch) && batch != [] && batch[0] == id
      modifies this, repo`rows
      ensures Leads(old(Snapshot()), steps, maxRetries, Snapshot())
      ensures raised <==> Stops(old(repo.rows), id, fault)
      ensures hand == if raised then Idle else NextEvent(batch)
      ensures repo.rows == if raised then old(repo.rows) else WithFailure(old(repo.rows), id, now)
    {
      ghost var before := Snapshot();
      raised := repo.MarkFailed(id, now, [], fault);
      ghost var read, fail := ReadRetries(0, fault.AtSelect?), MarkFailed(0, now, raised);
      ghost var between := After(before, read, maxRetries);
      hand := if raised then Idle else NextEvent(batch);
      log := if raised then log + [CutShort(id)] else log;
      if fault.AtSelect? || id !in repo.rows {
        assert Snapshot().hands == between.hands;
        LeadsCons(before, read, [], maxRetries, Snapshot());
        steps := [read] + [];
      } else {
        assert Snapshot().hands == After(between, fail, maxRetries).hands;
        LeadsCons(between, fail, [], maxRetries, Snapshot());
        LeadsCons(before, read, [fail] + [], maxRetries, Snapshot());
        steps := [read] + ([fail] + []);
      }
    }

    // Three attempts; when the last one fails too the failure is recorded, and an exception there
    // leaves the method.
    method DeliverEvent(ghost batch: seq<EventId>, id: EventId, f: nat -> AttemptFaults, failFault: FailFault,
                        now: Time, ghost maxRetries: int)
      returns (raised: bool, ghost steps: seq<Step>)
      requires hand == Pushing(batch, 0) && batch != [] && batch[0] == id
      modifies this, repo`rows, queue
      ensures Leads(old(Snapshot()), steps, maxRetries, Snapshot())
      ensures raised <==> !SomeSucceeds(queue, f) && Stops(old(repo.rows), id, failFault)
      ensures hand == if raised then Idle else NextEvent(batch)
      ensures repo.rows == if SomeSucceeds(queue, f) then WithDelivered(old(repo.rows), id, now)
                           else if raised then old(repo.rows)
                           else WithFailure(old(repo.rows), id, now)
    {
      steps := [];
      for attempt := 0 to MAX_ATTEMPTS
        invariant hand == if attempt < MAX_ATTEMPTS then Pushing(batch, attempt) else Failing(batch)
        invariant Leads(old(Snapshot()), steps, maxRetries, Snapshot())
        invariant repo.rows == old(repo.rows)
        invariant forall n: nat :: n < attempt ==> !Succeeds(queue, f(n))
      {
        ghost var before := Snapshot();
        ghost var more;
        var ok;
        ok, more := TryOnce(batch, attempt, id, f(attempt), now, maxRetries);
        LeadsTrans(old(Snapshot()), steps, before, more, maxRetries, Snapshot());
        steps := steps + more;
        if ok {
          return false, steps;
        }
      }
      ghost var before := Snapshot();
      ghost var more;
      raised, more := GiveUp(batch, id, failFault, now, maxRetries);
      LeadsTrans(old(Snapshot()), steps, before, more, maxRetries, Snapshot());
      steps := steps + more;
    }

    method PollOnce(limit: nat, cutoff: Time, ghost maxRetries: int)
      returns (events: seq<EventId>, ghost steps: seq<Step>)
      requires hand == Idle && repo.Valid()
      modifies this
      ensures Leads(old(Snapshot()), steps, maxRetries, Snapshot())
      ensures events == Take(DueOf(repo.rows, repo.created, cutoff), limit)
      ensures hand == if events == [] then Idle else Pushing(events, 0)
    {
      ghost var before := Snapshot();
      events := repo.GetPendingEvents(limit, cutoff);
      hand := if events == [] then Idle else Pushing(events, 0);
      assert Enabled(before, Poll(0, events), maxRetries) && Snapshot() == After(before, Poll(0, events), maxRetries);
      LeadsCons(before, Poll(0, events), [], maxRetries, Snapshot());
      steps := [Poll(0, events)] + [];
    }

    // The events of a poll in order, until one raises.
    method DeliverAll(events: seq<EventId>, now: Time, f: EventId -> nat -> AttemptFaults,
                      failFault: EventId -> FailFault, ghost maxRetries: int)
      returns (count: nat, raised: bool, ghost steps: seq<Step>)
      requires hand == if events == [] then Idle else Pushing(events, 0)
      modifies this, repo`rows, queue
      ensures Leads(old(Snapshot()), steps, maxRetries, Snapshot())
      ensures hand == Idle && repo.rows.Keys == old(repo.rows).Keys
      ensures repo.rows == Settled(old(repo.rows), events, id => SomeSucceeds(queue, f(id)), failFault, now)
      ensures count <= |events| && (raised <==> count < |events|)
      ensures forall k :: 0 <= k < count ==>
                SomeSucceeds(queue, f(events[k])) || !Stops(old(repo.rows), events[k], failFault(events[k]))
      ensures raised ==> !SomeSucceeds(queue, f(events[count]))
                         && Stops(old(repo.rows), events[count], failFault(events[count]))
    {
      ghost var ok := id => SomeSucceeds(queue, f(id));
      steps := [];
      for i := 0 to |events|
        invariant Leads(old(Snapshot()), steps, maxRetries, Snapshot())
        invariant hand == if i == |events| then Idle else Pushing(events[i..], 0)
        invariant repo.rows.Keys == old(repo.rows.Keys)
        invariant Settled(old(repo.rows), events, ok, failFault, now)
                  == Settled(repo.rows, events[i..], ok, failFault, now)
        invariant forall k :: 0 <= k < i ==>
                    SomeSucceeds(queue, f(events[k])) || !Stops(old(repo.rows), events[k], failFault(events[k]))
      {
        ghost var here := Snapshot();
        ghost var more;
        MarksKeepKeys(repo.rows, events[i], now);
        raised, more := DeliverEvent(events[i..], events[i], f(events[i]), failFault(events[i]), now, maxRetries);
        LeadsTrans(old(Snapshot()), steps, here, more, maxRetries, Snapshot());
        steps := steps + more;
        assert events[i..][1..] == events[i + 1..];
        if raised {
          return i, true, steps;
        }
      }
      return |events|, false, steps;
    }

    // One poll: the events due, in order, until one raises.
    method RunOnce(limit: nat, cutoff: Time, now: Time, f: EventId -> nat -> AttemptFaults,
                   failFault: EventId -> FailFault, ghost maxRetries: int)
      returns (count: nat, raised: bool, ghost steps: seq<Step>)
      requires hand == Idle && repo.Valid()
      modifies this, repo`rows, queue
      ensures Leads(old(Snapshot()), steps, maxRetries, Snapshot())
      ensures hand == Idle && repo.Valid() && repo.rows.Keys == old(repo.rows).Keys
      ensures var events := Take(DueOf(old(repo.rows), repo.created, cutoff), limit);
              && repo.rows == Settled(old(repo.rows), events, id => SomeSucceeds(queue, f(id)), failFault, now)
              && (!raised ==> count == |events|)
              // each event polled is delivered or has its retry counted, and no other row changes
              && (!raised ==> forall id :: id in events ==>
                    id in repo.rows &&
                    repo.rows[id] == if SomeSucceeds(queue, f(id))
                                     then old(repo.rows)[id].(status := Delivered, lastAttempt := Some(now))
                                     else WithFailure(old(repo.rows), id, now)[id])
              && (forall id :: id in repo.rows && id !in events ==> repo.rows[id] == old(repo.rows)[id])
    {
      var events;
      events, steps := PollOnce(limit, cutoff, maxRetries);
      TakenAreDue(repo.rows, repo.created, cutoff, limit);
      SettledEach(repo.rows, events, id => SomeSucceeds(queue, f(id)), failFault, now);
      ghost var here := Snapshot();
      ghost var more;
      count, raised, more := DeliverAll(events, now, f, failFault, maxRetries);
      LeadsTrans(old(Snapshot()), steps, here, more, maxRetries, Snapshot());
      steps := steps + more;
    }
  }

  // Only rows of these events differ.
  ghost predicate OthersKept(rows: map<EventId, Row>, after: map<EventId, Row>, events: seq<EventId>) {
    after.Keys == rows.Keys && forall id :: id in rows && id !in events ==> after[id] == rows[id]
  }

  function OneSettled(rows: map<EventId, Row>, id: EventId, ok: bool, now: Time): map<EventId, Row> {
    if ok then WithDelivered(rows, id, now) else WithFailure(rows, id, now)
  }

  ghost predicate EachSettled(rows: map<EventId, Row>, after: map<EventId, Row>, events: seq<EventId>,
                              ok: EventId -> bool, now: Time)
  {
    forall id :: id in events && id in rows ==> id in after && after[id] == OneSettled(rows, id, ok(id), now)[id]
  }

  lemma SettledCons(rows: map<EventId, Row>, e: EventId, rest: seq<EventId>, after: map<EventId, Row>,
                    ok: EventId -> bool, now: Time)
    requires e in rows && e !in rest && OthersKept(OneSettled(rows, e, ok(e), now), after, rest)
    ensures OthersKept(rows, after, [e] + rest)
    ensures EachSettled(OneSettled(rows, e, ok(e), now), after, rest, ok, now) ==>
              EachSettled(rows, after, [e] + rest, ok, now)
  {
    var next := OneSettled(rows, e, ok(e), now);
    assert next.Keys == rows.Keys && forall id :: id in rows && id != e ==> next[id] == rows[id];
    if EachSettled(next, after, rest, ok, now) {
      forall id | id in [e] + rest && id in rows
        ensures id in after && after[id] == OneSettled(rows, id, ok(id), now)[id]
      {
        if id != e {
          assert id in rest && next[id] == rows[id];
        }
      }
    }
  }

  lemma {:induction false} SettledEach(rows: map<EventId, Row>, events: seq<EventId>, ok: EventId -> bool,
                                       failFault: EventId -> FailFault, now: Time)
    requires NoneTwice(events) && forall id :: id in events ==> id in rows
    ensures var after := Settled(rows, events, ok, failFault, now);
            && OthersKept(rows, after, events)
            && ((forall id :: id in events ==> ok(id) || !Stops(rows, id, failFault(id))) ==>
                  EachSettled(rows, after, events, ok, now))
  {
    if events != [] {
      var e, rest := events[0], events[1..];
      assert events == [e] + rest && e !in rest;
      MarksKeepKeys(rows, e, now);
      if ok(e) || !Stops(rows, e, failFault(e)) {
        var next := OneSettled(rows, e, ok(e), now);
        SettledEach(next, rest, ok, failFault, now);
        SettledCons(rows, e, rest, Settled(next, rest, ok, failFault, now), ok, now);
      }
    }
  }

  // The rows after a poll, event by event.
  ghost function Settled(rows: map<EventId, Row>, events: seq<EventId>, ok: EventId -> bool,
                         failFault: EventId -> FailFault, now: Time): map<EventId, Row>
  {
    if events == [] then rows
    else if ok(events[0]) then Settled(WithDelivered(rows, events[0], now), events[1..], ok, failFault, now)
    else if Stops(rows, events[0], failFault(events[0])) then rows
    else Settled(WithFailure(rows, events[0], now), events[1..], ok, failFault, now)
  }
}
