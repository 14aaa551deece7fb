// `ValkeyStreamQueue` as an object: `push`, `push_dlq`, `_process_entry` and the consumer
// loop run against the store's fields. A call is a run of DeliveryProtocol steps, so what
// is proved there of all interleavings holds of these methods; what one consumer does on a
// quiet store is computed exactly at the end.

module StreamQueue {
  import opened DeliveryProtocol
  import opened Wrappers

  // Which commands of a `push` raise, and what the memory probe reports (in MB).
  datatype PushFaults = PushFaults(probe: bool, usedMemory: real, dlq: bool, metric: bool, xadd: bool)

  datatype Faults = Faults(setNx: bool, del: bool, pushDlq: bool, push: PushFaults, rawDlq: bool, xack: bool)

  // --- What one consumer makes of a message ---

  // `cb(id, n)` is the callback's answer on the attempt that carries retry count n.
  function Attempts(cb: (MessageId, int) -> bool, m: Message, maxRetries: int): nat
    decreases maxRetries - m.retryCount
  {
    if cb(m.id, m.retryCount) || m.retryCount + 1 >= maxRetries then 1
    else 1 + Attempts(cb, m.(retryCount := m.retryCount + 1), maxRetries)
  }

  predicate Accepted(cb: (MessageId, int) -> bool, m: Message, maxRetries: int)
    decreases maxRetries - m.retryCount
  {
    cb(m.id, m.retryCount) ||
    (m.retryCount + 1 < maxRetries && Accepted(cb, m.(retryCount := m.retryCount + 1), maxRetries))
  }

  // The attempts a message may still take, at least one.
  function Left(m: Message, maxRetries: int): nat {
    if m.retryCount + 1 >= maxRetries then 1 else maxRetries - m.retryCount
  }

  function Load(ms: seq<Message>, maxRetries: int): nat {
    if ms == [] then 0 else Left(ms[0], maxRetries) + Load(ms[1..], maxRetries)
  }

  lemma {:induction false} LoadAppend(ms: seq<Message>, m: Message, maxRetries: int)
    ensures Load(ms + [m], maxRetries) == Load(ms, maxRetries) + Left(m, maxRetries)
  {
    if ms == [] {
      assert ms + [m] == [m];
    } else {
      assert (ms + [m])[1..] == ms[1..] + [m];
      LoadAppend(ms[1..], m, maxRetries);
    }
  }

  function Retry(m: Message): Message { m.(retryCount := m.retryCount + 1) }

  // Callbacks, acceptances and dead letters of one id.
  datatype Tally = Tally(calls: nat, successes: nat, deadLetters: nat)

  function Plus(a: Tally, b: Tally): Tally {
    Tally(a.calls + b.calls, a.successes + b.successes, a.deadLetters + b.deadLetters)
  }

  // What is owed to the copies of one message that wait in a queue, in order. Once the dedup key
  // is taken they are all passed over; a success takes it.
  function Owed(ms: seq<Message>, taken: bool, cb: (MessageId, int) -> bool, maxRetries: int): Tally
    decreases Load(ms, maxRetries)
  {
    if ms == [] || taken then Tally(0, 0, 0)
    else
      var m, rest := ms[0], ms[1..];
      LoadAppend(rest, Retry(m), maxRetries);
      if cb(m.id, m.retryCount) then Tally(1, 1, 0)
      else if m.retryCount + 1 >= maxRetries then Plus(Tally(1, 0, 1), Owed(rest, false, cb, maxRetries))
      else Plus(Tally(1, 0, 0), Owed(rest + [Retry(m)], false, cb, maxRetries))
  }

  function CopiesIn(p: Payload, id: MessageId): seq<Message> {
    if p.Envelope? && p.message.id == id then [p.message] else []
  }

  function CopiesOf(q: seq<Payload>, id: MessageId): seq<Message> {
    if q == [] then [] else CopiesIn(q[0], id) + CopiesOf(q[1..], id)
  }

  lemma CopiesCons(p: Payload, q: seq<Payload>, id: MessageId)
    ensures CopiesOf([p] + q, id) == CopiesIn(p, id) + CopiesOf(q, id)
  {
    assert ([p] + q)[1..] == q;
  }

  lemma {:induction false} CopiesAppend(q: seq<Payload>, p: Payload, id: MessageId)
    ensures CopiesOf(q + [p], id) == CopiesOf(q, id) + CopiesIn(p, id)
  {
    if q == [] {
      assert q + [p] == [p] + [];
      CopiesCons(p, [], id);
    } else {
      assert q + [p] == [q[0]] + (q[1..] + [p]);
      CopiesCons(q[0], q[1..] + [p], id);
      CopiesAppend(q[1..], p, id);
      assert CopiesIn(q[0], id) + (CopiesOf(q[1..], id) + CopiesIn(p, id)) == CopiesOf(q, id) + CopiesIn(p, id);
    }
  }

  function DlqCount(dlq: seq<Message>, id: MessageId): nat {
    if dlq == [] then 0
    else DlqCount(dlq[..|dlq|-1], id) + if dlq[|dlq|-1].id == id then 1 else 0
  }

  // What a consumer has before it: the entries still to process, the keys taken, and what the log
  // and the dead-letter queue hold so far.
  datatype Desk = Desk(queue: seq<Payload>, keys: set<MessageId>, log: seq<Event>, dlq: seq<Message>)

  function Settled(d: Desk, id: MessageId): Tally {
    Tally(multiset(d.log)[Started(id)], multiset(d.log)[Succeeded(id)], DlqCount(d.dlq, id))
  }

  // Settled and owed together, id by id.
  function Due(d: Desk, id: MessageId, cb: (MessageId, int) -> bool, maxRetries: int): Tally {
    Plus(Settled(d, id), Owed(CopiesOf(d.queue, id), id in d.keys, cb, maxRetries))
  }

  ghost predicate Exchanged(d: Desk, d': Desk, cb: (MessageId, int) -> bool, maxRetries: int) {
    forall id: MessageId :: Due(d, id, cb, maxRetries) == Due(d', id, cb, maxRetries)
  }

  // The work left in a queue: one unit an entry, plus one for each retry it may cause.
  function Work(q: seq<Payload>, maxRetries: int): nat {
    if q == [] then 0
    else (match q[0] case Garbage(_) => 1 case Envelope(m) => Left(m, maxRetries)) + Work(q[1..], maxRetries)
  }

  lemma {:induction false} WorkAppend(q: seq<Payload>, p: Payload, maxRetries: int)
    ensures Work(q + [p], maxRetries) == Work(q, maxRetries) + Work([p], maxRetries)
  {
    if q == [] {
      assert q + [p] == [p];
    } else {
      assert (q + [p])[1..] == q[1..] + [p];
      WorkAppend(q[1..], p, maxRetries);
    }
  }

  // The desk after its first entry was processed quietly.
  function Turn(d: Desk, cb: (MessageId, int) -> bool, maxRetries: int): Desk {
    if d.queue == [] then d
    else
      var rest := d.queue[1..];
      match d.queue[0]
      case Garbage(_) => d.(queue := rest)
      case Envelope(m) =>
        if m.id in d.keys then d.(queue := rest)
        else if cb(m.id, m.retryCount) then
          Desk(rest, d.keys + {m.id}, d.log + [Started(m.id), Succeeded(m.id)], d.dlq)
        else if m.retryCount + 1 >= maxRetries then
          Desk(rest, d.keys, d.log + [Started(m.id), Failed(m.id)], d.dlq + [m])
        else
          Desk(rest + [Envelope(Retry(m))], d.keys, d.log + [Started(m.id), Failed(m.id)], d.dlq)
  }

  // The desk after n entries.
  function Turned(d: Desk, n: nat, cb: (MessageId, int) -> bool, maxRetries: int): Desk {
    if n == 0 then d else Turn(Turned(d, n - 1, cb, maxRetries), cb, maxRetries)
  }

  lemma SettledAfter(d: Desk, d': Desk, id: MessageId, cb: (MessageId, int) -> bool, maxRetries: int)
    requires d.queue != [] && d' == Turn(d, cb, maxRetries)
    ensures Settled(d', id) ==
            var p := d.queue[0];
            if p.Garbage? || p.message.id != id || id in d.keys then Settled(d, id)
            else if cb(id, p.message.retryCount) then Plus(Settled(d, id), Tally(1, 1, 0))
            else Plus(Settled(d, id), Tally(1, 0, if p.message.retryCount + 1 >= maxRetries then 1 else 0))
  {
    if d.queue[0].Envelope? {
      assert (d.dlq + [d.queue[0].message])[..|d.dlq|] == d.dlq;
    }
  }

  lemma CopiesAfter(d: Desk, d': Desk, id: MessageId, cb: (MessageId, int) -> bool, maxRetries: int)
    requires d.queue != [] && d' == Turn(d, cb, maxRetries)
    ensures var p, rest := d.queue[0], CopiesOf(d.queue[1..], id);
            && CopiesOf(d.queue, id) == (if p.Envelope? && p.message.id == id then [p.message] else []) + rest
            && CopiesOf(d'.queue, id) ==
               if p.Envelope? && p.message.id == id && id !in d.keys
                  && !cb(id, p.message.retryCount) && p.message.retryCount + 1 < maxRetries
               then rest + [Retry(p.message)] else rest
  {
    if d.queue[0].Envelope? {
      CopiesAppend(d.queue[1..], Envelope(Retry(d.queue[0].message)), id);
    }
  }

  lemma OwedFirst(m: Message, rest: seq<Message>, cb: (MessageId, int) -> bool, maxRetries: int)
    ensures Owed([m] + rest, false, cb, maxRetries) ==
            if cb(m.id, m.retryCount) then Tally(1, 1, 0)
            else if m.retryCount + 1 >= maxRetries then Plus(Tally(1, 0, 1), Owed(rest, false, cb, maxRetries))
            else Plus(Tally(1, 0, 0), Owed(rest + [Retry(m)], false, cb, maxRetries))
  {
    assert ([m] + rest)[1..] == rest;
  }

  lemma ForeignEntry(d: Desk, d': Desk, id: MessageId, cb: (MessageId, int) -> bool, maxRetries: int)
    requires Settled(d, id) == Settled(d', id) && CopiesOf(d.queue, id) == CopiesOf(d'.queue, id)
    requires id in d.keys <==> id in d'.keys
    ensures Due(d, id, cb, maxRetries) == Due(d', id, cb, maxRetries)
  {
  }

  lemma TakenEntry(d: Desk, d': Desk, id: MessageId, cb: (MessageId, int) -> bool, maxRetries: int)
    requires Settled(d, id) == Settled(d', id) && id in d.keys && id in d'.keys
    ensures Due(d, id, cb, maxRetries) == Due(d', id, cb, maxRetries)
  {
    OwedWhenTaken(CopiesOf(d.queue, id), cb, maxRetries);
    OwedWhenTaken(CopiesOf(d'.queue, id), cb, maxRetries);
  }

  // What the first copy of an id whose key is free takes from what is owed.
  function Taking(m: Message, cb: (MessageId, int) -> bool, maxRetries: int): Tally {
    if cb(m.id, m.retryCount) then Tally(1, 1, 0)
    else Tally(1, 0, if m.retryCount + 1 >= maxRetries then 1 else 0)
  }

  lemma OwedTaking(m: Message, rest: seq<Message>, next: seq<Message>, cb: (MessageId, int) -> bool, maxRetries: int)
    requires !cb(m.id, m.retryCount) ==> next == if m.retryCount + 1 >= maxRetries then rest else rest + [Retry(m)]
    ensures Owed([m] + rest, false, cb, maxRetries)
         == Plus(Taking(m, cb, maxRetries), Owed(next, cb(m.id, m.retryCount), cb, maxRetries))
  {
    OwedFirst(m, rest, cb, maxRetries);
    OwedWhenTaken(next, cb, maxRetries);
  }

  // Moving from owed to settled changes no total.
  lemma Moved(settled: Tally, taken: Tally, owed: Tally)
    ensures Plus(settled, Plus(taken, owed)) == Plus(Plus(settled, taken), owed)
  {
  }

  lemma OwnEntry(
    settled: Tally, m: Message, rest: seq<Message>, next: seq<Message>, taken: bool,
    cb: (MessageId, int) -> bool, maxRetries: int)
    requires taken == cb(m.id, m.retryCount)
    requires !taken ==> next == if m.retryCount + 1 >= maxRetries then rest else rest + [Retry(m)]
    ensures Plus(settled, Owed([m] + rest, false, cb, maxRetries))
         == Plus(Plus(settled, Taking(m, cb, maxRetries)), Owed(next, taken, cb, maxRetries))
  {
    OwedTaking(m, rest, next, cb, maxRetries);
    Moved(settled, Taking(m, cb, maxRetries), Owed(next, taken, cb, maxRetries));
  }

  lemma KeysAfter(d: Desk, d': Desk, id: MessageId, cb: (MessageId, int) -> bool, maxRetries: int)
    requires d.queue != [] && d' == Turn(d, cb, maxRetries)
    ensures var p := d.queue[0];
            id in d'.keys <==> id in d.keys || (p.Envelope? && p.message.id == id && cb(id, p.message.retryCount))
  {
  }

  lemma EntryExchangesFor(d: Desk, d': Desk, id: MessageId, cb: (MessageId, int) -> bool, maxRetries: int)
    requires d.queue != [] && d' == Turn(d, cb, maxRetries)
    ensures Due(d, id, cb, maxRetries) == Due(d', id, cb, maxRetries)
  {
    SettledAfter(d, d', id, cb, maxRetries);
    CopiesAfter(d, d', id, cb, maxRetries);
    KeysAfter(d, d', id, cb, maxRetries);
    var p := d.queue[0];
    if p.Garbage? || p.message.id != id {
      ForeignEntry(d, d', id, cb, maxRetries);
    } else if id in d.keys {
      TakenEntry(d, d', id, cb, maxRetries);
    } else {
      var rest, next := CopiesOf(d.queue[1..], id), CopiesOf(d'.queue, id);
      OwnEntry(Settled(d, id), p.message, rest, next, id in d'.keys, cb, maxRetries);
    }
  }

  lemma OwedWhenTaken(ms: seq<Message>, cb: (MessageId, int) -> bool, maxRetries: int)
    ensures Owed(ms, true, cb, maxRetries) == Tally(0, 0, 0)
  {
  }

  // Every entry processed exchanges what it owed, and lowers the remaining work, so polling
  // comes to an end.
  lemma EntryExchanges(d: Desk, d': Desk, cb: (MessageId, int) -> bool, maxRetries: int)
    requires d.queue != [] && d' == Turn(d, cb, maxRetries)
    ensures Exchanged(d, d', cb, maxRetries)
    ensures Work(d'.queue, maxRetries) < Work(d.queue, maxRetries)
  {
    forall id: MessageId
      ensures Due(d, id, cb, maxRetries) == Due(d', id, cb, maxRetries)
    {
      EntryExchangesFor(d, d', id, cb, maxRetries);
    }
    if d.queue[0].Envelope? {
      WorkAppend(d.queue[1..], Envelope(Retry(d.queue[0].message)), maxRetries);
    }
  }

  lemma {:induction false} TurnedTwice(d: Desk, n: nat, k: nat, cb: (MessageId, int) -> bool, maxRetries: int)
    ensures Turned(Turned(d, n, cb, maxRetries), k, cb, maxRetries) == Turned(d, n + k, cb, maxRetries)
    decreases k
  {
    if k > 0 {
      TurnedTwice(d, n, k - 1, cb, maxRetries);
    }
  }

  // A desk reached by n turns, and then by k more, which lowered its work if there was any.
  lemma TurnedOn(d: Desk, n: nat, mid: Desk, k: nat, d': Desk, cb: (MessageId, int) -> bool, maxRetries: int)
    returns (all: nat)
    requires mid == Turned(d, n, cb, maxRetries) && d' == Turned(mid, k, cb, maxRetries)
    ensures d' == Turned(d, all, cb, maxRetries)
    ensures k > 0 && mid.queue != [] ==> Work(d'.queue, maxRetries) < Work(mid.queue, maxRetries)
  {
    all := n + k;
    TurnedTwice(d, n, k, cb, maxRetries);
    TurnedWork(mid, k, cb, maxRetries);
  }

  // Work only shrinks, and does when there was an entry to process.
  lemma {:induction false} TurnedWork(d: Desk, n: nat, cb: (MessageId, int) -> bool, maxRetries: int)
    ensures Work(Turned(d, n, cb, maxRetries).queue, maxRetries) <= Work(d.queue, maxRetries)
    ensures n > 0 && d.queue != [] ==> Work(Turned(d, n, cb, maxRetries).queue, maxRetries) < Work(d.queue, maxRetries)
  {
    if n > 0 {
      var before := Turned(d, n - 1, cb, maxRetries);
      TurnedWork(d, n - 1, cb, maxRetries);
      if before.queue != [] {
        EntryExchanges(before, Turn(before, cb, maxRetries), cb, maxRetries);
      }
    }
  }

  // What a consumer has before it from entry e on.
  ghost function DeskAt(s: State, e: EntryId): Desk
    requires e <= |s.stream|
  {
    Desk(s.stream[e..], s.keys, s.log, s.dlq)
  }

  // Nobody is at work on the store.
  ghost predicate Resting(s: State) { Tidy(s) && s.handlers == map[] }

  // Entries from `first` to before `end` are acknowledged.
  ghost predicate AckedFrom(s: State, first: EntryId, end: EntryId) {
    forall e :: first <= e < end ==> e in s.acked
  }

  class ValkeyStreamQueue {
    const isMock: bool
    const memoryLimit: real

    var stream: seq<Payload>
    var delivered: nat
    var acked: set<EntryId>
    var keys: set<MessageId>
    var dlq: seq<Message>
    var rawDlq: set<EntryId>

    ghost var handlers: map<TaskId, Handler>
    ghost var pushed: set<MessageId>
    ghost var abandoned: set<MessageId>
    ghost var overtaken: set<MessageId>
    ghost var rawDropped: set<EntryId>
    ghost var log: seq<Event>

    ghost function Snapshot(): State
      reads this
    {
      State(stream, delivered, acked, keys, dlq, rawDlq, handlers, pushed, abandoned, overtaken, rawDropped, log)
    }

    constructor (mock: bool, limit: real)
      ensures Snapshot() == INIT && isMock == mock && memoryLimit == limit
    {
      isMock, memoryLimit := mock, limit;
      stream, delivered, acked, keys, dlq, rawDlq := [], 0, {}, {}, [], {};
      handlers, pushed, abandoned, overtaken, rawDropped, log := map[], {}, {}, {}, {}, [];
    }

    predicate Saturated(f: PushFaults) {
      !isMock && !f.probe && f.usedMemory > memoryLimit && f.usedMemory > memoryLimit * 1.5
    }

    // What a push leaves behind; None when it raises with nothing written.
    function RouteOf(f: PushFaults): Option<PushOutcome> {
      if !Saturated(f) || f.dlq then (if f.xadd then None else Some(ToStream))
      else if !f.metric then Some(ToDlq)
      else if f.xadd then Some(DlqThenRaise)
      else Some(ToBoth)
    }

    method Push(m: Message, f: PushFaults) returns (raised: bool)
      modifies this`stream, this`dlq, this`pushed
      ensures Snapshot() == match RouteOf(f) case None => old(Snapshot()) case Some(o) => Deposit(old(Snapshot()), m, o)
      ensures raised <==> RouteOf(f) == None || RouteOf(f) == Some(DlqThenRaise)
      // up to one and a half times the limit a push is an XADD, and so it is without a memory figure
      // or when the dead-letter write raises
      ensures isMock || f.probe || f.dlq || f.usedMemory <= memoryLimit || f.usedMemory <= memoryLimit * 1.5 ==>
                && dlq == old(dlq) && (raised <==> f.xadd)
                && stream == old(stream) + if f.xadd then [] else [Envelope(m)]
      // above that the message is dead-lettered instead, and an XADD follows only a failing count
      ensures !isMock && !f.probe && !f.dlq && f.usedMemory > memoryLimit && f.usedMemory > memoryLimit * 1.5 ==>
                && dlq == old(dlq) + [m] && (raised <==> f.metric && f.xadd)
                && stream == old(stream) + if f.metric && !f.xadd then [Envelope(m)] else []
    {
      if !isMock && !f.probe {
        if f.usedMemory > memoryLimit {
          if f.usedMemory > memoryLimit * 1.5 {
            var dlqRaised := PushDlq(m, f.dlq);
            if !dlqRaised && !f.metric {
              return false;
            }
          }
        }
      }
      if f.xadd {
        return true;
      }
      stream := stream + [Envelope(m)];
      pushed := pushed + {m.id};
      raised := false;
    }

    method PushDlq(m: Message, fault: bool) returns (raised: bool)
      modifies this`dlq, this`pushed
      ensures raised <==> fault
      ensures Snapshot() == if fault then old(Snapshot()) else Deposit(old(Snapshot()), m, ToDlq)
    {
      if fault {
        return true;
      }
      dlq := dlq + [m];
      pushed := pushed + {m.id};
      raised := false;
    }

    // --- Store commands sent by a handler, each one protocol step ---

    ghost method Took(t: TaskId, e: EntryId, maxRetries: int)
      requires Enabled(Snapshot(), Begin(t, e), maxRetries)
      modifies this`handlers
      ensures Snapshot() == Apply(old(Snapshot()), Begin(t, e), maxRetries)
    {
      handlers := handlers[t := Handler(e, stream[e], Received)];
    }

    ghost method Died(t: TaskId, maxRetries: int)
      requires Enabled(Snapshot(), Die(t), maxRetries)
      modifies this`handlers, this`abandoned, this`overtaken
      ensures Snapshot() == Apply(old(Snapshot()), Die(t), maxRetries)
    {
      ghost var s' := Perish(Snapshot(), t);
      abandoned, overtaken, handlers := s'.abandoned, s'.overtaken, s'.handlers;
    }

    method DlqRaw(ghost t: TaskId, e: EntryId, fault: bool, ghost maxRetries: int)
      requires Enabled(Snapshot(), DeadLetterRaw(t, !fault), maxRetries) && handlers[t].entry == e
      modifies this`rawDlq, this`rawDropped, this`handlers
      ensures Snapshot() == Apply(old(Snapshot()), DeadLetterRaw(t, !fault), maxRetries)
    {
      if !fault {
        rawDlq := rawDlq + {e};
      } else {
        rawDropped := rawDropped + {e};
      }
      handlers := handlers[t := handlers[t].(phase := Acking)];
    }

    method SetNx(ghost t: TaskId, id: MessageId, ghost maxRetries: int) returns (isNew: bool)
      requires Enabled(Snapshot(), ClaimKey(t), maxRetries) && handlers[t].payload.message.id == id
      modifies this`keys, this`log, this`handlers
      ensures isNew <==> id !in old(keys)
      ensures Snapshot() == Apply(old(Snapshot()), ClaimKey(t), maxRetries)
    {
      isNew := id !in keys;
      if isNew {
        keys := keys + {id};
        log := log + [Started(id)];
      }
      handlers := handlers[t := handlers[t].(phase := if isNew then Working else Acking)];
    }

    ghost method Returned(t: TaskId, success: bool, maxRetries: int)
      requires Enabled(Snapshot(), Return(t, success), maxRetries)
      modifies this`handlers, this`log
      ensures Snapshot() == Apply(old(Snapshot()), Return(t, success), maxRetries)
    {
      var id := handlers[t].payload.message.id;
      log := log + [if success then Succeeded(id) else Failed(id)];
      handlers := handlers[t := handlers[t].(phase := if success then Acking else Releasing)];
    }

    method Del(ghost t: TaskId, id: MessageId, ghost maxRetries: int)
      requires Enabled(Snapshot(), ReleaseKey(t), maxRetries) && handlers[t].payload.message.id == id
      modifies this`keys, this`handlers
      ensures Snapshot() == Apply(old(Snapshot()), ReleaseKey(t), maxRetries)
    {
      keys := keys - {id};
      handlers := handlers[t := handlers[t].(phase := Requeueing)];
    }

    method XAck(ghost t: TaskId, e: EntryId, ghost maxRetries: int)
      requires Enabled(Snapshot(), Ack(t), maxRetries) && handlers[t].entry == e
      modifies this`acked, this`handlers
      ensures Snapshot() == Apply(old(Snapshot()), Ack(t), maxRetries)
    {
      acked := acked + {e};
      handlers := handlers - {t};
    }

    // The last command of every branch.
    method FinishEntry(ghost t: TaskId, e: EntryId, fault: bool, ghost maxRetries: int)
      returns (raised: bool, ghost steps: seq<Step>)
      requires Enabled(Snapshot(), Ack(t), maxRetries) && handlers[t].entry == e
      modifies this`acked, this`handlers, this`abandoned, this`overtaken
      ensures Leads(old(Snapshot()), steps, maxRetries, Snapshot())
      ensures raised <==> fault
      ensures handlers == old(handlers) - {t}
      ensures acked == if raised then old(acked) else old(acked) + {e}
    {
      if fault {
        steps := Escape(t, maxRetries);
        return true, steps;
      }
      LeadsCons(Snapshot(), Ack(t), [], maxRetries, Apply(Snapshot(), Ack(t), maxRetries));
      XAck(t, e, maxRetries);
      return false, [Ack(t)] + [];
    }

    // A command raised: the exception leaves `_process_entry`.
    ghost method Escape(t: TaskId, maxRetries: int) returns (steps: seq<Step>)
      requires t in handlers
      modifies this`handlers, this`abandoned, this`overtaken
      ensures Leads(old(Snapshot()), steps, maxRetries, Snapshot())
      ensures handlers == old(handlers) - {t}
    {
      LeadsCons(Snapshot(), Die(t), [], maxRetries, Apply(Snapshot(), Die(t), maxRetries));
      Died(t, maxRetries);
      steps := [Die(t)] + [];
    }

    // Where the message of a failed callback goes.
    function RetryRoute(m: Message, f: Faults, maxRetries: int): Option<PushOutcome> {
      if m.retryCount + 1 < maxRetries then RouteOf(f.push) else if f.pushDlq then None else Some(ToDlq)
    }

    // What a retry route puts into the stream and the dead-letter queue.
    ghost predicate WrittenBack(stream0: seq<Payload>, dlq0: seq<Message>, stream1: seq<Payload>, dlq1: seq<Message>,
                                m: Message, o: Option<PushOutcome>, maxRetries: int)
    {
      var r := if m.retryCount + 1 >= maxRetries then m else m.(retryCount := m.retryCount + 1);
      && stream1 == (if o == Some(ToStream) || o == Some(ToBoth) then stream0 + [Envelope(r)] else stream0)
      && dlq1 == (if o == None || o == Some(ToStream) then dlq0 else dlq0 + [r])
    }

    // push_dlq when retries are exhausted, otherwise push the next attempt.
    method WriteRetryEntry(ghost t: TaskId, m: Message, f: Faults, maxRetries: int) returns (raised: bool)
      requires Handles(Snapshot(), t, Requeueing) && handlers[t].payload.message == m
      modifies this`stream, this`dlq, this`pushed, this`handlers
      ensures var o := RetryRoute(m, f, maxRetries);
              && raised == (o == None || o == Some(DlqThenRaise))
              && match o
                 case None => Snapshot() == old(Snapshot())
                 case Some(w) => Enabled(old(Snapshot()), Requeue(t, w), maxRetries)
                                 && Snapshot() == Apply(old(Snapshot()), Requeue(t, w), maxRetries)
      ensures WrittenBack(old(stream), old(dlq), stream, dlq, m, RetryRoute(m, f, maxRetries), maxRetries)
      ensures !raised ==> HasPhase(Snapshot(), t, Acking) && handlers[t].entry == old(handlers[t].entry)
      ensures handlers - {t} == old(handlers) - {t}
      ensures t in handlers <==> RetryRoute(m, f, maxRetries) != Some(DlqThenRaise)
    {
      var newRetry := m.retryCount + 1;
      if newRetry >= maxRetries {
        raised := PushDlq(m, f.pushDlq);
      } else {
        raised := Push(m.(retryCount := newRetry), f.push);
      }
      if !raised {
        handlers := handlers[t := handlers[t].(phase := Acking)];
      } else if RetryRoute(m, f, maxRetries) != None {
        handlers := handlers - {t};
      }
    }

    // After DEL: write the retry or dead-letter entry, then XACK.
    method DisposeFailed(ghost t: TaskId, e: EntryId, m: Message, f: Faults, maxRetries: int)
      returns (raised: bool, ghost steps: seq<Step>)
      requires !f.del && Handles(Snapshot(), t, Requeueing) && handlers[t].entry == e
               && handlers[t].payload.message == m
      modifies this`stream, this`dlq, this`pushed, this`acked, this`handlers, this`abandoned, this`overtaken
      ensures Leads(old(Snapshot()), steps, maxRetries, Snapshot())
      ensures handlers == old(handlers) - {t}
      ensures acked == if raised then old(acked) else old(acked) + {e}
      ensures Disposed(old(stream), old(dlq), stream, dlq, m, false, f, maxRetries, raised)
    {
      ghost var before := Snapshot();
      ghost var o := RetryRoute(m, f, maxRetries);
      raised := WriteRetryEntry(t, m, f, maxRetries);
      if !raised {
        raised, steps := FinishEntry(t, e, f.xack, maxRetries);
      } else if o == None {
        steps := Escape(t, maxRetries);
      } else {
        steps := [];
      }
      if o != None {
        LeadsCons(before, Requeue(t, o.value), steps, maxRetries, Snapshot());
        steps := [Requeue(t, o.value)] + steps;
      }
    }

    // The callback failed: DEL the key, then dispose of the message.
    method HandleFailure(ghost t: TaskId, e: EntryId, m: Message, f: Faults, maxRetries: int)
      returns (raised: bool, ghost steps: seq<Step>)
      requires Handles(Snapshot(), t, Releasing) && handlers[t].entry == e && handlers[t].payload.message == m
      modifies this`stream, this`dlq, this`pushed, this`acked, this`handlers, this`abandoned, this`overtaken, this`keys
      ensures Leads(old(Snapshot()), steps, maxRetries, Snapshot())
      ensures handlers == old(handlers) - {t}
      ensures acked == if raised then old(acked) else old(acked) + {e}
      ensures keys == if f.del then old(keys) else old(keys) - {m.id}
      ensures Disposed(old(stream), old(dlq), stream, dlq, m, false, f, maxRetries, raised)
    {
      if f.del {
        steps := Escape(t, maxRetries);
        return true, steps;
      }
      ghost var before := Snapshot();
      Del(t, m.id, maxRetries);
      raised, steps := DisposeFailed(t, e, m, f, maxRetries);
      LeadsCons(before, ReleaseKey(t), steps, maxRetries, Snapshot());
      steps := [ReleaseKey(t)] + steps;
    }

    // The callback's answer and what follows it, for a handler that has just won the key.
    method RunCallback(ghost t: TaskId, e: EntryId, m: Message, verdict: bool, f: Faults, maxRetries: int)
      returns (raised: bool, ghost steps: seq<Step>)
      requires Handles(Snapshot(), t, Working) && handlers[t].entry == e && handlers[t].payload.message == m
      modifies this`stream, this`dlq, this`pushed, this`acked, this`handlers, this`abandoned, this`overtaken
      modifies this`keys, this`log
      ensures Leads(old(Snapshot()), steps, maxRetries, Snapshot())
      ensures handlers == old(handlers) - {t}
      ensures acked == if raised then old(acked) else old(acked) + {e}
      ensures log == old(log) + [if verdict then Succeeded(m.id) else Failed(m.id)]
      ensures keys == if verdict || f.del then old(keys) else old(keys) - {m.id}
      ensures Disposed(old(stream), old(dlq), stream, dlq, m, verdict, f, maxRetries, raised)
    {
      ghost var before := Snapshot();
      Returned(t, verdict, maxRetries);
      if verdict {
        raised, steps := FinishEntry(t, e, f.xack, maxRetries);
      } else {
        raised, steps := HandleFailure(t, e, m, f, maxRetries);
      }
      LeadsCons(before, Return(t, verdict), steps, maxRetries, Snapshot());
      steps := [Return(t, verdict)] + steps;
    }

    // The entry did not parse: best-effort raw dead-letter write, then XACK.
    method HandleGarbage(ghost t: TaskId, e: EntryId, f: Faults, ghost maxRetries: int)
      returns (raised: bool, ghost steps: seq<Step>)
      requires HasPhase(Snapshot(), t, Received) && handlers[t].entry == e && handlers[t].payload.Garbage?
      modifies this`rawDlq, this`rawDropped, this`acked, this`handlers, this`abandoned, this`overtaken
      ensures Leads(old(Snapshot()), steps, maxRetries, Snapshot())
      ensures handlers == old(handlers) - {t}
      ensures acked == if raised then old(acked) else old(acked) + {e}
      ensures raised == f.xack && rawDlq == if f.rawDlq then old(rawDlq) else old(rawDlq) + {e}
    {
      ghost var before := Snapshot();
      DlqRaw(t, e, f.rawDlq, maxRetries);
      raised, steps := FinishEntry(t, e, f.xack, maxRetries);
      LeadsCons(before, DeadLetterRaw(t, !f.rawDlq), steps, maxRetries, Snapshot());
      steps := [DeadLetterRaw(t, !f.rawDlq)] + steps;
    }

    // Everything after the entry parsed as a message.
    method HandleMessage(ghost t: TaskId, e: EntryId, m: Message, verdict: bool, f: Faults, maxRetries: int)
      returns (raised: bool, ghost steps: seq<Step>)
      requires Handles(Snapshot(), t, Received) && handlers[t].entry == e && handlers[t].payload.message == m
      modifies this`stream, this`dlq, this`pushed, this`acked, this`handlers, this`abandoned, this`overtaken
      modifies this`keys, this`log
      ensures Leads(old(Snapshot()), steps, maxRetries, Snapshot())
      ensures handlers == old(handlers) - {t}
      ensures acked == if raised then old(acked) else old(acked) + {e}
      ensures MessageSettled(old(Snapshot()), Snapshot(), m, verdict, f, maxRetries, raised)
    {
      if f.setNx {
        steps := Escape(t, maxRetries);
        return true, steps;
      }
      raised, steps := ClaimAndRun(t, e, m, verdict, f, maxRetries);
    }

    // SET NX did not raise.
    method ClaimAndRun(ghost t: TaskId, e: EntryId, m: Message, verdict: bool, f: Faults, maxRetries: int)
      returns (raised: bool, ghost steps: seq<Step>)
      requires !f.setNx
      requires Handles(Snapshot(), t, Received) && handlers[t].entry == e && handlers[t].payload.message == m
      modifies this`stream, this`dlq, this`pushed, this`acked, this`handlers, this`abandoned, this`overtaken
      modifies this`keys, this`log
      ensures Leads(old(Snapshot()), steps, maxRetries, Snapshot())
      ensures handlers == old(handlers) - {t}
      ensures acked == if raised then old(acked) else old(acked) + {e}
      ensures MessageSettled(old(Snapshot()), Snapshot(), m, verdict, f, maxRetries, raised)
    {
      ghost var before := Snapshot();
      var isNew := SetNx(t, m.id, maxRetries);
      if !isNew {
        raised, steps := FinishEntry(t, e, f.xack, maxRetries);
      } else {
        raised, steps := RunCallback(t, e, m, verdict, f, maxRetries);
      }
      LeadsCons(before, ClaimKey(t), steps, maxRetries, Snapshot());
      steps := [ClaimKey(t)] + steps;
    }

    // `_process_entry` for one delivered entry, run by handler `t` with nothing else
    // happening in between. `verdict` is the callback's answer, were it called.
    method ProcessEntry(ghost t: TaskId, e: EntryId, verdict: bool, f: Faults, maxRetries: int)
      returns (raised: bool, ghost steps: seq<Step>)
      requires Tidy(Snapshot()) && e < delivered && t !in handlers
      modifies this
      ensures Leads(old(Snapshot()), steps, maxRetries, Snapshot())
      ensures handlers == old(handlers) && delivered == old(delivered)
      // acknowledged exactly when nothing raised
      ensures acked == if raised then old(acked) else old(acked) + {e}
      ensures match old(stream)[e]
              case Garbage(_) =>
                && raised == f.xack && rawDlq == (if f.rawDlq then old(rawDlq) else old(rawDlq) + {e})
                && stream == old(stream) && keys == old(keys) && dlq == old(dlq) && log == old(log)
              case Envelope(m) =>
                rawDlq == old(rawDlq) && MessageSettled(old(Snapshot()), Snapshot(), m, verdict, f, maxRetries, raised)
    {
      ghost var before := Snapshot();
      Took(t, e, maxRetries);
      match stream[e] {
        case Garbage(_) =>
          raised, steps := HandleGarbage(t, e, f, maxRetries);
        case Envelope(m) =>
          raised, steps := HandleMessage(t, e, m, verdict, f, maxRetries);
      }
      LeadsCons(before, Begin(t, e), steps, maxRetries, Snapshot());
      steps := [Begin(t, e)] + steps;
    }

    // What a failed callback leaves in the stream and the dead-letter queue.
    ghost predicate Disposed(stream0: seq<Payload>, dlq0: seq<Message>, stream1: seq<Payload>, dlq1: seq<Message>,
                             m: Message, verdict: bool, f: Faults, maxRetries: int, raised: bool)
    {
      if verdict || f.del then
        raised == (!verdict || f.xack) && stream1 == stream0 && dlq1 == dlq0
      else
        var o := RetryRoute(m, f, maxRetries);
        raised == (o == None || o == Some(DlqThenRaise) || f.xack)
        && WrittenBack(stream0, dlq0, stream1, dlq1, m, o, maxRetries)
    }

    // A taken key means nothing happens but the acknowledgement. Otherwise the callback runs
    // once, and the key outlives it on success, or when the DEL after a failure raises.
    ghost predicate MessageSettled(s: State, s': State, m: Message, verdict: bool, f: Faults, maxRetries: int,
                                   raised: bool) {
      if f.setNx || m.id in s.keys then
        && raised == (f.setNx || f.xack)
        && s'.stream == s.stream && s'.keys == s.keys && s'.dlq == s.dlq && s'.log == s.log
      else
        && s'.log == s.log + [Started(m.id), if verdict then Succeeded(m.id) else Failed(m.id)]
        && s'.keys == (if verdict || f.del then s.keys + {m.id} else s.keys)
        && Disposed(s.stream, s.dlq, s'.stream, s'.dlq, m, verdict, f, maxRetries, raised)
    }

    // Nothing raises and memory stays below the hard limit.
    predicate Calm(f: Faults) {
      f == Faults(false, false, false, f.push, false, false) && RouteOf(f.push) == Some(ToStream)
    }

    // One entry on a quiet store.
    method ConsumeEntry(cb: (MessageId, int) -> bool, e: EntryId, calm: Faults, maxRetries: int)
      returns (ghost steps: seq<Step>)
      requires Resting(Snapshot()) && e < delivered
      requires Calm(calm)
      modifies this
      ensures Leads(old(Snapshot()), steps, maxRetries, Snapshot())
      ensures Resting(Snapshot()) && delivered == old(delivered) && acked == old(acked) + {e}
      ensures DeskAt(Snapshot(), e + 1) == Turn(old(DeskAt(Snapshot(), e)), cb, maxRetries)
    {
      ghost var s0 := Snapshot();
      var verdict := match stream[e] case Garbage(_) => false case Envelope(m) => cb(m.id, m.retryCount);
      var raised;
      raised, steps := ProcessEntry(0, e, verdict, calm, maxRetries);
      TidyRun(s0, steps, maxRetries, Snapshot());
      QuietEntry(s0, e, Snapshot(), verdict, calm, raised, cb, maxRetries);
    }

    // What a quiet `_process_entry` makes of the desk.
    lemma QuietEntry(s: State, e: EntryId, s': State, verdict: bool, calm: Faults, raised: bool,
                     cb: (MessageId, int) -> bool, maxRetries: int)
      requires e < |s.stream|
      requires Calm(calm)
      requires match s.stream[e]
               case Garbage(_) => s'.stream == s.stream && s'.keys == s.keys && s'.dlq == s.dlq && s'.log == s.log
               case Envelope(m) =>
                 verdict == cb(m.id, m.retryCount) && MessageSettled(s, s', m, verdict, calm, maxRetries, raised)
      ensures s.stream <= s'.stream
      ensures Desk(s'.stream[e + 1..], s'.keys, s'.log, s'.dlq)
           == Turn(Desk(s.stream[e..], s.keys, s.log, s.dlq), cb, maxRetries)
    {
      assert s.stream[e..][1..] == s.stream[e + 1..];
      if s.stream[e].Envelope? {
        var more := Envelope(Retry(s.stream[e].message));
        assert (s.stream + [more])[e + 1..] == s.stream[e + 1..] + [more];
      }
    }

    // XREADGROUP with a count: the read cursor moves past the entries handed out.
    method ReadGroup(count: nat, ghost maxRetries: int) returns (ghost steps: seq<Step>)
      requires delivered + count <= |stream|
      modifies this`delivered
      ensures delivered == old(delivered) + count
      ensures Leads(old(Snapshot()), steps, maxRetries, Snapshot())
    {
      steps := [];
      for i := 0 to count
        invariant delivered == old(delivered) + i
        invariant Leads(old(Snapshot()), steps, maxRetries, Snapshot())
      {
        LeadsSnoc(old(Snapshot()), steps, maxRetries, Snapshot(), Deliver);
        delivered := delivered + 1;
        steps := steps + [Deliver];
      }
    }

    // The next entry of a batch that has come from s0 and d0.
    method ConsumeNext(cb: (MessageId, int) -> bool, ghost first: EntryId, e: EntryId, calm: Faults, maxRetries: int,
                       ghost s0: State, ghost d0: Desk, ghost before: seq<Step>, ghost n: nat)
      returns (ghost steps: seq<Step>, ghost turns: nat)
      requires Resting(Snapshot()) && e < delivered
      requires Calm(calm)
      requires Leads(s0, before, maxRetries, Snapshot()) && DeskAt(Snapshot(), e) == Turned(d0, n, cb, maxRetries)
      requires first <= e && AckedFrom(Snapshot(), first, e)
      modifies this
      ensures Resting(Snapshot()) && delivered == old(delivered) && AckedFrom(Snapshot(), first, e + 1)
      ensures Leads(s0, steps, maxRetries, Snapshot())
      ensures DeskAt(Snapshot(), e + 1) == Turned(d0, turns, cb, maxRetries) && turns > 0
    {
      ghost var s1 := Snapshot();
      ghost var more := ConsumeEntry(cb, e, calm, maxRetries);
      LeadsTrans(s0, before, s1, more, maxRetries, Snapshot());
      steps, turns := before + more, n + 1;
    }

    // The entries of one batch, in order.
    method ConsumeBatch(cb: (MessageId, int) -> bool, ghost start: EntryId, first: EntryId, calm: Faults,
                        maxRetries: int)
      returns (ghost steps: seq<Step>, ghost turns: nat)
      requires Resting(Snapshot()) && start <= first < delivered && AckedFrom(Snapshot(), start, first)
      requires Calm(calm)
      modifies this
      ensures Leads(old(Snapshot()), steps, maxRetries, Snapshot())
      ensures Resting(Snapshot()) && delivered == old(delivered)
      ensures AckedFrom(Snapshot(), start, delivered)
      ensures DeskAt(Snapshot(), delivered) == Turned(old(DeskAt(Snapshot(), first)), turns, cb, maxRetries)
      ensures turns > 0
    {
      ghost var s0, d0 := Snapshot(), DeskAt(Snapshot(), first);
      steps, turns := [], 0;
      for e := first to delivered
        invariant Resting(Snapshot()) && delivered == old(delivered)
        invariant Leads(s0, steps, maxRetries, Snapshot())
        invariant AckedFrom(Snapshot(), start, e)
        invariant DeskAt(Snapshot(), e) == Turned(d0, turns, cb, maxRetries) && (e > first ==> turns > 0)
      {
        steps, turns := ConsumeNext(cb, start, e, calm, maxRetries, s0, d0, steps, turns);
      }
    }

    // One consumer on a quiet store: nothing raises, memory stays below the hard limit and
    // nobody else works on the stream. Polls in batches until no entry is left undelivered; every
    // id then has had exactly what its waiting copies were owed (StreamAccount.AllSettled).
    method Consume(cb: (MessageId, int) -> bool, batchSize: nat, calm: Faults, maxRetries: int)
      returns (ghost steps: seq<Step>, ghost turns: nat)
      requires Resting(Snapshot()) && batchSize > 0
      requires Calm(calm)
      modifies this
      ensures Leads(old(Snapshot()), steps, maxRetries, Snapshot())
      ensures handlers == map[] && delivered == |stream|
      ensures AckedFrom(Snapshot(), old(delivered), |stream|)
      ensures DeskAt(Snapshot(), delivered) == Turned(old(DeskAt(Snapshot(), delivered)), turns, cb, maxRetries)
    {
      ghost var d0 := DeskAt(Snapshot(), delivered);
      ghost var d := d0;
      steps, turns := [], 0;
      while delivered < |stream|
        invariant Resting(Snapshot()) && old(delivered) <= delivered
        invariant Leads(old(Snapshot()), steps, maxRetries, Snapshot())
        invariant AckedFrom(Snapshot(), old(delivered), delivered)
        invariant d == DeskAt(Snapshot(), delivered) && d == Turned(d0, turns, cb, maxRetries)
        decreases Work(d.queue, maxRetries)
      {
        ghost var s1 := Snapshot();
        var first := delivered;
        var waiting := |stream| - delivered;
        ghost var polls := ReadGroup(if waiting < batchSize then waiting else batchSize, maxRetries);
        LeadsTrans(old(Snapshot()), steps, s1, polls, maxRetries, Snapshot());
        ghost var s2 := Snapshot();
        ghost var more, k := ConsumeBatch(cb, old(delivered), first, calm, maxRetries);
        LeadsTrans(old(Snapshot()), steps + polls, s2, more, maxRetries, Snapshot());
        steps := steps + polls + more;
        turns := TurnedOn(d0, turns, d, k, DeskAt(Snapshot(), delivered), cb, maxRetries);
        d := DeskAt(Snapshot(), delivered);
      }
    }
  }

  lemma {:induction false} TidyRun(from: State, steps: seq<Step>, maxRetries: int, s: State)
    requires Tidy(from) && Leads(from, steps, maxRetries, s)
    ensures Tidy(s)
    decreases |steps|
  {
    if steps != [] {
      TidyStep(from, steps[0], maxRetries);
      TidyRun(Apply(from, steps[0], maxRetries), steps[1..], maxRetries, s);
    }
  }
}
