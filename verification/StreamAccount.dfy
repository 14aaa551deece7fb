// What a consumer that works undisturbed through its queue owes and gives to every message.

module StreamAccount {
  import opened DeliveryProtocol
  import opened StreamQueue

  // What every turn keeps, any number of turns keeps.
  lemma {:induction false} TurnedKeeps(f: Desk -> Tally, d: Desk, n: nat, cb: (MessageId, int) -> bool, maxRetries: int)
    requires forall x: Desk :: f(Turn(x, cb, maxRetries)) == f(x)
    ensures f(Turned(d, n, cb, maxRetries)) == f(d)
  {
    if n > 0 {
      TurnedKeeps(f, d, n - 1, cb, maxRetries);
    }
  }

  lemma TurnedExchange(d: Desk, n: nat, id: MessageId, cb: (MessageId, int) -> bool, maxRetries: int)
    ensures Due(Turned(d, n, cb, maxRetries), id, cb, maxRetries) == Due(d, id, cb, maxRetries)
  {
    var f := (x: Desk) => Due(x, id, cb, maxRetries);
    forall x: Desk
      ensures f(Turn(x, cb, maxRetries)) == f(x)
    {
      if x.queue != [] {
        EntryExchangesFor(x, Turn(x, cb, maxRetries), id, cb, maxRetries);
      }
    }
    TurnedKeeps(f, d, n, cb, maxRetries);
  }

  // When the queue is empty, what was due is settled.
  lemma AllSettled(d: Desk, n: nat, cb: (MessageId, int) -> bool, maxRetries: int)
    requires Turned(d, n, cb, maxRetries).queue == []
    ensures forall id: MessageId :: Settled(Turned(d, n, cb, maxRetries), id) == Due(d, id, cb, maxRetries)
  {
    forall id: MessageId
      ensures Settled(Turned(d, n, cb, maxRetries), id) == Due(d, id, cb, maxRetries)
    {
      TurnedExchange(d, n, id, cb, maxRetries);
    }
  }

  // --- What is owed, in the message's own terms ---

  function TotalAttempts(ms: seq<Message>, cb: (MessageId, int) -> bool, maxRetries: int): nat {
    if ms == [] then 0 else Attempts(cb, ms[0], maxRetries) + TotalAttempts(ms[1..], cb, maxRetries)
  }

  lemma {:induction false} TotalAppend(ms: seq<Message>, m: Message, cb: (MessageId, int) -> bool, maxRetries: int)
    ensures TotalAttempts(ms + [m], cb, maxRetries) == TotalAttempts(ms, cb, maxRetries) + Attempts(cb, m, maxRetries)
  {
    if ms == [] {
      assert ms + [m] == [m];
    } else {
      assert (ms + [m])[1..] == ms[1..] + [m];
      TotalAppend(ms[1..], m, cb, maxRetries);
    }
  }

  ghost predicate SomeAccepted(ms: seq<Message>, cb: (MessageId, int) -> bool, maxRetries: int) {
    exists i :: 0 <= i < |ms| && Accepted(cb, ms[i], maxRetries)
  }

  lemma SomeAcceptedNext(ms: seq<Message>, cb: (MessageId, int) -> bool, maxRetries: int)
    requires ms != [] && !cb(ms[0].id, ms[0].retryCount)
    ensures ms[0].retryCount + 1 >= maxRetries ==>
              (SomeAccepted(ms, cb, maxRetries) <==> SomeAccepted(ms[1..], cb, maxRetries))
    ensures ms[0].retryCount + 1 < maxRetries ==>
              (SomeAccepted(ms, cb, maxRetries) <==> SomeAccepted(ms[1..] + [Retry(ms[0])], cb, maxRetries))
  {
    var rest, retried := ms[1..], ms[1..] + [Retry(ms[0])];
    if i :| 0 <= i < |ms| && Accepted(cb, ms[i], maxRetries) {
      if i > 0 {
        assert rest[i - 1] == ms[i] == retried[i - 1];
      } else {
        assert retried[|rest|] == Retry(ms[0]);
      }
    }
    if i :| 0 <= i < |rest| && Accepted(cb, rest[i], maxRetries) {
      assert rest[i] == ms[i + 1];
    }
    if ms[0].retryCount + 1 < maxRetries {
      if i :| 0 <= i < |retried| && Accepted(cb, retried[i], maxRetries) {
        if i < |rest| {
          assert retried[i] == ms[i + 1];
        } else {
          assert retried[i] == Retry(ms[0]) && Accepted(cb, ms[0], maxRetries);
        }
      }
    }
  }

  // However many copies of a message wait, it succeeds once if some copy would be accepted before
  // its retries run out, and not at all otherwise; then each copy is dead-lettered, after all of
  // its attempts. A taken key passes over every copy.
  lemma {:induction false} OwedExactly(ms: seq<Message>, taken: bool, cb: (MessageId, int) -> bool, maxRetries: int)
    ensures var t := Owed(ms, taken, cb, maxRetries);
            && t.successes == (if !taken && SomeAccepted(ms, cb, maxRetries) then 1 else 0)
            && t.successes + t.deadLetters <= |ms|
            && (taken ==> t == Tally(0, 0, 0))
            && (!taken && !SomeAccepted(ms, cb, maxRetries) ==>
                  t == Tally(TotalAttempts(ms, cb, maxRetries), 0, |ms|))
            && t.calls <= TotalAttempts(ms, cb, maxRetries)
            && (!taken && |ms| == 1 ==> t.calls == TotalAttempts(ms, cb, maxRetries))
    decreases Load(ms, maxRetries)
  {
    if ms != [] && !taken {
      var m, rest := ms[0], ms[1..];
      LoadAppend(rest, Retry(m), maxRetries);
      if cb(m.id, m.retryCount) {
        assert Accepted(cb, ms[0], maxRetries);
      } else {
        SomeAcceptedNext(ms, cb, maxRetries);
        if m.retryCount + 1 >= maxRetries {
          OwedExactly(rest, false, cb, maxRetries);
        } else {
          TotalAppend(rest, Retry(m), cb, maxRetries);
          OwedExactly(rest + [Retry(m)], false, cb, maxRetries);
        }
      }
    }
  }

  // A callback that always fails is called once per permitted attempt.
  lemma {:induction false} AlwaysFailing(cb: (MessageId, int) -> bool, m: Message, maxRetries: int)
    requires forall n :: !cb(m.id, n)
    ensures !Accepted(cb, m, maxRetries)
    ensures Attempts(cb, m, maxRetries) == if m.retryCount + 1 >= maxRetries then 1 else maxRetries - m.retryCount
    decreases maxRetries - m.retryCount
  {
    if m.retryCount + 1 < maxRetries {
      AlwaysFailing(cb, Retry(m), maxRetries);
    }
  }

  // A message with one copy gets as many callbacks as attempts and exactly one final disposition.
  lemma LoneMessage(cb: (MessageId, int) -> bool, m: Message, maxRetries: int)
    ensures var t := Owed([m], false, cb, maxRetries);
            && t.calls == Attempts(cb, m, maxRetries)
            && t.successes == (if Accepted(cb, m, maxRetries) then 1 else 0)
            && t.successes + t.deadLetters == 1
  {
    var ms := [m];
    OwedExactly(ms, false, cb, maxRetries);
    TotalOfOne(m, cb, maxRetries);
    assert SomeAccepted(ms, cb, maxRetries) <==> Accepted(cb, ms[0], maxRetries);
  }

  lemma TotalOfOne(m: Message, cb: (MessageId, int) -> bool, maxRetries: int)
    ensures TotalAttempts([m], cb, maxRetries) == Attempts(cb, m, maxRetries)
  {
    assert [m][1..] == [];
  }
}
