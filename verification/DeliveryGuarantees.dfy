// What the delivery protocol guarantees of every run: conservation of messages, one success an id,
// and bounded retry counts.

module DeliveryGuarantees {
  import opened DeliveryProtocol

  // --- Theorems over all runs from the empty store ---

  // No message is lost: it is unacknowledged, being handled, dead-lettered or done, unless one of
  // its handlers died with the key in hand, or after DEL on an entry a claim had acknowledged.
  lemma Conservation(steps: seq<Step>, maxRetries: int, s: State, id: MessageId)
    requires Leads(INIT, steps, maxRetries, s) && id in s.pushed
    ensures || HasSucceeded(s, id) || InDlq(s, id) || InFlight(s, id)
            || (exists e :: 0 <= e < |s.stream| && e !in s.acked
                          && s.stream[e].Envelope? && s.stream[e].message.id == id)
            || Stuck(s, id) || id in s.overtaken
  {
    InvRun(INIT, steps, maxRetries, s);
    assert Secure(s, id);
    if exists e: EntryId :: Awaiting(s, e, id) {
      var e: EntryId :| Awaiting(s, e, id);
      assert 0 <= e < |s.stream| && e !in s.acked && s.stream[e].Envelope? && s.stream[e].message.id == id;
    }
  }

  // A key is stuck exactly when a handler died with it in hand.
  lemma AbandonedExactly(steps: seq<Step>, maxRetries: int, s: State, id: MessageId)
    requires Leads(INIT, steps, maxRetries, s)
    ensures Stuck(s, id) <==> id in s.abandoned
  {
    InvRun(INIT, steps, maxRetries, s);
  }

  predicate NoDeaths(steps: seq<Step>) {
    forall i :: 0 <= i < |steps| ==> !steps[i].Die?
  }

  lemma {:induction false} NoDeathsNoOrphans(from: State, steps: seq<Step>, maxRetries: int, s: State)
    requires NoDeaths(steps) && Leads(from, steps, maxRetries, s)
    ensures s.abandoned == from.abandoned && s.overtaken == from.overtaken
    decreases |steps|
  {
    if steps != [] {
      assert !steps[0].Die?;
      NoDeathsNoOrphans(Apply(from, steps[0], maxRetries), steps[1..], maxRetries, s);
    }
  }

  // A store at rest has delivered or dead-lettered everything but what handlers died on.
  lemma SettledWhenAtRest(steps: seq<Step>, maxRetries: int, s: State, id: MessageId)
    requires Leads(INIT, steps, maxRetries, s)
    requires s.handlers == map[] && (forall e :: 0 <= e < |s.stream| ==> e in s.acked)
    requires id in s.pushed
    ensures HasSucceeded(s, id) || InDlq(s, id) || Stuck(s, id) || id in s.overtaken
    ensures NoDeaths(steps) ==> HasSucceeded(s, id) || InDlq(s, id)
  {
    Conservation(steps, maxRetries, s, id);
    if NoDeaths(steps) {
      NoDeathsNoOrphans(INIT, steps, maxRetries, s);
      AbandonedExactly(steps, maxRetries, s, id);
    }
  }

  // --- Claims that leave handlers alone ---

  // Who begins an entry finds it unacknowledged and with nobody at work on it.
  ghost predicate Undisputed(s: State, step: Step) {
    step.Begin? ==> step.entry !in s.acked && forall u :: u in s.handlers ==> s.handlers[u].entry != step.entry
  }

  // No claim lands on an entry before the handling of it is over, as when the idle time a claim
  // waits for exceeds the time from the delivery of an entry to the end of its handling.
  ghost predicate Exclusive(from: State, steps: seq<Step>, maxRetries: int)
    decreases |steps|
  {
    steps != [] ==>
      && Enabled(from, steps[0], maxRetries) && Undisputed(from, steps[0])
      && Exclusive(Apply(from, steps[0], maxRetries), steps[1..], maxRetries)
  }

  ghost predicate OneHandlerEach(s: State) {
    && (forall t, u :: t in s.handlers && u in s.handlers && s.handlers[t].entry == s.handlers[u].entry ==> t == u)
    && (forall t :: t in s.handlers ==> s.handlers[t].entry !in s.acked)
  }

  lemma AckedStep(s: State, step: Step, maxRetries: int, e: EntryId)
    requires Enabled(s, step, maxRetries) && e in Apply(s, step, maxRetries).acked
    ensures e in s.acked || (step.Ack? && s.handlers[step.task].entry == e)
  {}

  lemma OneHandlerStep(s: State, step: Step, maxRetries: int)
    requires OneHandlerEach(s) && Enabled(s, step, maxRetries) && Undisputed(s, step)
    ensures OneHandlerEach(Apply(s, step, maxRetries)) && Apply(s, step, maxRetries).overtaken == s.overtaken
  {
    var s' := Apply(s, step, maxRetries);
    forall t | t in s'.handlers
      ensures s'.handlers[t].entry !in s'.acked
    {
      HandlerStep(s, step, maxRetries, t);
      if s'.handlers[t].entry in s'.acked {
        AckedStep(s, step, maxRetries, s'.handlers[t].entry);
      }
    }
    forall t, u | t in s'.handlers && u in s'.handlers && s'.handlers[t].entry == s'.handlers[u].entry
      ensures t == u
    {
      HandlerStep(s, step, maxRetries, t);
      HandlerStep(s, step, maxRetries, u);
    }
  }

  lemma {:induction false} OneHandlerRun(from: State, steps: seq<Step>, maxRetries: int, s: State)
    requires OneHandlerEach(from) && Leads(from, steps, maxRetries, s) && Exclusive(from, steps, maxRetries)
    ensures OneHandlerEach(s) && s.overtaken == from.overtaken
    decreases |steps|
  {
    if steps != [] {
      OneHandlerStep(from, steps[0], maxRetries);
      OneHandlerRun(Apply(from, steps[0], maxRetries), steps[1..], maxRetries, s);
    }
  }

  // Then the only deaths that matter are those with the key in hand: a handler that dies after DEL
  // leaves its entry to be claimed.
  lemma ExclusiveConservation(steps: seq<Step>, maxRetries: int, s: State, id: MessageId)
    requires Leads(INIT, steps, maxRetries, s) && Exclusive(INIT, steps, maxRetries) && id in s.pushed
    ensures Provided(s, id) || Stuck(s, id)
  {
    InvRun(INIT, steps, maxRetries, s);
    OneHandlerRun(INIT, steps, maxRetries, s);
    assert Secure(s, id);
  }

  // A garbage entry is acknowledged only once its raw dead-letter write was attempted.
  lemma GarbageAccounted(steps: seq<Step>, maxRetries: int, s: State, e: EntryId)
    requires Leads(INIT, steps, maxRetries, s)
    requires e < |s.stream| && s.stream[e].Garbage?
    ensures e !in s.acked || e in s.rawDlq || e in s.rawDropped
  {
    InvRun(INIT, steps, maxRetries, s);
  }

  lemma {:induction false} SuccessIsFinal(log: seq<Event>, id: MessageId)
    requires LifeOf(log, id) != Broken && Succeeded(id) in log
    ensures LifeOf(log, id) == Done
  {
    var n := |log| - 1;
    if log[n] != Succeeded(id) {
      var k :| 0 <= k < |log| && log[k] == Succeeded(id);
      assert log[..n][k] == Succeeded(id);
      SuccessIsFinal(log[..n], id);
    }
  }

  lemma {:induction false} NothingAfterSuccess(log: seq<Event>, id: MessageId)
    requires LifeOf(log, id) != Broken
    ensures LifeOf(log, id) == Done ==> Succeeded(id) in log
    ensures forall i, j :: 0 <= i < j < |log| && log[i] == Succeeded(id) ==> log[j].id != id
  {
    if log != [] {
      var n := |log| - 1;
      var init := log[..n];
      NothingAfterSuccess(init, id);
      if Succeeded(id) in init {
        SuccessIsFinal(init, id);
      }
      if LifeOf(init, id) == Done {
        var k :| 0 <= k < n && init[k] == Succeeded(id);
        assert log[k] == Succeeded(id);
      }
    }
  }

  lemma {:induction false} FailureBetweenStarts(log: seq<Event>, id: MessageId)
    requires LifeOf(log, id) != Broken
    ensures LifeOf(log, id) == Idle ==>
              forall i :: 0 <= i < |log| && log[i] == Started(id) ==> exists k :: i < k < |log| && log[k] == Failed(id)
    ensures forall i, j :: 0 <= i < j < |log| && log[i] == Started(id) && log[j] == Started(id)
              ==> exists k :: i < k < j && log[k] == Failed(id)
  {
    if log != [] {
      var n := |log| - 1;
      var init := log[..n];
      FailureBetweenStarts(init, id);
      forall i | 0 <= i < n && log[i] == Started(id) && LifeOf(init, id) == Idle
        ensures exists k :: i < k < n && log[k] == Failed(id)
      {
        assert init[i] == Started(id);
        var k :| i < k < n && init[k] == Failed(id);
        assert log[k] == Failed(id);
      }
      forall i, j | 0 <= i < j < |log| && log[i] == Started(id) && log[j] == Started(id)
        ensures exists k :: i < k < j && log[k] == Failed(id)
      {
        if j < n {
          assert init[i] == Started(id) && init[j] == Started(id);
          var k :| i < k < j && init[k] == Failed(id);
          assert log[k] == Failed(id);
        }
      }
    }
  }

  // What an unbroken life means, event by event.
  lemma LifeMeaning(log: seq<Event>, id: MessageId)
    requires LifeOf(log, id) != Broken
    ensures LifeOf(log, id) == Done ==> Succeeded(id) in log
    ensures forall i, j :: 0 <= i < j < |log| && log[i] == Succeeded(id) ==> log[j].id != id
    ensures LifeOf(log, id) == Idle ==>
              forall i :: 0 <= i < |log| && log[i] == Started(id) ==> exists k :: i < k < |log| && log[k] == Failed(id)
    ensures forall i, j :: 0 <= i < j < |log| && log[i] == Started(id) && log[j] == Started(id)
              ==> exists k :: i < k < j && log[k] == Failed(id)
  {
    NothingAfterSuccess(log, id);
    FailureBetweenStarts(log, id);
  }

  predicate CallsBack(s: State, t: TaskId, id: MessageId) {
    Handles(s, t, Working) && s.handlers[t].payload.message.id == id
  }

  // Callbacks for one message id never overlap and none starts after a success, whatever
  // duplicates were pushed, claimed or retried and whichever handlers died.
  lemma SingleHolderSingleSuccess(steps: seq<Step>, maxRetries: int, s: State, id: MessageId)
    requires Leads(INIT, steps, maxRetries, s)
    ensures forall t, u :: CallsBack(s, t, id) && CallsBack(s, u, id) ==> t == u
    ensures forall i, j :: 0 <= i < j < |s.log| && s.log[i] == Succeeded(id) ==> s.log[j].id != id
    ensures forall i, j :: 0 <= i < j < |s.log| && s.log[i] == Started(id) && s.log[j] == Started(id)
              ==> exists k :: i < k < j && s.log[k] == Failed(id)
  {
    InvRun(INIT, steps, maxRetries, s);
    LifeMeaning(s.log, id);
    forall t, u | CallsBack(s, t, id) && CallsBack(s, u, id)
      ensures t == u
    {
      assert Holds(s.handlers[t], id) && Holds(s.handlers[u], id);
    }
  }

  // A key with no holder, left by a success or by a handler that died holding it, is
  // never given back: no callback for that id is ever started again.
  lemma {:induction false} UnheldKeyIsFinal(from: State, steps: seq<Step>, maxRetries: int, s: State, id: MessageId)
    requires id in from.keys && !Held(from, id) && Leads(from, steps, maxRetries, s)
    ensures id in s.keys && !Held(s, id)
    ensures from.log <= s.log && forall k :: |from.log| <= k < |s.log| ==> s.log[k].id != id
    decreases |steps|
  {
    if steps != [] {
      var next := Apply(from, steps[0], maxRetries);
      UnheldKeyStep(from, steps[0], maxRetries, id);
      UnheldKeyIsFinal(next, steps[1..], maxRetries, s, id);
    }
  }

  // --- Retry counts ---

  ghost predicate RetriesBelow(s: State, maxRetries: int) {
    forall e :: 0 <= e < |s.stream| && s.stream[e].Envelope? ==> s.stream[e].message.retryCount < maxRetries
  }

  // What producers must do: hand in messages whose count is below the limit.
  predicate PublishesBelow(steps: seq<Step>, maxRetries: int) {
    forall i :: 0 <= i < |steps| && steps[i].Publish? && (steps[i].outcome.ToStream? || steps[i].outcome.ToBoth?)
      ==> steps[i].message.retryCount < maxRetries
  }

  // Re-pushes never break the bound, so it holds of the stream exactly when producers keep it.
  lemma {:induction false} RetryBound(from: State, steps: seq<Step>, maxRetries: int, s: State)
    requires Tidy(from) && Leads(from, steps, maxRetries, s)
    ensures RetriesBelow(s, maxRetries) <==> RetriesBelow(from, maxRetries) && PublishesBelow(steps, maxRetries)
    decreases |steps|
  {
    if steps != [] {
      var step := steps[0];
      var next := Apply(from, step, maxRetries);
      TidyStep(from, step, maxRetries);
      RetryBound(next, steps[1..], maxRetries, s);
      RetryStep(from, step, maxRetries);
      assert PublishesBelow(steps, maxRetries) <==>
             PublishesBelow([step], maxRetries) && PublishesBelow(steps[1..], maxRetries) by {
        assert steps == [step] + steps[1..];
      }
    }
  }

  lemma RetryStep(s: State, step: Step, maxRetries: int)
    requires Tidy(s) && Enabled(s, step, maxRetries)
    ensures var s' := Apply(s, step, maxRetries);
            RetriesBelow(s', maxRetries) <==> (RetriesBelow(s, maxRetries) && PublishesBelow([step], maxRetries))
  {
    var s' := Apply(s, step, maxRetries);
    assert [step][0] == step;
    assert forall e :: 0 <= e < |s.stream| ==> s'.stream[e] == s.stream[e];
    if step.Publish? && (step.outcome.ToStream? || step.outcome.ToBoth?) {
      assert s'.stream[|s.stream|] == Envelope(step.message);
    }
  }
}
