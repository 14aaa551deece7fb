// How the delivery protocol loses a message, and which ids can still succeed.

module DeliveryLosses {
  import opened DeliveryGuarantees
  import opened DeliveryProtocol

  // --- The two ways a message is lost ---

  ghost predicate Lost(s: State, id: MessageId) {
    && id in s.pushed && !HasSucceeded(s, id) && !InDlq(s, id) && !InFlight(s, id)
    && forall e :: 0 <= e < |s.stream| && s.stream[e].Envelope? && s.stream[e].message.id == id ==> e in s.acked
  }

  // A delivery whose key is taken: begin, fail SET NX, acknowledge.
  lemma AckAsDuplicate(s: State, t: TaskId, e: EntryId, maxRetries: int) returns (s': State)
    requires t !in s.handlers && e < s.delivered <= |s.stream|
    requires s.stream[e].Envelope? && s.stream[e].message.id in s.keys
    ensures Leads(s, [Begin(t, e), ClaimKey(t), Ack(t)], maxRetries, s') && s' == s.(acked := s.acked + {e})
  {
    var s1 := Apply(s, Begin(t, e), maxRetries);
    var s2 := Apply(s1, ClaimKey(t), maxRetries);
    s' := Apply(s2, Ack(t), maxRetries);
    assert s'.handlers == s.handlers;
    LeadsCons(s2, Ack(t), [], maxRetries, s');
    LeadsCons(s1, ClaimKey(t), [Ack(t)], maxRetries, s');
    LeadsCons(s, Begin(t, e), [ClaimKey(t), Ack(t)], maxRetries, s');
    assert [Begin(t, e)] + ([ClaimKey(t)] + ([Ack(t)] + [])) == [Begin(t, e), ClaimKey(t), Ack(t)];
  }

  // Handler t has the only copy of a message.
  ghost predicate SoleCopy(s: State, t: TaskId, id: MessageId)
    requires t in s.handlers
  {
    && !InDlq(s, id)
    && (forall u :: u in s.handlers && Owes(s.handlers[u], id) ==> u == t)
    && (forall e :: 0 <= e < |s.stream| && s.stream[e].Envelope? && s.stream[e].message.id == id
          ==> e == s.handlers[t].entry || e in s.acked)
  }

  predicate NoBegins(steps: seq<Step>) {
    forall i :: 0 <= i < |steps| ==> !steps[i].Begin?
  }

  // Nothing but handler t itself moves, and it keeps its entry.
  lemma SoleCopyKept(s: State, s': State, t: TaskId, id: MessageId)
    requires t in s.handlers && SoleCopy(s, t, id)
    requires s'.stream == s.stream && s'.dlq == s.dlq && s'.acked == s.acked
    requires t in s'.handlers && s'.handlers == s.handlers[t := s'.handlers[t]]
    requires s'.handlers[t].entry == s.handlers[t].entry
    ensures SoleCopy(s', t, id)
  {
    assert forall u :: u in s'.handlers && u != t ==> u in s.handlers && s'.handlers[u] == s.handlers[u];
  }

  // The handler of a sole copy that was acknowledged by another dies after DEL.
  lemma SoleCopyDies(s: State, t: TaskId, id: MessageId)
    requires Tidy(s) && HasPhase(s, t, Requeueing) && Owes(s.handlers[t], id) && SoleCopy(s, t, id)
    requires s.handlers[t].entry in s.acked && id in s.pushed && !HasSucceeded(s, id)
    ensures Perish(s, t) == Leave(s, t).(overtaken := s.overtaken + {id}) && Lost(Perish(s, t), id)
  {
    assert !ProvidedElsewhere(s, t, id);
    var s' := Perish(s, t);
    assert forall u :: u in s'.handlers ==> u != t && s'.handlers[u] == s.handlers[u];
  }

  // One that holds the key sends DEL first, and before that its callback fails.
  lemma ReleaseAndDie(s: State, t: TaskId, id: MessageId, maxRetries: int) returns (s': State)
    requires Tidy(s) && HasPhase(s, t, Releasing) && Holds(s.handlers[t], id) && SoleCopy(s, t, id)
    requires s.handlers[t].entry in s.acked && id in s.pushed && !HasSucceeded(s, id)
    ensures Leads(s, [ReleaseKey(t), Die(t)], maxRetries, s')
    ensures Lost(s', id) && id !in s'.keys && id in s'.overtaken
  {
    var s1 := Apply(s, ReleaseKey(t), maxRetries);
    TidyStep(s, ReleaseKey(t), maxRetries);
    SoleCopyKept(s, s1, t, id);
    SoleCopyDies(s1, t, id);
    s' := Apply(s1, Die(t), maxRetries);
    LeadsCons(s1, Die(t), [], maxRetries, s');
    LeadsCons(s, ReleaseKey(t), [Die(t)], maxRetries, s');
    assert [ReleaseKey(t)] + ([Die(t)] + []) == [ReleaseKey(t), Die(t)];
  }

  lemma FailReleaseDie(s: State, t: TaskId, id: MessageId, maxRetries: int)
    returns (more: seq<Step>, s': State)
    requires Tidy(s) && t in s.handlers && Holds(s.handlers[t], id) && SoleCopy(s, t, id)
    requires s.handlers[t].entry in s.acked && id in s.pushed && !HasSucceeded(s, id)
    ensures Leads(s, more, maxRetries, s') && NoBegins(more)
    ensures Lost(s', id) && id !in s'.keys && id in s'.overtaken
  {
    if s.handlers[t].phase == Working {
      var s1 := Apply(s, Return(t, false), maxRetries);
      TidyStep(s, Return(t, false), maxRetries);
      SoleCopyKept(s, s1, t, id);
      s' := ReleaseAndDie(s1, t, id, maxRetries);
      LeadsCons(s, Return(t, false), [ReleaseKey(t), Die(t)], maxRetries, s');
      more := [Return(t, false)] + [ReleaseKey(t), Die(t)];
    } else {
      s' := ReleaseAndDie(s, t, id, maxRetries);
      more := [ReleaseKey(t), Die(t)];
    }
  }

  // Handler u takes up the entry, acknowledges it as a duplicate, and t fails and dies.
  lemma ClaimFailDie(s: State, t: TaskId, u: TaskId, id: MessageId, maxRetries: int)
    returns (more: seq<Step>, later: State)
    requires Tidy(s) && t in s.handlers && Holds(s.handlers[t], id) && SoleCopy(s, t, id) && u !in s.handlers
    requires id in s.keys && id in s.pushed && !HasSucceeded(s, id)
    ensures Leads(s, [Begin(u, s.handlers[t].entry)] + more, maxRetries, later) && NoBegins(more)
    ensures Lost(later, id) && id !in later.keys && id in later.overtaken
  {
    var e := s.handlers[t].entry;
    var s1 := AckAsDuplicate(s, u, e, maxRetries);
    var rest;
    rest, later := FailReleaseDie(s1, t, id, maxRetries);
    LeadsTrans(s, [Begin(u, e), ClaimKey(u), Ack(u)], s1, rest, maxRetries, later);
    more := [ClaimKey(u), Ack(u)] + rest;
    assert [Begin(u, e), ClaimKey(u), Ack(u)] + rest == [Begin(u, e)] + more;
  }

  // One claim that lands while a handler holds the key is enough: in any reachable store it can
  // cost the sole copy of a message, with no further claim.
  lemma ClaimWhileHandledCanLose(steps: seq<Step>, maxRetries: int, s: State, t: TaskId, u: TaskId, id: MessageId)
    requires Leads(INIT, steps, maxRetries, s) && t in s.handlers && Holds(s.handlers[t], id)
    requires SoleCopy(s, t, id) && u !in s.handlers
    ensures exists more, later :: Leads(s, [Begin(u, s.handlers[t].entry)] + more, maxRetries, later)
                               && NoBegins(more) && Lost(later, id) && id !in later.keys && id in later.overtaken
  {
    HolderFacts(steps, maxRetries, s, t, id);
    var more, later := ClaimFailDie(s, t, u, id, maxRetries);
  }

  lemma HolderFacts(steps: seq<Step>, maxRetries: int, s: State, t: TaskId, id: MessageId)
    requires Leads(INIT, steps, maxRetries, s) && t in s.handlers && Holds(s.handlers[t], id)
    ensures Tidy(s) && id in s.keys && id in s.pushed && !HasSucceeded(s, id)
  {
    InvRun(INIT, steps, maxRetries, s);
    assert s.stream[s.handlers[t].entry] == s.handlers[t].payload && LifeOf(s.log, id) != Done;
  }

  // A holder that dies takes its message with it: whatever happens later, no callback for the id
  // is started again and none succeeds.
  lemma DeathHoldingIsFinal(steps: seq<Step>, maxRetries: int, s: State, t: TaskId, id: MessageId,
                            more: seq<Step>, later: State)
    requires Leads(INIT, steps, maxRetries, s) && t in s.handlers && Holds(s.handlers[t], id)
    requires Leads(Apply(s, Die(t), maxRetries), more, maxRetries, later)
    ensures !HasSucceeded(later, id) && id in later.keys
    ensures s.log <= later.log && forall k :: |s.log| <= k < |later.log| ==> later.log[k].id != id
  {
    InvRun(INIT, steps, maxRetries, s);
    var dead := Apply(s, Die(t), maxRetries);
    forall u | u in dead.handlers
      ensures !Holds(dead.handlers[u], id)
    {
      assert u != t && dead.handlers[u] == s.handlers[u];
    }
    UnheldKeyIsFinal(dead, more, maxRetries, later, id);
    assert LifeOf(s.log, id) != Done && dead.log == s.log;
    SuccessNeedsEvent(s, later, id);
  }

  // A crash while the callback runs: the claimed entry is later acknowledged as a duplicate, and
  // the message is lost for good.
  lemma CrashHoldingKeyLoses(id: MessageId, maxRetries: int)
    ensures exists steps, s :: Leads(INIT, steps, maxRetries, s) && Lost(s, id) && NeverSucceedsFrom(s, id, maxRetries)
  {
    var steps, s := StartCallback(Message(id, 0), maxRetries);
    LeadsSnoc(INIT, steps, maxRetries, s, Die(0));
    var dead := Apply(s, Die(0), maxRetries);
    var s' := AckAsDuplicate(dead, 1, 0, maxRetries);
    LeadsTrans(INIT, steps + [Die(0)], dead, [Begin(1, 0), ClaimKey(1), Ack(1)], maxRetries, s');
    assert Lost(s', id);
    assert dead.handlers == map[];
    forall more, later | Leads(s', more, maxRetries, later)
      ensures !HasSucceeded(later, id)
    {
      UnheldKeyIsFinal(s', more, maxRetries, later, id);
    }
  }

  ghost predicate NeverSucceedsFrom(s: State, id: MessageId, maxRetries: int) {
    forall more, later :: Leads(s, more, maxRetries, later) ==> !HasSucceeded(later, id)
  }

  // From the empty store: a claim that lands while the callback runs acknowledges the entry as a
  // duplicate; if the callback then fails and its handler dies before the retry push, nothing is left.
  lemma CrashAfterReleaseLoses(id: MessageId, maxRetries: int)
    ensures exists steps, s :: Leads(INIT, steps, maxRetries, s) && Lost(s, id) && id !in s.keys
  {
    var steps, s := StartCallback(Message(id, 0), maxRetries);
    ClaimWhileHandledCanLose(steps, maxRetries, s, 0, 1, id);
    var more, later :| Leads(s, [Begin(1, 0)] + more, maxRetries, later) && Lost(later, id) && id !in later.keys;
    LeadsTrans(INIT, steps, s, [Begin(1, 0)] + more, maxRetries, later);
  }

  lemma StartCallback(m: Message, maxRetries: int) returns (steps: seq<Step>, s: State)
    ensures Leads(INIT, steps, maxRetries, s)
    ensures s == State([Envelope(m)], 1, {}, {m.id}, [], {}, map[0 := Handler(0, Envelope(m), Working)],
                       {m.id}, {}, {}, {}, [Started(m.id)])
  {
    steps, s := [], INIT;
    LeadsSnoc(INIT, steps, maxRetries, s, Publish(m, ToStream));
    steps, s := steps + [Publish(m, ToStream)], Apply(s, Publish(m, ToStream), maxRetries);
    LeadsSnoc(INIT, steps, maxRetries, s, Deliver);
    steps, s := steps + [Deliver], Apply(s, Deliver, maxRetries);
    LeadsSnoc(INIT, steps, maxRetries, s, Begin(0, 0));
    steps, s := steps + [Begin(0, 0)], Apply(s, Begin(0, 0), maxRetries);
    LeadsSnoc(INIT, steps, maxRetries, s, ClaimKey(0));
    steps, s := steps + [ClaimKey(0)], Apply(s, ClaimKey(0), maxRetries);
    assert s.handlers == map[0 := Handler(0, Envelope(m), Working)];
  }

  // --- When an id can still succeed ---

  ghost predicate CanStillSucceed(s: State, id: MessageId, maxRetries: int) {
    exists more, later :: Leads(s, more, maxRetries, later) && HasSucceeded(later, id)
  }

  lemma {:induction false} DeliverAll(s: State, maxRetries: int) returns (more: seq<Step>)
    requires s.delivered <= |s.stream|
    ensures Leads(s, more, maxRetries, s.(delivered := |s.stream|))
    decreases |s.stream| - s.delivered
  {
    more := [];
    if s.delivered < |s.stream| {
      var next := Apply(s, Deliver, maxRetries);
      more := DeliverAll(next, maxRetries);
      LeadsCons(s, Deliver, more, maxRetries, s.(delivered := |s.stream|));
      more := [Deliver] + more;
    }
  }

  lemma {:induction false} FreshTask(tasks: set<TaskId>) returns (t: TaskId)
    ensures forall u :: u in tasks ==> u < t
  {
    t := 0;
    if tasks != {} {
      var u :| u in tasks;
      t := FreshTask(tasks - {u});
      assert forall v :: v in tasks ==> v == u || v in tasks - {u};
      t := if u < t then t else u + 1;
    }
  }

  // The last entry of a store in which everything was delivered is taken up and accepted.
  lemma LastEntrySucceeds(s: State, t: TaskId, id: MessageId, maxRetries: int) returns (more: seq<Step>, later: State)
    requires s.stream != [] && s.delivered == |s.stream| && t !in s.handlers && id !in s.keys
    requires s.stream[|s.stream| - 1] == Envelope(Message(id, 0))
    ensures Leads(s, more, maxRetries, later) && HasSucceeded(later, id)
  {
    var begin, claim, accept := Begin(t, |s.stream| - 1), ClaimKey(t), Return(t, true);
    var s1 := Apply(s, begin, maxRetries);
    var s2 := Apply(s1, claim, maxRetries);
    later := Apply(s2, accept, maxRetries);
    assert later.log[|s2.log|] == Succeeded(id);
    more := [accept] + [];
    LeadsCons(s2, accept, [], maxRetries, later);
    LeadsCons(s1, claim, more, maxRetries, later);
    more := [claim] + more;
    LeadsCons(s, begin, more, maxRetries, later);
    more := [begin] + more;
  }

  // A free key: a fresh copy of the message is taken up and accepted.
  lemma FreeKeySucceeds(s: State, id: MessageId, maxRetries: int)
    requires s.delivered <= |s.stream| && id !in s.keys
    ensures CanStillSucceed(s, id, maxRetries)
  {
    var publish := Publish(Message(id, 0), ToStream);
    var t := FreshTask(s.handlers.Keys);
    var s1 := Apply(s, publish, maxRetries);
    var deliveries := DeliverAll(s1, maxRetries);
    var rest, later := LastEntrySucceeds(s1.(delivered := |s1.stream|), t, id, maxRetries);
    LeadsTrans(s1, deliveries, s1.(delivered := |s1.stream|), rest, maxRetries, later);
    LeadsCons(s, publish, deliveries + rest, maxRetries, later);
    assert Leads(s, [publish] + (deliveries + rest), maxRetries, later) && HasSucceeded(later, id);
  }

  lemma HolderSucceeds(s: State, t: TaskId, id: MessageId, maxRetries: int)
    requires s.delivered <= |s.stream| && t in s.handlers && Holds(s.handlers[t], id)
    ensures CanStillSucceed(s, id, maxRetries)
  {
    if s.handlers[t].phase == Working {
      var s1 := Apply(s, Return(t, true), maxRetries);
      assert s1.log[|s.log|] == Succeeded(id);
      LeadsSnoc(s, [], maxRetries, s, Return(t, true));
      assert Leads(s, [] + [Return(t, true)], maxRetries, s1) && HasSucceeded(s1, id);
    } else {
      var s1 := Apply(s, ReleaseKey(t), maxRetries);
      FreeKeySucceeds(s1, id, maxRetries);
      var more, later :| Leads(s1, more, maxRetries, later) && HasSucceeded(later, id);
      LeadsCons(s, ReleaseKey(t), more, maxRetries, later);
      assert Leads(s, [ReleaseKey(t)] + more, maxRetries, later) && HasSucceeded(later, id);
    }
  }

  // In any reachable store an id can still succeed, if need be by being pushed again, exactly when
  // it has, or its key is free, or a handler holds the key.
  lemma RecoverableExactly(steps: seq<Step>, maxRetries: int, s: State, id: MessageId)
    requires Leads(INIT, steps, maxRetries, s)
    ensures CanStillSucceed(s, id, maxRetries) <==> !Stuck(s, id)
  {
    InvRun(INIT, steps, maxRetries, s);
    if HasSucceeded(s, id) {
      assert Leads(s, [], maxRetries, s);
    } else if id !in s.keys {
      FreeKeySucceeds(s, id, maxRetries);
    } else if Held(s, id) {
      var t :| t in s.handlers && Holds(s.handlers[t], id);
      HolderSucceeds(s, t, id, maxRetries);
    } else {
      forall more, later | Leads(s, more, maxRetries, later)
        ensures !HasSucceeded(later, id)
      {
        UnheldKeyIsFinal(s, more, maxRetries, later, id);
      }
    }
  }
}
