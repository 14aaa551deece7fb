// `get_allowed_fanout`: the per-root cap on child jobs, kept by an in-process tracker when
// there is no shared store and by an atomic script when there is one.

module FanoutBudget {
  type RootId = string

  // Cap applied when the budget cannot be checked.
  const FANOUT_DEGRADED_LIMIT: nat := 10

  datatype Link = Mock | NoConnection | Connected(evalRaises: bool)

  function Min(a: int, b: int): int { if a <= b then a else b }
  function Max(a: int, b: int): int { if a >= b then a else b }

  function CountOf(counts: map<RootId, int>, root: RootId): int {
    if root in counts then counts[root] else 0
  }

  class Budget {
    var link: Link
    var tracker: map<RootId, int>
    var store: map<string, int>

    function FanoutKey(root: RootId): string { "fanout:" + root }

    // The counter that decides, on a link that can check the budget.
    function Spent(root: RootId): int
      reads this
    {
      if link.Mock? then CountOf(tracker, root) else CountOf(store, FanoutKey(root))
    }

    predicate Degraded()
      reads this
    {
      link.NoConnection? || (link.Connected? && link.evalRaises)
    }

    // The tracker and the script are one contract: what is granted fits both the request and
    // the room left, is as large as that allows, and is charged to this root alone. Without
    // a check nothing is charged and at most the degraded limit is granted.
    method GetAllowedFanout(root: RootId, requested: int, maxFanout: int) returns (allowed: int)
      modifies this`tracker, this`store
      ensures allowed == Grant(old(Spent(root)), Request(root, requested, Degraded()), maxFanout)
      ensures allowed <= requested
      ensures Degraded() ==>
                allowed <= 10 && (allowed == requested || allowed == 10)
      ensures Degraded() <==> link == NoConnection || link == Connected(true)
      ensures Degraded() ==> tracker == old(tracker) && store == old(store)
      // the counter is the tracker's in mock mode and the shared store's otherwise
      ensures !link.Mock? ==> tracker == old(tracker)
      ensures link.Mock? ==>
                store == old(store)
                && tracker == if allowed > 0 then old(tracker)[root := CountOf(old(tracker), root) + allowed]
                              else old(tracker)
      ensures !link.Mock? && !Degraded() ==>
                var key := "fanout:" + root;
                store == if allowed > 0 then old(store)[key := CountOf(old(store), key) + allowed] else old(store)
      ensures !Degraded() ==> allowed <= Max(0, maxFanout - old(Spent(root)))
                              && (allowed == requested || allowed == Max(0, maxFanout - old(Spent(root))))
      ensures !Degraded() ==> Spent(root) == old(Spent(root)) + Max(0, allowed)
      ensures forall other :: other != root ==> Spent(other) == old(Spent(other))
    {
      if link.Mock? {
        var current := CountOf(tracker, root);
        var available := Max(0, maxFanout - current);
        allowed := Min(requested, available);
        if allowed > 0 {
          tracker := tracker[root := current + allowed];
        }
        return;
      }
      if link.NoConnection? {
        return Min(requested, FANOUT_DEGRADED_LIMIT);
      }
      if link.evalRaises {
        return Min(requested, FANOUT_DEGRADED_LIMIT);
      }
      assert forall other: RootId :: other != root ==> FanoutKey(other) != FanoutKey(root) by {
        forall other: RootId | FanoutKey(other) == FanoutKey(root) ensures other == root {
          assert FanoutKey(other)[7..] == other && FanoutKey(root)[7..] == root;
        }
      }
      allowed := RunScript(FanoutKey(root), requested, maxFanout);
    }

    // The Lua script: GET with a default, clamp, INCRBY when something is granted.
    method RunScript(key: string, requested: int, maxFanout: int) returns (allowed: int)
      modifies this`store
      ensures allowed == Min(requested, Max(0, maxFanout - CountOf(old(store), key)))
      ensures store == if allowed > 0 then old(store)[key := CountOf(old(store), key) + allowed] else old(store)
    {
      var current := CountOf(store, key);
      var available := Max(0, maxFanout - current);
      allowed := Min(requested, available);
      if allowed > 0 {
        store := store[key := current + allowed];
      }
    }
  }

  // --- Over a whole history of requests ---

  datatype Request = Request(root: RootId, count: int, degraded: bool)

  // The grant, as a function of what the root has spent so far.
  function Grant(spent: int, r: Request, cap: int): int {
    if r.degraded then Min(r.count, FANOUT_DEGRADED_LIMIT) else Min(r.count, Max(0, cap - spent))
  }

  function Charge(counts: map<RootId, int>, r: Request, cap: int): map<RootId, int> {
    var granted := Grant(CountOf(counts, r.root), r, cap);
    if !r.degraded && granted > 0 then counts[r.root := CountOf(counts, r.root) + granted] else counts
  }

  function CountsAfter(history: seq<Request>, cap: int): map<RootId, int> {
    if history == [] then map[]
    else Charge(CountsAfter(history[..|history|-1], cap), history[|history|-1], cap)
  }

  // Total granted to a root, on checked requests (`degraded` false) or on degraded ones.
  function Granted(history: seq<Request>, cap: int, root: RootId, degraded: bool): int {
    if history == [] then 0
    else
      var before := history[..|history|-1];
      var r := history[|history|-1];
      Granted(before, cap, root, degraded) +
      if r.root == root && r.degraded == degraded then Grant(CountOf(CountsAfter(before, cap), root), r, cap) else 0
  }

  function Requested(history: seq<Request>, root: RootId, degraded: bool): int {
    if history == [] then 0
    else
      var r := history[|history|-1];
      Requested(history[..|history|-1], root, degraded)
      + if r.root == root && r.degraded == degraded then r.count else 0
  }

  // The requests for a root, checked or not.
  ghost function CallsFor(history: seq<Request>, root: RootId, degraded: bool): set<nat> {
    set i: nat | i < |history| && history[i].root == root && history[i].degraded == degraded
  }

  lemma CallsForSnoc(before: seq<Request>, r: Request, root: RootId, degraded: bool)
    ensures CallsFor(before + [r], root, degraded)
         == CallsFor(before, root, degraded) + if r.root == root && r.degraded == degraded then {|before|} else {}
  {
    var all, n := before + [r], |before|;
    assert all[n] == r;
    forall i: nat
      ensures i in CallsFor(all, root, degraded) <==>
              i in CallsFor(before, root, degraded) || (i == n && r.root == root && r.degraded == degraded)
    {
      if i < n {
        assert all[i] == before[i];
      }
    }
  }

  lemma CallsSnoc(before: seq<Request>, r: Request, root: RootId, degraded: bool)
    ensures |CallsFor(before + [r], root, degraded)|
         == |CallsFor(before, root, degraded)| + if r.root == root && r.degraded == degraded then 1 else 0
  {
    CallsForSnoc(before, r, root, degraded);
    assert |before| !in CallsFor(before, root, degraded);
  }

  // Any interleaving of roots and outages: the checked grants of a root add up to exactly
  // what it asked for, up to the cap; each unchecked call adds at most the degraded limit.
  lemma {:induction false} ExactBudget(history: seq<Request>, cap: nat, root: RootId)
    requires forall i :: 0 <= i < |history| ==> history[i].count >= 0
    ensures Granted(history, cap, root, false) == Min(cap, Requested(history, root, false))
    ensures Granted(history, cap, root, false) == CountOf(CountsAfter(history, cap), root)
    ensures 0 <= Granted(history, cap, root, true) <= 10 * |CallsFor(history, root, true)|
    ensures Requested(history, root, false) >= 0
  {
    if history != [] {
      var before, last := history[..|history|-1], history[|history|-1];
      ExactBudget(before, cap, root);
      CallsSnoc(before, last, root, true);
      assert before + [last] == history;
    }
  }
}
