// The recursive crawl: `_discover_follow_urls` finds the pages a page leads to, and the
// discovery phase of `process_payload` turns them into child jobs under a budget shared by
// the whole crawl tree. The tree's key is recovered from a job id by stripping "rec_".

module Crawl {
  import opened Wrappers
  import opened FanoutBudget
  import D = DeliveryProtocol

  type JobId = string
  type Url = string

  const MAX_RECURSIVE_FANOUT: nat := 200
  const REC := "rec_"

  datatype Payload = Payload(jobId: JobId, depth: int, maxDepth: int, followLinks: bool)

  // What link discovery finds on a page.
  datatype Page = Page(hasHtml: bool, nextPage: Option<Url>, links: seq<Url>)

  datatype Follow = Follow(url: Url, depth: int, maxDepth: int)

  // A child job, with the tree key its message carries.
  datatype Child = Child(root: JobId, jobId: JobId, url: Url, depth: int, maxDepth: int, followLinks: bool)

  // --- Discovery ---

  function FollowUrls(p: Payload, page: Page): seq<Follow> {
    if !page.hasHtml || !p.followLinks then []
    else
      (match page.nextPage case None => [] case Some(u) => [Follow(u, p.depth, p.maxDepth)]) +
      (if p.depth < p.maxDepth
       then seq(|page.links|, i requires 0 <= i < |page.links| => Follow(page.links[i], p.depth + 1, p.maxDepth))
       else [])
  }

  method DiscoverFollowUrls(p: Payload, page: Page) returns (follow: seq<Follow>)
    ensures follow == FollowUrls(p, page)
    ensures !page.hasHtml || !p.followLinks ==> follow == []
    ensures page.hasHtml && p.followLinks ==>
              var n := if page.nextPage.Some? then 1 else 0;
              && |follow| == n + (if p.depth < p.maxDepth then |page.links| else 0)
              && (page.nextPage.Some? ==> follow[0] == Follow(page.nextPage.value, p.depth, p.maxDepth))
              && (p.depth < p.maxDepth ==>
                    forall k :: 0 <= k < |page.links| ==>
                      follow[n + k] == Follow(page.links[k], p.depth + 1, p.maxDepth))
  {
    if !page.hasHtml {
      return [];
    }
    if !p.followLinks {
      return [];
    }
    follow := [];
    if page.nextPage.Some? {
      follow := follow + [Follow(page.nextPage.value, p.depth, p.maxDepth)];
    }
    if p.depth < p.maxDepth {
      ghost var before := follow;
      for i := 0 to |page.links|
        invariant follow == before + seq(i, k requires 0 <= k < i => Follow(page.links[k], p.depth + 1, p.maxDepth))
      {
        follow := follow + [Follow(page.links[i], p.depth + 1, p.maxDepth)];
      }
    }
  }

  // --- The key of a crawl tree ---

  function Strip(id: JobId): JobId {
    if REC <= id then Strip(id[4..]) else id
  }

  function RootKey(id: JobId): JobId {
    if Strip(id) == "" then id else Strip(id)
  }

  method RootIdOf(id: JobId) returns (rootId: JobId)
    ensures rootId == RootKey(id)
  {
    rootId := id;
    while REC <= rootId
      invariant Strip(rootId) == Strip(id)
      decreases |rootId|
    {
      rootId := rootId[4..];
    }
    if rootId == "" {
      rootId := id;
    }
  }

  lemma StripChild(id: JobId)
    ensures Strip(REC + id) == Strip(id)
  {
    assert (REC + id)[4..] == id;
  }

  function Prefixes(n: nat): string { if n == 0 then "" else "rec_" + Prefixes(n - 1) }

  lemma {:induction false} StripMeaning(id: JobId) returns (n: nat)
    ensures id == Prefixes(n) + Strip(id) && !("rec_" <= Strip(id))
  {
    n := 0;
    if REC <= id {
      n := StripMeaning(id[4..]);
      assert id == "rec_" + id[4..];
      assert Prefixes(n + 1) + Strip(id) == "rec_" + (Prefixes(n) + Strip(id));
      n := n + 1;
    }
  }

  // The key is what is left of the id behind all its prefixes, or the whole id where nothing is.
  lemma RootKeyExactly(id: JobId) returns (n: nat)
    ensures || (id == Prefixes(n) + RootKey(id) && RootKey(id) != "" && !("rec_" <= RootKey(id)))
            || (id == Prefixes(n) && RootKey(id) == id)
  {
    n := StripMeaning(id);
    assert Prefixes(n) + "" == Prefixes(n);
  }

  // A child falls under its parent's key exactly when stripping the parent's id leaves
  // something; for "", "rec_", "rec_rec_", ... every generation has a key of its own.
  lemma ChildKeepsKey(id: JobId)
    ensures RootKey(REC + id) == RootKey(id) <==> Strip(id) != ""
  {
    StripChild(id);
    assert |REC + id| == 4 + |id|;
  }

  // --- Fan-out ---

  datatype CrawlState = CrawlState(
    seen: map<JobId, set<Url>>,
    budget: map<RootId, int>,
    stream: seq<Child>,      // child jobs pushed to jobs_stream
    dlq: seq<Child>          // child jobs dead-lettered, by overflow or by backpressure
  )

  // How a push or an overflow write ends: what it has written, and whether it raises all the same.
  datatype Sent = Sent(route: Option<D.PushOutcome>, raised: bool)

  // One that has written nothing, or the dead letter of a saturated store alone, always raises.
  predicate Fails(w: Sent) { w.raised || w.route == None || w.route == Some(D.DlqThenRaise) }

  // How the environment treats one delivery: whether the budget can be checked, and how each push
  // and each overflow write ends.
  datatype Env = Env(degraded: bool, push: nat -> Sent, overflow: nat -> Sent)

  // Nothing raises.
  function Calm(degraded: bool): Env {
    Env(degraded, i => Sent(Some(D.ToStream), false), i => Sent(Some(D.ToDlq), false))
  }

  // How the write at position i ends; beyond the allowance it goes to the dead-letter queue.
  function SendOf(allowed: int, i: nat, env: Env): Sent {
    if i < allowed then env.push(i)
    else Sent(if env.overflow(i).route.Some? then Some(D.ToDlq) else None, env.overflow(i).raised)
  }

  function SeenOf(s: CrawlState, key: JobId): set<Url> {
    if key in s.seen then s.seen[key] else {}
  }

  function Unseen(follows: seq<Follow>, seen: set<Url>): seq<Follow> {
    if follows == [] then []
    else (if follows[0].url in seen then [] else [follows[0]]) + Unseen(follows[1..], seen)
  }

  function ChildOf(key: JobId, p: Payload, f: Follow): Child {
    Child(key, REC + p.jobId, f.url, f.depth, f.maxDepth, p.followLinks)
  }

  function MarkSeen(s: CrawlState, key: JobId, url: Url): CrawlState {
    s.(seen := s.seen[key := SeenOf(s, key) + {url}])
  }

  function WriteChild(s: CrawlState, c: Child, o: D.PushOutcome): CrawlState {
    s.(stream := if o.ToStream? || o.ToBoth? then s.stream + [c] else s.stream,
       dlq := if o.ToStream? then s.dlq else s.dlq + [c])
  }

  function Written(s: CrawlState, c: Child, route: Option<D.PushOutcome>): CrawlState {
    match route case None => s case Some(o) => WriteChild(s, c, o)
  }

  // Positions i.. of the unseen follows: enqueue the allowed ones, dead-letter the rest, mark
  // each after its own write; the first raise ends the delivery.
  function Enqueue(s: CrawlState, key: JobId, p: Payload, unseen: seq<Follow>, allowed: int, i: nat, env: Env)
    : (r: (CrawlState, bool))
    requires i <= |unseen|
    decreases |unseen| - i
  {
    if i == |unseen| then (s, false)
    else
      var c, w := ChildOf(key, p, unseen[i]), SendOf(allowed, i, env);
      var s1 := Written(s, c, w.route);
      if Fails(w) then (s1, true)
      else Enqueue(MarkSeen(s1, key, c.url), key, p, unseen, allowed, i + 1, env)
  }

  function AllowedFor(s: CrawlState, key: JobId, count: nat, degraded: bool): int {
    Grant(CountOf(s.budget, key), Request(key, count, degraded), MAX_RECURSIVE_FANOUT)
  }

  // The state the enqueue loops start from.
  function Opened(s: CrawlState, key: JobId, count: nat, degraded: bool): CrawlState {
    s.(seen := s.seen[key := SeenOf(s, key)],
       budget := Charge(s.budget, Request(key, count, degraded), MAX_RECURSIVE_FANOUT))
  }

  // The discovery phase for one delivery of a payload; the flag says whether it raised.
  function FanOut(s: CrawlState, p: Payload, follows: seq<Follow>, env: Env): (CrawlState, bool) {
    if follows == [] then (s, false)
    else
      var key := RootKey(p.jobId);
      var unseen := Unseen(follows, SeenOf(s, key));
      var s1 := Opened(s, key, |unseen|, env.degraded);
      Enqueue(s1, key, p, unseen, AllowedFor(s, key, |unseen|, env.degraded), 0, env)
  }

  class Processor {
    var seen: map<JobId, set<Url>>
    var budget: map<RootId, int>
    var stream: seq<Child>
    var dlq: seq<Child>

    function State(): CrawlState
      reads this
    {
      CrawlState(seen, budget, stream, dlq)
    }

    constructor ()
      ensures State() == CrawlState(map[], map[], [], [])
    {
      seen, budget, stream, dlq := map[], map[], [], [];
    }

    method Send(c: Child, w: Sent) returns (raised: bool)
      modifies this`stream, this`dlq
      ensures raised <==> w.raised || w.route == None || w.route == Some(D.DlqThenRaise)
      ensures State() == Written(old(State()), c, w.route)
    {
      if w.route == None {
        return true;
      }
      if !w.route.value.ToStream? {
        dlq := dlq + [c];
      }
      if w.route.value.ToStream? || w.route.value.ToBoth? {
        stream := stream + [c];
      }
      raised := w.raised || w.route.value.DlqThenRaise?;
    }

    // One child: its URL is marked only once its own write has landed and returned.
    method SendAndMark(c: Child, w: Sent) returns (raised: bool)
      requires c.root in seen
      modifies this`stream, this`dlq, this`seen
      ensures raised <==> Fails(w)
      ensures State() == var s1 := Written(old(State()), c, w.route);
                         if raised then s1 else MarkSeen(s1, c.root, c.url)
    {
      raised := Send(c, w);
      if !raised {
        seen := seen[c.root := seen[c.root] + {c.url}];
      }
    }

    // `process_payload` from the discovery phase on.
    method ProcessFollows(p: Payload, follows: seq<Follow>, env: Env) returns (raised: bool)
      modifies this
      ensures (State(), raised) == FanOut(old(State()), p, follows, env)
      ensures follows == [] ==> !raised && State() == old(State())
    {
      if follows == [] {
        return false;
      }
      var rootId := RootIdOf(p.jobId);
      if rootId !in seen {
        seen := seen[rootId := {}];
      }
      assert seen == old(seen)[rootId := SeenOf(old(State()), rootId)];
      var unseen := Filter(follows, seen[rootId]);
      var request := Request(rootId, |unseen|, env.degraded);
      var allowed := Grant(CountOf(budget, rootId), request, MAX_RECURSIVE_FANOUT);
      budget := Charge(budget, request, MAX_RECURSIVE_FANOUT);
      raised := EnqueueAll(rootId, p, unseen, allowed, env);
    }

    // The two enqueue loops; this one pushes what the budget allows.
    method EnqueueAll(rootId: JobId, p: Payload, unseen: seq<Follow>, allowed: int, env: Env) returns (raised: bool)
      requires rootId in seen
      modifies this`stream, this`dlq, this`seen
      ensures (State(), raised) == Enqueue(old(State()), rootId, p, unseen, allowed, 0, env)
    {
      ghost var goal := Enqueue(State(), rootId, p, unseen, allowed, 0, env);
      var i := 0;
      while i < |unseen| && i < allowed
        invariant 0 <= i <= |unseen| && (i > 0 ==> i <= allowed)
        invariant rootId in seen && goal == Enqueue(State(), rootId, p, unseen, allowed, i, env)
      {
        ghost var before := State();
        var failed := SendAndMark(ChildOf(rootId, p, unseen[i]), env.push(i));
        if failed {
          assert Enqueue(before, rootId, p, unseen, allowed, i, env) == (State(), true);
          return true;
        }
        assert Enqueue(before, rootId, p, unseen, allowed, i, env)
               == Enqueue(State(), rootId, p, unseen, allowed, i + 1, env);
        i := i + 1;
      }
      raised := DeadLetterRest(rootId, p, unseen, allowed, i, env);
    }

    // The second loop: what the budget did not allow.
    method DeadLetterRest(rootId: JobId, p: Payload, unseen: seq<Follow>, allowed: int, from: nat, env: Env)
      returns (raised: bool)
      requires rootId in seen && from <= |unseen| && (from >= allowed || from == |unseen|)
      modifies this`stream, this`dlq, this`seen
      ensures (State(), raised) == Enqueue(old(State()), rootId, p, unseen, allowed, from, env)
    {
      ghost var goal := Enqueue(State(), rootId, p, unseen, allowed, from, env);
      for i := from to |unseen|
        invariant rootId in seen && goal == Enqueue(State(), rootId, p, unseen, allowed, i, env)
      {
        ghost var before := State();
        var failed := SendAndMark(ChildOf(rootId, p, unseen[i]), SendOf(allowed, i, env));
        if failed {
          assert Enqueue(before, rootId, p, unseen, allowed, i, env) == (State(), true);
          return true;
        }
        assert Enqueue(before, rootId, p, unseen, allowed, i, env)
               == Enqueue(State(), rootId, p, unseen, allowed, i + 1, env);
      }
      return false;
    }

    static method Filter(follows: seq<Follow>, seen: set<Url>) returns (unseen: seq<Follow>)
      ensures unseen == Unseen(follows, seen)
    {
      unseen := [];
      for i := 0 to |follows|
        invariant unseen + Unseen(follows[i..], seen) == Unseen(follows, seen)
      {
        UnseenFrom(follows, i, seen, unseen);
        if follows[i].url !in seen {
          unseen := unseen + [follows[i]];
        }
      }
    }
  }

  // --- No discovered URL is lost, none is enqueued again ---

  ghost predicate Seen(s: CrawlState, key: JobId, u: Url) { u in SeenOf(s, key) }

  // A URL has been dealt with for a tree: pushed as a child job or dead-lettered.
  ghost predicate Disposed(s: CrawlState, key: JobId, u: Url) {
    exists c: Child :: (c in s.stream || c in s.dlq) && c.root == key && c.url == u
  }

  ghost predicate SeenOnlyDisposed(s: CrawlState) {
    forall key, u :: Seen(s, key, u) ==> Disposed(s, key, u)
  }

  ghost predicate SeenIsDisposed(s: CrawlState) {
    forall key, u :: Seen(s, key, u) <==> Disposed(s, key, u)
  }

  // Where the two loops stop: at the first write that raises, or at the end.
  function StopAt(unseen: seq<Follow>, allowed: int, i: nat, env: Env): (stop: nat)
    requires i <= |unseen|
    ensures i <= stop <= |unseen|
    decreases |unseen| - i
  {
    if i == |unseen| || Fails(SendOf(allowed, i, env)) then i else StopAt(unseen, allowed, i + 1, env)
  }

  // The URLs of the positions from i up to where the loops stop.
  function MarkedFrom(unseen: seq<Follow>, allowed: int, i: nat, env: Env): set<Url>
    requires i <= |unseen|
  {
    set j | i <= j < StopAt(unseen, allowed, i, env) :: unseen[j].url
  }

  // The loops stop at a write that raises and has taken effect all the same.
  predicate HalfWritten(unseen: seq<Follow>, allowed: int, i: nat, env: Env)
    requires i <= |unseen|
  {
    var stop := StopAt(unseen, allowed, i, env);
    stop < |unseen| && SendOf(allowed, stop, env).route.Some?
  }

  lemma WriteDisposes(s: CrawlState, c: Child, o: D.PushOutcome)
    ensures forall key, u :: Disposed(WriteChild(s, c, o), key, u) <==>
              Disposed(s, key, u) || (key == c.root && u == c.url)
  {
    var s' := WriteChild(s, c, o);
    forall key, u
      ensures Disposed(s', key, u) <==> Disposed(s, key, u) || (key == c.root && u == c.url)
    {
      assert c in s'.stream || c in s'.dlq by {
        if o.ToStream? { assert s'.stream[|s.stream|] == c; } else { assert s'.dlq[|s.dlq|] == c; }
      }
      if d: Child :| (d in s.stream || d in s.dlq) && d.root == key && d.url == u {
        assert d in s'.stream || d in s'.dlq;
      }
      if d: Child :| (d in s'.stream || d in s'.dlq) && d.root == key && d.url == u && d != c {
        assert d in s.stream || d in s.dlq;
      }
    }
  }

  lemma MarkedNext(unseen: seq<Follow>, allowed: int, i: nat, env: Env)
    requires i <= |unseen|
    ensures MarkedFrom(unseen, allowed, i, env) ==
            if StopAt(unseen, allowed, i, env) == i then {}
            else {unseen[i].url} + MarkedFrom(unseen, allowed, i + 1, env)
  {
    if StopAt(unseen, allowed, i, env) != i {
      assert StopAt(unseen, allowed, i, env) == StopAt(unseen, allowed, i + 1, env);
    }
  }

  // One turn of the loops that does not raise.
  function Turn(s: CrawlState, key: JobId, p: Payload, f: Follow, o: D.PushOutcome): CrawlState {
    MarkSeen(WriteChild(s, ChildOf(key, p, f), o), key, f.url)
  }

  lemma EnqueueUnfold(s: CrawlState, key: JobId, p: Payload, unseen: seq<Follow>, allowed: int, i: nat, env: Env)
    requires i <= |unseen|
    ensures var r := Enqueue(s, key, p, unseen, allowed, i, env);
            if StopAt(unseen, allowed, i, env) != i
            then SendOf(allowed, i, env).route.Some? &&
                 r == Enqueue(Turn(s, key, p, unseen[i], SendOf(allowed, i, env).route.value),
                              key, p, unseen, allowed, i + 1, env)
            else if HalfWritten(unseen, allowed, i, env)
            then r == (WriteChild(s, ChildOf(key, p, unseen[i]), SendOf(allowed, i, env).route.value), true)
            else r == (s, i < |unseen|)
  {
  }

  lemma TurnEffect(s: CrawlState, key: JobId, p: Payload, f: Follow, o: D.PushOutcome)
    ensures forall k, u :: Seen(Turn(s, key, p, f, o), k, u) <==> Seen(s, k, u) || (k == key && u == f.url)
    ensures forall k, u :: Disposed(Turn(s, key, p, f, o), k, u) <==> Disposed(s, k, u) || (k == key && u == f.url)
  {
    var c := ChildOf(key, p, f);
    WriteDisposes(s, c, o);
    assert forall k, u :: Disposed(Turn(s, key, p, f, o), k, u) <==> Disposed(WriteChild(s, c, o), k, u);
  }

  // What the loops mark, by the position they stop at, and whether they raise.
  lemma {:induction false} EnqueueMarks(s: CrawlState, key: JobId, p: Payload, unseen: seq<Follow>, allowed: int,
                                        i: nat, env: Env)
    requires i <= |unseen|
    ensures var (s', raised) := Enqueue(s, key, p, unseen, allowed, i, env);
            && (forall k, u :: Seen(s', k, u) <==>
                  Seen(s, k, u) || (k == key && u in MarkedFrom(unseen, allowed, i, env)))
            && (raised <==> StopAt(unseen, allowed, i, env) < |unseen|)
    decreases |unseen| - i
  {
    MarkedNext(unseen, allowed, i, env);
    EnqueueUnfold(s, key, p, unseen, allowed, i, env);
    if StopAt(unseen, allowed, i, env) != i {
      TurnEffect(s, key, p, unseen[i], SendOf(allowed, i, env).route.value);
      var s1 := Turn(s, key, p, unseen[i], SendOf(allowed, i, env).route.value);
      EnqueueMarks(s1, key, p, unseen, allowed, i + 1, env);
    }
  }

  // What they write: as much, and the URL they stop at if its write took effect all the same.
  lemma {:induction false} EnqueueWrites(s: CrawlState, key: JobId, p: Payload, unseen: seq<Follow>, allowed: int,
                                         i: nat, env: Env)
    requires i <= |unseen|
    ensures var s' := Enqueue(s, key, p, unseen, allowed, i, env).0;
            forall k, u :: Disposed(s', k, u) <==>
              || Disposed(s, k, u)
              || (k == key && u in MarkedFrom(unseen, allowed, i, env))
              || (k == key && HalfWritten(unseen, allowed, i, env) && u == unseen[StopAt(unseen, allowed, i, env)].url)
    decreases |unseen| - i
  {
    MarkedNext(unseen, allowed, i, env);
    EnqueueUnfold(s, key, p, unseen, allowed, i, env);
    if StopAt(unseen, allowed, i, env) != i {
      TurnEffect(s, key, p, unseen[i], SendOf(allowed, i, env).route.value);
      var s1 := Turn(s, key, p, unseen[i], SendOf(allowed, i, env).route.value);
      EnqueueWrites(s1, key, p, unseen, allowed, i + 1, env);
    } else if HalfWritten(unseen, allowed, i, env) {
      WriteDisposes(s, ChildOf(key, p, unseen[i]), SendOf(allowed, i, env).route.value);
    }
  }

  datatype Delivery = Delivery(p: Payload, follows: seq<Follow>, env: Env)

  // The tree key and URL of everything a delivery marks.
  function Marks(s: CrawlState, d: Delivery): set<(JobId, Url)> {
    var key := RootKey(d.p.jobId);
    var unseen := Unseen(d.follows, SeenOf(s, key));
    set u | u in MarkedFrom(unseen, AllowedFor(s, key, |unseen|, d.env.degraded), 0, d.env) :: (key, u)
  }

  // What it writes: what it marks, and the URL of a write that took effect and then raised.
  function Writes(s: CrawlState, d: Delivery): set<(JobId, Url)> {
    var key := RootKey(d.p.jobId);
    var unseen := Unseen(d.follows, SeenOf(s, key));
    var allowed := AllowedFor(s, key, |unseen|, d.env.degraded);
    Marks(s, d) +
    if HalfWritten(unseen, allowed, 0, d.env) then {(key, unseen[StopAt(unseen, allowed, 0, d.env)].url)} else {}
  }

  function Delivered(s: CrawlState, d: Delivery): CrawlState { FanOut(s, d.p, d.follows, d.env).0 }

  lemma MarksMembers(s: CrawlState, d: Delivery, k: JobId, u: Url)
    ensures var key := RootKey(d.p.jobId);
            var unseen := Unseen(d.follows, SeenOf(s, key));
            (k, u) in Marks(s, d) <==>
            k == key && u in MarkedFrom(unseen, AllowedFor(s, key, |unseen|, d.env.degraded), 0, d.env)
  {
  }

  lemma DeliveryMarks(s: CrawlState, d: Delivery)
    ensures forall k, u :: Seen(Delivered(s, d), k, u) <==> Seen(s, k, u) || (k, u) in Marks(s, d)
  {
    var key := RootKey(d.p.jobId);
    var unseen := Unseen(d.follows, SeenOf(s, key));
    var s1 := Opened(s, key, |unseen|, d.env.degraded);
    if d.follows != [] {
      EnqueueMarks(s1, key, d.p, unseen, AllowedFor(s, key, |unseen|, d.env.degraded), 0, d.env);
    }
    forall k, u
      ensures Seen(Delivered(s, d), k, u) <==> Seen(s, k, u) || (k, u) in Marks(s, d)
    {
      MarksMembers(s, d, k, u);
      assert Seen(s1, k, u) <==> Seen(s, k, u);
    }
  }

  lemma DeliveryWrites(s: CrawlState, d: Delivery)
    ensures forall k, u :: Disposed(Delivered(s, d), k, u) <==> Disposed(s, k, u) || (k, u) in Writes(s, d)
  {
    var key := RootKey(d.p.jobId);
    var unseen := Unseen(d.follows, SeenOf(s, key));
    var s1 := Opened(s, key, |unseen|, d.env.degraded);
    if d.follows != [] {
      EnqueueWrites(s1, key, d.p, unseen, AllowedFor(s, key, |unseen|, d.env.degraded), 0, d.env);
    }
    forall k, u
      ensures Disposed(Delivered(s, d), k, u) <==> Disposed(s, k, u) || (k, u) in Writes(s, d)
    {
      MarksMembers(s, d, k, u);
      assert Disposed(s1, k, u) <==> Disposed(s, k, u);
    }
  }

  // What one delivery marks and writes, set by set.
  lemma DeliveryExactly(s: CrawlState, d: Delivery)
    ensures forall key, u :: Seen(Delivered(s, d), key, u) <==> Seen(s, key, u) || (key, u) in Marks(s, d)
    ensures forall key, u :: Disposed(Delivered(s, d), key, u) <==> Disposed(s, key, u) || (key, u) in Writes(s, d)
  {
    DeliveryMarks(s, d);
    DeliveryWrites(s, d);
  }

  // A delivery keeps the seen set exactly what has been dealt with unless it leaves a URL written
  // and unmarked.
  lemma SeenExactly(s: CrawlState, d: Delivery)
    requires SeenOnlyDisposed(s)
    ensures SeenOnlyDisposed(Delivered(s, d))
    ensures SeenIsDisposed(s) ==> (SeenIsDisposed(Delivered(s, d)) <==> Writes(s, d) <= Marks(s, d))
  {
    DeliveryExactly(s, d);
    if SeenIsDisposed(s) && SeenIsDisposed(Delivered(s, d)) {
      forall w | w in Writes(s, d)
        ensures w in Marks(s, d)
      {
        WrittenWasUnseen(s, d, w.0, w.1);
        assert Disposed(Delivered(s, d), w.0, w.1);
      }
    }
  }

  // Only URLs not seen before are written.
  lemma WrittenWasUnseen(s: CrawlState, d: Delivery, key: JobId, u: Url)
    requires (key, u) in Writes(s, d)
    ensures key == RootKey(d.p.jobId) && u !in SeenOf(s, key)
  {
    var own := RootKey(d.p.jobId);
    var unseen := Unseen(d.follows, SeenOf(s, own));
    UnseenFilters(d.follows, SeenOf(s, own));
    assert forall j :: 0 <= j < |unseen| ==> unseen[j] in unseen;
  }

  // What one run of the loops pushes.
  lemma {:induction false} EnqueuePushes(s: CrawlState, key: JobId, p: Payload, unseen: seq<Follow>, allowed: int,
                                         i: nat, env: Env)
    requires i <= |unseen|
    ensures var s' := Enqueue(s, key, p, unseen, allowed, i, env).0;
            && s.stream <= s'.stream && s'.budget == s.budget
            && |s'.stream| - |s.stream| <= Max(0, allowed - i)
            && (forall k :: |s.stream| <= k < |s'.stream| ==>
                  exists j :: i <= j < |unseen| && j < allowed && s'.stream[k] == ChildOf(key, p, unseen[j]))
    decreases |unseen| - i
  {
    if i < |unseen| {
      var c, w := ChildOf(key, p, unseen[i]), SendOf(allowed, i, env);
      var s1 := MarkSeen(Written(s, c, w.route), key, c.url);
      assert forall k :: |s.stream| <= k < |s1.stream| ==> i < allowed && s1.stream[k] == c;
      if !Fails(w) {
        EnqueuePushes(s1, key, p, unseen, allowed, i + 1, env);
      }
    }
  }

  // What it marks: everything, when it completes.
  lemma EnqueueSees(s: CrawlState, key: JobId, p: Payload, unseen: seq<Follow>, allowed: int, env: Env)
    ensures var (s', raised) := Enqueue(s, key, p, unseen, allowed, 0, env);
            && (forall k, u :: Seen(s, k, u) ==> Seen(s', k, u))
            && (!raised ==> forall j :: 0 <= j < |unseen| ==> Seen(s', key, unseen[j].url))
  {
    EnqueueMarks(s, key, p, unseen, allowed, 0, env);
    if StopAt(unseen, allowed, 0, env) == |unseen| {
      assert forall j :: 0 <= j < |unseen| ==> unseen[j].url in MarkedFrom(unseen, allowed, 0, env);
    }
  }

  lemma UnseenFrom(follows: seq<Follow>, i: nat, seen: set<Url>, done: seq<Follow>)
    requires i < |follows|
    ensures done + Unseen(follows[i..], seen)
         == (if follows[i].url in seen then done else done + [follows[i]]) + Unseen(follows[i + 1..], seen)
  {
    assert follows[i..][1..] == follows[i + 1..];
    var rest := Unseen(follows[i + 1..], seen);
    if follows[i].url in seen {
      assert [] + rest == rest;
    } else {
      assert done + ([follows[i]] + rest) == done + [follows[i]] + rest;
    }
  }

  lemma {:induction false} UnseenFilters(follows: seq<Follow>, seen: set<Url>)
    ensures forall f :: f in Unseen(follows, seen) <==> f in follows && f.url !in seen
    ensures |Unseen(follows, seen)| <= |follows|
  {
    if follows != [] {
      UnseenFilters(follows[1..], seen);
      assert follows == [follows[0]] + follows[1..];
    }
  }

  // A delivery that completes has dealt with every URL the page leads to.
  lemma NoUrlLost(s: CrawlState, p: Payload, follows: seq<Follow>, env: Env)
    requires SeenOnlyDisposed(s) && !FanOut(s, p, follows, env).1
    ensures forall f :: f in follows ==> Disposed(FanOut(s, p, follows, env).0, RootKey(p.jobId), f.url)
  {
    if follows != [] {
      var key := RootKey(p.jobId);
      var unseen := Unseen(follows, SeenOf(s, key));
      var s1 := Opened(s, key, |unseen|, env.degraded);
      SeenExactly(s, Delivery(p, follows, env));
      EnqueueSees(s1, key, p, unseen, AllowedFor(s, key, |unseen|, env.degraded), env);
      UnseenFilters(follows, SeenOf(s, key));
      var s' := FanOut(s, p, follows, env).0;
      forall f | f in follows
        ensures Seen(s', key, f.url)
      {
        if f.url in SeenOf(s, key) {
          assert Seen(s1, key, f.url);
        } else {
          assert f in unseen;
        }
      }
    }
  }

  // What a delivery pushes is a child of its payload, for a URL of its page that no earlier
  // delivery had marked.
  lemma PushesAreNew(s: CrawlState, p: Payload, follows: seq<Follow>, env: Env)
    ensures var s' := FanOut(s, p, follows, env).0;
            var key := RootKey(p.jobId);
            && s.stream <= s'.stream
            && forall k :: |s.stream| <= k < |s'.stream| ==>
                 && s'.stream[k].url !in SeenOf(s, key)
                 && exists f :: f in follows && s'.stream[k]
                      == Child(key, "rec_" + p.jobId, f.url, f.depth, f.maxDepth, p.followLinks)
  {
    if follows != [] {
      var key := RootKey(p.jobId);
      var unseen := Unseen(follows, SeenOf(s, key));
      var s1 := Opened(s, key, |unseen|, env.degraded);
      EnqueuePushes(s1, key, p, unseen, AllowedFor(s, key, |unseen|, env.degraded), 0, env);
      UnseenFilters(follows, SeenOf(s, key));
      var s' := FanOut(s, p, follows, env).0;
      forall k | |s.stream| <= k < |s'.stream|
        ensures s'.stream[k].url !in SeenOf(s, key)
        ensures exists f :: f in follows && s'.stream[k]
                  == Child(key, "rec_" + p.jobId, f.url, f.depth, f.maxDepth, p.followLinks)
      {
        var j :| 0 <= j < |unseen| && s'.stream[k] == ChildOf(key, p, unseen[j]);
        assert unseen[j] in unseen;
      }
    }
  }

  // --- Whole runs ---

  // Processors share the stream, the dead-letter queue and the budget; each has a seen set of its
  // own in memory, which a restart empties.
  type ProcessorId = nat

  datatype Cluster = Cluster(
    seen: map<ProcessorId, map<JobId, set<Url>>>,
    budget: map<RootId, int>,
    stream: seq<Child>,
    dlq: seq<Child>
  )

  const EMPTY := Cluster(map[], map[], [], [])

  // What one processor sees of the cluster.
  function At(c: Cluster, w: ProcessorId): CrawlState {
    CrawlState(if w in c.seen then c.seen[w] else map[], c.budget, c.stream, c.dlq)
  }

  datatype Event = Deliver(at: ProcessorId, delivery: Delivery) | Restart(at: ProcessorId)

  function After(c: Cluster, e: Event): Cluster {
    match e
    case Deliver(w, d) =>
      var s := Delivered(At(c, w), d);
      Cluster(c.seen[w := s.seen], s.budget, s.stream, s.dlq)
    case Restart(w) => c.(seen := c.seen[w := map[]])
  }

  function RunAll(es: seq<Event>): Cluster {
    if es == [] then EMPTY else After(RunAll(es[..|es|-1]), es[|es|-1])
  }

  lemma AtAfter(c: Cluster, e: Event, w: ProcessorId)
    ensures var s := At(c, w);
            At(After(c, e), w) ==
            match e
            case Deliver(at, d) => if at == w then Delivered(s, d) else Delivered(At(c, at), d).(seen := s.seen)
            case Restart(at) => if at == w then s.(seen := map[]) else s
  {
  }

  // Everything a run has written, and what of it processor w has marked since it last started.
  function WritesOf(es: seq<Event>): set<(JobId, Url)> {
    if es == [] then {}
    else
      var before, e := es[..|es|-1], es[|es|-1];
      WritesOf(before) + if e.Deliver? then Writes(At(RunAll(before), e.at), e.delivery) else {}
  }

  function MarksOf(es: seq<Event>, w: ProcessorId): set<(JobId, Url)> {
    if es == [] then {}
    else
      var before, e := es[..|es|-1], es[|es|-1];
      if e.at != w then MarksOf(before, w)
      else if e.Restart? then {}
      else MarksOf(before, w) + Marks(At(RunAll(before), w), e.delivery)
  }

  // Whatever payloads arrive at whichever processors, in whatever order and however often: a seen
  // set is what its processor has marked, dealt with is what anyone has written.
  lemma {:induction false} SeenThroughout(es: seq<Event>, w: ProcessorId)
    ensures forall key, u :: Seen(At(RunAll(es), w), key, u) <==> (key, u) in MarksOf(es, w)
    ensures forall key, u :: Disposed(At(RunAll(es), w), key, u) <==> (key, u) in WritesOf(es)
    ensures MarksOf(es, w) <= WritesOf(es)
  {
    if es != [] {
      var before, e := es[..|es|-1], es[|es|-1];
      SeenThroughout(before, w);
      SeenThroughout(before, e.at);
      SeenAfter(RunAll(before), e, w);
      if e.Deliver? {
        assert Marks(At(RunAll(before), e.at), e.delivery) <= Writes(At(RunAll(before), e.at), e.delivery);
      }
    }
  }

  lemma SeenAfter(c: Cluster, e: Event, w: ProcessorId)
    ensures forall key, u :: Seen(At(After(c, e), w), key, u) <==>
              if e.at != w then Seen(At(c, w), key, u)
              else e.Deliver? && (Seen(At(c, w), key, u) || (key, u) in Marks(At(c, w), e.delivery))
    ensures forall key, u :: Disposed(At(After(c, e), w), key, u) <==>
              Disposed(At(c, e.at), key, u) || (e.Deliver? && (key, u) in Writes(At(c, e.at), e.delivery))
    ensures forall key, u :: Disposed(At(c, e.at), key, u) <==> Disposed(At(c, w), key, u)
  {
    AtAfter(c, e, w);
    if e.Deliver? {
      DeliveryExactly(At(c, e.at), e.delivery);
      forall key, u
        ensures Disposed(At(After(c, e), w), key, u) <==> Disposed(Delivered(At(c, e.at), e.delivery), key, u) {
      }
    }
  }

  // So a processor's seen set is exactly what has been dealt with when every write of the run was
  // marked by it since it last started, and never more than that.
  lemma SeenIsDisposedExactly(es: seq<Event>, w: ProcessorId)
    ensures SeenOnlyDisposed(At(RunAll(es), w))
    ensures SeenIsDisposed(At(RunAll(es), w)) <==> WritesOf(es) <= MarksOf(es, w)
  {
    SeenThroughout(es, w);
    if SeenIsDisposed(At(RunAll(es), w)) {
      forall x | x in WritesOf(es)
        ensures x in MarksOf(es, w)
      {
        assert Disposed(At(RunAll(es), w), x.0, x.1);
      }
    }
  }

  lemma {:induction false} WritesGrow(es: seq<Event>, more: seq<Event>)
    ensures WritesOf(es) <= WritesOf(es + more)
    decreases |more|
  {
    if more == [] {
      assert es + more == es;
    } else {
      var all := es + more;
      assert all[..|all|-1] == es + more[..|more|-1];
      WritesGrow(es, more[..|more|-1]);
    }
  }

  lemma LastWrites(es: seq<Event>, w: ProcessorId, d: Delivery)
    ensures WritesOf(es + [Deliver(w, d)]) == WritesOf(es) + Writes(At(RunAll(es), w), d)
  {
    var all := es + [Deliver(w, d)];
    assert all[..|all|-1] == es;
  }

  // Wherever a payload is delivered, once its delivery completes every URL of its page is settled,
  // and stays so.
  lemma NoUrlLostInRun(es: seq<Event>, w: ProcessorId, d: Delivery, more: seq<Event>)
    requires !FanOut(At(RunAll(es), w), d.p, d.follows, d.env).1
    ensures forall f :: f in d.follows ==> (RootKey(d.p.jobId), f.url) in WritesOf(es + [Deliver(w, d)] + more)
  {
    var s := At(RunAll(es), w);
    SeenIsDisposedExactly(es, w);
    NoUrlLost(s, d.p, d.follows, d.env);
    DeliveryExactly(s, d);
    SeenThroughout(es, w);
    LastWrites(es, w, d);
    WritesGrow(es + [Deliver(w, d)], more);
    forall f | f in d.follows
      ensures (RootKey(d.p.jobId), f.url) in WritesOf(es + [Deliver(w, d)])
    {
      assert Disposed(Delivered(s, d), RootKey(d.p.jobId), f.url);
    }
  }

  // Seen from the page: the visit of a page that follows links settles, once it completes, its next
  // page at any depth, and all its links while the depth allows one level more.
  lemma PageSettled(es: seq<Event>, w: ProcessorId, p: Payload, page: Page, env: Env, more: seq<Event>)
    requires page.hasHtml && p.followLinks
    requires !FanOut(At(RunAll(es), w), p, FollowUrls(p, page), env).1
    ensures var settled := WritesOf(es + [Deliver(w, Delivery(p, FollowUrls(p, page), env))] + more);
            && (page.nextPage.Some? ==> (RootKey(p.jobId), page.nextPage.value) in settled)
            && (p.depth < p.maxDepth ==> forall u :: u in page.links ==> (RootKey(p.jobId), u) in settled)
  {
    var follows := FollowUrls(p, page);
    NoUrlLostInRun(es, w, Delivery(p, follows, env), more);
    if page.nextPage.Some? {
      assert follows[0].url == page.nextPage.value && follows[0] in follows;
    }
    if p.depth < p.maxDepth {
      forall u | u in page.links
        ensures exists f :: f in follows && f.url == u
      {
        var k :| 0 <= k < |page.links| && page.links[k] == u;
        var n := if page.nextPage.Some? then 1 else 0;
        assert follows[n + k].url == u && follows[n + k] in follows;
      }
    }
  }
}
