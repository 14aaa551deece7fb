// One crawl tree: what all its deliveries together enqueue, whether it comes to an end, and what
// becomes of that when its root id strips to nothing.

module CrawlTree {
  import opened Crawl
  import opened FanoutBudget
  import opened Wrappers
  import D = DeliveryProtocol

  // --- The budget over whole runs ---

  function Enqueued(stream: seq<Child>, key: JobId): nat {
    if stream == [] then 0
    else Enqueued(stream[..|stream|-1], key) + if stream[|stream|-1].root == key then 1 else 0
  }

  lemma {:induction false} EnqueuedGrows(a: seq<Child>, b: seq<Child>, key: JobId)
    requires a <= b
    ensures Enqueued(a, key) <= Enqueued(b, key) <= Enqueued(a, key) + |b| - |a|
    ensures (forall k :: |a| <= k < |b| ==> b[k].root != key) ==> Enqueued(a, key) == Enqueued(b, key)
    decreases |b|
  {
    if |b| > |a| {
      EnqueuedGrows(a, b[..|b|-1], key);
    } else {
      assert a == b;
    }
  }

  // The deliveries of a tree at which the budget could not be checked.
  ghost function UncheckedFor(es: seq<Event>, key: JobId): set<nat> {
    set i: nat | i < |es| && Unchecked(es[i], key)
  }

  predicate Unchecked(e: Event, key: JobId) {
    e.Deliver? && RootKey(e.delivery.p.jobId) == key && e.delivery.env.degraded
  }

  ghost function DegradedCalls(es: seq<Event>, key: JobId): nat { |UncheckedFor(es, key)| }

  lemma UncheckedSnoc(before: seq<Event>, e: Event, key: JobId)
    ensures UncheckedFor(before + [e], key) == UncheckedFor(before, key) + if Unchecked(e, key) then {|before|} else {}
  {
    var all, n := before + [e], |before|;
    assert all[n] == e;
    forall i: nat
      ensures i in UncheckedFor(all, key) <==> i in UncheckedFor(before, key) || (i == n && Unchecked(e, key))
    {
      if i < n {
        assert all[i] == before[i];
      }
    }
  }

  lemma DegradedSnoc(before: seq<Event>, e: Event, key: JobId)
    ensures DegradedCalls(before + [e], key) == DegradedCalls(before, key) + if Unchecked(e, key) then 1 else 0
  {
    UncheckedSnoc(before, e, key);
    assert |before| !in UncheckedFor(before, key);
  }

  // For any deliveries to any processors, restarts included, a tree key never has more child jobs
  // than the cap, plus the degraded limit for each delivery whose budget could not be checked.
  lemma {:induction false} FanoutBounded(es: seq<Event>, key: JobId)
    ensures var c := RunAll(es);
            Enqueued(c.stream, key) <= CountOf(c.budget, key) + FANOUT_DEGRADED_LIMIT * DegradedCalls(es, key)
            && 0 <= CountOf(c.budget, key) <= MAX_RECURSIVE_FANOUT
  {
    if es != [] {
      var before, e := es[..|es|-1], es[|es|-1];
      FanoutBounded(before, key);
      DegradedSnoc(before, e, key);
      assert before + [e] == es;
      if e.Deliver? {
        DeliveryCharges(At(RunAll(before), e.at), e.delivery, key);
      }
    }
  }

  lemma DeliveryCharges(s: CrawlState, d: Delivery, key: JobId)
    requires 0 <= CountOf(s.budget, key) <= MAX_RECURSIVE_FANOUT
    ensures var s' := FanOut(s, d.p, d.follows, d.env).0;
            var added := Enqueued(s'.stream, key) - Enqueued(s.stream, key);
            && 0 <= CountOf(s'.budget, key) <= MAX_RECURSIVE_FANOUT
            && (if RootKey(d.p.jobId) != key then added == 0 && CountOf(s'.budget, key) == CountOf(s.budget, key)
                else if d.env.degraded then added <= FANOUT_DEGRADED_LIMIT
                     && CountOf(s'.budget, key) == CountOf(s.budget, key)
                else added <= CountOf(s'.budget, key) - CountOf(s.budget, key))
  {
    if d.follows != [] {
      var own := RootKey(d.p.jobId);
      var unseen := Unseen(d.follows, SeenOf(s, own));
      var s1 := Opened(s, own, |unseen|, d.env.degraded);
      EnqueuePushes(s1, own, d.p, unseen, AllowedFor(s, own, |unseen|, d.env.degraded), 0, d.env);
      EnqueuedGrows(s.stream, FanOut(s, d.p, d.follows, d.env).0.stream, key);
    }
  }

  // --- One crawl tree ---

  // Some processor takes up the root page or the page of a child job pushed earlier, any number
  // of times each, or is restarted; pages and environments are arbitrary every time.
  datatype Visit = Visit(at: ProcessorId, job: Option<nat>, page: Page, env: Env) | Reboot(at: ProcessorId)

  function PayloadOf(root: Payload, stream: seq<Child>, job: Option<nat>): Payload {
    if job.Some? && job.value < |stream|
    then var c := stream[job.value]; Payload(c.jobId, c.depth, c.maxDepth, c.followLinks)
    else root
  }

  function EventOf(root: Payload, stream: seq<Child>, v: Visit): Event {
    match v
    case Reboot(w) => Restart(w)
    case Visit(w, job, page, env) =>
      var p := PayloadOf(root, stream, job);
      Deliver(w, Delivery(p, FollowUrls(p, page), env))
  }

  function EventsOf(root: Payload, vs: seq<Visit>): seq<Event> {
    if vs == [] then []
    else
      var before := EventsOf(root, vs[..|vs|-1]);
      before + [EventOf(root, RunAll(before).stream, vs[|vs|-1])]
  }

  function CrawlOf(root: Payload, vs: seq<Visit>): Cluster { RunAll(EventsOf(root, vs)) }

  // Visits at which the budget could not be checked.
  function Outages(vs: seq<Visit>): nat {
    if vs == [] then 0
    else Outages(vs[..|vs|-1]) + if vs[|vs|-1].Visit? && vs[|vs|-1].env.degraded then 1 else 0
  }

  ghost predicate InTree(root: Payload, c: Child) {
    && c.root == RootKey(root.jobId)
    && Strip(c.jobId) == Strip(root.jobId)
    && c.maxDepth == root.maxDepth
    && (root.depth <= root.maxDepth ==> c.depth <= root.maxDepth)
  }

  lemma CrawlSnoc(root: Payload, before: seq<Visit>, v: Visit)
    ensures EventsOf(root, before + [v]) == EventsOf(root, before) + [EventOf(root, CrawlOf(root, before).stream, v)]
    ensures CrawlOf(root, before + [v]) == After(CrawlOf(root, before), EventOf(root, CrawlOf(root, before).stream, v))
  {
    assert (before + [v])[..|before + [v]| - 1] == before;
    var es := EventsOf(root, before + [v]);
    assert es[..|es|-1] == EventsOf(root, before);
  }

  lemma PayloadInTree(root: Payload, stream: seq<Child>, job: Option<nat>)
    requires Strip(root.jobId) != "" && forall c :: c in stream ==> InTree(root, c)
    ensures var p := PayloadOf(root, stream, job);
            && Strip(p.jobId) == Strip(root.jobId) && RootKey(p.jobId) == RootKey(root.jobId)
            && p.maxDepth == root.maxDepth && (root.depth <= root.maxDepth ==> p.depth <= root.maxDepth)
  {
    assert PayloadOf(root, stream, job) == root || (job.Some? && InTree(root, stream[job.value]));
  }

  // What a delivery of a page of the tree pushes stays in the tree.
  lemma DeliveryStaysInTree(root: Payload, s: CrawlState, job: Option<nat>, page: Page, env: Env)
    requires Strip(root.jobId) != "" && forall c :: c in s.stream ==> InTree(root, c)
    ensures var p := PayloadOf(root, s.stream, job);
            forall c :: c in FanOut(s, p, FollowUrls(p, page), env).0.stream ==> InTree(root, c)
  {
    var p := PayloadOf(root, s.stream, job);
    PayloadInTree(root, s.stream, job);
    StripChild(p.jobId);
    PushesAreNew(s, p, FollowUrls(p, page), env);
    var s' := FanOut(s, p, FollowUrls(p, page), env).0;
    forall k | 0 <= k < |s'.stream|
      ensures InTree(root, s'.stream[k])
    {
      if k < |s.stream| {
        assert s'.stream[k] == s.stream[k];
      } else {
        var f :| f in FollowUrls(p, page) && s'.stream[k]
                 == Child(RootKey(p.jobId), "rec_" + p.jobId, f.url, f.depth, f.maxDepth, p.followLinks);
      }
    }
  }

  lemma VisitStaysInTree(root: Payload, c: Cluster, v: Visit)
    requires Strip(root.jobId) != "" && forall x :: x in c.stream ==> InTree(root, x)
    ensures forall x :: x in After(c, EventOf(root, c.stream, v)).stream ==> InTree(root, x)
  {
    if v.Visit? {
      DeliveryStaysInTree(root, At(c, v.at), v.job, v.page, v.env);
    }
  }

  // Every descendant strips back to the root's id and stays within its depth limit.
  lemma {:induction false} TreeStaysTogether(root: Payload, vs: seq<Visit>)
    requires Strip(root.jobId) != ""
    ensures forall c :: c in CrawlOf(root, vs).stream ==> InTree(root, c)
  {
    if vs != [] {
      var before, v := vs[..|vs|-1], vs[|vs|-1];
      TreeStaysTogether(root, before);
      VisitStaysInTree(root, CrawlOf(root, before), v);
      CrawlSnoc(root, before, v);
      assert before + [v] == vs;
    }
  }

  // So every visit of the tree draws on one budget.
  lemma {:induction false} OneBudget(root: Payload, vs: seq<Visit>)
    requires Strip(root.jobId) != ""
    ensures DegradedCalls(EventsOf(root, vs), RootKey(root.jobId)) == Outages(vs)
  {
    if vs != [] {
      var before, v := vs[..|vs|-1], vs[|vs|-1];
      OneBudget(root, before);
      TreeStaysTogether(root, before);
      if v.Visit? {
        PayloadInTree(root, CrawlOf(root, before).stream, v.job);
      }
      CrawlSnoc(root, before, v);
      assert before + [v] == vs;
      DegradedSnoc(EventsOf(root, before), EventOf(root, CrawlOf(root, before).stream, v), RootKey(root.jobId));
    }
  }

  // Any link graph, next-page cycles included, any number of processors and restarts: the tree of
  // a root whose id does not strip to nothing gets at most 200 child jobs, and ten more an outage.
  lemma CrawlTerminates(root: Payload, vs: seq<Visit>)
    requires Strip(root.jobId) != ""
    ensures |CrawlOf(root, vs).stream| <= 200 + 10 * Outages(vs)
  {
    TreeStaysTogether(root, vs);
    OneBudget(root, vs);
    FanoutBounded(EventsOf(root, vs), RootKey(root.jobId));
    AllOneKey(CrawlOf(root, vs).stream, RootKey(root.jobId));
  }

  lemma {:induction false} AllOneKey(stream: seq<Child>, key: JobId)
    requires forall c :: c in stream ==> c.root == key
    ensures Enqueued(stream, key) == |stream|
  {
    if stream != [] {
      AllOneKey(stream[..|stream|-1], key);
    }
  }

  // --- Root ids that strip to nothing ---

  ghost predicate KeysShorterThan(s: CrawlState, n: nat) {
    && (forall key :: key in s.seen ==> |key| < n)
    && (forall key :: key in s.budget ==> |key| < n)
  }

  function NewestId(root: Payload, stream: seq<Child>): JobId {
    if stream == [] then root.jobId else stream[|stream|-1].jobId
  }

  // A chain of next-page links, one child a visit, each under a key never used before.
  ghost predicate Runaway(root: Payload, s: CrawlState, n: nat) {
    && |s.stream| == n && Strip(NewestId(root, s.stream)) == ""
    && (n > 0 ==> s.stream[n-1].followLinks)
    && KeysShorterThan(s, |NewestId(root, s.stream)|)
    && (n == 0 ==> s == At(EMPTY, 0))
  }

  const NEXT_PAGE_ONLY := Page(true, Some("next"), [])

  lemma NewestPayload(root: Payload, s: CrawlState, n: nat)
    requires Runaway(root, s, n) && root.followLinks
    ensures var p := PayloadOf(root, s.stream, if n == 0 then None else Some(n - 1));
            p.followLinks && p.jobId == NewestId(root, s.stream)
  {
  }

  lemma RunawayNext(root: Payload, before: seq<Visit>, n: nat) returns (v: Visit)
    requires Strip(root.jobId) == "" && root.followLinks && Runaway(root, At(CrawlOf(root, before), 0), n)
    ensures v.Visit? && !v.env.degraded && Runaway(root, At(CrawlOf(root, before + [v]), 0), n + 1)
  {
    var job: Option<nat> := if n == 0 then None else Some(n - 1);
    v := Visit(0, job, NEXT_PAGE_ONLY, Calm(false));
    var s := At(CrawlOf(root, before), 0);
    var p := PayloadOf(root, s.stream, job);
    NewestPayload(root, s, n);
    RunawayVisit(root, s, p, n);
    assert At(CrawlOf(root, before + [v]), 0) == FanOut(s, p, FollowUrls(p, NEXT_PAGE_ONLY), Calm(false)).0 by {
      CrawlSnoc(root, before, v);
    }
  }

  lemma OutagesSnoc(vs: seq<Visit>, v: Visit)
    ensures Outages(vs + [v]) == Outages(vs) + if v.Visit? && v.env.degraded then 1 else 0
  {
    assert (vs + [v])[..|vs + [v]| - 1] == vs;
  }

  lemma {:induction false} RunawayCrawl(root: Payload, n: nat) returns (vs: seq<Visit>)
    requires Strip(root.jobId) == "" && root.followLinks
    ensures Outages(vs) == 0 && Runaway(root, At(CrawlOf(root, vs), 0), n)
  {
    vs := [];
    if n > 0 {
      vs := RunawayCrawl(root, n - 1);
      var v := RunawayNext(root, vs, n - 1);
      OutagesSnoc(vs, v);
      vs := vs + [v];
    }
  }

  lemma RunawayVisit(root: Payload, s: CrawlState, p: Payload, n: nat)
    requires Runaway(root, s, n) && p.followLinks && p.jobId == NewestId(root, s.stream)
    ensures Runaway(root, FanOut(s, p, FollowUrls(p, NEXT_PAGE_ONLY), Calm(false)).0, n + 1)
  {
    var f := Follow("next", p.depth, p.maxDepth);
    assert FollowUrls(p, NEXT_PAGE_ONLY) == [f];
    StripChild(p.jobId);
    assert p.jobId !in s.seen && p.jobId !in s.budget;
    FirstUseOfKey(s, p, f, Calm(false));
  }

  lemma FirstUseOfKey(s: CrawlState, p: Payload, f: Follow, env: Env)
    requires Strip(p.jobId) == "" && p.jobId !in s.seen && p.jobId !in s.budget
    requires !env.degraded && env.push(0) == Sent(Some(D.ToStream), false)
    ensures FanOut(s, p, [f], env).0 ==
            CrawlState(s.seen[p.jobId := {f.url}], s.budget[p.jobId := 1], s.stream + [ChildOf(p.jobId, p, f)], s.dlq)
  {
    assert [f][1..] == [];
    assert Unseen([f], {}) == [f];
    var s1 := Opened(s, p.jobId, 1, false);
    var s2 := MarkSeen(WriteChild(s1, ChildOf(p.jobId, p, f), D.ToStream), p.jobId, f.url);
    assert Enqueue(s1, p.jobId, p, [f], 1, 0, env) == Enqueue(s2, p.jobId, p, [f], 1, 1, env) == (s2, false);
    assert SeenOf(s1, p.jobId) + {f.url} == {f.url};
    assert s1.seen[p.jobId := {f.url}] == s.seen[p.jobId := {f.url}];
    assert AllowedFor(s, p.jobId, 1, false) == 1 && RootKey(p.jobId) == p.jobId && SeenOf(s, p.jobId) == {};
    assert FanOut(s, p, [f], env) == Enqueue(s1, p.jobId, p, [f], 1, 0, env);
  }

  ghost predicate ChildrenAtMost(root: Payload, bound: nat) {
    forall vs :: Outages(vs) == 0 ==> |CrawlOf(root, vs).stream| <= bound
  }

  // A crawl that follows links terminates, whatever it finds, exactly when its root id does
  // not strip to nothing.
  lemma CrawlTerminatesExactly(root: Payload)
    requires root.followLinks
    ensures (exists bound: nat :: ChildrenAtMost(root, bound)) <==> Strip(root.jobId) != ""
  {
    if Strip(root.jobId) != "" {
      forall vs | Outages(vs) == 0
        ensures |CrawlOf(root, vs).stream| <= MAX_RECURSIVE_FANOUT
      {
        CrawlTerminates(root, vs);
      }
      assert ChildrenAtMost(root, MAX_RECURSIVE_FANOUT);
    } else {
      forall bound: nat
        ensures !ChildrenAtMost(root, bound)
      {
        var vs := RunawayCrawl(root, bound + 1);
        assert |CrawlOf(root, vs).stream| > bound;
      }
    }
  }
}
