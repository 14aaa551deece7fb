// What one delivery enqueues when nothing raises, and which URLs are enqueued again.

module CrawlRepeats {
  import opened Crawl
  import opened FanoutBudget
  import opened Wrappers
  import D = DeliveryProtocol

  // --- A delivery at which nothing raises ---

  function Children(key: JobId, p: Payload, fs: seq<Follow>): seq<Child> {
    seq(|fs|, i requires 0 <= i < |fs| =>
      Child(key, "rec_" + p.jobId, fs[i].url, fs[i].depth, fs[i].maxDepth, p.followLinks))
  }

  ghost predicate Quiet(env: Env) {
    forall j :: env.push(j) == Sent(Some(D.ToStream), false)
                && env.overflow(j).route.Some? && !env.overflow(j).raised
  }

  // Positions from `from` up to `to`, if there are any.
  function Between(fs: seq<Follow>, from: nat, to: nat): seq<Follow>
    requires to <= |fs|
  {
    if from < to then fs[from..to] else []
  }

  lemma FirstChild(key: JobId, p: Payload, fs: seq<Follow>, from: nat, to: nat, done: seq<Child>)
    requires from < to <= |fs|
    ensures done + Children(key, p, Between(fs, from, to))
         == (done + [ChildOf(key, p, fs[from])]) + Children(key, p, Between(fs, from + 1, to))
  {
    var rest := Between(fs, from + 1, to);
    assert Between(fs, from, to) == [fs[from]] + rest;
    assert Children(key, p, [fs[from]] + rest) == [ChildOf(key, p, fs[from])] + Children(key, p, rest);
  }

  // One turn of the loops.
  lemma QuietTurn(s: CrawlState, key: JobId, p: Payload, unseen: seq<Follow>, allowed: int, i: nat, env: Env)
    requires Quiet(env) && i < |unseen|
    ensures var o := if i < allowed then D.ToStream else D.ToDlq;
            Enqueue(s, key, p, unseen, allowed, i, env)
            == Enqueue(Turn(s, key, p, unseen[i], o), key, p, unseen, allowed, i + 1, env)
  {
    var o := if i < allowed then D.ToStream else D.ToDlq;
    assert SendOf(allowed, i, env) == Sent(Some(o), false);
  }

  // Of the positions from i on, those below the cut go to the stream and the others to the
  // dead-letter queue.
  lemma {:induction false} QuietLoops(s: CrawlState, key: JobId, p: Payload, unseen: seq<Follow>, allowed: int,
                                      i: nat, cut: nat, env: Env)
    requires Quiet(env) && i <= |unseen| && cut <= |unseen|
    requires cut == if allowed > |unseen| then |unseen| else Max(0, allowed)
    ensures var (s', raised) := Enqueue(s, key, p, unseen, allowed, i, env);
            && !raised
            && s'.stream == s.stream + Children(key, p, Between(unseen, i, cut))
            && s'.dlq == s.dlq + Children(key, p, Between(unseen, Max(i, cut), |unseen|))
    decreases |unseen| - i
  {
    if i < |unseen| {
      QuietTurn(s, key, p, unseen, allowed, i, env);
      if i < cut {
        QuietLoops(Turn(s, key, p, unseen[i], D.ToStream), key, p, unseen, allowed, i + 1, cut, env);
        FirstChild(key, p, unseen, i, cut, s.stream);
      } else {
        QuietLoops(Turn(s, key, p, unseen[i], D.ToDlq), key, p, unseen, allowed, i + 1, cut, env);
        FirstChild(key, p, unseen, i, |unseen|, s.dlq);
      }
    }
  }

  // When nothing raises, a delivery enqueues as many of the URLs it has not seen, in the order of the
  // page, as its tree has left of 200, and dead-letters the others; all of them where there is room.
  lemma QuietDelivery(s: CrawlState, p: Payload, follows: seq<Follow>, env: Env)
    requires follows != [] && Quiet(env) && !env.degraded && 0 <= CountOf(s.budget, RootKey(p.jobId)) <= 200
    ensures var key := RootKey(p.jobId);
            var unseen := Unseen(follows, SeenOf(s, key));
            var room := 200 - CountOf(s.budget, key);
            var cut := if |unseen| <= room then |unseen| else room;
            var (s', raised) := FanOut(s, p, follows, env);
            && !raised && s'.stream == s.stream + Children(key, p, unseen[..cut])
            && s'.dlq == s.dlq + Children(key, p, unseen[cut..])
            && CountOf(s'.budget, key) == CountOf(s.budget, key) + cut
  {
    var key := RootKey(p.jobId);
    var unseen := Unseen(follows, SeenOf(s, key));
    var room := 200 - CountOf(s.budget, key);
    var cut := if |unseen| <= room then |unseen| else room;
    var s1 := Opened(s, key, |unseen|, false);
    QuietLoops(s1, key, p, unseen, AllowedFor(s, key, |unseen|, false), 0, cut, env);
    EnqueuePushes(s1, key, p, unseen, AllowedFor(s, key, |unseen|, false), 0, env);
    assert Between(unseen, 0, cut) == unseen[..cut] && Between(unseen, cut, |unseen|) == unseen[cut..];
  }

  // --- One URL twice on a page ---

  // The URLs of the positions from `from` up to `to` differ.
  ghost predicate UrlsDiffer(follows: seq<Follow>, from: nat, to: int) {
    forall i, j :: from <= i < j < |follows| && j < to ==> follows[i].url != follows[j].url
  }

  // No two of the child jobs pushed since position `from` of the stream have one URL.
  ghost predicate PushedOnce(stream: seq<Child>, from: nat) {
    forall k, l :: from <= k < l < |stream| ==> stream[k].url != stream[l].url
  }

  lemma {:induction false} DifferentPushes(s: CrawlState, key: JobId, p: Payload, unseen: seq<Follow>, allowed: int,
                                           i: nat, env: Env)
    requires i <= |unseen| && UrlsDiffer(unseen, i, allowed)
    ensures PushedOnce(Enqueue(s, key, p, unseen, allowed, i, env).0.stream, |s.stream|)
    decreases |unseen| - i
  {
    if i < |unseen| {
      var c, w := ChildOf(key, p, unseen[i]), SendOf(allowed, i, env);
      if !Fails(w) {
        var s1 := MarkSeen(Written(s, c, w.route), key, c.url);
        var s' := Enqueue(s1, key, p, unseen, allowed, i + 1, env).0;
        DifferentPushes(s1, key, p, unseen, allowed, i + 1, env);
        EnqueuePushes(s1, key, p, unseen, allowed, i + 1, env);
        forall k, l | |s.stream| <= k < l < |s'.stream|
          ensures s'.stream[k].url != s'.stream[l].url
        {
          if k < |s1.stream| {
            var j :| i + 1 <= j < |unseen| && j < allowed && s'.stream[l] == ChildOf(key, p, unseen[j]);
          }
        }
      }
    }
  }

  // When nothing raises, what the budget allows is pushed in the order of the page.
  lemma {:induction false} PushedInOrder(s: CrawlState, key: JobId, p: Payload, unseen: seq<Follow>, allowed: int,
                                         i: nat, j: nat, env: Env)
    requires i <= j < |unseen| && j < allowed && forall k :: env.push(k) == Sent(Some(D.ToStream), false)
    ensures var s' := Enqueue(s, key, p, unseen, allowed, i, env).0;
            |s.stream| + j - i < |s'.stream| && s'.stream[|s.stream| + j - i] == ChildOf(key, p, unseen[j])
    decreases |unseen| - i
  {
    var c := ChildOf(key, p, unseen[i]);
    assert SendOf(allowed, i, env) == Sent(Some(D.ToStream), false);
    var s1 := MarkSeen(WriteChild(s, c, D.ToStream), key, c.url);
    assert s1.stream == s.stream + [c];
    if i == j {
      EnqueuePushes(s1, key, p, unseen, allowed, i + 1, env);
    } else {
      PushedInOrder(s1, key, p, unseen, allowed, i + 1, j, env);
    }
  }

  function Fresh(s: CrawlState, p: Payload, follows: seq<Follow>): seq<Follow> {
    Unseen(follows, SeenOf(s, RootKey(p.jobId)))
  }

  function Allowance(s: CrawlState, p: Payload, follows: seq<Follow>, degraded: bool): int {
    AllowedFor(s, RootKey(p.jobId), |Fresh(s, p, follows)|, degraded)
  }

  lemma FanOutUnfold(s: CrawlState, p: Payload, follows: seq<Follow>, env: Env)
    requires follows != []
    ensures var key, unseen := RootKey(p.jobId), Fresh(s, p, follows);
            FanOut(s, p, follows, env) == Enqueue(Opened(s, key, |unseen|, env.degraded), key, p, unseen,
                                                  Allowance(s, p, follows, env.degraded), 0, env)
  {
  }

  lemma TwiceOnPage(s: CrawlState, p: Payload, follows: seq<Follow>, degraded: bool)
    requires follows != [] && !UrlsDiffer(Fresh(s, p, follows), 0, Allowance(s, p, follows, degraded))
    ensures !PushedOnce(FanOut(s, p, follows, Calm(degraded)).0.stream, |s.stream|)
  {
    var key, unseen, allowed := RootKey(p.jobId), Fresh(s, p, follows), Allowance(s, p, follows, degraded);
    var i, j :| 0 <= i < j < |unseen| && j < allowed && unseen[i].url == unseen[j].url;
    FanOutUnfold(s, p, follows, Calm(degraded));
    var s1 := Opened(s, key, |unseen|, degraded);
    PushedInOrder(s1, key, p, unseen, allowed, 0, i, Calm(degraded));
    PushedInOrder(s1, key, p, unseen, allowed, 0, j, Calm(degraded));
    var stream := FanOut(s, p, follows, Calm(degraded)).0.stream;
    assert stream[|s.stream| + i].url == stream[|s.stream| + j].url;
  }

  // A delivery that can, or cannot, check the budget pushes no URL twice, however its writes end,
  // exactly when the unseen URLs its allowance covers differ; a page that names one URL as its next
  // page and as a link has it enqueued twice.
  lemma PushedOnceExactly(s: CrawlState, p: Payload, follows: seq<Follow>, degraded: bool)
    ensures (forall env: Env ::
               env.degraded == degraded ==> PushedOnce(FanOut(s, p, follows, env).0.stream, |s.stream|))
            <==> UrlsDiffer(Fresh(s, p, follows), 0, Allowance(s, p, follows, degraded))
  {
    var key, unseen, allowed := RootKey(p.jobId), Fresh(s, p, follows), Allowance(s, p, follows, degraded);
    if follows == [] {
    } else if UrlsDiffer(unseen, 0, allowed) {
      forall env: Env | env.degraded == degraded
        ensures PushedOnce(FanOut(s, p, follows, env).0.stream, |s.stream|)
      {
        FanOutUnfold(s, p, follows, env);
        DifferentPushes(Opened(s, key, |unseen|, degraded), key, p, unseen, allowed, 0, env);
      }
    } else {
      TwiceOnPage(s, p, follows, degraded);
      assert Calm(degraded).degraded == degraded;
    }
  }

  // --- A URL dealt with before ---

  // The delivery pushes no URL that was dealt with for its tree before.
  ghost predicate RepeatsNothing(s: CrawlState, d: Delivery) {
    s.stream <= Delivered(s, d).stream &&
    forall k :: |s.stream| <= k < |Delivered(s, d).stream| ==>
      !Disposed(s, RootKey(d.p.jobId), Delivered(s, d).stream[k].url)
  }

  // A delivery at which the budget cannot be checked, of a page with one link.
  function Probe(id: JobId, u: Url): Delivery {
    Delivery(Payload(id, 0, 0, true), [Follow(u, 0, 0)], Calm(true))
  }

  lemma ProbePushes(s: CrawlState, id: JobId, u: Url)
    requires u !in SeenOf(s, RootKey(id))
    ensures |Delivered(s, Probe(id, u)).stream| == |s.stream| + 1
    ensures Delivered(s, Probe(id, u)).stream[|s.stream|].url == u
  {
    var d := Probe(id, u);
    var key := RootKey(id);
    assert d.follows[1..] == [];
    assert Unseen(d.follows, SeenOf(s, key)) == d.follows;
    assert AllowedFor(s, key, 1, true) == 1;
    var s1 := Opened(s, key, 1, true);
    var s2 := MarkSeen(WriteChild(s1, ChildOf(key, d.p, d.follows[0]), D.ToStream), key, u);
    assert Enqueue(s1, key, d.p, d.follows, 1, 0, d.env) == Enqueue(s2, key, d.p, d.follows, 1, 1, d.env);
  }

  // At a processor no delivery whatsoever enqueues a settled URL again exactly when its seen set
  // holds everything settled.
  lemma RepeatsExactly(s: CrawlState)
    requires SeenOnlyDisposed(s)
    ensures (forall d: Delivery :: RepeatsNothing(s, d)) <==>
            (forall id, u :: Disposed(s, RootKey(id), u) ==> Seen(s, RootKey(id), u))
  {
    if forall id, u :: Disposed(s, RootKey(id), u) ==> Seen(s, RootKey(id), u) {
      forall d: Delivery ensures RepeatsNothing(s, d) {
        PushesAreNew(s, d.p, d.follows, d.env);
      }
    } else {
      var id, u :| Disposed(s, RootKey(id), u) && !Seen(s, RootKey(id), u);
      ProbePushes(s, id, u);
      assert !RepeatsNothing(s, Probe(id, u));
    }
  }

  lemma {:induction false} WritesHaveRoots(es: seq<Event>, key: JobId, u: Url)
    requires (key, u) in WritesOf(es)
    ensures exists id :: key == RootKey(id)
  {
    var before, e := es[..|es|-1], es[|es|-1];
    if (key, u) in WritesOf(before) {
      WritesHaveRoots(before, key, u);
    } else {
      WrittenWasUnseen(At(RunAll(before), e.at), e.delivery, key, u);
    }
  }

  // After any run, no delivery at processor w enqueues a settled URL again exactly when w has
  // marked everything the run wrote since it last started.
  lemma NeverReenqueuedExactly(es: seq<Event>, w: ProcessorId)
    ensures (forall d: Delivery :: RepeatsNothing(At(RunAll(es), w), d)) <==> WritesOf(es) <= MarksOf(es, w)
  {
    var s := At(RunAll(es), w);
    SeenThroughout(es, w);
    SeenIsDisposedExactly(es, w);
    RepeatsExactly(s);
    if forall d: Delivery :: RepeatsNothing(s, d) {
      forall x | x in WritesOf(es)
        ensures x in MarksOf(es, w)
      {
        WritesHaveRoots(es, x.0, x.1);
        assert Disposed(s, x.0, x.1);
      }
    }
  }

  // A processor that has just started, or never took part, has marked nothing: once anything was
  // written, some delivery to it enqueues a settled URL again.
  lemma FreshProcessorRepeats(es: seq<Event>, w: ProcessorId)
    requires WritesOf(es) != {} && (forall i :: 0 <= i < |es| ==> es[i].at != w)
    ensures exists d: Delivery :: !RepeatsNothing(At(RunAll(es), w), d)
  {
    NothingMarked(es, w);
    NeverReenqueuedExactly(es, w);
  }

  lemma RestartRepeats(es: seq<Event>, w: ProcessorId)
    requires WritesOf(es) != {}
    ensures exists d: Delivery :: !RepeatsNothing(At(RunAll(es + [Restart(w)]), w), d)
  {
    var all := es + [Restart(w)];
    assert all[..|all|-1] == es;
    NeverReenqueuedExactly(all, w);
  }

  lemma {:induction false} NothingMarked(es: seq<Event>, w: ProcessorId)
    requires forall i :: 0 <= i < |es| ==> es[i].at != w
    ensures MarksOf(es, w) == {}
  {
    if es != [] {
      NothingMarked(es[..|es|-1], w);
    }
  }

  // One processor, no restart: a push that takes effect and then raises, wherever it wrote, leaves
  // its URL unmarked, and the redelivery of the page enqueues it again.
  lemma CutRepeats(p: Payload, u: Url, w: Sent)
    requires w.route.Some? && Fails(w)
    ensures var page := [Follow(u, p.depth, p.maxDepth)];
            var s := At(RunAll([Deliver(0, Delivery(p, page, Env(false, i => w, i => w)))]), 0);
            && Disposed(s, RootKey(p.jobId), u) && !Seen(s, RootKey(p.jobId), u)
            && !RepeatsNothing(s, Delivery(p, page, Calm(false))) && !FanOut(s, p, page, Calm(false)).1
  {
    var key := RootKey(p.jobId);
    var f := Follow(u, p.depth, p.maxDepth);
    var cut := Delivery(p, [f], Env(false, i => w, i => w));
    var es := [Deliver(0, cut)];
    assert es[..0] == [] && [f][1..] == [];
    var s0 := At(EMPTY, 0);
    assert Unseen([f], {}) == [f];
    assert AllowedFor(s0, key, 1, false) == 1;
    var s := WriteChild(Opened(s0, key, 1, false), ChildOf(key, p, f), w.route.value);
    assert Delivered(s0, cut) == s;
    assert RunAll(es) == After(EMPTY, es[0]);
    assert At(RunAll(es), 0) == s;
    WriteDisposes(Opened(s0, key, 1, false), ChildOf(key, p, f), w.route.value);
    RedeliveryPushes(s, p, f, Calm(false));
  }

  lemma RedeliveryPushes(s: CrawlState, p: Payload, f: Follow, env: Env)
    requires SeenOf(s, RootKey(p.jobId)) == {} && CountOf(s.budget, RootKey(p.jobId)) == 1
    requires !env.degraded && env.push(0) == Sent(Some(D.ToStream), false)
    requires Disposed(s, RootKey(p.jobId), f.url)
    ensures !RepeatsNothing(s, Delivery(p, [f], env)) && !FanOut(s, p, [f], env).1
  {
    var key := RootKey(p.jobId);
    assert [f][1..] == [];
    assert Unseen([f], {}) == [f];
    assert AllowedFor(s, key, 1, false) == 1;
    var s1 := Opened(s, key, 1, false);
    var s2 := MarkSeen(WriteChild(s1, ChildOf(key, p, f), D.ToStream), key, f.url);
    assert Enqueue(s1, key, p, [f], 1, 0, env) == Enqueue(s2, key, p, [f], 1, 1, env) == (s2, false);
    assert s2.stream[|s.stream|].url == f.url;
  }
}
