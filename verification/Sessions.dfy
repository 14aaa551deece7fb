// The session pool: persona and proxy pairs leased per domain, scored on release, retired by
// score or use count, and swept away once a whole domain has retired.

module Sessions {
  import opened Wrappers

  type Id = string
  type Domain = string

  const RETIREMENT_THRESHOLD := -3.0
  const SUCCESS_DELTA := 1.0
  const BLOCK_DELTA := -3.0
  const MAX_USES: nat := 50
  const SWEEP_INTERVAL_RELEASES: nat := 50

  datatype Session = Session(id: Id, persona: string, proxy: Option<string>, health: real, uses: nat) {
    predicate Retired() { health <= RETIREMENT_THRESHOLD || uses >= MAX_USES }

    function ScoreOutcome(success: bool, blocked: bool): Session {
      this.(health := health + (if blocked then BLOCK_DELTA else if success then SUCCESS_DELTA else 0.0),
            uses := uses + 1)
    }
  }

  datatype Pool = Pool(sessions: map<Domain, seq<Session>>, checkedOut: map<Domain, set<Id>>, sweepCounter: nat)

  function Bucket(p: Pool, d: Domain): seq<Session> { if d in p.sessions then p.sessions[d] else [] }

  function Out(p: Pool, d: Domain): set<Id> { if d in p.checkedOut then p.checkedOut[d] else {} }

  function Available(bucket: seq<Session>, out: set<Id>): seq<Session> {
    if bucket == [] then []
    else (if !bucket[0].Retired() && bucket[0].id !in out then [bucket[0]] else []) + Available(bucket[1..], out)
  }

  // The first of the sessions with the highest score.
  function Healthiest(live: seq<Session>): Session
    requires live != []
  {
    if |live| == 1 then live[0]
    else
      var best, last := Healthiest(live[..|live| - 1]), live[|live| - 1];
      if last.health > best.health then last else best
  }

  function Chosen(p: Pool, d: Domain, minted: Session): Session {
    var live := Available(Bucket(p, d), Out(p, d));
    if live != [] then Healthiest(live) else minted
  }

  function AfterLease(p: Pool, d: Domain, minted: Session): Pool {
    var live := Available(Bucket(p, d), Out(p, d));
    Pool(if live != [] then p.sessions else p.sessions[d := Bucket(p, d) + [minted]],
         p.checkedOut[d := Out(p, d) + {Chosen(p, d, minted).id}],
         p.sweepCounter)
  }

  // The first session with the id of `updated` is replaced; if there is none it is appended.
  function Replaced(bucket: seq<Session>, updated: Session): seq<Session> {
    if bucket == [] then [updated]
    else if bucket[0].id == updated.id then [updated] + bucket[1..]
    else [bucket[0]] + Replaced(bucket[1..], updated)
  }

  function AfterReturn(p: Pool, d: Domain, updated: Session): Pool {
    Pool(p.sessions[d := Replaced(Bucket(p, d), updated)],
         if d in p.checkedOut then p.checkedOut[d := p.checkedOut[d] - {updated.id}] else p.checkedOut,
         p.sweepCounter)
  }

  predicate AllRetired(bucket: seq<Session>) { forall i :: 0 <= i < |bucket| ==> bucket[i].Retired() }

  function Doomed(sessions: map<Domain, seq<Session>>): set<Domain> {
    set d | d in sessions && AllRetired(sessions[d])
  }

  function AfterTick(p: Pool): Pool {
    var n := p.sweepCounter + 1;
    if n % SWEEP_INTERVAL_RELEASES != 0 then p.(sweepCounter := n)
    else Pool(p.sessions - Doomed(p.sessions), p.checkedOut - Doomed(p.sessions), n)
  }

  class SessionPool {
    var sessions: map<Domain, seq<Session>>
    var checkedOut: map<Domain, set<Id>>
    var sweepCounter: nat

    ghost function State(): Pool
      reads this
    {
      Pool(sessions, checkedOut, sweepCounter)
    }

    constructor ()
      ensures State() == Pool(map[], map[], 0)
    {
      sessions, checkedOut, sweepCounter := map[], map[], 0;
    }

    // `id` and `persona` are the identifiers drawn for a new pair, `proxy` the provider's next.
    method Lease(domain: Domain, id: Id, persona: string, proxy: Option<string>) returns (session: Session)
      modifies this
      ensures session == Chosen(old(State()), domain, Session(id, persona, proxy, 0.0, 0))
      ensures State() == AfterLease(old(State()), domain, Session(id, persona, proxy, 0.0, 0))
      // a usable session of the domain that nobody has, of the highest score; a new one if there is none
      ensures var bucket, out := Bucket(old(State()), domain), Out(old(State()), domain);
              var free := set s | s in bucket && s.health > -3.0 && s.uses < 50 && s.id !in out;
              && (free != {} ==> session in free && (forall s :: s in free ==> s.health <= session.health)
                                 && sessions == old(sessions))
              && (free == {} ==> session == Session(id, persona, proxy, 0.0, 0)
                                 && sessions == old(sessions)[domain := bucket + [session]])
              && checkedOut == old(checkedOut)[domain := out + {session.id}] && sweepCounter == old(sweepCounter)
    {
      var out := if domain in checkedOut then checkedOut[domain] else {};
      var bucket := if domain in sessions then sessions[domain] else [];
      var live := Available(bucket, out);
      AvailableMembers(bucket, out);
      ghost var free := set s | s in bucket && s.health > -3.0 && s.uses < 50 && s.id !in out;
      assert forall s :: s in live <==> s in free;
      if live != [] {
        ghost var i := HealthiestIsFirstMaximum(live);
        assert live[i] in live;
        session := MaxByHealth(live);
      } else {
        session := Session(id, persona, proxy, 0.0, 0);
        sessions := sessions[domain := bucket + [session]];
      }
      checkedOut := checkedOut[domain := out + {session.id}];
    }

    static method MaxByHealth(live: seq<Session>) returns (best: Session)
      requires live != []
      ensures best == Healthiest(live)
    {
      best := live[0];
      for i := 1 to |live|
        invariant best == Healthiest(live[..i])
      {
        assert live[..i + 1][..i] == live[..i];
        if live[i].health > best.health {
          best := live[i];
        }
      }
      assert live[..|live|] == live;
    }

    method Release(domain: Domain, session: Session, success: bool, blocked: bool) returns (updated: Session)
      modifies this
      ensures updated == session.ScoreOutcome(success, blocked)
      ensures updated.id == session.id && updated.persona == session.persona && updated.proxy == session.proxy
      ensures updated.uses == session.uses + 1
      ensures updated.health - session.health == if blocked then -3.0 else if success then 1.0 else 0.0
      ensures State() == AfterTick(AfterReturn(old(State()), domain, updated))
    {
      updated := session.ScoreOutcome(success, blocked);
      var bucket := if domain in sessions then sessions[domain] else [];
      var stored := Store(bucket, updated);
      sessions := sessions[domain := stored];
      if domain in checkedOut {
        checkedOut := checkedOut[domain := checkedOut[domain] - {session.id}];
      }
      SweepIfDue();
    }

    static method Store(bucket: seq<Session>, updated: Session) returns (stored: seq<Session>)
      ensures stored == Replaced(bucket, updated)
    {
      for i := 0 to |bucket|
        invariant Replaced(bucket, updated) == bucket[..i] + Replaced(bucket[i..], updated)
      {
        ReplacedFrom(bucket, i, updated);
        if bucket[i].id == updated.id {
          return bucket[..i] + [updated] + bucket[i + 1..];
        }
      }
      return bucket + [updated];
    }

    method SweepIfDue()
      modifies this
      ensures State() == AfterTick(old(State()))
      ensures sweepCounter == old(sweepCounter) + 1
      ensures sweepCounter % 50 != 0 ==> sessions == old(sessions) && checkedOut == old(checkedOut)
      // a due sweep keeps exactly the domains with a session left to use, as they are
      ensures sweepCounter % 50 == 0 ==>
                && (forall d :: d in sessions <==>
                      d in old(sessions) && exists s :: s in old(sessions)[d] && s.health > -3.0 && s.uses < 50)
                && (forall d :: d in sessions ==> sessions[d] == old(sessions)[d])
                && (forall d :: d in checkedOut <==> d in old(checkedOut) && (d in sessions || d !in old(sessions)))
                && (forall d :: d in checkedOut ==> checkedOut[d] == old(checkedOut)[d])
    {
      sweepCounter := sweepCounter + 1;
      if sweepCounter % SWEEP_INTERVAL_RELEASES != 0 {
        return;
      }
      var doomed := Doomed(sessions);
      while doomed != {}
        invariant doomed <= Doomed(old(sessions)) && sweepCounter == old(sweepCounter) + 1
        invariant sessions == old(sessions) - (Doomed(old(sessions)) - doomed)
        invariant checkedOut == old(checkedOut) - (Doomed(old(sessions)) - doomed)
        decreases |doomed|
      {
        var d :| d in doomed;
        sessions := sessions - {d};
        checkedOut := checkedOut - {d};
        doomed := doomed - {d};
      }
    }
  }

  lemma ReplacedFrom(bucket: seq<Session>, i: nat, updated: Session)
    requires i < |bucket|
    ensures bucket[..i] + Replaced(bucket[i..], updated)
         == if bucket[i].id == updated.id then bucket[..i] + [updated] + bucket[i + 1..]
            else bucket[..i + 1] + Replaced(bucket[i + 1..], updated)
  {
    var rest := bucket[i..];
    assert rest[0] == bucket[i] && rest[1..] == bucket[i + 1..];
    if bucket[i].id == updated.id {
      Associates(bucket[..i], [updated], bucket[i + 1..]);
    } else {
      Associates(bucket[..i], [bucket[i]], Replaced(bucket[i + 1..], updated));
      assert bucket[..i] + [bucket[i]] == bucket[..i + 1];
    }
  }

  // The first session with the id is replaced where it is; without one the updated copy is appended.
  lemma {:induction false} ReplacedExactly(bucket: seq<Session>, updated: Session) returns (i: nat)
    ensures i <= |bucket| && forall j :: 0 <= j < i ==> bucket[j].id != updated.id
    ensures i < |bucket| ==> bucket[i].id == updated.id && Replaced(bucket, updated) == bucket[i := updated]
    ensures i == |bucket| ==> Replaced(bucket, updated) == bucket + [updated]
  {
    i := 0;
    if bucket != [] && bucket[0].id != updated.id {
      i := ReplacedExactly(bucket[1..], updated);
      assert bucket == [bucket[0]] + bucket[1..];
      i := i + 1;
    }
  }

  lemma Associates(a: seq<Session>, b: seq<Session>, c: seq<Session>)
    ensures a + (b + c) == a + b + c
  {
  }

  ghost predicate FirstMaximum(live: seq<Session>, i: nat) {
    && i < |live|
    && (forall j :: 0 <= j < |live| ==> live[j].health <= live[i].health)
    && (forall j :: 0 <= j < i ==> live[j].health < live[i].health)
  }

  lemma {:induction false} HealthiestIsFirstMaximum(live: seq<Session>) returns (i: nat)
    requires live != []
    ensures FirstMaximum(live, i) && Healthiest(live) == live[i]
  {
    var n := |live| - 1;
    i := 0;
    if n > 0 {
      i := HealthiestIsFirstMaximum(live[..n]);
      assert forall j :: 0 <= j < n ==> live[..n][j] == live[j];
      if live[n].health > live[i].health {
        i := n;
      }
    }
  }

  lemma {:induction false} AvailableMembers(bucket: seq<Session>, out: set<Id>)
    ensures forall s :: s in Available(bucket, out) <==> s in bucket && !s.Retired() && s.id !in out
  {
    if bucket != [] {
      AvailableMembers(bucket[1..], out);
      assert bucket == [bucket[0]] + bucket[1..];
    }
  }

  // --- Runs in which every lease is released once ---

  datatype Loan = Loan(domain: Domain, session: Session)

  datatype Event =
    | Leased(domain: Domain, id: Id)
    | Returned(domain: Domain, id: Id, success: bool, blocked: bool)

  // `loans` are the leases handed out and not released yet, under the number of their lease;
  // `minted` the ids drawn so far, with their domains.
  datatype World = World(pool: Pool, loans: map<nat, Loan>, minted: set<(Domain, Id)>, log: seq<Event>)

  // A release checks the session in, may wait, and only then ticks the sweep counter, so ticks
  // are steps of their own and come at any time.
  datatype Step =
    | Lease(domain: Domain, id: Id, persona: string, proxy: Option<string>)
    | Return(lease: nat, success: bool, blocked: bool)
    | Tick

  const START := World(Pool(map[], map[], 0), map[], {}, [])

  predicate Fits(w: World, step: Step) {
    match step
    case Lease(d, id, _, _) => (d, id) !in w.minted
    case Return(lease, _, _) => lease in w.loans
    case Tick => true
  }

  function Fresh(step: Step): Session
    requires step.Lease?
  {
    Session(step.id, step.persona, step.proxy, 0.0, 0)
  }

  function After(w: World, step: Step): World
    requires Fits(w, step)
  {
    match step
    case Lease(d, _, _, _) =>
      var s := Chosen(w.pool, d, Fresh(step));
      World(AfterLease(w.pool, d, Fresh(step)), w.loans[|w.log| := Loan(d, s)], w.minted + {(d, s.id)},
            w.log + [Leased(d, s.id)])
    case Return(lease, success, blocked) =>
      var Loan(d, s) := w.loans[lease];
      World(AfterReturn(w.pool, d, s.ScoreOutcome(success, blocked)), w.loans - {lease}, w.minted,
            w.log + [Returned(d, s.id, success, blocked)])
    case Tick => w.(pool := AfterTick(w.pool))
  }

  ghost predicate Leads(from: World, steps: seq<Step>, w: World)
    decreases |steps|
  {
    if steps == [] then w == from
    else Fits(from, steps[0]) && Leads(After(from, steps[0]), steps[1..], w)
  }

  // --- What a log says ---

  predicate About(e: Event, d: Domain, id: Id) { e.domain == d && e.id == id }

  function Outstanding(log: seq<Event>, d: Domain): int {
    if log == [] then 0
    else
      var e := log[|log| - 1];
      Outstanding(log[..|log| - 1], d) + if e.domain != d then 0 else if e.Leased? then 1 else -1
  }

  // The most leases of the domain that were ever out together.
  function Peak(log: seq<Event>, d: Domain): int {
    if log == [] then 0
    else
      var before, now := Peak(log[..|log| - 1], d), Outstanding(log, d);
      if now > before then now else before
  }

  function Releases(log: seq<Event>, d: Domain, id: Id): nat {
    if log == [] then 0
    else
      var e := log[|log| - 1];
      Releases(log[..|log| - 1], d, id) + if About(e, d, id) && e.Returned? then 1 else 0
  }

  function Blocks(log: seq<Event>, d: Domain, id: Id): nat {
    if log == [] then 0
    else
      var e := log[|log| - 1];
      Blocks(log[..|log| - 1], d, id) + if About(e, d, id) && e.Returned? && e.blocked then 1 else 0
  }

  function Successes(log: seq<Event>, d: Domain, id: Id): nat {
    if log == [] then 0
    else
      var e := log[|log| - 1];
      Successes(log[..|log| - 1], d, id) + if About(e, d, id) && e.Returned? && e.success && !e.blocked then 1 else 0
  }

  function Score(log: seq<Event>, d: Domain, id: Id): int { Successes(log, d, id) - 3 * Blocks(log, d, id) }

  predicate RetiredBy(log: seq<Event>, d: Domain, id: Id) {
    Score(log, d, id) <= -3 || Releases(log, d, id) >= MAX_USES
  }

  lemma LogGrows(log: seq<Event>, e: Event)
    ensures forall d :: Outstanding(log + [e], d)
                     == Outstanding(log, d) + if e.domain != d then 0 else if e.Leased? then 1 else -1
    ensures forall d :: Peak(log + [e], d) >= Peak(log, d) && Peak(log + [e], d) >= Outstanding(log + [e], d)
    ensures forall d, id :: !(About(e, d, id) && e.Returned?) ==>
              && Releases(log + [e], d, id) == Releases(log, d, id)
              && Score(log + [e], d, id) == Score(log, d, id)
  {
    assert (log + [e])[..|log + [e]| - 1] == log;
  }

  lemma LogScores(log: seq<Event>, e: Event)
    requires e.Returned?
    ensures Releases(log + [e], e.domain, e.id) == Releases(log, e.domain, e.id) + 1
    ensures Score(log + [e], e.domain, e.id)
         == Score(log, e.domain, e.id) + if e.blocked then -3 else if e.success then 1 else 0
  {
    assert (log + [e])[..|log + [e]| - 1] == log;
  }

  // --- The invariant ---

  ghost predicate DistinctIds(bucket: seq<Session>) {
    forall i, j :: 0 <= i < j < |bucket| ==> bucket[i].id != bucket[j].id
  }

  ghost predicate Scored(s: Session, d: Domain, log: seq<Event>) {
    s.uses == Releases(log, d, s.id) && s.health == Score(log, d, s.id) as real
  }

  // Every bucket holds different ids, all minted, with the scores their history gives.
  ghost predicate BucketsInv(w: World) {
    && (forall d :: DistinctIds(Bucket(w.pool, d)))
    && (forall d, s :: s in Bucket(w.pool, d) ==> (d, s.id) in w.minted && Scored(s, d, w.log))
  }

  // A leased session is in its bucket as it was leased, checked out and not retired, and no
  // other lease has it.
  ghost predicate LoansInv(w: World) {
    && (forall n :: n in w.loans ==> n < |w.log| && OnLoan(w.pool, w.loans[n]))
    && (forall m, n :: m in w.loans && n in w.loans && m != n ==> !Clash(w.loans[m], w.loans[n]))
  }

  ghost predicate OnLoan(p: Pool, loan: Loan) {
    && loan.session in Bucket(p, loan.domain) && !loan.session.Retired()
    && loan.session.id in Out(p, loan.domain)
  }

  ghost predicate Clash(a: Loan, b: Loan) { a.domain == b.domain && a.session.id == b.session.id }

  ghost predicate Held(w: World, d: Domain, id: Id) {
    exists n :: n in w.loans && w.loans[n].domain == d && w.loans[n].session.id == id
  }

  // A checked-out id belongs to a lease still out, and the log counts them.
  ghost predicate OutInv(w: World) {
    && (forall d, id :: id in Out(w.pool, d) ==> Held(w, d, id))
    && (forall d :: |Out(w.pool, d)| == Outstanding(w.log, d))
  }

  ghost predicate InBucket(p: Pool, d: Domain, id: Id) {
    exists s :: s in Bucket(p, d) && s.id == id
  }

  // An id that is in no bucket any more had retired, and nobody is used beyond the limit.
  ghost predicate RetiredInv(w: World) {
    && (forall d, id :: (d, id) in w.minted && !InBucket(w.pool, d, id) ==> RetiredBy(w.log, d, id))
    && (forall d, id :: Releases(w.log, d, id) <= MAX_USES)
    && (forall d, id :: (d, id) !in w.minted ==> Releases(w.log, d, id) == Score(w.log, d, id) == 0)
  }

  ghost function LiveIds(bucket: seq<Session>): set<Id> { set s | s in bucket && !s.Retired() :: s.id }

  ghost predicate SizeInv(w: World) {
    forall d :: |LiveIds(Bucket(w.pool, d))| <= Peak(w.log, d)
  }

  ghost predicate Inv(w: World) {
    BucketsInv(w) && LoansInv(w) && OutInv(w) && RetiredInv(w) && SizeInv(w)
  }

  lemma RetiredMatches(s: Session, d: Domain, log: seq<Event>)
    requires Scored(s, d, log)
    ensures s.Retired() <==> RetiredBy(log, d, s.id)
  {
  }

  // --- Leasing ---

  // A lease hands out a live session nobody holds: one of the bucket, or a new one, which it
  // draws only when every live session of the domain is out.
  ghost predicate LeaseEffect(w: World, v: World, d: Domain, s: Session) {
    && v.log == w.log + [Leased(d, s.id)] && v.minted == w.minted + {(d, s.id)}
    && v.loans == w.loans[|w.log| := Loan(d, s)]
    && (forall e :: e != d ==> Bucket(v.pool, e) == Bucket(w.pool, e) && Out(v.pool, e) == Out(w.pool, e))
    && Out(v.pool, d) == Out(w.pool, d) + {s.id} && s.id !in Out(w.pool, d)
    && !s.Retired() && Scored(s, d, w.log)
    && ((s in Bucket(w.pool, d) && Bucket(v.pool, d) == Bucket(w.pool, d))
        || ((d, s.id) !in w.minted && Bucket(v.pool, d) == Bucket(w.pool, d) + [s]
            && LiveIds(Bucket(w.pool, d)) <= Out(w.pool, d)))
  }

  lemma OutIsMinted(w: World, d: Domain)
    requires BucketsInv(w) && LoansInv(w) && OutInv(w)
    ensures forall id :: id in Out(w.pool, d) ==> (d, id) in w.minted
  {
    forall id | id in Out(w.pool, d) ensures (d, id) in w.minted {
      assert Held(w, d, id);
      var n :| n in w.loans && w.loans[n].domain == d && w.loans[n].session.id == id;
      assert OnLoan(w.pool, w.loans[n]);
    }
  }

  // What the lease chooses from a non-empty list of available sessions.
  lemma ReusedIsLive(bucket: seq<Session>, out: set<Id>)
    requires Available(bucket, out) != []
    ensures var s := Healthiest(Available(bucket, out)); s in bucket && !s.Retired() && s.id !in out
  {
    AvailableMembers(bucket, out);
    var i := HealthiestIsFirstMaximum(Available(bucket, out));
  }

  lemma NoneIsLive(bucket: seq<Session>, out: set<Id>)
    requires Available(bucket, out) == []
    ensures LiveIds(bucket) <= out
  {
    AvailableMembers(bucket, out);
  }

  lemma LeaseReuses(w: World, step: Step)
    requires BucketsInv(w) && step.Lease? && Fits(w, step)
    requires Available(Bucket(w.pool, step.domain), Out(w.pool, step.domain)) != []
    ensures LeaseEffect(w, After(w, step), step.domain, Chosen(w.pool, step.domain, Fresh(step)))
  {
    ReusedIsLive(Bucket(w.pool, step.domain), Out(w.pool, step.domain));
  }

  lemma LeaseMints(w: World, step: Step)
    requires BucketsInv(w) && LoansInv(w) && OutInv(w) && RetiredInv(w) && step.Lease? && Fits(w, step)
    requires Available(Bucket(w.pool, step.domain), Out(w.pool, step.domain)) == []
    ensures LeaseEffect(w, After(w, step), step.domain, Chosen(w.pool, step.domain, Fresh(step)))
  {
    OutIsMinted(w, step.domain);
    NoneIsLive(Bucket(w.pool, step.domain), Out(w.pool, step.domain));
  }

  lemma LeaseHas(w: World, step: Step)
    requires BucketsInv(w) && LoansInv(w) && OutInv(w) && RetiredInv(w) && step.Lease? && Fits(w, step)
    ensures LeaseEffect(w, After(w, step), step.domain, Chosen(w.pool, step.domain, Fresh(step)))
  {
    if Available(Bucket(w.pool, step.domain), Out(w.pool, step.domain)) != [] {
      LeaseReuses(w, step);
    } else {
      LeaseMints(w, step);
    }
  }

  lemma LeaseBuckets(w: World, v: World, d: Domain, s: Session)
    requires BucketsInv(w) && LeaseEffect(w, v, d, s)
    ensures BucketsInv(v)
  {
    LogGrows(w.log, Leased(d, s.id));
    forall e ensures DistinctIds(Bucket(v.pool, e)) {
      assert DistinctIds(Bucket(w.pool, e));
    }
    forall e, t | t in Bucket(v.pool, e) ensures (e, t.id) in v.minted && Scored(t, e, v.log) {
      assert t in Bucket(w.pool, e) || (e == d && t == s);
    }
  }

  lemma LeaseRetired(w: World, v: World, d: Domain, s: Session)
    requires RetiredInv(w) && LeaseEffect(w, v, d, s)
    ensures RetiredInv(v)
  {
    LogGrows(w.log, Leased(d, s.id));
    assert s in Bucket(v.pool, d);
    forall e, id | (e, id) in v.minted && !InBucket(v.pool, e, id) ensures RetiredBy(v.log, e, id) {
      assert (e, id) in w.minted && !InBucket(w.pool, e, id);
      assert RetiredBy(w.log, e, id);
    }
  }

  lemma LeaseLoans(w: World, v: World, d: Domain, s: Session)
    requires LoansInv(w) && LeaseEffect(w, v, d, s)
    ensures LoansInv(v)
  {
    forall n | n in v.loans ensures n < |v.log| && OnLoan(v.pool, v.loans[n]) {
      if n != |w.log| {
        assert OnLoan(w.pool, w.loans[n]);
      }
    }
    forall m, n | m in v.loans && n in v.loans && m != n ensures !Clash(v.loans[m], v.loans[n]) {
      if m in w.loans && m != |w.log| {
        assert OnLoan(w.pool, w.loans[m]);
      }
      if n in w.loans && n != |w.log| {
        assert OnLoan(w.pool, w.loans[n]);
      }
    }
  }

  lemma LeaseOut(w: World, v: World, d: Domain, s: Session)
    requires OutInv(w) && LoansInv(w) && LeaseEffect(w, v, d, s)
    ensures forall e, id :: id in Out(v.pool, e) ==> Held(v, e, id)
  {
    forall e, id | id in Out(v.pool, e) ensures Held(v, e, id) {
      if e == d && id == s.id {
        assert |w.log| in v.loans;
      } else {
        assert Held(w, e, id);
        HeldStays(w, v, d, s, e, id);
      }
    }
  }

  lemma HeldStays(w: World, v: World, d: Domain, s: Session, e: Domain, id: Id)
    requires LoansInv(w) && LeaseEffect(w, v, d, s) && Held(w, e, id)
    ensures Held(v, e, id)
  {
    var n :| n in w.loans && w.loans[n].domain == e && w.loans[n].session.id == id;
    assert n in v.loans && v.loans[n] == w.loans[n];
  }

  lemma LeaseCount(w: World, v: World, d: Domain, s: Session)
    requires OutInv(w) && LeaseEffect(w, v, d, s)
    ensures forall e :: |Out(v.pool, e)| == Outstanding(v.log, e)
  {
    LogGrows(w.log, Leased(d, s.id));
    forall e ensures |Out(v.pool, e)| == Outstanding(v.log, e) {
      assert |Out(w.pool, e)| == Outstanding(w.log, e);
    }
  }

  // A domain that gets a new session has all its live ones out.
  lemma LeaseSizeOfMinted(bucket: seq<Session>, out: set<Id>, s: Session)
    requires LiveIds(bucket) <= out && s.id !in out && !s.Retired()
    ensures |LiveIds(bucket + [s])| <= |out| + 1
  {
    SubsetSize(LiveIds(bucket), out);
    assert LiveIds(bucket + [s]) <= LiveIds(bucket) + {s.id};
    SubsetSize(LiveIds(bucket + [s]), LiveIds(bucket) + {s.id});
  }

  lemma LeaseSize(w: World, v: World, d: Domain, s: Session)
    requires SizeInv(w) && OutInv(w) && LeaseEffect(w, v, d, s)
    ensures SizeInv(v)
  {
    LogGrows(w.log, Leased(d, s.id));
    forall e ensures |LiveIds(Bucket(v.pool, e))| <= Peak(v.log, e) {
      assert |LiveIds(Bucket(w.pool, e))| <= Peak(w.log, e);
      if e == d && Bucket(v.pool, d) != Bucket(w.pool, d) {
        LeaseSizeOfMinted(Bucket(w.pool, d), Out(w.pool, d), s);
        assert |Out(w.pool, d)| == Outstanding(w.log, d);
      }
    }
  }

  // --- Returning ---

  lemma {:induction false} ReplacedAt(bucket: seq<Session>, i: nat, updated: Session)
    requires DistinctIds(bucket) && i < |bucket| && bucket[i].id == updated.id
    ensures Replaced(bucket, updated) == bucket[i := updated]
  {
    if i > 0 {
      ReplacedAt(bucket[1..], i - 1, updated);
    }
  }

  // A return replaces the leased session, where it is, by its scored copy.
  ghost predicate ReturnEffect(w: World, v: World, n: nat, i: nat, e: Event) {
    && n in w.loans && v.loans == w.loans - {n} && OnLoan(w.pool, w.loans[n])
    && var Loan(d, s) := w.loans[n];
      && e.Returned? && About(e, d, s.id)
      && v.log == w.log + [e] && v.minted == w.minted
      && (forall f :: f != d ==> Bucket(v.pool, f) == Bucket(w.pool, f) && Out(v.pool, f) == Out(w.pool, f))
      && Out(v.pool, d) == Out(w.pool, d) - {s.id}
      && i < |Bucket(w.pool, d)| && Bucket(w.pool, d)[i] == s
      && Bucket(v.pool, d) == Bucket(w.pool, d)[i := s.ScoreOutcome(e.success, e.blocked)]
  }

  lemma ReturnHas(w: World, step: Step) returns (i: nat, e: Event)
    requires step.Return? && Fits(w, step) && OnLoan(w.pool, w.loans[step.lease])
    requires DistinctIds(Bucket(w.pool, w.loans[step.lease].domain))
    ensures ReturnEffect(w, After(w, step), step.lease, i, e)
  {
    var Loan(d, s) := w.loans[step.lease];
    e := Returned(d, s.id, step.success, step.blocked);
    i :| 0 <= i < |Bucket(w.pool, d)| && Bucket(w.pool, d)[i] == s;
    ReplacedAt(Bucket(w.pool, d), i, s.ScoreOutcome(step.success, step.blocked));
  }

  lemma ReturnBuckets(w: World, v: World, n: nat, i: nat, e: Event)
    requires BucketsInv(w) && ReturnEffect(w, v, n, i, e)
    ensures BucketsInv(v)
  {
    var Loan(d, s) := w.loans[n];
    LogGrows(w.log, e);
    LogScores(w.log, e);
    assert Scored(s, d, w.log);
    forall f ensures DistinctIds(Bucket(v.pool, f)) {
      assert DistinctIds(Bucket(w.pool, f));
    }
    forall f, t | t in Bucket(v.pool, f) ensures (f, t.id) in v.minted && Scored(t, f, v.log) {
      if f == d {
        var j :| 0 <= j < |Bucket(v.pool, d)| && Bucket(v.pool, d)[j] == t;
        assert DistinctIds(Bucket(w.pool, d));
        if j != i {
          assert Bucket(w.pool, d)[j] == t && t in Bucket(w.pool, f);
        }
      }
    }
  }

  lemma StillThere(w: World, v: World, n: nat, i: nat, e: Event, d: Domain, id: Id)
    requires ReturnEffect(w, v, n, i, e) && InBucket(w.pool, d, id)
    ensures InBucket(v.pool, d, id)
  {
    var t :| t in Bucket(w.pool, d) && t.id == id;
    var j :| 0 <= j < |Bucket(w.pool, d)| && Bucket(w.pool, d)[j] == t;
    assert Bucket(v.pool, d)[j].id == id;
  }

  lemma ReturnRetired(w: World, v: World, n: nat, i: nat, e: Event)
    requires BucketsInv(w) && RetiredInv(w) && ReturnEffect(w, v, n, i, e)
    ensures RetiredInv(v)
  {
    var Loan(d, s) := w.loans[n];
    LogGrows(w.log, e);
    LogScores(w.log, e);
    assert Scored(s, d, w.log);
    assert InBucket(w.pool, d, s.id);
    forall f, id | (f, id) in v.minted && !InBucket(v.pool, f, id) ensures RetiredBy(v.log, f, id) {
      if InBucket(w.pool, f, id) {
        StillThere(w, v, n, i, e, f, id);
      }
      assert RetiredBy(w.log, f, id);
    }
  }

  lemma ReturnLoans(w: World, v: World, n: nat, i: nat, e: Event)
    requires LoansInv(w) && ReturnEffect(w, v, n, i, e)
    ensures LoansInv(v)
  {
    var d := w.loans[n].domain;
    forall m | m in v.loans ensures m < |v.log| && OnLoan(v.pool, v.loans[m]) {
      assert OnLoan(w.pool, w.loans[m]) && !Clash(w.loans[m], w.loans[n]);
      if v.loans[m].domain == d {
        var j :| 0 <= j < |Bucket(w.pool, d)| && Bucket(w.pool, d)[j] == v.loans[m].session;
        assert Bucket(v.pool, d)[j] == v.loans[m].session;
      }
    }
    forall l, m | l in v.loans && m in v.loans && l != m ensures !Clash(v.loans[l], v.loans[m]) {
      assert !Clash(w.loans[l], w.loans[m]);
    }
  }

  lemma ReturnOut(w: World, v: World, n: nat, i: nat, e: Event)
    requires OutInv(w) && ReturnEffect(w, v, n, i, e)
    ensures OutInv(v)
  {
    LogGrows(w.log, e);
    forall f, id | id in Out(v.pool, f) ensures Held(v, f, id) {
      assert Held(w, f, id);
      var m :| m in w.loans && w.loans[m].domain == f && w.loans[m].session.id == id;
      assert m in v.loans;
    }
    forall f ensures |Out(v.pool, f)| == Outstanding(v.log, f) {
      assert |Out(w.pool, f)| == Outstanding(w.log, f);
    }
  }

  lemma ReturnSize(w: World, v: World, n: nat, i: nat, e: Event)
    requires SizeInv(w) && ReturnEffect(w, v, n, i, e)
    ensures SizeInv(v)
  {
    var Loan(d, s) := w.loans[n];
    LogGrows(w.log, e);
    forall f ensures |LiveIds(Bucket(v.pool, f))| <= Peak(v.log, f) {
      assert |LiveIds(Bucket(w.pool, f))| <= Peak(w.log, f);
      if f == d {
        assert s.id in LiveIds(Bucket(w.pool, d));
        assert LiveIds(Bucket(v.pool, d)) <= LiveIds(Bucket(w.pool, d));
        SubsetSize(LiveIds(Bucket(v.pool, d)), LiveIds(Bucket(w.pool, d)));
      }
    }
  }

  // --- Sweeping ---

  // The sweep removes no domain with a session on loan.
  lemma SweepStrandsNoLease(p: Pool, loan: Loan)
    requires OnLoan(p, loan)
    ensures loan.domain !in Doomed(p.sessions) && OnLoan(AfterTick(p), loan)
  {
    var bucket := Bucket(p, loan.domain);
    var i :| 0 <= i < |bucket| && bucket[i] == loan.session;
  }

  // Whatever a tick removes was retired and not checked out.
  ghost predicate TickEffect(w: World, v: World, d: Domain) {
    && Out(v.pool, d) == Out(w.pool, d)
    && (Bucket(v.pool, d) == Bucket(w.pool, d) || (Bucket(v.pool, d) == [] && AllRetired(Bucket(w.pool, d))))
  }

  // A domain that is swept has nothing checked out.
  lemma DoomedIsIdle(w: World, d: Domain)
    requires LoansInv(w) && OutInv(w) && d in Doomed(w.pool.sessions)
    ensures Out(w.pool, d) == {}
  {
    forall n | n in w.loans ensures w.loans[n].domain != d {
      SweepStrandsNoLease(w.pool, w.loans[n]);
    }
    forall id ensures id !in Out(w.pool, d) {
      assert !Held(w, d, id);
    }
  }

  lemma TickHas(w: World, d: Domain)
    requires Inv(w)
    ensures TickEffect(w, After(w, Tick), d)
  {
    if d in Doomed(w.pool.sessions) {
      DoomedIsIdle(w, d);
    }
  }

  lemma TickKeeps(w: World)
    requires Inv(w)
    ensures Inv(After(w, Tick))
  {
    var v := After(w, Tick);
    forall d ensures TickEffect(w, v, d) {
      TickHas(w, d);
    }
    forall n | n in v.loans ensures OnLoan(v.pool, v.loans[n]) {
      SweepStrandsNoLease(w.pool, w.loans[n]);
    }
    forall d, id | id in Out(v.pool, d) ensures Held(v, d, id) {
      assert TickEffect(w, v, d) && Held(w, d, id);
    }
    forall d ensures |Out(v.pool, d)| == Outstanding(v.log, d) {
      assert TickEffect(w, v, d);
    }
    forall d, id | (d, id) in v.minted && !InBucket(v.pool, d, id) ensures RetiredBy(v.log, d, id) {
      assert TickEffect(w, v, d);
      if InBucket(w.pool, d, id) {
        var s :| s in Bucket(w.pool, d) && s.id == id;
        RetiredMatches(s, d, w.log);
      }
    }
    forall d ensures |LiveIds(Bucket(v.pool, d))| <= Peak(v.log, d) && DistinctIds(Bucket(v.pool, d)) {
      assert TickEffect(w, v, d) && DistinctIds(Bucket(w.pool, d));
      SubsetSize(LiveIds(Bucket(v.pool, d)), LiveIds(Bucket(w.pool, d)));
    }
    forall d, s | s in Bucket(v.pool, d) ensures (d, s.id) in v.minted && Scored(s, d, v.log) {
      assert TickEffect(w, v, d);
    }
  }

  // --- Every run ---

  lemma InvStep(w: World, step: Step)
    requires Inv(w) && Fits(w, step)
    ensures Inv(After(w, step))
  {
    var v := After(w, step);
    match step
    case Lease(d, _, _, _) =>
      var s := Chosen(w.pool, d, Fresh(step));
      LeaseHas(w, step);
      LeaseBuckets(w, v, d, s);
      LeaseRetired(w, v, d, s);
      LeaseLoans(w, v, d, s);
      LeaseOut(w, v, d, s);
      LeaseCount(w, v, d, s);
      LeaseSize(w, v, d, s);
    case Return(n, _, _) =>
      assert OnLoan(w.pool, w.loans[n]) && DistinctIds(Bucket(w.pool, w.loans[n].domain));
      var i, e := ReturnHas(w, step);
      ReturnBuckets(w, v, n, i, e);
      ReturnRetired(w, v, n, i, e);
      ReturnLoans(w, v, n, i, e);
      ReturnOut(w, v, n, i, e);
      ReturnSize(w, v, n, i, e);
    case Tick =>
      TickKeeps(w);
  }

  lemma {:induction false} InvRun(from: World, steps: seq<Step>, w: World)
    requires Inv(from) && Leads(from, steps, w)
    ensures Inv(w)
    decreases |steps|
  {
    if steps != [] {
      InvStep(from, steps[0]);
      InvRun(After(from, steps[0]), steps[1..], w);
    }
  }

  // Leases of one domain that are out together have different sessions, each live in its bucket,
  // and exactly their ids are checked out.
  lemma ExclusiveLeases(steps: seq<Step>, w: World)
    requires Leads(START, steps, w)
    ensures forall m, n :: m in w.loans && n in w.loans && m != n ==> !Clash(w.loans[m], w.loans[n])
    ensures forall n :: n in w.loans ==>
              !w.loans[n].session.Retired() && w.loans[n].session in Bucket(w.pool, w.loans[n].domain)
    ensures forall d, id :: id in Out(w.pool, d) <==> Held(w, d, id)
  {
    InvRun(START, steps, w);
    forall n | n in w.loans
      ensures OnLoan(w.pool, w.loans[n])
    {
    }
  }

  // The pool of a domain never holds more live sessions than were ever out together.
  lemma PoolBoundedByPeak(steps: seq<Step>, w: World, d: Domain)
    requires Leads(START, steps, w)
    ensures |LiveIds(Bucket(w.pool, d))| <= Peak(w.log, d)
  {
    InvRun(START, steps, w);
  }

  // Uses are releases and the score is successes minus three times blocks, over the whole run.
  lemma ScoresAreHistory(steps: seq<Step>, w: World, d: Domain, s: Session)
    requires Leads(START, steps, w) && s in Bucket(w.pool, d)
    ensures s.uses == Releases(w.log, d, s.id) <= MAX_USES
    ensures s.health == (Successes(w.log, d, s.id) - 3 * Blocks(w.log, d, s.id)) as real
  {
    InvRun(START, steps, w);
    assert Scored(s, d, w.log);
  }

  // No session was leased when its history had retired it.
  ghost predicate LeasedLive(log: seq<Event>) {
    forall i :: 0 <= i < |log| && log[i].Leased? ==> !RetiredBy(log[..i], log[i].domain, log[i].id)
  }

  lemma LeasedLiveStep(w: World, step: Step)
    requires Inv(w) && LeasedLive(w.log) && Fits(w, step)
    ensures LeasedLive(After(w, step).log)
  {
    var v := After(w, step);
    if step.Lease? {
      var s := Chosen(w.pool, step.domain, Fresh(step));
      LeaseHas(w, step);
      RetiredMatches(s, step.domain, w.log);
    }
    forall i | 0 <= i < |v.log| && v.log[i].Leased? ensures !RetiredBy(v.log[..i], v.log[i].domain, v.log[i].id) {
      assert v.log[..i] == w.log[..i];
      assert i == |w.log| ==> w.log[..i] == w.log;
    }
  }

  lemma {:induction false} RetiredNeverLeased(from: World, steps: seq<Step>, w: World)
    requires Inv(from) && LeasedLive(from.log) && Leads(from, steps, w)
    ensures LeasedLive(w.log)
    decreases |steps|
  {
    if steps != [] {
      InvStep(from, steps[0]);
      LeasedLiveStep(from, steps[0]);
      RetiredNeverLeased(After(from, steps[0]), steps[1..], w);
    }
  }

  // --- Who a session is ---

  // Wherever the session of this id is, in its bucket or on loan, it has this persona and proxy.
  ghost predicate IsFace(w: World, d: Domain, id: Id, persona: string, proxy: Option<string>) {
    && (d, id) in w.minted
    && (forall s :: s in Bucket(w.pool, d) && s.id == id ==> s.persona == persona && s.proxy == proxy)
    && (forall n :: n in w.loans && w.loans[n].domain == d && w.loans[n].session.id == id ==>
          w.loans[n].session.persona == persona && w.loans[n].session.proxy == proxy)
  }

  lemma FaceLeased(w: World, v: World, e: Domain, t: Session, d: Domain, id: Id, persona: string,
                   proxy: Option<string>)
    requires LeaseEffect(w, v, e, t) && LoansInv(w) && IsFace(w, d, id, persona, proxy)
    ensures IsFace(v, d, id, persona, proxy)
  {
    forall s | s in Bucket(v.pool, d) && s.id == id ensures s.persona == persona && s.proxy == proxy {
      assert s in Bucket(w.pool, d);
    }
  }

  lemma FaceReturned(w: World, v: World, n: nat, i: nat, e: Event, d: Domain, id: Id, persona: string,
                     proxy: Option<string>)
    requires ReturnEffect(w, v, n, i, e) && IsFace(w, d, id, persona, proxy)
    ensures IsFace(v, d, id, persona, proxy)
  {
    forall s | s in Bucket(v.pool, d) && s.id == id ensures s.persona == persona && s.proxy == proxy {
      var j :| 0 <= j < |Bucket(v.pool, d)| && Bucket(v.pool, d)[j] == s;
      if w.loans[n].domain == d {
        assert Bucket(w.pool, d)[j] in Bucket(w.pool, d);
      }
    }
  }

  lemma FaceStep(w: World, step: Step, d: Domain, id: Id, persona: string, proxy: Option<string>)
    requires Inv(w) && IsFace(w, d, id, persona, proxy) && Fits(w, step)
    ensures IsFace(After(w, step), d, id, persona, proxy)
  {
    match step
    case Lease(e, _, _, _) =>
      LeaseHas(w, step);
      FaceLeased(w, After(w, step), e, Chosen(w.pool, e, Fresh(step)), d, id, persona, proxy);
    case Return(n, _, _) =>
      assert OnLoan(w.pool, w.loans[n]) && DistinctIds(Bucket(w.pool, w.loans[n].domain));
      var i, e := ReturnHas(w, step);
      FaceReturned(w, After(w, step), n, i, e, d, id, persona, proxy);
    case Tick =>
      TickHas(w, d);
  }

  // A leased session keeps its persona and its proxy: in every later state of the run, whatever is
  // leased, returned or swept in between, the session of its id has the same ones.
  lemma {:induction false} FaceIsForGood(from: World, steps: seq<Step>, w: World, d: Domain, id: Id, persona: string,
                                         proxy: Option<string>)
    requires Inv(from) && IsFace(from, d, id, persona, proxy) && Leads(from, steps, w)
    ensures IsFace(w, d, id, persona, proxy)
    decreases |steps|
  {
    if steps != [] {
      InvStep(from, steps[0]);
      FaceStep(from, steps[0], d, id, persona, proxy);
      FaceIsForGood(After(from, steps[0]), steps[1..], w, d, id, persona, proxy);
    }
  }

  // A lease that draws a new pair hands out the persona and proxy drawn, from then on under its id.
  lemma DrawnFaceIsKept(steps: seq<Step>, w: World, lease: Step, more: seq<Step>, later: World)
    requires Leads(START, steps, w) && lease.Lease? && Fits(w, lease)
    requires Leads(After(w, lease), more, later)
    ensures var s := Chosen(w.pool, lease.domain, Fresh(lease));
            && IsFace(later, lease.domain, s.id, s.persona, s.proxy)
            && ((lease.domain, s.id) !in w.minted ==> s.persona == lease.persona && s.proxy == lease.proxy)
  {
    InvRun(START, steps, w);
    InvStep(w, lease);
    LeaseHas(w, lease);
    var v, s := After(w, lease), Chosen(w.pool, lease.domain, Fresh(lease));
    LeasedFace(w, v, lease.domain, s);
    FaceIsForGood(v, more, later, lease.domain, s.id, s.persona, s.proxy);
  }

  lemma LeasedFace(w: World, v: World, d: Domain, s: Session)
    requires Inv(w) && Inv(v) && LeaseEffect(w, v, d, s)
    ensures IsFace(v, d, s.id, s.persona, s.proxy)
  {
    var bucket := Bucket(v.pool, d);
    assert s in bucket && DistinctIds(bucket);
    forall n | n in v.loans && v.loans[n].domain == d && v.loans[n].session.id == s.id
      ensures v.loans[n].session == s
    {
      assert OnLoan(v.pool, v.loans[n]);
    }
  }

  // A session released twice after one lease is handed out while another lease still holds it,
  // so the runs above release each lease once.
  lemma DoubleReleaseShares(d: Domain, minted: Session, other: Session)
    requires minted.health == 0.0 && minted.uses == 0
    ensures var once := minted.ScoreOutcome(true, false);
            var returned := AfterReturn(AfterLease(START.pool, d, minted), d, once);
            var again := AfterReturn(AfterLease(returned, d, other), d, once);
            Chosen(returned, d, other) == once && Chosen(again, d, other) == once
  {
    var once := minted.ScoreOutcome(true, false);
    var leased := AfterLease(START.pool, d, minted);
    assert Bucket(leased, d) == [minted] && Out(leased, d) == {minted.id};
    var returned := AfterReturn(leased, d, once);
    OnlyOne(returned, d, once, other);
    var again := AfterReturn(AfterLease(returned, d, other), d, once);
    OnlyOne(again, d, once, other);
  }

  lemma OnlyOne(p: Pool, d: Domain, s: Session, other: Session)
    requires Bucket(p, d) == [s] && Out(p, d) == {} && !s.Retired()
    ensures Chosen(p, d, other) == s
    ensures Bucket(AfterLease(p, d, other), d) == [s] && Out(AfterLease(p, d, other), d) == {s.id}
  {
    assert Available([s], {}) == [s];
  }
}
