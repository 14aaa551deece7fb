// The local LRU cache and the two-level cache built on it.
//
// A value that a caller stores may be Python's None, so a stored value is an Option. The shared
// level keeps what serialisation makes of a value: `encode` is that round trip, and it may raise.

module Cache {
  import opened Wrappers

  type Key = string

  // --- The local level ---

  // Oldest key first.
  datatype Lru<V> = Lru(order: seq<Key>, vals: map<Key, V>)

  function Without(s: seq<Key>, k: Key): seq<Key> {
    if s == [] then [] else (if s[0] == k then [] else [s[0]]) + Without(s[1..], k)
  }

  function AfterGet<V>(c: Lru<V>, k: Key): Lru<V> {
    if k in c.vals then c.(order := Without(c.order, k) + [k]) else c
  }

  function Evict<V>(c: Lru<V>, maxsize: int): Lru<V> {
    if |c.order| > maxsize && c.order != [] then Lru(c.order[1..], c.vals - {c.order[0]}) else c
  }

  function AfterSet<V>(c: Lru<V>, k: Key, v: V, maxsize: int): Lru<V> {
    Evict(Lru(Without(c.order, k) + [k], c.vals[k := v]), maxsize)
  }

  ghost predicate Distinct(s: seq<Key>) {
    s == [] || (s[0] !in s[1..] && Distinct(s[1..]))
  }

  ghost predicate Valid<V>(c: Lru<V>) {
    Distinct(c.order) && forall k :: k in c.vals <==> k in c.order
  }

  function Capacity(maxsize: int): nat { if maxsize <= 0 then 0 else maxsize }

  class LocalLRUCache<V> {
    var order: seq<Key>
    var vals: map<Key, V>
    const maxsize: int

    ghost function State(): Lru<V>
      reads this
    {
      Lru(order, vals)
    }

    constructor (size: int)
      ensures State() == Lru([], map[]) && maxsize == size
    {
      order, vals, maxsize := [], map[], size;
    }

    method MoveToEnd(k: Key)
      modifies this`order
      ensures order == Without(old(order), k) + [k]
    {
      var rest := [];
      for i := 0 to |order|
        invariant order == old(order) && rest + Without(order[i..], k) == Without(order, k)
      {
        WithoutFrom(order, i, k, rest);
        if order[i] != k {
          rest := rest + [order[i]];
        }
      }
      assert order[|order|..] == [];
      order := rest + [k];
    }

    method Get(k: Key) returns (found: Option<V>)
      modifies this`order
      ensures State() == AfterGet(old(State()), k)
      ensures found == if k in vals then Some(vals[k]) else None
    {
      if k in vals {
        MoveToEnd(k);
        return Some(vals[k]);
      }
      return None;
    }

    method Set(k: Key, v: V)
      modifies this`order, this`vals
      ensures State() == AfterSet(old(State()), k, v, maxsize)
    {
      vals := vals[k := v];
      MoveToEnd(k);
      if |order| > maxsize {
        vals := vals - {order[0]};
        order := order[1..];
      }
    }
  }

  lemma WithoutFrom(s: seq<Key>, i: nat, k: Key, done: seq<Key>)
    requires i < |s|
    ensures done + Without(s[i..], k) == (if s[i] == k then done else done + [s[i]]) + Without(s[i + 1..], k)
  {
    assert s[i..][1..] == s[i + 1..];
    var rest := Without(s[i + 1..], k);
    if s[i] == k {
      assert [] + rest == rest;
    } else {
      assert done + ([s[i]] + rest) == done + [s[i]] + rest;
    }
  }

  lemma {:induction false} WithoutMembers(s: seq<Key>, k: Key)
    ensures forall x :: x in Without(s, k) <==> x in s && x != k
  {
    if s != [] {
      WithoutMembers(s[1..], k);
      assert s == [s[0]] + s[1..];
    }
  }

  lemma {:induction false} WithoutDistinct(s: seq<Key>, k: Key)
    requires Distinct(s)
    ensures Distinct(Without(s, k))
    ensures |Without(s, k)| == |s| - if k in s then 1 else 0
  {
    if s != [] {
      WithoutDistinct(s[1..], k);
      WithoutMembers(s[1..], k);
      if s[0] == k {
        assert [] + Without(s[1..], k) == Without(s[1..], k);
      } else {
        assert ([s[0]] + Without(s[1..], k))[1..] == Without(s[1..], k);
      }
    }
  }

  lemma {:induction false} WithoutAbsent(s: seq<Key>, k: Key)
    requires k !in s
    ensures Without(s, k) == s
  {
    if s != [] {
      WithoutAbsent(s[1..], k);
    }
  }

  lemma {:induction false} DistinctSnoc(s: seq<Key>, k: Key)
    requires Distinct(s) && k !in s
    ensures Distinct(s + [k])
  {
    if s == [] {
      assert s + [k] == [k];
    } else {
      DistinctSnoc(s[1..], k);
      assert (s + [k])[1..] == s[1..] + [k];
    }
  }

  // Moving a key to the end leaves the same keys, each once.
  lemma Moved(s: seq<Key>, k: Key)
    requires Distinct(s)
    ensures Distinct(Without(s, k) + [k])
    ensures forall x :: x in Without(s, k) + [k] <==> x in s || x == k
    ensures |Without(s, k) + [k]| == |s| + if k in s then 0 else 1
  {
    WithoutMembers(s, k);
    WithoutDistinct(s, k);
    DistinctSnoc(Without(s, k), k);
  }

  lemma EvictValid<V>(c: Lru<V>, maxsize: int)
    requires Valid(c)
    ensures Valid(Evict(c, maxsize))
    ensures |c.order| <= Capacity(maxsize) + 1 ==> |Evict(c, maxsize).order| <= Capacity(maxsize)
  {
    if |c.order| > maxsize && c.order != [] {
      assert c.order == [c.order[0]] + c.order[1..];
    }
  }

  lemma AfterSetValid<V>(c: Lru<V>, k: Key, v: V, maxsize: int)
    requires Valid(c) && |c.order| <= Capacity(maxsize)
    ensures Valid(AfterSet(c, k, v, maxsize))
    ensures |AfterSet(c, k, v, maxsize).order| <= Capacity(maxsize)
  {
    Moved(c.order, k);
    EvictValid(Lru(Without(c.order, k) + [k], c.vals[k := v]), maxsize);
  }

  lemma AfterGetValid<V>(c: Lru<V>, k: Key)
    requires Valid(c)
    ensures Valid(AfterGet(c, k)) && |AfterGet(c, k).order| == |c.order|
  {
    Moved(c.order, k);
  }

  // --- Inclusion ---

  datatype Op<V> = Get(key: Key) | Set(key: Key, value: V)

  function After<V>(c: Lru<V>, op: Op<V>, maxsize: int): Lru<V> {
    match op
    case Get(k) => AfterGet(c, k)
    case Set(k, v) => AfterSet(c, k, v, maxsize)
  }

  function RunFrom<V>(c: Lru<V>, ops: seq<Op<V>>, maxsize: int): Lru<V> {
    if ops == [] then c else After(RunFrom(c, ops[..|ops| - 1], maxsize), ops[|ops| - 1], maxsize)
  }

  function Run<V>(ops: seq<Op<V>>, maxsize: int): Lru<V> { RunFrom(Lru([], map[]), ops, maxsize) }

  // The elements of s that are in `keep`, in order.
  function Restrict(s: seq<Key>, keep: set<Key>): seq<Key> {
    if s == [] then [] else (if s[0] in keep then [s[0]] else []) + Restrict(s[1..], keep)
  }

  lemma RestrictCons(x: Key, s: seq<Key>, keep: set<Key>)
    ensures Restrict([x] + s, keep) == (if x in keep then [x] else []) + Restrict(s, keep)
  {
    assert ([x] + s)[1..] == s;
  }

  lemma {:induction false} RestrictSnoc(s: seq<Key>, k: Key, keep: set<Key>)
    ensures Restrict(s + [k], keep) == Restrict(s, keep) + if k in keep then [k] else []
  {
    if s == [] {
      assert s + [k] == [k] + [];
      RestrictCons(k, [], keep);
    } else {
      assert s + [k] == [s[0]] + (s[1..] + [k]);
      RestrictCons(s[0], s[1..] + [k], keep);
      RestrictSnoc(s[1..], k, keep);
      Associates(if s[0] in keep then [s[0]] else [], Restrict(s[1..], keep), if k in keep then [k] else []);
    }
  }

  lemma Associates(a: seq<Key>, b: seq<Key>, c: seq<Key>)
    ensures a + (b + c) == a + b + c
  {
  }

  lemma {:induction false} RestrictAgree(s: seq<Key>, keep: set<Key>, other: set<Key>)
    requires forall x :: x in s ==> (x in keep <==> x in other)
    ensures Restrict(s, keep) == Restrict(s, other)
  {
    if s != [] {
      RestrictAgree(s[1..], keep, other);
    }
  }

  lemma {:induction false} RestrictAll(s: seq<Key>, keep: set<Key>)
    requires forall x :: x in s ==> x in keep
    ensures Restrict(s, keep) == s
  {
    if s != [] {
      RestrictAll(s[1..], keep);
    }
  }

  lemma WithoutCons(x: Key, s: seq<Key>, k: Key)
    ensures Without([x] + s, k) == (if x == k then [] else [x]) + Without(s, k)
  {
    assert ([x] + s)[1..] == s;
  }

  lemma {:induction false} RestrictWithout(s: seq<Key>, keep: set<Key>, k: Key)
    ensures Restrict(Without(s, k), keep) == Without(Restrict(s, keep), k)
    ensures Restrict(s, keep - {k}) == Without(Restrict(s, keep), k)
  {
    if s != [] {
      RestrictWithout(s[1..], keep, k);
      RestrictCons(s[0], Without(s[1..], k), keep);
      WithoutCons(s[0], Restrict(s[1..], keep), k);
      assert [] + Without(s[1..], k) == Without(s[1..], k);
      assert [] + Restrict(s[1..], keep) == Restrict(s[1..], keep);
      assert [] + Restrict(s[1..], keep - {k}) == Restrict(s[1..], keep - {k});
      assert [] + Without(Restrict(s[1..], keep), k) == Without(Restrict(s[1..], keep), k);
    }
  }

  // The smaller cache holds a part of the larger one, in the same order and with the same
  // values; until it has been full it is the same cache.
  ghost predicate Included<V>(small: Lru<V>, large: Lru<V>, smallSize: int) {
    && Valid(small) && Valid(large)
    && (forall k :: k in small.vals ==> k in large.vals && small.vals[k] == large.vals[k])
    && small.order == Restrict(large.order, small.vals.Keys)
    && |small.order| <= Capacity(smallSize)
    && (|small.order| == Capacity(smallSize) || small == large)
  }

  lemma GetIncluded<V>(small: Lru<V>, large: Lru<V>, smallSize: int, k: Key)
    requires Included(small, large, smallSize)
    ensures Included(AfterGet(small, k), AfterGet(large, k), smallSize)
  {
    AfterGetValid(small, k);
    AfterGetValid(large, k);
    if k in large.vals {
      RestrictSnoc(Without(large.order, k), k, small.vals.Keys);
      RestrictWithout(large.order, small.vals.Keys, k);
      if k !in small.vals {
        WithoutAbsent(small.order, k);
        assert small.order + [] == small.order;
      }
    }
  }

  // The order part of a set, before either cache evicts.
  lemma PlacedIncluded(small: seq<Key>, large: seq<Key>, keep: set<Key>, k: Key)
    requires small == Restrict(large, keep)
    ensures Without(small, k) + [k] == Restrict(Without(large, k) + [k], keep + {k})
  {
    WithoutMembers(large, k);
    RestrictSnoc(Without(large, k), k, keep + {k});
    RestrictAgree(Without(large, k), keep + {k}, keep);
    RestrictWithout(large, keep, k);
  }

  // The smaller cache drops its oldest key.
  lemma SmallEvicts(small: seq<Key>, large: seq<Key>, keep: set<Key>)
    requires small == Restrict(large, keep) && Distinct(small) && small != []
    ensures small[1..] == Restrict(large, keep - {small[0]})
  {
    RestrictWithout(large, keep, small[0]);
    WithoutAbsent(small[1..], small[0]);
    assert [] + small[1..] == small[1..];
  }

  lemma {:induction false} RestrictFirst(large: seq<Key>, keep: set<Key>)
    requires large != [] && large[0] in keep
    ensures Restrict(large, keep) != [] && Restrict(large, keep)[0] == large[0]
  {
  }

  // The smaller cache after a set, against the larger one before it evicts.
  lemma SetOrders<V>(small: Lru<V>, large: Lru<V>, smallSize: int, k: Key, v: V)
    requires Included(small, large, smallSize)
    ensures var t := AfterSet(small, k, v, smallSize);
            t.order == Restrict(Without(large.order, k) + [k], t.vals.Keys)
  {
    var keep := small.vals.Keys;
    var s := Lru(Without(small.order, k) + [k], small.vals[k := v]);
    PlacedIncluded(small.order, large.order, keep, k);
    Moved(small.order, k);
    assert s.vals.Keys == keep + {k};
    if |s.order| > smallSize {
      SmallEvicts(s.order, Without(large.order, k) + [k], keep + {k});
      assert Evict(s, smallSize).vals.Keys == keep + {k} - {s.order[0]};
    }
  }

  // What the larger cache drops, the smaller one does not hold any more.
  lemma LargeEvictsOther<V>(small: Lru<V>, large: Lru<V>, smallSize: int, largeSize: int, k: Key, v: V)
    requires Included(small, large, smallSize) && smallSize <= largeSize
    requires |large.order| <= Capacity(largeSize)
    requires |Without(large.order, k) + [k]| > largeSize
    ensures (Without(large.order, k) + [k])[0] !in AfterSet(small, k, v, smallSize).vals
  {
    var keep := small.vals.Keys;
    var s := Lru(Without(small.order, k) + [k], small.vals[k := v]);
    var l := Without(large.order, k) + [k];
    Moved(small.order, k);
    Moved(large.order, k);
    PlacedIncluded(small.order, large.order, keep, k);
    assert |s.order| > smallSize;
    if l[0] in keep + {k} {
      RestrictFirst(l, keep + {k});
    }
  }

  lemma SetIncluded<V>(small: Lru<V>, large: Lru<V>, smallSize: int, largeSize: int, k: Key, v: V)
    requires Included(small, large, smallSize) && smallSize <= largeSize
    requires |large.order| <= Capacity(largeSize)
    ensures Included(AfterSet(small, k, v, smallSize), AfterSet(large, k, v, largeSize), smallSize)
  {
    AfterSetValid(small, k, v, smallSize);
    AfterSetValid(large, k, v, largeSize);
    Moved(small.order, k);
    Moved(large.order, k);
    SetOrders(small, large, smallSize, k, v);
    var t := AfterSet(small, k, v, smallSize);
    var order := Without(large.order, k) + [k];
    if |order| > largeSize {
      LargeEvictsOther(small, large, smallSize, largeSize, k, v);
      assert [] + Restrict(order[1..], t.vals.Keys) == Restrict(order[1..], t.vals.Keys);
    }
  }

  // On every common trace the smaller cache holds a part of the larger one.
  lemma {:induction false} Inclusion<V>(ops: seq<Op<V>>, smallSize: int, largeSize: int)
    requires smallSize <= largeSize
    ensures Included(Run(ops, smallSize), Run(ops, largeSize), smallSize)
    ensures |Run(ops, largeSize).order| <= Capacity(largeSize)
    decreases |ops|
  {
    if ops != [] {
      var before := ops[..|ops| - 1];
      Inclusion(before, smallSize, largeSize);
      var small, large := Run(before, smallSize), Run(before, largeSize);
      match ops[|ops| - 1]
      case Get(k) =>
        GetIncluded(small, large, smallSize, k);
        AfterGetValid(large, k);
      case Set(k, v) =>
        SetIncluded(small, large, smallSize, largeSize, k, v);
        AfterSetValid(large, k, v, largeSize);
    }
  }

  // The lookups of a trace that hit.
  ghost function Hits<V>(ops: seq<Op<V>>, maxsize: int): set<nat> {
    set i: nat | i < |ops| && ops[i].Get? && ops[i].key in Run(ops[..i], maxsize).vals
  }

  // So a larger cache hits wherever a smaller one does.
  lemma HitsGrowWithSize<V>(ops: seq<Op<V>>, smallSize: int, largeSize: int)
    requires smallSize <= largeSize
    ensures Hits(ops, smallSize) <= Hits(ops, largeSize)
    ensures |Hits(ops, smallSize)| <= |Hits(ops, largeSize)|
  {
    forall i | i in Hits(ops, smallSize)
      ensures i in Hits(ops, largeSize)
    {
      Inclusion(ops[..i], smallSize, largeSize);
    }
    SubsetSize(Hits(ops, smallSize), Hits(ops, largeSize));
  }

  // --- What stays and what goes ---

  // The keys used more recently than k.
  ghost function Newer(s: seq<Key>, k: Key): set<Key> {
    if s == [] then {} else if s[0] == k then set x | x in s[1..] else Newer(s[1..], k)
  }

  ghost function Touched<V>(ops: seq<Op<V>>): set<Key> {
    set i | 0 <= i < |ops| :: ops[i].key
  }

  lemma {:induction false} NewerAfterMove(s: seq<Key>, k: Key, j: Key)
    requires k in s && j != k
    ensures Newer(Without(s, j) + [j], k) <= Newer(s, k) + {j}
  {
    if s[0] == k {
      WithoutMembers(s[1..], j);
      assert (Without(s, j) + [j])[1..] == Without(s[1..], j) + [j];
    } else {
      NewerAfterMove(s[1..], k, j);
      if s[0] == j {
        assert Without(s, j) == Without(s[1..], j);
      } else {
        assert (Without(s, j) + [j])[1..] == Without(s[1..], j) + [j];
      }
    }
  }

  lemma {:induction false} NewerOfLast(s: seq<Key>, k: Key)
    requires k !in s
    ensures Newer(s + [k], k) == {}
  {
    if s == [] {
      assert s + [k] == [k];
    } else {
      assert (s + [k])[1..] == s[1..] + [k];
      NewerOfLast(s[1..], k);
    }
  }

  lemma {:induction false} DistinctCount(s: seq<Key>)
    requires Distinct(s)
    ensures |set x | x in s| == |s|
  {
    if s != [] {
      DistinctCount(s[1..]);
      assert (set x | x in s) == {s[0]} + set x | x in s[1..];
    }
  }

  lemma TouchedSnoc<V>(ops: seq<Op<V>>, op: Op<V>)
    ensures Touched(ops + [op]) == Touched(ops) + {op.key}
  {
    var all := ops + [op];
    assert forall i :: 0 <= i < |ops| ==> all[i] == ops[i];
    assert all[|ops|] == op;
  }

  // A key that is used is not evicted until as many other keys as fit have been used.
  lemma {:induction false} UsedKeyStays<V>(c: Lru<V>, k: Key, ops: seq<Op<V>>, maxsize: int)
    requires Valid(c) && |c.order| <= Capacity(maxsize) && k in c.vals
    requires |Touched(ops) - {k}| < Capacity(maxsize)
    ensures var d := RunFrom(AfterGet(c, k), ops, maxsize);
            Valid(d) && |d.order| <= Capacity(maxsize) && k in d.vals && Newer(d.order, k) <= Touched(ops) - {k}
    decreases |ops|
  {
    AfterGetValid(c, k);
    if ops == [] {
      WithoutMembers(c.order, k);
      NewerOfLast(Without(c.order, k), k);
    } else {
      var before, op := ops[..|ops| - 1], ops[|ops| - 1];
      TouchedSnoc(before, op);
      assert before + [op] == ops;
      SubsetSize(Touched(before) - {k}, Touched(ops) - {k});
      UsedKeyStays(c, k, before, maxsize);
      StaysOneStep(RunFrom(AfterGet(c, k), before, maxsize), k, op, Touched(ops) - {k}, maxsize);
    }
  }

  lemma StaysOneStep<V>(d: Lru<V>, k: Key, op: Op<V>, touched: set<Key>, maxsize: int)
    requires Valid(d) && |d.order| <= Capacity(maxsize) && k in d.vals
    requires Newer(d.order, k) <= touched && (op.key == k || op.key in touched)
    requires |touched| < Capacity(maxsize)
    ensures var e := After(d, op, maxsize);
            Valid(e) && |e.order| <= Capacity(maxsize) && k in e.vals && Newer(e.order, k) <= touched
  {
    var j := op.key;
    var moved := Without(d.order, j) + [j];
    Moved(d.order, j);
    if j == k {
      WithoutMembers(d.order, k);
      NewerOfLast(Without(d.order, k), k);
    } else {
      NewerAfterMove(d.order, k, j);
    }
    match op
    case Get(_) => AfterGetValid(d, j);
    case Set(_, v) =>
      AfterSetValid(d, j, v, maxsize);
      if |moved| > maxsize && moved[0] == k {
        DistinctCount(moved[1..]);
        SubsetSize(Newer(moved, k), touched);
        assert false;
      }
  }

  function SetAll<V>(keys: seq<Key>, v: V): seq<Op<V>> { seq(|keys|, i requires 0 <= i < |keys| => Set(keys[i], v)) }

  // The keys set last are the ones at the end of the order.
  ghost predicate EndsWith<V>(c: Lru<V>, keys: seq<Key>, maxsize: int) {
    && Valid(c) && |keys| <= |c.order| <= Capacity(maxsize)
    && c.order[|c.order| - |keys|..] == keys
  }

  lemma {:induction false} WithoutTail(s: seq<Key>, cut: nat, k: Key)
    requires cut <= |s| && k !in s[cut..]
    ensures Without(s, k) == Without(s[..cut], k) + s[cut..]
  {
    if cut == 0 {
      WithoutAbsent(s, k);
      assert s[..0] == [] && s[0..] == s;
    } else {
      assert s[1..][cut - 1..] == s[cut..] && s[..cut][1..] == s[1..][..cut - 1];
      WithoutTail(s[1..], cut - 1, k);
    }
  }

  lemma FloodStep<V>(c: Lru<V>, keys: seq<Key>, k: Key, v: V, maxsize: int)
    requires EndsWith(c, keys, maxsize) && |keys| < Capacity(maxsize) && k !in keys
    ensures EndsWith(AfterSet(c, k, v, maxsize), keys + [k], maxsize)
  {
    var cut := |c.order| - |keys|;
    WithoutTail(c.order, cut, k);
    AfterSetValid(c, k, v, maxsize);
    var moved := Without(c.order, k) + [k];
    assert moved == Without(c.order[..cut], k) + (keys + [k]);
    Moved(c.order, k);
  }

  lemma SetAllSnoc<V>(c: Lru<V>, keys: seq<Key>, k: Key, v: V, maxsize: int)
    ensures RunFrom(c, SetAll(keys + [k], v), maxsize) == AfterSet(RunFrom(c, SetAll(keys, v), maxsize), k, v, maxsize)
  {
    var ops := SetAll(keys + [k], v);
    assert ops[..|ops| - 1] == SetAll(keys, v);
  }

  ghost predicate NoneTwice(keys: seq<Key>) {
    forall i :: 0 <= i < |keys| ==> keys[i] !in keys[..i]
  }

  // Setting as many different keys as fit leaves exactly those, whatever was there.
  lemma {:induction false} Flooded<V>(c: Lru<V>, keys: seq<Key>, v: V, maxsize: int)
    requires Valid(c) && |c.order| <= Capacity(maxsize)
    requires NoneTwice(keys) && |keys| <= Capacity(maxsize)
    ensures EndsWith(RunFrom(c, SetAll(keys, v), maxsize), keys, maxsize)
    decreases |keys|
  {
    if keys != [] {
      var first, last := keys[..|keys| - 1], keys[|keys| - 1];
      assert keys == first + [last];
      assert NoneTwice(first) by {
        assert forall i :: 0 <= i < |first| ==> first[..i] == keys[..i];
      }
      Flooded(c, first, v, maxsize);
      FloodStep(RunFrom(c, SetAll(first, v), maxsize), first, last, v, maxsize);
      SetAllSnoc(c, first, last, v, maxsize);
    }
  }

  // --- The two levels ---

  // What the shared level gives back for a value other than None.
  datatype Encoded<V> = Raises | Decodes(value: Option<V>)

  function Encode<V>(encode: V -> Encoded<V>, v: Option<V>): Encoded<V> {
    if v.None? then Decodes(None) else encode(v.value)
  }

  ghost predicate Faithful<V>(encode: V -> Encoded<V>, v: Option<V>) { Encode(encode, v) == Decodes(v) }

  datatype Tiers<V> = Tiers(local: Lru<Option<V>>, shared: map<Key, Option<V>>)

  function Answer<V>(t: Tiers<V>, k: Key, up: bool): Option<V> {
    if k in t.local.vals && t.local.vals[k].Some? then t.local.vals[k]
    else if up && k in t.shared then t.shared[k]
    else None
  }

  function AfterLookup<V>(t: Tiers<V>, k: Key, up: bool, maxsize: int): Tiers<V> {
    var local := AfterGet(t.local, k);
    if k in t.local.vals && t.local.vals[k].Some? then t.(local := local)
    else if up && k in t.shared then t.(local := AfterSet(local, k, t.shared[k], maxsize))
    else t.(local := local)
  }

  function AfterStore<V>(t: Tiers<V>, k: Key, v: Option<V>, up: bool, maxsize: int, encode: V -> Encoded<V>): Tiers<V> {
    var local := AfterSet(t.local, k, v, maxsize);
    if up && Encode(encode, v).Decodes? then Tiers(local, t.shared[k := Encode(encode, v).value])
    else t.(local := local)
  }

  class AICache<V> {
    const local: LocalLRUCache<Option<V>>
    var shared: map<Key, Option<V>>
    const encode: V -> Encoded<V>

    ghost function State(): Tiers<V>
      reads this, local
    {
      Tiers(local.State(), shared)
    }

    constructor (local: LocalLRUCache<Option<V>>, shared: map<Key, Option<V>>, encode: V -> Encoded<V>)
      ensures this.local == local && this.encode == encode
      ensures State() == Tiers(local.State(), shared)
    {
      this.local, this.shared, this.encode := local, shared, encode;
    }

    // `up` says whether the shared level can be reached at this call.
    method Get(k: Key, up: bool) returns (answer: Option<V>)
      modifies local
      ensures answer == Answer(old(State()), k, up)
      ensures State() == AfterLookup(old(State()), k, up, local.maxsize)
      ensures var held := if k in old(local.vals) then old(local.vals)[k] else None;
              && answer == (if held.Some? then held else if up && k in shared then shared[k] else None)
              && local.State() == if held.None? && up && k in shared
                                  then AfterSet(AfterGet(old(local.State()), k), k, shared[k], local.maxsize)
                                  else AfterGet(old(local.State()), k)
    {
      var localResult := local.Get(k);
      if localResult.Some? && localResult.value.Some? {
        return localResult.value;
      }
      if up && k in shared {
        var parsed := shared[k];
        local.Set(k, parsed);
        return parsed;
      }
      return None;
    }

    method Set(k: Key, v: Option<V>, up: bool)
      modifies this`shared, local
      ensures State() == AfterStore(old(State()), k, v, up, local.maxsize, encode)
      // the local level stores whatever becomes of the shared one, and that one the decoded value
      ensures local.State() == AfterSet(old(local.State()), k, v, local.maxsize)
      ensures shared == if up && v.None? then old(shared)[k := None]
                        else if up && encode(v.value).Decodes? then old(shared)[k := encode(v.value).value]
                        else old(shared)
    {
      local.Set(k, v);
      if up {
        var serialized := Encode(encode, v);
        if serialized.Decodes? {
          shared := shared[k := serialized.value];
        }
      }
    }
  }

  datatype Call<V> = Lookup(key: Key, up: bool) | Store(key: Key, value: Option<V>, up: bool)

  function AfterCall<V>(t: Tiers<V>, call: Call<V>, maxsize: int, encode: V -> Encoded<V>): Tiers<V> {
    match call
    case Lookup(k, up) => AfterLookup(t, k, up, maxsize)
    case Store(k, v, up) => AfterStore(t, k, v, up, maxsize, encode)
  }

  function RunCalls<V>(calls: seq<Call<V>>, maxsize: int, encode: V -> Encoded<V>): Tiers<V> {
    if calls == [] then Tiers(Lru([], map[]), map[])
    else AfterCall(RunCalls(calls[..|calls| - 1], maxsize, encode), calls[|calls| - 1], maxsize, encode)
  }

  // The single map the two levels stand for.
  function Reference<V>(calls: seq<Call<V>>): map<Key, Option<V>> {
    if calls == [] then map[]
    else
      var before, call := Reference(calls[..|calls| - 1]), calls[|calls| - 1];
      if call.Store? then before[call.key := call.value] else before
  }

  function ReferenceAnswer<V>(m: map<Key, Option<V>>, k: Key): Option<V> {
    if k in m then m[k] else None
  }

  // Both levels agree with the map; the shared one holds all of it.
  ghost predicate Agrees<V>(t: Tiers<V>, m: map<Key, Option<V>>) {
    t.shared == m && forall k :: k in t.local.vals ==> k in m && t.local.vals[k] == m[k]
  }

  ghost predicate StoresKept<V>(calls: seq<Call<V>>, encode: V -> Encoded<V>) {
    forall i :: 0 <= i < |calls| && calls[i].Store? ==> calls[i].up && Faithful(encode, calls[i].value)
  }

  // Evictions, promotions and outages during lookups never make the two levels disagree with one
  // map, as long as every store reaches the shared level and comes back as it was.
  lemma {:induction false} LevelsAgree<V>(calls: seq<Call<V>>, maxsize: int, encode: V -> Encoded<V>)
    requires StoresKept(calls, encode)
    ensures Agrees(RunCalls(calls, maxsize, encode), Reference(calls))
  {
    if calls != [] {
      LevelsAgree(calls[..|calls| - 1], maxsize, encode);
    }
  }

  // Answers after such calls are the map's; only a lookup that cannot reach the shared level may
  // miss instead.
  lemma NeverWrong<V>(calls: seq<Call<V>>, k: Key, up: bool, maxsize: int, encode: V -> Encoded<V>)
    requires StoresKept(calls, encode)
    ensures var answer, expected := Answer(RunCalls(calls, maxsize, encode), k, up),
                                           ReferenceAnswer(Reference(calls), k);
            answer == expected || (!up && answer == None)
  {
    LevelsAgree(calls, maxsize, encode);
  }

  // --- The local level on its own ---

  ghost predicate NoneReach<V>(calls: seq<Call<V>>) {
    forall i :: 0 <= i < |calls| ==> !calls[i].up
  }

  // The trace as the local level sees it.
  function LocalOps<V>(calls: seq<Call<V>>): seq<Op<Option<V>>> {
    seq(|calls|, i requires 0 <= i < |calls| =>
      match calls[i] case Lookup(k, _) => Get(k) case Store(k, v, _) => Set(k, v))
  }

  // When no call reaches the shared level, the two levels are the local LRU run on the same trace,
  // whatever serialisation does, and a lookup answers what that holds.
  lemma {:induction false} LocalOnlyIsLru<V>(calls: seq<Call<V>>, maxsize: int, encode: V -> Encoded<V>, k: Key)
    requires NoneReach(calls)
    ensures RunCalls(calls, maxsize, encode) == Tiers(Run(LocalOps(calls), maxsize), map[])
    ensures Answer(RunCalls(calls, maxsize, encode), k, false)
         == var vals := Run(LocalOps(calls), maxsize).vals; if k in vals then vals[k] else None
  {
    if calls != [] {
      var before := calls[..|calls| - 1];
      LocalOnlyIsLru(before, maxsize, encode, k);
      assert LocalOps(calls)[..|calls| - 1] == LocalOps(before);
    }
  }

  // The key that was set last is held.
  lemma LastSetIsHeld<V>(c: Lru<V>, k: Key, v: V, maxsize: int)
    requires maxsize > 0
    ensures k in AfterSet(c, k, v, maxsize).vals && AfterSet(c, k, v, maxsize).vals[k] == v
  {
    var rest := Without(c.order, k);
    WithoutMembers(c.order, k);
    assert rest != [] ==> rest[0] in rest && (rest + [k])[0] != k;
  }

  // What was stored last, in or out of reach of the shared level, serialisable or not, is read back.
  lemma StoredIsRead<V>(calls: seq<Call<V>>, k: Key, v: V, up: bool, again: bool, maxsize: int, encode: V -> Encoded<V>)
    requires maxsize > 0
    ensures Answer(RunCalls(calls + [Store(k, Some(v), up)], maxsize, encode), k, again) == Some(v)
  {
    RunCallsSnoc(calls, Store(k, Some(v), up), maxsize, encode);
    LastSetIsHeld(RunCalls(calls, maxsize, encode).local, k, Some(v), maxsize);
  }

  // What a lookup found anywhere, the next one finds without the shared level.
  lemma FoundIsHeld<V>(calls: seq<Call<V>>, k: Key, up: bool, maxsize: int, encode: V -> Encoded<V>)
    requires maxsize > 0 && Answer(RunCalls(calls, maxsize, encode), k, up).Some?
    ensures Answer(RunCalls(calls + [Lookup(k, up)], maxsize, encode), k, false)
         == Answer(RunCalls(calls, maxsize, encode), k, up)
  {
    var t := RunCalls(calls, maxsize, encode);
    RunCallsSnoc(calls, Lookup(k, up), maxsize, encode);
    if k in t.shared {
      LastSetIsHeld(AfterGet(t.local, k), k, t.shared[k], maxsize);
    }
  }

  // --- The converse: a value that does not survive serialisation gives a wrong answer ---

  function StoreAll<V>(keys: seq<Key>): seq<Call<V>> {
    seq(|keys|, i requires 0 <= i < |keys| => Store(keys[i], None, true))
  }

  lemma RunCallsSnoc<V>(calls: seq<Call<V>>, call: Call<V>, maxsize: int, encode: V -> Encoded<V>)
    ensures RunCalls(calls + [call], maxsize, encode)
         == AfterCall(RunCalls(calls, maxsize, encode), call, maxsize, encode)
  {
    assert (calls + [call])[..|calls + [call]| - 1] == calls;
  }

  lemma StoreAllSnoc<V>(calls: seq<Call<V>>, keys: seq<Key>, k: Key)
    ensures calls + StoreAll(keys + [k]) == (calls + StoreAll(keys)) + [Store(k, None, true)]
  {
  }

  // t is s after its local level took `flood` and the shared entry of k was left alone.
  ghost predicate FloodedOnly<V>(s: Tiers<V>, t: Tiers<V>, flood: seq<Op<Option<V>>>, k: Key, maxsize: int) {
    && t.local == RunFrom(s.local, flood, maxsize)
    && (k in t.shared <==> k in s.shared) && (k in s.shared ==> t.shared[k] == s.shared[k])
  }

  lemma FloodMore<V>(s: Tiers<V>, t: Tiers<V>, keys: seq<Key>, last: Key, k: Key, maxsize: int, encode: V -> Encoded<V>)
    requires FloodedOnly(s, t, SetAll(keys, None), k, maxsize) && last != k
    ensures FloodedOnly(s, AfterStore(t, last, None, true, maxsize, encode), SetAll(keys + [last], None), k, maxsize)
  {
    SetAllSnoc(s.local, keys, last, None, maxsize);
  }

  // Stores of other keys flood the local level and leave the shared entry of k alone.
  lemma {:induction false} StoresOfOthers<V>(calls: seq<Call<V>>, keys: seq<Key>, k: Key, maxsize: int,
                                           encode: V -> Encoded<V>)
    requires k !in keys
    ensures FloodedOnly(RunCalls(calls, maxsize, encode), RunCalls(calls + StoreAll(keys), maxsize, encode),
                        SetAll(keys, None), k, maxsize)
    decreases |keys|
  {
    if keys == [] {
      assert calls + StoreAll<V>(keys) == calls;
    } else {
      var first, last := keys[..|keys| - 1], keys[|keys| - 1];
      StoresOfOthers(calls, first, k, maxsize, encode);
      FloodMore(RunCalls(calls, maxsize, encode), RunCalls(calls + StoreAll(first), maxsize, encode), first, last, k,
                maxsize, encode);
      StoreAllSnoc(calls, first, last);
      RunCallsSnoc(calls + StoreAll(first), Store(last, None, true), maxsize, encode);
      assert keys == first + [last];
    }
  }

  lemma {:induction false} MapKeepsOthers<V>(calls: seq<Call<V>>, keys: seq<Key>, k: Key)
    requires k !in keys
    ensures var m, n := Reference(calls), Reference(calls + StoreAll(keys));
            (k in m <==> k in n) && (k in m ==> n[k] == m[k])
    decreases |keys|
  {
    if keys == [] {
      assert calls + StoreAll<V>(keys) == calls;
    } else {
      var first, last := keys[..|keys| - 1], keys[|keys| - 1];
      assert keys == first + [last];
      MapKeepsOthers(calls, first, k);
      StoreAllSnoc(calls, first, last);
      var before := calls + StoreAll(first);
      assert (before + [Store(last, None, true)])[..|before|] == before;
    }
  }

  function Others(k: Key, n: nat): (keys: seq<Key>)
    ensures |keys| == n && forall i :: 0 <= i < n ==> |keys[i]| == |k| + i + 1
  {
    seq(n, i requires 0 <= i < n => k + seq(i + 1, j => 'x'))
  }

  lemma OthersDiffer(k: Key, n: nat)
    ensures k !in Others(k, n) && NoneTwice(Others(k, n))
  {
  }

  function Exposing<V>(k: Key, v: V, maxsize: int): seq<Call<V>> {
    [Store(k, Some(v), true)] + StoreAll(Others(k, Capacity(maxsize)))
  }

  lemma ExposedAnswer<V>(k: Key, v: V, maxsize: int, encode: V -> Encoded<V>)
    ensures ReferenceAnswer(Reference(Exposing(k, v, maxsize)), k) == Some(v)
    ensures Answer(RunCalls(Exposing(k, v, maxsize), maxsize, encode), k, true)
         == if encode(v).Decodes? then encode(v).value else None
  {
    var calls: seq<Call<V>> := [Store(k, Some(v), true)];
    assert calls == [] + calls;
    RunCallsSnoc([], calls[0], maxsize, encode);
    var keys := Others(k, Capacity(maxsize));
    OthersDiffer(k, Capacity(maxsize));
    var s := RunCalls(calls, maxsize, encode);
    assert s == AfterStore(Tiers(Lru([], map[]), map[]), k, Some(v), true, maxsize, encode);
    var empty: Lru<Option<V>> := Lru([], map[]);
    AfterSetValid(empty, k, Some(v), maxsize);
    Flooded(s.local, keys, None, maxsize);
    StoresOfOthers(calls, keys, k, maxsize, encode);
    MapKeepsOthers(calls, keys, k);
    var t := RunCalls(calls + StoreAll(keys), maxsize, encode);
    assert t.local.order == keys;
  }

  ghost predicate StoresReach<V>(calls: seq<Call<V>>) {
    forall i :: 0 <= i < |calls| && calls[i].Store? ==> calls[i].up
  }

  // With the shared level in reach the two levels answer every trace like one map exactly when
  // serialisation gives every value back.
  lemma LikeAMapExactly<V(!new)>(maxsize: int, encode: V -> Encoded<V>)
    ensures (forall calls: seq<Call<V>>, k :: StoresReach(calls) ==>
               Answer(RunCalls(calls, maxsize, encode), k, true) == ReferenceAnswer(Reference(calls), k))
       <==> (forall v :: encode(v) == Decodes(Some(v)))
  {
    if forall v :: encode(v) == Decodes(Some(v)) {
      forall calls: seq<Call<V>>, k | StoresReach(calls)
        ensures Answer(RunCalls(calls, maxsize, encode), k, true) == ReferenceAnswer(Reference(calls), k)
      {
        NeverWrong(calls, k, true, maxsize, encode);
      }
    } else {
      var v :| encode(v) != Decodes(Some(v));
      ExposedAnswer("", v, maxsize, encode);
      assert StoresReach(Exposing("", v, maxsize));
    }
  }
}
