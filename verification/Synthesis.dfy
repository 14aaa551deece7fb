// The citation filter of the synthesis service and the sentence splitter it shares with the
// citation metric. Text is a sequence of characters; the regular expressions are written out.

module Synthesis {
  import opened Text
  import opened Wrappers

  type RecordId = string

  // --- Sentences ---

  predicate IsEnd(c: char) { c == '.' || c == '!' || c == '?' }

  // A separator may start at k: white space right after a closing mark.
  predicate CutsAt(t: string, k: nat) {
    0 < k < |t| && IsEnd(t[k-1]) && IsSpace(t[k])
  }

  // The first separator at or after i, or the end of the text.
  function FirstCut(t: string, i: nat): (k: nat)
    requires i <= |t|
    ensures i <= k <= |t| && (k < |t| ==> CutsAt(t, k))
    ensures forall m :: i <= m < k ==> !CutsAt(t, m)
    decreases |t| - i
  {
    if i == |t| || CutsAt(t, i) then i else FirstCut(t, i + 1)
  }

  function SkipSpace(t: string, i: nat): (k: nat)
    requires i <= |t|
    ensures i <= k <= |t| && (k < |t| ==> !IsSpace(t[k]))
    ensures forall m :: i <= m < k ==> IsSpace(t[m])
    decreases |t| - i
  {
    if i < |t| && IsSpace(t[i]) then SkipSpace(t, i + 1) else i
  }

  // re.split on (?<=[.!?])\s+
  function Split(t: string): seq<string>
    decreases |t|
  {
    var k := FirstCut(t, 0);
    if k == |t| then [t]
    else [t[..k]] + Split(t[SkipSpace(t, k)..])
  }

  function NonBlank(ss: seq<string>): seq<string> {
    if ss == [] then []
    else (if Strip(ss[0]) != "" then [ss[0]] else []) + NonBlank(ss[1..])
  }

  function Sentences(t: string): seq<string> {
    if Strip(t) == "" then [] else NonBlank(Split(Strip(t)))
  }

  // " ".join
  function Join(ss: seq<string>): string {
    if ss == [] then "" else if |ss| == 1 then ss[0] else ss[0] + " " + Join(ss[1..])
  }

  // --- Citations ---

  const OPEN := "[[record:"

  // The end of the run of characters other than ']' from i.
  function RunEnd(s: string, i: nat): (k: nat)
    requires i <= |s|
    ensures i <= k <= |s| && (k < |s| ==> s[k] == ']')
    ensures forall m :: i <= m < k ==> s[m] != ']'
    decreases |s| - i
  {
    if i < |s| && s[i] != ']' then RunEnd(s, i + 1) else i
  }

  // A match of \[\[record:([^\]]+)\]\] at i.
  predicate CitesAt(s: string, i: nat) {
    i + |OPEN| <= |s| && s[i..i + |OPEN|] == OPEN &&
    var e := RunEnd(s, i + |OPEN|);
    e > i + |OPEN| && e + 1 < |s| && s[e + 1] == ']'
  }

  function FindAll(s: string, i: nat): seq<RecordId>
    requires i <= |s|
    decreases |s| - i
  {
    if i == |s| then []
    else if CitesAt(s, i) then
      var e := RunEnd(s, i + |OPEN|);
      [s[i + |OPEN|..e]] + FindAll(s, e + 2)
    else FindAll(s, i + 1)
  }

  function CitedIds(s: string): seq<RecordId> { FindAll(s, 0) }

  function CitedCount(ss: seq<string>): nat {
    if ss == [] then 0 else (if CitedIds(ss[0]) != [] then 1 else 0) + CitedCount(ss[1..])
  }

  function CitationCoverage(answer: string): real {
    var ss := Sentences(answer);
    if ss == [] then 1.0 else CitedCount(ss) as real / |ss| as real
  }

  // A marker for `id` in `s`: what a reader sees as a citation.
  ghost predicate MarkedAt(s: string, id: RecordId, p: nat) {
    p + |OPEN| + |id| + 2 <= |s| && s[p..p + |OPEN| + |id| + 2] == OPEN + id + "]]"
  }

  ghost predicate Marked(s: string, id: RecordId) {
    id != "" && ']' !in id && exists p: nat :: MarkedAt(s, id, p)
  }

  // A match captures an id that is marked there.
  lemma MatchIsMarker(s: string, i: nat)
    requires CitesAt(s, i)
    ensures var e := RunEnd(s, i + |OPEN|);
            var id := s[i + |OPEN|..e];
            MarkedAt(s, id, i) && Marked(s, id)
  {
    var e := RunEnd(s, i + |OPEN|);
    var id := s[i + |OPEN|..e];
    assert s[i..e + 2] == s[i..i + |OPEN|] + s[i + |OPEN|..e] + s[e..e + 2];
    assert s[e..e + 2] == "]]";
    assert MarkedAt(s, id, i);
  }

  // Every id found is marked, and a sentence with a marker has an id found.
  lemma {:induction false} FoundIdsAreMarked(s: string, i: nat)
    requires i <= |s|
    ensures forall id :: id in FindAll(s, i) ==> Marked(s, id)
    decreases |s| - i
  {
    if i < |s| && CitesAt(s, i) {
      var e := RunEnd(s, i + |OPEN|);
      FoundIdsAreMarked(s, e + 2);
      MatchIsMarker(s, i);
    } else if i < |s| {
      FoundIdsAreMarked(s, i + 1);
    }
  }

  // At a marker the expression matches, and captures the id.
  lemma MatchAt(s: string, id: RecordId, p: nat)
    requires id != "" && ']' !in id && MarkedAt(s, id, p)
    ensures CitesAt(s, p) && RunEnd(s, p + |OPEN|) == p + |OPEN| + |id|
    ensures FindAll(s, p) == [id] + FindAll(s, p + |OPEN| + |id| + 2)
  {
    var start := p + |OPEN|;
    SliceParts(s, OPEN, id, "]]", p);
    forall k | start <= k < start + |id| ensures s[k] != ']' {
      assert s[k] == s[start..start + |id|][k - start] == id[k - start];
      assert id[k - start] in id;
    }
    assert s[start + |id|] == s[start + |id|..start + |id| + 2][0] == ']';
    assert s[start + |id| + 1] == s[start + |id|..start + |id| + 2][1] == ']';
    assert RunEnd(s, start) == start + |id|;
  }

  lemma SliceParts(s: string, a: string, b: string, c: string, p: nat)
    requires p + |a| + |b| + |c| <= |s| && s[p..p + |a| + |b| + |c|] == a + b + c
    ensures s[p..p + |a|] == a
    ensures s[p + |a|..p + |a| + |b|] == b
    ensures s[p + |a| + |b|..p + |a| + |b| + |c|] == c
  {
    var m := s[p..p + |a| + |b| + |c|];
    assert forall k :: 0 <= k < |m| ==> s[p + k] == m[k];
    assert forall k :: 0 <= k < |a| ==> s[p + k] == m[k] == a[k];
    assert forall k :: 0 <= k < |b| ==> s[p + |a| + k] == m[|a| + k] == b[k];
    assert forall k :: 0 <= k < |c| ==> s[p + |a| + |b| + k] == m[|a| + |b| + k] == c[k];
  }

  lemma {:induction false} MarkedIsFound(s: string, id: RecordId, p: nat, i: nat)
    requires id != "" && ']' !in id && i <= p && MarkedAt(s, id, p)
    ensures FindAll(s, i) != []
    decreases p - i
  {
    if i == p {
      MatchAt(s, id, p);
    } else if !CitesAt(s, i) {
      MarkedIsFound(s, id, p, i + 1);
    }
  }

  lemma CitedExactlyWhenMarked(s: string)
    ensures CitedIds(s) != [] <==> exists id :: Marked(s, id)
  {
    FoundIdsAreMarked(s, 0);
    if CitedIds(s) != [] {
      assert CitedIds(s)[0] in CitedIds(s);
    }
    if id :| Marked(s, id) {
      var p: nat :| MarkedAt(s, id, p);
      MarkedIsFound(s, id, p, 0);
    }
  }

  // --- Split and join ---

  // A sentence as the splitter leaves it.
  ghost predicate Whole(s: string) {
    s != "" && !IsSpace(s[0]) && !IsSpace(s[|s|-1]) && forall k :: 0 <= k < |s| ==> !CutsAt(s, k)
  }

  // Whole sentences, all but the last closed by a mark.
  ghost predicate Chain(ss: seq<string>) {
    ss == [] || (Whole(ss[0]) && (|ss| > 1 ==> IsEnd(ss[0][|ss[0]|-1])) && Chain(ss[1..]))
  }

  // The text before the first separator is whole, and the text after it starts afresh.
  lemma CutApart(t: string)
    requires t != "" && !IsSpace(t[0]) && !IsSpace(t[|t|-1]) && FirstCut(t, 0) < |t|
    ensures var k := FirstCut(t, 0);
            var j := SkipSpace(t, k);
            k > 0 && Whole(t[..k]) && IsEnd(t[k-1]) && k < j < |t| && !IsSpace(t[j])
  {
    var k := FirstCut(t, 0);
    assert !IsSpace(t[|t|-1]);
    assert forall m :: 0 <= m < k && CutsAt(t[..k], m) ==> CutsAt(t, m);
  }

  lemma {:induction false} SplitChains(t: string)
    requires t != "" && !IsSpace(t[0]) && !IsSpace(t[|t|-1])
    ensures Chain(Split(t)) && Split(t) != []
    decreases |t|
  {
    var k := FirstCut(t, 0);
    if k < |t| {
      CutApart(t);
      var rest := t[SkipSpace(t, k)..];
      SplitChains(rest);
      assert ([t[..k]] + Split(rest))[1..] == Split(rest);
    }
  }

  lemma {:induction false} NonBlankIdle(ss: seq<string>)
    requires Chain(ss)
    ensures NonBlank(ss) == ss
  {
    if ss != [] {
      StripIdle(ss[0]);
      NonBlankIdle(ss[1..]);
    }
  }

  // The splitter only ever yields chains.
  lemma SentencesChain(t: string)
    ensures Chain(Sentences(t))
  {
    if Strip(t) != "" {
      StripEdges(t);
      SplitChains(Strip(t));
      NonBlankIdle(Split(Strip(t)));
    }
  }

  // Joining puts one space between what it joins.
  lemma {:induction false} JoinConcat(a: seq<string>, b: seq<string>)
    requires a != [] && b != []
    ensures Join(a + b) == Join(a) + " " + Join(b)
    ensures forall s :: Join([s]) == s
  {
    if |a| == 1 {
      assert (a + b)[1..] == b;
    } else {
      assert (a + b)[1..] == a[1..] + b;
      JoinConcat(a[1..], b);
      assert a[0] + " " + (Join(a[1..]) + " " + Join(b)) == a[0] + " " + Join(a[1..]) + " " + Join(b);
    }
  }

  // --- What splitting keeps ---

  // The characters of a text that are not white space.
  function Letters(t: string): string {
    if t == "" then "" else (if IsSpace(t[0]) then "" else [t[0]]) + Letters(t[1..])
  }

  lemma {:induction false} LettersConcat(a: string, b: string)
    ensures Letters(a + b) == Letters(a) + Letters(b)
  {
    if a == "" {
      assert a + b == b;
    } else {
      assert (a + b)[1..] == a[1..] + b;
      LettersConcat(a[1..], b);
    }
  }

  lemma {:induction false} LettersOfSpace(t: string)
    requires AllSpace(t)
    ensures Letters(t) == ""
  {
    if t != "" {
      LettersOfSpace(t[1..]);
    }
  }

  lemma LettersOfStrip(t: string)
    ensures Letters(Strip(t)) == Letters(t)
  {
    var left, right := StripSplits(t);
    LettersConcat(left + Strip(t), right);
    LettersConcat(left, Strip(t));
    LettersOfSpace(left);
    LettersOfSpace(right);
  }

  function AllLetters(ss: seq<string>): string {
    if ss == [] then "" else Letters(ss[0]) + AllLetters(ss[1..])
  }

  lemma LettersAround(a: string, gap: string, b: string)
    requires AllSpace(gap)
    ensures Letters(a + gap + b) == Letters(a) + Letters(b)
  {
    LettersConcat(a + gap, b);
    LettersConcat(a, gap);
    LettersOfSpace(gap);
  }

  lemma {:induction false} LettersOfSplit(t: string)
    ensures AllLetters(Split(t)) == Letters(t)
    decreases |t|
  {
    var k := FirstCut(t, 0);
    if k == |t| {
      assert [t][1..] == [];
    } else {
      var j := SkipSpace(t, k);
      LettersOfSplit(t[j..]);
      LettersAround(t[..k], t[k..j], t[j..]);
      assert t[..k] + t[k..j] + t[j..] == t;
      assert ([t[..k]] + Split(t[j..]))[1..] == Split(t[j..]);
    }
  }

  lemma {:induction false} LettersOfNonBlank(ss: seq<string>)
    ensures AllLetters(NonBlank(ss)) == AllLetters(ss)
  {
    if ss != [] {
      LettersOfNonBlank(ss[1..]);
      LettersOfStrip(ss[0]);
      var rest := NonBlank(ss[1..]);
      assert [] + rest == rest && ([ss[0]] + rest)[1..] == rest;
    }
  }

  // The sentences of a text hold all of it but white space, in order.
  lemma SentencesKeepLetters(t: string)
    ensures AllLetters(Sentences(t)) == Letters(t)
  {
    LettersOfStrip(t);
    if Strip(t) != "" {
      LettersOfSplit(Strip(t));
      LettersOfNonBlank(Split(Strip(t)));
    }
  }

  // A trimmed text is one sentence exactly when no white space in it follows a full stop, an
  // exclamation mark or a question mark.
  lemma OneSentenceExactly(t: string)
    requires t != "" && !IsSpace(t[0]) && !IsSpace(t[|t|-1])
    ensures Sentences(t) == [t] <==> forall k :: 0 < k < |t| && IsSpace(t[k]) ==> t[k-1] !in {'.', '!', '?'}
  {
    StripIdle(t);
    if forall k :: 0 < k < |t| && IsSpace(t[k]) ==> t[k-1] !in {'.', '!', '?'} {
      OneSentence(t);
    } else {
      var k :| 0 < k < |t| && IsSpace(t[k]) && t[k-1] in {'.', '!', '?'};
      assert CutsAt(t, k) && FirstCut(t, 0) <= k;
      SplitChains(t);
      NonBlankIdle(Split(t));
      CutApart(t);
    }
  }

  lemma {:induction false} JoinEdges(ss: seq<string>)
    requires Chain(ss) && ss != []
    ensures Join(ss) != "" && Join(ss)[0] == ss[0][0] && !IsSpace(Join(ss)[|Join(ss)|-1])
  {
    if |ss| > 1 {
      JoinEdges(ss[1..]);
    }
  }

  // The first separator of a joined text is the space after its first sentence.
  lemma FirstCutOfJoin(head: string, rest: string)
    requires Whole(head) && IsEnd(head[|head|-1]) && rest != "" && !IsSpace(rest[0])
    ensures var t := head + " " + rest;
            FirstCut(t, 0) == |head| && SkipSpace(t, |head|) == |head| + 1
  {
    var t := head + " " + rest;
    var n := |head|;
    assert t[n] == ' ' && t[n-1] == head[n-1] && t[n+1] == rest[0];
    assert CutsAt(t, n);
    assert forall m :: 0 <= m < n && CutsAt(t, m) ==> CutsAt(head, m);
  }

  lemma SplitStep(head: string, rest: string)
    requires Whole(head) && IsEnd(head[|head|-1]) && rest != "" && !IsSpace(rest[0])
    ensures Split(head + " " + rest) == [head] + Split(rest)
  {
    FirstCutOfJoin(head, rest);
    var t := head + " " + rest;
    assert t[..|head|] == head && t[|head| + 1..] == rest;
  }

  lemma SplitWhole(t: string)
    requires Whole(t)
    ensures Split(t) == [t]
  {
    assert FirstCut(t, 0) == |t|;
  }

  lemma ChainTail(ss: seq<string>)
    requires Chain(ss) && |ss| > 1
    ensures Chain(ss[1..]) && Whole(ss[0]) && IsEnd(ss[0][|ss[0]|-1]) && Join(ss) == ss[0] + " " + Join(ss[1..])
  {
  }

  lemma {:induction false} SplitJoin(ss: seq<string>)
    requires Chain(ss) && ss != []
    ensures Split(Join(ss)) == ss
  {
    if |ss| == 1 {
      SplitWhole(ss[0]);
    } else {
      ChainTail(ss);
      SplitJoin(ss[1..]);
      JoinEdges(ss[1..]);
      SplitStep(ss[0], Join(ss[1..]));
    }
  }

  // Splitting the joined sentences of any chain gives the chain back.
  lemma JoinThenSplit(ss: seq<string>)
    requires Chain(ss)
    ensures Sentences(Join(ss)) == ss
  {
    if ss != [] {
      JoinEdges(ss);
      StripIdle(Join(ss));
      SplitJoin(ss);
      NonBlankIdle(ss);
    }
  }

  // --- The filter ---

  predicate CitesSome(s: string, valid: set<RecordId>) {
    exists id :: id in CitedIds(s) && id in valid
  }

  function Kept(ss: seq<string>, valid: set<RecordId>): seq<string> {
    if ss == [] then []
    else (if CitesSome(ss[0], valid) then [ss[0]] else []) + Kept(ss[1..], valid)
  }

  lemma {:induction false} KeptIsSubsequence(ss: seq<string>, valid: set<RecordId>)
    ensures |Kept(ss, valid)| <= |ss|
    ensures forall s :: s in Kept(ss, valid) <==> s in ss && CitesSome(s, valid)
  {
    if ss != [] {
      KeptIsSubsequence(ss[1..], valid);
      assert ss == [ss[0]] + ss[1..];
    }
  }

  // Dropping sentences keeps a chain a chain.
  lemma {:induction false} KeptChains(ss: seq<string>, valid: set<RecordId>)
    requires Chain(ss)
    ensures Chain(Kept(ss, valid))
  {
    if ss != [] {
      KeptChains(ss[1..], valid);
      KeptIsSubsequence(ss[1..], valid);
      var rest := Kept(ss[1..], valid);
      assert ([ss[0]] + rest)[1..] == rest && [] + rest == rest;
    }
  }

  lemma {:induction false} KeptAppend(ss: seq<string>, s: string, valid: set<RecordId>)
    ensures Kept(ss + [s], valid) == Kept(ss, valid) + if CitesSome(s, valid) then [s] else []
  {
    if ss == [] {
      assert ss + [s] == [s];
    } else {
      assert (ss + [s])[1..] == ss[1..] + [s];
      KeptAppend(ss[1..], s, valid);
    }
  }

  ghost predicate CitedIn(ss: seq<string>, id: RecordId) {
    exists s :: s in ss && id in CitedIds(s)
  }

  // `_filter_uncited_claims`
  method FilterUncitedClaims(rawAnswer: string, valid: set<RecordId>)
    returns (kept: seq<string>, dropped: nat, cited: set<RecordId>)
    ensures kept == Kept(Sentences(rawAnswer), valid)
    ensures forall s :: s in kept <==> s in Sentences(rawAnswer) && exists id :: id in valid && id in CitedIds(s)
    ensures |kept| + dropped == |Sentences(rawAnswer)|
    ensures forall id :: id in cited <==> id in valid && CitedIn(kept, id)
  {
    var sentences := Sentences(rawAnswer);
    kept, dropped, cited := [], 0, {};
    for i := 0 to |sentences|
      invariant kept == Kept(sentences[..i], valid) && |kept| + dropped == i
      invariant forall id :: id in cited <==> id in valid && CitedIn(kept, id)
    {
      var sentence := sentences[i];
      KeptAppend(sentences[..i], sentence, valid);
      assert sentences[..i + 1] == sentences[..i] + [sentence];
      var resolved := set id | id in CitedIds(sentence) && id in valid;
      if resolved != {} {
        assert exists id :: id in resolved;
        kept := kept + [sentence];
        cited := cited + resolved;
      } else {
        dropped := dropped + 1;
        assert forall id :: id in CitedIds(sentence) && id in valid ==> id in resolved;
      }
    }
    assert sentences[..|sentences|] == sentences;
    KeptIsSubsequence(sentences, valid);
  }

  // The positions of the sentences with a marker in them.
  ghost function MarkedPositions(ss: seq<string>): set<nat> {
    set i: nat | i < |ss| && exists id :: Marked(ss[i], id)
  }

  lemma {:induction false} CitedCountSnoc(ss: seq<string>, s: string)
    ensures CitedCount(ss + [s]) == CitedCount(ss) + if CitedIds(s) != [] then 1 else 0
  {
    if ss == [] {
      assert ss + [s] == [s];
    } else {
      assert (ss + [s])[1..] == ss[1..] + [s];
      CitedCountSnoc(ss[1..], s);
    }
  }

  lemma MarkedSnoc(ss: seq<string>, s: string)
    ensures MarkedPositions(ss + [s]) == MarkedPositions(ss) + if exists id :: Marked(s, id) then {|ss|} else {}
  {
    var all := ss + [s];
    assert forall i: nat :: i < |ss| ==> all[i] == ss[i];
    assert all[|ss|] == s;
  }

  lemma {:induction false} CitedCountCounts(ss: seq<string>)
    ensures CitedCount(ss) == |MarkedPositions(ss)|
  {
    if ss == [] {
      assert MarkedPositions(ss) == {};
    } else {
      var n := |ss| - 1;
      var before, last := ss[..n], ss[n];
      CitedCountCounts(before);
      CitedCountSnoc(before, last);
      CitedExactlyWhenMarked(last);
      MarkedSnoc(before, last);
      assert before + [last] == ss;
      assert n !in MarkedPositions(before);
    }
  }

  // The coverage of an answer is the share of its sentences that carry a marker.
  lemma CoverageIsShare(answer: string, ss: seq<string>)
    requires ss == Sentences(answer)
    ensures CitationCoverage(answer) == if ss == [] then 1.0 else |MarkedPositions(ss)| as real / |ss| as real
  {
    CitedCountCounts(ss);
  }

  lemma {:induction false} AllCited(ss: seq<string>)
    requires forall s :: s in ss ==> CitedIds(s) != []
    ensures CitedCount(ss) == |ss|
  {
    if ss != [] {
      AllCited(ss[1..]);
    }
  }

  lemma CoverageOfCited(answer: string)
    requires forall s :: s in Sentences(answer) ==> CitedIds(s) != []
    ensures CitationCoverage(answer) == 1.0
  {
    AllCited(Sentences(answer));
    SelfQuotient(|Sentences(answer)|);
  }

  lemma SelfQuotient(n: nat)
    ensures n > 0 ==> n as real / n as real == 1.0
  {}

  // Splitting the published answer gives back exactly the kept sentences, for any raw text;
  // so the citation metric of the answer is always 1.
  lemma AnswerSplitsToKept(rawAnswer: string, valid: set<RecordId>)
    ensures var kept := Kept(Sentences(rawAnswer), valid);
            Sentences(Join(kept)) == kept && CitationCoverage(Join(kept)) == 1.0
  {
    var kept := Kept(Sentences(rawAnswer), valid);
    SentencesChain(rawAnswer);
    KeptChains(Sentences(rawAnswer), valid);
    JoinThenSplit(kept);
    KeptIsSubsequence(Sentences(rawAnswer), valid);
    CoverageOfCited(Join(kept));
  }

  datatype SynthesisResult = SynthesisResult(answer: string, cited: set<RecordId>, dropped: nat, coverage: Option<real>)

  // `synthesize`, given the ids of the gathered records and the model's raw answer.
  method Synthesize(recordIds: seq<RecordId>, rawAnswer: string) returns (r: SynthesisResult)
    ensures recordIds == [] ==> r == SynthesisResult("", {}, 0, None)
    ensures forall id :: id in r.cited <==> id in recordIds && CitedIn(Sentences(r.answer), id)
    ensures forall s :: s in Sentences(r.answer) ==> exists id :: id in CitedIds(s) && id in r.cited
    ensures recordIds != [] ==> |Sentences(r.answer)| + r.dropped == |Sentences(rawAnswer)|
    ensures recordIds != [] ==> r.coverage == Some(CitationCoverage(r.answer)) == Some(1.0)
  {
    if recordIds == [] {
      return SynthesisResult("", {}, 0, None);
    }
    var valid := set id | id in recordIds;
    var kept, dropped, cited := FilterUncitedClaims(rawAnswer, valid);
    AnswerSplitsToKept(rawAnswer, valid);
    KeptIsSubsequence(Sentences(rawAnswer), valid);
    var answer := Join(kept);
    r := SynthesisResult(answer, cited, dropped, Some(CitationCoverage(answer)));
    forall s | s in kept
      ensures exists id :: id in CitedIds(s) && id in cited
    {
      var id :| id in CitedIds(s) && id in valid;
      assert CitedIn(kept, id);
    }
  }

  // The prompt says a sentence citing an unknown id is discarded. A sentence that also cites
  // a known one is kept, so that holds exactly of raw answers without such sentences.
  predicate Mixed(s: string, valid: set<RecordId>) {
    CitesSome(s, valid) && exists id :: id in CitedIds(s) && id !in valid
  }

  lemma UnknownIdsDiscardedExactly(rawAnswer: string, valid: set<RecordId>)
    ensures (forall s, id :: s in Sentences(Join(Kept(Sentences(rawAnswer), valid))) && id in CitedIds(s) ==>
              id in valid)
            <==> forall s :: s in Sentences(rawAnswer) ==> !Mixed(s, valid)
  {
    AnswerSplitsToKept(rawAnswer, valid);
    KeptIsSubsequence(Sentences(rawAnswer), valid);
  }

  function Marker(id: RecordId): string { OPEN + id + "]]" }

  predicate Plain(id: RecordId) { id != "" && forall c :: c in id ==> c != ']' && !IsSpace(c) }

  // A fabricated citation that survives next to a real one.
  lemma FabricatedIdSurvives(known: RecordId, fabricated: RecordId)
    requires Plain(known) && Plain(fabricated) && known != fabricated
    ensures var raw := Marker(known) + Marker(fabricated);
            Kept(Sentences(raw), {known}) == [raw] && CitedIds(raw) == [known, fabricated]
  {
    var raw := Marker(known) + Marker(fabricated);
    TwoMarkers(known, fabricated);
    assert CitedIds(raw)[0] == known;
    UnspacedIsOneSentence(known, fabricated);
    KeptIsSubsequence([raw], {known});
  }

  lemma TwoMarkers(a: RecordId, b: RecordId)
    requires Plain(a) && Plain(b)
    ensures CitedIds(Marker(a) + Marker(b)) == [a, b]
  {
    var raw := Marker(a) + Marker(b);
    var n := |Marker(a)|;
    assert raw[0..n] == Marker(a) && raw[n..|raw|] == Marker(b);
    TwoMatches(raw, a, b, n);
  }

  lemma TwoMatches(raw: string, a: RecordId, b: RecordId, n: nat)
    requires Plain(a) && Plain(b) && n == |OPEN| + |a| + 2 && |raw| == n + |OPEN| + |b| + 2
    requires MarkedAt(raw, a, 0) && MarkedAt(raw, b, n)
    ensures CitedIds(raw) == [a, b]
  {
    MatchAt(raw, a, 0);
    MatchAt(raw, b, n);
    assert FindAll(raw, |raw|) == [];
    assert CitedIds(raw) == [a] + [b];
  }

  lemma OneSentence(t: string)
    requires Whole(t)
    ensures Sentences(t) == [t]
  {
    var ss := [t];
    assert ss[1..] == [];
    assert Chain(ss);
    assert Join(ss) == t;
    JoinThenSplit(ss);
  }

  lemma UnspacedIsOneSentence(a: RecordId, b: RecordId)
    requires Plain(a) && Plain(b)
    ensures Sentences(Marker(a) + Marker(b)) == [Marker(a) + Marker(b)]
  {
    var raw := Marker(a) + Marker(b);
    MarkerUnspaced(a);
    MarkerUnspaced(b);
    forall k | 0 <= k < |raw| ensures !IsSpace(raw[k]) {
      assert raw[k] == if k < |Marker(a)| then Marker(a)[k] else Marker(b)[k - |Marker(a)|];
    }
    forall k | 0 <= k < |raw| ensures !CutsAt(raw, k) {
      assert !IsSpace(raw[k]);
    }
    OneSentence(raw);
  }

  lemma MarkerUnspaced(id: RecordId)
    requires Plain(id)
    ensures forall k :: 0 <= k < |Marker(id)| ==> !IsSpace(Marker(id)[k])
  {
    assert forall k :: 0 <= k < |OPEN| ==> !IsSpace(OPEN[k]);
    assert forall k :: 0 <= k < |id| ==> id[k] in id;
  }
}
