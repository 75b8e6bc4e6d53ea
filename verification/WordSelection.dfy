/** `masks` and the subset search of `choose` (its body below the placeholder `raise`).  A 26-bit
    mask is the set of its letters: `&`, `|` and `bit_count` are intersection, union and size. */
module WordSelection {
  import opened Outcomes

  type Mask = set<char>

  predicate Lowercase(word: string) {
    forall k :: 0 <= k < |word| ==> 'a' <= word[k] <= 'z'
  }

  predicate RepeatFree(word: string) {
    forall j, k :: 0 <= j < k < |word| ==> word[j] != word[k]
  }

  function MaskOf(word: string): Option<Mask> {
    if RepeatFree(word) then Some(set c | c in word) else None
  }

  /** `masks`: None is its ValueError for a character outside a-z. */
  method Masks(words: seq<string>) returns (r: Option<seq<Option<Mask>>>)
    ensures r.Some? <==> forall k :: 0 <= k < |words| ==> Lowercase(words[k])
    ensures r.Some? ==> |r.value| == |words| && forall k :: 0 <= k < |words| ==> r.value[k] == MaskOf(words[k])
  {
    var out: seq<Option<Mask>> := [];
    for i := 0 to |words|
      invariant |out| == i
      invariant forall k :: 0 <= k < i ==> Lowercase(words[k]) && out[k] == MaskOf(words[k])
    {
      var word := words[i];
      if exists k :: 0 <= k < |word| && !('a' <= word[k] <= 'z') { return None; }
      var mask: Mask, valid := {}, true;
      for j := 0 to |word|
        invariant mask == set c | c in word[..j]
        invariant valid == RepeatFree(word[..j])
      {
        var prefix := word[..j];
        assert word[..j + 1] == prefix + [word[j]];
        if word[j] in mask {
          var k :| 0 <= k < j && prefix[k] == word[j];
          assert word[..j + 1][k] == word[..j + 1][j];
          valid := false;
        } else {
          assert forall k :: 0 <= k < j ==> prefix[k] in mask;
          assert forall a, b :: 0 <= a < b < j ==> word[..j + 1][a] == prefix[a] && word[..j + 1][b] == prefix[b];
        }
        mask := mask + {word[j]};
      }
      assert word[..|word|] == word;
      out := out + [if valid then Some(mask) else None];
    }
    return Some(out);
  }

  // ---------- Selections and their order ----------

  /** Python's comparison of two lists of indices. */
  predicate LexLess(a: seq<nat>, b: seq<nat>) {
    if b == [] then false
    else if a == [] then true
    else if a[0] != b[0] then a[0] < b[0]
    else LexLess(a[1..], b[1..])
  }

  /** Up to k the two agree, and there `a` ends or has the smaller index. */
  predicate SmallerAt(a: seq<nat>, b: seq<nat>, k: nat) {
    k <= |a| && k < |b| && a[..k] == b[..k] && (k == |a| || a[k] < b[k])
  }

  lemma {:induction false} LexByFirstDifference(a: seq<nat>, b: seq<nat>)
    ensures LexLess(a, b) <==> exists k: nat :: SmallerAt(a, b, k)
  {
    if a == [] || b == [] {
      assert b != [] ==> SmallerAt(a, b, 0);
    } else if a[0] != b[0] {
      assert a[0] < b[0] ==> SmallerAt(a, b, 0);
    } else {
      LexByFirstDifference(a[1..], b[1..]);
      if k: nat :| SmallerAt(a[1..], b[1..], k) {
        assert a[..k + 1] == [a[0]] + a[1..][..k] && b[..k + 1] == [b[0]] + b[1..][..k];
        assert SmallerAt(a, b, k + 1);
      }
      if k: nat :| SmallerAt(a, b, k) {
        assert a[1..][..k - 1] == a[..k][1..] && b[1..][..k - 1] == b[..k][1..];
        assert SmallerAt(a[1..], b[1..], k - 1);
      }
    }
  }

  /** `(len(a), a) < (len(b), b)`. */
  predicate ShortLess(a: seq<nat>, b: seq<nat>) {
    |a| < |b| || (|a| == |b| && LexLess(a, b))
  }

  predicate NoWorse(a: seq<nat>, b: seq<nat>) {
    a == b || ShortLess(a, b)
  }

  lemma LexTotal(a: seq<nat>, b: seq<nat>)
    ensures a == b || LexLess(a, b) || LexLess(b, a)
    ensures !(LexLess(a, b) && LexLess(b, a)) && !LexLess(a, a)
  {
    if a != [] && b != [] && a[0] == b[0] {
      LexTotal(a[1..], b[1..]);
      if a[1..] == b[1..] { assert a == [a[0]] + a[1..] && b == [b[0]] + b[1..]; }
    }
  }

  lemma LexTransitive(a: seq<nat>, b: seq<nat>, c: seq<nat>)
    requires LexLess(a, b) && LexLess(b, c)
    ensures LexLess(a, c)
  {
  }

  lemma NoWorseTransitive(a: seq<nat>, b: seq<nat>, c: seq<nat>)
    requires NoWorse(a, b) && NoWorse(b, c)
    ensures NoWorse(a, c)
  {
    if LexLess(a, b) && LexLess(b, c) { LexTransitive(a, b, c); }
  }

  lemma {:induction false} LexAppend(a: seq<nat>, b: seq<nat>, x: nat)
    requires |a| == |b| && LexLess(a, b)
    ensures LexLess(a + [x], b + [x])
  {
    assert (a + [x])[1..] == a[1..] + [x] && (b + [x])[1..] == b[1..] + [x];
    if a[0] == b[0] { LexAppend(a[1..], b[1..], x); }
  }

  lemma NoWorseAppend(a: seq<nat>, b: seq<nat>, x: nat)
    requires NoWorse(a, b)
    ensures NoWorse(a + [x], b + [x])
  {
    if |a| == |b| && a != b { LexAppend(a, b, x); }
  }

  /** A legal selection of the first n words: increasing indices of repeat-free words, no letter
      shared by two of them. */
  ghost predicate Legal(ms: seq<Option<Mask>>, n: nat, s: seq<nat>)
    requires n <= |ms|
  {
    && (forall k :: 0 <= k < |s| ==> s[k] < n && ms[s[k]].Some?)
    && (forall j, k :: 0 <= j < k < |s| ==> s[j] < s[k] && ms[s[j]].value !! ms[s[k]].value)
  }

  ghost function Covered(ms: seq<Option<Mask>>, s: seq<nat>): Mask
    requires Legal(ms, |ms|, s)
  {
    if s == [] then {} else Covered(ms, s[..|s| - 1]) + ms[s[|s| - 1]].value
  }

  ghost predicate Reaches(ms: seq<Option<Mask>>, n: nat, s: seq<nat>, m: Mask)
    requires n <= |ms|
  {
    Legal(ms, n, s) && Legal(ms, |ms|, s) && Covered(ms, s) == m
  }

  /** The table invariant: exactly the reachable masks, each with its first selection in
      (length, lexicographic) order. */
  ghost predicate Tabulates(ms: seq<Option<Mask>>, n: nat, states: map<Mask, seq<nat>>)
    requires n <= |ms|
  {
    && (forall m :: m in states ==> Reaches(ms, n, states[m], m))
    && (forall s :: Legal(ms, n, s) && Legal(ms, |ms|, s) ==>
          Covered(ms, s) in states && NoWorse(states[Covered(ms, s)], s))
  }

  lemma {:induction false} InCovered(ms: seq<Option<Mask>>, s: seq<nat>, c: char)
    requires Legal(ms, |ms|, s)
    ensures c in Covered(ms, s) <==> exists k :: 0 <= k < |s| && c in ms[s[k]].value
  {
    if s == [] {
    } else {
      var front := s[..|s| - 1];
      InCovered(ms, front, c);
      if k :| 0 <= k < |s| && c in ms[s[k]].value {
        assert k < |s| - 1 ==> c in ms[front[k]].value;
      }
      if k :| 0 <= k < |front| && c in ms[front[k]].value {
        assert c in ms[s[k]].value;
      }
    }
  }

  lemma CanExtend(ms: seq<Option<Mask>>, n: nat, s: seq<nat>)
    requires n < |ms| && ms[n].Some? && Legal(ms, n, s) && Legal(ms, |ms|, s)
    ensures Covered(ms, s) !! ms[n].value <==> Legal(ms, n + 1, s + [n])
    ensures Legal(ms, n + 1, s + [n]) ==> Reaches(ms, n + 1, s + [n], Covered(ms, s) + ms[n].value)
  {
    forall c ensures c in Covered(ms, s) <==> exists k :: 0 <= k < |s| && c in ms[s[k]].value {
      InCovered(ms, s, c);
    }
    var t := s + [n];
    assert t[..|s|] == s;
    if Legal(ms, n + 1, t) {
      forall k | 0 <= k < |s| ensures ms[s[k]].value !! ms[n].value {
        assert t[k] == s[k] && t[|s|] == n;
      }
    }
  }

  /** After the words up to n, a legal selection either was legal before or ends in word n. */
  lemma LastWord(ms: seq<Option<Mask>>, n: nat, s: seq<nat>)
    requires n < |ms| && Legal(ms, n + 1, s) && !Legal(ms, n, s)
    ensures s != [] && s[|s| - 1] == n && ms[n].Some? && Legal(ms, n, s[..|s| - 1])
  {
    var k :| 0 <= k < |s| && s[k] == n;
    assert k == |s| - 1;
  }

  // ---------- One word of the search ----------

  /** `states` is `old` with the selections of `done` extended by word i. */
  ghost predicate Extended(before: map<Mask, seq<nat>>, mask: Mask, i: nat, done: set<Mask>,
                           states: map<Mask, seq<nat>>)
  {
    && done <= before.Keys
    && forall m ::
         var hit := mask <= m && m - mask in done;
         (m in states <==> m in before || hit) &&
         (m in states ==> states[m] == if hit && (m !in before || ShortLess(before[m - mask] + [i], before[m]))
                                       then before[m - mask] + [i] else before[m])
  }

  lemma DisjointUnion(used: Mask, mask: Mask)
    requires used * mask == {}
    ensures mask <= used + mask && (used + mask) - mask == used
    ensures forall m :: mask <= m && m - mask == used ==> m == used + mask
  {
    forall c | c in used ensures c !in mask {
      assert c in used * mask <==> c in mask;
    }
    forall m | mask <= m && m - mask == used ensures m == used + mask {
      assert m == (m - mask) + mask;
    }
  }

  /** The table after one more disjoint state has been extended. */
  lemma OneMoreExtended(before: map<Mask, seq<nat>>, mask: Mask, i: nat, done: set<Mask>, states: map<Mask, seq<nat>>,
                        used: Mask)
    requires Extended(before, mask, i, done, states) && used in before && used !in done && used * mask == {}
    ensures var combined, candidate := used + mask, before[used] + [i];
            Extended(before, mask, i, done + {used},
                     if combined !in states || ShortLess(candidate, states[combined])
                     then states[combined := candidate] else states)
  {
    DisjointUnion(used, mask);
  }

  lemma OneMoreOverlaps(before: map<Mask, seq<nat>>, mask: Mask, i: nat, done: set<Mask>, states: map<Mask, seq<nat>>,
                        used: Mask)
    requires Extended(before, mask, i, done, states) && used in before && used * mask != {}
    ensures Extended(before, mask, i, done + {used}, states)
  {
    var c :| c in used * mask;
    forall m | mask <= m ensures m - mask != used {
      assert c !in m - mask;
    }
  }

  method ExtendStates(before: map<Mask, seq<nat>>, mask: Mask, i: nat) returns (states: map<Mask, seq<nat>>)
    ensures Extended(before, mask, i, before.Keys, states)
  {
    states := before;
    var rest := before.Keys;
    ghost var done := {};
    while rest != {}
      invariant rest == before.Keys - done
      invariant Extended(before, mask, i, done, states)
    {
      var used :| used in rest;
      rest := rest - {used};
      if used * mask == {} {
        var combined := used + mask;
        var candidate := before[used] + [i];
        OneMoreExtended(before, mask, i, done, states, used);
        if combined !in states || ShortLess(candidate, states[combined]) {
          states := states[combined := candidate];
        }
      } else {
        OneMoreOverlaps(before, mask, i, done, states, used);
      }
      done := done + {used};
    }
    assert done == before.Keys;
  }

  /** An entry is either carried over or the extension of an earlier one. */
  lemma EntryOrigin(before: map<Mask, seq<nat>>, mask: Mask, n: nat, states: map<Mask, seq<nat>>, m: Mask)
    requires Extended(before, mask, n, before.Keys, states) && m in states
    ensures (m in before && states[m] == before[m]) ||
            (mask <= m && m - mask in before && states[m] == before[m - mask] + [n])
  {
  }

  lemma ExtensionReaches(ms: seq<Option<Mask>>, n: nat, s: seq<nat>, m: Mask)
    requires n < |ms| && ms[n].Some? && ms[n].value <= m && Reaches(ms, n, s, m - ms[n].value)
    ensures Reaches(ms, n + 1, s + [n], m)
  {
    CanExtend(ms, n, s);
    assert (m - ms[n].value) + ms[n].value == m;
  }

  lemma EntryReached(ms: seq<Option<Mask>>, n: nat, before: map<Mask, seq<nat>>, states: map<Mask, seq<nat>>, m: Mask)
    requires n < |ms| && ms[n].Some? && Tabulates(ms, n, before) && m in states
    requires Extended(before, ms[n].value, n, before.Keys, states)
    ensures Reaches(ms, n + 1, states[m], m)
  {
    EntryOrigin(before, ms[n].value, n, states, m);
    if m in before && states[m] == before[m] {
      assert Reaches(ms, n, before[m], m);
    } else {
      ExtensionReaches(ms, n, before[m - ms[n].value], m);
    }
  }

  /** A selection that ends in word n is no better than the candidate built from its front. */
  lemma CandidateNoWorse(ms: seq<Option<Mask>>, n: nat, before: map<Mask, seq<nat>>, s: seq<nat>)
    requires n < |ms| && ms[n].Some? && Tabulates(ms, n, before)
    requires Legal(ms, n + 1, s) && Legal(ms, |ms|, s) && !Legal(ms, n, s)
    ensures ms[n].value <= Covered(ms, s) && Covered(ms, s) - ms[n].value in before
    ensures NoWorse(before[Covered(ms, s) - ms[n].value] + [n], s)
  {
    LastWord(ms, n, s);
    var front := s[..|s| - 1];
    assert front + [n] == s;
    CanExtend(ms, n, front);
    var prior := Covered(ms, front);
    assert Covered(ms, s) - ms[n].value == prior;
    assert prior in before && NoWorse(before[prior], front);
    NoWorseAppend(before[prior], front, n);
  }

  lemma MergedNoWorse(before: map<Mask, seq<nat>>, mask: Mask, n: nat, states: map<Mask, seq<nat>>, m: Mask)
    requires Extended(before, mask, n, before.Keys, states)
    ensures m in before ==> m in states && NoWorse(states[m], before[m])
    ensures mask <= m && m - mask in before ==> m in states && NoWorse(states[m], before[m - mask] + [n])
  {
    if m in before && mask <= m && m - mask in before { LexTotal(before[m - mask] + [n], before[m]); }
  }

  lemma EntryBest(ms: seq<Option<Mask>>, n: nat, before: map<Mask, seq<nat>>, states: map<Mask, seq<nat>>, s: seq<nat>)
    requires n < |ms| && ms[n].Some? && Tabulates(ms, n, before)
    requires Extended(before, ms[n].value, n, before.Keys, states)
    requires Legal(ms, n + 1, s) && Legal(ms, |ms|, s)
    ensures Covered(ms, s) in states && NoWorse(states[Covered(ms, s)], s)
  {
    var m, mask := Covered(ms, s), ms[n].value;
    MergedNoWorse(before, mask, n, states, m);
    if Legal(ms, n, s) {
      assert NoWorse(before[m], s);
      NoWorseTransitive(states[m], before[m], s);
    } else {
      CandidateNoWorse(ms, n, before, s);
      NoWorseTransitive(states[m], before[m - mask] + [n], s);
    }
  }

  lemma TableGrows(ms: seq<Option<Mask>>, n: nat, before: map<Mask, seq<nat>>, states: map<Mask, seq<nat>>)
    requires n < |ms| && ms[n].Some? && Tabulates(ms, n, before)
    requires Extended(before, ms[n].value, n, before.Keys, states)
    ensures Tabulates(ms, n + 1, states)
  {
    forall m | m in states ensures Reaches(ms, n + 1, states[m], m) {
      EntryReached(ms, n, before, states, m);
    }
    forall s | Legal(ms, n + 1, s) && Legal(ms, |ms|, s)
      ensures Covered(ms, s) in states && NoWorse(states[Covered(ms, s)], s)
    {
      EntryBest(ms, n, before, states, s);
    }
  }

  lemma TableSkips(ms: seq<Option<Mask>>, n: nat, states: map<Mask, seq<nat>>)
    requires n < |ms| && ms[n].None? && Tabulates(ms, n, states)
    ensures Tabulates(ms, n + 1, states)
  {
    forall s | Legal(ms, n + 1, s) && Legal(ms, |ms|, s) ensures Legal(ms, n, s) {
      if !Legal(ms, n, s) { LastWord(ms, n, s); }
    }
  }

  // ---------- The best final state ----------

  /** `(-bit_count, len, list)` of one entry is at most that of another. */
  predicate KeyAtMost(m: Mask, s: seq<nat>, m': Mask, s': seq<nat>) {
    |m| > |m'| || (|m| == |m'| && NoWorse(s, s'))
  }

  method BestState(states: map<Mask, seq<nat>>) returns (best: Mask)
    requires states != map[]
    ensures best in states
    ensures forall m :: m in states ==> KeyAtMost(best, states[best], m, states[m])
  {
    best :| best in states;
    var rest := states.Keys - {best};
    while rest != {}
      invariant best in states && rest <= states.Keys
      invariant forall m :: m in states && m !in rest ==> KeyAtMost(best, states[best], m, states[m])
    {
      var m :| m in rest;
      rest := rest - {m};
      LexTotal(states[m], states[best]);
      if !KeyAtMost(best, states[best], m, states[m]) {
        forall k | k in states && k !in rest ensures KeyAtMost(m, states[m], k, states[k]) {
          if k != m && |m| == |best| == |k| { NoWorseTransitive(states[m], states[best], states[k]); }
        }
        best := m;
      }
    }
  }

  // ---------- The contract, in terms of words ----------

  /** Distinct indices in range, in order, and no letter twice in the concatenated words. */
  ghost predicate LegalSelection(words: seq<string>, s: seq<nat>) {
    && (forall k :: 0 <= k < |s| ==> s[k] < |words| && RepeatFree(words[s[k]]))
    && (forall j, k :: 0 <= j < k < |s| ==> s[j] < s[k] && forall c :: !(c in words[s[j]] && c in words[s[k]]))
  }

  ghost function TotalLetters(words: seq<string>, s: seq<nat>): nat
    requires forall k :: 0 <= k < |s| ==> s[k] < |words|
  {
    if s == [] then 0 else TotalLetters(words, s[..|s| - 1]) + |words[s[|s| - 1]]|
  }

  /** More letters, then fewer words, then the smaller index list. */
  ghost predicate AtLeastAsGood(words: seq<string>, a: seq<nat>, b: seq<nat>)
    requires forall k :: 0 <= k < |a| ==> a[k] < |words|
    requires forall k :: 0 <= k < |b| ==> b[k] < |words|
  {
    TotalLetters(words, a) > TotalLetters(words, b) ||
      (TotalLetters(words, a) == TotalLetters(words, b) && NoWorse(a, b))
  }

  lemma RepeatFreeSize(word: string)
    requires RepeatFree(word)
    ensures |set c | c in word| == |word|
  {
    if word != "" {
      var front, last := word[..|word| - 1], word[|word| - 1];
      RepeatFreeSize(front);
      assert (set c | c in word) == (set c | c in front) + {last};
      assert last !in front;
    }
  }

  ghost predicate MasksOf(words: seq<string>, ms: seq<Option<Mask>>) {
    |ms| == |words| && forall k :: 0 <= k < |words| ==> ms[k] == MaskOf(words[k])
  }

  lemma LegalByWords(words: seq<string>, ms: seq<Option<Mask>>, s: seq<nat>)
    requires MasksOf(words, ms)
    ensures Legal(ms, |ms|, s) <==> LegalSelection(words, s)
  {
    if Legal(ms, |ms|, s) {
      forall j, k | 0 <= j < k < |s| ensures forall c :: !(c in words[s[j]] && c in words[s[k]]) {
        assert ms[s[j]].value !! ms[s[k]].value;
        assert forall c :: c in words[s[j]] ==> c in ms[s[j]].value;
        assert forall c :: c in words[s[k]] ==> c in ms[s[k]].value;
      }
    }
  }

  lemma {:induction false} LettersCovered(words: seq<string>, ms: seq<Option<Mask>>, s: seq<nat>)
    requires MasksOf(words, ms) && Legal(ms, |ms|, s)
    ensures |Covered(ms, s)| == TotalLetters(words, s)
  {
    if s == [] {
    } else {
      var front, last := s[..|s| - 1], s[|s| - 1];
      LettersCovered(words, ms, front);
      RepeatFreeSize(words[last]);
      forall c | c in Covered(ms, front) ensures c !in ms[last].value {
        InCovered(ms, front, c);
      }
    }
  }

  lemma BestOfTable(words: seq<string>, ms: seq<Option<Mask>>, states: map<Mask, seq<nat>>, best: Mask)
    requires MasksOf(words, ms) && Tabulates(ms, |ms|, states) && best in states
    requires forall m :: m in states ==> KeyAtMost(best, states[best], m, states[m])
    ensures LegalSelection(words, states[best])
    ensures forall t :: LegalSelection(words, t) ==> AtLeastAsGood(words, states[best], t)
  {
    assert Reaches(ms, |ms|, states[best], best);
    LegalByWords(words, ms, states[best]);
    LettersCovered(words, ms, states[best]);
    forall t | LegalSelection(words, t) ensures AtLeastAsGood(words, states[best], t) {
      LegalByWords(words, ms, t);
      LettersCovered(words, ms, t);
      var m := Covered(ms, t);
      assert m in states && NoWorse(states[m], t);
      if |best| == |m| { NoWorseTransitive(states[best], states[m], t); }
    }
  }

  lemma StartTable(ms: seq<Option<Mask>>)
    ensures Tabulates(ms, 0, map[{} := []])
  {
    forall s: seq<nat> | s != [] ensures !Legal(ms, 0, s) {
      assert s[0] >= 0;
    }
  }

  /** The table after every word. */
  method AllStates(ms: seq<Option<Mask>>) returns (states: map<Mask, seq<nat>>)
    ensures Tabulates(ms, |ms|, states)
  {
    states := map[{} := []];
    StartTable(ms);
    for i := 0 to |ms|
      invariant Tabulates(ms, i, states)
    {
      if ms[i].Some? {
        var next := ExtendStates(states, ms[i].value, i);
        TableGrows(ms, i, states, next);
        states := next;
      } else {
        TableSkips(ms, i, states);
      }
    }
  }

  /** `choose`: None is the ValueError of `masks`; otherwise the unique best legal selection. */
  method Choose(words: seq<string>) returns (r: Option<seq<nat>>)
    ensures r.Some? <==> forall k :: 0 <= k < |words| ==> Lowercase(words[k])
    ensures r.Some? ==> LegalSelection(words, r.value)
    ensures r.Some? ==> forall t :: LegalSelection(words, t) ==> AtLeastAsGood(words, r.value, t)
  {
    var masks := Masks(words);
    if masks.None? { return None; }
    var ms := masks.value;
    var states := AllStates(ms);
    assert states != map[] by {
      assert Legal(ms, |ms|, []) && Covered(ms, []) in states;
    }
    var best := BestState(states);
    BestOfTable(words, ms, states, best);
    return Some(states[best]);
  }

  /** The contract has one answer: two selections that are both at least as good as every legal one
      are the same list. */
  lemma BestIsUnique(words: seq<string>, a: seq<nat>, b: seq<nat>)
    requires LegalSelection(words, a) && forall t :: LegalSelection(words, t) ==> AtLeastAsGood(words, a, t)
    requires LegalSelection(words, b) && forall t :: LegalSelection(words, t) ==> AtLeastAsGood(words, b, t)
    ensures a == b
  {
    LexTotal(a, b);
  }
}
