/** The array operations the components use: `slice(-n)`, `slice(0, n)`, and an insertion-ordered `Set`. */
module Seqs {

  /** `s.slice(-n)` for n > 0: the last `n` elements, or all of `s` when it is shorter. */
  function LastN<T>(s: seq<T>, n: nat): (r: seq<T>)
    requires n > 0
    ensures |r| == if |s| <= n then |s| else n
    ensures r == s[|s| - |r|..]
  {
    if |s| <= n then s else s[|s| - n..]
  }

  /** `s.slice(0, n)`: the first `n` elements, or all of `s` when it is shorter. */
  function Take<T>(s: seq<T>, n: nat): (r: seq<T>)
    ensures |r| == if |s| <= n then |s| else n
    ensures r == s[..|r|]
  {
    if |s| <= n then s else s[..n]
  }

  /** Appending one element to an already capped sequence and capping again keeps the last `n` of everything. */
  lemma {:induction false} LastNAppend<T>(s: seq<T>, x: T, n: nat)
    requires n > 0
    ensures LastN(LastN(s, n) + [x], n) == LastN(s + [x], n)
  {
    var t := LastN(s, n);
    assert t == s[|s| - |t|..];
    assert (s + [x])[|s| - |t|..] == t + [x];
    var full := s + [x];
    if |t + [x]| <= n {
      assert |s| <= n - 1;
      assert t == s;
    } else {
      assert |t + [x]| == n + 1;
      assert (t + [x])[1..] == full[|full| - n..];
    }
  }

  predicate NoDuplicates<T(==)>(s: seq<T>) {
    forall i, j :: 0 <= i < j < |s| ==> s[i] != s[j]
  }

  /**
   * The elements of `s` in order of first occurrence: what a JavaScript `Set` filled from `s`
   * holds, in its iteration order.
   */
  function Dedup<T(==)>(s: seq<T>): (r: seq<T>)
    decreases |s|
  {
    if s == [] then []
    else
      var d := Dedup(s[..|s| - 1]);
      if s[|s| - 1] in d then d else d + [s[|s| - 1]]
  }

  /** The deduplicated sequence has no repeats and holds exactly the elements of the input. */
  lemma {:induction false} DedupFacts<T>(s: seq<T>)
    ensures NoDuplicates(Dedup(s))
    ensures forall x :: x in Dedup(s) <==> x in s
    decreases |s|
  {
    if s != [] {
      var init := s[..|s| - 1];
      DedupFacts(init);
      assert s == init + [s[|s| - 1]];
    }
  }

  /** Deduplicating `a + b` keeps the deduplicated `a` in front, unchanged. */
  lemma {:induction false} DedupPrefix<T>(a: seq<T>, b: seq<T>)
    ensures |Dedup(a)| <= |Dedup(a + b)|
    ensures Dedup(a + b)[..|Dedup(a)|] == Dedup(a)
    decreases |b|
  {
    if b == [] {
      assert a + b == a;
    } else {
      var b' := b[..|b| - 1];
      DedupPrefix(a, b');
      assert (a + b)[..|a + b| - 1] == a + b';
    }
  }

  /** `candidates.filter(c => !seen.includes(c))`. */
  function WithoutSeen<T(==)>(candidates: seq<T>, seen: seq<T>): (r: seq<T>)
    ensures |r| <= |candidates|
    ensures forall x :: x in r ==> x !in seen
    decreases |candidates|
  {
    if candidates == [] then []
    else if candidates[0] in seen then WithoutSeen(candidates[1..], seen)
    else [candidates[0]] + WithoutSeen(candidates[1..], seen)
  }

  /** The filter keeps exactly the candidates not already seen, and never lengthens the list. */
  lemma {:induction false} WithoutSeenFacts<T>(candidates: seq<T>, seen: seq<T>)
    ensures |WithoutSeen(candidates, seen)| <= |candidates|
    ensures forall x :: x in WithoutSeen(candidates, seen) <==> x in candidates && x !in seen
    decreases |candidates|
  {
    if candidates != [] {
      WithoutSeenFacts(candidates[1..], seen);
      assert candidates == [candidates[0]] + candidates[1..];
    }
  }

  /** Candidates that were all seen leave nothing. */
  lemma {:induction false} WithoutSeenAllSeen<T>(candidates: seq<T>, seen: seq<T>)
    requires forall x :: x in candidates ==> x in seen
    ensures WithoutSeen(candidates, seen) == []
    decreases |candidates|
  {
    if candidates != [] {
      assert candidates[0] in candidates;
      WithoutSeenAllSeen(candidates[1..], seen);
    }
  }

  /** The filter keeps the candidates' relative order: its result is a subsequence of the candidates. */
  predicate IsSubsequence<T(==)>(r: seq<T>, s: seq<T>)
    decreases |s|
  {
    if r == [] then true
    else if s == [] then false
    else if r[0] == s[0] then IsSubsequence(r[1..], s[1..])
    else IsSubsequence(r, s[1..])
  }

  lemma {:induction false} WithoutSeenOrdered<T>(candidates: seq<T>, seen: seq<T>)
    ensures IsSubsequence(WithoutSeen(candidates, seen), candidates)
    decreases |candidates|
  {
    if candidates != [] {
      WithoutSeenOrdered(candidates[1..], seen);
      var rest := WithoutSeen(candidates[1..], seen);
      if candidates[0] !in seen {
        assert ([candidates[0]] + rest)[1..] == rest;
      } else if rest != [] {
        WithoutSeenFacts(candidates[1..], seen);
        SubsequenceHeadNotIn(rest, candidates[1..], candidates[0], seen);
      }
    }
  }

  lemma {:induction false} SubsequenceHeadNotIn<T>(r: seq<T>, s: seq<T>, h: T, seen: seq<T>)
    requires IsSubsequence(r, s) && r != [] && h in seen
    requires forall x :: x in r ==> x !in seen
    ensures IsSubsequence(r, [h] + s)
  {
    assert ([h] + s)[1..] == s;
    assert r[0] != h;
  }
}
