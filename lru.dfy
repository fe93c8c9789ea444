/** The replacement policy of the apply trigger's plan cache, on values: a
    list ordered from least to most recently used (the C list's head to
    its tail) and the count applyCacheUsed of plans prepared since the last
    flush. The policy is checked against an independent description of
    least-recently-used caching: after any sequence of lookups the list
    holds the `size` most recently used distinct keys, oldest first. */
module Lru {

  /** The cache key: the text of the prepared statement (the C code keys
      its hash table by the MD5 digest of that text). */
  type Key = string

  predicate Distinct(s: seq<Key>)
  {
    forall i, j :: 0 <= i < j < |s| ==> s[i] != s[j]
  }

  /** s without k, the others in their order. */
  function Remove(s: seq<Key>, k: Key): (r: seq<Key>)
    ensures forall x :: x in r <==> x in s && x != k
    ensures |r| <= |s|
  {
    if |s| == 0 then []
    else if s[|s| - 1] == k then Remove(s[..|s| - 1], k)
    else Remove(s[..|s| - 1], k) + [s[|s| - 1]]
  }

  /** In a list without duplicates, removing a key that is there unlinks
      its one position and keeps the others in their order. */
  lemma {:induction false} RemoveUnlinks(s: seq<Key>, k: Key) returns (i: nat)
    requires Distinct(s) && k in s
    ensures i < |s| && s[i] == k && Remove(s, k) == s[..i] + s[i + 1..]
  {
    var p := s[..|s| - 1];
    var last := s[|s| - 1];
    assert s == p + [last];
    if last == k {
      assert k !in p;
      RemoveAbsent(p, k);
      i := |s| - 1;
    } else {
      assert k in p;
      DistinctPrefix(s);
      i := RemoveUnlinks(p, k);
      UnlinkSnoc(p, last, i);
    }
  }

  lemma DistinctPrefix(s: seq<Key>)
    requires Distinct(s) && |s| > 0
    ensures Distinct(s[..|s| - 1])
  {
  }

  lemma UnlinkSnoc(p: seq<Key>, x: Key, i: nat)
    requires i < |p|
    ensures p[..i] + p[i + 1..] + [x] == (p + [x])[..i] + (p + [x])[i + 1..]
  {
    assert (p + [x])[..i] == p[..i];
    assert (p + [x])[i + 1..] == p[i + 1..] + [x];
  }

  /** The last n elements of s (all of s when it is shorter). */
  function Suffix(s: seq<Key>, n: nat): (r: seq<Key>)
    ensures |r| == if |s| <= n then |s| else n
  {
    if |s| <= n then s else s[|s| - n..]
  }

  /** The keys of a lookup trace ordered by their last use, most recent last. */
  function Recency(trace: seq<Key>): seq<Key>
  {
    if |trace| == 0 then []
    else Remove(Recency(trace[..|trace| - 1]), trace[|trace| - 1]) + [trace[|trace| - 1]]
  }

  /** The cache list and applyCacheUsed. */
  datatype LruState = LruState(order: seq<Key>, used: int)

  /** One lookup of key k. A hit moves k to the tail. A miss appends k at
      the tail and counts it; when the count then exceeds size the head is
      evicted, and the count is not decremented. */
  function Step(st: LruState, k: Key, size: int): LruState
  {
    if k in st.order then LruState(Remove(st.order, k) + [k], st.used)
    else if st.used + 1 > size then LruState((st.order + [k])[1..], st.used + 1)
    else LruState(st.order + [k], st.used + 1)
  }

  /** The cache after a trace of lookups since the last flush. */
  function Run(trace: seq<Key>, size: int): LruState
  {
    if |trace| == 0 then LruState([], 0)
    else Step(Run(trace[..|trace| - 1], size), trace[|trace| - 1], size)
  }

  // ---------------------------------------------------------------------
  // Facts about Remove and Suffix.
  // ---------------------------------------------------------------------

  lemma {:induction false} RemoveAbsent(s: seq<Key>, k: Key)
    requires k !in s
    ensures Remove(s, k) == s
  {
    if |s| > 0 {
      RemoveAbsent(s[..|s| - 1], k);
      assert s[..|s| - 1] + [s[|s| - 1]] == s;
    }
  }

  lemma {:induction false} RemoveAppend(a: seq<Key>, b: seq<Key>, k: Key)
    ensures Remove(a + b, k) == Remove(a, k) + Remove(b, k)
  {
    if |b| == 0 {
      assert a + b == a;
    } else {
      var b' := b[..|b| - 1];
      assert (a + b)[..|a + b| - 1] == a + b';
      RemoveAppend(a, b', k);
      if b[|b| - 1] != k {
        assert Remove(a, k) + Remove(b', k) + [b[|b| - 1]] == Remove(a, k) + (Remove(b', k) + [b[|b| - 1]]);
      }
    }
  }

  lemma {:induction false} RemoveLength(s: seq<Key>, k: Key)
    requires Distinct(s) && k in s
    ensures |Remove(s, k)| == |s| - 1
  {
    var init := s[..|s| - 1];
    if s[|s| - 1] == k {
      assert k !in init;
      RemoveAbsent(init, k);
    } else {
      assert k in init;
      RemoveLength(init, k);
    }
  }

  lemma {:induction false} RemoveDistinct(s: seq<Key>, k: Key)
    requires Distinct(s)
    ensures Distinct(Remove(s, k))
  {
    if |s| > 0 {
      var init := s[..|s| - 1];
      RemoveDistinct(init, k);
      if s[|s| - 1] != k {
        assert s[|s| - 1] !in init;
        assert s[|s| - 1] !in Remove(init, k);
      }
    }
  }

  lemma SnocDistinct(s: seq<Key>, k: Key)
    requires Distinct(s) && k !in s
    ensures Distinct(s + [k])
  {
  }

  lemma SuffixDistinct(s: seq<Key>, n: nat)
    requires Distinct(s)
    ensures Distinct(Suffix(s, n))
  {
    if |s| > n {
      var r := Suffix(s, n);
      forall i, j | 0 <= i < j < |r|
        ensures r[i] != r[j]
      {
        assert r[i] == s[|s| - n + i] && r[j] == s[|s| - n + j];
      }
    }
  }

  /** The suffix of a + b as long as b is b itself. */
  lemma SuffixWhole(a: seq<Key>, b: seq<Key>)
    ensures Suffix(a + b, |b|) == b
  {
    if |a + b| > |b| {
      assert (a + b)[|a|..] == b;
    }
  }

  /** A suffix no longer than b only sees b. */
  lemma SuffixAppend(a: seq<Key>, b: seq<Key>, n: nat)
    requires n <= |b|
    ensures Suffix(a + b, n) == Suffix(b, n)
  {
    assert (a + b)[|a + b| - n..] == b[|b| - n..];
  }

  lemma SuffixSnoc(s: seq<Key>, k: Key, n: nat)
    requires n >= 1
    ensures Suffix(s + [k], n) == Suffix(s, n - 1) + [k]
  {
    if |s| + 1 > n {
      assert (s + [k])[|s| + 1 - n..] == s[|s| - (n - 1)..] + [k];
    }
  }

  // ---------------------------------------------------------------------
  // The policy is least-recently-used.
  // ---------------------------------------------------------------------

  lemma {:induction false} RecencyDistinct(trace: seq<Key>)
    ensures Distinct(Recency(trace))
    ensures forall x :: x in Recency(trace) <==> x in trace
  {
    if |trace| > 0 {
      var init := trace[..|trace| - 1];
      var k := trace[|trace| - 1];
      RecencyDistinct(init);
      RemoveDistinct(Recency(init), k);
      SnocDistinct(Remove(Recency(init), k), k);
      assert trace == init + [k];
    }
  }

  /** In a list without repeats, a key of the tail part is not in the head part. */
  lemma DistinctSplit(a: seq<Key>, b: seq<Key>, k: Key)
    requires Distinct(a + b) && k in b
    ensures k !in a
  {
    var j :| 0 <= j < |b| && b[j] == k;
    forall i | 0 <= i < |a|
      ensures a[i] != k
    {
      assert (a + b)[i] == a[i] && (a + b)[|a| + j] == b[j];
    }
  }

  /** A hit: removing a key of the cached suffix from the whole order leaves
      one fewer of the most recent keys. */
  lemma HitSuffix(r: seq<Key>, k: Key, n: nat)
    requires Distinct(r) && n >= 1 && k in Suffix(r, n)
    ensures Suffix(Remove(r, k), n - 1) == Remove(Suffix(r, n), k)
  {
    var b := Suffix(r, n);
    var a := r[..|r| - |b|];
    assert r == a + b;
    DistinctSplit(a, b, k);
    SuffixDistinct(r, n);
    RemoveLength(b, k);
    RemoveTail(a, b, k, n);
  }

  /** Removing a key that only the tail part holds, once, from a + b: what
      is left of the tail is the last n - 1 elements. */
  lemma RemoveTail(a: seq<Key>, b: seq<Key>, k: Key, n: nat)
    requires k !in a && |Remove(b, k)| + 1 == |b| && n >= 1
    requires |b| == n || (a == [] && |b| <= n)
    ensures Suffix(Remove(a + b, k), n - 1) == Remove(b, k)
  {
    RemoveAbsent(a, k);
    RemoveAppend(a, b, k);
    if |b| == n {
      SuffixWhole(a, Remove(b, k));
    } else {
      assert a + b == b;
    }
  }

  /** A miss: the key is not among the cached keys, so the keys that stay
      are the most recent ones either way. */
  lemma MissSuffix(r: seq<Key>, k: Key, n: nat)
    requires n >= 1 && k !in Suffix(r, n)
    ensures Suffix(Remove(r, k), n - 1) == Suffix(Suffix(r, n), n - 1)
  {
    var p := |r| - |Suffix(r, n)|;
    var a, b := r[..p], r[p..];
    assert r == a + b && b == Suffix(r, n);
    RemoveAbsent(b, k);
    RemoveAppend(a, b, k);
    if |b| >= n - 1 {
      SuffixAppend(Remove(a, k), b, n - 1);
    } else {
      assert a == [];
      assert Remove(r, k) == b;
    }
  }

  /** The cache state st agrees with the recency list r of its trace. */
  predicate Summarises(st: LruState, r: seq<Key>, size: nat)
  {
    && st.order == Suffix(r, size)
    && |st.order| == (if st.used <= size then st.used else size)
    && st.used >= |r|
    && Distinct(st.order)
  }

  /** One lookup keeps the cache in agreement with the recency list. */
  lemma StepSummarises(st: LruState, r: seq<Key>, k: Key, size: nat)
    requires size >= 1 && Distinct(r) && Summarises(st, r, size)
    ensures Summarises(Step(st, k, size), Remove(r, k) + [k], size)
  {
    if k in st.order {
      HitSummarises(st, r, k, size);
    } else {
      MissSummarises(st, r, k, size);
    }
  }

  lemma HitSummarises(st: LruState, r: seq<Key>, k: Key, size: nat)
    requires size >= 1 && Distinct(r) && Summarises(st, r, size) && k in st.order
    ensures Summarises(Step(st, k, size), Remove(r, k) + [k], size)
  {
    SuffixSnoc(Remove(r, k), k, size);
    HitSuffix(r, k, size);
    RemoveLength(st.order, k);
    RemoveDistinct(st.order, k);
    SnocDistinct(Remove(st.order, k), k);
    RemoveLength(r, k);
  }

  lemma MissSummarises(st: LruState, r: seq<Key>, k: Key, size: nat)
    requires size >= 1 && Distinct(r) && Summarises(st, r, size) && k !in st.order
    ensures Summarises(Step(st, k, size), Remove(r, k) + [k], size)
  {
    var order := st.order;
    SuffixSnoc(Remove(r, k), k, size);
    MissSuffix(r, k, size);
    SuffixSnoc(order, k, size);
    SnocDistinct(order, k);
    if st.used + 1 > size {
      assert (order + [k])[1..] == Suffix(order + [k], size);
      SuffixDistinct(order + [k], size);
    } else {
      assert Suffix(order, size - 1) == order;
    }
    if k in r {
      RemoveLength(r, k);
    } else {
      RemoveAbsent(r, k);
    }
  }

  /** After any trace since the last flush, the cache list holds the size
      most recently used distinct keys, least recently used first; it holds
      min(applyCacheUsed, size) entries, and applyCacheUsed never falls
      below the number of distinct keys seen. */
  lemma {:induction false} RunIsLeastRecentlyUsed(trace: seq<Key>, size: nat)
    requires size >= 1
    ensures Run(trace, size).order == Suffix(Recency(trace), size)
    ensures |Run(trace, size).order| == if Run(trace, size).used <= size then Run(trace, size).used else size
    ensures Run(trace, size).used >= |Recency(trace)|
    ensures Distinct(Run(trace, size).order)
  {
    RunSummarises(trace, size);
  }

  lemma {:induction false} RunSummarises(trace: seq<Key>, size: nat)
    requires size >= 1
    ensures Summarises(Run(trace, size), Recency(trace), size)
  {
    if |trace| > 0 {
      var init := trace[..|trace| - 1];
      RunSummarises(init, size);
      RecencyDistinct(init);
      StepSummarises(Run(init, size), Recency(init), trace[|trace| - 1], size);
    }
  }

  /** After a lookup the key is the most recently used entry of the cache:
      a missed key survives its own insertion even when the head is evicted. */
  lemma {:induction false} RunKeepsLastKey(trace: seq<Key>, size: nat)
    requires size >= 1 && |trace| > 0
    ensures var order := Run(trace, size).order;
      |order| > 0 && order[|order| - 1] == trace[|trace| - 1]
  {
    RunIsLeastRecentlyUsed(trace, size);
  }

  /** A hit on the entry at the tail leaves the list as it is. */
  lemma RemoveLast(s: seq<Key>, k: Key)
    requires Distinct(s) && |s| > 0 && s[|s| - 1] == k
    ensures Remove(s, k) + [k] == s
  {
    var init := s[..|s| - 1];
    assert k !in init;
    RemoveAbsent(init, k);
  }

  lemma RunSnoc(trace: seq<Key>, k: Key, size: int)
    ensures Run(trace + [k], size) == Step(Run(trace, size), k, size)
  {
    assert (trace + [k])[..|trace|] == trace;
  }

  /** What a reachable state guarantees to the code that edits the list:
      no key twice, and a non-empty list whenever the next miss evicts. */
  lemma RunShape(trace: seq<Key>, size: nat)
    requires size >= 1
    ensures Distinct(Run(trace, size).order)
    ensures Run(trace, size).used + 1 > size ==> |Run(trace, size).order| > 0
  {
    RunIsLeastRecentlyUsed(trace, size);
  }

  /** Evicting the head after appending a new key keeps exactly the other
      keys and the new one. */
  lemma DropHead(s: seq<Key>, k: Key)
    requires Distinct(s) && |s| > 0 && k !in s
    ensures forall x :: x in (s + [k])[1..] <==> (x in s || x == k) && x != s[0]
  {
    assert (s + [k])[1..] == s[1..] + [k];
    assert s == [s[0]] + s[1..];
    assert s[0] !in s[1..] by {
      forall j | 0 <= j < |s[1..]|
        ensures s[1..][j] != s[0]
      {
        assert s[1..][j] == s[j + 1];
      }
    }
  }
}
