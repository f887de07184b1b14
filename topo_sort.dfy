/**
 * `SkillPlanner._topological_sort`: a deterministic Kahn topological sort
 * of skill names over prerequisite edges.
 *
 * Skills are compared by key, `name.lower().strip()`. `Kahn` is the
 * reference definition of the order: it repeatedly emits the smallest
 * unvisited key that has no unvisited prerequisite left, and when none is
 * ready appends every unvisited key in sorted order. `TopologicalSort` is
 * the imperative algorithm (in-degree table, adjacency lists, a ready queue
 * re-sorted after each step) and is proved to compute that order.
 */
module TopoSort {
  import opened Wrappers
  import opened Strings
  import opened StringOrder

  /** A prerequisite edge `(prerequisite, dependent)`. */
  type Edge = (string, string)

  // ---------------------------------------------------------------------
  // Keys and spellings
  // ---------------------------------------------------------------------

  /** The case map `{s.lower().strip(): s for s in skills}`: each key of
      an input maps to a spelling in `skills` that has that key. */
  function CaseMap(skills: seq<string>): (m: map<string, string>)
    ensures forall i | 0 <= i < |skills| :: Key(skills[i]) in m
    ensures forall k | k in m :: Key(m[k]) == k && m[k] in skills
  {
    if skills == [] then map[]
    else
      var init := skills[..|skills| - 1];
      var last := skills[|skills| - 1];
      assert skills == init + [last];
      CaseMap(init)[Key(last) := last]
  }

  /** No later entry of `skills` has the key of entry `i`. */
  predicate LastSpelling(skills: seq<string>, i: int)
    requires 0 <= i < |skills|
  {
    forall j | i < j < |skills| :: Key(skills[j]) != Key(skills[i])
  }

  /** The last spelling of a key wins. */
  lemma {:induction false} CaseMapLast(skills: seq<string>, i: int)
    requires 0 <= i < |skills| && LastSpelling(skills, i)
    ensures CaseMap(skills)[Key(skills[i])] == skills[i]
  {
    var init := skills[..|skills| - 1];
    if i < |skills| - 1 {
      assert LastSpelling(init, i) by {
        forall j | i < j < |init| ensures Key(init[j]) != Key(init[i]) {
          assert init[j] == skills[j];
        }
      }
      CaseMapLast(init, i);
    }
  }

  /** The distinct keys of `skills`, in order of first appearance: the key
      set of the case map, without repeats. */
  function Keys(skills: seq<string>): (ks: seq<string>)
    ensures Distinct(ks)
    ensures forall k :: k in ks <==> k in CaseMap(skills)
  {
    if skills == [] then []
    else
      var init := skills[..|skills| - 1];
      var last := skills[|skills| - 1];
      assert skills == init + [last];
      var ks := Keys(init);
      if Key(last) in ks then ks else ks + [Key(last)]
  }

  /** The input's keys in sorted order: the unvisited keys at the start. */
  function SortedKeys(skills: seq<string>): seq<string> {
    Sort(Keys(skills))
  }

  lemma SortedKeysStrict(skills: seq<string>)
    ensures StrictlySorted(SortedKeys(skills))
    ensures forall k :: k in SortedKeys(skills) <==> k in Keys(skills)
  {
    SortDistinct(Keys(skills));
    assert forall k :: k in Keys(skills) <==> k in Elems(Keys(skills));
    assert forall k :: k in SortedKeys(skills) <==> k in Elems(SortedKeys(skills));
  }

  // ---------------------------------------------------------------------
  // The relevant edges and the graph they define
  // ---------------------------------------------------------------------

  /** Each edge as the pair of its endpoint keys. */
  function KeyPairs(edges: seq<Edge>): (ps: seq<Edge>)
    ensures |ps| == |edges|
  {
    seq(|edges|, k requires 0 <= k < |edges| => (Key(edges[k].0), Key(edges[k].1)))
  }

  /** The pairs of `ps` with both ends in `keys`, in order. */
  function Within(ps: seq<Edge>, keys: set<string>): (r: seq<Edge>)
    ensures forall k | 0 <= k < |r| :: r[k].0 in keys && r[k].1 in keys
    ensures |r| <= |ps|
  {
    if ps == [] then []
    else (if ps[0].0 in keys && ps[0].1 in keys then [ps[0]] else []) + Within(ps[1..], keys)
  }

  /** The relevant edges `[(pre.lower().strip(), dep.lower().strip()) ...]`
      of the input edges: those with both endpoint keys among the input's
      keys, as key pairs, in input order. */
  function Relevant(edges: seq<Edge>, keys: set<string>): seq<Edge> {
    Within(KeyPairs(edges), keys)
  }

  /** Each kept pair is a pair of the input. */
  lemma {:induction false} WithinFrom(ps: seq<Edge>, keys: set<string>, m: int) returns (e: int)
    requires 0 <= m < |Within(ps, keys)|
    ensures 0 <= e < |ps| && Within(ps, keys)[m] == ps[e]
  {
    var rest := Within(ps[1..], keys);
    if ps[0].0 in keys && ps[0].1 in keys {
      assert Within(ps, keys) == [ps[0]] + rest;
      if m == 0 {
        e := 0;
      } else {
        var e' := WithinFrom(ps[1..], keys, m - 1);
        e := e' + 1;
      }
    } else {
      assert Within(ps, keys) == rest;
      var e' := WithinFrom(ps[1..], keys, m);
      e := e' + 1;
    }
  }

  /** Each pair of the input with both ends in `keys` is kept. */
  lemma {:induction false} WithinHas(ps: seq<Edge>, keys: set<string>, k: int) returns (m: int)
    requires 0 <= k < |ps| && ps[k].0 in keys && ps[k].1 in keys
    ensures 0 <= m < |Within(ps, keys)| && Within(ps, keys)[m] == ps[k]
  {
    var rest := Within(ps[1..], keys);
    if ps[0].0 in keys && ps[0].1 in keys {
      assert Within(ps, keys) == [ps[0]] + rest;
      if k == 0 {
        m := 0;
      } else {
        var m' := WithinHas(ps[1..], keys, k - 1);
        m := m' + 1;
      }
    } else {
      assert Within(ps, keys) == rest;
      var m' := WithinHas(ps[1..], keys, k - 1);
      m := m';
    }
  }

  /** Each relevant edge is the key pair of an input edge. */
  lemma RelevantFrom(edges: seq<Edge>, keys: set<string>, m: int) returns (e: int)
    requires 0 <= m < |Relevant(edges, keys)|
    ensures 0 <= e < |edges| && Relevant(edges, keys)[m] == (Key(edges[e].0), Key(edges[e].1))
  {
    e := WithinFrom(KeyPairs(edges), keys, m);
  }

  /** Each input edge between two input keys is kept, as a key pair. */
  lemma RelevantHas(edges: seq<Edge>, keys: set<string>, k: int) returns (m: int)
    requires 0 <= k < |edges| && Key(edges[k].0) in keys && Key(edges[k].1) in keys
    ensures 0 <= m < |Relevant(edges, keys)| && Relevant(edges, keys)[m] == (Key(edges[k].0), Key(edges[k].1))
  {
    m := WithinHas(KeyPairs(edges), keys, k);
  }

  lemma KeyPairsAppend(a: seq<Edge>, b: seq<Edge>)
    ensures KeyPairs(a + b) == KeyPairs(a) + KeyPairs(b)
  {
    var l, r, lr := KeyPairs(a), KeyPairs(b), KeyPairs(a + b);
    forall k | 0 <= k < |a + b| ensures lr[k] == (l + r)[k] {
      var e := (a + b)[k];
      assert lr[k] == (Key(e.0), Key(e.1));
      if k < |a| {
        assert e == a[k];
        assert l[k] == (Key(e.0), Key(e.1));
        assert (l + r)[k] == l[k];
      } else {
        assert e == b[k - |a|];
        assert r[k - |a|] == (Key(e.0), Key(e.1));
        assert (l + r)[k] == r[k - |a|];
      }
    }
    assert lr == l + r;
  }

  lemma {:induction false} WithinAppend(a: seq<Edge>, b: seq<Edge>, keys: set<string>)
    ensures Within(a + b, keys) == Within(a, keys) + Within(b, keys)
  {
    if a != [] {
      assert (a + b)[0] == a[0];
      assert (a + b)[1..] == a[1..] + b;
      WithinAppend(a[1..], b, keys);
    } else {
      assert a + b == b;
    }
  }

  /** The number of edges of `r` into `v` whose source is still in `rem`,
      counted with multiplicity. */
  function InDegree(r: seq<Edge>, rem: seq<string>, v: string): nat {
    if r == [] then 0
    else
      var e := r[|r| - 1];
      InDegree(r[..|r| - 1], rem, v) + (if e.1 == v && e.0 in rem then 1 else 0)
  }

  /** The targets of the edges of `r` that leave `u`, in edge order. */
  function Succs(r: seq<Edge>, u: string): seq<string> {
    if r == [] then []
    else
      var e := r[|r| - 1];
      Succs(r[..|r| - 1], u) + (if e.0 == u then [e.1] else [])
  }

  /** The entries of `xs` with no prerequisite left in `rem`. */
  function ReadyAmong(xs: seq<string>, rem: seq<string>, r: seq<Edge>): (ys: seq<string>)
    ensures forall k :: k in ys <==> k in xs && InDegree(r, rem, k) == 0
    ensures |ys| <= |xs|
  {
    if xs == [] then []
    else (if InDegree(r, rem, xs[0]) == 0 then [xs[0]] else []) + ReadyAmong(xs[1..], rem, r)
  }

  /** The unvisited keys that are ready, in the order of `rem`. */
  function Ready(rem: seq<string>, r: seq<Edge>): seq<string> {
    ReadyAmong(rem, rem, r)
  }

  /** `rem` without its first `x`. */
  function Remove(rem: seq<string>, x: string): (s: seq<string>)
    ensures x in rem ==> multiset(s) == multiset(rem) - multiset{x} && |s| == |rem| - 1
    ensures x !in rem ==> s == rem
    ensures forall k | k in s :: k in rem
  {
    if rem == [] then []
    else if rem[0] == x then
      assert rem == [x] + rem[1..];
      rem[1..]
    else
      var t := Remove(rem[1..], x);
      assert rem == [rem[0]] + rem[1..];
      assert multiset(rem) == multiset{rem[0]} + multiset(rem[1..]);
      assert multiset([rem[0]] + t) == multiset{rem[0]} + multiset(t);
      assert x in rem <==> x in rem[1..];
      [rem[0]] + t
  }

  /** Removing a key from a list without repeats leaves exactly the other
      keys. */
  lemma RemoveMembers(rem: seq<string>, x: string)
    requires Distinct(rem)
    ensures forall k :: k in Remove(rem, x) <==> k in rem && k != x
    ensures Distinct(Remove(rem, x))
  {
    var s := Remove(rem, x);
    if x in rem {
      MultiplicityAtMostOne(rem, x);
      forall k ensures k in s <==> k in rem && k != x {
        assert k in s <==> k in multiset(s);
        assert k in rem <==> k in multiset(rem);
      }
      DistinctSubMultiset(rem, s);
    } else {
      assert forall k | k in rem :: k != x;
    }
  }

  /** Removing `x` keeps every other key. */
  lemma {:induction false} RemoveKeeps(rem: seq<string>, x: string, y: string)
    requires y in rem && y != x
    ensures y in Remove(rem, x)
  {
    if rem[0] != x && rem[0] != y {
      RemoveKeeps(rem[1..], x, y);
    }
  }

  lemma DistinctSubMultiset(a: seq<string>, b: seq<string>)
    requires Distinct(a) && multiset(b) <= multiset(a)
    ensures Distinct(b)
  {
    if !Distinct(b) {
      var i, j :| 0 <= i < j < |b| && b[i] == b[j];
      assert b == b[..i] + [b[i]] + b[i + 1..j] + [b[j]] + b[j + 1..];
      assert multiset(b)[b[i]] >= 2;
      MultiplicityAtMostOne(a, b[i]);
    }
  }

  /** Kahn's algorithm with sorted tie-breaking over the unvisited keys
      `rem` (kept sorted): emit the first ready key and continue without
      it; when no key is ready, append the unvisited keys as they are. */
  function Kahn(rem: seq<string>, r: seq<Edge>): (order: seq<string>)
    ensures |order| == |rem|
    decreases |rem|
  {
    var ready := Ready(rem, r);
    if ready == [] then rem
    else
      var x := ready[0];
      assert x in ready;
      [x] + Kahn(Remove(rem, x), r)
  }

  /** Kahn's order is a permutation of the unvisited keys. */
  lemma {:induction false} KahnPermutation(rem: seq<string>, r: seq<Edge>)
    ensures multiset(Kahn(rem, r)) == multiset(rem)
    decreases |rem|
  {
    var ready := Ready(rem, r);
    if ready != [] {
      var x := ready[0];
      assert x in ready;
      KahnPermutation(Remove(rem, x), r);
    }
  }

  /** The keys Kahn's loop never reaches (those on or behind a cycle). */
  function Leftover(rem: seq<string>, r: seq<Edge>): seq<string>
    decreases |rem|
  {
    var ready := Ready(rem, r);
    if ready == [] then rem
    else
      assert ready[0] in ready;
      Leftover(Remove(rem, ready[0]), r)
  }

  /** The order of the keys of `skills` that `_topological_sort` produces. */
  function TopoOrder(skills: seq<string>, edges: seq<Edge>): seq<string> {
    Kahn(SortedKeys(skills), Relevant(edges, CaseMap(skills).Keys))
  }

  /** `_topological_sort(skills, edges)`: the order with each key replaced by
      its last spelling. */
  function TopoSpec(skills: seq<string>, edges: seq<Edge>): seq<string> {
    TopoOrderPermutation(skills, edges);
    Restore(CaseMap(skills), TopoOrder(skills, edges))
  }

  /** `[case_map[s] for s in order]`: every name is a spelling from the
      case map, and when the case map sends each key to a spelling of
      that key, the names have the keys of `order`, position by position. */
  function Restore(caseMap: map<string, string>, order: seq<string>): (r: seq<string>)
    requires forall k | k in order :: k in caseMap
    ensures |r| == |order|
    ensures forall i | 0 <= i < |r| :: r[i] in caseMap.Values
    ensures (forall k | k in caseMap :: Key(caseMap[k]) == k) ==> forall i | 0 <= i < |r| :: Key(r[i]) == order[i]
  {
    seq(|order|, i requires 0 <= i < |order| => caseMap[order[i]])
  }

  // ---------------------------------------------------------------------
  // Facts about the graph functions
  // ---------------------------------------------------------------------

  lemma {:induction false} InDegreePositive(r: seq<Edge>, rem: seq<string>, k: int)
    requires 0 <= k < |r| && r[k].0 in rem
    ensures InDegree(r, rem, r[k].1) >= 1
  {
    if k < |r| - 1 {
      InDegreePositive(r[..|r| - 1], rem, k);
    }
  }

  lemma {:induction false} InDegreeZero(r: seq<Edge>, rem: seq<string>, v: string)
    requires forall k | 0 <= k < |r| && r[k].1 == v :: r[k].0 !in rem
    ensures InDegree(r, rem, v) == 0
  {
    if r != [] {
      InDegreeZero(r[..|r| - 1], rem, v);
    }
  }

  /** The in-degree only depends on which keys are unvisited. */
  lemma {:induction false} InDegreeSameMembers(r: seq<Edge>, a: seq<string>, b: seq<string>, v: string)
    requires forall k :: k in a <==> k in b
    ensures InDegree(r, a, v) == InDegree(r, b, v)
  {
    if r != [] {
      InDegreeSameMembers(r[..|r| - 1], a, b, v);
    }
  }

  lemma {:induction false} InDegreeMonotone(r: seq<Edge>, a: seq<string>, b: seq<string>, v: string)
    requires forall k | k in a :: k in b
    ensures InDegree(r, a, v) <= InDegree(r, b, v)
  {
    if r != [] {
      InDegreeMonotone(r[..|r| - 1], a, b, v);
    }
  }

  /** Visiting `x` takes exactly its outgoing edges off every in-degree. */
  lemma InDegreeRemove(r: seq<Edge>, rem: seq<string>, x: string, v: string)
    requires Distinct(rem) && x in rem
    ensures InDegree(r, rem, v) == InDegree(r, Remove(rem, x), v) + multiset(Succs(r, x))[v]
  {
    RemoveMembers(rem, x);
    InDegreeWithout(r, rem, Remove(rem, x), x, v);
  }

  lemma {:induction false} InDegreeWithout(r: seq<Edge>, rem: seq<string>, rest: seq<string>, x: string, v: string)
    requires x in rem && forall k :: k in rest <==> k in rem && k != x
    ensures InDegree(r, rem, v) == InDegree(r, rest, v) + multiset(Succs(r, x))[v]
  {
    if r != [] {
      InDegreeWithout(r[..|r| - 1], rem, rest, x, v);
    }
  }

  lemma {:induction false} RemoveSorted(rem: seq<string>, x: string)
    requires StrictlySorted(rem)
    ensures StrictlySorted(Remove(rem, x))
  {
    if rem != [] {
      StrictlySortedTail(rem);
      if rem[0] != x {
        RemoveSorted(rem[1..], x);
        var tail := Remove(rem[1..], x);
        forall j | 0 <= j < |tail| ensures Less(rem[0], tail[j]) {
          assert tail[j] in rem[1..];
        }
      }
    }
  }

  lemma StrictlySortedTail(s: seq<string>)
    requires StrictlySorted(s) && s != []
    ensures StrictlySorted(s[1..])
  {
    assert forall i | 0 <= i < |s| - 1 :: s[1..][i] == s[i + 1];
  }

  lemma ReadyAmongSorted(xs: seq<string>, rem: seq<string>, r: seq<Edge>)
    requires StrictlySorted(xs)
    ensures StrictlySorted(ReadyAmong(xs, rem, r))
  {
    if xs != [] {
      StrictlySortedTail(xs);
      ReadyAmongSorted(xs[1..], rem, r);
      var tail := ReadyAmong(xs[1..], rem, r);
      forall j | 0 <= j < |tail| ensures Less(xs[0], tail[j]) {
        assert tail[j] in xs[1..];
      }
    }
  }

  lemma {:induction false} ReadyAmongNoEdges(xs: seq<string>, rem: seq<string>)
    ensures ReadyAmong(xs, rem, []) == xs
  {
    if xs != [] {
      ReadyAmongNoEdges(xs[1..], rem);
    }
  }

  // ---------------------------------------------------------------------
  // Properties of Kahn's order
  // ---------------------------------------------------------------------

  /** Visiting a ready key keeps the unvisited keys strictly sorted and
      takes exactly that key out of them. */
  lemma VisitReady(rem: seq<string>, x: string)
    requires StrictlySorted(rem) && x in rem
    ensures StrictlySorted(Remove(rem, x))
    ensures forall k :: k in Remove(rem, x) <==> k in rem && k != x
  {
    RemoveSorted(rem, x);
    StrictlySortedDistinct(rem);
    RemoveMembers(rem, x);
  }

  /** With no edges every key is ready, so the sorted keys come out as
      they are. */
  lemma {:induction false} KahnNoEdges(rem: seq<string>)
    requires StrictlySorted(rem)
    ensures Kahn(rem, []) == rem
    decreases |rem|
  {
    if rem != [] {
      ReadyAmongNoEdges(rem, rem);
      RemoveSorted(rem, rem[0]);
      KahnNoEdges(rem[1..]);
    }
  }

  /** Tie-breaking: when some key is ready, the first key emitted is the
      smallest ready key; otherwise every key is left over, unchanged. */
  lemma {:induction false} KahnHead(rem: seq<string>, r: seq<Edge>)
    requires StrictlySorted(rem)
    ensures Ready(rem, r) == [] ==> Kahn(rem, r) == rem && Leftover(rem, r) == rem
    ensures Ready(rem, r) != [] ==>
      var x := Kahn(rem, r)[0];
      x in rem && InDegree(r, rem, x) == 0
      && forall k | k in rem && InDegree(r, rem, k) == 0 && k != x :: Less(x, k)
  {
    var ready := Ready(rem, r);
    if ready != [] {
      ReadyAmongSorted(rem, rem, r);
      assert ready[0] in ready;
      var x := ready[0];
      forall k | k in rem && InDegree(r, rem, k) == 0 && k != x ensures Less(x, k) {
        assert k in ready;
        var j :| 0 <= j < |ready| && ready[j] == k;
      }
    }
  }

  /** The keys left over are unvisited keys, still sorted. */
  lemma {:induction false} LeftoverShape(rem: seq<string>, r: seq<Edge>)
    requires StrictlySorted(rem)
    ensures |Leftover(rem, r)| <= |rem|
    ensures StrictlySorted(Leftover(rem, r))
    ensures forall k | k in Leftover(rem, r) :: k in rem
    decreases |rem|
  {
    var ready := Ready(rem, r);
    if ready != [] {
      assert ready[0] in ready;
      RemoveSorted(rem, ready[0]);
      LeftoverShape(Remove(rem, ready[0]), r);
    }
  }

  /** The keys left over form the final stretch of Kahn's order. */
  lemma {:induction false} LeftoverSuffix(rem: seq<string>, r: seq<Edge>)
    requires StrictlySorted(rem)
    ensures |Leftover(rem, r)| <= |rem|
    ensures Kahn(rem, r)[|rem| - |Leftover(rem, r)|..] == Leftover(rem, r)
    decreases |rem|
  {
    LeftoverShape(rem, r);
    var ready := Ready(rem, r);
    if ready != [] {
      var x := ready[0];
      assert x in ready;
      RemoveSorted(rem, x);
      var rest := Remove(rem, x);
      LeftoverSuffix(rest, r);
      KahnUnfold(rem, r);
      var l := Leftover(rem, r);
      assert l == Leftover(rest, r);
      assert Kahn(rem, r)[|rem| - |l|..] == Kahn(rest, r)[|rest| - |l|..];
    }
  }

  /** Each key left over still waits on a prerequisite that is left over:
      the leftovers are the keys on or behind a cycle. */
  lemma {:induction false} LeftoverWaiting(rem: seq<string>, r: seq<Edge>, k: string)
    requires StrictlySorted(rem)
    requires k in Leftover(rem, r)
    ensures InDegree(r, Leftover(rem, r), k) > 0
    decreases |rem|
  {
    var ready := Ready(rem, r);
    if ready != [] {
      assert ready[0] in ready;
      RemoveSorted(rem, ready[0]);
      LeftoverWaiting(Remove(rem, ready[0]), r, k);
    }
  }

  /** A key emitted at position `j`, before the leftovers, comes after each
      of its prerequisites among the unvisited keys: the prerequisite sits
      at some position `i < j`. */
  lemma {:induction false} KahnPrecedes(rem: seq<string>, r: seq<Edge>, k: int, j: int) returns (i: nat)
    requires StrictlySorted(rem)
    requires 0 <= k < |r| && r[k].0 in rem
    requires 0 <= j < |rem| - |Leftover(rem, r)| && Kahn(rem, r)[j] == r[k].1
    ensures i < j && Kahn(rem, r)[i] == r[k].0
    decreases |rem|
  {
    var x, rest := KahnFirst(rem, r, j);
    if j == 0 {
      InDegreePositive(r, rem, k);
    } else if r[k].0 == x {
      i := 0;
    } else {
      RemoveKeeps(rem, x, r[k].0);
      assert Kahn(rest, r)[j - 1] == r[k].1;
      var i' := KahnPrecedes(rest, r, k, j - 1);
      i := i' + 1;
    }
  }

  /** Before the leftovers there is a ready key `x`: Kahn's order starts
      with it and goes on with the order of the rest. */
  lemma KahnFirst(rem: seq<string>, r: seq<Edge>, j: int) returns (x: string, rest: seq<string>)
    requires StrictlySorted(rem)
    requires 0 <= j < |rem| - |Leftover(rem, r)|
    ensures Ready(rem, r) != [] && x == Ready(rem, r)[0] && x in rem
    ensures InDegree(r, rem, x) == 0
    ensures rest == Remove(rem, x) && StrictlySorted(rest) && |rest| == |rem| - 1
    ensures Kahn(rem, r) == [x] + Kahn(rest, r)
    ensures Leftover(rem, r) == Leftover(rest, r)
  {
    var ready := Ready(rem, r);
    x := ready[0];
    assert x in ready;
    rest := Remove(rem, x);
    RemoveSorted(rem, x);
  }

  /** Edges between unvisited keys that climb a rank: an acyclic graph,
      given by a topological numbering. */
  ghost predicate RankedOn(r: seq<Edge>, rem: seq<string>, rank: string -> int) {
    forall k | 0 <= k < |r| && r[k].0 in rem && r[k].1 in rem :: rank(r[k].0) < rank(r[k].1)
  }

  lemma {:induction false} MinRank(rem: seq<string>, rank: string -> int) returns (m: string)
    requires rem != []
    ensures m in rem && forall k | k in rem :: rank(m) <= rank(k)
  {
    if |rem| == 1 {
      m := rem[0];
    } else {
      var m' := MinRank(rem[1..], rank);
      m := if rank(rem[0]) <= rank(m') then rem[0] else m';
    }
  }

  /** Over an acyclic graph nothing is left over. */
  lemma {:induction false} RankedNoLeftover(rem: seq<string>, r: seq<Edge>, rank: string -> int)
    requires StrictlySorted(rem)
    requires RankedOn(r, rem, rank)
    ensures Leftover(rem, r) == []
    decreases |rem|
  {
    if rem != [] {
      var m := MinRank(rem, rank);
      InDegreeZero(r, rem, m);
      assert m in Ready(rem, r);
      assert Ready(rem, r)[0] in Ready(rem, r);
      RemoveSorted(rem, Ready(rem, r)[0]);
      RankedNoLeftover(Remove(rem, Ready(rem, r)[0]), r, rank);
    }
  }

  // ---------------------------------------------------------------------
  // Properties of `_topological_sort`
  // ---------------------------------------------------------------------

  /** The order holds every distinct key of the input exactly once. */
  lemma TopoOrderPermutation(skills: seq<string>, edges: seq<Edge>)
    ensures multiset(TopoOrder(skills, edges)) == multiset(Keys(skills))
    ensures forall k :: k in TopoOrder(skills, edges) <==> k in CaseMap(skills)
  {
    var order := TopoOrder(skills, edges);
    KahnPermutation(SortedKeys(skills), Relevant(edges, CaseMap(skills).Keys));
    forall k ensures k in order <==> k in CaseMap(skills) {
      assert k in order <==> k in multiset(order);
      assert k in Keys(skills) <==> k in multiset(Keys(skills));
    }
  }

  /** The keys of the result, position by position, are the order of keys;
      they are the input's distinct keys, each once. */
  lemma TopoSpecKeys(skills: seq<string>, edges: seq<Edge>)
    ensures |TopoSpec(skills, edges)| == |TopoOrder(skills, edges)| == |Keys(skills)|
    ensures forall j | 0 <= j < |TopoOrder(skills, edges)| :: Key(TopoSpec(skills, edges)[j]) == TopoOrder(skills, edges)[j]
    ensures Distinct(TopoOrder(skills, edges))
    ensures forall a, b | 0 <= a < b < |TopoSpec(skills, edges)| :: Key(TopoSpec(skills, edges)[a]) != Key(TopoSpec(skills, edges)[b])
  {
    TopoOrderPermutation(skills, edges);
    DistinctFromMultiset(Keys(skills), TopoOrder(skills, edges));
  }

  /** Every emitted name is an input spelling, the one the case map keeps
      for its key. */
  lemma TopoSpecSpellings(skills: seq<string>, edges: seq<Edge>)
    ensures |TopoSpec(skills, edges)| == |TopoOrder(skills, edges)|
    ensures forall j | 0 <= j < |TopoOrder(skills, edges)| :: TopoOrder(skills, edges)[j] in CaseMap(skills)
    ensures forall j | 0 <= j < |TopoSpec(skills, edges)| ::
      TopoSpec(skills, edges)[j] in skills
      && TopoSpec(skills, edges)[j] == CaseMap(skills)[TopoOrder(skills, edges)[j]]
  {
    var out := TopoSpec(skills, edges);
    var order := TopoOrder(skills, edges);
    var m := CaseMap(skills);
    TopoOrderPermutation(skills, edges);
    assert out == Restore(m, order);
    forall j | 0 <= j < |out| ensures out[j] in skills && out[j] == m[order[j]] {
      assert order[j] in m;
    }
  }

  /** Nothing is dropped: every input skill's key is emitted, even when the
      edges form a cycle. */
  lemma TopoSpecCovers(skills: seq<string>, edges: seq<Edge>, i: int) returns (j: int)
    requires 0 <= i < |skills|
    ensures 0 <= j < |TopoSpec(skills, edges)| && Key(TopoSpec(skills, edges)[j]) == Key(skills[i])
  {
    var order := TopoOrder(skills, edges);
    TopoSpecKeys(skills, edges);
    TopoOrderPermutation(skills, edges);
    j :| 0 <= j < |order| && order[j] == Key(skills[i]);
  }

  /** The last spelling of each key is the one emitted. */
  lemma TopoSpecLastSpelling(skills: seq<string>, edges: seq<Edge>, i: int)
    requires 0 <= i < |skills| && LastSpelling(skills, i)
    ensures skills[i] in TopoSpec(skills, edges)
  {
    var out := TopoSpec(skills, edges);
    var order := TopoOrder(skills, edges);
    TopoOrderPermutation(skills, edges);
    TopoSpecSpellings(skills, edges);
    CaseMapLast(skills, i);
    var j :| 0 <= j < |order| && order[j] == Key(skills[i]);
    assert out[j] == skills[i];
  }

  /** Prerequisites first: when the edges between input skills climb some
      rank (the restricted graph is acyclic), the prerequisite of each such
      edge is emitted strictly before its dependent. */
  lemma TopoSpecRespectsEdges(skills: seq<string>, edges: seq<Edge>, rank: string -> int, k: int, a: int, b: int)
    requires forall e | 0 <= e < |edges| && Key(edges[e].0) in CaseMap(skills) && Key(edges[e].1) in CaseMap(skills) ::
      rank(Key(edges[e].0)) < rank(Key(edges[e].1))
    requires 0 <= k < |edges|
    requires 0 <= a < |TopoSpec(skills, edges)| && Key(TopoSpec(skills, edges)[a]) == Key(edges[k].0)
    requires 0 <= b < |TopoSpec(skills, edges)| && Key(TopoSpec(skills, edges)[b]) == Key(edges[k].1)
    ensures a < b
  {
    var keys := CaseMap(skills).Keys;
    var r := Relevant(edges, keys);
    var sk := SortedKeys(skills);
    var order := Kahn(sk, r);
    TopoSpecKeys(skills, edges);
    TopoOrderPermutation(skills, edges);
    SortedKeysStrict(skills);
    RelevantRanked(edges, keys, sk, rank);
    RankedNoLeftover(sk, r, rank);
    assert order[a] in keys && order[b] in keys;
    var m := RelevantHas(edges, keys, k);
    var i := KahnPrecedes(sk, r, m, b);
    assert order[i] == order[a];
  }

  /** A rank that the input edges climb is one the relevant edges climb. */
  lemma RelevantRanked(edges: seq<Edge>, keys: set<string>, sk: seq<string>, rank: string -> int)
    requires forall e | 0 <= e < |edges| && Key(edges[e].0) in keys && Key(edges[e].1) in keys ::
      rank(Key(edges[e].0)) < rank(Key(edges[e].1))
    ensures RankedOn(Relevant(edges, keys), sk, rank)
  {
    var r := Relevant(edges, keys);
    forall m | 0 <= m < |r| && r[m].0 in sk && r[m].1 in sk ensures rank(r[m].0) < rank(r[m].1) {
      var e := RelevantFrom(edges, keys, m);
    }
  }

  /** An edge with an endpoint outside the input has no effect. */
  lemma TopoSpecIgnoresOutsideEdge(skills: seq<string>, e1: seq<Edge>, e: Edge, e2: seq<Edge>)
    requires Key(e.0) !in CaseMap(skills) || Key(e.1) !in CaseMap(skills)
    ensures TopoSpec(skills, e1 + [e] + e2) == TopoSpec(skills, e1 + e2)
  {
    RelevantIgnoresOutsideEdge(e1, e, e2, CaseMap(skills).Keys);
  }

  lemma RelevantIgnoresOutsideEdge(e1: seq<Edge>, e: Edge, e2: seq<Edge>, keys: set<string>)
    requires Key(e.0) !in keys || Key(e.1) !in keys
    ensures Relevant(e1 + [e] + e2, keys) == Relevant(e1 + e2, keys)
  {
    KeyPairsAppend(e1 + [e], e2);
    KeyPairsAppend(e1, [e]);
    KeyPairsAppend(e1, e2);
    OutsideEdgeDropped(e, keys);
    WithinIgnores(KeyPairs(e1), KeyPairs([e]), KeyPairs(e2), keys);
  }

  lemma WithinIgnores(ps1: seq<Edge>, p: seq<Edge>, ps2: seq<Edge>, keys: set<string>)
    requires Within(p, keys) == []
    ensures Within(ps1 + p + ps2, keys) == Within(ps1 + ps2, keys)
  {
    WithinAppend(ps1 + p, ps2, keys);
    WithinAppend(ps1, p, keys);
    WithinAppend(ps1, ps2, keys);
  }

  lemma OutsideEdgeDropped(e: Edge, keys: set<string>)
    requires Key(e.0) !in keys || Key(e.1) !in keys
    ensures Within(KeyPairs([e]), keys) == []
  {
    assert KeyPairs([e]) == [(Key(e.0), Key(e.1))];
  }

  /** With no edge between two input skills, the keys come out in sorted
      order. */
  lemma TopoSpecWithoutEdges(skills: seq<string>, edges: seq<Edge>)
    requires forall k | 0 <= k < |edges| :: Key(edges[k].0) !in CaseMap(skills) || Key(edges[k].1) !in CaseMap(skills)
    ensures var out := TopoSpec(skills, edges);
      forall a, b | 0 <= a < b < |out| :: Less(Key(out[a]), Key(out[b]))
  {
    var keys := CaseMap(skills).Keys;
    if Relevant(edges, keys) != [] {
      var e := RelevantFrom(edges, keys, 0);
    }
    SortedKeysStrict(skills);
    KahnNoEdges(SortedKeys(skills));
    TopoSpecKeys(skills, edges);
  }

  // ---------------------------------------------------------------------
  // The algorithm as written: tables, a ready queue and a loop
  // ---------------------------------------------------------------------

  /** Each successor of `u` is the target of an edge leaving `u`. */
  lemma {:induction false} SuccsFrom(r: seq<Edge>, u: string, v: string) returns (m: int)
    requires v in Succs(r, u)
    ensures 0 <= m < |r| && r[m] == (u, v)
  {
    var init := r[..|r| - 1];
    if v in Succs(init, u) {
      m := SuccsFrom(init, u, v);
      assert r[m] == init[m];
    } else {
      m := |r| - 1;
    }
  }

  /** Every edge of `r` joins two keys of `keys`. */
  ghost predicate EdgesWithin(r: seq<Edge>, keys: set<string>) {
    forall m | 0 <= m < |r| :: r[m].0 in keys && r[m].1 in keys
  }

  /** What holds between two rounds of the main loop: `rem` lists the
      unvisited keys in sorted order, `order` followed by Kahn's order of
      `rem` is Kahn's order of all keys, the in-degree table counts the
      edges from unvisited keys, visited keys wait on nothing, and the
      queue holds exactly the ready keys, sorted. */
  ghost predicate KahnState(sk: seq<string>, r: seq<Edge>, keys: set<string>, rem: seq<string>,
                            order: seq<string>, inDegree: map<string, int>, queue: seq<string>)
  {
    && StrictlySorted(rem)
    && (forall k :: k in rem <==> k in keys && k !in order)
    && order + Kahn(rem, r) == Kahn(sk, r)
    && (forall k :: k in inDegree <==> k in keys)
    && (forall k | k in rem :: inDegree[k] == InDegree(r, rem, k))
    && (forall k | k in keys && k !in rem :: InDegree(r, rem, k) == 0)
    && queue == Ready(rem, r)
  }

  /** The visited key `x`'s successors are unvisited keys other than `x`,
      each counted in its in-degree at least as often as it is listed; no
      queued key is among them, and the queue has no repeats. */
  lemma StepPre(sk: seq<string>, r: seq<Edge>, keys: set<string>, rem: seq<string>, order: seq<string>,
                inDegree: map<string, int>, queue: seq<string>, nbrs: seq<string>)
    requires EdgesWithin(r, keys)
    requires KahnState(sk, r, keys, rem, order, inDegree, queue) && queue != []
    requires multiset(nbrs) == multiset(Succs(r, queue[0]))
    ensures forall k | k in nbrs :: k in inDegree && inDegree[k] >= multiset(nbrs)[k]
    ensures forall k | k in nbrs :: k in Remove(rem, queue[0])
    ensures forall k | k in queue[1..] :: k !in nbrs
    ensures Distinct(queue[1..])
  {
    var x := queue[0];
    assert x in queue;
    StrictlySortedDistinct(rem);
    forall k | k in nbrs ensures k in inDegree && inDegree[k] >= multiset(nbrs)[k] && k in Remove(rem, x) {
      SuccAtLeast(r, keys, rem, x, k);
      assert k in multiset(Succs(r, x));
      InDegreeRemove(r, rem, x, k);
      RemoveKeeps(rem, x, k);
    }
    forall k | k in queue[1..] ensures k !in nbrs {
      if k in nbrs {
        assert k in multiset(Succs(r, x));
        SuccAtLeast(r, keys, rem, x, k);
      }
    }
    ReadyAmongSorted(rem, rem, r);
    StrictlySortedTail(queue);
    StrictlySortedDistinct(queue[1..]);
  }

  /** A successor of an unvisited key `x` is itself unvisited and has
      an edge from `x` still counted. */
  lemma SuccAtLeast(r: seq<Edge>, keys: set<string>, rem: seq<string>, x: string, k: string)
    requires EdgesWithin(r, keys)
    requires x in rem && k in Succs(r, x)
    requires forall k | k in keys && k !in rem :: InDegree(r, rem, k) == 0
    ensures InDegree(r, rem, k) >= 1 && k in rem
  {
    var m := SuccsFrom(r, x, k);
    InDegreePositive(r, rem, m);
  }

  /** After visiting `x`, the table holds the in-degrees over the keys
      still unvisited. */
  lemma StepDegrees(r: seq<Edge>, rem: seq<string>, x: string,
                    inDegree: map<string, int>, inDegree': map<string, int>)
    requires StrictlySorted(rem) && x in rem
    requires forall k | k in rem :: k in inDegree && inDegree[k] == InDegree(r, rem, k)
    requires (forall k :: k in inDegree' <==> k in inDegree)
    requires forall k | k in inDegree :: inDegree'[k] == inDegree[k] - multiset(Succs(r, x))[k]
    ensures forall k | k in Remove(rem, x) :: inDegree'[k] == InDegree(r, Remove(rem, x), k)
  {
    VisitReady(rem, x);
    StrictlySortedDistinct(rem);
    forall k | k in Remove(rem, x) ensures inDegree'[k] == InDegree(r, Remove(rem, x), k) {
      InDegreeRemove(r, rem, x, k);
    }
  }

  /** Visited keys, `x` included, still wait on nothing. */
  lemma StepVisited(r: seq<Edge>, keys: set<string>, rem: seq<string>, x: string)
    requires StrictlySorted(rem) && x in rem && InDegree(r, rem, x) == 0
    requires forall k | k in keys && k !in rem :: InDegree(r, rem, k) == 0
    ensures forall k | k in keys && k !in Remove(rem, x) :: InDegree(r, Remove(rem, x), k) == 0
  {
    VisitReady(rem, x);
    forall k | k in keys && k !in Remove(rem, x) ensures InDegree(r, Remove(rem, x), k) == 0 {
      InDegreeMonotone(r, Remove(rem, x), rem, k);
    }
  }

  /** A key is ready after visiting the first ready key `x` exactly when it
      was ready before and is not `x`, or it is a successor of `x` that
      has nothing left to wait on. */
  lemma ReadyAfter(r: seq<Edge>, keys: set<string>, rem: seq<string>, k: string)
    requires EdgesWithin(r, keys)
    requires StrictlySorted(rem) && Ready(rem, r) != []
    requires forall k | k in keys && k !in rem :: InDegree(r, rem, k) == 0
    ensures var x := Ready(rem, r)[0];
      k in Ready(Remove(rem, x), r) <==>
        (k in Ready(rem, r) && k != x) || (k in Succs(r, x) && InDegree(r, Remove(rem, x), k) == 0)
    ensures k in Succs(r, Ready(rem, r)[0]) ==> k in Remove(rem, Ready(rem, r)[0])
  {
    var x := Ready(rem, r)[0];
    assert x in Ready(rem, r);
    var rest := Remove(rem, x);
    VisitReady(rem, x);
    if k in Succs(r, x) {
      SuccAtLeast(r, keys, rem, x, k);
    }
    if k in rest {
      InDegreeMonotone(r, rest, rem, k);
      StrictlySortedDistinct(rem);
      InDegreeRemove(r, rem, x, k);
      if InDegree(r, rest, k) == 0 && InDegree(r, rem, k) > 0 {
        assert k in multiset(Succs(r, x));
      }
    }
  }

  /** The re-sorted queue holds exactly the keys ready after the visit. */
  lemma StepQueue(r: seq<Edge>, keys: set<string>, rem: seq<string>, queue: seq<string>,
                  inDegree': map<string, int>, queue': seq<string>)
    requires EdgesWithin(r, keys)
    requires StrictlySorted(rem)
    requires queue == Ready(rem, r) && queue != []
    requires forall k | k in keys && k !in rem :: InDegree(r, rem, k) == 0
    requires forall k | k in Remove(rem, queue[0]) :: k in inDegree' && inDegree'[k] == InDegree(r, Remove(rem, queue[0]), k)
    requires forall k :: k in queue' <==> k in queue[1..] || (k in Succs(r, queue[0]) && k in inDegree' && inDegree'[k] == 0)
    requires Distinct(queue')
    ensures Sort(queue') == Ready(Remove(rem, queue[0]), r)
  {
    var rest := Remove(rem, queue[0]);
    VisitReady(rem, queue[0]);
    ReadyAmongSorted(rem, rem, r);
    ReadyAmongSorted(rest, rest, r);
    SortDistinct(queue');
    forall k ensures k in Elems(queue') <==> k in Elems(Ready(rest, r)) {
      ElemsTail(queue, k);
      ReadyAfter(r, keys, rem, k);
    }
    SortedUnique(Sort(queue'), Ready(rest, r));
  }

  /** One round of the main loop keeps `KahnState`. */
  lemma StepPost(sk: seq<string>, r: seq<Edge>, keys: set<string>, rem: seq<string>, order: seq<string>,
                 inDegree: map<string, int>, queue: seq<string>, nbrs: seq<string>,
                 inDegree': map<string, int>, queue': seq<string>)
    requires EdgesWithin(r, keys)
    requires KahnState(sk, r, keys, rem, order, inDegree, queue) && queue != []
    requires multiset(nbrs) == multiset(Succs(r, queue[0]))
    requires (forall k :: k in inDegree' <==> k in inDegree)
    requires forall k | k in inDegree :: inDegree'[k] == inDegree[k] - multiset(nbrs)[k]
    requires forall k :: k in queue' <==> k in queue[1..] || (k in nbrs && k in inDegree' && inDegree'[k] == 0)
    requires Distinct(queue')
    ensures KahnState(sk, r, keys, Remove(rem, queue[0]), order + [queue[0]], inDegree', Sort(queue'))
  {
    var x := queue[0];
    assert x in queue;
    var rest := Remove(rem, x);
    VisitReady(rem, x);
    StepDegrees(r, rem, x, inDegree, inDegree');
    StepVisited(r, keys, rem, x);
    SameMembers(nbrs, Succs(r, x));
    StepQueue(r, keys, rem, queue, inDegree', queue');
    KahnAdvance(sk, r, rem, order);
  }

  lemma SameMembers(a: seq<string>, b: seq<string>)
    requires multiset(a) == multiset(b)
    ensures forall k :: k in a <==> k in b
  {
    forall k ensures k in a <==> k in b {
      assert k in a <==> k in multiset(a);
      assert k in b <==> k in multiset(b);
    }
  }

  /** Emitting the first ready key moves it from Kahn's order of the
      unvisited keys to the emitted prefix. */
  lemma KahnAdvance(sk: seq<string>, r: seq<Edge>, rem: seq<string>, order: seq<string>)
    requires order + Kahn(rem, r) == Kahn(sk, r) && Ready(rem, r) != []
    ensures (order + [Ready(rem, r)[0]]) + Kahn(Remove(rem, Ready(rem, r)[0]), r) == Kahn(sk, r)
  {
    var x := Ready(rem, r)[0];
    KahnUnfold(rem, r);
    SeqShift(order, x, Kahn(Remove(rem, x), r));
  }

  lemma KahnUnfold(rem: seq<string>, r: seq<Edge>)
    requires Ready(rem, r) != []
    ensures Kahn(rem, r) == [Ready(rem, r)[0]] + Kahn(Remove(rem, Ready(rem, r)[0]), r)
  {
  }

  lemma SeqShift(a: seq<string>, x: string, b: seq<string>)
    ensures (a + [x]) + b == a + ([x] + b)
  {
  }

  /** The first queue, the sorted keys of in-degree zero, holds the keys
      ready at the start. */
  lemma InitialQueue(sk: seq<string>, r: seq<Edge>, keys: set<string>, inDegree: map<string, int>, queue: seq<string>)
    requires StrictlySorted(sk) && forall k :: k in sk <==> k in keys
    requires (forall k :: k in inDegree <==> k in keys) && forall k | k in keys :: inDegree[k] == InDegree(r, sk, k)
    requires StrictlySorted(queue) && Elems(queue) == set s | s in keys && inDegree[s] == 0
    ensures queue == Ready(sk, r)
  {
    ReadyAmongSorted(sk, sk, r);
    forall k ensures k in Elems(queue) <==> k in Elems(Ready(sk, r)) { }
    SortedUnique(queue, Ready(sk, r));
  }

  /** The case-map loop: later spellings overwrite earlier ones. */
  method BuildCaseMap(skills: seq<string>) returns (caseMap: map<string, string>)
    ensures caseMap == CaseMap(skills)
  {
    caseMap := map[];
    for i := 0 to |skills|
      invariant caseMap == CaseMap(skills[..i])
    {
      assert skills[..i + 1][..i] == skills[..i];
      caseMap := caseMap[Key(skills[i]) := skills[i]];
    }
    assert skills[..|skills|] == skills;
  }

  /** The tables hold the successors and in-degrees over the edges `r`. */
  ghost predicate GraphTables(keys: set<string>, r: seq<Edge>, all: seq<string>,
                              adjacency: map<string, seq<string>>, inDegree: map<string, int>)
  {
    && (forall k :: k in adjacency <==> k in keys) && (forall k :: k in inDegree <==> k in keys)
    && forall k | k in keys :: adjacency[k] == Succs(r, k) && inDegree[k] == InDegree(r, all, k)
  }

  /** Recording edge `m` extends the tables from the first `m` edges to
      the first `m + 1`. */
  lemma GraphStep(keys: set<string>, r: seq<Edge>, m: int, all: seq<string>,
                  adjacency: map<string, seq<string>>, inDegree: map<string, int>)
    requires 0 <= m < |r| && r[m].0 in keys && r[m].1 in keys
    requires forall k :: k in all <==> k in keys
    requires GraphTables(keys, r[..m], all, adjacency, inDegree)
    ensures GraphTables(keys, r[..m + 1], all, adjacency[r[m].0 := adjacency[r[m].0] + [r[m].1]],
                        inDegree[r[m].1 := inDegree[r[m].1] + 1])
  {
    assert r[..m + 1][..m] == r[..m];
  }

  /** The adjacency lists and in-degrees of the relevant edges, every key
      starting with no successor and in-degree zero. */
  method BuildGraph(keys: set<string>, r: seq<Edge>, ghost all: seq<string>)
    returns (adjacency: map<string, seq<string>>, inDegree: map<string, int>)
    requires forall k :: k in all <==> k in keys
    requires EdgesWithin(r, keys)
    ensures (forall k :: k in adjacency <==> k in keys) && (forall k :: k in inDegree <==> k in keys)
    ensures forall k | k in keys :: adjacency[k] == Succs(r, k) && inDegree[k] == InDegree(r, all, k)
  {
    adjacency := map k | k in keys :: [];
    inDegree := map k | k in keys :: 0;
    for m := 0 to |r|
      invariant GraphTables(keys, r[..m], all, adjacency, inDegree)
    {
      var pre, dep := r[m].0, r[m].1;
      GraphStep(keys, r, m, all, adjacency, inDegree);
      adjacency := adjacency[pre := adjacency[pre] + [dep]];
      inDegree := inDegree[dep := inDegree[dep] + 1];
    }
    assert r[..|r|] == r;
    assert GraphTables(keys, r, all, adjacency, inDegree);
  }

  /** `sorted(...)` of a set of keys: its members in increasing order. */
  method SortedElems(s: set<string>) returns (xs: seq<string>)
    ensures StrictlySorted(xs) && Elems(xs) == s
  {
    var ys: seq<string> := [];
    var left := s;
    while left != {}
      invariant Distinct(ys)
      invariant forall k :: k in s <==> k in ys || k in left
      invariant forall k | k in ys :: k !in left
      decreases |left|
    {
      var y :| y in left;
      ys := ys + [y];
      left := left - {y};
    }
    xs := Sort(ys);
    SortDistinct(ys);
  }

  /** The inner loop's state after the first `j` successors: each has
      lowered its in-degree once, and those that reached zero were queued
      once. */
  ghost predicate Released(nbrs: seq<string>, j: int, inDegree: map<string, int>, queue: seq<string>,
                           inDegree': map<string, int>, queue': seq<string>)
    requires 0 <= j <= |nbrs|
  {
    && (forall k :: k in inDegree' <==> k in inDegree)
    && (forall k | k in inDegree :: inDegree'[k] == inDegree[k] - multiset(nbrs[..j])[k])
    && (forall k :: k in queue' <==> k in queue || (k in nbrs[..j] && k in inDegree' && inDegree'[k] == 0))
    && Distinct(queue')
  }

  /** What the inner loop may assume of its input: each successor's
      in-degree counts it at least as often as it is listed, and no queued
      key is a successor. */
  ghost predicate ReleasePre(nbrs: seq<string>, inDegree: map<string, int>, queue: seq<string>) {
    && (forall k | k in nbrs :: k in inDegree && inDegree[k] >= multiset(nbrs)[k])
    && (forall k | k in queue :: k !in nbrs)
  }

  /** A round of the inner loop whose successor stays above zero. */
  lemma ReleaseLower(nbrs: seq<string>, j: int, inDegree: map<string, int>, queue: seq<string>,
                     inDegree': map<string, int>, queue': seq<string>)
    requires ReleasePre(nbrs, inDegree, queue)
    requires 0 <= j < |nbrs| && Released(nbrs, j, inDegree, queue, inDegree', queue')
    requires inDegree'[nbrs[j]] != 1
    ensures Released(nbrs, j + 1, inDegree, queue, inDegree'[nbrs[j] := inDegree'[nbrs[j]] - 1], queue')
  {
    var v := nbrs[j];
    var d := inDegree'[v := inDegree'[v] - 1];
    PrefixCount(nbrs, j);
    assert inDegree'[v] >= 1;
    forall k ensures k in queue' <==> k in queue || (k in nbrs[..j + 1] && k in d && d[k] == 0) {
      assert k in nbrs[..j + 1] <==> k in nbrs[..j] || k == v;
    }
  }

  /** A round of the inner loop whose successor reaches zero and is
      queued; it cannot have been queued before, since an in-degree stays at
      or above the occurrences still to come. */
  lemma ReleaseReach(nbrs: seq<string>, j: int, inDegree: map<string, int>, queue: seq<string>,
                     inDegree': map<string, int>, queue': seq<string>)
    requires ReleasePre(nbrs, inDegree, queue)
    requires 0 <= j < |nbrs| && Released(nbrs, j, inDegree, queue, inDegree', queue')
    requires inDegree'[nbrs[j]] == 1
    ensures Released(nbrs, j + 1, inDegree, queue, inDegree'[nbrs[j] := inDegree'[nbrs[j]] - 1], queue' + [nbrs[j]])
  {
    var v := nbrs[j];
    var d := inDegree'[v := inDegree'[v] - 1];
    var q := queue' + [v];
    PrefixCount(nbrs, j);
    forall k ensures k in q <==> k in queue || (k in nbrs[..j + 1] && k in d && d[k] == 0) {
      assert k in nbrs[..j + 1] <==> k in nbrs[..j] || k == v;
    }
    assert v !in queue';
    forall a, b | 0 <= a < b < |q| ensures q[a] != q[b] {
      if b == |q| - 1 { assert q[a] in queue'; }
    }
  }

  /** The first `j + 1` successors: one more occurrence of successor `j`,
      still within its total count. */
  lemma PrefixCount(nbrs: seq<string>, j: int)
    requires 0 <= j < |nbrs|
    ensures multiset(nbrs[..j + 1]) == multiset(nbrs[..j]) + multiset{nbrs[j]}
    ensures multiset(nbrs[..j])[nbrs[j]] + 1 <= multiset(nbrs)[nbrs[j]]
  {
    assert nbrs == nbrs[..j + 1] + nbrs[j + 1..];
    assert nbrs[..j + 1] == nbrs[..j] + [nbrs[j]];
  }

  /** The inner loop over the sorted successors of the visited key: each
      occurrence lowers the successor's in-degree by one, and a successor
      whose in-degree reaches zero joins the queue. */
  method Release(nbrs: seq<string>, inDegree: map<string, int>, queue: seq<string>)
    returns (inDegree': map<string, int>, queue': seq<string>)
    requires forall k | k in nbrs :: k in inDegree && inDegree[k] >= multiset(nbrs)[k]
    requires forall k | k in queue :: k !in nbrs
    requires Distinct(queue)
    ensures forall k :: k in inDegree' <==> k in inDegree
    ensures forall k | k in inDegree :: inDegree'[k] == inDegree[k] - multiset(nbrs)[k]
    ensures forall k :: k in queue' <==> k in queue || (k in nbrs && inDegree'[k] == 0)
    ensures Distinct(queue')
  {
    inDegree' := inDegree;
    queue' := queue;
    assert nbrs[..0] == [];
    for j := 0 to |nbrs|
      invariant Released(nbrs, j, inDegree, queue, inDegree', queue')
    {
      var v := nbrs[j];
      if inDegree'[v] == 1 {
        ReleaseReach(nbrs, j, inDegree, queue, inDegree', queue');
      } else {
        ReleaseLower(nbrs, j, inDegree, queue, inDegree', queue');
      }
      inDegree' := inDegree'[v := inDegree'[v] - 1];
      if inDegree'[v] == 0 {
        queue' := queue' + [v];
      }
    }
    assert nbrs[..|nbrs|] == nbrs;
  }

  /** `_topological_sort(skills, edges)`. */
  method TopologicalSort(skills: seq<string>, edges: seq<Edge>) returns (result: seq<string>)
    ensures result == TopoSpec(skills, edges)
  {
    if skills == [] {
      return [];
    }
    var caseMap := BuildCaseMap(skills);
    var skillSet := caseMap.Keys;
    var relevant := Relevant(edges, skillSet);
    SortedKeysStrict(skills);
    var order := KahnOrder(skillSet, relevant, SortedKeys(skills));
    TopoOrderPermutation(skills, edges);
    result := Restore(caseMap, order);
  }

  /** The steps of `_topological_sort` between the relevant edges and the
      restored casing: build the tables, seed the queue with the sorted
      keys of in-degree zero, drain it, and append the unvisited keys in
      sorted order. The result is Kahn's order of the keys. */
  method KahnOrder(skillSet: set<string>, relevant: seq<Edge>, ghost sk: seq<string>) returns (order: seq<string>)
    requires EdgesWithin(relevant, skillSet)
    requires StrictlySorted(sk) && forall k :: k in sk <==> k in skillSet
    ensures order == Kahn(sk, relevant)
  {
    var adjacency, inDegree := BuildGraph(skillSet, relevant, sk);
    var queue := SortedElems(set s | s in skillSet && inDegree[s] == 0);
    InitialQueue(sk, relevant, skillSet, inDegree, queue);
    assert [] + Kahn(sk, relevant) == Kahn(sk, relevant);
    var inDegree';
    ghost var rem;
    order, inDegree', rem := Drain(sk, relevant, skillSet, adjacency, inDegree, queue);
    var remaining := SortedElems(set s | s in skillSet && s !in order);
    Finish(sk, relevant, skillSet, rem, order, inDegree', remaining);
    order := order + remaining;
  }

  /** The main loop: pop the smallest ready key, emit it, release its
      successors and re-sort the queue, until the queue runs dry. */
  method Drain(ghost sk: seq<string>, relevant: seq<Edge>, skillSet: set<string>,
               adjacency: map<string, seq<string>>, inDegree0: map<string, int>, queue0: seq<string>)
    returns (order: seq<string>, inDegree: map<string, int>, ghost rem: seq<string>)
    requires EdgesWithin(relevant, skillSet)
    requires KahnState(sk, relevant, skillSet, sk, [], inDegree0, queue0)
    requires forall k | k in skillSet :: k in adjacency && adjacency[k] == Succs(relevant, k)
    ensures KahnState(sk, relevant, skillSet, rem, order, inDegree, [])
  {
    order := [];
    inDegree := inDegree0;
    var queue := queue0;
    rem := sk;
    while queue != []
      invariant KahnState(sk, relevant, skillSet, rem, order, inDegree, queue)
      decreases |rem|
    {
      var node := queue[0];
      assert node in queue;
      var nbrs := Sort(adjacency[node]);
      StepPre(sk, relevant, skillSet, rem, order, inDegree, queue, nbrs);
      var inDegree', queue' := Release(nbrs, inDegree, queue[1..]);
      StepPost(sk, relevant, skillSet, rem, order, inDegree, queue, nbrs, inDegree', queue');
      order := order + [node];
      inDegree := inDegree';
      queue := Sort(queue');
      rem := Remove(rem, node);
    }
  }

  /** When the queue runs dry, the unvisited keys in sorted order complete
      Kahn's order of all keys. */
  lemma Finish(sk: seq<string>, r: seq<Edge>, keys: set<string>, rem: seq<string>, order: seq<string>,
               inDegree: map<string, int>, remaining: seq<string>)
    requires KahnState(sk, r, keys, rem, order, inDegree, [])
    requires StrictlySorted(remaining) && Elems(remaining) == set s | s in keys && s !in order
    ensures order + remaining == Kahn(sk, r)
  {
    assert Kahn(rem, r) == rem;
    SortedUnique(remaining, rem);
  }

}
