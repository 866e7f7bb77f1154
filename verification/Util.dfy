/** Vocabulary shared by the models: results, options, sums and distinct sequences. */
module Util {
  datatype Option<+T> = None | Some(value: T)

  datatype Result<+T, +E> = Ok(value: T) | Err(error: E)

  function Min(a: int, b: int): int {
    if a <= b then a else b
  }

  function Max(a: int, b: int): int {
    if a >= b then a else b
  }

  ghost predicate Distinct<T>(s: seq<T>) {
    forall a, b :: 0 <= a < b < |s| ==> s[a] != s[b]
  }

  ghost predicate Below(s: seq<nat>, n: nat) {
    forall k :: 0 <= k < |s| ==> s[k] < n
  }

  function Lookup(m: map<nat, int>, i: nat): Option<int> {
    if i in m then Some(m[i]) else None
  }

  /** Position of the first entry with the least level: a minimum by key that keeps the first one. */
  function Best(levels: seq<int>, queue: seq<nat>): (p: nat)
    requires queue != [] && Below(queue, |levels|)
    ensures p < |queue|
    ensures forall k :: 0 <= k < |queue| ==> levels[queue[p]] <= levels[queue[k]]
    ensures forall k :: 0 <= k < p ==> levels[queue[p]] < levels[queue[k]]
  {
    if |queue| == 1 then 0
    else
      var l := |queue| - 1;
      var p := Best(levels, queue[..l]);
      assert forall k :: 0 <= k < l ==> queue[..l][k] == queue[k];
      if levels[queue[l]] < levels[queue[p]] then l else p
  }

  function RemoveAt<T>(s: seq<T>, p: nat): (r: seq<T>)
    requires p < |s|
    ensures |r| == |s| - 1
    ensures forall k :: 0 <= k < p ==> r[k] == s[k]
    ensures forall k :: p <= k < |r| ==> r[k] == s[k + 1]
  {
    s[..p] + s[p + 1..]
  }

  /** Removing one entry of a duplicate-free sequence removes exactly that element. */
  lemma RemoveAtMembers<T>(s: seq<T>, p: nat)
    requires p < |s| && Distinct(s)
    ensures Distinct(RemoveAt(s, p))
    ensures forall e :: e in RemoveAt(s, p) <==> e in s && e != s[p]
  {
    var r := RemoveAt(s, p);
    forall e | e in s && e != s[p]
      ensures e in r
    {
      var k :| 0 <= k < |s| && s[k] == e;
      assert r[if k < p then k else k - 1] == e;
    }
  }

  lemma NoMembers<T>(s: seq<T>)
    ensures s == [] || s[0] in s
  {
  }

  lemma TailMembers<T>(s: seq<T>)
    requires s != [] && Distinct(s)
    ensures Distinct(s[1..]) && s[0] !in s[1..]
    ensures forall e :: e in s <==> e == s[0] || e in s[1..]
  {
    assert s == [s[0]] + s[1..];
  }

  lemma AppendMembers<T>(s: seq<T>, x: T)
    ensures forall e :: e in s + [x] <==> e in s || e == x
    ensures Distinct(s) && x !in s ==> Distinct(s + [x])
  {
  }

  lemma ConcatMembers<T>(s: seq<T>, w: seq<T>)
    ensures forall e :: e in s + w <==> e in s || e in w
    ensures Distinct(s) && Distinct(w) && (forall e :: e in w ==> e !in s) ==> Distinct(s + w)
  {
    var r := s + w;
    if Distinct(s) && Distinct(w) && (forall e :: e in w ==> e !in s) {
      forall a, b | 0 <= a < b < |r|
        ensures r[a] != r[b]
      {
        if a < |s| <= b {
          assert r[a] in s && r[b] in w;
        }
      }
    }
  }

  function Sum(s: seq<int>): int {
    if s == [] then 0 else Sum(s[..|s| - 1]) + s[|s| - 1]
  }

  lemma SumAppend(s: seq<int>, v: int)
    ensures Sum(s + [v]) == Sum(s) + v
  {
    assert (s + [v])[..|s|] == s;
  }

  lemma {:induction false} SumUpdate(s: seq<int>, i: nat, v: int)
    requires i < |s|
    ensures Sum(s[i := v]) == Sum(s) - s[i] + v
  {
    var n := |s| - 1;
    if i < n {
      assert s[i := v][..n] == s[..n][i := v];
      SumUpdate(s[..n], i, v);
    } else {
      assert s[i := v][..n] == s[..n];
    }
  }

  lemma {:induction false} SumOfZeros(s: seq<int>)
    requires forall k :: 0 <= k < |s| ==> s[k] == 0
    ensures Sum(s) == 0
  {
    if s != [] {
      SumOfZeros(s[..|s| - 1]);
    }
  }

  lemma {:induction false} SumNonNegative(s: seq<int>)
    requires forall k :: 0 <= k < |s| ==> s[k] >= 0
    ensures Sum(s) >= 0
    ensures forall k :: 0 <= k < |s| ==> s[k] <= Sum(s)
  {
    if s != [] {
      SumNonNegative(s[..|s| - 1]);
      assert forall k :: 0 <= k < |s| - 1 ==> s[k] == s[..|s| - 1][k];
    }
  }

  lemma {:induction false} SumMonotone(a: seq<int>, b: seq<int>)
    requires |a| == |b|
    requires forall k :: 0 <= k < |a| ==> a[k] <= b[k]
    ensures Sum(a) <= Sum(b)
  {
    if a != [] {
      SumMonotone(a[..|a| - 1], b[..|b| - 1]);
    }
  }

  lemma {:induction false} SumStrictlyMonotone(a: seq<int>, b: seq<int>, i: nat)
    requires |a| == |b| && i < |a| && a[i] < b[i]
    requires forall k :: 0 <= k < |a| ==> a[k] <= b[k]
    ensures Sum(a) < Sum(b)
  {
    var l := |a| - 1;
    if i < l {
      SumStrictlyMonotone(a[..l], b[..l], i);
    } else {
      SumMonotone(a[..l], b[..l]);
    }
  }

  /** A duplicate-free sequence of ids below n has at most n entries. */
  lemma {:induction false} PigeonHole(s: seq<nat>, n: nat)
    requires Distinct(s) && Below(s, n)
    ensures |s| <= n
  {
    if s == [] {
      return;
    }
    assert s[0] < n;
    if exists p :: 0 <= p < |s| && s[p] == n - 1 {
      var p :| 0 <= p < |s| && s[p] == n - 1;
      RemoveAtMembers(s, p);
      var r := RemoveAt(s, p);
      forall k | 0 <= k < |r|
        ensures r[k] < n - 1
      {
        assert r[k] in r;
      }
      PigeonHole(r, n - 1);
    } else {
      PigeonHole(s, n - 1);
    }
  }
}
