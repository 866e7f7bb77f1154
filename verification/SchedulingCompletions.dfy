/**
 Completions one by one, for simultaneous arrivals: whatever the policy and the quantum, the k-th job
 to complete does so no earlier than the sum of the k smallest services, and under SJF exactly then.
 */
module SchedulingCompletions {
  import opened Util
  import opened Scheduling
  import opened SchedulingWork
  import opened SchedulingSjf
  import opened SchedulingMetrics

  /* Sorted sequences. */

  function Inserted(s: seq<int>, v: int): seq<int> {
    if s == [] || s[|s| - 1] <= v then s + [v] else Inserted(s[..|s| - 1], v) + [s[|s| - 1]]
  }

  /** The same numbers in ascending order. */
  function Ascend(s: seq<int>): seq<int> {
    if s == [] then [] else Inserted(Ascend(s[..|s| - 1]), s[|s| - 1])
  }

  ghost predicate Ascending(s: seq<int>) {
    forall a, b :: 0 <= a < b < |s| ==> s[a] <= s[b]
  }

  /** The sum of the k smallest numbers. */
  function Smallest(s: seq<int>, k: nat): int
    requires k <= |Ascend(s)|
  {
    Sum(Ascend(s)[..k])
  }

  /** How many numbers are at most t. */
  function CountUpTo(s: seq<int>, t: int): nat {
    if s == [] then 0 else CountUpTo(s[..|s| - 1], t) + if s[|s| - 1] <= t then 1 else 0
  }

  /** The sum of those s[i] for which at[i] is at most t. */
  function SumUpTo(s: seq<int>, at: seq<int>, t: int): int
    requires |s| == |at|
  {
    if s == [] then 0
    else SumUpTo(s[..|s| - 1], at[..|s| - 1], t) + if at[|s| - 1] <= t then s[|s| - 1] else 0
  }

  lemma {:induction false} InsertedOrder(s: seq<int>, v: int)
    requires Ascending(s)
    ensures var r := Inserted(s, v);
            |r| == |s| + 1 && Ascending(r) && forall k :: 0 <= k < |r| ==> r[k] == v || r[k] in s
    decreases |s|
  {
    if s != [] && s[|s| - 1] > v {
      var l := |s| - 1;
      var r := Inserted(s[..l], v);
      InsertedOrder(s[..l], v);
      forall k | 0 <= k < |r|
        ensures r[k] <= s[l] && (r[k] == v || r[k] in s)
      {
        if r[k] != v {
          var j :| 0 <= j < l && s[..l][j] == r[k];
          assert s[j] == r[k];
        }
      }
    }
  }

  lemma {:induction false} InsertedSums(s: seq<int>, v: int, t: int)
    ensures var r := Inserted(s, v);
            Sum(r) == Sum(s) + v && CountUpTo(r, t) == CountUpTo(s, t) + if v <= t then 1 else 0
    decreases |s|
  {
    if s == [] || s[|s| - 1] <= v {
      assert (s + [v])[..|s|] == s;
    } else {
      var l := |s| - 1;
      var r := Inserted(s[..l], v);
      InsertedSums(s[..l], v, t);
      assert (r + [s[l]])[..|r|] == r;
    }
  }

  lemma InsertedKeeps(s: seq<int>, v: int, t: int)
    requires Ascending(s)
    ensures var r := Inserted(s, v);
            && |r| == |s| + 1 && Ascending(r) && Sum(r) == Sum(s) + v
            && (forall k :: 0 <= k < |r| ==> r[k] == v || r[k] in s)
            && CountUpTo(r, t) == CountUpTo(s, t) + if v <= t then 1 else 0
  {
    hide Inserted, Sum, CountUpTo;
    InsertedOrder(s, v);
    InsertedSums(s, v, t);
  }

  lemma {:induction false} AscendKeeps(s: seq<int>, t: int)
    ensures var r := Ascend(s);
            && |r| == |s| && Ascending(r) && Sum(r) == Sum(s) && CountUpTo(r, t) == CountUpTo(s, t)
            && forall k :: 0 <= k < |r| ==> r[k] in s
  {
    if s != [] {
      AscendKeeps(s[..|s| - 1], t);
      InsertedKeeps(Ascend(s[..|s| - 1]), s[|s| - 1], t);
    }
  }

  /** Where an insertion happens in front of the last number. */
  lemma InFront(s: seq<int>, v: int, m: nat)
    requires Ascending(s) && s != [] && s[|s| - 1] > v && m <= |s| + 1
    ensures var r := Inserted(s[..|s| - 1], v);
            && Inserted(s, v) == r + [s[|s| - 1]] && |r| == |s| && Sum(r) == Sum(s[..|s| - 1]) + v
            && (m <= |s| ==> Inserted(s, v)[..m] == r[..m])
            && (m <= |s| - 1 ==> s[..|s| - 1][..m] == s[..m])
  {
    InsertedKeeps(s[..|s| - 1], v, 0);
  }

  lemma Behind(s: seq<int>, v: int, m: nat)
    requires (s == [] || s[|s| - 1] <= v) && m <= |s| + 1
    ensures Inserted(s, v) == s + [v] && Sum(s + [v]) == Sum(s) + v
    ensures if m <= |s| then (s + [v])[..m] == s[..m] else (s + [v])[..m] == s + [v]
  {
    SumAppend(s, v);
  }

  lemma SumPrefix(s: seq<int>, m: nat)
    requires 1 <= m <= |s|
    ensures Sum(s[..m]) == Sum(s[..m - 1]) + s[m - 1]
    ensures Sum(s[..|s|]) == Sum(s)
  {
    assert s[..m] == s[..m - 1] + [s[m - 1]] && s[..|s|] == s;
    SumAppend(s[..m - 1], s[m - 1]);
  }

  /** One more number can only lower the sum of the m smallest. */
  lemma {:induction false} MoreChoice(s: seq<int>, v: int, m: nat)
    requires Ascending(s) && m <= |s|
    ensures |Inserted(s, v)| == |s| + 1 && Sum(Inserted(s, v)[..m]) <= Sum(s[..m])
    decreases |s|
  {
    hide Inserted, Sum;
    var l := |s| - 1;
    if s == [] || s[l] <= v {
      Behind(s, v, m);
    } else {
      InFront(s, v, m);
      if m <= l {
        MoreChoice(s[..l], v, m);
      } else {
        SumPrefix(s, |s|);
        SumPrefix(Inserted(s[..l], v), |s|);
      }
    }
  }

  /** Among s and v, the m smallest sum to at most v and the m - 1 smallest of s. */
  lemma {:induction false} WithOneMore(s: seq<int>, v: int, m: nat)
    requires Ascending(s) && 1 <= m <= |s| + 1
    ensures |Inserted(s, v)| == |s| + 1 && Sum(Inserted(s, v)[..m]) <= Sum(s[..m - 1]) + v
    decreases |s|
  {
    hide Inserted, Sum;
    var l := |s| - 1;
    if s == [] || s[l] <= v {
      Behind(s, v, m);
      if m <= |s| {
        SumPrefix(s, m);
      } else {
        assert s[..m - 1] == s;
      }
    } else {
      InFront(s, v, m);
      if m <= |s| {
        WithOneMore(s[..l], v, m);
        assert s[..l][..m - 1] == s[..m - 1];
      } else {
        InsertedKeeps(s, v, 0);
        SumPrefix(Inserted(s, v), m);
        assert s[..m - 1] == s;
      }
    }
  }

  /** Any choice of numbers sums to at least as much as that many smallest ones. */
  lemma {:induction false} ChoiceIsNotLess(s: seq<int>, at: seq<int>, t: int)
    requires |s| == |at|
    ensures CountUpTo(at, t) <= |s| == |Ascend(s)| && SumUpTo(s, at, t) >= Smallest(s, CountUpTo(at, t))
  {
    AscendKeeps(s, 0);
    if s != [] {
      var l := |s| - 1;
      ChoiceIsNotLess(s[..l], at[..l], t);
      AscendKeeps(s[..l], 0);
      var m := CountUpTo(at, t);
      if at[l] <= t {
        WithOneMore(Ascend(s[..l]), s[l], m);
      } else {
        MoreChoice(Ascend(s[..l]), s[l], m);
      }
    }
  }

  /** At least k + 1 numbers are at most the one in place k. */
  lemma {:induction false} PlaceCounts(s: seq<int>, k: nat)
    requires Ascending(s) && k < |s|
    ensures CountUpTo(s, s[k]) >= k + 1
  {
    var l := |s| - 1;
    if k < l {
      PlaceCounts(s[..l], k);
      assert s[..l][k] == s[k];
    } else {
      AllCount(s, s[l]);
    }
  }

  lemma {:induction false} AllCount(s: seq<int>, t: int)
    requires forall k :: 0 <= k < |s| ==> s[k] <= t
    ensures CountUpTo(s, t) == |s|
  {
    if s != [] {
      AllCount(s[..|s| - 1], t);
    }
  }

  lemma {:induction false} SmallestMonotone(s: seq<int>, j: nat, k: nat)
    requires j <= k <= |s| && forall i :: 0 <= i < |s| ==> s[i] >= 0
    ensures Sum(s[..j]) <= Sum(s[..k])
    decreases k
  {
    if j < k {
      SmallestMonotone(s, j, k - 1);
      assert s[..k][..k - 1] == s[..k - 1];
    }
  }

  /* The work a trace can hold. */

  /** What the first n jobs with at[i] at most t ran. */
  function RanUpTo(trace: seq<Segment>, at: seq<int>, t: int, n: nat): int
    requires n <= |at|
  {
    if n == 0 then 0 else RanUpTo(trace, at, t, n - 1) + if at[n - 1] <= t then RanFor(trace, n - 1) else 0
  }

  /** The length of the segments of such jobs. */
  function WorkUpTo(trace: seq<Segment>, at: seq<int>, t: int): int {
    if trace == [] then 0
    else
      var g := trace[|trace| - 1];
      WorkUpTo(trace[..|trace| - 1], at, t) + if g.job < |at| && at[g.job] <= t then g.end - g.start else 0
  }

  lemma {:induction false} RanGrows(trace: seq<Segment>, g: Segment, at: seq<int>, t: int, n: nat)
    requires n <= |at|
    ensures RanUpTo(trace + [g], at, t, n)
            == RanUpTo(trace, at, t, n) + if g.job < n && at[g.job] <= t then g.end - g.start else 0
    decreases n
  {
    if n > 0 {
      RanGrows(trace, g, at, t, n - 1);
      TraceGrows(trace, g, n - 1);
    }
  }

  lemma {:induction false} RanIsWork(trace: seq<Segment>, at: seq<int>, t: int)
    ensures RanUpTo(trace, at, t, |at|) == WorkUpTo(trace, at, t)
    decreases |trace|
  {
    if trace == [] {
      NothingRan(at, t, |at|);
    } else {
      var l := |trace| - 1;
      RanIsWork(trace[..l], at, t);
      RanGrows(trace[..l], trace[l], at, t, |at|);
      assert trace == trace[..l] + [trace[l]];
    }
  }

  lemma {:induction false} NothingRan(at: seq<int>, t: int, n: nat)
    requires n <= |at|
    ensures RanUpTo([], at, t, n) == 0
  {
    if n > 0 {
      NothingRan(at, t, n - 1);
    }
  }

  lemma {:induction false} ServicesRan(s: seq<int>, trace: seq<Segment>, at: seq<int>, t: int, n: nat)
    requires n <= |s| == |at| && forall i :: 0 <= i < |s| ==> s[i] == RanFor(trace, i)
    ensures SumUpTo(s[..n], at[..n], t) == RanUpTo(trace, at, t, n)
    decreases n
  {
    if n > 0 {
      ServicesRan(s, trace, at, t, n - 1);
      assert s[..n][..n - 1] == s[..n - 1] && at[..n][..n - 1] == at[..n - 1];
    }
  }

  /** Disjoint segments between a and limit hold at most limit - a. */
  lemma {:induction false} WorkFits(trace: seq<Segment>, at: seq<int>, t: int, a: int, limit: int)
    requires a <= limit
    requires forall k :: 0 <= k < |trace| ==> a <= trace[k].start <= trace[k].end
    requires forall j, k :: 0 <= j < k < |trace| ==> trace[j].end <= trace[k].start
    requires forall k :: 0 <= k < |trace| && trace[k].job < |at| && at[trace[k].job] <= t ==> trace[k].end <= limit
    ensures WorkUpTo(trace, at, t) <= limit - a
    decreases |trace|
  {
    if trace != [] {
      var l := |trace| - 1;
      var g := trace[l];
      WorkFits(trace[..l], at, t, a, if g.job < |at| && at[g.job] <= t then g.start else limit);
    }
  }

  /* The k-th completion. */

  /** When each job completes. */
  function Completions(jobs: seq<Job>, policy: Policy, quantum: int): (r: seq<int>)
    requires ValidJobs(jobs) && quantum > 0
    ensures |r| == |jobs|
  {
    var f := Final(jobs, policy, quantum);
    seq(|jobs|, i requires 0 <= i < |jobs| => if i in f.done then f.done[i] else 0)
  }

  lemma CompletionsAre(jobs: seq<Job>, policy: Policy, quantum: int)
    requires ValidJobs(jobs) && quantum > 0
    ensures var f := Final(jobs, policy, quantum);
            forall i :: 0 <= i < |jobs| ==> i in f.done && Completions(jobs, policy, quantum)[i] == f.done[i] >= jobs[i].arrival
  {
    var f := Final(jobs, policy, quantum);
    forall i | 0 <= i < |jobs|
      ensures i in f.done && f.done[i] >= jobs[i].arrival
    {
      assert Placed(jobs, f, -1, i);
    }
  }

  /** All jobs done by t were served since a, one at a time. */
  lemma DoneByThen(jobs: seq<Job>, a: int, policy: Policy, quantum: int, t: int)
    requires ValidJobs(jobs) && quantum > 0 && Together(jobs, a) && a <= t
    ensures SumUpTo(Services(jobs), Completions(jobs, policy, quantum), t) <= t - a
  {
    var f, at := Final(jobs, policy, quantum), Completions(jobs, policy, quantum);
    CompletionsAre(jobs, policy, quantum);
    BusyTime(jobs, policy, quantum);
    forall k | 0 <= k < |f.trace|
      ensures a <= f.trace[k].start <= f.trace[k].end
      ensures f.trace[k].job < |at| && at[f.trace[k].job] <= t ==> f.trace[k].end <= t
    {
      assert SegmentOk(jobs, f, f.trace[k]);
    }
    forall i | 0 <= i < |jobs|
      ensures Services(jobs)[i] == RanFor(f.trace, i)
    {
      ReportIsTheTrace(jobs, policy, quantum, i);
    }
    hide Completions, Final, WorkUpTo, RanUpTo, SumUpTo, RanFor, Covered, Unfinished;
    WorkFits(f.trace, at, t, a, t);
    RanIsWork(f.trace, at, t);
    ServicesRan(Services(jobs), f.trace, at, t, |jobs|);
    assert Services(jobs)[..|jobs|] == Services(jobs) && at[..|jobs|] == at;
  }

  /** Whatever is done by t fits between a and t. */
  ghost predicate FitsIn(s: seq<int>, at: seq<int>, a: int) {
    && |s| == |at| && (forall i :: 0 <= i < |s| ==> s[i] >= 0 && at[i] >= a)
    && forall t :: t >= a ==> SumUpTo(s, at, t) <= t - a
  }

  lemma CompletionsFitIn(jobs: seq<Job>, a: int, policy: Policy, quantum: int)
    requires ValidJobs(jobs) && quantum > 0 && Together(jobs, a)
    ensures FitsIn(Services(jobs), Completions(jobs, policy, quantum), a)
  {
    CompletionsAre(jobs, policy, quantum);
    hide Completions, Final;
    forall t | t >= a
      ensures SumUpTo(Services(jobs), Completions(jobs, policy, quantum), t) <= t - a
    {
      DoneByThen(jobs, a, policy, quantum, t);
    }
  }

  lemma PlaceIsLate(s: seq<int>, at: seq<int>, a: int, k: nat)
    requires FitsIn(s, at, a) && k < |s|
    ensures |Ascend(at)| == |Ascend(s)| == |s| && Ascend(at)[k] >= a + Smallest(s, k + 1)
  {
    hide Ascend, CountUpTo, SumUpTo, Sum, Ascending;
    AscendKeeps(s, 0);
    AscendKeeps(at, 0);
    var t := Ascend(at)[k];
    AscendKeeps(at, t);
    assert t in at;
    PlaceCounts(Ascend(at), k);
    ChoiceIsNotLess(s, at, t);
    SmallestMonotone(Ascend(s), k + 1, CountUpTo(at, t));
  }

  /** For every policy and quantum, the k-th completion is no earlier than the k smallest services allow. */
  lemma KthCompletionAtLeast(jobs: seq<Job>, a: int, policy: Policy, quantum: int, k: nat)
    requires ValidJobs(jobs) && quantum > 0 && Together(jobs, a) && k < |jobs|
    ensures |Ascend(Completions(jobs, policy, quantum))| == |Ascend(Services(jobs))| == |jobs|
    ensures Ascend(Completions(jobs, policy, quantum))[k] >= a + Smallest(Services(jobs), k + 1)
  {
    hide Completions, FitsIn, Ascend, Smallest;
    CompletionsFitIn(jobs, a, policy, quantum);
    PlaceIsLate(Services(jobs), Completions(jobs, policy, quantum), a, k);
  }

  /* The total decides: if no completion can be earlier and the sum is least, each is as early as it can be. */

  /** The sums of all non-empty prefixes, added up. */
  function PrefixTotal(s: seq<int>): int {
    if s == [] then 0 else PrefixTotal(s[..|s| - 1]) + Sum(s)
  }

  lemma {:induction false} CrossInserted(s: seq<int>, v: int, w: int)
    requires Ascending(s)
    ensures Cross(Inserted(s, v), w) == Cross(s, w) + Min(v, w)
  {
    var l := |s| - 1;
    if s == [] || s[l] <= v {
      assert (s + [v])[..|s|] == s;
    } else {
      var r := Inserted(s[..l], v);
      CrossInserted(s[..l], v, w);
      assert (r + [s[l]])[..|r|] == r;
    }
  }

  lemma {:induction false} LeastInserted(s: seq<int>, v: int)
    requires Ascending(s)
    ensures LeastTotal(Inserted(s, v)) == LeastTotal(s) + v + Cross(s, v)
  {
    var l := |s| - 1;
    if s == [] || s[l] <= v {
      assert (s + [v])[..|s|] == s;
    } else {
      var r := Inserted(s[..l], v);
      LeastInserted(s[..l], v);
      CrossInserted(s[..l], v, s[l]);
      assert (r + [s[l]])[..|r|] == r;
    }
  }

  lemma {:induction false} LeastOfAscending(s: seq<int>)
    requires Ascending(s)
    ensures LeastTotal(s) == PrefixTotal(s)
  {
    if s != [] {
      var l := |s| - 1;
      LeastOfAscending(s[..l]);
      CrossOfLarger(s[..l], s[l]);
    }
  }

  lemma {:induction false} CrossOfLarger(s: seq<int>, v: int)
    requires forall k :: 0 <= k < |s| ==> s[k] <= v
    ensures Cross(s, v) == Sum(s)
  {
    if s != [] {
      CrossOfLarger(s[..|s| - 1], v);
    }
  }

  /** The least total does not depend on the order of the jobs. */
  lemma {:induction false} LeastIsPrefixTotal(s: seq<int>)
    ensures LeastTotal(s) == PrefixTotal(Ascend(s)) == LeastTotal(Ascend(s))
  {
    AscendKeeps(s, 0);
    LeastOfAscending(Ascend(s));
    if s != [] {
      var l := |s| - 1;
      LeastIsPrefixTotal(s[..l]);
      AscendKeeps(s[..l], 0);
      LeastInserted(Ascend(s[..l]), s[l]);
      CrossAscend(s[..l], s[l]);
    }
  }

  lemma {:induction false} CrossAscend(s: seq<int>, w: int)
    ensures Cross(Ascend(s), w) == Cross(s, w)
  {
    if s != [] {
      AscendKeeps(s[..|s| - 1], 0);
      CrossAscend(s[..|s| - 1], w);
      CrossInserted(Ascend(s[..|s| - 1]), s[|s| - 1], w);
    }
  }

  lemma {:induction false} SumIsAtLeast(c: seq<int>, s: seq<int>, a: int)
    requires |c| == |s| && forall k :: 0 <= k < |s| ==> c[k] >= a + Sum(s[..k + 1])
    ensures Sum(c) >= PrefixTotal(s) + |s| * a
  {
    if s != [] {
      var l := |s| - 1;
      forall k | 0 <= k < l
        ensures c[..l][k] >= a + Sum(s[..l][..k + 1])
      {
        assert s[..l][..k + 1] == s[..k + 1];
      }
      SumIsAtLeast(c[..l], s[..l], a);
      assert s[..l + 1] == s;
      assert |s| * a == l * a + a;
    }
  }

  lemma {:induction false} EachIsLeast(c: seq<int>, s: seq<int>, a: int)
    requires |c| == |s| && forall k :: 0 <= k < |s| ==> c[k] >= a + Sum(s[..k + 1])
    requires Sum(c) == PrefixTotal(s) + |s| * a
    ensures forall k :: 0 <= k < |s| ==> c[k] == a + Sum(s[..k + 1])
  {
    if s != [] {
      var l := |s| - 1;
      forall k | 0 <= k < l
        ensures c[..l][k] >= a + Sum(s[..l][..k + 1])
      {
        assert s[..l][..k + 1] == s[..k + 1];
      }
      SumIsAtLeast(c[..l], s[..l], a);
      assert s[..l + 1] == s;
      assert |s| * a == l * a + a;
      EachIsLeast(c[..l], s[..l], a);
      forall k | 0 <= k < |s|
        ensures c[k] == a + Sum(s[..k + 1])
      {
        if k < l {
          assert c[..l][k] == a + Sum(s[..l][..k + 1]);
          assert s[..l][..k + 1] == s[..k + 1];
        }
      }
    }
  }

  lemma {:induction false} TotalIsSum(jobs: seq<Job>, done: map<nat, int>, at: seq<int>, a: int, n: nat)
    requires n <= |jobs| == |at| && Together(jobs, a) && forall i :: 0 <= i < n ==> i in done && at[i] == done[i]
    ensures Turnarounds(jobs, done, 0, n) == Sum(at[..n]) - n * a
    decreases n
  {
    if n > 0 {
      TotalIsSum(jobs, done, at, a, n - 1);
      SumPrefix(at, n);
      assert n * a == (n - 1) * a + a;
    }
  }

  /** If besides the total is the least one, every place is as early as it can be. */
  lemma PlacesAreExact(s: seq<int>, at: seq<int>, a: int)
    requires FitsIn(s, at, a) && Sum(at) == LeastTotal(s) + |s| * a
    ensures |Ascend(at)| == |Ascend(s)| == |s|
    ensures forall k :: 0 <= k < |s| ==> Ascend(at)[k] == a + Sum(Ascend(s)[..k + 1])
  {
    hide Ascend, Sum, LeastTotal, PrefixTotal, FitsIn, Ascending;
    LeastIsPrefixTotal(s);
    AscendKeeps(at, 0);
    AscendKeeps(s, 0);
    SizesFit(s, at, a);
    forall k | 0 <= k < |s|
      ensures Ascend(at)[k] >= a + Sum(Ascend(s)[..k + 1])
    {
      PlaceIsLate(s, at, a, k);
    }
    EachIsLeast(Ascend(at), Ascend(s), a);
  }

  lemma SizesFit(s: seq<int>, at: seq<int>, a: int)
    requires FitsIn(s, at, a)
    ensures |s| == |at|
  {
  }

  /** The sum of SJF's completions is the least one. */
  lemma SjfTotal(jobs: seq<Job>, a: int, quantum: int)
    requires ValidJobs(jobs) && quantum > 0 && Together(jobs, a) && a >= 0
    ensures Sum(Completions(jobs, Sjf, quantum)) == LeastTotal(Services(jobs)) + |jobs| * a
  {
    var at, f := Completions(jobs, Sjf, quantum), Final(jobs, Sjf, quantum);
    CompletionsAre(jobs, Sjf, quantum);
    SjfIsOptimal(jobs, a, Sjf, quantum, quantum);
    hide Completions, Final, LeastTotal, Sum, Turnarounds;
    TotalIsSum(jobs, f.done, at, a, |jobs|);
    assert at[..|jobs|] == at;
  }

  /** SJF completes its k-th job exactly when the k smallest services are served. */
  lemma SjfKthCompletion(jobs: seq<Job>, a: int, quantum: int, k: nat)
    requires ValidJobs(jobs) && quantum > 0 && Together(jobs, a) && a >= 0 && k < |jobs|
    ensures |Ascend(Completions(jobs, Sjf, quantum))| == |Ascend(Services(jobs))| == |jobs|
    ensures Ascend(Completions(jobs, Sjf, quantum))[k] == a + Smallest(Services(jobs), k + 1)
  {
    hide Completions, FitsIn, Ascend, Sum, LeastTotal;
    CompletionsFitIn(jobs, a, Sjf, quantum);
    SjfTotal(jobs, a, quantum);
    PlacesAreExact(Services(jobs), Completions(jobs, Sjf, quantum), a);
  }

  /** Job by job SJF is never behind: its k-th completion is no later than any other schedule's. */
  lemma SjfLeadsThroughout(jobs: seq<Job>, a: int, q: int, policy: Policy, quantum: int, k: nat)
    requires ValidJobs(jobs) && q > 0 && quantum > 0 && Together(jobs, a) && a >= 0 && k < |jobs|
    ensures |Ascend(Completions(jobs, Sjf, q))| == |Ascend(Completions(jobs, policy, quantum))| == |jobs|
    ensures Ascend(Completions(jobs, Sjf, q))[k] <= Ascend(Completions(jobs, policy, quantum))[k]
  {
    hide Completions, Services, Ascend, Sum;
    SjfKthCompletion(jobs, a, q, k);
    KthCompletionAtLeast(jobs, a, policy, quantum, k);
  }
}
