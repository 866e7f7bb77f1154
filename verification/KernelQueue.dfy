/**
 The ready queue of src/scheduler.rs: a fixed array of ids with in-place stable removal, proved to
 be a duplicate-free sequence from which the oldest entry of the best level is taken.
 */
module KernelQueue {
  import opened Util

  datatype PushError = BadTaskId | QueueFull | DuplicateTask

  /** Where `pop` takes from: the best level, or simply the front. */
  function Front(levels: seq<nat>, queue: seq<nat>, mlfq: bool): (p: nat)
    requires queue != [] && Below(queue, |levels|)
    ensures p < |queue| && (!mlfq ==> p == 0)
  {
    if mlfq then Best(levels, queue) else 0
  }

  /** `push` on values: fails exactly on a bad id, a full queue, or a duplicate, in that order. */
  function Pushed(queue: seq<nat>, capacity: nat, id: nat): Result<seq<nat>, PushError> {
    if id >= capacity then Err(BadTaskId)
    else if |queue| == capacity then Err(QueueFull)
    else if id in queue then Err(DuplicateTask)
    else Ok(queue + [id])
  }

  /** An id that is not queued always fits, whatever the capacity. */
  lemma PushFits(queue: seq<nat>, capacity: nat, id: nat)
    requires Distinct(queue) && Below(queue, capacity) && id < capacity && id !in queue
    ensures Pushed(queue, capacity, id) == Ok(queue + [id])
    ensures Distinct(queue + [id]) && Below(queue + [id], capacity)
  {
    AppendMembers(queue, id);
    PigeonHole(queue + [id], capacity);
  }

  class Ready {
    const ids: array<nat>
    var len: nat

    ghost function Contents(): seq<nat>
      reads this, ids
      requires len <= ids.Length
    {
      ids[..len]
    }

    ghost predicate Valid()
      reads this, ids
    {
      len <= ids.Length && Distinct(Contents()) && Below(Contents(), ids.Length)
    }

    constructor (capacity: nat)
      ensures Valid() && fresh(ids) && ids.Length == capacity && Contents() == []
    {
      ids := new nat[capacity](_ => 0);
      len := 0;
    }

    method Push(id: nat) returns (r: Result<(), PushError>)
      requires Valid()
      modifies this`len, ids
      ensures Valid()
      ensures match Pushed(old(Contents()), ids.Length, id)
              case Ok(q) => r.Ok? && Contents() == q
              case Err(e) => r == Err(e) && Contents() == old(Contents())
    {
      if id >= ids.Length {
        return Err(BadTaskId);
      }
      if len == ids.Length {
        return Err(QueueFull);
      }
      if exists k :: 0 <= k < len && ids[k] == id {
        return Err(DuplicateTask);
      }
      AppendMembers(Contents(), id);
      ids[len] := id;
      len := len + 1;
      assert Contents() == old(Contents()) + [id];
      return Ok(());
    }

    /** Takes the oldest entry of the best level (or the oldest entry) and closes the gap. */
    method Pop(levels: seq<nat>, mlfq: bool) returns (r: Option<nat>)
      requires Valid() && Below(Contents(), |levels|)
      modifies this`len, ids
      ensures Valid()
      ensures r.None? <==> old(Contents()) == []
      ensures r.None? ==> Contents() == []
      ensures r.Some? ==>
                var q := old(Contents());
                var p := Front(levels, q, mlfq);
                r.value == q[p] && Contents() == RemoveAt(q, p)
    {
      if len == 0 {
        return None;
      }
      ghost var q := Contents();
      var pos := 0;
      if mlfq {
        pos := FirstLeast(levels);
      }
      RemoveAtMembers(q, pos);
      var id := ids[pos];
      CloseGap(pos);
      len := len - 1;
      assert Contents() == RemoveAt(q, pos);
      return Some(id);
    }

    /** `copy_within(pos + 1..len, pos)`. */
    method CloseGap(pos: nat)
      requires pos < len <= ids.Length
      modifies ids
      ensures ids[..len - 1] == RemoveAt(old(ids[..len]), pos)
    {
      ghost var q := ids[..len];
      var k := pos;
      while k + 1 < len
        invariant pos <= k < len
        invariant forall j :: 0 <= j < k ==> ids[j] == RemoveAt(q, pos)[j]
        invariant forall j :: k < j < len ==> ids[j] == q[j]
      {
        ids[k] := ids[k + 1];
        k := k + 1;
      }
    }

    /** The scan of `min_by_key`. */
    method FirstLeast(levels: seq<nat>) returns (pos: nat)
      requires Valid() && Below(Contents(), |levels|) && len > 0
      ensures pos == Best(levels, Contents())
    {
      pos := 0;
      var k := 1;
      while k < len
        invariant 1 <= k <= len && pos == Best(levels, ids[..k])
      {
        assert ids[..k + 1][..k] == ids[..k];
        if levels[ids[k]] < levels[ids[pos]] {
          pos := k;
        }
        k := k + 1;
      }
    }
  }

  /** Pushes 1, 2, ... behind task 0 until the queue is full. */
  method Fill(q: Ready)
    requires q.Valid() && q.ids.Length >= 1 && q.Contents() == [0]
    modifies q`len, q.ids
    ensures q.Valid() && q.Contents() == seq(q.ids.Length, (k: nat) => k)
  {
    var i := 1;
    while i < q.ids.Length
      invariant 1 <= i <= q.ids.Length && q.Valid()
      invariant q.Contents() == seq(i, (k: nat) => k)
    {
      var pushed := q.Push(i);
      i := i + 1;
    }
  }

  /** Pops a full queue in the order it was filled. */
  method Drain(q: Ready, levels: seq<nat>)
    requires q.Valid() && q.Contents() == seq(q.ids.Length, (k: nat) => k) && |levels| == q.ids.Length
    modifies q`len, q.ids
    ensures q.Valid() && q.Contents() == []
  {
    var i := 0;
    while i < q.ids.Length
      invariant 0 <= i <= q.ids.Length && q.Valid()
      invariant q.Contents() == seq(q.ids.Length - i, (k: nat) => i + k)
    {
      var id := q.Pop(levels, false);
      assert id == Some(i);
      i := i + 1;
    }
  }

  /**
   The self-test at the start of `batch`, for any capacity: it passes exactly from capacity 2 on, since
   a full queue of one reports QueueFull, not DuplicateTask, for the second push of task 0.
   */
  method Probe(capacity: nat) returns (ok: bool)
    ensures ok <==> capacity >= 2
  {
    var levels := seq(capacity, _ => 0);
    var q := new Ready(capacity);
    var none := q.Pop(levels, false);
    var first := q.Push(0);
    var again := q.Push(0);
    if first.Err? || again != Err(DuplicateTask) {
      return false;
    }
    Fill(q);
    var full := q.Push(0);
    assert full == Err(QueueFull);
    Drain(q, levels);
    none := q.Pop(levels, false);
    assert none == None;
    return true;
  }

  /** The order in which repeated `pop`s empty a queue while no level changes. */
  function PopOrder(levels: seq<nat>, queue: seq<nat>, mlfq: bool): (r: seq<nat>)
    requires Below(queue, |levels|)
    ensures |r| == |queue|
    decreases |queue|
  {
    if queue == [] then []
    else
      var p := Front(levels, queue, mlfq);
      [queue[p]] + PopOrder(levels, RemoveAt(queue, p), mlfq)
  }

  /** u stands before v. */
  ghost predicate Precedes(s: seq<nat>, u: nat, v: nat) {
    exists a, b :: 0 <= a < b < |s| && s[a] == u && s[b] == v
  }

  lemma PrecedesRest(queue: seq<nat>, p: nat, u: nat, v: nat)
    requires p < |queue| && Distinct(queue) && u != queue[p] && v != queue[p]
    ensures Precedes(RemoveAt(queue, p), u, v) <==> Precedes(queue, u, v)
  {
    var r := RemoveAt(queue, p);
    if Precedes(queue, u, v) {
      var a, b :| 0 <= a < b < |queue| && queue[a] == u && queue[b] == v;
      assert r[if a < p then a else a - 1] == u && r[if b < p then b else b - 1] == v;
    }
    if Precedes(r, u, v) {
      var a, b :| 0 <= a < b < |r| && r[a] == u && r[b] == v;
      assert queue[if a < p then a else a + 1] == u && queue[if b < p then b else b + 1] == v;
    }
  }

  lemma PrecedesHead(x: nat, t: seq<nat>, u: nat, v: nat)
    requires Distinct([x] + t)
    ensures Precedes([x] + t, u, v) <==> (u == x && v in t) || Precedes(t, u, v)
  {
    var s := [x] + t;
    if u == x && v in t {
      var b :| 0 <= b < |t| && t[b] == v;
      assert s[0] == u && s[b + 1] == v;
    }
    if Precedes(t, u, v) {
      var a, b :| 0 <= a < b < |t| && t[a] == u && t[b] == v;
      assert s[a + 1] == u && s[b + 1] == v;
    }
    if Precedes(s, u, v) {
      var a, b :| 0 <= a < b < |s| && s[a] == u && s[b] == v;
      assert v == t[b - 1];
      assert a == 0 || t[a - 1] == u;
    }
  }

  /** u is to be popped before v: a better level, or the same one (or none counts) and pushed earlier. */
  ghost predicate ComesFirst(levels: seq<nat>, queue: seq<nat>, mlfq: bool, u: nat, v: nat) {
    if mlfq && u < |levels| && v < |levels| && levels[u] != levels[v] then levels[u] < levels[v] else Precedes(queue, u, v)
  }

  /**
   The queue is first in, first out, within a level if levels count: emptying it yields exactly its
   entries, one before another if and only if it is to come first.
   */
  lemma {:induction false} PopOrderIsStable(levels: seq<nat>, queue: seq<nat>, mlfq: bool)
    requires Distinct(queue) && Below(queue, |levels|)
    ensures var r := PopOrder(levels, queue, mlfq);
            && Distinct(r) && (forall e :: e in r <==> e in queue)
            && (forall u, v :: u in queue && v in queue && u != v ==>
                  (Precedes(r, u, v) <==> ComesFirst(levels, queue, mlfq, u, v)))
    decreases |queue|
  {
    if queue != [] {
      var p := Front(levels, queue, mlfq);
      var x, rest := queue[p], RemoveAt(queue, p);
      RemoveAtMembers(queue, p);
      forall k | 0 <= k < |rest|
        ensures rest[k] < |levels|
      {
        assert rest[k] in rest;
      }
      PopOrderIsStable(levels, rest, mlfq);
      var t := PopOrder(levels, rest, mlfq);
      HeadMembers(x, t);
      hide Front, PopOrder, Distinct, Precedes;
      forall u, v | u in queue && v in queue && u != v
        ensures Precedes([x] + t, u, v) <==> ComesFirst(levels, queue, mlfq, u, v)
      {
        PrecedesHead(x, t, u, v);
        if u != x && v != x {
          PrecedesRest(queue, p, u, v);
        } else {
          FrontLeads(levels, queue, mlfq, u, v);
          AbsentPrecedesNothing(t, u, v);
        }
      }
    }
  }

  lemma HeadMembers(x: nat, t: seq<nat>)
    requires Distinct(t) && x !in t
    ensures Distinct([x] + t) && forall e :: e in [x] + t <==> e == x || e in t
  {
    var r := [x] + t;
    forall a, b | 0 <= a < b < |r|
      ensures r[a] != r[b]
    {
      assert r[b] == t[b - 1] && r[b] in t;
    }
  }

  lemma AbsentPrecedesNothing(t: seq<nat>, u: nat, v: nat)
    ensures u !in t || v !in t ==> !Precedes(t, u, v)
  {
  }

  /** Compared with the entry taken, every other one is later or less urgent. */
  lemma FrontLeads(levels: seq<nat>, queue: seq<nat>, mlfq: bool, u: nat, v: nat)
    requires queue != [] && Distinct(queue) && Below(queue, |levels|) && u in queue && v in queue && u != v
    requires u == queue[Front(levels, queue, mlfq)] || v == queue[Front(levels, queue, mlfq)]
    ensures ComesFirst(levels, queue, mlfq, u, v) <==> u == queue[Front(levels, queue, mlfq)]
  {
    var p := Front(levels, queue, mlfq);
    var a :| 0 <= a < |queue| && queue[a] == u;
    var b :| 0 <= b < |queue| && queue[b] == v;
    if a < b {
      assert Precedes(queue, u, v);
    }
  }
}
