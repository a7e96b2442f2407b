/** The voice pool: a fixed set of audio sources handed out round-robin. */
module SourcePool {
  import opened Audio

  /** The queue after one GetSource: the head moves to the back. */
  function Rotate(q: seq<SourceId>): (r: seq<SourceId>)
    requires |q| > 0
    ensures |r| == |q|
  {
    q[1..] + [q[0]]
  }

  /** Rotating keeps the same sources in the queue, each as often as before. */
  lemma RotateKeepsSources(q: seq<SourceId>)
    requires |q| > 0
    ensures multiset(Rotate(q)) == multiset(q)
    ensures forall s :: s in Rotate(q) <==> s in q
  {
    assert q == [q[0]] + q[1..];
    forall s ensures s in Rotate(q) <==> s in q {
      assert s in Rotate(q) <==> s in multiset(Rotate(q));
    }
  }

  /** The queue after `k` GetSource calls. */
  function RotateTimes(q: seq<SourceId>, k: nat): (r: seq<SourceId>)
    requires |q| > 0
    ensures |r| == |q|
    decreases k
  {
    if k == 0 then q else RotateTimes(Rotate(q), k - 1)
  }

  /** The sources that `k` GetSource calls hand out, in order. */
  function Handed(q: seq<SourceId>, k: nat): seq<SourceId>
    requires |q| > 0
    decreases k
  {
    if k == 0 then [] else [q[0]] + Handed(Rotate(q), k - 1)
  }

  /** After k <= |q| calls the queue is rotated left by k and its first k sources were
      handed out in queue order. */
  lemma {:induction false} RotateTimesSplits(q: seq<SourceId>, k: nat)
    requires 0 < |q| && k <= |q|
    ensures RotateTimes(q, k) == q[k..] + q[..k]
    decreases k
  {
    if k > 0 {
      var r := q[1..] + [q[0]];
      assert r == Rotate(q);
      assert RotateTimes(q, k) == RotateTimes(r, k - 1);
      RotateTimesSplits(r, k - 1);
      var a := r[k - 1..];
      var b := r[..k - 1];
      assert a == q[k..] + [q[0]];
      assert b == q[1..k];
      assert [q[0]] + q[1..k] == q[..k];
    }
  }

  lemma {:induction false} HandedPrefix(q: seq<SourceId>, k: nat)
    requires 0 < |q| && k <= |q|
    ensures Handed(q, k) == q[..k]
    decreases k
  {
    if k > 0 {
      var r := Rotate(q);
      HandedPrefix(r, k - 1);
      assert r[..k - 1] == q[1..k];
      assert q[..k] == [q[0]] + q[1..k];
    }
  }

  /** A full cycle of |q| calls restores the queue and hands out every source once, in order. */
  lemma FullCycle(q: seq<SourceId>)
    requires |q| > 0
    ensures RotateTimes(q, |q|) == q
    ensures Handed(q, |q|) == q
  {
    RotateTimesSplits(q, |q|);
    HandedPrefix(q, |q|);
  }

  /** There is no exhaustion: call |q| + 1 hands out the first source again, whether or not
      it is still playing. */
  lemma NoExhaustion(q: seq<SourceId>)
    requires |q| > 0
    ensures |Handed(q, |q| + 1)| == |q| + 1
    ensures Handed(q, |q| + 1)[|q|] == q[0]
  {
    HandedAppend(q, |q|);
    FullCycle(q);
  }

  lemma {:induction false} HandedAppend(q: seq<SourceId>, k: nat)
    requires |q| > 0
    ensures Handed(q, k + 1) == Handed(q, k) + [RotateTimes(q, k)[0]]
    ensures |Handed(q, k)| == k
    decreases k
  {
    if k > 0 {
      HandedAppend(Rotate(q), k - 1);
    }
  }

  class AudioSourcePool {
    /** The pool queue, head first. */
    var queue: seq<SourceId>
    /** The sources whose game objects are active. */
    var active: set<SourceId>

    /** Awake: instantiate `poolSize` fresh, inactive sources and enqueue them. The sources
        get the identities firstId, firstId + 1, ...; a non-positive size leaves the pool empty. */
    constructor Awake(poolSize: int, firstId: SourceId)
      ensures |queue| == if poolSize > 0 then poolSize else 0
      ensures forall i :: 0 <= i < |queue| ==> queue[i] == firstId + i
      ensures active == {}
    {
      var pool: seq<SourceId> := [];
      var i := 0;
      while i < poolSize
        invariant 0 <= i <= if poolSize > 0 then poolSize else 0
        invariant |pool| == i
        invariant forall j :: 0 <= j < i ==> pool[j] == firstId + j
        decreases poolSize - i
      {
        var source: SourceId := firstId + i;
        pool := pool + [source];
        i := i + 1;
      }
      queue := pool;
      active := {};
    }

    /** Dequeue the head, activate it, enqueue it again and hand it out. An empty queue makes
        Dequeue throw, so callers must not call this on an empty pool. */
    method GetSource() returns (source: SourceId)
      requires |queue| > 0
      modifies this
      ensures source == old(queue)[0]
      ensures queue == Rotate(old(queue))
      ensures active == old(active) + {source}
    {
      source := queue[0];
      queue := queue[1..];
      active := active + {source};
      queue := queue + [source];
    }

    /** Stop every pooled source and deactivate it; the queue itself is left as it is. */
    method StopAllSources() returns (stopped: seq<SourceId>)
      modifies this
      ensures queue == old(queue)
      ensures active == old(active) - set s | s in old(queue)
      ensures stopped == old(queue)
    {
      stopped := [];
      for i := 0 to |queue|
        invariant queue == old(queue)
        invariant stopped == queue[..i]
        invariant active == old(active) - set s | s in queue[..i]
      {
        var source := queue[i];
        stopped := stopped + [source];
        active := active - {source};
        assert queue[..i + 1] == queue[..i] + [source];
      }
      assert queue[..|queue|] == queue;
    }
  }
}
