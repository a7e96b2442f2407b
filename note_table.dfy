/** What the two active-note tables share: the actions that releasing a voice sends, and
    releasing every entry of a snapshot of the table, one key after another. */
module NoteTable {
  import opened Audio

  /** The actions StopNote sends for one voice: an immediate stop (followed by handing the
      source back to the pool where the component does that), or the start of a fade-out. */
  function Release(source: SourceId, immediate: bool, returnsToPool: bool): (r: seq<SoundAction>)
    ensures |r| >= 1
    ensures forall j :: 0 <= j < |r| ==> r[j].source == source
    ensures immediate <==> r[0] == Stop(source)
    ensures ReturnToPool(source) in r <==> immediate && returnsToPool
  {
    if !immediate then [FadeOut(source)]
    else if returnsToPool then [Stop(source), ReturnToPool(source)]
    else [Stop(source)]
  }

  /** The actions of StopNote on `key`: a release of its voice when it is playing, else none. */
  function StopEffect(active: map<NoteKey, SourceId>, key: NoteKey, immediate: bool, returnsToPool: bool): seq<SoundAction>
  {
    if key in active then Release(active[key], immediate, returnsToPool) else []
  }

  ghost predicate NoDuplicates(order: seq<NoteKey>) {
    forall i, j :: 0 <= i < j < |order| ==> order[i] != order[j]
  }

  /** `order` lists each key of `keys` exactly once. */
  ghost predicate Enumerates(order: seq<NoteKey>, keys: set<NoteKey>) {
    NoDuplicates(order) && (forall k :: k in order <==> k in keys)
  }

  /** Appending a key not yet listed keeps the list free of duplicates. */
  lemma NoDuplicatesSnoc(order: seq<NoteKey>, k: NoteKey)
    requires NoDuplicates(order) && k !in order
    ensures NoDuplicates(order + [k])
  {
    var o := order + [k];
    forall i, j | 0 <= i < j < |o| ensures o[i] != o[j] {
      if j == |order| {
        assert o[i] == order[i];
      } else {
        assert o[i] == order[i] && o[j] == order[j];
      }
    }
  }

  /** The actions of releasing the voices of the keys of `order`, in that order. */
  function ReleaseAll(active: map<NoteKey, SourceId>, order: seq<NoteKey>, immediate: bool, returnsToPool: bool): seq<SoundAction>
    requires forall k :: k in order ==> k in active
  {
    if order == [] then []
    else ReleaseAll(active, order[..|order| - 1], immediate, returnsToPool)
         + Release(active[order[|order| - 1]], immediate, returnsToPool)
  }

  /** Releasing all voices touches no source but those of the listed keys. */
  lemma {:induction false} ReleaseAllTouchesOnlyListed(active: map<NoteKey, SourceId>, order: seq<NoteKey>, immediate: bool, returnsToPool: bool)
    requires forall k :: k in order ==> k in active
    ensures forall a :: a in ReleaseAll(active, order, immediate, returnsToPool) ==>
      exists k :: k in order && a.source == active[k]
    decreases |order|
  {
    if order != [] {
      var init := order[..|order| - 1];
      var last := order[|order| - 1];
      assert forall k :: k in init ==> k in order;
      ReleaseAllTouchesOnlyListed(active, init, immediate, returnsToPool);
      var before := ReleaseAll(active, init, immediate, returnsToPool);
      var tail := Release(active[last], immediate, returnsToPool);
      assert ReleaseAll(active, order, immediate, returnsToPool) == before + tail;
      forall a: SoundAction | a in before + tail
        ensures exists k :: k in order && a.source == active[k]
      {
        if a in before {
          var k :| k in init && a.source == active[k];
          assert k in order;
        } else {
          assert a.source == active[last];
        }
      }
    }
  }

  /** Releasing all voices releases every listed voice. */
  lemma {:induction false} ReleaseAllReleasesEach(active: map<NoteKey, SourceId>, order: seq<NoteKey>, immediate: bool, returnsToPool: bool)
    requires forall k :: k in order ==> k in active
    ensures forall k :: k in order ==>
      Release(active[k], immediate, returnsToPool)[0] in ReleaseAll(active, order, immediate, returnsToPool)
    decreases |order|
  {
    if order != [] {
      var init := order[..|order| - 1];
      var last := order[|order| - 1];
      assert forall k :: k in init ==> k in order;
      ReleaseAllReleasesEach(active, init, immediate, returnsToPool);
      var before := ReleaseAll(active, init, immediate, returnsToPool);
      var tail := Release(active[last], immediate, returnsToPool);
      assert ReleaseAll(active, order, immediate, returnsToPool) == before + tail;
      forall k | k in order
        ensures Release(active[k], immediate, returnsToPool)[0] in before + tail
      {
        if k != last {
          assert k in init by {
            var i :| 0 <= i < |order| && order[i] == k;
            assert i < |order| - 1;
            assert init[i] == k;
          }
        }
      }
    }
  }

  /** Appending a key releases its voice after the others. */
  lemma ReleaseAllSnoc(active: map<NoteKey, SourceId>, order: seq<NoteKey>, k: NoteKey, immediate: bool, returnsToPool: bool)
    requires forall j :: j in order ==> j in active
    requires k in active
    ensures ReleaseAll(active, order + [k], immediate, returnsToPool)
      == ReleaseAll(active, order, immediate, returnsToPool) + Release(active[k], immediate, returnsToPool)
  {
    assert (order + [k])[..|order + [k]| - 1] == order;
  }

  /** The number of actions: one per fading voice, one or two per stopped voice. */
  lemma {:induction false} ReleaseAllLength(active: map<NoteKey, SourceId>, order: seq<NoteKey>, immediate: bool, returnsToPool: bool)
    requires forall k :: k in order ==> k in active
    ensures |ReleaseAll(active, order, immediate, returnsToPool)|
      == |order| * (if immediate && returnsToPool then 2 else 1)
    decreases |order|
  {
    if order != [] {
      var init := order[..|order| - 1];
      assert forall k :: k in init ==> k in order;
      ReleaseAllLength(active, init, immediate, returnsToPool);
    }
  }

  lemma AppendAssociative(a: seq<SoundAction>, b: seq<SoundAction>, c: seq<SoundAction>)
    ensures (a + b) + c == a + (b + c)
  {
  }

  /** Part way through releasing a snapshot: the keys left are still mapped as in the
      snapshot, `order` lists the keys already released, once each, and `released` is what
      their releases sent. */
  ghost predicate Releasing(snapshot: map<NoteKey, SourceId>, left: map<NoteKey, SourceId>, order: seq<NoteKey>,
                            released: seq<SoundAction>, immediate: bool, returnsToPool: bool)
  {
    (forall k :: k in left ==> k in snapshot && left[k] == snapshot[k])
    && NoDuplicates(order)
    && (forall k :: k in order <==> k in snapshot && k !in left)
    && released == ReleaseAll(snapshot, order, immediate, returnsToPool)
  }

  /** Releasing one more key, as StopNote does, keeps the bookkeeping. */
  lemma ReleasingStep(snapshot: map<NoteKey, SourceId>, left: map<NoteKey, SourceId>, order: seq<NoteKey>,
                      released: seq<SoundAction>, immediate: bool, returnsToPool: bool, k: NoteKey)
    requires Releasing(snapshot, left, order, released, immediate, returnsToPool)
    requires k in left
    ensures Releasing(snapshot, left - {k}, order + [k],
                      released + StopEffect(left, k, immediate, returnsToPool), immediate, returnsToPool)
  {
    ReleaseAllSnoc(snapshot, order, k, immediate, returnsToPool);
    NoDuplicatesSnoc(order, k);
  }

  /** Once nothing is left, every key of the snapshot has been released once. */
  lemma ReleasingDone(snapshot: map<NoteKey, SourceId>, order: seq<NoteKey>,
                      released: seq<SoundAction>, immediate: bool, returnsToPool: bool)
    requires Releasing(snapshot, map[], order, released, immediate, returnsToPool)
    ensures Enumerates(order, snapshot.Keys)
    ensures released == ReleaseAll(snapshot, order, immediate, returnsToPool)
  {
  }
}
