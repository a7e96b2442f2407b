/** One guitar string on screen: a press counter per fret, the segment materials that show
    which frets are held, and the calls into the sound system that sound them. */
module StringVisual {
  import opened Audio
  import opened Int32
  import opened NoteTable
  import opened SoundSystem
  import opened SourcePool

  /** How often a fret is held; an absent key counts as zero. */
  function Count(c: map<int, int>, fret: int): int {
    if fret in c then c[fret] else 0
  }

  /** The counters after one press of `fret`. */
  function Pressed(c: map<int, int>, fret: int): map<int, int> {
    c[fret := Count(c, fret) + 1]
  }

  /** The counters after one release of `fret`: a held fret is counted down and dropped once
      its count is used up; an unheld fret is left alone. */
  function Released(c: map<int, int>, fret: int): map<int, int> {
    if fret in c then
      if c[fret] - 1 <= 0 then c - {fret} else c[fret := c[fret] - 1]
    else c
  }

  /** The table only holds frets that are pressed at least once. */
  ghost predicate AllPositive(c: map<int, int>) {
    forall f :: f in c ==> c[f] >= 1
  }

  /** A press adds one to the pressed fret, counting an absent fret as zero, and leaves the
      others alone; held frets stay positive. */
  lemma PressedCounts(c: map<int, int>, fret: int)
    ensures Count(Pressed(c, fret), fret) == Count(c, fret) + 1
    ensures forall g :: g != fret ==> Count(Pressed(c, fret), g) == Count(c, g)
    ensures AllPositive(c) ==> AllPositive(Pressed(c, fret))
  {
  }

  /** A release takes one from a held fret, dropping it when that was its last press; an
      unheld fret and all other frets keep their counts; held frets stay positive. */
  lemma ReleasedCounts(c: map<int, int>, fret: int)
    requires AllPositive(c)
    ensures Count(Released(c, fret), fret) == if fret in c then c[fret] - 1 else 0
    ensures fret in Released(c, fret) <==> Count(c, fret) >= 2
    ensures forall g :: g != fret ==> Count(Released(c, fret), g) == Count(c, g)
    ensures AllPositive(Released(c, fret))
  {
  }

  /** A release undoes a press. */
  lemma ReleaseUndoesPress(c: map<int, int>, fret: int)
    requires AllPositive(c)
    ensures Released(Pressed(c, fret), fret) == c
  {
    if fret in c {
      assert Pressed(c, fret)[fret := c[fret]] == c;
    } else {
      assert Pressed(c, fret) - {fret} == c;
    }
  }

  function PressTimes(c: map<int, int>, fret: int, k: nat): map<int, int>
    decreases k
  {
    if k == 0 then c else Pressed(PressTimes(c, fret, k - 1), fret)
  }

  function ReleaseTimes(c: map<int, int>, fret: int, k: nat): map<int, int>
    decreases k
  {
    if k == 0 then c else ReleaseTimes(Released(c, fret), fret, k - 1)
  }

  lemma {:induction false} PressTimesPositive(c: map<int, int>, fret: int, k: nat)
    requires AllPositive(c)
    ensures AllPositive(PressTimes(c, fret, k))
    decreases k
  {
    if k > 0 {
      PressTimesPositive(c, fret, k - 1);
      PressedCounts(PressTimes(c, fret, k - 1), fret);
    }
  }

  /** k presses of a fret followed by k releases of it leave every counter as it was; in
      particular a fret that was not held is absent again. */
  lemma {:induction false} PressesThenReleases(c: map<int, int>, fret: int, k: nat)
    requires AllPositive(c)
    ensures ReleaseTimes(PressTimes(c, fret, k), fret, k) == c
    decreases k
  {
    if k > 0 {
      var before := PressTimes(c, fret, k - 1);
      PressTimesPositive(c, fret, k - 1);
      ReleaseUndoesPress(before, fret);
      PressesThenReleases(c, fret, k - 1);
    }
  }

  /** currentHighlightedFret after UpdateAllSegmentMaterials has walked segments
      0 .. n - 1, starting from `current`. */
  function ScanHighlight(c: map<int, int>, n: nat, current: int): int
    decreases n
  {
    if n == 0 then current
    else
      var before := ScanHighlight(c, n - 1, current);
      if n - 1 in c then n - 1
      else if before == n - 1 then -1
      else before
  }

  /** After the walk the marker is the last held segment, or, when no segment is held, -1 if
      it pointed at a segment and unchanged otherwise. */
  lemma {:induction false} ScanHighlightMeaning(c: map<int, int>, n: nat, current: int)
    ensures var r := ScanHighlight(c, n, current);
      0 <= r < n ==> r in c && forall j :: r < j < n ==> j !in c
    ensures (exists j :: 0 <= j < n && j in c) ==> 0 <= ScanHighlight(c, n, current) < n
    ensures (forall j :: 0 <= j < n ==> j !in c) ==>
      ScanHighlight(c, n, current) == if 0 <= current < n then -1 else current
    decreases n
  {
    if n > 0 {
      ScanHighlightMeaning(c, n - 1, current);
      if exists j :: 0 <= j < n && j in c {
        if n - 1 !in c {
          var j :| 0 <= j < n && j in c;
          assert j < n - 1;
        }
      }
    }
  }

  class GuitarStringVisual {
    const stringNumber: int
    const numberOfFrets: CsInt
    /** GuitarSoundSystem.Instance. */
    const sound: GuitarSoundSystem
    /** One entry per string segment: true when it shows the highlight material. */
    const highlighted: array<bool>
    var currentHighlightedFret: int
    /** fret -> how many presses of it are held. */
    var activeNotes: map<int, int>

    ghost predicate Valid()
      reads this, sound, sound.audioPool
    {
      AllPositive(activeNotes) && sound.Valid()
    }

    /** Start: one segment per fret 0..numberOfFrets, all in the plain material, when both
        end points are set; none otherwise. */
    constructor (number: int, frets: CsInt, pointsSet: bool, soundSystem: GuitarSoundSystem)
      requires soundSystem.Valid()
      ensures Valid()
      ensures stringNumber == number && numberOfFrets == frets && sound == soundSystem
      ensures highlighted.Length == if pointsSet && frets >= 0 then frets + 1 else 0
      ensures forall i :: 0 <= i < highlighted.Length ==> !highlighted[i]
      ensures activeNotes == map[] && currentHighlightedFret == -1
      ensures fresh(highlighted)
    {
      stringNumber := number;
      numberOfFrets := frets;
      sound := soundSystem;
      highlighted := new bool[if pointsSet && frets >= 0 then frets + 1 else 0](_ => false);
      currentHighlightedFret := -1;
      activeNotes := map[];
    }

    /** Press `fret`: count it, play it on the sound system (which looks the sample up with
        `resolve`) and highlight its segment. Frets outside 0..numberOfFrets are ignored. */
    method PlayNoteWithVisuals(fret: int, resolve: (int, int, Pickup) -> Resolution) returns (outcome: Option<PlayOutcome>)
      requires Valid()
      modifies this, highlighted, sound, sound.audioPool
      ensures Valid()
      ensures !(0 <= fret <= numberOfFrets) ==>
        outcome.None? && activeNotes == old(activeNotes)
        && currentHighlightedFret == old(currentHighlightedFret) && highlighted[..] == old(highlighted[..])
        && unchanged(sound, sound.audioPool)
      ensures 0 <= fret <= numberOfFrets ==>
        activeNotes == Pressed(old(activeNotes), fret)
        && outcome.Some?
        && (NoteKey(stringNumber, fret) in sound.activeNotes <==> outcome.value.Played?)
        && sound.currentPickup == old(sound.currentPickup)
        && (var r := resolve(stringNumber, fret, sound.currentPickup);
            var key := NoteKey(stringNumber, fret);
            var stopped := old(sound.log) + StopEffect(old(sound.activeNotes), key, false, true);
            if r.clip.None? || old(sound.audioPool.queue) == [] then
              outcome.value == (if r.clip.None? then NoClip else NoSource)
              && sound.activeNotes == old(sound.activeNotes) - {key}
              && sound.log == stopped
              && sound.audioPool.queue == old(sound.audioPool.queue)
              && sound.audioPool.active == old(sound.audioPool.active)
            else
              var source := old(sound.audioPool.queue)[0];
              outcome.value == Played(source)
              && sound.activeNotes == old(sound.activeNotes)[key := source]
              && sound.log == stopped + [Play(source, r.clip.value, PitchShift(r, fret), false)]
              && sound.audioPool.queue == Rotate(old(sound.audioPool.queue))
              && sound.audioPool.active == old(sound.audioPool.active) + {source})
        && if fret < highlighted.Length then
             highlighted[..] == old(highlighted[..])[fret := true] && currentHighlightedFret == fret
           else
             highlighted[..] == old(highlighted[..]) && currentHighlightedFret == old(currentHighlightedFret)
    {
      if fret < 0 || fret > numberOfFrets {
        return None;
      }
      PressedCounts(activeNotes, fret);
      activeNotes := Pressed(activeNotes, fret);
      var played := sound.PlayNote(stringNumber, fret, resolve);
      outcome := Some(played);
      if fret < highlighted.Length {
        highlighted[fret] := true;
        currentHighlightedFret := fret;
      }
    }

    /** Release `fret`: count it down, repaint every segment when its last press is released,
        and fade out its note on the sound system. Frets outside 0..numberOfFrets are ignored. */
    method StopNoteWithVisuals(fret: int)
      requires Valid()
      modifies this, highlighted, sound
      ensures Valid()
      ensures !(0 <= fret <= numberOfFrets) ==>
        activeNotes == old(activeNotes)
        && currentHighlightedFret == old(currentHighlightedFret) && highlighted[..] == old(highlighted[..])
        && unchanged(sound)
      ensures 0 <= fret <= numberOfFrets ==>
        activeNotes == Released(old(activeNotes), fret)
        && sound.activeNotes == old(sound.activeNotes) - {NoteKey(stringNumber, fret)}
        && sound.log == old(sound.log) + StopEffect(old(sound.activeNotes), NoteKey(stringNumber, fret), false, true)
        && sound.currentPickup == old(sound.currentPickup)
        && if fret in old(activeNotes) && fret !in activeNotes then
             (forall i :: 0 <= i < highlighted.Length ==> (highlighted[i] <==> i in activeNotes))
             && currentHighlightedFret == ScanHighlight(activeNotes, highlighted.Length, old(currentHighlightedFret))
           else
             highlighted[..] == old(highlighted[..]) && currentHighlightedFret == old(currentHighlightedFret)
    {
      if fret < 0 || fret > numberOfFrets {
        return;
      }
      ReleasedCounts(activeNotes, fret);
      if fret in activeNotes {
        var count := activeNotes[fret] - 1;
        if count <= 0 {
          activeNotes := activeNotes - {fret};
          UpdateAllSegmentMaterials();
        } else {
          activeNotes := activeNotes[fret := count];
        }
      }
      sound.StopNote(stringNumber, fret, false);
    }

    /** Repaint every segment: highlighted exactly when its fret is held; the marker follows
        the last held segment and is cleared when its own segment is not held. */
    method UpdateAllSegmentMaterials()
      modifies this, highlighted
      ensures forall i :: 0 <= i < highlighted.Length ==> (highlighted[i] <==> i in activeNotes)
      ensures currentHighlightedFret == ScanHighlight(activeNotes, highlighted.Length, old(currentHighlightedFret))
      ensures activeNotes == old(activeNotes)
    {
      for fret := 0 to highlighted.Length
        invariant activeNotes == old(activeNotes)
        invariant forall i :: 0 <= i < fret ==> (highlighted[i] <==> i in activeNotes)
        invariant currentHighlightedFret == ScanHighlight(activeNotes, fret, old(currentHighlightedFret))
      {
        if fret in activeNotes {
          highlighted[fret] := true;
          currentHighlightedFret := fret;
        } else {
          highlighted[fret] := false;
          if currentHighlightedFret == fret {
            currentHighlightedFret := -1;
          }
        }
      }
    }

    /** Forget every press and return every segment to the plain material. */
    method ResetAllMaterials()
      modifies this, highlighted
      ensures activeNotes == map[] && currentHighlightedFret == -1
      ensures forall i :: 0 <= i < highlighted.Length ==> !highlighted[i]
    {
      activeNotes := map[];
      currentHighlightedFret := -1;
      for i := 0 to highlighted.Length
        invariant activeNotes == map[] && currentHighlightedFret == -1
        invariant forall j :: 0 <= j < i ==> !highlighted[j]
      {
        highlighted[i] := false;
      }
    }
  }
}
