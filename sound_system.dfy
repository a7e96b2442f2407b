/** The guitar sound system: plays a (string, fret) with a sample the bank chooses for that
    position, pitch-shifted by the fret offset, and keeps the table of sounding notes. */
module SoundSystem {
  import opened Audio
  import opened Int32
  import opened NoteTable
  import opened SourcePool

  /** What the bank's string-and-fret lookup answers: the clip (None for null), whether it
      was recorded at the requested fret, and the fret it was recorded at. */
  datatype Resolution = Resolution(clip: Option<Clip>, isExactMatch: bool, baseFret: CsInt)

  /** How a PlayNote call ended. `NoSource` stands for the exception GetSource raises on
      an empty pool, which ends the call after the retrigger stop. */
  datatype PlayOutcome = NoClip | NoSource | Played(source: SourceId)

  /** The pitch shift in semitones: none for an exact sample, else the fret difference
      (a C# `int` subtraction; the ratio 2^(n/12) applied to it is left to the engine). */
  function PitchShift(r: Resolution, fretNumber: int): (shift: int)
    requires IsInt32(fretNumber)
    ensures IsInt32(shift)
    ensures r.isExactMatch ==> shift == 0
    ensures !r.isExactMatch && IsInt32(fretNumber - r.baseFret) ==> r.baseFret + shift == fretNumber
  {
    if r.isExactMatch then 0 else Wrap(fretNumber - r.baseFret)
  }

  /** A shifted sample sounds the requested fret: the recorded fret plus the shift is the
      fret asked for, whenever both are fret numbers (non-negative C# ints). */
  lemma PitchShiftReachesFret(clip: Option<Clip>, baseFret: CsInt, fretNumber: int)
    requires 0 <= baseFret && 0 <= fretNumber <= IntMax
    ensures baseFret + PitchShift(Resolution(clip, false, baseFret), fretNumber) == fretNumber
    ensures PitchShift(Resolution(clip, true, baseFret), fretNumber) == 0
  {
    assert IsInt32(baseFret);
    assert IsInt32(fretNumber - baseFret);
    WrapFits(fretNumber - baseFret);
  }

  /** The shift depends on the two frets only through their difference. */
  lemma PitchShiftByOffset(clip: Option<Clip>, b1: CsInt, f1: int, b2: CsInt, f2: int)
    requires IsInt32(f1) && IsInt32(f2) && f1 - b1 == f2 - b2
    ensures PitchShift(Resolution(clip, false, b1), f1) == PitchShift(Resolution(clip, false, b2), f2)
  {
  }

  class GuitarSoundSystem {
    var currentPickup: Pickup
    /** The sounding notes: which source plays each (string, fret). */
    var activeNotes: map<NoteKey, SourceId>
    /** What has been sent to the playback layer so far. */
    var log: seq<SoundAction>
    /** The pool found at start-up. */
    const audioPool: AudioSourcePool

    /** Every sounding note is played by a source of the pool. */
    ghost predicate Valid()
      reads this, audioPool
    {
      forall k :: k in activeNotes ==> activeNotes[k] in audioPool.queue
    }

    constructor (pool: AudioSourcePool)
      ensures Valid()
      ensures audioPool == pool && currentPickup == Neck
      ensures activeNotes == map[] && log == []
    {
      audioPool := pool;
      currentPickup := Neck;
      activeNotes := map[];
      log := [];
    }

    /** Stop the note at (string, fret) if it is sounding: at once (handing its source back to
        the pool) or with a fade-out; the key leaves the table. Other notes are untouched. */
    method StopNote(stringNumber: int, fretNumber: int, immediate: bool)
      requires Valid()
      modifies this
      ensures Valid()
      ensures activeNotes == old(activeNotes) - {NoteKey(stringNumber, fretNumber)}
      ensures log == old(log) + StopEffect(old(activeNotes), NoteKey(stringNumber, fretNumber), immediate, true)
      ensures currentPickup == old(currentPickup)
    {
      var noteKey := NoteKey(stringNumber, fretNumber);
      if noteKey in activeNotes {
        var source := activeNotes[noteKey];
        if immediate {
          log := log + [Stop(source), ReturnToPool(source)];
        } else {
          log := log + [FadeOut(source)];
        }
        activeNotes := activeNotes - {noteKey};
      }
    }

    /** Retrigger the note at (string, fret): fade out what plays there, look up a sample with
        `resolve` (the bank's string-and-fret lookup) for the current pickup, and play it on
        the next pooled source with the pitch shift. */
    method PlayNote(stringNumber: int, fretNumber: int, resolve: (int, int, Pickup) -> Resolution)
      returns (outcome: PlayOutcome)
      requires IsInt32(fretNumber)
      requires Valid()
      modifies this, audioPool
      ensures Valid()
      ensures currentPickup == old(currentPickup)
      ensures var r := resolve(stringNumber, fretNumber, currentPickup);
        var key := NoteKey(stringNumber, fretNumber);
        var stopped := old(log) + StopEffect(old(activeNotes), key, false, true);
        if r.clip.None? || old(audioPool.queue) == [] then
          outcome == (if r.clip.None? then NoClip else NoSource)
          && activeNotes == old(activeNotes) - {key}
          && log == stopped
          && audioPool.queue == old(audioPool.queue) && audioPool.active == old(audioPool.active)
        else
          var source := old(audioPool.queue)[0];
          outcome == Played(source)
          && activeNotes == old(activeNotes)[key := source]
          && log == stopped + [Play(source, r.clip.value, PitchShift(r, fretNumber), false)]
          && audioPool.queue == Rotate(old(audioPool.queue))
          && audioPool.active == old(audioPool.active) + {source}
    {
      StopNote(stringNumber, fretNumber, false);
      var r := resolve(stringNumber, fretNumber, currentPickup);
      if r.clip.None? {
        return NoClip;
      }
      if audioPool.queue == [] {
        return NoSource;
      }
      var source := audioPool.GetSource();
      RotateKeepsSources(old(audioPool.queue));
      var semitones := PitchShift(r, fretNumber);
      log := log + [Play(source, r.clip.value, semitones, false)];
      activeNotes := activeNotes[NoteKey(stringNumber, fretNumber) := source];
      outcome := Played(source);
    }

    /** Stop every sounding note, walking a copy of the table; the table ends empty and each
        voice that was sounding is released once, in the copy's enumeration order. */
    method StopAllNotes(immediate: bool) returns (ghost order: seq<NoteKey>)
      requires Valid()
      modifies this
      ensures Valid()
      ensures activeNotes == map[]
      ensures Enumerates(order, old(activeNotes).Keys)
      ensures log == old(log) + ReleaseAll(old(activeNotes), order, immediate, true)
      ensures currentPickup == old(currentPickup)
    {
      var snapshot := activeNotes;
      order := [];
      ghost var released: seq<SoundAction> := [];
      while activeNotes != map[]
        invariant Valid()
        invariant currentPickup == old(currentPickup)
        invariant Releasing(snapshot, activeNotes, order, released, immediate, true)
        invariant log == old(log) + released
        decreases |activeNotes.Keys|
      {
        var k :| k in activeNotes;
        ReleasingStep(snapshot, activeNotes, order, released, immediate, true, k);
        ghost var effect := StopEffect(activeNotes, k, immediate, true);
        ghost var before := activeNotes.Keys;
        StopNote(k.stringNumber, k.fretNumber, immediate);
        assert activeNotes.Keys == before - {k};
        AppendAssociative(old(log), released, effect);
        released := released + effect;
        order := order + [k];
      }
      ReleasingDone(snapshot, order, released, immediate, true);
      assert activeNotes == map[];
    }

    /** OnDisable: stop every note at once. */
    method OnDisable() returns (ghost order: seq<NoteKey>)
      requires Valid()
      modifies this
      ensures Valid()
      ensures activeNotes == map[]
      ensures Enumerates(order, old(activeNotes).Keys)
      ensures log == old(log) + ReleaseAll(old(activeNotes), order, true, true)
      ensures currentPickup == old(currentPickup)
    {
      order := StopAllNotes(true);
    }
  }
}
