/** The simple MIDI player: every playable note of the file is handed to a timing coroutine
    that starts it on the sound engine after its start time and stops it after its length. */
module MidiPlayback {
  import opened Audio
  import opened Tuning
  import opened NoteTable
  import opened SoundEngine
  import opened Mathf

  /** A MIDI note number: seven bits. */
  type NoteNumber = n: int | 0 <= n <= 127

  /** A note of the MIDI file, its time and length already converted to seconds by the
      file's tempo map. */
  datatype FileNote = FileNote(noteNumber: NoteNumber, time: real, length: real)

  /** What one timing coroutine is started with: the position to play, the delay before
      StartNote and the time until StopNote. */
  datatype Scheduled = Scheduled(stringNumber: int, fretNumber: int, startTime: real, duration: real)

  /** The range the inspector and SetBPMMultiplier keep the tempo multiplier in. */
  const MinMultiplier: real := 0.1
  const MaxMultiplier: real := 2.0

  /** The coroutine a file note gets, at tempo multiplier `multiplier`: none when the
      position search finds no string. */
  function ScheduledFor(note: FileNote, multiplier: real): (r: Option<Scheduled>)
    requires multiplier != 0.0
    ensures r.Some? ==> OnFretboard(r.value) && OpenNote(r.value.stringNumber) + r.value.fretNumber == note.noteNumber
  {
    BestPositionSound(note.noteNumber);
    var p := BestPosition(note.noteNumber);
    if p.stringNumber != -1 then
      Some(Scheduled(p.stringNumber, p.fretNumber, note.time / multiplier, note.length / multiplier))
    else None
  }

  /** A note gets a coroutine exactly when it lies in E2..D6 (40..86); the coroutine plays a
      fretted position sounding that note, with the file's timing divided by the multiplier. */
  lemma ScheduledForSound(note: FileNote, multiplier: real)
    requires multiplier != 0.0
    ensures ScheduledFor(note, multiplier).Some? <==> 40 <= note.noteNumber <= 86
    ensures ScheduledFor(note, multiplier).Some? ==>
      var e := ScheduledFor(note, multiplier).value;
      IsString(e.stringNumber) && 0 <= e.fretNumber <= HighestFret
      && OpenNote(e.stringNumber) + e.fretNumber == note.noteNumber
      && e.startTime == note.time / multiplier && e.duration == note.length / multiplier
  {
    BestPositionFails(note.noteNumber);
    BestPositionSound(note.noteNumber);
  }

  /** A coroutine's position is on a string and within the fretboard. */
  predicate OnFretboard(e: Scheduled) {
    IsString(e.stringNumber) && 0 <= e.fretNumber <= HighestFret
  }

  /** The coroutines LoadAndPlayMidi starts for the notes, in file order: at most one per
      note, each on a string and within the fretboard. */
  function ScheduleOf(notes: seq<FileNote>, multiplier: real): (r: seq<Scheduled>)
    requires multiplier != 0.0
    ensures |r| <= |notes|
    ensures forall i :: 0 <= i < |r| ==> OnFretboard(r[i])
  {
    if notes == [] then []
    else
      var init := ScheduleOf(notes[..|notes| - 1], multiplier);
      match ScheduledFor(notes[|notes| - 1], multiplier)
      case Some(e) => init + [e]
      case None => init
  }

  /** How many notes of the file lie in the guitar's range E2..D6. */
  function PlayableCount(notes: seq<FileNote>): nat {
    if notes == [] then 0
    else PlayableCount(notes[..|notes| - 1]) + (if 40 <= notes[|notes| - 1].noteNumber <= 86 then 1 else 0)
  }

  /** One coroutine per note in the guitar's range, whatever the multiplier. */
  lemma {:induction false} ScheduleCount(notes: seq<FileNote>, multiplier: real)
    requires multiplier != 0.0
    ensures |ScheduleOf(notes, multiplier)| == PlayableCount(notes)
    decreases |notes|
  {
    if notes != [] {
      ScheduleCount(notes[..|notes| - 1], multiplier);
      ScheduledForSound(notes[|notes| - 1], multiplier);
    }
  }

  /** Scheduling one more note extends the schedule of the notes before it. */
  lemma ScheduleSnoc(notes: seq<FileNote>, i: nat, multiplier: real)
    requires i < |notes| && multiplier != 0.0
    ensures ScheduleOf(notes[..i + 1], multiplier)
      == ScheduleOf(notes[..i], multiplier) + (match ScheduledFor(notes[i], multiplier)
                                               case Some(e) => [e]
                                               case None => [])
  {
    assert notes[..i + 1][..i] == notes[..i];
  }

  class MidiPlayer {
    /** The notes of the file at midiFilePath. */
    const midiFile: seq<FileNote>
    /** GuitarSoundEngine.Instance; null when there is no engine. */
    const engine: GuitarSoundEngine?
    var bpmMultiplier: real
    var isPlaying: bool
    /** The timing coroutines started and not yet cleared. */
    var activeCoroutines: seq<Scheduled>

    /** The multiplier stays in the inspector's range and the engine in its own invariant. */
    ghost predicate Valid()
      reads this, engine, if engine != null then {engine.audioPool} else {}
    {
      MinMultiplier <= bpmMultiplier <= MaxMultiplier
      && (engine != null ==> engine.Valid())
    }

    constructor (notes: seq<FileNote>, soundEngine: GuitarSoundEngine?)
      requires soundEngine != null ==> soundEngine.Valid()
      ensures Valid()
      ensures midiFile == notes && engine == soundEngine
      ensures bpmMultiplier == 1.0 && !isPlaying && activeCoroutines == []
    {
      midiFile := notes;
      engine := soundEngine;
      bpmMultiplier := 1.0;
      isPlaying := false;
      activeCoroutines := [];
    }

    /** Stop playback: the coroutines are stopped and forgotten, and every note the engine
        still sounds is stopped at once. */
    method StopPlayback() returns (ghost order: seq<NoteKey>)
      requires Valid()
      modifies this, engine
      ensures Valid()
      ensures !isPlaying && activeCoroutines == [] && bpmMultiplier == old(bpmMultiplier)
      ensures engine != null ==>
        engine.activeNotes == map[] && engine.pickup == old(engine.pickup)
        && Enumerates(order, old(engine.activeNotes).Keys)
        && engine.log == old(engine.log) + ReleaseAll(old(engine.activeNotes), order, true, false)
    {
      isPlaying := false;
      activeCoroutines := [];
      order := [];
      if engine != null {
        order := engine.StopAllNotes(true);
      }
    }

    /** Load and play: stop a running playback, give up without an engine, else start a
        coroutine for every note of the file that has a position, in file order. */
    method LoadAndPlayMidi() returns (ghost order: seq<NoteKey>)
      requires Valid()
      modifies this, engine
      ensures Valid()
      ensures bpmMultiplier == old(bpmMultiplier)
      ensures var kept := if old(isPlaying) then [] else old(activeCoroutines);
        if engine == null then !isPlaying && activeCoroutines == kept
        else isPlaying && activeCoroutines == kept + ScheduleOf(midiFile, bpmMultiplier)
      ensures engine != null && old(isPlaying) ==>
        engine.activeNotes == map[] && engine.pickup == old(engine.pickup)
        && Enumerates(order, old(engine.activeNotes).Keys)
        && engine.log == old(engine.log) + ReleaseAll(old(engine.activeNotes), order, true, false)
      ensures engine != null && !old(isPlaying) ==>
        engine.activeNotes == old(engine.activeNotes) && engine.log == old(engine.log)
        && engine.pickup == old(engine.pickup)
    {
      order := [];
      if isPlaying {
        order := StopPlayback();
      }
      if engine == null {
        return;
      }
      isPlaying := true;
      StartCoroutines();
    }

    /** The loop of LoadAndPlayMidi: one coroutine per note that has a position, in file
        order, after those already started. */
    method StartCoroutines()
      requires bpmMultiplier != 0.0
      modifies this
      ensures bpmMultiplier == old(bpmMultiplier) && isPlaying == old(isPlaying)
      ensures activeCoroutines == old(activeCoroutines) + ScheduleOf(midiFile, bpmMultiplier)
    {
      for i := 0 to |midiFile|
        invariant bpmMultiplier == old(bpmMultiplier) && isPlaying == old(isPlaying)
        invariant activeCoroutines == old(activeCoroutines) + ScheduleOf(midiFile[..i], bpmMultiplier)
      {
        var note := midiFile[i];
        var noteStartTime := note.time / bpmMultiplier;
        var noteDuration := note.length / bpmMultiplier;
        var p := FindBestStringAndFret(note.noteNumber);
        ScheduleSnoc(midiFile, i, bpmMultiplier);
        if p.stringNumber != -1 {
          activeCoroutines := activeCoroutines + [Scheduled(p.stringNumber, p.fretNumber, noteStartTime, noteDuration)];
        }
      }
      assert midiFile[..|midiFile|] == midiFile;
    }

    /** Set the tempo multiplier, clamped to [0.1, 2], and restart a running playback at
        the new tempo. */
    method SetBPMMultiplier(multiplier: real) returns (ghost order: seq<NoteKey>)
      requires Valid()
      modifies this, engine
      ensures Valid()
      ensures bpmMultiplier == Clamp(multiplier, MinMultiplier, MaxMultiplier)
      ensures !old(isPlaying) ==>
        !isPlaying && activeCoroutines == old(activeCoroutines)
        && (engine != null ==> engine.activeNotes == old(engine.activeNotes) && engine.log == old(engine.log))
      ensures old(isPlaying) ==>
        isPlaying == (engine != null)
        && activeCoroutines == (if engine != null then ScheduleOf(midiFile, bpmMultiplier) else [])
      ensures old(isPlaying) && engine != null ==>
        engine.activeNotes == map[]
        && Enumerates(order, old(engine.activeNotes).Keys)
        && engine.log == old(engine.log) + ReleaseAll(old(engine.activeNotes), order, true, false)
      ensures engine != null ==> engine.pickup == old(engine.pickup)
    {
      bpmMultiplier := Clamp(multiplier, MinMultiplier, MaxMultiplier);
      order := [];
      if isPlaying {
        order := LoadAndPlayMidi();
      }
    }
  }
}
