/** Standard guitar tuning: open-string notes, fretted notes and the inverse search. */
module Tuning {
  import opened Int32

  const HighestFret: int := 22

  /** The MIDI note of an open string, 6 (low E) to 1 (high E); other indices fall back to E2. */
  function OpenNote(stringNumber: int): (r: int)
    ensures 40 <= r <= 64
    ensures !(1 <= stringNumber <= 6) ==> r == 40
  {
    match stringNumber
    case 6 => 40
    case 5 => 45
    case 4 => 50
    case 3 => 55
    case 2 => 59
    case 1 => 64
    case _ => 40
  }

  /** The MIDI note sounded at a fret, computed in C# `int` arithmetic. */
  function MidiNote(stringNumber: int, fretNumber: int): (r: int)
    requires IsInt32(fretNumber)
    ensures IsInt32(r)
    ensures fretNumber <= IntMax - 64 ==> r == OpenNote(stringNumber) + fretNumber
  {
    Wrap(OpenNote(stringNumber) + fretNumber)
  }

  /** Lower-numbered strings are tuned higher, and neighbouring strings are at most
      five semitones apart, so the fret ranges 0..22 of the six strings overlap. */
  lemma OpenNotesDescend(s: int, t: int)
    requires 1 <= s < t <= 6
    ensures OpenNote(t) < OpenNote(s)
    ensures t == s + 1 ==> OpenNote(s) - OpenNote(t) <= 5
  {
  }

  /** A string index within the six strings. */
  predicate IsString(s: int) { 1 <= s <= 6 }

  /** The note can be fretted on string `s` within frets 0..22. */
  predicate FitsOn(note: int, s: int) {
    0 <= note - OpenNote(s) <= HighestFret
  }

  /** The result of the search: a position, or (-1, -1) when no string fits. */
  datatype Position = Position(stringNumber: int, fretNumber: int)
  const NotFound := Position(-1, -1)

  /** Reference definition of the search over strings `s`, `s - 1`, ..., 1. */
  function BestFrom(note: int, s: int): Position
    decreases s
  {
    if s < 1 then NotFound
    else if FitsOn(note, s) then Position(s, note - OpenNote(s))
    else BestFrom(note, s - 1)
  }

  /** The position the players use for a MIDI note: the lowest-pitched string it fits on. */
  function BestPosition(note: int): Position {
    BestFrom(note, 6)
  }

  lemma {:induction false} BestFromSound(note: int, s: int)
    requires s <= 6
    ensures var p := BestFrom(note, s);
      p != NotFound ==>
        1 <= p.stringNumber <= s && FitsOn(note, p.stringNumber)
        && p.fretNumber == note - OpenNote(p.stringNumber)
        && forall t :: p.stringNumber < t <= s ==> !FitsOn(note, t)
    ensures BestFrom(note, s) == NotFound <==> forall t :: 1 <= t <= s ==> !FitsOn(note, t)
    decreases s
  {
    if s >= 1 && !FitsOn(note, s) {
      BestFromSound(note, s - 1);
    }
  }

  /** A found position is on a real string, within frets 0..22, and sounds the note. */
  lemma BestPositionSound(note: int)
    ensures var p := BestPosition(note);
      p != NotFound ==>
        IsString(p.stringNumber) && 0 <= p.fretNumber <= HighestFret
        && OpenNote(p.stringNumber) + p.fretNumber == note
  {
    BestFromSound(note, 6);
  }

  /** The search prefers the highest-numbered (lowest-pitched) string the note fits on. */
  lemma BestPositionHighestString(note: int, t: int)
    requires BestPosition(note) != NotFound
    requires BestPosition(note).stringNumber < t <= 6
    ensures !FitsOn(note, t)
  {
    BestFromSound(note, 6);
  }

  /** The search fails exactly for the notes below E2 (40) or above D6 (86). */
  lemma BestPositionFails(note: int)
    ensures BestPosition(note) == NotFound <==> note < 40 || note > 86
  {
    BestFromSound(note, 6);
    if 40 <= note <= 86 {
      var s := if note <= 62 then 6 else if note <= 67 then 5 else if note <= 72 then 4
               else if note <= 77 then 3 else if note <= 81 then 2 else 1;
      assert FitsOn(note, s);
    } else {
      forall t | 1 <= t <= 6 ensures !FitsOn(note, t) {
      }
    }
  }

  /** Round trip: the position found for the note of any fretted position sounds that note,
      on the same string or a lower-pitched one. */
  lemma PositionOfFrettedNote(s: int, f: int)
    requires IsString(s) && 0 <= f <= HighestFret
    ensures var p := BestPosition(MidiNote(s, f));
      p != NotFound && p.stringNumber >= s
      && MidiNote(p.stringNumber, p.fretNumber) == MidiNote(s, f)
  {
    var note := MidiNote(s, f);
    assert FitsOn(note, s);
    BestFromSound(note, 6);
    BestPositionSound(note);
    if BestPosition(note).stringNumber < s {
      BestPositionHighestString(note, s);
    }
  }

  /** For a C# `int` note, a wrapped difference `note - open` in 0..22 is the exact
      difference, so the wrap-around never changes which frets fit. */
  lemma WrappedFret(note: int, s: int)
    requires IsInt32(note)
    ensures 0 <= Wrap(note - OpenNote(s)) <= HighestFret ==> Wrap(note - OpenNote(s)) == note - OpenNote(s)
    ensures FitsOn(note, s) ==> Wrap(note - OpenNote(s)) == note - OpenNote(s)
  {
  }

  /** FindBestStringAndFret from both the sound system and the MIDI player: the strings are
      tried from 6 down to 1 and the first that holds the note within frets 0..22 is chosen. */
  method FindBestStringAndFret(targetMidiNote: int) returns (r: Position)
    requires IsInt32(targetMidiNote)
    ensures r == BestPosition(targetMidiNote)
  {
    var stringNum := 6;
    while stringNum >= 1
      invariant 0 <= stringNum <= 6
      invariant BestFrom(targetMidiNote, stringNum) == BestPosition(targetMidiNote)
      decreases stringNum
    {
      var openNote := OpenNote(stringNum);
      var fret := Wrap(targetMidiNote - openNote);
      WrappedFret(targetMidiNote, stringNum);
      if fret >= 0 && fret <= HighestFret {
        return Position(stringNum, fret);
      }
      stringNum := stringNum - 1;
    }
    return NotFound;
  }
}
