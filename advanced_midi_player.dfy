/** The polyphonic MIDI player's note list: a note becomes an event while fewer than
    `maxConcurrentNotes` sound, finished events are cleared against the playback clock, and
    stopping playback releases every event. */
module PolyphonicPlayback {
  import opened Audio
  import opened Tuning

  /** A started note: its position and when it began and ends, in seconds of playback. */
  datatype NoteEvent = NoteEvent(stringNumber: int, fretNumber: int, startTime: real, endTime: real)

  /** The event list after StartNote for a note found at `p`, starting at `startTime` and
      lasting `duration`: appended when it has a string and the list is under the cap. */
  function AfterStart(active: seq<NoteEvent>, cap: int, p: Position, startTime: real, duration: real): seq<NoteEvent> {
    if p.stringNumber != -1 && |active| < cap then
      active + [NoteEvent(p.stringNumber, p.fretNumber, startTime, startTime + duration)]
    else active
  }

  /** The list stays within the cap; an empty list also fits a non-positive cap. */
  ghost predicate WithinCap(active: seq<NoteEvent>, cap: int) {
    |active| <= cap || active == []
  }

  /** Starting a note never takes the list over the cap. */
  lemma AfterStartWithinCap(active: seq<NoteEvent>, cap: int, p: Position, startTime: real, duration: real)
    requires WithinCap(active, cap)
    ensures WithinCap(AfterStart(active, cap, p, startTime, duration), cap)
  {
  }

  /** A note without a string, or one that comes when the cap is reached, changes nothing;
      otherwise the old list is kept and the new event, at the looked-up position and
      ending `duration` after its start, goes last. */
  lemma AfterStartCases(active: seq<NoteEvent>, cap: int, p: Position, startTime: real, duration: real)
    ensures var r := AfterStart(active, cap, p, startTime, duration);
      (p.stringNumber == -1 || |active| >= cap) <==> r == active
    ensures var r := AfterStart(active, cap, p, startTime, duration);
      r != active ==>
        |r| == |active| + 1 && r[..|active|] == active
        && r[|active|].stringNumber == p.stringNumber && r[|active|].fretNumber == p.fretNumber
        && r[|active|].startTime == startTime && r[|active|].endTime - r[|active|].startTime == duration
  {
    var r := AfterStart(active, cap, p, startTime, duration);
    if p.stringNumber != -1 && |active| < cap {
      assert |r| != |active|;
    }
  }

  /** The events still sounding at time `t`, in list order. */
  function Unfinished(events: seq<NoteEvent>, t: real): (r: seq<NoteEvent>)
    ensures |r| <= |events|
  {
    if events == [] then []
    else (if events[0].endTime > t then [events[0]] else []) + Unfinished(events[1..], t)
  }

  /** The events ended by time `t`, in list order. */
  function Finished(events: seq<NoteEvent>, t: real): seq<NoteEvent> {
    if events == [] then []
    else (if events[0].endTime <= t then [events[0]] else []) + Finished(events[1..], t)
  }

  /** Exactly the events ending after `t` survive. */
  lemma {:induction false} UnfinishedMembers(events: seq<NoteEvent>, t: real)
    ensures forall e :: e in Unfinished(events, t) <==> e in events && e.endTime > t
    decreases |events|
  {
    if events != [] {
      UnfinishedMembers(events[1..], t);
      assert events == [events[0]] + events[1..];
    }
  }

  /** Cleaning up splits the list: each event is either kept or removed, once. */
  lemma {:induction false} CleanupPartitions(events: seq<NoteEvent>, t: real)
    ensures multiset(events) == multiset(Unfinished(events, t)) + multiset(Finished(events, t))
    decreases |events|
  {
    if events != [] {
      CleanupPartitions(events[1..], t);
      assert events == [events[0]] + events[1..];
    }
  }

  /** Filtering respects concatenation, so the kept events stay in their relative order. */
  lemma {:induction false} UnfinishedAppend(a: seq<NoteEvent>, b: seq<NoteEvent>, t: real)
    ensures Unfinished(a + b, t) == Unfinished(a, t) + Unfinished(b, t)
    decreases |a|
  {
    if a != [] {
      assert (a + b)[0] == a[0] && (a + b)[1..] == a[1..] + b;
      UnfinishedAppend(a[1..], b, t);
      var head := if a[0].endTime > t then [a[0]] else [];
      assert Unfinished(a + b, t) == head + (Unfinished(a[1..], t) + Unfinished(b, t));
      assert head + (Unfinished(a[1..], t) + Unfinished(b, t)) == (head + Unfinished(a[1..], t)) + Unfinished(b, t);
      assert Unfinished(a, t) == head + Unfinished(a[1..], t);
    } else {
      assert a + b == b;
    }
  }

  /** Cleaning up twice at the same time removes nothing more. */
  lemma {:induction false} CleanupIdempotent(events: seq<NoteEvent>, t: real)
    ensures Unfinished(Unfinished(events, t), t) == Unfinished(events, t)
    decreases |events|
  {
    if events != [] {
      CleanupIdempotent(events[1..], t);
      var rest := Unfinished(events[1..], t);
      if events[0].endTime > t {
        var kept := [events[0]] + rest;
        assert kept[0] == events[0] && kept[1..] == rest;
        assert Unfinished(kept, t) == [events[0]] + Unfinished(rest, t);
      } else {
        assert Unfinished(events, t) == rest;
      }
    }
  }

  /** The positions StopNoteWithVisuals is called with, one per event, in list order. */
  function Positions(events: seq<NoteEvent>): (r: seq<NoteKey>)
    ensures |r| == |events|
    ensures forall i :: 0 <= i < |events| ==> r[i] == NoteKey(events[i].stringNumber, events[i].fretNumber)
  {
    seq(|events|, i requires 0 <= i < |events| => NoteKey(events[i].stringNumber, events[i].fretNumber))
  }

  class AdvancedMidiPlayer {
    const maxConcurrentNotes: int
    var isPlaying: bool
    var activeNotes: seq<NoteEvent>

    ghost predicate Valid()
      reads this
    {
      WithinCap(activeNotes, maxConcurrentNotes)
    }

    constructor (cap: int)
      ensures Valid()
      ensures maxConcurrentNotes == cap && !isPlaying && activeNotes == []
    {
      maxConcurrentNotes := cap;
      isPlaying := false;
      activeNotes := [];
    }

    /** Start a note whose time and length in seconds are `time` and `length`, at tempo
        factor `speedMultiplier`; `p` is the position the strings manager found for it. */
    method StartNote(time: real, length: real, speedMultiplier: real, p: Position)
      requires speedMultiplier != 0.0
      requires Valid()
      modifies this
      ensures Valid()
      ensures activeNotes == AfterStart(old(activeNotes), maxConcurrentNotes, p,
                                        time / speedMultiplier, length / speedMultiplier)
      ensures isPlaying == old(isPlaying)
    {
      var noteStartTime := time / speedMultiplier;
      var noteDuration := length / speedMultiplier;
      if p.stringNumber != -1 {
        if |activeNotes| >= maxConcurrentNotes {
          return;
        }
        var noteEvent := NoteEvent(p.stringNumber, p.fretNumber, noteStartTime, noteStartTime + noteDuration);
        activeNotes := activeNotes + [noteEvent];
      }
    }

    /** Remove the events that have ended by `currentTime`, walking the list from its end;
        returns the removed events, whose coroutines are stopped. */
    method CleanupFinishedNotes(currentTime: real) returns (removed: seq<NoteEvent>)
      requires Valid()
      modifies this
      ensures Valid()
      ensures activeNotes == Unfinished(old(activeNotes), currentTime)
      ensures removed == Finished(old(activeNotes), currentTime)
      ensures isPlaying == old(isPlaying)
    {
      ghost var events := activeNotes;
      removed := [];
      var i := |activeNotes|;
      while i > 0
        invariant 0 <= i <= |events|
        invariant activeNotes == events[..i] + Unfinished(events[i..], currentTime)
        invariant removed == Finished(events[i..], currentTime)
        invariant isPlaying == old(isPlaying)
        decreases i
      {
        i := i - 1;
        assert events[i..] == [events[i]] + events[i + 1..];
        assert activeNotes[i] == events[i];
        if activeNotes[i].endTime <= currentTime {
          removed := [activeNotes[i]] + removed;
          activeNotes := activeNotes[..i] + activeNotes[i + 1..];
        }
        assert events[..i + 1] == events[..i] + [events[i]];
      }
      assert activeNotes == Unfinished(events, currentTime);
      assert |activeNotes| <= |events|;
    }

    /** Stop playback: every event's note is released, in list order, and the list ends
        empty. Returns the positions handed to StopNoteWithVisuals. */
    method StopPlayback() returns (released: seq<NoteKey>)
      requires Valid()
      modifies this
      ensures Valid()
      ensures !isPlaying && activeNotes == []
      ensures released == Positions(old(activeNotes))
    {
      isPlaying := false;
      released := [];
      for i := 0 to |activeNotes|
        invariant released == Positions(activeNotes[..i])
      {
        var noteEvent := activeNotes[i];
        released := released + [NoteKey(noteEvent.stringNumber, noteEvent.fretNumber)];
      }
      assert activeNotes[..|activeNotes|] == activeNotes;
      activeNotes := [];
    }
  }
}
