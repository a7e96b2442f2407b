/** The sustaining sound engine: resolves (string, fret) to a MIDI note, asks the sample bank
    for a clip, loops it on a pooled source shifted to the note, and keeps the table of
    sounding notes. */
module SoundEngine {
  import opened Audio
  import opened Int32
  import opened Tuning
  import opened SampleNames
  import opened SampleBank
  import opened NoteTable
  import opened SourcePool

  // ---------------------------------------------------------------- string.Split('_')

  /** The index of the first occurrence of `c`. */
  function IndexOf(s: string, c: char): (i: nat)
    requires c in s
    ensures i < |s| && s[i] == c && c !in s[..i]
  {
    if s[0] == c then 0
    else
      assert s == [s[0]] + s[1..];
      var j := IndexOf(s[1..], c);
      assert s[..j + 1] == [s[0]] + s[1..][..j];
      j + 1
  }

  lemma IndexOfFirst(s: string, c: char, j: nat)
    requires j < |s| && s[j] == c && c !in s[..j]
    ensures IndexOf(s, c) == j
  {
  }

  /** `s.Split(sep)`: the pieces between separators, empty pieces included. */
  function Split(s: string, sep: char): (parts: seq<string>)
    ensures |parts| >= 1
    ensures forall i :: 0 <= i < |parts| ==> sep !in parts[i]
    decreases |s|
  {
    if sep !in s then [s]
    else
      var i := IndexOf(s, sep);
      [s[..i]] + Split(s[i + 1..], sep)
  }

  /** `string.Join(sep, parts)`. */
  function Join(parts: seq<string>, sep: char): string
    requires |parts| >= 1
    decreases |parts|
  {
    if |parts| == 1 then parts[0] else parts[0] + [sep] + Join(parts[1..], sep)
  }

  /** Splitting loses nothing: joining the pieces gives the name back. */
  lemma {:induction false} JoinSplit(s: string, sep: char)
    ensures Join(Split(s, sep), sep) == s
    decreases |s|
  {
    if sep in s {
      var i := IndexOf(s, sep);
      var rest := s[i + 1..];
      JoinSplit(rest, sep);
      var parts := Split(rest, sep);
      assert Split(s, sep) == [s[..i]] + parts;
      assert Join([s[..i]] + parts, sep) == s[..i] + [sep] + Join(parts, sep) by {
        assert ([s[..i]] + parts)[1..] == parts;
      }
      assert s == s[..i] + [sep] + rest;
    }
  }

  /** Splitting at the first separator: the piece before it, then the pieces of the rest. */
  lemma SplitAtFirst(first: string, rest: string, sep: char)
    requires sep !in first
    ensures Split(first + [sep] + rest, sep) == [first] + Split(rest, sep)
  {
    var s := first + [sep] + rest;
    assert s[|first|] == sep;
    assert s[..|first|] == first;
    IndexOfFirst(s, sep, |first|);
    assert s[|first| + 1..] == rest;
  }

  /** Pieces without the separator are recovered by splitting their join. */
  lemma {:induction false} SplitJoin(parts: seq<string>, sep: char)
    requires |parts| >= 1
    requires forall i :: 0 <= i < |parts| ==> sep !in parts[i]
    ensures Split(Join(parts, sep), sep) == parts
    decreases |parts|
  {
    if |parts| > 1 {
      var tail := parts[1..];
      assert forall i :: 0 <= i < |tail| ==> tail[i] == parts[i + 1];
      SplitJoin(tail, sep);
      assert Join(parts, sep) == parts[0] + [sep] + Join(tail, sep);
      SplitAtFirst(parts[0], Join(tail, sep), sep);
      assert parts == [parts[0]] + tail;
    }
  }

  // ---------------------------------------------------------------- int.TryParse

  /** The white space `NumberStyles.Integer` lets surround a number. */
  predicate IsWhite(c: char) { c == ' ' || '\t' <= c <= '\r' }

  function TrimStart(s: string): string
    decreases |s|
  {
    if |s| > 0 && IsWhite(s[0]) then TrimStart(s[1..]) else s
  }

  function TrimEnd(s: string): string
    decreases |s|
  {
    if |s| > 0 && IsWhite(s[|s| - 1]) then TrimEnd(s[..|s| - 1]) else s
  }

  /** Trimming removes a white prefix: what is left is a suffix that starts with no white space. */
  lemma {:induction false} TrimStartIsSuffix(s: string)
    ensures var r := TrimStart(s);
      |r| <= |s| && r == s[|s| - |r|..] && (|r| > 0 ==> !IsWhite(r[0]))
    decreases |s|
  {
    if |s| > 0 && IsWhite(s[0]) {
      TrimStartIsSuffix(s[1..]);
    }
  }

  /** Trimming removes a white suffix: what is left is a prefix that ends with no white space. */
  lemma {:induction false} TrimEndIsPrefix(s: string)
    ensures var r := TrimEnd(s);
      |r| <= |s| && r == s[..|r|] && (|r| > 0 ==> !IsWhite(r[|r| - 1]))
    decreases |s|
  {
    if |s| > 0 && IsWhite(s[|s| - 1]) {
      TrimEndIsPrefix(s[..|s| - 1]);
    }
  }

  /** `int.TryParse(s, out v)`: optional surrounding white space, an optional sign and at
      least one decimal digit, with a value that fits an `int`; None where it returns false. */
  function TryParseInt(s: string): (r: Option<int>)
    ensures r.Some? ==> IsInt32(r.value)
  {
    var t := TrimEnd(TrimStart(s));
    var signed := |t| > 0 && (t[0] == '-' || t[0] == '+');
    var digits := if signed then t[1..] else t;
    if |digits| == 0 || !AllDigits(digits) then None
    else
      var v: int := if signed && t[0] == '-' then -(DecimalValue(digits) as int) else DecimalValue(digits);
      if IsInt32(v) then Some(v) else None
  }

  /** A numeral has no white space to trim. */
  lemma TrimNumeral(s: string)
    requires |s| >= 1 && !IsWhite(s[0]) && !IsWhite(s[|s| - 1])
    ensures TrimEnd(TrimStart(s)) == s
  {
  }

  /** A plain run of digits whose value fits parses to that value. */
  lemma TryParseDigits(t: string)
    requires |t| >= 1 && AllDigits(t) && DecimalValue(t) <= IntMax
    ensures TryParseInt(t) == Some(DecimalValue(t))
  {
    TrimNumeral(t);
    assert t[0] != '-' && t[0] != '+';
  }

  /** Every numeral of a non-negative `int` parses back to its value. */
  lemma TryParseNumeral(n: nat)
    requires n <= IntMax
    ensures TryParseInt(DecimalString(n)) == Some(n)
  {
    DecimalRoundTrip(n);
    TryParseDigits(DecimalString(n));
  }

  /** A minus sign and a run of digits parse to the negated value, down to the smallest `int`. */
  lemma TryParseMinusDigits(d: string)
    requires |d| >= 1 && AllDigits(d) && DecimalValue(d) <= -IntMin
    ensures TryParseInt(['-'] + d) == Some(-(DecimalValue(d) as int))
  {
    var t := ['-'] + d;
    assert t[1..] == d;
    assert t[|t| - 1] == d[|d| - 1];
    TrimNumeral(t);
    assert TrimEnd(TrimStart(t)) == t;
  }

  /** A minus sign before the numeral negates it, down to the smallest `int`. */
  lemma TryParseNegativeNumeral(n: nat)
    requires n <= -IntMin
    ensures TryParseInt(['-'] + DecimalString(n)) == Some(-(n as int))
  {
    DecimalRoundTrip(n);
    TryParseMinusDigits(DecimalString(n));
  }

  // ---------------------------------------------------------------- the semitone shift

  /** The fret the name's second `_`-separated piece gives, when it parses as an `int`. */
  function NameBaseFret(clipName: string): (r: Option<int>)
    ensures r.Some? ==> IsInt32(r.value)
  {
    var parts := Split(clipName, '_');
    if |parts| >= 2 then TryParseInt(parts[1]) else None
  }

  /** The shift as written: the fret read from the clip name is taken to be a fret on the
      string the caller asked for; without one the shift is zero. */
  function AsWrittenShift(stringNumber: int, midiNote: int, clipName: string): (shift: int)
    requires IsInt32(midiNote)
    ensures IsInt32(shift)
    ensures NameBaseFret(clipName).None? ==> shift == 0
    ensures NameBaseFret(clipName).Some? ==>
      var base := MidiNote(stringNumber, NameBaseFret(clipName).value);
      IsInt32(midiNote - base) ==> base + shift == midiNote
  {
    var baseMidiNote := match NameBaseFret(clipName)
      case Some(baseFret) => MidiNote(stringNumber, baseFret)
      case None => midiNote;
    Wrap(midiNote - baseMidiNote)
  }

  /** As written, the shift is the fret offset `fretNumber - b` (C# `int` arithmetic) when the
      name gives the fret `b`, and zero otherwise. */
  lemma AsWrittenShiftIsFretOffset(stringNumber: int, fretNumber: int, clipName: string)
    requires IsInt32(fretNumber)
    ensures AsWrittenShift(stringNumber, MidiNote(stringNumber, fretNumber), clipName)
      == match NameBaseFret(clipName)
         case Some(b) => Wrap(fretNumber - b)
         case None => 0
  {
    match NameBaseFret(clipName)
    case Some(b) =>
      WrapSubtraction(OpenNote(stringNumber) + fretNumber, OpenNote(stringNumber) + b);
    case None =>
  }

  /** The intended shift: from the note asked for to the note the sample was recorded at,
      read from the clip name with the bank's own naming convention (tag, string, fret). */
  function CorrectedShift(midiNote: int, clip: Clip): (shift: int)
    requires IsInt32(midiNote)
    ensures IsInt32(shift)
    ensures match ParseClipName(clip.name)
      case Parsed(k) => IsInt32(midiNote - RecordedNote(k)) ==> RecordedNote(k) + shift == midiNote
      case _ => shift == 0
  {
    match ParseClipName(clip.name)
    case Parsed(k) => Wrap(midiNote - MidiNote(k.stringNumber, k.fret))
    case _ => 0
  }

  /** For a clip the bank resolves whose name gives its own key, the corrected shift takes
      the recorded note to the note asked for, is at most three semitones, and is zero when
      the exact fret was recorded. */
  lemma CorrectedShiftFromKey(m: map<SampleKey, Clip>, midiNote: int, p: Pickup)
    requires IsInt32(midiNote) && Resolve(m, midiNote, p).Some?
    requires var k := Resolve(m, midiNote, p).value; ParseClipName(m[k].name) == Parsed(k)
    ensures var k := Resolve(m, midiNote, p).value;
      var shift := CorrectedShift(midiNote, m[k]);
      RecordedNote(k) + shift == midiNote
      && -3 <= shift <= 3
      && (SampleKey(p, k.stringNumber, midiNote - OpenNote(k.stringNumber)) in m ==> shift == 0)
  {
    var k := Resolve(m, midiNote, p).value;
    ResolvedKey(m, midiNote, p);
    ResolvedNoteNearby(m, midiNote, p);
    assert -3 <= midiNote - RecordedNote(k) <= 3;
    WrapFits(midiNote - RecordedNote(k));
  }

  /** The same for every clip of a bank whose names agree with their keys. */
  lemma CorrectedShiftNearby(m: map<SampleKey, Clip>, midiNote: int, p: Pickup)
    requires IsInt32(midiNote) && NamesAgree(m)
    requires ClipForNote(m, midiNote, p).Some?
    ensures var k := Resolve(m, midiNote, p).value;
      var shift := CorrectedShift(midiNote, ClipForNote(m, midiNote, p).value);
      RecordedNote(k) + shift == midiNote
      && -3 <= shift <= 3
      && (SampleKey(p, k.stringNumber, midiNote - OpenNote(k.stringNumber)) in m ==> shift == 0)
  {
    var k := Resolve(m, midiNote, p).value;
    assert ParseClipName(m[k].name) == Parsed(k);
    CorrectedShiftFromKey(m, midiNote, p);
  }

  /** The `_`-pieces of a canonical sample name: tag and string, then the fret numeral. */
  lemma SplitCanonicalName(k: SampleKey)
    requires 1 <= k.stringNumber <= 6 && k.fret >= 0
    ensures Split(CanonicalName(k), '_') == [[TagChar(k.pickup), DigitChar(k.stringNumber)], DecimalString(k.fret)]
  {
    var name := CanonicalName(k);
    var ds := DecimalString(k.fret);
    IndexOfFirst(name, '_', 2);
    assert name[..2] == [TagChar(k.pickup), DigitChar(k.stringNumber)];
    assert name[3..] == ds;
  }

  /** The engine reads the recorded fret from a canonical name, and puts it on the caller's
      string. */
  lemma AsWrittenShiftOfCanonical(stringNumber: int, fretNumber: int, k: SampleKey)
    requires 1 <= stringNumber <= 6 && 0 <= fretNumber <= HighestFret
    requires 1 <= k.stringNumber <= 6 && 0 <= k.fret <= HighestSampledFret
    ensures AsWrittenShift(stringNumber, MidiNote(stringNumber, fretNumber), CanonicalName(k)) == fretNumber - k.fret
  {
    SplitCanonicalName(k);
    TryParseNumeral(k.fret);
    assert NameBaseFret(CanonicalName(k)) == Some(k.fret);
  }

  /** The corrected shift of a canonically named sample runs from its recorded note. */
  lemma CorrectedShiftOfCanonical(midiNote: int, k: SampleKey, id: nat)
    requires 0 <= midiNote <= IntMax
    requires 1 <= k.stringNumber <= 6 && 0 <= k.fret <= HighestSampledFret
    ensures CorrectedShift(midiNote, Clip(id, CanonicalName(k))) == midiNote - RecordedNote(k)
  {
    ParseCanonicalName(k);
  }

  /** For a canonically named sample the engine reads the right fret but puts it on the
      caller's string: the shift as written exceeds the intended one by exactly the gap
      between the two open strings, so the two agree only when the sample lies on the
      string that was played. */
  lemma AsWrittenShiftOffByStringGap(stringNumber: int, fretNumber: int, k: SampleKey, id: nat)
    requires 1 <= stringNumber <= 6 && 0 <= fretNumber <= HighestFret
    requires 1 <= k.stringNumber <= 6 && 0 <= k.fret <= HighestSampledFret
    ensures var midi := MidiNote(stringNumber, fretNumber);
      var clip := Clip(id, CanonicalName(k));
      AsWrittenShift(stringNumber, midi, clip.name) == fretNumber - k.fret
      && CorrectedShift(midi, clip) == midi - RecordedNote(k)
      && AsWrittenShift(stringNumber, midi, clip.name) - CorrectedShift(midi, clip)
           == OpenNote(k.stringNumber) - OpenNote(stringNumber)
      && ((AsWrittenShift(stringNumber, midi, clip.name) == CorrectedShift(midi, clip))
           <==> (k.stringNumber == stringNumber))
  {
    var midi := MidiNote(stringNumber, fretNumber);
    WrapFits(OpenNote(stringNumber) + fretNumber);
    AsWrittenShiftOfCanonical(stringNumber, fretNumber, k);
    CorrectedShiftOfCanonical(midi, k, id);
    if k.stringNumber != stringNumber {
      if k.stringNumber < stringNumber {
        OpenNotesDescend(k.stringNumber, stringNumber);
      } else {
        OpenNotesDescend(stringNumber, k.stringNumber);
      }
    }
  }

  /** Every sample of the bank carries the canonical name of its own key. */
  ghost predicate CanonicallyNamed(m: map<SampleKey, Clip>) {
    forall k | k in m :: 1 <= k.stringNumber <= 6 && 0 <= k.fret <= HighestSampledFret
      && m[k].name == CanonicalName(k)
  }

  /** The shift StartNote plays with, over a canonically named bank: the fret offset from the
      resolved sample's fret, which brings that sample to the note asked for exactly when the
      sample lies on the string that was played. */
  lemma StartedShift(m: map<SampleKey, Clip>, stringNumber: int, fretNumber: int, p: Pickup)
    requires 1 <= stringNumber <= 6 && 0 <= fretNumber <= HighestFret
    requires CanonicallyNamed(m)
    requires ClipForNote(m, MidiNote(stringNumber, fretNumber), p).Some?
    ensures var midi := MidiNote(stringNumber, fretNumber);
      var k := Resolve(m, midi, p).value;
      var shift := AsWrittenShift(stringNumber, midi, ClipForNote(m, midi, p).value.name);
      shift == fretNumber - k.fret
      && (RecordedNote(k) + shift == midi <==> k.stringNumber == stringNumber)
  {
    var midi := MidiNote(stringNumber, fretNumber);
    var k := Resolve(m, midi, p).value;
    AsWrittenShiftOffByStringGap(stringNumber, fretNumber, k, m[k].id);
    assert m[k] == Clip(m[k].id, CanonicalName(k));
  }

  /** One input that shows it. With only the sample `n5_21` loaded (under any clip id), open
      high E (string 1, fret 0, note 64) resolves to that sample on the A string, recorded at
      note 66: the shift should be -2, but reading fret 21 on string 1 (note 85) gives -21. */
  lemma AsWrittenShiftMisreadsOtherString(id: nat)
    ensures var clip := Clip(id, CanonicalName(SampleKey(Neck, 5, 21)));
      MidiNote(1, 0) == 64
      && ClipForNote(Loaded(map[], [clip]), 64, Neck) == Some(clip)
      && AsWrittenShift(1, 64, clip.name) == -21
      && CorrectedShift(64, clip) == -2
  {
    assert MidiNote(1, 0) == 64;
    ExampleBankResolves(id);
    ExampleShifts(id);
  }

  /** The two shifts of that example. */
  lemma ExampleShifts(id: nat)
    ensures var clip := Clip(id, CanonicalName(SampleKey(Neck, 5, 21)));
      AsWrittenShift(1, 64, clip.name) == -21 && CorrectedShift(64, clip) == -2
  {
    assert MidiNote(1, 0) == 64;
    AsWrittenShiftOffByStringGap(1, 0, SampleKey(Neck, 5, 21), id);
  }

  /** The sample of that example is the one named `n5_21`. */
  lemma ExampleName()
    ensures CanonicalName(SampleKey(Neck, 5, 21)) == "n5_21"
  {
    assert DecimalString(21) == "21";
  }

  /** The bank loaded with `n5_21` alone answers note 64 on the neck pickup with it: string 6
      would need fret 24, string 5 needs fret 19, whose nearest recorded fret is 21. */
  lemma ExampleBankResolves(id: nat)
    ensures var clip := Clip(id, CanonicalName(SampleKey(Neck, 5, 21)));
      ClipForNote(Loaded(map[], [clip]), 64, Neck) == Some(clip)
  {
    var k := SampleKey(Neck, 5, 21);
    var clip := Clip(id, CanonicalName(k));
    ParseCanonicalName(k);
    assert [clip][1..] == [];
    assert Loaded(map[], [clip]) == Loaded(map[k := clip], []);
    var m := map[k := clip];
    assert NearestRecordedFret(19) == 21;
    assert CandidateKey(m, 64, Neck, 6).None?;
    assert CandidateKey(m, 64, Neck, 5) == Some(k);
    assert Resolve(m, 64, Neck) == Some(k);
  }

  // ---------------------------------------------------------------- the engine

  /** How a StartNote call ended; `NoSource` stands for the exception an empty pool raises. */
  datatype StartOutcome = NoClip | NoSource | Started(source: SourceId)

  class GuitarSoundEngine {
    var pickup: Pickup
    /** The sounding notes: which source plays each (string, fret). */
    var activeNotes: map<NoteKey, SourceId>
    /** What has been sent to the playback layer so far. */
    var log: seq<SoundAction>
    /** The pool found at start-up and the sample bank. */
    const audioPool: AudioSourcePool
    const bank: NoteSampleBank

    /** Every sounding note is played by a source of the pool. */
    ghost predicate Valid()
      reads this, audioPool
    {
      forall k :: k in activeNotes ==> activeNotes[k] in audioPool.queue
    }

    constructor (pool: AudioSourcePool, samples: NoteSampleBank)
      ensures Valid()
      ensures audioPool == pool && bank == samples && pickup == Neck
      ensures activeNotes == map[] && log == []
    {
      audioPool := pool;
      bank := samples;
      pickup := Neck;
      activeNotes := map[];
      log := [];
    }

    /** Stop the note at (string, fret) if it is sounding, at once or with a fade-out; the key
        leaves the table and the other notes are untouched. The source is not handed back. */
    method StopNote(stringNumber: int, fretNumber: int, immediate: bool)
      requires Valid()
      modifies this
      ensures Valid()
      ensures activeNotes == old(activeNotes) - {NoteKey(stringNumber, fretNumber)}
      ensures log == old(log) + StopEffect(old(activeNotes), NoteKey(stringNumber, fretNumber), immediate, false)
      ensures pickup == old(pickup)
    {
      var noteKey := NoteKey(stringNumber, fretNumber);
      if noteKey in activeNotes {
        var source := activeNotes[noteKey];
        if immediate {
          log := log + [Stop(source)];
        } else {
          log := log + [FadeOut(source)];
        }
        activeNotes := activeNotes - {noteKey};
      }
    }

    /** Retrigger the note at (string, fret): fade out what plays there, resolve its MIDI note
        to a clip for the current pickup, and loop that clip on the next pooled source,
        shifted as written: from the note of the clip name's fret on the string played to the
        note asked for (see `AsWrittenShiftOffByStringGap` for when that misses the note). */
    method StartNote(stringNumber: int, fretNumber: int) returns (outcome: StartOutcome)
      requires IsInt32(fretNumber)
      requires Valid()
      modifies this, audioPool
      ensures Valid()
      ensures pickup == old(pickup)
      ensures var midi := MidiNote(stringNumber, fretNumber);
        var clip := ClipForNote(bank.sampleMap, midi, pickup);
        var key := NoteKey(stringNumber, fretNumber);
        var stopped := old(log) + StopEffect(old(activeNotes), key, false, false);
        if clip.None? || old(audioPool.queue) == [] then
          outcome == (if clip.None? then NoClip else NoSource)
          && activeNotes == old(activeNotes) - {key}
          && log == stopped
          && audioPool.queue == old(audioPool.queue) && audioPool.active == old(audioPool.active)
        else
          var source := old(audioPool.queue)[0];
          outcome == Started(source)
          && activeNotes == old(activeNotes)[key := source]
          && log == stopped + [Play(source, clip.value, AsWrittenShift(stringNumber, midi, clip.value.name), true)]
          && audioPool.queue == Rotate(old(audioPool.queue))
          && audioPool.active == old(audioPool.active) + {source}
    {
      StopNote(stringNumber, fretNumber, false);
      var midiNote := MidiNote(stringNumber, fretNumber);
      var clip := bank.GetClipForNote(midiNote, pickup);
      if clip.None? {
        return NoClip;
      }
      if audioPool.queue == [] {
        return NoSource;
      }
      var source := audioPool.GetSource();
      RotateKeepsSources(old(audioPool.queue));
      var semitoneShift := AsWrittenShift(stringNumber, midiNote, clip.value.name);
      log := log + [Play(source, clip.value, semitoneShift, true)];
      activeNotes := activeNotes[NoteKey(stringNumber, fretNumber) := source];
      outcome := Started(source);
    }

    /** Stop every sounding note, walking a copy of the table; the table ends empty and each
        voice that was sounding is released once, in the copy's enumeration order. */
    method StopAllNotes(immediate: bool) returns (ghost order: seq<NoteKey>)
      requires Valid()
      modifies this
      ensures Valid()
      ensures activeNotes == map[]
      ensures Enumerates(order, old(activeNotes).Keys)
      ensures log == old(log) + ReleaseAll(old(activeNotes), order, immediate, false)
      ensures pickup == old(pickup)
    {
      var snapshot := activeNotes;
      order := [];
      ghost var released: seq<SoundAction> := [];
      while activeNotes != map[]
        invariant Valid()
        invariant pickup == old(pickup)
        invariant Releasing(snapshot, activeNotes, order, released, immediate, false)
        invariant log == old(log) + released
        decreases |activeNotes.Keys|
      {
        var k :| k in activeNotes;
        ReleasingStep(snapshot, activeNotes, order, released, immediate, false, k);
        ghost var effect := StopEffect(activeNotes, k, immediate, false);
        ghost var before := activeNotes.Keys;
        StopNote(k.stringNumber, k.fretNumber, immediate);
        assert activeNotes.Keys == before - {k};
        AppendAssociative(old(log), released, effect);
        released := released + effect;
        order := order + [k];
      }
      ReleasingDone(snapshot, order, released, immediate, false);
      assert activeNotes == map[];
    }

    /** OnDisable: stop every note at once. */
    method OnDisable() returns (ghost order: seq<NoteKey>)
      requires Valid()
      modifies this
      ensures Valid()
      ensures activeNotes == map[]
      ensures Enumerates(order, old(activeNotes).Keys)
      ensures log == old(log) + ReleaseAll(old(activeNotes), order, true, false)
      ensures pickup == old(pickup)
    {
      order := StopAllNotes(true);
    }
  }
}
