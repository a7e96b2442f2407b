/** The sample bank: recorded clips keyed by (pickup, string, fret), and the resolution of a
    MIDI note to a clip, exact fret first, otherwise the nearest recorded fret. */
module SampleBank {
  import opened Audio
  import opened Int32
  import opened Tuning
  import opened SampleNames

  /** Frets 0..21 can be looked up in the bank. */
  const HighestSampledFret: int := 21

  /** The frets at which samples were recorded, in the order the fallback tries them. */
  const RecordedFrets: seq<int> := [0, 7, 14, 21]

  function Distance(a: int, b: int): nat {
    if a >= b then a - b else b - a
  }

  // ---------------------------------------------------------------- loading

  /** Index of the first clip whose fret does not fit `int.Parse`, or the length: the clips
      the loader gets through before that exception ends it. */
  function LoadStop(clips: seq<Clip>): (n: nat)
    ensures n <= |clips|
  {
    if clips == [] then 0
    else if ParseClipName(clips[0].name).Overflow? then 0
    else 1 + LoadStop(clips[1..])
  }

  /** The sample map after loading `clips` into `m`, one clip at a time. */
  function Loaded(m: map<SampleKey, Clip>, clips: seq<Clip>): map<SampleKey, Clip>
    decreases |clips|
  {
    if clips == [] then m
    else match ParseClipName(clips[0].name)
      case NoMatch => Loaded(m, clips[1..])
      case Overflow => m
      case Parsed(k) => Loaded(m[k := clips[0]], clips[1..])
  }

  /** Exactly the keys already present or parsed from a clip before the first overflow. */
  lemma {:induction false} LoadedKeys(m: map<SampleKey, Clip>, clips: seq<Clip>, k: SampleKey)
    ensures k in Loaded(m, clips) <==>
      k in m || exists j :: 0 <= j < LoadStop(clips) && ParseClipName(clips[j].name) == Parsed(k)
    decreases |clips|
  {
    if clips != [] {
      var rest := clips[1..];
      match ParseClipName(clips[0].name)
      case NoMatch =>
        LoadedKeys(m, rest, k);
        ShiftWitness(clips, k);
      case Overflow =>
      case Parsed(k0) =>
        LoadedKeys(m[k0 := clips[0]], rest, k);
        ShiftWitness(clips, k);
    }
  }

  lemma ShiftWitness(clips: seq<Clip>, k: SampleKey)
    requires clips != [] && !ParseClipName(clips[0].name).Overflow?
    ensures LoadStop(clips) == 1 + LoadStop(clips[1..])
    ensures (exists j :: 0 <= j < LoadStop(clips) && ParseClipName(clips[j].name) == Parsed(k)) <==>
      ParseClipName(clips[0].name) == Parsed(k)
      || exists j :: 0 <= j < LoadStop(clips[1..]) && ParseClipName(clips[1..][j].name) == Parsed(k)
  {
    if exists j :: 0 <= j < LoadStop(clips) && ParseClipName(clips[j].name) == Parsed(k) {
      var j :| 0 <= j < LoadStop(clips) && ParseClipName(clips[j].name) == Parsed(k);
      if j > 0 { assert clips[1..][j - 1] == clips[j]; }
    }
    if exists j :: 0 <= j < LoadStop(clips[1..]) && ParseClipName(clips[1..][j].name) == Parsed(k) {
      var j :| 0 <= j < LoadStop(clips[1..]) && ParseClipName(clips[1..][j].name) == Parsed(k);
      assert clips[1..][j] == clips[j + 1];
    }
  }

  /** Later clips win: a key maps to the last clip before the first overflow that parses to it. */
  lemma {:induction false} LoadedLatest(m: map<SampleKey, Clip>, clips: seq<Clip>, j: nat)
    requires j < LoadStop(clips) && ParseClipName(clips[j].name).Parsed?
    requires forall i :: j < i < LoadStop(clips) ==> ParseClipName(clips[i].name) != ParseClipName(clips[j].name)
    ensures var k := ParseClipName(clips[j].name).key;
      k in Loaded(m, clips) && Loaded(m, clips)[k] == clips[j]
    decreases |clips|
  {
    var rest := clips[1..];
    var k := ParseClipName(clips[j].name).key;
    assert LoadStop(clips) == 1 + LoadStop(rest);
    if j == 0 {
      LoadedUntouched(m[k := clips[0]], rest, k);
    } else {
      assert rest[j - 1] == clips[j];
      forall i | j - 1 < i < LoadStop(rest)
        ensures ParseClipName(rest[i].name) != ParseClipName(rest[j - 1].name)
      {
        assert rest[i] == clips[i + 1];
      }
      match ParseClipName(clips[0].name)
      case NoMatch => LoadedLatest(m, rest, j - 1);
      case Parsed(k0) => LoadedLatest(m[k0 := clips[0]], rest, j - 1);
    }
  }

  /** A key that no loaded clip parses to keeps its old entry, or stays absent. */
  lemma {:induction false} LoadedUntouched(m: map<SampleKey, Clip>, clips: seq<Clip>, k: SampleKey)
    requires forall i :: 0 <= i < LoadStop(clips) ==> ParseClipName(clips[i].name) != Parsed(k)
    ensures (k in Loaded(m, clips) <==> k in m)
    ensures k in m ==> Loaded(m, clips)[k] == m[k]
    decreases |clips|
  {
    if clips != [] && !ParseClipName(clips[0].name).Overflow? {
      var rest := clips[1..];
      assert LoadStop(clips) == 1 + LoadStop(rest);
      forall i | 0 <= i < LoadStop(rest) ensures ParseClipName(rest[i].name) != Parsed(k) {
        assert rest[i] == clips[i + 1];
      }
      match ParseClipName(clips[0].name)
      case NoMatch => LoadedUntouched(m, rest, k);
      case Parsed(k0) => LoadedUntouched(m[k0 := clips[0]], rest, k);
    }
  }

  /** Every stored clip's own name parses to the key it is stored under. */
  ghost predicate NamesAgree(m: map<SampleKey, Clip>) {
    forall k | k in m :: ParseClipName(m[k].name) == Parsed(k)
  }

  /** Storing a clip under the key its name parses to keeps the names in agreement. */
  lemma NamesAgreeStore(m: map<SampleKey, Clip>, k: SampleKey, clip: Clip)
    requires NamesAgree(m) && ParseClipName(clip.name) == Parsed(k)
    ensures NamesAgree(m[k := clip])
  {
    forall j | j in m[k := clip] ensures ParseClipName(m[k := clip][j].name) == Parsed(j) {
      if j != k {
        assert m[k := clip][j] == m[j];
      }
    }
  }

  lemma {:induction false} LoadedNamesAgree(m: map<SampleKey, Clip>, clips: seq<Clip>)
    requires NamesAgree(m)
    ensures NamesAgree(Loaded(m, clips))
    decreases |clips|
  {
    if clips != [] {
      match ParseClipName(clips[0].name)
      case NoMatch => LoadedNamesAgree(m, clips[1..]);
      case Overflow =>
      case Parsed(k) =>
        NamesAgreeStore(m, k, clips[0]);
        LoadedNamesAgree(m[k := clips[0]], clips[1..]);
    }
  }

  // ---------------------------------------------------------------- resolution

  /** Index into RecordedFrets of the first nearest recorded fret among the first `n`. */
  function NearestIndex(fret: int, n: nat): (i: nat)
    requires 1 <= n <= |RecordedFrets|
    ensures i < n
    decreases n
  {
    if n == 1 then 0
    else
      var k := NearestIndex(fret, n - 1);
      if Distance(fret, RecordedFrets[n - 1]) < Distance(fret, RecordedFrets[k]) then n - 1 else k
  }

  /** The fallback fret in closed form: 0, 7, 14 or 21 by the midpoints between them. */
  function NearestRecordedFret(fret: int): int {
    if fret <= 3 then 0 else if fret <= 10 then 7 else if fret <= 17 then 14 else 21
  }

  /** The scan over all recorded frets picks the closed-form fallback. */
  lemma NearestIndexPicksNearest(fret: int)
    ensures RecordedFrets[NearestIndex(fret, |RecordedFrets|)] == NearestRecordedFret(fret)
  {
  }

  lemma {:induction false} NearestIndexIsFirstMinimum(fret: int, n: nat)
    requires 1 <= n <= |RecordedFrets|
    ensures var i := NearestIndex(fret, n);
      (forall j :: 0 <= j < n ==> Distance(fret, RecordedFrets[i]) <= Distance(fret, RecordedFrets[j]))
      && forall j :: 0 <= j < i ==> Distance(fret, RecordedFrets[j]) > Distance(fret, RecordedFrets[i])
    decreases n
  {
    if n > 1 { NearestIndexIsFirstMinimum(fret, n - 1); }
  }

  /** The fallback is a recorded fret at minimal distance, and no earlier one is as close. */
  lemma NearestRecordedFretIsFirstMinimum(fret: int)
    ensures NearestRecordedFret(fret) in RecordedFrets
    ensures forall r :: r in RecordedFrets ==> Distance(fret, NearestRecordedFret(fret)) <= Distance(fret, r)
    ensures forall r :: r in RecordedFrets && r < NearestRecordedFret(fret) ==>
      Distance(fret, r) > Distance(fret, NearestRecordedFret(fret))
  {
    NearestIndexIsFirstMinimum(fret, |RecordedFrets|);
    NearestIndexPicksNearest(fret);
  }

  /** Without an exact sample a fret in 0..21 is at most three frets from its fallback. */
  lemma NearestWithinThree(fret: int)
    requires 0 <= fret <= HighestSampledFret
    ensures Distance(fret, NearestRecordedFret(fret)) <= 3
  {
    NearestRecordedFretIsFirstMinimum(fret);
    var r := if fret <= 3 then 0 else if fret <= 10 then 7 else if fret <= 17 then 14 else 21;
    assert r in RecordedFrets;
  }

  /** What string `s` offers for the note: its exact sample, else its fallback sample, else nothing. */
  function CandidateKey(m: map<SampleKey, Clip>, midi: int, p: Pickup, s: int): Option<SampleKey> {
    var fret := midi - OpenNote(s);
    if 0 <= fret <= HighestSampledFret then
      if SampleKey(p, s, fret) in m then Some(SampleKey(p, s, fret))
      else if SampleKey(p, s, NearestRecordedFret(fret)) in m then Some(SampleKey(p, s, NearestRecordedFret(fret)))
      else None
    else None
  }

  /** The key of the clip chosen for the note among strings `s` down to 1. */
  function ResolveFrom(m: map<SampleKey, Clip>, midi: int, p: Pickup, s: int): (r: Option<SampleKey>)
    ensures r.Some? ==> r.value in m
    decreases s
  {
    if s < 1 then None
    else if CandidateKey(m, midi, p, s).Some? then CandidateKey(m, midi, p, s)
    else ResolveFrom(m, midi, p, s - 1)
  }

  /** The search takes the candidate of the highest string that offers one, and finds
      nothing only when no string from `s` down to 1 offers a candidate. */
  lemma {:induction false} ResolveFromFirstCandidate(m: map<SampleKey, Clip>, midi: int, p: Pickup, s: int)
    ensures var r := ResolveFrom(m, midi, p, s);
      (r.Some? ==>
        (r.value.pickup == p && 1 <= r.value.stringNumber <= s
         && CandidateKey(m, midi, p, r.value.stringNumber) == r
         && forall t :: r.value.stringNumber < t <= s ==> CandidateKey(m, midi, p, t).None?))
      && (r.None? <==> forall t :: 1 <= t <= s ==> CandidateKey(m, midi, p, t).None?)
    decreases s
  {
    if s >= 1 && CandidateKey(m, midi, p, s).None? {
      ResolveFromFirstCandidate(m, midi, p, s - 1);
    }
  }

  /** The key of the clip GetClipForNote chooses: a sample of the bank, for the pickup asked
      for, on one of the six strings. */
  function Resolve(m: map<SampleKey, Clip>, midi: int, p: Pickup): (r: Option<SampleKey>)
    ensures r.Some? ==> r.value in m && r.value.pickup == p && 1 <= r.value.stringNumber <= 6
  {
    ResolveFromFirstCandidate(m, midi, p, 6);
    ResolveFrom(m, midi, p, 6)
  }

  /** The clip GetClipForNote returns; None stands for null. */
  function ClipForNote(m: map<SampleKey, Clip>, midi: int, p: Pickup): (r: Option<Clip>)
    ensures r.Some? ==> exists k | k in m :: k.pickup == p && m[k] == r.value
  {
    match Resolve(m, midi, p)
    case None => None
    case Some(k) => Some(m[k])
  }

  /** The note a sample was recorded at. */
  function RecordedNote(k: SampleKey): int {
    OpenNote(k.stringNumber) + k.fret
  }

  /** The resolved clip sits on the first string (from 6) where the note lies in frets 0..21
      and a sample exists; on that string the exact fret wins over the fallback. */
  lemma ResolvedKey(m: map<SampleKey, Clip>, midi: int, p: Pickup)
    requires Resolve(m, midi, p).Some?
    ensures var k := Resolve(m, midi, p).value; var fret := midi - OpenNote(k.stringNumber);
      0 <= fret <= HighestSampledFret
      && (SampleKey(p, k.stringNumber, fret) in m ==> k.fret == fret)
      && (SampleKey(p, k.stringNumber, fret) !in m ==> k.fret == NearestRecordedFret(fret))
      && forall t :: k.stringNumber < t <= 6 ==> CandidateKey(m, midi, p, t).None?
  {
    ResolveFromFirstCandidate(m, midi, p, 6);
  }

  /** The chosen sample is never more than three semitones from the note asked for, and is
      the note itself when the exact fret is recorded. */
  lemma ResolvedNoteNearby(m: map<SampleKey, Clip>, midi: int, p: Pickup)
    requires Resolve(m, midi, p).Some?
    ensures Distance(midi, RecordedNote(Resolve(m, midi, p).value)) <= 3
  {
    var k := Resolve(m, midi, p).value;
    var fret := midi - OpenNote(k.stringNumber);
    ResolvedKey(m, midi, p);
    if k.fret != fret {
      NearestWithinThree(fret);
    }
  }

  /** Below E2 (40) or above C#6 (85) no string holds the note within frets 0..21. */
  lemma OutOfRangeHasNoClip(m: map<SampleKey, Clip>, midi: int, p: Pickup)
    requires midi < 40 || midi > 85
    ensures ClipForNote(m, midi, p) == None
  {
    forall t | 1 <= t <= 6 ensures CandidateKey(m, midi, p, t).None? {
    }
  }

  /** A bank holding all four recorded frets of every string for a pickup resolves every
      note from 40 to 85. */
  lemma FullBankCoversRange(m: map<SampleKey, Clip>, midi: int, p: Pickup)
    requires forall s, r :: 1 <= s <= 6 && r in RecordedFrets ==> SampleKey(p, s, r) in m
    requires 40 <= midi <= 85
    ensures ClipForNote(m, midi, p).Some?
  {
    var s := if midi <= 61 then 6 else if midi <= 66 then 5 else if midi <= 71 then 4
             else if midi <= 76 then 3 else if midi <= 80 then 2 else 1;
    NearestRecordedFretIsFirstMinimum(midi - OpenNote(s));
    assert CandidateKey(m, midi, p, s).Some?;
  }

  /** The scan over the recorded frets inside GetClipForNote: keep the first fret whose
      distance is strictly smaller than the best so far. It finds the nearest recorded fret,
      the first of them on a tie. */
  method NearestRecordedFretScan(fret: int) returns (nearestFret: int)
    ensures nearestFret == NearestRecordedFret(fret)
    ensures nearestFret in RecordedFrets
    ensures forall r :: r in RecordedFrets ==> Distance(fret, nearestFret) <= Distance(fret, r)
  {
    nearestFret := RecordedFrets[0];
    var minDistance := Distance(fret, RecordedFrets[0]);
    for i := 0 to |RecordedFrets|
      invariant nearestFret == RecordedFrets[NearestIndex(fret, if i == 0 then 1 else i)]
      invariant minDistance == Distance(fret, nearestFret)
    {
      var distance := Distance(fret, RecordedFrets[i]);
      if distance < minDistance {
        minDistance := distance;
        nearestFret := RecordedFrets[i];
      }
    }
    NearestIndexPicksNearest(fret);
    NearestRecordedFretIsFirstMinimum(fret);
  }

  // ---------------------------------------------------------------- the bank object

  class NoteSampleBank {
    var sampleMap: map<SampleKey, Clip>

    ghost predicate Valid()
      reads this
    {
      NamesAgree(sampleMap)
    }

    /** Awake: start from an empty map and load the clips found under the samples folder. */
    constructor Awake(clips: seq<Clip>)
      ensures Valid()
      ensures sampleMap == Loaded(map[], clips)
    {
      sampleMap := map[];
      new;
      LoadAllSamples(clips);
    }

    /** Add every clip whose name matches the convention; a later clip with the same key
        replaces the earlier one; the overflow exception of `int.Parse` ends the loading. */
    method LoadAllSamples(clips: seq<Clip>)
      requires Valid()
      modifies this
      ensures Valid()
      ensures sampleMap == Loaded(old(sampleMap), clips)
    {
      var i := 0;
      while i < |clips|
        invariant 0 <= i <= |clips|
        invariant Loaded(sampleMap, clips[i..]) == Loaded(old(sampleMap), clips)
        invariant NamesAgree(sampleMap)
      {
        var clip := clips[i];
        assert clips[i..][0] == clip && clips[i..][1..] == clips[i + 1..];
        var parsed := ParseClipName(clip.name);
        if parsed.Overflow? {
          return;
        }
        if parsed.Parsed? {
          NamesAgreeStore(sampleMap, parsed.key, clip);
          sampleMap := sampleMap[parsed.key := clip];
        }
        i := i + 1;
      }
    }

    /** For one string, per pickup: the recorded frets 0..21 with their clips and notes. */
    method GetSamplesForString(stringNum: int) returns (result: map<Pickup, map<int, (Clip, int)>>)
      ensures forall p: Pickup :: p in result
      ensures forall p: Pickup, f: int :: f in result[p] <==>
        0 <= f <= HighestSampledFret && SampleKey(p, stringNum, f) in sampleMap
      ensures forall p: Pickup, f: int :: f in result[p] ==>
        result[p][f] == (sampleMap[SampleKey(p, stringNum, f)], OpenNote(stringNum) + f)
    {
      result := map[];
      var pickups := [Neck, Middle, Bridge];
      for i := 0 to |pickups|
        invariant forall p: Pickup :: p in result <==> p in pickups[..i]
        invariant forall p: Pickup, f: int :: p in result ==> (f in result[p] <==>
          0 <= f <= HighestSampledFret && SampleKey(p, stringNum, f) in sampleMap)
        invariant forall p: Pickup, f: int :: p in result && f in result[p] ==>
          result[p][f] == (sampleMap[SampleKey(p, stringNum, f)], OpenNote(stringNum) + f)
      {
        var p := pickups[i];
        var frets: map<int, (Clip, int)> := map[];
        for fret := 0 to HighestSampledFret + 1
          invariant forall f: int :: f in frets <==> 0 <= f < fret && SampleKey(p, stringNum, f) in sampleMap
          invariant forall f: int :: f in frets ==> frets[f] == (sampleMap[SampleKey(p, stringNum, f)], OpenNote(stringNum) + f)
        {
          if SampleKey(p, stringNum, fret) in sampleMap {
            var midi := OpenNote(stringNum) + fret;
            frets := frets[fret := (sampleMap[SampleKey(p, stringNum, fret)], midi)];
          }
        }
        result := result[p := frets];
      }
      assert pickups[..|pickups|] == pickups;
      forall p: Pickup ensures p in pickups {
        match p
        case Neck => assert pickups[0] == p;
        case Middle => assert pickups[1] == p;
        case Bridge => assert pickups[2] == p;
      }
    }

    /** Resolve a MIDI note to a clip: strings 6 to 1, exact fret first, else the nearest
        recorded fret on that string, else the next string; None when nothing is found. */
    method GetClipForNote(midiNote: int, pickup: Pickup) returns (clip: Option<Clip>)
      requires IsInt32(midiNote)
      ensures clip == ClipForNote(sampleMap, midiNote, pickup)
    {
      var stringNum := 6;
      while stringNum >= 1
        invariant 0 <= stringNum <= 6
        invariant ResolveFrom(sampleMap, midiNote, pickup, stringNum) == Resolve(sampleMap, midiNote, pickup)
        decreases stringNum
      {
        var openNote := OpenNote(stringNum);
        var fret := Wrap(midiNote - openNote);
        WrappedFret(midiNote, stringNum);
        if fret >= 0 && fret <= HighestSampledFret {
          var exact := SampleKey(pickup, stringNum, fret);
          if exact in sampleMap {
            assert CandidateKey(sampleMap, midiNote, pickup, stringNum) == Some(exact);
            return Some(sampleMap[exact]);
          }
          var nearestFret := NearestRecordedFretScan(fret);
          var nearest := SampleKey(pickup, stringNum, nearestFret);
          if nearest in sampleMap {
            assert CandidateKey(sampleMap, midiNote, pickup, stringNum) == Some(nearest);
            return Some(sampleMap[nearest]);
          }
        }
        assert CandidateKey(sampleMap, midiNote, pickup, stringNum).None?;
        stringNum := stringNum - 1;
      }
      return None;
    }
  }
}
