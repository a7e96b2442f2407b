# Guitar simulator: note resolution and bookkeeping

This project models the logic layer of a Unity guitar simulator: everything between "play string s, fret f" and the audio source that ends up sounding it, plus the small state machines around it. It covers:

- **Tuning and position lookup.** The standard open-string notes (string 6 = E2 = 40 … string 1 = E4 = 64, default 40), the note of a fretted position, and the inverse search for the best (string, fret) position of a MIDI note.
- **The note sample bank.** Clip names such as `n5_21` (neck pickup, string 5, fret 21) are parsed into keys, a per-string index is built, and a note is resolved to a clip: the exact fret first, else the nearest recorded fret of {0, 7, 14, 21}, trying strings 6 down to 1.
- **The voice pool.** A fixed queue of audio sources handed out round-robin.
- **The two sound front ends.** `GuitarSoundSystem` and `GuitarSoundEngine` each keep an active-note table from (string, fret) to the source playing it. Playing a note first stops the same key (retrigger), and the pitch shift is an integer semitone offset.
- **The MIDI players.** The simple player gives each playable note a timing coroutine at a clamped tempo multiplier. The polyphonic player keeps a list of sounding notes under a concurrency cap and removes the finished ones.
- **The string visual.** Each fret has a reference counter of the notes held on it, and a segment is highlighted exactly when its fret is held.
- **The onboarding step machine and its buttons.** It tracks the current step, whether the run is going or paused, and which steps the plug connections have completed. Each button has a predicate that says whether it can be pressed.
- **The connection gate.** Two cables decide whether the guitar is audible, through a mixer volume and a mute parameter.
- **The pickup switch.** Dragging the switch lever sets a target angle. Releasing it snaps the lever to the nearest of three angles and selects a pickup by threshold.

Modelling conventions:

- **C# `int`.** Arithmetic on C# `int` values is written out with 32-bit wrap-around (module `Int32`).
- **Floats.** Float values are modelled as `real`.
- **Unity objects.** Audio sources are natural-number ids; clips are values with an id and a name.
- **Side effects.** What the components do to Unity (play, stop, start a fade, return a source to the pool, mixer writes, fired events) is appended to a log field, so each method's contract states the exact sequence of effects.
- **Shared tables.** `GetOpenNoteForString`, `GetMIDINoteFromStringAndFret` and `FindBestStringAndFret` appear with identical bodies in several classes. The model defines each of them once, in `Tuning`.

## Model

| member | source | states |
|---|---|---|
| Tuning.OpenNote | guitar_sim/guitar_simulator/Assets/Guitar/GuitarSoundSystem.cs:176-186 | every string index maps to a note in 40..64, and any index outside 1..6 maps to the default 40 |
| Tuning.OpenNotesDescend | guitar_sim/guitar_simulator/Assets/Guitar/NoteSampleBank.cs:73-83 | a higher-numbered (thicker) string has a strictly lower open note, and neighbouring strings are at most five semitones apart |
| Tuning.MidiNote | guitar_sim/guitar_simulator/Assets/Guitar/GuitarSoundEngine.cs:121-135 | the result is a C# int, and it is the open note plus the fret whenever that sum does not overflow |
| Tuning.BestPositionSound | guitar_sim/guitar_simulator/Assets/Guitar/GuitarSoundSystem.cs:55-71 | a position found is a real string 1..6 with a fret in 0..22 whose note is the requested one |
| Tuning.BestFromSound | guitar_sim/guitar_simulator/Assets/Guitar/GuitarSoundSystem.cs:58-67 | scanning down from string s finds a string on which the note fits, with no fitting string above it; it finds nothing exactly when the note fits on none |
| Tuning.BestPositionHighestString | guitar_sim/guitar_simulator/Assets/Guitar/GuitarSoundSystem.cs:58-67 | no string numbered higher than the chosen one could hold the note within frets 0..22 |
| Tuning.BestPositionFails | guitar_sim/guitar_simulator/Assets/Guitar/GuitarSoundSystem.cs:58-70 | the search returns (-1, -1) exactly when the note is below 40 or above 86 |
| Tuning.PositionOfFrettedNote | guitar_sim/guitar_simulator/Assets/Guitar/GuitarSoundSystem.cs:170-174 | the note of any fretted position is found again, on that string or a higher-numbered one, at a position sounding the same note |
| Tuning.WrappedFret | guitar_sim/guitar_simulator/Assets/Guitar/GuitarSoundSystem.cs:61 | the wrapped int subtraction computing the candidate fret equals the true difference whenever that difference is a fret in 0..22 |
| Tuning.FindBestStringAndFret | guitar_sim/guitar_simulator/Assets/Guitar/MidiPlayer.cs:70-86 | the early-return loop over strings 6 down to 1 returns the position the search defines; the same loop modelled for GuitarSoundSystem.cs:55-71 |
| NoteTable.Release | guitar_sim/guitar_simulator/Assets/Guitar/GuitarSoundSystem.cs:127-137 | releasing a source acts only on that source; it begins with an immediate stop exactly when asked to stop immediately, and it returns the source to the pool exactly when stopping immediately in the player that does so |
| NoteTable.NoDuplicatesSnoc | guitar_sim/guitar_simulator/Assets/Guitar/GuitarSoundSystem.cs:145-149 | extending a repetition-free key order by a new key keeps it repetition-free |
| NoteTable.ReleaseAllTouchesOnlyListed | guitar_sim/guitar_simulator/Assets/Guitar/GuitarSoundSystem.cs:143-150 | stopping all notes acts only on sources that some listed key was playing |
| NoteTable.ReleaseAllReleasesEach | guitar_sim/guitar_simulator/Assets/Guitar/GuitarSoundSystem.cs:143-150 | every listed key's source gets its stop or fade |
| NoteTable.ReleaseAllSnoc | guitar_sim/guitar_simulator/Assets/Guitar/GuitarSoundEngine.cs:113-119 | stopping one more key appends exactly that key's release |
| NoteTable.ReleaseAllLength | guitar_sim/guitar_simulator/Assets/Guitar/GuitarSoundSystem.cs:143-150 | stopping all notes sends one effect per note, or two when each source is also returned to the pool |
| NoteTable.ReleasingStep | guitar_sim/guitar_simulator/Assets/Guitar/GuitarSoundSystem.cs:145-149 | one turn of the loop over the copied table keeps the loop invariant that links the snapshot, the remaining table and the effects so far |
| NoteTable.ReleasingDone | guitar_sim/guitar_simulator/Assets/Guitar/GuitarSoundSystem.cs:143-150 | when the loop has emptied the table, it visited every key of the snapshot once and sent exactly the releases of those keys in that order |
| SourcePool.RotateKeepsSources | guitar_sim/guitar_simulator/Assets/Guitar/AudioSourcePool.cs:33-35 | a hand-out keeps the multiset of sources in the queue |
| SourcePool.RotateTimesSplits | guitar_sim/guitar_simulator/Assets/Guitar/AudioSourcePool.cs:31-37 | after k hand-outs (k at most the pool size) the queue is the original rotated left by k |
| SourcePool.HandedPrefix | guitar_sim/guitar_simulator/Assets/Guitar/AudioSourcePool.cs:31-37 | the first k hand-outs return the first k sources of the queue, in order |
| SourcePool.FullCycle | guitar_sim/guitar_simulator/Assets/Guitar/AudioSourcePool.cs:31-37 | after as many hand-outs as there are sources, the queue is back in its original order and every source was handed out once, round-robin |
| SourcePool.NoExhaustion | guitar_sim/guitar_simulator/Assets/Guitar/AudioSourcePool.cs:31-37 | the pool never runs dry: one hand-out beyond a full cycle returns the first source again, even if it is still playing |
| SourcePool.HandedAppend | guitar_sim/guitar_simulator/Assets/Guitar/AudioSourcePool.cs:31-37 | the (k+1)-th hand-out returns the head of the queue as it stands after k hand-outs |
| SourcePool.AudioSourcePool.Awake | guitar_sim/guitar_simulator/Assets/Guitar/AudioSourcePool.cs:13-29 | the fill loop leaves exactly poolSize fresh sources in the queue (none for a non-positive size), none of them playing |
| SourcePool.AudioSourcePool.GetSource | guitar_sim/guitar_simulator/Assets/Guitar/AudioSourcePool.cs:31-37 | on a non-empty queue, returns the old head, moves it to the back and marks it playing |
| SourcePool.AudioSourcePool.StopAllSources | guitar_sim/guitar_simulator/Assets/Guitar/AudioSourcePool.cs:39-49 | stops every queued source in queue order and leaves the queue's contents and order unchanged |
| SampleNames.Lower | guitar_sim/guitar_simulator/Assets/Guitar/NoteSampleBank.cs:28 | lower-casing keeps the length of the name |
| SampleNames.LowerEach | guitar_sim/guitar_simulator/Assets/Guitar/NoteSampleBank.cs:28 | lower-casing maps each character separately |
| SampleNames.TagChar | guitar_sim/guitar_simulator/Assets/Guitar/NoteSampleBank.cs:35-41 | every pickup has a tag letter that reads back as that pickup |
| SampleNames.FirstMatchFrom | guitar_sim/guitar_simulator/Assets/Guitar/NoteSampleBank.cs:23-28 | a reported match position really matches the pattern [nmb][1-6]_[0-9]+ |
| SampleNames.FirstMatchIsLeftmost | guitar_sim/guitar_simulator/Assets/Guitar/NoteSampleBank.cs:23-29 | the unanchored match is the leftmost one, and no match is reported only when there is none |
| SampleNames.DigitRunIsGreedy | guitar_sim/guitar_simulator/Assets/Guitar/NoteSampleBank.cs:23 | the fret part of the match is a run of digits that stops only at a non-digit or at the end of the name |
| SampleNames.ParseClipName | guitar_sim/guitar_simulator/Assets/Guitar/NoteSampleBank.cs:23-43 | a parsed key has a string in 1..6 and a fret that fits a C# int |
| SampleNames.NoMatchMeansNowhere | guitar_sim/guitar_simulator/Assets/Guitar/NoteSampleBank.cs:28-33 | a clip is skipped as non-matching exactly when no position of its lower-cased name matches the pattern |
| SampleNames.DecimalString | guitar_sim/guitar_simulator/Assets/Guitar/NoteSampleBank.cs:43 | a fret number is written as a non-empty run of decimal digits |
| SampleNames.DecimalRoundTrip | guitar_sim/guitar_simulator/Assets/Guitar/NoteSampleBank.cs:43 | reading back the decimal digits of a number gives that number |
| SampleNames.LowerOfCanonical | guitar_sim/guitar_simulator/Assets/Guitar/NoteSampleBank.cs:28 | a canonical clip name is already lower case |
| SampleNames.ParseCanonicalName | guitar_sim/guitar_simulator/Assets/Guitar/NoteSampleBank.cs:35-43 | the round trip: parsing the canonical name of a key gives back that key, with n, m and b for neck, middle and bridge |
| SampleBank.LoadStop | guitar_sim/guitar_simulator/Assets/Guitar/NoteSampleBank.cs:42-43 | loading stops at the first clip whose fret overflows int.Parse, or after the last clip |
| SampleBank.LoadedKeys | guitar_sim/guitar_simulator/Assets/Guitar/NoteSampleBank.cs:17-49 | after loading, a key is present exactly when it was present before or some clip loaded before the stop parses to it |
| SampleBank.LoadedLatest | guitar_sim/guitar_simulator/Assets/Guitar/NoteSampleBank.cs:45 | a key maps to the last loaded clip that parses to it: later clips overwrite earlier ones |
| SampleBank.LoadedUntouched | guitar_sim/guitar_simulator/Assets/Guitar/NoteSampleBank.cs:28-33 | a key that no loaded clip parses to keeps its old entry, or stays absent |
| SampleBank.NamesAgreeStore | guitar_sim/guitar_simulator/Assets/Guitar/NoteSampleBank.cs:45 | storing a clip under the key its name parses to keeps every entry's name consistent with its key |
| SampleBank.LoadedNamesAgree | guitar_sim/guitar_simulator/Assets/Guitar/NoteSampleBank.cs:17-49 | loading keeps every entry's clip name parsing to its own key |
| SampleBank.NearestIndex | guitar_sim/guitar_simulator/Assets/Guitar/NoteSampleBank.cs:108-115 | the scan over the first n recorded frets picks one of them |
| SampleBank.NearestIndexPicksNearest | guitar_sim/guitar_simulator/Assets/Guitar/NoteSampleBank.cs:103-115 | the loop's choice is the recorded fret the closed-form nearest-fret rule gives |
| SampleBank.NearestIndexIsFirstMinimum | guitar_sim/guitar_simulator/Assets/Guitar/NoteSampleBank.cs:108-115 | the scan picks a fret at minimal distance, and every earlier fret is strictly farther (strict `<` keeps the first minimum) |
| SampleBank.NearestRecordedFretIsFirstMinimum | guitar_sim/guitar_simulator/Assets/Guitar/NoteSampleBank.cs:103-115 | the fallback fret is one of 0, 7, 14, 21 at minimal distance, and every smaller recorded fret is strictly farther |
| SampleBank.NearestWithinThree | guitar_sim/guitar_simulator/Assets/Guitar/NoteSampleBank.cs:103-115 | for a fret in 0..21 the fallback is at most three frets away |
| SampleBank.ResolveFrom | guitar_sim/guitar_simulator/Assets/Guitar/NoteSampleBank.cs:88-124 | a resolved key is present in the sample map |
| SampleBank.ResolveFromFirstCandidate | guitar_sim/guitar_simulator/Assets/Guitar/NoteSampleBank.cs:88-124 | the resolved key lies on the first string, counting down, that offers an exact or nearest-fret clip; nothing resolves exactly when no string offers one |
| SampleBank.Resolve | guitar_sim/guitar_simulator/Assets/Guitar/NoteSampleBank.cs:85-125 | a chosen key is a sample of the bank, for the pickup asked for, on one of the six strings |
| SampleBank.ClipForNote | guitar_sim/guitar_simulator/Assets/Guitar/NoteSampleBank.cs:85-125 | a returned clip is the bank's clip for some key of the pickup asked for |
| SampleBank.ResolvedKey | guitar_sim/guitar_simulator/Assets/Guitar/NoteSampleBank.cs:92-121 | the resolved clip's string fits the note within frets 0..21; it is the exact fret when that clip exists, else the nearest recorded fret; no higher string offered a clip |
| SampleBank.ResolvedNoteNearby | guitar_sim/guitar_simulator/Assets/Guitar/NoteSampleBank.cs:85-125 | a resolved sample was recorded at most three semitones from the requested note |
| SampleBank.OutOfRangeHasNoClip | guitar_sim/guitar_simulator/Assets/Guitar/NoteSampleBank.cs:117-124 | a note below 40 or above 85 resolves to no clip, whatever the bank holds |
| SampleBank.FullBankCoversRange | guitar_sim/guitar_simulator/Assets/Guitar/NoteSampleBank.cs:88-124 | with every recorded fret present on every string for the pickup, every note in 40..85 resolves to a clip |
| SampleBank.NearestRecordedFretScan | guitar_sim/guitar_simulator/Assets/Guitar/NoteSampleBank.cs:103-115 | the minimum-distance loop returns a recorded fret at minimal distance, the one the nearest-fret rule defines |
| SampleBank.NoteSampleBank.Awake | guitar_sim/guitar_simulator/Assets/Guitar/NoteSampleBank.cs:11-15 | the bank starts with exactly the samples loaded from the resource clips |
| SampleBank.NoteSampleBank.LoadAllSamples | guitar_sim/guitar_simulator/Assets/Guitar/NoteSampleBank.cs:17-49 | the foreach loop stores each matching clip under its parsed key, stopping at an overflowing fret, as the loading function defines |
| SampleBank.NoteSampleBank.GetSamplesForString | guitar_sim/guitar_simulator/Assets/Guitar/NoteSampleBank.cs:51-71 | the index has an entry for every pickup; its frets are exactly the frets 0..21 the map holds for that pickup and string, each with its clip and the note open + fret |
| SampleBank.NoteSampleBank.GetClipForNote | guitar_sim/guitar_simulator/Assets/Guitar/NoteSampleBank.cs:85-125 | the nested loops return the clip the resolution rule defines, or none |
| SoundSystem.PitchShift | guitar_sim/guitar_simulator/Assets/Guitar/GuitarSoundSystem.cs:104-116 | the shift fits an int, is 0 for an exact sample, and otherwise takes the recorded fret to the requested fret whenever their difference fits an int |
| SoundSystem.PitchShiftReachesFret | guitar_sim/guitar_simulator/Assets/Guitar/GuitarSoundSystem.cs:104-116 | an exact match is not shifted; otherwise the base fret plus the semitone shift is the requested fret |
| SoundSystem.PitchShiftByOffset | guitar_sim/guitar_simulator/Assets/Guitar/GuitarSoundSystem.cs:108-116 | the pitch depends only on the offset fret − baseFret |
| SoundSystem.GuitarSoundSystem.constructor | guitar_sim/guitar_simulator/Assets/Guitar/GuitarSoundSystem.cs:29-53 | starts on the neck pickup with no active notes and nothing sent |
| SoundSystem.GuitarSoundSystem.StopNote | guitar_sim/guitar_simulator/Assets/Guitar/GuitarSoundSystem.cs:123-141 | removes the key and releases its source (an immediate stop also returns the source to the pool); other keys are untouched; an absent key is a no-op |
| SoundSystem.GuitarSoundSystem.PlayNote | guitar_sim/guitar_simulator/Assets/Guitar/GuitarSoundSystem.cs:73-121 | stops the same key first; without a clip or a source the key ends absent; otherwise the next pooled source plays the clip at the resolved shift and the key maps to it |
| SoundSystem.GuitarSoundSystem.StopAllNotes | guitar_sim/guitar_simulator/Assets/Guitar/GuitarSoundSystem.cs:143-150 | the table ends empty and each note held before is released once, in the loop's order |
| SoundSystem.GuitarSoundSystem.OnDisable | guitar_sim/guitar_simulator/Assets/Guitar/GuitarSoundSystem.cs:188-191 | every held note is stopped immediately and its source returned to the pool |
| SoundEngine.IndexOf | guitar_sim/guitar_simulator/Assets/Guitar/GuitarSoundEngine.cs:64 | finds the first occurrence of the separator |
| SoundEngine.Split | guitar_sim/guitar_simulator/Assets/Guitar/GuitarSoundEngine.cs:64 | String.Split yields at least one part, and no part contains the separator |
| SoundEngine.JoinSplit | guitar_sim/guitar_simulator/Assets/Guitar/GuitarSoundEngine.cs:64 | joining the parts with the separator restores the name |
| SoundEngine.SplitJoin | guitar_sim/guitar_simulator/Assets/Guitar/GuitarSoundEngine.cs:64 | splitting a join of separator-free parts gives back those parts |
| SoundEngine.TrimStartIsSuffix | guitar_sim/guitar_simulator/Assets/Guitar/GuitarSoundEngine.cs:66 | int.TryParse skips leading white space and nothing else |
| SoundEngine.TrimEndIsPrefix | guitar_sim/guitar_simulator/Assets/Guitar/GuitarSoundEngine.cs:66 | int.TryParse skips trailing white space and nothing else |
| SoundEngine.TryParseInt | guitar_sim/guitar_simulator/Assets/Guitar/GuitarSoundEngine.cs:66 | a successful parse gives a C# int |
| SoundEngine.TryParseNumeral | guitar_sim/guitar_simulator/Assets/Guitar/GuitarSoundEngine.cs:66 | a decimal numeral within int range parses to its value |
| SoundEngine.TryParseNegativeNumeral | guitar_sim/guitar_simulator/Assets/Guitar/GuitarSoundEngine.cs:66 | a minus sign before a numeral within range parses to the negated value |
| SoundEngine.NameBaseFret | guitar_sim/guitar_simulator/Assets/Guitar/GuitarSoundEngine.cs:64-70 | the base fret read from the second part of the name is a C# int |
| SoundEngine.AsWrittenShift | guitar_sim/guitar_simulator/Assets/Guitar/GuitarSoundEngine.cs:63-74 | the shift fits an int; it is 0 when the name has no parsable fret, and otherwise takes the note of the name's fret on the caller's string to the requested note |
| SoundEngine.CorrectedShift | guitar_sim/guitar_simulator/Assets/Guitar/GuitarSoundEngine.cs:63-74 | the intended shift fits an int; it takes the recorded note of the key the name parses to onto the requested note, and is 0 for a name that does not parse |
| SoundEngine.StartedShift | guitar_sim/guitar_simulator/Assets/Guitar/GuitarSoundEngine.cs:39-74 | over a canonically named bank, the shift StartNote plays with is the played fret minus the resolved sample's fret, and brings that sample to the requested note exactly when it lies on the played string |
| SoundEngine.AsWrittenShiftIsFretOffset | guitar_sim/guitar_simulator/Assets/Guitar/GuitarSoundEngine.cs:63-74 | the shift as written is fret − b (wrapped) when part 1 of the name parses as b, and 0 when it does not |
| SoundEngine.AsWrittenShiftOfCanonical | guitar_sim/guitar_simulator/Assets/Guitar/GuitarSoundEngine.cs:63-74 | for a canonical clip name, the shift as written is the played fret minus the clip's fret, whichever string the clip is on |
| SoundEngine.SplitCanonicalName | guitar_sim/guitar_simulator/Assets/Guitar/GuitarSoundEngine.cs:64 | a canonical name splits into the tag-and-string part and the fret digits |
| SoundEngine.CorrectedShiftFromKey | guitar_sim/guitar_simulator/Assets/Guitar/GuitarSoundEngine.cs:63-74 | the corrected shift takes the resolved sample's own recorded note to the requested one; it is within three semitones, and 0 on an exact match |
| SoundEngine.CorrectedShiftNearby | guitar_sim/guitar_simulator/Assets/Guitar/GuitarSoundEngine.cs:63-74 | in any bank loaded from clip names, the intended shift takes the clip resolved for the note from its own recorded note to the requested note, by at most three semitones |
| SoundEngine.CorrectedShiftOfCanonical | guitar_sim/guitar_simulator/Assets/Guitar/GuitarSoundEngine.cs:63-74 | for a canonical name the corrected shift is the note minus the clip's recorded note |
| SoundEngine.AsWrittenShiftOffByStringGap | guitar_sim/guitar_simulator/Assets/Guitar/GuitarSoundEngine.cs:63-74 | the shift as written differs from the correct one by the gap between the open notes of the clip's string and the played string; the two agree exactly when the clip is on the played string |
| SoundEngine.AsWrittenShiftMisreadsOtherString | guitar_sim/guitar_simulator/Assets/Guitar/GuitarSoundEngine.cs:39-74 | string 1, fret 0 (note 64), with a bank holding only n5_21, resolves to n5_21 and is shifted by -21 semitones as written; the right shift is -2 |
| SoundEngine.ExampleShifts | guitar_sim/guitar_simulator/Assets/Guitar/GuitarSoundEngine.cs:64-74 | for clip n5_21 played as note 64 on string 1, the shift is -21 as written and -2 corrected |
| SoundEngine.ExampleName | guitar_sim/guitar_simulator/Assets/Guitar/NoteSampleBank.cs:23 | the canonical name of (neck, 5, 21) is "n5_21" |
| SoundEngine.ExampleBankResolves | guitar_sim/guitar_simulator/Assets/Guitar/NoteSampleBank.cs:85-125 | a bank loaded from n5_21 alone resolves note 64 on the neck pickup to that clip |
| SoundEngine.GuitarSoundEngine.constructor | guitar_sim/guitar_simulator/Assets/Guitar/GuitarSoundEngine.cs:14-37 | starts on the neck pickup with no active notes and nothing sent |
| SoundEngine.GuitarSoundEngine.StopNote | guitar_sim/guitar_simulator/Assets/Guitar/GuitarSoundEngine.cs:80-95 | removes the key and stops or fades its source; other keys are untouched; an absent key is a no-op |
| SoundEngine.GuitarSoundEngine.StartNote | guitar_sim/guitar_simulator/Assets/Guitar/GuitarSoundEngine.cs:39-78 | stops the same key first; without a clip or a source the key ends absent; otherwise the next pooled source loops the bank's clip for the note and the key maps to it; the shift is the one the code computes (the note asked for minus the note of the clip name's fret on the string played, see Findings) |
| SoundEngine.GuitarSoundEngine.StopAllNotes | guitar_sim/guitar_simulator/Assets/Guitar/GuitarSoundEngine.cs:113-119 | the table ends empty and each note held before is released once |
| SoundEngine.GuitarSoundEngine.OnDisable | guitar_sim/guitar_simulator/Assets/Guitar/GuitarSoundEngine.cs:137-140 | every held note is stopped immediately |
| MidiPlayback.ScheduledFor | guitar_sim/guitar_simulator/Assets/Guitar/MidiPlayer.cs:34-47 | a scheduled note is on a string, within the fretboard, at a position that sounds the file's note number |
| MidiPlayback.ScheduleOf | guitar_sim/guitar_simulator/Assets/Guitar/MidiPlayer.cs:34-47 | at most one coroutine per note of the file, each on a string and within the fretboard |
| MidiPlayback.ScheduledForSound | guitar_sim/guitar_simulator/Assets/Guitar/MidiPlayer.cs:34-47 | a file note gets a coroutine exactly when it lies in 40..86; that coroutine plays a fretted position sounding the note, with the file's times divided by the multiplier |
| MidiPlayback.ScheduleCount | guitar_sim/guitar_simulator/Assets/Guitar/MidiPlayer.cs:42-47 | the number of coroutines started equals the number of file notes in 40..86 |
| MidiPlayback.ScheduleSnoc | guitar_sim/guitar_simulator/Assets/Guitar/MidiPlayer.cs:34-48 | each pass of the loop adds the coroutine of its own note, if any, after those of the earlier notes |
| MidiPlayback.MidiPlayer.constructor | guitar_sim/guitar_simulator/Assets/Guitar/MidiPlayer.cs:9-14 | starts at tempo multiplier 1, not playing, with no coroutines |
| MidiPlayback.MidiPlayer.StopPlayback | guitar_sim/guitar_simulator/Assets/Guitar/MidiPlayer.cs:100-117 | playback is off, the coroutine list is empty, and every note the engine still holds is stopped immediately |
| MidiPlayback.MidiPlayer.LoadAndPlayMidi | guitar_sim/guitar_simulator/Assets/Guitar/MidiPlayer.cs:16-49 | a running playback is stopped first; without an engine nothing starts; otherwise one coroutine per playable note is added in file order |
| MidiPlayback.MidiPlayer.StartCoroutines | guitar_sim/guitar_simulator/Assets/Guitar/MidiPlayer.cs:34-47 | the coroutines started are the schedule of the whole file, appended in file order after those already running; the tempo and the playing flag stay |
| MidiPlayback.MidiPlayer.SetBPMMultiplier | guitar_sim/guitar_simulator/Assets/Guitar/MidiPlayer.cs:51-59 | the multiplier ends in [0.1, 2], equal to the input when already in range; a running playback restarts at the new tempo |
| Mathf.Clamp | guitar_sim/guitar_simulator/Assets/Guitar/MidiPlayer.cs:53 | the result lies in [min, max], and equals the value when the value already does |
| Mathf.ClampIsNearest | guitar_sim/guitar_simulator/Assets/Guitar/PickupSwitchController.cs:115-119 | the clamped value is the point of the range nearest to the input |
| Mathf.LerpBetween | guitar_sim/guitar_simulator/Assets/Guitar/PickupSwitchController.cs:127-143 | a step of the easing lands between the two angles, never overshoots the target, and reaches it when t ≥ 1 |
| PolyphonicPlayback.AfterStartWithinCap | guitar_sim/guitar_simulator/Assets/Scripts/AdvancedMidiPlayer.cs:174-189 | starting a note keeps the list within maxConcurrentNotes |
| PolyphonicPlayback.AfterStartCases | guitar_sim/guitar_simulator/Assets/Scripts/AdvancedMidiPlayer.cs:163-193 | the list changes exactly when the note has a string and the cap is not reached; then one event is appended with the looked-up position and endTime = startTime + duration |
| PolyphonicPlayback.Unfinished | guitar_sim/guitar_simulator/Assets/Scripts/AdvancedMidiPlayer.cs:205-218 | cleanup never lengthens the list |
| PolyphonicPlayback.UnfinishedMembers | guitar_sim/guitar_simulator/Assets/Scripts/AdvancedMidiPlayer.cs:207-217 | an event survives cleanup exactly when it ends after the current time |
| PolyphonicPlayback.CleanupPartitions | guitar_sim/guitar_simulator/Assets/Scripts/AdvancedMidiPlayer.cs:205-218 | the kept and the removed events together are exactly the old list |
| PolyphonicPlayback.UnfinishedAppend | guitar_sim/guitar_simulator/Assets/Scripts/AdvancedMidiPlayer.cs:205-218 | cleanup keeps the order of the events it keeps |
| PolyphonicPlayback.CleanupIdempotent | guitar_sim/guitar_simulator/Assets/Scripts/AdvancedMidiPlayer.cs:205-218 | a second cleanup at the same time removes nothing |
| PolyphonicPlayback.AdvancedMidiPlayer.constructor | guitar_sim/guitar_simulator/Assets/Scripts/AdvancedMidiPlayer.cs:11-18 | starts not playing with no active notes |
| PolyphonicPlayback.AdvancedMidiPlayer.StartNote | guitar_sim/guitar_simulator/Assets/Scripts/AdvancedMidiPlayer.cs:163-193 | the note is appended, with its times divided by the speed, only when it has a string and the list is under the cap |
| PolyphonicPlayback.AdvancedMidiPlayer.CleanupFinishedNotes | guitar_sim/guitar_simulator/Assets/Scripts/AdvancedMidiPlayer.cs:205-218 | the reverse RemoveAt loop removes exactly the events ending at or before the current time and keeps the rest in order |
| PolyphonicPlayback.AdvancedMidiPlayer.StopPlayback | guitar_sim/guitar_simulator/Assets/Scripts/AdvancedMidiPlayer.cs:220-247 | playback is off, the list is empty, and each active event's position is released in list order |
| StringVisual.PressedCounts | guitar_sim/guitar_simulator/Assets/Scripts/Guitar/GuitarStringVisual.cs:192-196 | a press raises that fret's count by one (an absent fret counts as 0), leaves other frets alone, and keeps every count positive |
| StringVisual.ReleasedCounts | guitar_sim/guitar_simulator/Assets/Scripts/Guitar/GuitarStringVisual.cs:213-222 | a release lowers a held fret's count and removes the fret when it reaches zero; an absent fret stays absent; other frets are untouched; counts stay positive |
| StringVisual.ReleaseUndoesPress | guitar_sim/guitar_simulator/Assets/Scripts/Guitar/GuitarStringVisual.cs:187-226 | a release right after a press restores the counters exactly |
| StringVisual.PressTimesPositive | guitar_sim/guitar_simulator/Assets/Scripts/Guitar/GuitarStringVisual.cs:192-196 | any number of presses keeps every stored count at least 1 |
| StringVisual.PressesThenReleases | guitar_sim/guitar_simulator/Assets/Scripts/Guitar/GuitarStringVisual.cs:187-226 | k presses followed by k releases of one fret restore all counters, so that fret ends absent if it was absent before |
| StringVisual.ScanHighlightMeaning | guitar_sim/guitar_simulator/Assets/Scripts/Guitar/GuitarStringVisual.cs:228-248 | after the scan the highlighted fret is the highest held fret; with none held it is -1, unless the old value was outside the segments |
| StringVisual.GuitarStringVisual.constructor | guitar_sim/guitar_simulator/Assets/Scripts/Guitar/GuitarStringVisual.cs:37-48 | one unlit segment per fret 0..numberOfFrets (none without end points), no held notes, nothing highlighted |
| StringVisual.GuitarStringVisual.PlayNoteWithVisuals | guitar_sim/guitar_simulator/Assets/Scripts/Guitar/GuitarStringVisual.cs:187-206 | an out-of-range fret changes nothing; otherwise the fret's count goes up, the sound system plays the note exactly as its PlayNote promises (retrigger fade-out, outcome, active table, log entry with the pitch shift, pool rotation), and the fret's segment lights up as the current one |
| StringVisual.GuitarStringVisual.StopNoteWithVisuals | guitar_sim/guitar_simulator/Assets/Scripts/Guitar/GuitarStringVisual.cs:208-226 | an out-of-range fret changes nothing; otherwise the count goes down, the sound system stops the note, and when the last hold goes the segments are redrawn from the held frets |
| StringVisual.GuitarStringVisual.UpdateAllSegmentMaterials | guitar_sim/guitar_simulator/Assets/Scripts/Guitar/GuitarStringVisual.cs:228-248 | segment i is highlighted exactly when fret i is held, and the current fret becomes the highest held fret that has a segment |
| StringVisual.GuitarStringVisual.ResetAllMaterials | guitar_sim/guitar_simulator/Assets/Scripts/Guitar/GuitarStringVisual.cs:281-293 | no notes held, no segment lit, current fret -1 |
| StepManagement.InitialSteps | guitar_sim/guitar_simulator/Assets/Scripts/GuitarStepManager.cs:381-411 | the manager sets up three steps |
| StepManagement.FirstUncompletedMeaning | guitar_sim/guitar_simulator/Assets/Scripts/GuitarStepManager.cs:439-453 | the search finds the smallest uncompleted step at or after its start, and finds none exactly when all those steps are completed |
| StepManagement.Progress | guitar_sim/guitar_simulator/Assets/Scripts/GuitarStepManager.cs:248-252 | progress lies in [0, 1]; it is 0 before the first step and 1 on the last |
| StepManagement.MovesKeepValid | guitar_sim/guitar_simulator/Assets/Scripts/GuitarStepManager.cs:76-226 | every move keeps the index at -1 or on a step, a run only with steps, and a pause only within a run |
| StepManagement.StartBegins | guitar_sim/guitar_simulator/Assets/Scripts/GuitarStepManager.cs:76-100 | start is a no-op when running or without steps; otherwise it begins a fresh run at index -1 with no completed steps |
| StepManagement.NextStepMoves | guitar_sim/guitar_simulator/Assets/Scripts/GuitarStepManager.cs:149-177 | next does nothing when not running, advances before the last step, and at the last step wraps to 0 when looping or ends the run |
| StepManagement.ResetClears | guitar_sim/guitar_simulator/Assets/Scripts/GuitarStepManager.cs:220-226 | reset stops the run at index -1 with no completed steps and keeps the last completed index |
| StepManagement.RegisterConnectionMarks | guitar_sim/guitar_simulator/Assets/Scripts/GuitarStepManager.cs:416-428 | a connection completes its step and raises the last completed index to the maximum, running or not |
| StepManagement.CheckProceeds | guitar_sim/guitar_simulator/Assets/Scripts/GuitarStepManager.cs:433-460 | on a completed step the cursor moves to the next uncompleted step, skipping only completed ones, or the run ends when none is left; on an uncompleted step nothing changes |
| StepManagement.RegisterDisconnectionReturns | guitar_sim/guitar_simulator/Assets/Scripts/GuitarStepManager.cs:465-498 | a disconnection uncompletes its step and moves the cursor back to the first uncompleted step, which is at or before the disconnected one |
| StepManagement.GuitarStepManager.constructor | guitar_sim/guitar_simulator/Assets/Scripts/GuitarStepManager.cs:54-71 | the three steps are set up and, with autoStart, a run begins |
| StepManagement.GuitarStepManager.StartSteps | guitar_sim/guitar_simulator/Assets/Scripts/GuitarStepManager.cs:76-100 | the state after start is the one the start move defines |
| StepManagement.GuitarStepManager.StopSteps | guitar_sim/guitar_simulator/Assets/Scripts/GuitarStepManager.cs:105-120 | clears running and paused only when running |
| StepManagement.GuitarStepManager.PauseSteps | guitar_sim/guitar_simulator/Assets/Scripts/GuitarStepManager.cs:125-132 | sets paused only when running |
| StepManagement.GuitarStepManager.ResumeSteps | guitar_sim/guitar_simulator/Assets/Scripts/GuitarStepManager.cs:137-144 | clears paused only when running and paused |
| StepManagement.GuitarStepManager.NextStep | guitar_sim/guitar_simulator/Assets/Scripts/GuitarStepManager.cs:149-177 | the state after next is the one the next move defines |
| StepManagement.GuitarStepManager.PreviousStep | guitar_sim/guitar_simulator/Assets/Scripts/GuitarStepManager.cs:182-193 | steps back only when running and past the first step |
| StepManagement.GuitarStepManager.GoToStep | guitar_sim/guitar_simulator/Assets/Scripts/GuitarStepManager.cs:198-205 | jumps to the step only when running and the index names a step |
| StepManagement.GuitarStepManager.SkipCurrentStep | guitar_sim/guitar_simulator/Assets/Scripts/GuitarStepManager.cs:210-215 | when running on a real step, moves on as next does; otherwise nothing changes |
| StepManagement.GuitarStepManager.ResetSteps | guitar_sim/guitar_simulator/Assets/Scripts/GuitarStepManager.cs:220-226 | the state after reset is the one the reset move defines |
| StepManagement.GuitarStepManager.CompleteSteps | guitar_sim/guitar_simulator/Assets/Scripts/GuitarStepManager.cs:231-243 | ends the run: neither running nor paused, everything else unchanged |
| StepManagement.GuitarStepManager.RegisterConnection | guitar_sim/guitar_simulator/Assets/Scripts/GuitarStepManager.cs:416-428 | the state after a connection is the one the connection move defines |
| StepManagement.GuitarStepManager.CheckAndProceedToNextStep | guitar_sim/guitar_simulator/Assets/Scripts/GuitarStepManager.cs:433-460 | the search loop moves the cursor as the proceed-to-next move defines |
| StepManagement.GuitarStepManager.RegisterDisconnection | guitar_sim/guitar_simulator/Assets/Scripts/GuitarStepManager.cs:465-498 | the state after a disconnection is the one the disconnection move defines |
| StepManagement.GuitarStepManager.GetProgress | guitar_sim/guitar_simulator/Assets/Scripts/GuitarStepManager.cs:248-252 | progress lies in [0, 1] |
| StepControl.Interactable | guitar_sim/guitar_simulator/Assets/Scripts/GuitarStepController.cs:141-185 | Start is always enabled; with no run in progress exactly Start and, when there are steps, Reset are; with no steps GoTo, Skip and Reset are disabled |
| StepControl.ButtonsMatchGuards | guitar_sim/guitar_simulator/Assets/Scripts/GuitarStepController.cs:167-177 | the Previous button is enabled exactly when pressing it changes the state; the GoTo and Skip buttons are enabled exactly when the manager's guards let those moves through |
| StepControl.ButtonsChangeState | guitar_sim/guitar_simulator/Assets/Scripts/GuitarStepController.cs:149-181 | Pause and Resume are enabled exactly when they change the state; an enabled Stop ends the run; an enabled Next advances by one; Reset is enabled exactly when there are steps |
| StepControl.ExecuteAction | guitar_sim/guitar_simulator/Assets/Scripts/GuitarStepController.cs:66-112 | with a manager, the state moves exactly as the named action's move defines |
| Connections.AudioSelection | guitar_sim/guitar_simulator/Assets/Scripts/ConnectionManager.cs:166-193 | the connected volume is chosen exactly when fully connected (when the two volumes differ); the mute parameter is 1 exactly when not fully connected and 0 exactly when fully connected |
| Connections.AudioUpdate | guitar_sim/guitar_simulator/Assets/Scripts/ConnectionManager.cs:153-213 | with a mixer, an update writes exactly two parameters |
| Connections.SetGuitarChangesOnlyGuitar | guitar_sim/guitar_simulator/Assets/Scripts/ConnectionManager.cs:107-125 | the guitar setter changes only the guitar flag; it sends something exactly when the flag changes, and then the mixer update followed by the two events |
| Connections.SetAmplifierChangesOnlyAmplifier | guitar_sim/guitar_simulator/Assets/Scripts/ConnectionManager.cs:130-148 | the amplifier setter is the mirror image and never touches the guitar flag |
| Connections.SettersIdempotent | guitar_sim/guitar_simulator/Assets/Scripts/ConnectionManager.cs:111 | calling a setter twice with the same value is the same as calling it once |
| Connections.ResetAndSetAll | guitar_sim/guitar_simulator/Assets/Scripts/ConnectionManager.cs:227-242 | from any state, reset leaves both flags down and set-all leaves both up and fully connected |
| Connections.ConnectionManager.GetConnectionStatus | guitar_sim/guitar_simulator/Assets/Scripts/ConnectionManager.cs:218-222 | the line opens with "Guitar: ", its ninth character gives the guitar flag, and it ends in "Disconnected" exactly when the amplifier is not connected |
| Connections.StatusShape | guitar_sim/guitar_simulator/Assets/Scripts/ConnectionManager.cs:218-222 | every status line opens with "Guitar: " and the guitar's initial, and ends in "Disconnected" exactly for a disconnected amplifier |
| Connections.StatusDeterminesFlags | guitar_sim/guitar_simulator/Assets/Scripts/ConnectionManager.cs:218-222 | the status line shows each flag as Connected or Disconnected, so equal lines mean equal flags |
| Connections.ConnectionManager.constructor | guitar_sim/guitar_simulator/Assets/Scripts/ConnectionManager.cs:39-70 | starts with both cables unplugged and the mixer set to the disconnected, muted sound |
| Connections.ConnectionManager.UpdateAudioState | guitar_sim/guitar_simulator/Assets/Scripts/ConnectionManager.cs:153-213 | sends the mixer update for the current flags, or nothing without a mixer, and changes no flag |
| Connections.ConnectionManager.SetGuitarConnected | guitar_sim/guitar_simulator/Assets/Scripts/ConnectionManager.cs:107-125 | the new flags and effects are the ones the guitar setter defines |
| Connections.ConnectionManager.SetAmplifierConnected | guitar_sim/guitar_simulator/Assets/Scripts/ConnectionManager.cs:130-148 | the new flags and effects are the ones the amplifier setter defines |
| Connections.ConnectionManager.ResetAllConnections | guitar_sim/guitar_simulator/Assets/Scripts/ConnectionManager.cs:227-232 | unplugs the guitar, then the amplifier; both flags end down |
| Connections.ConnectionManager.SetAllConnections | guitar_sim/guitar_simulator/Assets/Scripts/ConnectionManager.cs:237-242 | plugs in the guitar, then the amplifier; both flags end up |
| PickupSwitch.SnapAngleNearest | guitar_sim/guitar_simulator/Assets/Guitar/PickupSwitchController.cs:145-163 | the snapped angle is the neck, middle or bridge angle nearest to the lever, ties going to the earlier one in that order |
| PickupSwitch.SnapSelects | guitar_sim/guitar_simulator/Assets/Guitar/PickupSwitchController.cs:163-178 | with a positive threshold the first pickup within the threshold, in the order neck, middle, bridge, is selected; it comes no later than the snapped pickup, and is that pickup when the angles are a threshold apart |
| PickupSwitch.SnapAlwaysSelects | guitar_sim/guitar_simulator/Assets/Guitar/PickupSwitchController.cs:145-178 | a snap always lands on one of the three angles and selects a pickup within the threshold of it |
| PickupSwitch.DragTarget | guitar_sim/guitar_simulator/Assets/Guitar/PickupSwitchController.cs:110-124 | while dragging, the target angle stays within [bridge, neck] |
| PickupSwitch.PickupSwitchController.constructor | guitar_sim/guitar_simulator/Assets/Guitar/PickupSwitchController.cs:23-72 | starts on the neck pickup, not dragging; with a handle the target is the neck angle and the lever keeps its angle |
| PickupSwitch.PickupSwitchController.BeginDrag | guitar_sim/guitar_simulator/Assets/Guitar/PickupSwitchController.cs:84-98 | a press on the switch starts a drag and moves nothing |
| PickupSwitch.PickupSwitchController.Drag | guitar_sim/guitar_simulator/Assets/Guitar/PickupSwitchController.cs:110-124 | while dragging, the target follows the mouse, clamped to [bridge, neck]; otherwise nothing changes |
| PickupSwitch.PickupSwitchController.EndDrag | guitar_sim/guitar_simulator/Assets/Guitar/PickupSwitchController.cs:99-107 | releasing a drag snaps the lever and selects the pickup the threshold rule gives; without a drag nothing changes |
| PickupSwitch.PickupSwitchController.UpdateSwitchRotation | guitar_sim/guitar_simulator/Assets/Guitar/PickupSwitchController.cs:127-143 | the lever eases toward the target by Lerp and nothing else changes |
| PickupSwitch.PickupSwitchController.SnapToNearestPosition | guitar_sim/guitar_simulator/Assets/Guitar/PickupSwitchController.cs:145-179 | the loop sets the target to the nearest of the three angles and the pickup to the first within the threshold, or keeps the pickup |
| PickupSwitch.PickupSwitchController.SetPickupType | guitar_sim/guitar_simulator/Assets/Guitar/PickupSwitchController.cs:181-192 | the pickup becomes the given one; the sound system's pickup is updated only when the value changes |
| PickupSwitch.PickupSwitchController.SetPickupPosition | guitar_sim/guitar_simulator/Assets/Guitar/PickupSwitchController.cs:194-204 | the target becomes the pickup's angle (neck, middle or bridge) and that pickup is selected |

## Left out

- Float numerics. The pitch ratio `Mathf.Pow(2, n/12)` is left out; the model keeps the integer semitone offset it is computed from. Also left out: the per-string volume `Lerp`, fret geometry, string vibration, and the knob, tremolo and effect controllers.
- Coroutine timing. This covers the fade ramps `FadeOutAndStop`, the `ExecuteSteps` loop, `PlayNoteWithTiming`, `PlayNoteCoroutine` and the players' per-note waits. A fade is recorded as the `FadeOut` effect that starts it, and a timing coroutine as the schedule entry it is started with.
- The polyphonic tick loop `PlayNotesWithPolyphony`, `PlayNotesSequentially` and `PlayMidiFile`. They belong to MIDI file reading and coroutine timing. The loop multiplies a note's start time by the speed, while `StartNote` divides it; only `StartNote`'s division is modelled.
- MIDI file reading (DryWetMidi, the file system, tempo maps). Note numbers, times and lengths are given as inputs.
- Mouse input, raycasts, the camera, `UpdateUI` text, `Debug.Log`, singletons and `FindObjectOfType`. Collaborators are passed explicitly. The pickup switch drag is split into `BeginDrag`, `Drag` and `EndDrag` for the press, move and release branches of `HandleMouseInput`.
- PickupSwitch.PickupSwitchController.BeginDrag: a press frame of `HandleMouseInput` also runs the drag branch with the mouse still where it was pressed; that frame is `BeginDrag` followed by `Drag` with a zero movement, which clamps the target angle to [bridge, neck].
- `NoteSampleBank.GetClipForStringAndFret`, used by `GuitarSoundSystem.PlayNote`, is not part of this model. It is a function parameter (`resolve`) returning the clip, the exact-match flag and the base fret.
- `AudioSourcePool.ReturnSource` is not part of this model. It is recorded as a `ReturnToPool` effect and does not change the pool.
- `GuitarStringsManager` (`StopAllStrings`, its position lookup and visual calls) is not part of this model. `AdvancedMidiPlayer.StartNote` therefore takes the looked-up position as a parameter, and `AdvancedMidiPlayer.StopPlayback` returns the positions it releases.
- A null pool or bank. A missing `AudioSourcePool` in the source's `Start` would make later calls throw; the model always has one. A null `GuitarSoundEngine` in the simple player and a null sound system in the pickup switch are modelled.
- Voice reclaim and pool exhaustion. The code has neither: `GetSource` round-robins and can hand back a playing source (`SourcePool.NoExhaustion`). `GetSource` on an empty queue throws, so it requires a non-empty queue; the callers model an empty pool as the `NoSource` outcome.
- Culture-specific parsing. `int.TryParse` is modelled for ASCII white space, an optional sign and decimal digits; `ToLower` is modelled on ASCII letters.
- `PolyphonicPlayback.AdvancedMidiPlayer.StartNote`: requires a non-zero speed multiplier, because float division by zero gives infinity, which `real` cannot represent. `MidiPlayback.ScheduledFor` requires a non-zero multiplier for the same reason; the clamped multiplier is always at least 0.1.
- StringVisual.GuitarStringVisual.PlayNoteWithVisuals: does not model 32-bit overflow of a fret's counter, which would need more than two billion presses.
- The connection manager's `GetFloat` read-back after the writes, `VerifyMixerParameters` and the unused `mutedVolume` field. They only log. The repeated reset in its `Start` is also left out, because it leaves the same state as `Awake`.
- StepManagement.GuitarStepManager.StartSteps: leaves the index at -1. Unity runs the first stretch of the `ExecuteSteps` coroutine at once, and that would move the index to 0; the coroutine is not modelled.
- PickupSwitch.PickupSwitchController.constructor: the `Start` branch without a handle models only the early return; the missing camera is treated like the missing handle.

## Findings

| source | as written | input that shows it | evidently intended | confidence | as-written member | corrected member |
|---|---|---|---|---|---|---|
| guitar_sim/guitar_simulator/Assets/Guitar/GuitarSoundEngine.cs:63-74 | the base note of the sample is computed from the fret in the clip name on the string the caller played, but `GetClipForNote` may resolve the clip on another string | StartNote(1, 0) is note 64; with a bank holding clip n5_21 it resolves to that clip (string 5, fret 21, recorded note 66); the base note is taken as string 1 + 21 = 85, so the note is shifted by -21 semitones instead of -2 | shift from the sample's own recorded note (its string's open note plus its fret), so the clip sounds the requested note | not executed | SoundEngine.AsWrittenShiftMisreadsOtherString | SoundEngine.CorrectedShiftNearby |

`SoundEngine.GuitarSoundEngine.StartNote` models the program and plays with the shift as written (`SoundEngine.StartedShift` states when that reaches the note); `SoundEngine.CorrectedShift` is the intended shift, and `SoundEngine.CorrectedShiftNearby` proves it reaches the note for every clip the bank resolves.
