/** Values the sound components pass around; the engine objects behind them are opaque. */
module Audio {
  /** The three pickup positions, assumed to be the order of the `PickupType` enum, whose
      declaration is not part of this model. */
  datatype Pickup = Neck | Middle | Bridge

  /** An audio clip, known by an identity and by its asset name. */
  datatype Clip = Clip(id: nat, name: string)

  /** An audio source (a voice), known only by its identity. */
  type SourceId = nat

  /** A (string, fret) position on the fretboard: the key of the active-note tables. */
  datatype NoteKey = NoteKey(stringNumber: int, fretNumber: int)

  /** A request the core sends to the playback layer. */
  datatype SoundAction =
    | Play(source: SourceId, clip: Clip, semitones: int, looping: bool)
    | Stop(source: SourceId)
    | FadeOut(source: SourceId)
    | ReturnToPool(source: SourceId)

  datatype Option<T> = None | Some(value: T)
}
