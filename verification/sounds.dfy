/** The records the hook keeps: a sound on the board and a saved song. */
module Sounds {
  import opened Maybe
  import opened Catalog
  import opened Intervals

  /** A sound id.  The hook draws a random UUID; the model draws from a
      counter, which makes fresh ids distinct by construction. */
  type SoundId = nat

  /** A sound on the board.  `kind` is the hook's `type` field; the
      optional fields of the TypeScript interface are `Option`s. */
  datatype Sound = Sound(
    id: SoundId,
    name: string,
    kind: SoundType,
    isPlaying: bool,
    loopInterval: Option<Handle>,
    pattern: Option<seq<int>>,
    bpm: Option<int>)

  /** A saved song: a name and the recorded sounds. */
  datatype Song = Song(id: nat, name: string, sounds: seq<Sound>)
}
