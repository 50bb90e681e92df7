/** The sound catalog: the four keys of the predefined sound table.  The
    timbre behind each key (oscillator shape, frequency, duration, gain) is
    audio output and is not modelled; a trigger only names the key. */
module Catalog {
  import opened Maybe

  /** `SoundType`, the key type of the predefined sound table. */
  datatype SoundType = Kick | Hihat | Snare | Bass

  /** The key as a string; a newly added sound uses it as its display name. */
  function Name(t: SoundType): (s: string)
    ensures |s| > 0
    ensures Lookup(s) == Some(t)
  {
    match t
    case Kick => "kick"
    case Hihat => "hihat"
    case Snare => "snare"
    case Bass => "bass"
  }

  /** Indexing the predefined sound table by a string key: only the four
      declared keys are present. */
  function Lookup(key: string): (r: Option<SoundType>)
    ensures r.Some? <==> key in {"kick", "hihat", "snare", "bass"}
  {
    if key == "kick" then Some(Kick)
    else if key == "hihat" then Some(Hihat)
    else if key == "snare" then Some(Snare)
    else if key == "bass" then Some(Bass)
    else None
  }
}
