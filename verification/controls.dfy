/** The Play/Stop button of a sound on the board: toggle the sound, and if
    it was stopped when the button was pressed, record it. */
module Controls {
  import opened Maybe
  import opened Sounds
  import opened Soundboard
  import opened Invariants
  import opened Recorder

  /** Pressing the button of the sound shown at position `i`.  The button
      holds the sound as it was rendered, so the snapshot recorded is the
      sound from before the press. */
  function PressPlay(b: Board, i: nat): Board
    requires i < |b.sounds|
  {
    var s := b.sounds[i];
    var b1 := ToggleSound(b, s.id);
    if !s.isPlaying then RecordSound(b1, s) else b1
  }

  /** On a valid board, a press flips the sound and keeps the board valid.
      Pressing Play while recording logs exactly one snapshot, the stopped
      sound as it was shown; pressing Stop, or pressing Play while not
      recording, leaves the log alone. */
  lemma PressPlayEffect(b: Board, i: nat)
    requires Valid(b)
    requires i < |b.sounds|
    ensures var r := PressPlay(b, i);
      && Valid(r)
      && |r.sounds| == |b.sounds|
      && r.sounds[i].isPlaying == !b.sounds[i].isPlaying
      && (r.sounds[i].isPlaying <==> r.sounds[i].loopInterval.Some?)
      && (!b.sounds[i].isPlaying && b.isRecording ==> r.recorded == b.recorded + [b.sounds[i]])
      && (b.sounds[i].isPlaying || !b.isRecording ==> r.recorded == b.recorded)
      && (forall k :: |b.recorded| <= k < |r.recorded| ==> !r.recorded[k].isPlaying)
  {
    ToggleFlips(b, i);
  }
}
