/** The recorder and the save validation of the soundboard hook: a flag, a
    log of sound snapshots appended while the flag is set, and the song a
    save builds from them. */
module Recorder {
  import opened Maybe
  import opened Sounds
  import opened Soundboard

  /** `startRecording()`: set the flag and empty the log. */
  function StartRecording(b: Board): (r: Board)
    ensures r.isRecording && r.recorded == []
    ensures r.(isRecording := b.isRecording, recorded := b.recorded) == b
    ensures Valid(b) ==> Valid(r)
  {
    b.(isRecording := true, recorded := [])
  }

  /** `stopRecording()`: clear the flag; the log is kept as it is. */
  function StopRecording(b: Board): (r: Board)
    ensures !r.isRecording && r.recorded == b.recorded
    ensures r.(isRecording := b.isRecording) == b
    ensures Valid(b) ==> Valid(r)
  {
    b.(isRecording := false)
  }

  /** `recordSound(s)`: append the snapshot `s` while recording; otherwise
      change nothing. */
  function RecordSound(b: Board, s: Sound): (r: Board)
    ensures b.isRecording ==> r.recorded == b.recorded + [s]
    ensures !b.isRecording ==> r == b
    ensures r.(recorded := b.recorded) == b
    ensures Valid(b) ==> Valid(r)
  {
    if b.isRecording then b.(recorded := b.recorded + [s]) else b
  }

  /** `recordSound` called for each of `xs`, in order. */
  function RecordAll(b: Board, xs: seq<Sound>): Board
    decreases |xs|
  {
    if |xs| == 0 then b else RecordAll(RecordSound(b, xs[0]), xs[1..])
  }

  /** While recording, calls of `recordSound` append their snapshots in call
      order; while not recording they leave the log alone.  Nothing but the
      log changes. */
  lemma {:induction false} RecordAllAppends(b: Board, xs: seq<Sound>)
    ensures b.isRecording ==> RecordAll(b, xs).recorded == b.recorded + xs
    ensures !b.isRecording ==> RecordAll(b, xs).recorded == b.recorded
    ensures RecordAll(b, xs).(recorded := b.recorded) == b
    decreases |xs|
  {
    if |xs| > 0 {
      RecordAllAppends(RecordSound(b, xs[0]), xs[1..]);
      assert b.recorded + [xs[0]] + xs[1..] == b.recorded + xs;
    }
  }

  /** A recording session: start, `N` calls of `recordSound`, stop.  The
      log holds exactly those `N` snapshots in call order, and a later call
      of `recordSound` does not change it. */
  lemma RecordingSession(b: Board, xs: seq<Sound>, late: Sound)
    ensures var r := StopRecording(RecordAll(StartRecording(b), xs));
      && !r.isRecording
      && r.recorded == xs
      && |r.recorded| == |xs|
      && RecordSound(r, late).recorded == xs
  {
    RecordAllAppends(StartRecording(b), xs);
  }

  /** Why a save was refused. */
  datatype SaveError = EmptySongName

  /** `saveSong()` with song id `id` (a fresh UUID in the hook): refused when
      the song name is empty, otherwise a song with the current name and
      exactly the current log.  Only the returned song is modelled: the
      navigation to the saved song's address that follows a successful save
      is not part of this model. */
  function SaveSong(b: Board, id: nat): (r: Result<Song, SaveError>)
    ensures r.Err? <==> |b.songName| == 0
    ensures r.Err? ==> r.error == EmptySongName
    ensures r.Ok? ==> r.value.id == id && r.value.name == b.songName && r.value.sounds == b.recorded
  {
    if |b.songName| == 0 then Err(EmptySongName)
    else Ok(Song(id, b.songName, b.recorded))
  }

  /** Naming and saving a recording session saves exactly the recorded
      snapshots under that name; with an empty name nothing is saved. */
  lemma RecordThenSave(b: Board, xs: seq<Sound>, name: string, id: nat)
    ensures var r := SetSongName(StopRecording(RecordAll(StartRecording(b), xs)), name);
      SaveSong(r, id) == (if name == "" then Err(EmptySongName) else Ok(Song(id, name, xs)))
  {
    var r0 := RecordAll(StartRecording(b), xs);
    RecordAllAppends(StartRecording(b), xs);
    assert r0.recorded == xs;
    var r := SetSongName(StopRecording(r0), name);
    assert r.recorded == xs && r.songName == name;
    assert |name| == 0 <==> name == "";
  }
}
