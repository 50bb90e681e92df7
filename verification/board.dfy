/** The soundboard hook's state and its transitions, each a total function
    on the state.  The host's interval timers are part of the state, so a
    timer that no sound owns any more is visible. */
module Soundboard {
  import opened Maybe
  import opened Catalog
  import opened Intervals
  import opened Sounds
  import opened Scheduler

  /** Everything the hook keeps, plus the host's timer table and the id
      counter that stands in for random UUIDs. */
  datatype Board = Board(
    sounds: seq<Sound>,
    isRecording: bool,
    recorded: seq<Sound>,
    songName: string,
    globalBpm: int,
    timers: Table<Loop>,
    nextId: SoundId)

  /** The pattern of a newly added sound: one beat in four. */
  const DefaultPattern: seq<int> := [1, 0, 0, 0]

  /** The global tempo the hook starts with. */
  const DefaultBpm: int := 120

  /** The interval handles the sounds hold. */
  function Handles(ss: seq<Sound>): set<Handle>
  {
    set s | s in ss && s.loopInterval.Some? :: s.loopInterval.value
  }

  predicate UniqueIds(ss: seq<Sound>)
  {
    forall i, j :: 0 <= i < j < |ss| ==> ss[i].id != ss[j].id
  }

  /** Ids are distinct and older than the counter, so the next is fresh. */
  predicate FreshIds(b: Board)
  {
    && UniqueIds(b.sounds)
    && (forall s :: s in b.sounds ==> s.id < b.nextId)
  }

  /** A sound holds a handle exactly when it is playing. */
  predicate HandleIffPlaying(ss: seq<Sound>)
  {
    forall s :: s in ss ==> (s.isPlaying <==> s.loopInterval.Some?)
  }

  /** The timer behind a held handle plays the sound that holds it. */
  predicate Owned(b: Board)
  {
    forall s :: s in b.sounds && s.loopInterval.Some? ==>
      s.loopInterval.value in b.timers.live &&
      b.timers.live[s.loopInterval.value].sound.id == s.id
  }

  /** The live timers are exactly the held handles: none is orphaned. */
  predicate NoOrphans(b: Board)
  {
    b.timers.live.Keys == Handles(b.sounds)
  }

  /** The board invariant. */
  predicate Valid(b: Board)
  {
    && FreshIds(b)
    && HandleIffPlaying(b.sounds)
    && Owned(b)
    && NoOrphans(b)
    && Issued(b.timers)
  }

  /** The state the hook starts in. */
  function Initial(): (b: Board)
    ensures Valid(b)
    ensures b.sounds == [] && b.recorded == [] && !b.isRecording
    ensures b.songName == "" && b.globalBpm == DefaultBpm
    ensures b.timers.live == map[]
  {
    Board([], false, [], "", DefaultBpm, Empty(), 0)
  }

  // ---------------------------------------------------------------- addSound

  /** `addSound(t)`: append one stopped sound of type `t`, named after it,
      with the default pattern and the current global tempo. */
  function AddSound(b: Board, t: SoundType): (r: Board)
    ensures |r.sounds| == |b.sounds| + 1
    ensures r.sounds[..|b.sounds|] == b.sounds
    ensures var s := r.sounds[|b.sounds|];
      && s.name == Name(t) && s.kind == t
      && !s.isPlaying && s.loopInterval.None?
      && s.pattern == Some(DefaultPattern) && s.bpm == Some(b.globalBpm)
      && (Valid(b) ==> forall o :: o in b.sounds ==> o.id != s.id)
    ensures r.(sounds := b.sounds, nextId := b.nextId) == b
    ensures Valid(b) ==> Valid(r)
  {
    var s := Sound(b.nextId, Name(t), t, false, None, Some(DefaultPattern), Some(b.globalBpm));
    var r := b.(sounds := b.sounds + [s], nextId := b.nextId + 1);
    assert Handles(r.sounds) == Handles(b.sounds);
    r
  }

  // ------------------------------------------------------------- removeSound

  /** `find`: the index of the first sound with id `id`, if any. */
  function Find(ss: seq<Sound>, id: SoundId): (r: Option<nat>)
    ensures r.Some? ==> r.value < |ss| && ss[r.value].id == id
    ensures r.Some? ==> forall j :: 0 <= j < r.value ==> ss[j].id != id
    ensures r.None? ==> forall s :: s in ss ==> s.id != id
  {
    if |ss| == 0 then None
    else if ss[0].id == id then Some(0)
    else match Find(ss[1..], id)
      case None => None
      case Some(k) => Some(k + 1)
  }

  /** `filter(s => s.id !== id)`. */
  function Without(ss: seq<Sound>, id: SoundId): (r: seq<Sound>)
    ensures forall s :: s in r <==> s in ss && s.id != id
    ensures |r| <= |ss|
    ensures (forall s :: s in ss ==> s.id != id) ==> r == ss
  {
    if |ss| == 0 then []
    else if ss[0].id == id then Without(ss[1..], id)
    else [ss[0]] + Without(ss[1..], id)
  }

  /** `removeSound(id)`: cancel the interval of the first sound with that
      id, then drop every sound with that id.  An unknown id changes
      nothing. */
  function RemoveSound(b: Board, id: SoundId): (r: Board)
    ensures r.sounds == Without(b.sounds, id)
    ensures r.(sounds := b.sounds, timers := b.timers) == b
    ensures r.timers.next == b.timers.next
    ensures forall h :: h in r.timers.live ==> h in b.timers.live && r.timers.live[h] == b.timers.live[h]
    ensures Find(b.sounds, id).Some? ==>
      r.timers.live.Keys == b.timers.live.Keys - Handles([b.sounds[Find(b.sounds, id).value]])
    ensures Find(b.sounds, id).None? ==> r == b
  {
    var timers :=
      match Find(b.sounds, id)
      case Some(i) =>
        (match b.sounds[i].loopInterval
         case Some(h) => ClearInterval(b.timers, h)
         case None => b.timers)
      case None => b.timers;
    b.(sounds := Without(b.sounds, id), timers := timers)
  }

  // ----------------------------------------------------------- updatePattern

  /** `map(s => s.id === id ? { ...s, pattern } : s)`. */
  function WithPattern(ss: seq<Sound>, id: SoundId, p: seq<int>): (r: seq<Sound>)
    ensures |r| == |ss|
    ensures forall i :: 0 <= i < |ss| ==>
      r[i] == (if ss[i].id == id then ss[i].(pattern := Some(p)) else ss[i])
  {
    if |ss| == 0 then []
    else [if ss[0].id == id then ss[0].(pattern := Some(p)) else ss[0]] + WithPattern(ss[1..], id, p)
  }

  /** `updatePattern(id, p)`: every sound with that id gets pattern `p`,
      taken as given (no check of its length or values); only the pattern
      field changes, and the running intervals keep the pattern they
      captured. */
  function UpdatePattern(b: Board, id: SoundId, p: seq<int>): (r: Board)
    ensures |r.sounds| == |b.sounds|
    ensures forall i :: 0 <= i < |b.sounds| ==>
      r.sounds[i] == b.sounds[i].(pattern := r.sounds[i].pattern)
    ensures forall i :: 0 <= i < |b.sounds| ==>
      r.sounds[i].pattern == (if b.sounds[i].id == id then Some(p) else b.sounds[i].pattern)
    ensures r.(sounds := b.sounds) == b
    ensures (forall s :: s in b.sounds ==> s.id != id) ==> r == b
  {
    b.(sounds := WithPattern(b.sounds, id, p))
  }

  // ------------------------------------------------------------- toggleSound

  /** The branch of `toggleSound` taken for a matching sound: a playing
      sound with a handle is stopped and its interval cleared; any other
      sound gets a new interval, with the step counter at 0, and plays. */
  function ToggleOne(s: Sound, t: Table<Loop>, globalBpm: int): (r: (Sound, Table<Loop>))
    ensures r.0 == s.(isPlaying := r.0.isPlaying, loopInterval := r.0.loopInterval)
    ensures r.0.isPlaying <==> r.0.loopInterval.Some?
  {
    if s.isPlaying && s.loopInterval.Some? then
      (s.(isPlaying := false, loopInterval := None), ClearInterval(t, s.loopInterval.value))
    else
      var (t', h) := SetInterval(t, Start(s, globalBpm));
      (s.(isPlaying := true, loopInterval := Some(h)), t')
  }

  /** The `map` of `toggleSound`, left to right, threading the timer table
      through the matching sounds. */
  function ToggleAll(ss: seq<Sound>, id: SoundId, t: Table<Loop>, globalBpm: int): (r: (seq<Sound>, Table<Loop>))
    ensures |r.0| == |ss|
    ensures forall i :: 0 <= i < |ss| ==> r.0[i].id == ss[i].id
    ensures forall i :: 0 <= i < |ss| && ss[i].id != id ==> r.0[i] == ss[i]
    ensures (forall s :: s in ss ==> s.id != id) ==> r == (ss, t)
  {
    if |ss| == 0 then ([], t)
    else
      var (s', t1) := if ss[0].id == id then ToggleOne(ss[0], t, globalBpm) else (ss[0], t);
      var (rest, t2) := ToggleAll(ss[1..], id, t1, globalBpm);
      assert ss == [ss[0]] + ss[1..];
      ([s'] + rest, t2)
  }

  /** `toggleSound(id)`: start or stop the sounds with that id.  Sounds with
      other ids keep every field; an unknown id changes nothing. */
  function ToggleSound(b: Board, id: SoundId): (r: Board)
    ensures |r.sounds| == |b.sounds|
    ensures forall i :: 0 <= i < |b.sounds| && b.sounds[i].id != id ==> r.sounds[i] == b.sounds[i]
    ensures r.(sounds := b.sounds, timers := b.timers) == b
    ensures (forall s :: s in b.sounds ==> s.id != id) ==> r == b
  {
    var (ss, t) := ToggleAll(b.sounds, id, b.timers, b.globalBpm);
    b.(sounds := ss, timers := t)
  }

  // -------------------------------------------------------------- clearBoard

  /** The `forEach` of `clearBoard`: clear the interval of every sound that
      holds one. */
  function ClearAll(t: Table<Loop>, ss: seq<Sound>): (r: Table<Loop>)
    ensures r.live.Keys == t.live.Keys - Handles(ss)
    ensures forall h :: h in r.live ==> r.live[h] == t.live[h]
    ensures r.next == t.next
    decreases |ss|
  {
    if |ss| == 0 then t
    else
      var t1 := if ss[0].loopInterval.Some? then ClearInterval(t, ss[0].loopInterval.value) else t;
      assert ss == [ss[0]] + ss[1..];
      assert Handles(ss) == Handles([ss[0]]) + Handles(ss[1..]);
      ClearAll(t1, ss[1..])
  }

  /** `clearBoard()`: clear every held interval, then empty the board and
      the recording, blank the song name and stop recording.  The global
      tempo is kept. */
  function ClearBoard(b: Board): (r: Board)
    ensures r.sounds == [] && r.recorded == [] && r.songName == "" && !r.isRecording
    ensures r.timers.live.Keys == b.timers.live.Keys - Handles(b.sounds)
    ensures Valid(b) ==> r.timers.live == map[] && Valid(r)
    ensures r.globalBpm == b.globalBpm && r.nextId == b.nextId
  {
    var t := ClearAll(b.timers, b.sounds);
    var r := b.(sounds := [], recorded := [], songName := "", isRecording := false, timers := t);
    assert Handles(r.sounds) == {};
    r
  }

  // ------------------------------------------------------------ timer firing

  /** One firing of a host timer and the sound it triggers, if any. */
  datatype Tick = Tick(board: Board, trigger: Option<SoundType>)

  /** The host fires the interval with handle `h`.  A cleared interval never
      fires; a live one runs its callback, which advances only its own step
      counter. */
  function TickTimer(b: Board, h: Handle): (r: Tick)
    ensures h !in b.timers.live ==> r == Tick(b, None)
    ensures h in b.timers.live ==>
      var l := b.timers.live[h];
      && (r.trigger.Some? <==> Fires(l.sound.pattern, l.step))
      && (r.trigger.Some? ==> r.trigger.value == l.sound.kind)
      && r.board == b.(timers := b.timers.(live := b.timers.live[h := l.(step := l.step + 1)]))
  {
    if h in b.timers.live then
      var (l', t) := Fire(b.timers.live[h]);
      Tick(b.(timers := b.timers.(live := b.timers.live[h := l'])), t)
    else Tick(b, None)
  }

  /** The triggers of `n` firings of the interval with handle `h`. */
  function Ticks(b: Board, h: Handle, n: nat): (ts: seq<Option<SoundType>>)
    ensures |ts| == n
    ensures h !in b.timers.live ==> forall k :: 0 <= k < n ==> ts[k].None?
    decreases n
  {
    if n == 0 then [] else [TickTimer(b, h).trigger] + Ticks(TickTimer(b, h).board, h, n - 1)
  }

  // ----------------------------------------------------------------- setters

  /** `setGlobalBPM(bpm)`: only the global tempo changes.  Running
      intervals keep the tempo they sampled when they started. */
  function SetGlobalBpm(b: Board, bpm: int): (r: Board)
    ensures r.globalBpm == bpm
    ensures r.(globalBpm := b.globalBpm) == b
  {
    b.(globalBpm := bpm)
  }

  /** `setSongName(name)`: only the song name changes. */
  function SetSongName(b: Board, name: string): (r: Board)
    ensures r.songName == name
    ensures r.(songName := b.songName) == b
  {
    b.(songName := name)
  }
}
