/** The board invariant is kept by every transition, and what each
    transition does to the sound it targets and to the live timers. */
module Invariants {
  import opened Maybe
  import opened Catalog
  import opened Intervals
  import opened Sounds
  import opened Scheduler
  import opened Soundboard

  /** On a valid board no two sounds hold the same handle: the timer behind
      a handle names one owner, and ids are distinct. */
  lemma HandlesDistinct(b: Board)
    requires Valid(b)
    ensures forall i, j :: 0 <= i < |b.sounds| && 0 <= j < |b.sounds| && i != j && b.sounds[i].loopInterval.Some? ==>
      b.sounds[j].loopInterval != b.sounds[i].loopInterval
  {
    forall i, j | 0 <= i < |b.sounds| && 0 <= j < |b.sounds| && i != j && b.sounds[i].loopInterval.Some?
      ensures b.sounds[j].loopInterval != b.sounds[i].loopInterval
    {
      assert b.sounds[i] in b.sounds && b.sounds[j] in b.sounds;
    }
  }

  /** Replacing a sound whose handle no other sound holds swaps its handle
      for the new one in the set of held handles. */
  lemma HandlesReplace(ss: seq<Sound>, i: nat, s': Sound)
    requires i < |ss|
    requires forall j :: 0 <= j < |ss| && j != i && ss[i].loopInterval.Some? ==>
      ss[j].loopInterval != ss[i].loopInterval
    ensures Handles(ss[i := s']) == Handles(ss) - Handles([ss[i]]) + Handles([s'])
  {
    var ss' := ss[i := s'];
    forall h | h in Handles(ss')
      ensures h in Handles(ss) - Handles([ss[i]]) + Handles([s'])
    {
      var s :| s in ss' && s.loopInterval == Some(h);
      var j :| 0 <= j < |ss'| && ss'[j] == s;
      if j != i {
        assert ss[j] in ss;
      }
    }
    forall h | h in Handles(ss) - Handles([ss[i]]) + Handles([s'])
      ensures h in Handles(ss')
    {
      if h in Handles([s']) {
        assert ss'[i] in ss';
      } else {
        var s :| s in ss && s.loopInterval == Some(h);
        var j :| 0 <= j < |ss| && ss[j] == s;
        assert j != i;
        assert ss'[j] in ss';
      }
    }
  }

  /** Dropping an id distributes over concatenation. */
  lemma {:induction false} WithoutAppend(xs: seq<Sound>, ys: seq<Sound>, id: SoundId)
    ensures Without(xs + ys, id) == Without(xs, id) + Without(ys, id)
    decreases |xs|
  {
    if |xs| == 0 {
      assert xs + ys == ys;
    } else {
      var zs := xs + ys;
      assert zs[0] == xs[0] && zs[1..] == xs[1..] + ys;
      WithoutAppend(xs[1..], ys, id);
    }
  }

  /** With distinct ids, dropping one id removes exactly one position. */
  lemma WithoutAt(ss: seq<Sound>, id: SoundId, i: nat)
    requires UniqueIds(ss)
    requires i < |ss| && ss[i].id == id
    ensures Without(ss, id) == ss[..i] + ss[i + 1..]
  {
    var pre, post := ss[..i], ss[i + 1..];
    assert ss == pre + ([ss[i]] + post);
    NoIdIn(ss, id, i, 0, i);
    NoIdIn(ss, id, i, i + 1, |ss|);
    WithoutAppend(pre, [ss[i]] + post, id);
    WithoutAppend([ss[i]], post, id);
  }

  /** With distinct ids, a slice that leaves out the position holding `id`
      holds no sound with that id. */
  lemma NoIdIn(ss: seq<Sound>, id: SoundId, i: nat, lo: nat, hi: nat)
    requires UniqueIds(ss)
    requires i < |ss| && ss[i].id == id
    requires lo <= hi <= |ss| && (i < lo || hi <= i)
    ensures forall s :: s in ss[lo..hi] ==> s.id != id
  {
    forall s | s in ss[lo..hi] ensures s.id != id {
      var j :| 0 <= j < hi - lo && ss[lo..hi][j] == s;
      assert s == ss[lo + j];
    }
  }

  lemma UniqueIdsRemoveAt(ss: seq<Sound>, i: nat)
    requires UniqueIds(ss) && i < |ss|
    ensures UniqueIds(ss[..i] + ss[i + 1..])
  {
    var r := ss[..i] + ss[i + 1..];
    forall p, q | 0 <= p < q < |r| ensures r[p].id != r[q].id {
      var p' := if p < i then p else p + 1;
      var q' := if q < i then q else q + 1;
      assert r[p] == ss[p'] && r[q] == ss[q'];
    }
  }

  /** Dropping a position whose handle no other sound holds drops exactly
      that handle. */
  lemma HandlesRemoveAt(ss: seq<Sound>, i: nat)
    requires i < |ss|
    requires forall j :: 0 <= j < |ss| && j != i && ss[i].loopInterval.Some? ==>
      ss[j].loopInterval != ss[i].loopInterval
    ensures Handles(ss[..i] + ss[i + 1..]) == Handles(ss) - Handles([ss[i]])
  {
    var r := ss[..i] + ss[i + 1..];
    forall h | h in Handles(r) ensures h in Handles(ss) - Handles([ss[i]]) {
      var s :| s in r && s.loopInterval == Some(h);
      var p :| 0 <= p < |r| && r[p] == s;
      var j := if p < i then p else p + 1;
      assert ss[j] == s;
    }
    forall h | h in Handles(ss) - Handles([ss[i]]) ensures h in Handles(r) {
      var s :| s in ss && s.loopInterval == Some(h);
      var j :| 0 <= j < |ss| && ss[j] == s;
      assert j != i;
      var p := if j < i then j else j - 1;
      assert r[p] == s;
    }
  }

  /** `removeSound` on a valid board keeps it valid, cancels the removed
      sound's interval, and leaves no live timer that plays that id: after
      removal nothing attributable to the sound fires again.  With distinct
      ids, exactly the one position holding the id is dropped. */
  lemma RemoveValid(b: Board, id: SoundId)
    requires Valid(b)
    ensures Valid(RemoveSound(b, id))
    ensures forall h :: h in RemoveSound(b, id).timers.live ==>
      RemoveSound(b, id).timers.live[h].sound.id != id
    ensures forall i :: 0 <= i < |b.sounds| && b.sounds[i].id == id ==>
      RemoveSound(b, id).sounds == b.sounds[..i] + b.sounds[i + 1..]
  {
    var r := RemoveSound(b, id);
    var ss := b.sounds;
    match Find(ss, id)
    case None =>
      forall h | h in b.timers.live ensures b.timers.live[h].sound.id != id {
        var s :| s in ss && s.loopInterval == Some(h);
      }
    case Some(i) =>
      WithoutAt(ss, id, i);
      HandlesDistinct(b);
      HandlesRemoveAt(ss, i);
      UniqueIdsRemoveAt(ss, i);
      assert forall s :: s in r.sounds ==> s in ss;
      assert NoOrphans(r);
      forall h | h in r.timers.live ensures r.timers.live[h].sound.id != id {
        var s :| s in r.sounds && s.loopInterval == Some(h);
      }
      assert forall k :: 0 <= k < |ss| && ss[k].id == id ==> k == i;
  }

  /** `updatePattern` keeps the board valid and leaves every running
      interval alone: a playing loop keeps the pattern it captured. */
  lemma UpdatePatternValid(b: Board, id: SoundId, p: seq<int>)
    requires Valid(b)
    ensures Valid(UpdatePattern(b, id, p))
    ensures UpdatePattern(b, id, p).timers == b.timers
  {
    var r := UpdatePattern(b, id, p);
    SameHandles(b.sounds, r.sounds);
    forall s | s in r.sounds
      ensures s.id < r.nextId && (s.isPlaying <==> s.loopInterval.Some?)
      ensures s.loopInterval.Some? ==>
        s.loopInterval.value in r.timers.live && r.timers.live[s.loopInterval.value].sound.id == s.id
    {
      var j :| 0 <= j < |r.sounds| && r.sounds[j] == s;
      assert b.sounds[j] in b.sounds;
    }
    assert UniqueIds(r.sounds) by {
      forall i, j | 0 <= i < j < |r.sounds| ensures r.sounds[i].id != r.sounds[j].id {
        assert r.sounds[i].id == b.sounds[i].id && r.sounds[j].id == b.sounds[j].id;
      }
    }
  }

  /** Sound lists that agree position by position on everything but the
      pattern hold the same handles. */
  lemma SameHandles(ss: seq<Sound>, rs: seq<Sound>)
    requires |rs| == |ss|
    requires forall i :: 0 <= i < |ss| ==> rs[i] == ss[i].(pattern := rs[i].pattern)
    ensures Handles(rs) == Handles(ss)
  {
    forall h | h in Handles(rs) ensures h in Handles(ss) {
      var s :| s in rs && s.loopInterval == Some(h);
      var j :| 0 <= j < |rs| && rs[j] == s;
      assert ss[j] in ss;
    }
    forall h | h in Handles(ss) ensures h in Handles(rs) {
      var s :| s in ss && s.loopInterval == Some(h);
      var j :| 0 <= j < |ss| && ss[j] == s;
      assert rs[j] in rs;
    }
  }

  lemma UniqueIdsTail(ss: seq<Sound>)
    requires UniqueIds(ss) && |ss| > 0
    ensures UniqueIds(ss[1..])
    ensures forall s :: s in ss[1..] ==> s.id != ss[0].id
  {
    var tail := ss[1..];
    forall p, q | 0 <= p < q < |tail| ensures tail[p].id != tail[q].id {
      assert tail[p] == ss[p + 1] && tail[q] == ss[q + 1];
    }
    forall s | s in tail ensures s.id != ss[0].id {
      var j :| 0 <= j < |tail| && tail[j] == s;
      assert ss[0].id != ss[j + 1].id;
    }
  }

  /** With distinct ids, the `map` of `toggleSound` changes one position. */
  lemma {:induction false} ToggleAllAt(ss: seq<Sound>, id: SoundId, i: nat, t: Table<Loop>, g: int)
    requires UniqueIds(ss)
    requires i < |ss| && ss[i].id == id
    ensures ToggleAll(ss, id, t, g) == (ss[i := ToggleOne(ss[i], t, g).0], ToggleOne(ss[i], t, g).1)
    decreases |ss|
  {
    var tail := ss[1..];
    UniqueIdsTail(ss);
    var (s', t') := ToggleOne(ss[i], t, g);
    if i == 0 {
      assert ToggleAll(tail, id, t', g) == (tail, t');
      assert ToggleAll(ss, id, t, g) == ([s'] + tail, t');
      assert ss[0 := s'] == [s'] + tail;
    } else {
      assert ss[i] in tail;
      ToggleAllAt(tail, id, i - 1, t, g);
      assert ToggleAll(ss, id, t, g) == ([ss[0]] + tail[i - 1 := s'], t');
      assert ss[i := s'] == [ss[0]] + tail[i - 1 := s'];
    }
  }

  /** The ids of two lists that agree on ids position by position. */
  lemma UniqueIdsSameIds(ss: seq<Sound>, rs: seq<Sound>)
    requires UniqueIds(ss) && |rs| == |ss|
    requires forall j :: 0 <= j < |ss| ==> rs[j].id == ss[j].id
    ensures UniqueIds(rs)
  {
    forall p, q | 0 <= p < q < |rs| ensures rs[p].id != rs[q].id {
      assert rs[p].id == ss[p].id && rs[q].id == ss[q].id;
    }
  }

  /** Stopping a playing sound on a valid board: its handle goes, its timer
      is cleared, the board stays valid. */
  lemma StopValid(b: Board, i: nat)
    requires Valid(b)
    requires i < |b.sounds| && b.sounds[i].isPlaying
    ensures var s := b.sounds[i];
      var (s', t') := ToggleOne(s, b.timers, b.globalBpm);
      && s' == s.(isPlaying := false, loopInterval := None)
      && t'.live.Keys == b.timers.live.Keys - {s.loopInterval.value}
      && Valid(b.(sounds := b.sounds[i := s'], timers := t'))
  {
    var s := b.sounds[i];
    assert s in b.sounds;
    var (s', t') := ToggleOne(s, b.timers, b.globalBpm);
    var r := b.(sounds := b.sounds[i := s'], timers := t');
    HandlesDistinct(b);
    HandlesReplace(b.sounds, i, s');
    UniqueIdsSameIds(b.sounds, r.sounds);
    forall x | x in r.sounds
      ensures x.id < r.nextId && (x.isPlaying <==> x.loopInterval.Some?)
      ensures x.loopInterval.Some? ==>
        x.loopInterval.value in r.timers.live && r.timers.live[x.loopInterval.value].sound.id == x.id
    {
      var j :| 0 <= j < |r.sounds| && r.sounds[j] == x;
      if j != i {
        assert b.sounds[j] in b.sounds;
      }
    }
  }

  /** Starting a stopped sound on a valid board: it gets a handle no timer
      held, whose timer starts at step 0 on the sound as it was; the board
      stays valid. */
  lemma StartValid(b: Board, i: nat)
    requires Valid(b)
    requires i < |b.sounds| && !b.sounds[i].isPlaying
    ensures var s := b.sounds[i];
      var (s', t') := ToggleOne(s, b.timers, b.globalBpm);
      && s' == s.(isPlaying := true, loopInterval := s'.loopInterval)
      && s'.loopInterval.Some? && s'.loopInterval.value !in b.timers.live
      && t'.live == b.timers.live[s'.loopInterval.value := Start(s, b.globalBpm)]
      && Valid(b.(sounds := b.sounds[i := s'], timers := t'))
  {
    var s := b.sounds[i];
    assert s in b.sounds;
    var (s', t') := ToggleOne(s, b.timers, b.globalBpm);
    var r := b.(sounds := b.sounds[i := s'], timers := t');
    HandlesDistinct(b);
    HandlesReplace(b.sounds, i, s');
    UniqueIdsSameIds(b.sounds, r.sounds);
    forall x | x in r.sounds
      ensures x.id < r.nextId && (x.isPlaying <==> x.loopInterval.Some?)
      ensures x.loopInterval.Some? ==>
        x.loopInterval.value in r.timers.live && r.timers.live[x.loopInterval.value].sound.id == x.id
    {
      var j :| 0 <= j < |r.sounds| && r.sounds[j] == x;
      if j != i {
        assert b.sounds[j] in b.sounds;
      }
    }
  }

  /** `toggleSound` on a valid board flips the targeted sound: a playing one
      stops, gives up its handle and its interval is cleared; a stopped one
      plays under a fresh handle whose interval starts at step 0 with the
      sound as it was.  Every other sound, and the board invariant, are
      kept. */
  lemma ToggleValid(b: Board, i: nat)
    requires Valid(b)
    requires i < |b.sounds|
    ensures var r := ToggleSound(b, b.sounds[i].id);
      && Valid(r)
      && |r.sounds| == |b.sounds|
      && (forall j :: 0 <= j < |b.sounds| && j != i ==> r.sounds[j] == b.sounds[j])
      && r.sounds[i] == b.sounds[i].(isPlaying := !b.sounds[i].isPlaying, loopInterval := r.sounds[i].loopInterval)
      && (b.sounds[i].isPlaying ==>
            && r.sounds[i].loopInterval.None?
            && r.timers.live.Keys == b.timers.live.Keys - {b.sounds[i].loopInterval.value})
      && (!b.sounds[i].isPlaying ==>
            && r.sounds[i].loopInterval.Some?
            && r.sounds[i].loopInterval.value !in b.timers.live
            && r.timers.live == b.timers.live[r.sounds[i].loopInterval.value := Start(b.sounds[i], b.globalBpm)])
  {
    var s := b.sounds[i];
    ToggleAllAt(b.sounds, s.id, i, b.timers, b.globalBpm);
    assert s in b.sounds;
    if s.isPlaying {
      StopValid(b, i);
    } else {
      StartValid(b, i);
    }
  }

  /** One toggle, in short: the board stays valid, and the sound at `i`
      flips and holds a handle exactly when it plays. */
  lemma ToggleFlips(b: Board, i: nat)
    requires Valid(b)
    requires i < |b.sounds|
    ensures var r := ToggleSound(b, b.sounds[i].id);
      && Valid(r)
      && |r.sounds| == |b.sounds|
      && r.sounds[i].isPlaying == !b.sounds[i].isPlaying
      && (r.sounds[i].isPlaying <==> r.sounds[i].loopInterval.Some?)
  {
    ToggleValid(b, i);
  }

  /** `n` runs of the toggle branch on one sound and the timer table. */
  function ToggleOneN(s: Sound, t: Table<Loop>, g: int, n: nat): (Sound, Table<Loop>)
    decreases n
  {
    if n == 0 then (s, t) else ToggleOneN(ToggleOne(s, t, g).0, ToggleOne(s, t, g).1, g, n - 1)
  }

  lemma {:induction false} ToggleOneNext(s: Sound, t: Table<Loop>, g: int, n: nat)
    ensures ToggleOneN(s, t, g, n + 1) == ToggleOne(ToggleOneN(s, t, g, n).0, ToggleOneN(s, t, g, n).1, g)
    decreases n
  {
    if n > 0 {
      ToggleOneNext(ToggleOne(s, t, g).0, ToggleOne(s, t, g).1, g, n - 1);
    }
  }

  /** With distinct ids, one toggle runs the toggle branch on the one
      sound with that id, and the ids stay distinct. */
  lemma ToggleAt(b: Board, i: nat)
    requires UniqueIds(b.sounds)
    requires i < |b.sounds|
    ensures ToggleSound(b, b.sounds[i].id) ==
      b.(sounds := b.sounds[i := ToggleOne(b.sounds[i], b.timers, b.globalBpm).0],
         timers := ToggleOne(b.sounds[i], b.timers, b.globalBpm).1)
    ensures UniqueIds(ToggleSound(b, b.sounds[i].id).sounds)
  {
    var s := b.sounds[i];
    ToggleAllAt(b.sounds, s.id, i, b.timers, b.globalBpm);
    UniqueIdsSameIds(b.sounds, b.sounds[i := ToggleOne(s, b.timers, b.globalBpm).0]);
  }

  /** The toggle branch always leaves the sound holding a handle exactly
      when it plays and touches no other field; from a sound that holds a
      handle exactly when it plays, `n` runs flip its play state `n`
      times. */
  lemma {:induction false} ToggleOneAlternates(s: Sound, t: Table<Loop>, g: int, n: nat)
    requires s.isPlaying <==> s.loopInterval.Some?
    ensures var r := ToggleOneN(s, t, g, n).0;
      && r == s.(isPlaying := r.isPlaying, loopInterval := r.loopInterval)
      && (r.isPlaying <==> (s.isPlaying <==> n % 2 == 0))
      && (r.isPlaying <==> r.loopInterval.Some?)
    decreases n
  {
    if n > 0 {
      ToggleOneAlternates(ToggleOne(s, t, g).0, ToggleOne(s, t, g).1, g, n - 1);
    }
  }

  /** Pressing the toggle of the sound at `i` `n` times, one press after
      another, on a valid board.  Each press runs the toggle branch on that
      sound alone, so the presses strictly alternate: afterwards the sound
      plays exactly when it started stopped and `n` is odd, or started
      playing and `n` is even; it holds a handle exactly when it plays;
      none of its other fields and no other sound changes. */
  method ToggleRepeatedly(b: Board, i: nat, n: nat) returns (r: Board)
    requires Valid(b)
    requires i < |b.sounds|
    ensures r.sounds == b.sounds[i := ToggleOneN(b.sounds[i], b.timers, b.globalBpm, n).0]
    ensures r.timers == ToggleOneN(b.sounds[i], b.timers, b.globalBpm, n).1
    ensures r.(sounds := b.sounds, timers := b.timers) == b
    ensures r.sounds[i] == b.sounds[i].(isPlaying := r.sounds[i].isPlaying, loopInterval := r.sounds[i].loopInterval)
    ensures r.sounds[i].isPlaying <==> (b.sounds[i].isPlaying <==> n % 2 == 0)
    ensures r.sounds[i].isPlaying <==> r.sounds[i].loopInterval.Some?
  {
    var id := b.sounds[i].id;
    var g := b.globalBpm;
    var s := b.sounds[i];
    r := b;
    var k := 0;
    assert b.sounds[i := s] == b.sounds;
    assert s in b.sounds;
    while k < n
      invariant k <= n
      invariant r.sounds == b.sounds[i := ToggleOneN(s, b.timers, g, k).0]
      invariant r.timers == ToggleOneN(s, b.timers, g, k).1
      invariant r.(sounds := b.sounds, timers := b.timers) == b
    {
      ToggleStep(r, b.sounds, i, s, b.timers, k);
      r := ToggleSound(r, id);
      k := k + 1;
    }
    ToggleOneAlternates(s, b.timers, g, n);
  }

  /** One more press, in the terms of `ToggleRepeatedly`'s loop. */
  lemma ToggleStep(r: Board, ss: seq<Sound>, i: nat, s: Sound, t: Table<Loop>, k: nat)
    requires UniqueIds(ss) && i < |ss| && ss[i] == s
    requires s.isPlaying <==> s.loopInterval.Some?
    requires r.sounds == ss[i := ToggleOneN(s, t, r.globalBpm, k).0]
    requires r.timers == ToggleOneN(s, t, r.globalBpm, k).1
    ensures ToggleSound(r, s.id).sounds == ss[i := ToggleOneN(s, t, r.globalBpm, k + 1).0]
    ensures ToggleSound(r, s.id).timers == ToggleOneN(s, t, r.globalBpm, k + 1).1
  {
    var g := r.globalBpm;
    var (s1, t1) := ToggleOneN(s, t, g, k);
    ToggleOneAlternates(s, t, g, k);
    assert r.sounds[i] == s1 && s1.id == s.id;
    UniqueIdsSameIds(ss, r.sounds);
    ToggleAt(r, i);
    ToggleOneNext(s, t, g, k);
    assert r.sounds[i := ToggleOne(s1, t1, g).0] == ss[i := ToggleOne(s1, t1, g).0];
  }

  /** Starting and at once stopping a stopped sound gives back the sound and
      the timer table, but for the handle counter. */
  lemma ToggleOneTwice(s: Sound, t: Table<Loop>, g: int)
    requires !s.isPlaying && s.loopInterval.None? && Issued(t)
    ensures ToggleOne(ToggleOne(s, t, g).0, ToggleOne(s, t, g).1, g).0 == s
    ensures ToggleOne(ToggleOne(s, t, g).0, ToggleOne(s, t, g).1, g).1.live == t.live
  {
    var (s1, t1) := ToggleOne(s, t, g);
    assert t1.live == t.live[t.next := Start(s, g)];
  }

  /** Stopping right after starting restores the board's sounds and its set
      of live timers; only the host's handle counter has moved on. */
  lemma ToggleTwice(b: Board, i: nat)
    requires Valid(b)
    requires i < |b.sounds| && !b.sounds[i].isPlaying
    ensures ToggleSound(ToggleSound(b, b.sounds[i].id), b.sounds[i].id).sounds == b.sounds
    ensures ToggleSound(ToggleSound(b, b.sounds[i].id), b.sounds[i].id).timers.live == b.timers.live
  {
    var s := b.sounds[i];
    assert s in b.sounds;
    ToggleAt(b, i);
    var b1 := ToggleSound(b, s.id);
    ToggleAt(b1, i);
    ToggleOneTwice(s, b.timers, b.globalBpm);
    assert b1.sounds[i := s] == b.sounds;
  }

  /** A firing keeps the board valid: it only moves one step counter. */
  lemma TickValid(b: Board, h: Handle)
    requires Valid(b)
    ensures Valid(TickTimer(b, h).board)
  {
  }

  /** The firings of one host timer are the firings of its callback. */
  lemma {:induction false} TicksRun(b: Board, h: Handle, n: nat)
    requires h in b.timers.live
    ensures Ticks(b, h, n) == Run(b.timers.live[h], n)
    decreases n
  {
    if n > 0 {
      var b1 := TickTimer(b, h).board;
      TicksRun(b1, h, n - 1);
      assert b1.timers.live[h] == Fire(b.timers.live[h]).0;
    }
  }

  /** After pressing play on a stopped sound, firing `k` of its new timer
      triggers the sound's type exactly when `pattern[k mod length]` of the
      pattern it had at that moment is nonzero. */
  lemma PlayThenTicks(b: Board, i: nat, n: nat, k: nat)
    requires Valid(b)
    requires i < |b.sounds| && !b.sounds[i].isPlaying
    requires k < n
    ensures var r := ToggleSound(b, b.sounds[i].id);
      var s := b.sounds[i];
      && r.sounds[i].loopInterval.Some?
      && (Ticks(r, r.sounds[i].loopInterval.value, n)[k].Some? <==>
            (s.pattern.Some? && |s.pattern.value| > 0 && s.pattern.value[k % |s.pattern.value|] != 0))
  {
    ToggleValid(b, i);
    var r := ToggleSound(b, b.sounds[i].id);
    var h := r.sounds[i].loopInterval.value;
    TicksRun(r, h, n);
    RunFromStart(b.sounds[i], b.globalBpm, n, k);
  }

  /** Changing the global tempo does not change what a running timer plays
      or the tempo it took when it started. */
  lemma {:induction false} GlobalTempoKeepsTimers(b: Board, bpm: int, h: Handle, n: nat)
    ensures Ticks(SetGlobalBpm(b, bpm), h, n) == Ticks(b, h, n)
    ensures SetGlobalBpm(b, bpm).timers == b.timers
    decreases n
  {
    if n > 0 {
      var b1 := TickTimer(b, h).board;
      GlobalTempoKeepsTimers(b1, bpm, h, n - 1);
      assert TickTimer(SetGlobalBpm(b, bpm), h).board == SetGlobalBpm(b1, bpm);
    }
  }

  /** A sound's tempo is fixed when it is added: `addSound` stores the global
      tempo of that moment in the sound, and `sound.bpm || globalBPM` falls
      back to the global tempo only when that stored value is zero.  So a
      later change of the global tempo is not picked up when the sound
      starts playing, however often it is stopped and restarted. */
  lemma TempoFixedAtAdd(b: Board, t: SoundType, g2: int)
    requires Valid(b)
    ensures var b1 := SetGlobalBpm(AddSound(b, t), g2);
      var i := |b.sounds|;
      var r := ToggleSound(b1, b1.sounds[i].id);
      && r.sounds[i].loopInterval.Some?
      && r.sounds[i].loopInterval.value in r.timers.live
      && r.timers.live[r.sounds[i].loopInterval.value].bpm == (if b.globalBpm != 0 then b.globalBpm else g2)
  {
    var b1 := SetGlobalBpm(AddSound(b, t), g2);
    assert Valid(b1);
    ToggleValid(b1, |b.sounds|);
  }

  /** Editing a pattern does not change what a running timer plays: the
      interval plays the pattern it captured when playback started. */
  lemma {:induction false} PatternCapturedAtStart(b: Board, id: SoundId, p: seq<int>, h: Handle, n: nat)
    ensures Ticks(UpdatePattern(b, id, p), h, n) == Ticks(b, h, n)
    decreases n
  {
    if n > 0 {
      var b1 := TickTimer(b, h).board;
      PatternCapturedAtStart(b1, id, p, h, n - 1);
      assert TickTimer(UpdatePattern(b, id, p), h).board == UpdatePattern(b1, id, p);
    }
  }

  /** After `clearBoard` on a valid board no timer triggers anything, however
      often the host fires it. */
  lemma {:induction false} ClearSilences(b: Board, h: Handle, n: nat)
    requires Valid(b)
    ensures forall k :: 0 <= k < n ==> Ticks(ClearBoard(b), h, n)[k].None?
  {
    assert h !in ClearBoard(b).timers.live;
  }
}
