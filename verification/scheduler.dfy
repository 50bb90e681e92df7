/** The step scheduler: what one running `setInterval` callback of
    `toggleSound` does each time it fires, and how long a step lasts. */
module Scheduler {
  import opened Maybe
  import opened Catalog
  import opened Sounds

  /** The state of one running interval callback: the sound as the closure
      captured it when playback started, the tempo sampled then, and the
      step counter. */
  datatype Loop = Loop(sound: Sound, bpm: int, step: nat)

  /** `sound.bpm || globalBPM`: an absent or zero per-sound tempo falls back
      to the global tempo. */
  function EffectiveBpm(bpm: Option<int>, globalBpm: int): (e: int)
    ensures bpm.Some? && bpm.value != 0 ==> e == bpm.value
    ensures bpm.None? || bpm.value == 0 ==> e == globalBpm
  {
    if bpm.Some? && bpm.value != 0 then bpm.value else globalBpm
  }

  /** The interval of one sixteenth-note step, `(60 / bpm) * 1000 / 4`
      milliseconds, over the reals.  A zero tempo gives no finite step. */
  function StepDurationMs(bpm: int): (d: Option<real>)
    ensures d.Some? <==> bpm != 0
    ensures d.Some? ==> d.value * (bpm as real) == 15000.0
  {
    if bpm == 0 then None else Some((60.0 / bpm as real) * 1000.0 / 4.0)
  }

  /** A sound's tempo of 120 gives steps of 125 milliseconds. */
  lemma StepAt120()
    ensures StepDurationMs(120) == Some(125.0)
  {
  }

  /** Whether step `step` of a pattern is active: `pattern &&
      pattern[step % pattern.length]`.  An empty pattern indexes at NaN,
      which is never truthy; a number is truthy when it is nonzero. */
  predicate Fires(pattern: Option<seq<int>>, step: nat)
  {
    pattern.Some? && |pattern.value| > 0 && pattern.value[step % |pattern.value|] != 0
  }

  /** The callback state right after `setInterval` starts playback of `s`:
      the step counter starts at 0. */
  function Start(s: Sound, globalBpm: int): (l: Loop)
    ensures l.step == 0
    ensures l.sound == s
    ensures l.bpm == EffectiveBpm(s.bpm, globalBpm)
  {
    Loop(s, EffectiveBpm(s.bpm, globalBpm), 0)
  }

  /** One firing: trigger the captured sound's type on an active step, and
      advance the step counter on every firing. */
  function Fire(l: Loop): (r: (Loop, Option<SoundType>))
    ensures r.0.sound == l.sound && r.0.bpm == l.bpm
    ensures r.0.step == l.step + 1
    ensures r.1.Some? <==> Fires(l.sound.pattern, l.step)
    ensures r.1.Some? ==> r.1.value == l.sound.kind
  {
    var t := if Fires(l.sound.pattern, l.step) then Some(l.sound.kind) else None;
    (l.(step := l.step + 1), t)
  }

  /** The triggers of `n` consecutive firings, in order. */
  function Run(l: Loop, n: nat): (ts: seq<Option<SoundType>>)
    ensures |ts| == n
    decreases n
  {
    if n == 0 then [] else [Fire(l).1] + Run(Fire(l).0, n - 1)
  }

  /** The state after `n` firings. */
  function After(l: Loop, n: nat): (r: Loop)
    decreases n
  {
    if n == 0 then l else After(Fire(l).0, n - 1)
  }

  /** Firings only move the step counter: `n` of them add `n`. */
  lemma {:induction false} AfterSteps(l: Loop, n: nat)
    ensures After(l, n) == l.(step := l.step + n)
    decreases n
  {
    if n > 0 {
      AfterSteps(Fire(l).0, n - 1);
    }
  }

  /** Firing `k` of a run triggers the captured type exactly when step
      `l.step + k` of the captured pattern is active. */
  lemma {:induction false} RunTriggers(l: Loop, n: nat, k: nat)
    requires k < n
    ensures Run(l, n)[k].Some? <==> Fires(l.sound.pattern, l.step + k)
    ensures Run(l, n)[k].Some? ==> Run(l, n)[k].value == l.sound.kind
    decreases n
  {
    if k > 0 {
      RunTriggers(Fire(l).0, n - 1, k - 1);
    }
  }

  /** A run that starts playback: firing `k` triggers exactly when
      `pattern[k mod length]` is nonzero. */
  lemma RunFromStart(s: Sound, globalBpm: int, n: nat, k: nat)
    requires k < n
    ensures Run(Start(s, globalBpm), n)[k].Some? <==>
      (s.pattern.Some? && |s.pattern.value| > 0 && s.pattern.value[k % |s.pattern.value|] != 0)
  {
    RunTriggers(Start(s, globalBpm), n, k);
  }

  /** The number of triggers in a sequence of firings. */
  function Count(ts: seq<Option<SoundType>>): (c: nat)
    ensures c <= |ts|
  {
    if |ts| == 0 then 0 else (if ts[0].Some? then 1 else 0) + Count(ts[1..])
  }

  /** The number of active (nonzero) steps of a pattern. */
  function ActiveSteps(p: seq<int>): (c: nat)
    ensures c <= |p|
  {
    if |p| == 0 then 0 else (if p[0] != 0 then 1 else 0) + ActiveSteps(p[1..])
  }

  /** How many of the `m` steps from `from` on are active. */
  function ActiveFrom(pattern: Option<seq<int>>, from: nat, m: nat): nat
    decreases m
  {
    if m == 0 then 0 else (if Fires(pattern, from) then 1 else 0) + ActiveFrom(pattern, from + 1, m - 1)
  }

  lemma {:induction false} CountRun(l: Loop, m: nat)
    ensures Count(Run(l, m)) == ActiveFrom(l.sound.pattern, l.step, m)
    decreases m
  {
    if m > 0 {
      CountRun(Fire(l).0, m - 1);
      assert Run(l, m)[1..] == Run(Fire(l).0, m - 1);
    }
  }

  lemma {:induction false} ActiveFromLast(pattern: Option<seq<int>>, from: nat, m: nat)
    ensures ActiveFrom(pattern, from, m + 1) ==
      ActiveFrom(pattern, from, m) + (if Fires(pattern, from + m) then 1 else 0)
    decreases m
  {
    if m > 0 {
      ActiveFromLast(pattern, from + 1, m - 1);
    }
  }

  /** A window of pattern-length steps counts the same wherever it starts. */
  lemma {:induction false} ActiveFromShift(p: seq<int>, from: nat)
    ensures ActiveFrom(Some(p), from, |p|) == ActiveFrom(Some(p), 0, |p|)
    decreases from
  {
    if from > 0 && |p| > 0 {
      var n := |p|;
      ActiveFromShift(p, from - 1);
      ActiveFromLast(Some(p), from, n - 1);
      ModPeriod(from - 1, n);
    }
  }

  /** Steps `a` and `a + n` read the same slot of an `n`-step pattern. */
  lemma ModPeriod(a: nat, n: nat)
    requires n > 0
    ensures (a + n) % n == a % n
  {
    var q, r := a / n, a % n;
    assert a == q * n + r;
    assert a + n == (q + 1) * n + r;
    DivModUnique(a + n, n, q + 1, r);
  }

  lemma DivModUnique(x: nat, n: nat, q: nat, r: nat)
    requires n > 0 && r < n && x == q * n + r
    ensures x % n == r
  {
    var q', r' := x / n, x % n;
    assert x == q' * n + r';
    if q' < q {
      MulMono(q' + 1, q, n);
    } else if q' > q {
      MulMono(q + 1, q', n);
    }
  }

  lemma MulMono(a: nat, b: nat, n: nat)
    requires a <= b
    ensures a * n <= b * n
  {
    assert b * n == a * n + (b - a) * n;
  }

  lemma {:induction false} ActiveFromPrefix(p: seq<int>, j: nat)
    requires j <= |p|
    ensures ActiveFrom(Some(p), j, |p| - j) == ActiveSteps(p[j..])
    decreases |p| - j
  {
    if j < |p| {
      ActiveFromPrefix(p, j + 1);
      DivModUnique(j, |p|, 0, j);
      assert Fires(Some(p), j) <==> p[j..][0] != 0;
      assert p[j..][1..] == p[j + 1..];
    }
  }

  /** Any pattern-length run of consecutive firings, from whatever step it
      starts, triggers exactly as often as the pattern has active steps. */
  lemma {:induction false} WindowCount(l: Loop)
    requires l.sound.pattern.Some?
    ensures Count(Run(l, |l.sound.pattern.value|)) == ActiveSteps(l.sound.pattern.value)
  {
    var p := l.sound.pattern.value;
    CountRun(l, |p|);
    ActiveFromShift(p, l.step);
    ActiveFromPrefix(p, 0);
    assert p[0..] == p;
  }
}
