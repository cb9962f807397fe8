/**
 * Frame-by-frame playback of named animations. Each animation is a list of
 * mesh frames; the meshes themselves are not modelled, only how many there
 * are, so an animation is its name, frame count, frame rate and loop flag.
 * Animations keep their object identity: the playback compares the current
 * animation with a looked-up one by reference, as `PlayAnimation`'s `!=` on
 * `Animation` objects does.
 */
module Animations {
  import opened Wrappers

  /** One loaded animation. Its fields never change after loading. */
  class Clip {
    const name: string
    const frameCount: nat
    const frameRate: real
    const loop: bool

    constructor (name: string, frameCount: nat, frameRate: real, loop: bool)
      ensures this.name == name && this.frameCount == frameCount
      ensures this.frameRate == frameRate && this.loop == loop
    {
      this.name := name;
      this.frameCount := frameCount;
      this.frameRate := frameRate;
      this.loop := loop;
    }
  }

  /** The playback state: loaded animations by name, the current one, the frame index and the frame timer. */
  datatype Playback = Playback(animations: map<string, Clip>, current: Clip?, index: int, timer: real)

  const Initial: Playback := Playback(map[], null, 0, 0.0)

  /** The frame index is 0, or a valid index into the current animation's frames. */
  predicate InRange(s: Playback) {
    0 <= s.index && (s.index == 0 || (s.current != null && s.index < s.current.frameCount))
  }

  /**
   * Switching animation: an unknown name changes nothing; switching to a
   * different animation, or restarting, rewinds index and timer to 0; asking
   * again for the current one without restarting changes nothing.
   */
  function Play(s: Playback, name: string, restart: bool): Playback {
    if name in s.animations && (s.current != s.animations[name] || restart) then
      s.(current := s.animations[name], index := 0, timer := 0.0)
    else
      s
  }

  /**
   * The timer has reached one frame's duration `1 / frameRate`. A zero rate
   * makes the duration infinite in C# `float` arithmetic, so such an
   * animation never advances.
   */
  predicate Due(timer: real, c: Clip) {
    c.frameRate != 0.0 && timer >= 1.0 / c.frameRate
  }

  /** The index after stepping past frame `index`: wrap to 0 when looping, hold the last frame otherwise. */
  function NextIndex(index: int, c: Clip): int {
    if index + 1 >= c.frameCount then (if c.loop then 0 else c.frameCount - 1)
    else index + 1
  }

  /** One update: with a current animation that has frames, add `dt` and step one frame when due. */
  function Tick(s: Playback, dt: real): (r: Playback)
    ensures r.animations == s.animations && r.current == s.current
  {
    if s.current == null || s.current.frameCount == 0 then s
    else
      var c := s.current;
      var t := s.timer + dt;
      if Due(t, c) then s.(timer := t - 1.0 / c.frameRate, index := NextIndex(s.index, c))
      else s.(timer := t)
  }

  /** A non-looping animation that sits on (or past) its last frame. */
  predicate Finished(s: Playback) {
    s.current != null && !s.current.loop && s.index >= s.current.frameCount - 1
  }

  /** The current animation's name, or "None". */
  function NameOf(s: Playback): string {
    if s.current == null then "None" else s.current.name
  }

  /** The frame to draw: none without a current animation or when it has no frames. */
  function FrameOf(s: Playback): (r: Option<int>)
    requires InRange(s)
    ensures r.Some? ==> s.current != null && 0 <= r.value < s.current.frameCount
    ensures r.None? <==> s.current == null || s.current.frameCount == 0
  {
    if s.current == null || s.current.frameCount == 0 then None else Some(s.index)
  }

  /** Frames each animation gets from a folder of `frameCount` numbered files: one per i in 1..frameCount. */
  function FramesLoaded(frameCount: int): nat {
    if frameCount > 0 then frameCount else 0
  }

  /** Loading: the name is (re)bound to the new animation; it becomes current only when nothing was current. */
  function Load(s: Playback, c: Clip): Playback {
    s.(animations := s.animations[c.name := c], current := if s.current == null then c else s.current)
  }

  lemma LoadKeepsRange(s: Playback, c: Clip)
    requires InRange(s)
    ensures InRange(Load(s, c))
  {
  }

  /** The first animation loaded becomes current; once one is current, loading never changes it. */
  lemma LoadCurrent(s: Playback, c: Clip)
    ensures s.current == null ==> Load(s, c).current == c && NameOf(Load(s, c)) == c.name
    ensures s.current != null ==> Load(s, c).current == s.current && Load(s, c).index == s.index
    ensures Load(s, c).animations[c.name] == c
    ensures forall n :: n in s.animations && n != c.name ==> n in Load(s, c).animations && Load(s, c).animations[n] == s.animations[n]
  {
  }

  /**
   * After Play either nothing changed, or the requested (known) animation is
   * current from its first frame; and a rewind without a request to restart
   * happens only when switching to another animation.
   */
  lemma PlayOutcome(s: Playback, name: string, restart: bool)
    ensures var r := Play(s, name, restart);
      r == s || (name in s.animations && r.current == s.animations[name] && r.index == 0 && r.timer == 0.0)
    ensures name !in s.animations ==> Play(s, name, restart) == s
    ensures !restart && Play(s, name, restart) != s ==> s.current != Play(s, name, restart).current
    ensures Play(s, name, restart).animations == s.animations
  {
  }

  /** Asking again for what was just played, without restarting, changes nothing. */
  lemma PlayThenResume(s: Playback, name: string, restart: bool)
    ensures Play(Play(s, name, restart), name, false) == Play(s, name, restart)
  {
  }

  lemma PlayKeepsRange(s: Playback, name: string, restart: bool)
    requires InRange(s)
    ensures InRange(Play(s, name, restart))
  {
  }

  /** Without a current animation with frames, Update does nothing. */
  lemma TickIdle(s: Playback, dt: real)
    requires s.current == null || s.current.frameCount == 0
    ensures Tick(s, dt) == s
  {
  }

  /**
   * One update moves the frame index by at most one step: it stays, moves
   * to the next frame, wraps from the last frame to the first when looping,
   * or holds the last frame otherwise. When it steps, the timer loses
   * exactly one frame's duration; when it does not, it gains `dt`.
   */
  lemma TickStep(s: Playback, dt: real)
    requires InRange(s) && s.current != null && s.current.frameCount > 0
    ensures var r := Tick(s, dt); var c := s.current; var n := c.frameCount;
      r.current == c && r.animations == s.animations &&
      if Due(s.timer + dt, c) then
        r.timer == s.timer + dt - 1.0 / c.frameRate &&
        ((s.index < n - 1 && r.index == s.index + 1) ||
         (s.index == n - 1 && c.loop && r.index == 0) ||
         (s.index == n - 1 && !c.loop && r.index == n - 1))
      else
        r.timer == s.timer + dt && r.index == s.index
  {
  }

  /** Update keeps the frame index a valid index of the current animation. */
  lemma TickKeepsRange(s: Playback, dt: real)
    requires InRange(s)
    ensures InRange(Tick(s, dt))
  {
  }

  /** A finished (non-looping) animation stays finished, on the same frame, however many updates follow. */
  lemma {:induction false} FinishedHolds(s: Playback, dts: seq<real>)
    requires InRange(s) && Finished(s)
    ensures Finished(Ticks(s, dts))
    ensures Ticks(s, dts).current == s.current && Ticks(s, dts).index == s.index
    decreases |dts|
  {
    if dts != [] {
      var next := Tick(s, dts[0]);
      assert next.current == s.current && next.index == s.index;
      FinishedHolds(next, dts[1..]);
    }
  }

  /** A looping animation is never reported finished. */
  lemma LoopingNeverFinished(s: Playback)
    requires s.current != null && s.current.loop
    ensures !Finished(s)
  {
  }

  /** Updates in sequence. */
  function Ticks(s: Playback, dts: seq<real>): Playback
    decreases |dts|
  {
    if dts == [] then s else Ticks(Tick(s, dts[0]), dts[1..])
  }

  /** The animation player: the name table, the current animation, the frame index and the frame timer. */
  class AnimatedModel {
    var animations: map<string, Clip>
    var current: Clip?
    var frameIndex: int
    var frameTimer: real

    function State(): Playback
      reads this
    {
      Playback(animations, current, frameIndex, frameTimer)
    }

    constructor ()
      ensures State() == Initial && InRange(State())
    {
      animations := map[];
      current := null;
      frameIndex := 0;
      frameTimer := 0.0;
    }

    /** Loads `frameCount` frames (one per numbered file) as a new animation under `name`. */
    method LoadAnimation(name: string, frameCount: int, frameRate: real := 10.0, loop: bool := true)
      modifies this
      ensures name in animations && fresh(animations[name])
      ensures animations[name].name == name && animations[name].frameCount == FramesLoaded(frameCount)
      ensures animations[name].frameRate == frameRate && animations[name].loop == loop
      ensures State() == Load(old(State()), animations[name])
      ensures InRange(old(State())) ==> InRange(State())
    {
      var frames := 0;
      var i := 1;
      while i <= frameCount
        invariant frames == FramesLoaded(i - 1)
        invariant i <= (if frameCount > 0 then frameCount + 1 else 1)
        decreases frameCount - i
      {
        frames := frames + 1;
        i := i + 1;
      }
      var animation := new Clip(name, frames, frameRate, loop);
      animations := animations[name := animation];
      if current == null {
        current := animation;
      }
    }

    method PlayAnimation(name: string, restart: bool := true)
      modifies this
      ensures State() == Play(old(State()), name, restart)
      ensures InRange(old(State())) ==> InRange(State())
    {
      if name in animations {
        var animation := animations[name];
        if current != animation || restart {
          current := animation;
          frameIndex := 0;
          frameTimer := 0.0;
        }
      }
    }

    method Update(deltaTime: real)
      modifies this
      ensures State() == Tick(old(State()), deltaTime)
      ensures InRange(old(State())) ==> InRange(State())
    {
      if current == null || current.frameCount == 0 {
        return;
      }
      frameTimer := frameTimer + deltaTime;
      if current.frameRate != 0.0 {
        var frameDuration := 1.0 / current.frameRate;
        if frameTimer >= frameDuration {
          frameTimer := frameTimer - frameDuration;
          frameIndex := frameIndex + 1;
          if frameIndex >= current.frameCount {
            if current.loop {
              frameIndex := 0;
            } else {
              frameIndex := current.frameCount - 1;
            }
          }
        }
      }
    }

    function IsAnimationFinished(): (r: bool)
      reads this
      ensures r == Finished(State())
    {
      Finished(State())
    }

    function GetCurrentAnimationName(): (r: string)
      reads this
      ensures r == NameOf(State())
    {
      NameOf(State())
    }

    function GetCurrentFrame(): (r: Option<int>)
      reads this
      requires InRange(State())
      ensures r == FrameOf(State())
      ensures r.Some? ==> current != null && 0 <= r.value < current.frameCount
    {
      FrameOf(State())
    }

    /** The current animation's frame count, 0 without one; a frame index is valid exactly below it. */
    function GetCurrentAnimationFrameCount(): (r: nat)
      reads this
      ensures current != null ==> r == current.frameCount
      ensures current == null ==> r == 0
      ensures InRange(State()) && r > 0 ==> 0 <= frameIndex < r
    {
      if current == null then 0 else current.frameCount
    }
  }
}
