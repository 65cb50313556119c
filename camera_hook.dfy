/** hooks/use-camera.ts: the `enabled` guard around camera acquisition, the
    self-rescheduling `processFrame` loop with its frame-rate throttle, and the
    shape of `preprocessFrame`. Animation-frame callbacks are discrete ticks
    carrying their timestamp and whether the video had enough data. */
module CameraHook {
  import opened Types

  /** The message shown when `getUserMedia` rejects. */
  const CameraError := "No se pudo acceder a la cámara. Por favor, verifica los permisos."

  /** One `requestAnimationFrame` callback: its timestamp and whether
      `video.readyState === HAVE_ENOUGH_DATA` at that moment. */
  datatype Tick = Tick(timestamp: real, videoReady: bool)

  /** The loop's observable state: `lastFrameTime`, the timestamps of the ticks
      that passed the throttle, and those of the ticks that reached `onFrame`. */
  datatype LoopState = LoopState(lastFrameTime: real, processed: seq<real>, delivered: seq<real>)

  /** `timestamp - lastFrameTime >= interval`. */
  predicate Passes(t: Tick, lastFrameTime: real, interval: real) {
    t.timestamp - lastFrameTime >= interval
  }

  /** One tick of `processFrame`. */
  function Step(s: LoopState, t: Tick, interval: real): LoopState {
    if !Passes(t, s.lastFrameTime, interval) then s
    else LoopState(t.timestamp, s.processed + [t.timestamp],
                   if t.videoReady then s.delivered + [t.timestamp] else s.delivered)
  }

  /** The state after a run of ticks, starting from `lastFrameTime = 0`. */
  function Run(ticks: seq<Tick>, interval: real): LoopState {
    if ticks == [] then LoopState(0.0, [], [])
    else Step(Run(ticks[..|ticks| - 1], interval), ticks[|ticks| - 1], interval)
  }

  predicate Spaced(p: seq<real>, interval: real) {
    forall i :: 0 <= i < |p| - 1 ==> p[i + 1] - p[i] >= interval
  }

  /** Ticks that pass the throttle are at least one interval apart (and the
      first is at least one interval after 0); `lastFrameTime` is the last of them. */
  lemma {:induction false} ProcessedAreSpaced(ticks: seq<Tick>, interval: real)
    ensures Spaced(Run(ticks, interval).processed, interval)
    ensures var r := Run(ticks, interval);
      if r.processed == [] then r.lastFrameTime == 0.0
      else r.lastFrameTime == r.processed[|r.processed| - 1] && r.processed[0] >= interval
  {
    if ticks != [] {
      ProcessedAreSpaced(ticks[..|ticks| - 1], interval);
    }
  }

  /** `onFrame` is reached at most once per tick and only by ticks that passed
      the throttle; every delivered tick is a processed one. */
  lemma {:induction false} DeliveredWithinProcessed(ticks: seq<Tick>, interval: real)
    ensures |Run(ticks, interval).delivered| <= |Run(ticks, interval).processed| <= |ticks|
    ensures forall i :: 0 <= i < |Run(ticks, interval).delivered| ==>
      Run(ticks, interval).delivered[i] in Run(ticks, interval).processed
  {
    if ticks != [] {
      DeliveredWithinProcessed(ticks[..|ticks| - 1], interval);
    }
  }

  /** A tick that fails the throttle is dropped: nothing changes, nothing is queued. */
  lemma EarlyTickDropped(s: LoopState, t: Tick, interval: real)
    requires t.timestamp - s.lastFrameTime < interval
    ensures Step(s, t, interval) == s
  {
  }

  /** The frame loop of one camera stream. */
  class FrameLoop {
    /** `1000 / frameRate`. */
    const interval: real
    var lastFrameTime: real
    /** Timestamps of the ticks handed to `onFrame`. */
    var frames: seq<real>
    /** Whether another animation frame is requested. */
    var scheduled: bool
    ghost var ticks: seq<Tick>
    ghost var processed: seq<real>

    ghost predicate Valid()
      reads this
    {
      Run(ticks, interval) == LoopState(lastFrameTime, processed, frames)
    }

    /** The loop as started by `onloadedmetadata`, with `lastFrameTime = 0`. */
    constructor (frameRate: real)
      requires frameRate > 0.0
      ensures Valid()
      ensures interval == 1000.0 / frameRate && lastFrameTime == 0.0 && frames == [] && scheduled
      ensures ticks == []
    {
      interval := 1000.0 / frameRate;
      lastFrameTime := 0.0;
      frames := [];
      scheduled := true;
      ticks := [];
      processed := [];
    }

    /** `processFrame(timestamp)`: returns whether `onFrame` was called. */
    method ProcessFrame(t: Tick) returns (calledOnFrame: bool)
      requires Valid()
      modifies this
      ensures Valid() && ticks == old(ticks) + [t]
      ensures calledOnFrame <==> Passes(t, old(lastFrameTime), interval) && t.videoReady
      ensures Passes(t, old(lastFrameTime), interval) ==> lastFrameTime == t.timestamp
      ensures !Passes(t, old(lastFrameTime), interval) ==> lastFrameTime == old(lastFrameTime) && frames == old(frames)
      ensures frames == old(frames) + (if calledOnFrame then [t.timestamp] else [])
      ensures scheduled
    {
      calledOnFrame := false;
      if t.timestamp - lastFrameTime >= interval {
        if t.videoReady {
          frames := frames + [t.timestamp];
          calledOnFrame := true;
        }
        lastFrameTime := t.timestamp;
        processed := processed + [t.timestamp];
      }
      scheduled := true;
      ticks := ticks + [t];
      assert ticks[..|ticks| - 1] == old(ticks);
    }
  }

  /** The stream, error and loading flags of the hook. */
  class CameraDevice {
    var hasStream: bool
    var error: Option<string>
    var isLoading: bool

    constructor ()
      ensures !hasStream && error == None && !isLoading
    {
      hasStream, error, isLoading := false, None, false;
    }

    /** The acquisition effect. `granted` is the outcome of `getUserMedia`;
        nothing happens while the hook is disabled. */
    method Init(enabled: bool, granted: bool)
      modifies this
      ensures !enabled ==> hasStream == old(hasStream) && error == old(error) && isLoading == old(isLoading)
      ensures enabled && granted ==> hasStream && error == None && !isLoading
      ensures enabled && !granted ==> hasStream == old(hasStream) && error == Some(CameraError) && !isLoading
    {
      if !enabled {
        return;
      }
      isLoading := true;
      if granted {
        hasStream := true;
        error := None;
      } else {
        error := Some(CameraError);
      }
      isLoading := false;
    }
  }

  /** `preprocessFrame`: 42 values, one `Math.random()` draw each. */
  function PreprocessFrame(random: nat -> real): (f: seq<real>)
    requires forall i: nat :: IsDraw(random(i))
    ensures |f| == 42
    ensures forall i :: 0 <= i < |f| ==> 0.0 <= f[i] < 1.0
  {
    var f := seq(42, i requires 0 <= i < 42 => random(i));
    assert forall i :: 0 <= i < 42 ==> f[i] == random(i) && IsDraw(random(i));
    f
  }
}
