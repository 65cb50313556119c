/** The capture side of components/camera-module.tsx: landmark normalisation,
    the frame buffer that submits at exactly 35 valid frames, the 3-tick
    countdown driven by an interval timer, cancellation and the submission guard.
    Timers are discrete events: `CountdownTick` is one firing of the 1000 ms
    interval, `RecordingTimeout` the firing of the 200 ms timeout. */
module CameraModule {
  import opened Types
  import opened Seqs
  import Text

  /** Number of frames a prediction needs. */
  const SequenceLength := 35
  /** Number of features in one frame. */
  const FeatureCount := 42

  // ---------------------------------------------------------------------
  // normalizeLandmarks

  /** The x coordinates: entries 0, 2, 4, ... */
  function Xs(l: seq<real>): (xs: seq<real>)
    ensures |xs| == |l| / 2
  {
    seq(|l| / 2, j requires 0 <= j < |l| / 2 => l[2 * j])
  }

  /** The y coordinates: entries 1, 3, 5, ... */
  function Ys(l: seq<real>): (ys: seq<real>)
    ensures |ys| == |l| / 2
  {
    seq(|l| / 2, j requires 0 <= j < |l| / 2 => l[2 * j + 1])
  }

  /** `std === 0 ? 0 : (v - mean) / std`. */
  function Standardize(v: real, mean: real, std: real): real {
    if std == 0.0 then 0.0 else (v - mean) / std
  }

  /** What `normalizeLandmarks` returns: every x standardised against the mean
      and spread of all x, every y against those of all y, interleaved again.
      The mean and the standard deviation are uninterpreted. */
  function NormalizedLandmarks(l: seq<real>, mean: seq<real> -> real, std: seq<real> -> real): seq<real>
    requires |l| % 2 == 0
  {
    seq(|l|, k requires 0 <= k < |l| =>
      if k % 2 == 0 then Standardize(l[k], mean(Xs(l)), std(Xs(l)))
      else Standardize(l[k], mean(Ys(l)), std(Ys(l))))
  }

  /** `normalizeLandmarks`: de-interleave into x and y, then push (normX, normY) pairs. */
  method NormalizeLandmarks(landmarks: seq<real>, mean: seq<real> -> real, std: seq<real> -> real)
    returns (normalized: seq<real>)
    requires |landmarks| % 2 == 0
    ensures normalized == NormalizedLandmarks(landmarks, mean, std)
  {
    var x: seq<real> := [];
    var y: seq<real> := [];
    var i := 0;
    while i < |landmarks|
      invariant 0 <= i <= |landmarks| && i % 2 == 0
      invariant x == Xs(landmarks)[..i / 2] && y == Ys(landmarks)[..i / 2]
    {
      assert Xs(landmarks)[i / 2] == landmarks[i] && Ys(landmarks)[i / 2] == landmarks[i + 1];
      x := x + [landmarks[i]];
      y := y + [landmarks[i + 1]];
      i := i + 2;
    }
    assert x == Xs(landmarks) && y == Ys(landmarks);
    var meanX, meanY := mean(x), mean(y);
    var stdX, stdY := std(x), std(y);
    normalized := [];
    i := 0;
    while i < |x|
      invariant 0 <= i <= |x|
      invariant |normalized| == 2 * i
      invariant forall j :: 0 <= j < i ==>
        normalized[2 * j] == Standardize(x[j], meanX, stdX) && normalized[2 * j + 1] == Standardize(y[j], meanY, stdY)
    {
      var normX := if stdX == 0.0 then 0.0 else (x[i] - meanX) / stdX;
      var normY := if stdY == 0.0 then 0.0 else (y[i] - meanY) / stdY;
      normalized := normalized + [normX, normY];
      i := i + 1;
    }
    Interleaved(landmarks, mean, std, normalized);
  }

  /** A sequence whose pairs are the standardised coordinates is the normalised one. */
  lemma Interleaved(l: seq<real>, mean: seq<real> -> real, std: seq<real> -> real, n: seq<real>)
    requires |l| % 2 == 0 && |n| == |l|
    requires forall j :: 0 <= j < |l| / 2 ==>
      n[2 * j] == Standardize(Xs(l)[j], mean(Xs(l)), std(Xs(l)))
      && n[2 * j + 1] == Standardize(Ys(l)[j], mean(Ys(l)), std(Ys(l)))
    ensures n == NormalizedLandmarks(l, mean, std)
  {
    forall k | 0 <= k < |l| ensures n[k] == NormalizedLandmarks(l, mean, std)[k] {
      var j := k / 2;
      if k % 2 == 0 {
        assert k == 2 * j && Xs(l)[j] == l[k];
      } else {
        assert k == 2 * j + 1 && Ys(l)[j] == l[k];
      }
    }
  }

  /** Same length as the input, so 42 values in give 42 values out; position 2i
      comes from input 2i and position 2i + 1 from input 2i + 1. */
  lemma NormalizedShape(l: seq<real>, mean: seq<real> -> real, std: seq<real> -> real)
    requires |l| % 2 == 0
    ensures |NormalizedLandmarks(l, mean, std)| == |l|
    ensures forall j :: 0 <= j < |l| / 2 ==>
      NormalizedLandmarks(l, mean, std)[2 * j] == Standardize(l[2 * j], mean(Xs(l)), std(Xs(l)))
      && NormalizedLandmarks(l, mean, std)[2 * j + 1] == Standardize(l[2 * j + 1], mean(Ys(l)), std(Ys(l)))
  {
  }

  /** With no spread in x (resp. y) every output x (resp. y) is exactly 0. */
  lemma ZeroSpread(l: seq<real>, mean: seq<real> -> real, std: seq<real> -> real)
    requires |l| % 2 == 0
    ensures std(Xs(l)) == 0.0 ==> forall j :: 0 <= j < |l| / 2 ==> NormalizedLandmarks(l, mean, std)[2 * j] == 0.0
    ensures std(Ys(l)) == 0.0 ==> forall j :: 0 <= j < |l| / 2 ==> NormalizedLandmarks(l, mean, std)[2 * j + 1] == 0.0
  {
    NormalizedShape(l, mean, std);
  }

  // ---------------------------------------------------------------------
  // Frame validity and submission.

  /** `features.length === 42 && features.some((v) => v !== 0)`. */
  predicate IsValidFrame(f: seq<real>) {
    |f| == FeatureCount && exists k :: 0 <= k < |f| && f[k] != 0.0
  }

  predicate AllValid(frames: seq<seq<real>>) {
    forall i :: 0 <= i < |frames| ==> IsValidFrame(frames[i])
  }

  /** What `submitPrediction` does: the "Secuencia incompleta" toast, or a call
      of `predict` with the sequence and the label (absent with no selection). */
  datatype Submission = Incomplete | Send(sequence: seq<seq<real>>, expectedLabel: Option<string>)

  /** `submitPrediction`: re-filters the buffer and sends only exactly 35 valid
      frames, with the selected sign's name normalised. */
  function SubmitPrediction(frames: seq<seq<real>>, selected: Option<Label>): (s: Submission)
    ensures s.Send? <==> |Filter(frames, IsValidFrame)| == SequenceLength
    ensures s.Send? ==> AllValid(s.sequence) && IsSubsequence(s.sequence, frames)
    ensures s.Send? ==> s.sequence == Filter(frames, IsValidFrame)
    ensures s.Send? ==> (s.expectedLabel.Some? <==> selected.Some?)
    ensures s.Send? && selected.Some? ==> s.expectedLabel == Some(Text.NormalizeLabel(selected.value.name))
    ensures s.Send? && s.expectedLabel.Some? ==>
      forall i :: 0 <= i < |s.expectedLabel.value| ==> Text.IsSlugChar(s.expectedLabel.value[i])
  {
    var sequence := Filter(frames, IsValidFrame);
    FilterIsSubsequence(frames, IsValidFrame);
    if |sequence| != SequenceLength then Incomplete
    else Send(sequence, if selected.Some? then Some(Text.NormalizeLabel(selected.value.name)) else None)
  }

  /** A buffer of valid frames is sent as it is. */
  lemma SubmitValidBuffer(frames: seq<seq<real>>, selected: Option<Label>)
    requires AllValid(frames) && |frames| == SequenceLength
    ensures SubmitPrediction(frames, selected).Send?
    ensures SubmitPrediction(frames, selected).sequence == frames
  {
    FilterAll(frames, IsValidFrame);
  }

  /** Appending a valid frame to valid frames keeps them valid. */
  lemma AllValidAppend(frames: seq<seq<real>>, f: seq<real>)
    requires AllValid(frames) && IsValidFrame(f)
    ensures AllValid(frames + [f])
  {
    assert forall i :: 0 <= i < |frames| ==> (frames + [f])[i] == frames[i];
  }

  // ---------------------------------------------------------------------
  // The capture state machine.

  class CaptureSession {
    var cameraEnabled: bool
    var isRecording: bool
    var isCountingDown: bool
    var countdown: int
    /** `framesRef.current`, in arrival order. */
    var frames: seq<seq<real>>
    /** Countdown intervals still firing. */
    var activeIntervals: nat
    /** 200 ms timeouts that will switch recording on. */
    var pendingStarts: nat

    /** The session's invariant: the buffer holds at most 35 valid frames and is
        below 35 while recording; at most one timer is alive, and only while
        neither recording nor holding frames; the countdown shows 1..3 while its
        interval runs. */
    ghost predicate Valid()
      reads this
    {
      && AllValid(frames) && |frames| <= SequenceLength
      && (isRecording ==> |frames| < SequenceLength)
      && activeIntervals + pendingStarts <= 1
      && (isCountingDown <==> activeIntervals == 1)
      && (activeIntervals == 1 ==> 1 <= countdown <= 3)
      && (activeIntervals + pendingStarts == 1 ==> frames == [] && !isRecording)
    }

    /** The initial state (camera-module.tsx:46-51). */
    constructor ()
      ensures Valid()
      ensures !cameraEnabled && !isRecording && !isCountingDown && countdown == 3 && frames == []
      ensures activeIntervals == 0 && pendingStarts == 0
    {
      cameraEnabled, isRecording, isCountingDown, countdown := false, false, false, 3;
      frames, activeIntervals, pendingStarts := [], 0, 0;
    }

    /** `onFrame` with the extractor's output `raw`. Returns the submission it
        triggers, if any. */
    method OnFrame(raw: seq<real>, mean: seq<real> -> real, std: seq<real> -> real, selected: Option<Label>)
      returns (submitted: Option<Submission>)
      requires Valid()
      requires |raw| % 2 == 0
      modifies this
      ensures Valid()
      ensures isCountingDown == old(isCountingDown) && countdown == old(countdown)
      ensures activeIntervals == old(activeIntervals) && pendingStarts == old(pendingStarts)
      ensures var f := NormalizedLandmarks(raw, mean, std);
        if !old(isRecording) || !IsValidFrame(f) then
          frames == old(frames) && isRecording == old(isRecording)
          && cameraEnabled == old(cameraEnabled) && submitted.None?
        else
          frames == old(frames) + [f]
          && (if |frames| == SequenceLength then
                !isRecording && !cameraEnabled && submitted == Some(SubmitPrediction(frames, selected))
                && submitted.value.Send? && submitted.value.sequence == frames
              else
                isRecording && cameraEnabled == old(cameraEnabled) && submitted.None?)
    {
      submitted := None;
      if !isRecording {
        return;
      }
      var features := NormalizeLandmarks(raw, mean, std);
      if IsValidFrame(features) {
        submitted := Append(features, selected);
      }
    }

    /** The valid-frame branch of `onFrame`: the frame is buffered, and the
        35th one stops recording and the camera and submits the buffer. */
    method Append(features: seq<real>, selected: Option<Label>) returns (submitted: Option<Submission>)
      requires Valid() && isRecording && IsValidFrame(features)
      modifies this
      ensures Valid()
      ensures isCountingDown == old(isCountingDown) && countdown == old(countdown)
      ensures activeIntervals == old(activeIntervals) && pendingStarts == old(pendingStarts)
      ensures frames == old(frames) + [features]
      ensures |frames| == SequenceLength ==>
        !isRecording && !cameraEnabled && submitted == Some(SubmitPrediction(frames, selected))
        && submitted.value.Send? && submitted.value.sequence == frames
      ensures |frames| != SequenceLength ==>
        isRecording && cameraEnabled == old(cameraEnabled) && submitted.None?
    {
      var buffer := frames + [features];
      AllValidAppend(frames, features);
      if |buffer| == SequenceLength {
        SubmitValidBuffer(buffer, selected);
        var sub := SubmitPrediction(buffer, selected);
        assert sub.Send? && sub.sequence == buffer;
        submitted := Some(sub);
        frames, isRecording, cameraEnabled := buffer, false, false;
      } else {
        submitted := None;
        frames := buffer;
      }
    }

    /** `startCountdownAndRecord`, offered by the Comenzar button, which is shown
        whenever neither recording nor counting down. That includes the 200 ms
        before a scheduled start and the state after a cancel that left a
        countdown interval running: a start there adds a second timer, so the
        session's invariant is kept only from a state with no timer at all. */
    method Start(selected: Option<Label>)
      requires !isRecording && !isCountingDown
      modifies this
      ensures selected.None? ==>
        frames == old(frames) && cameraEnabled == old(cameraEnabled) && isCountingDown == old(isCountingDown)
        && countdown == old(countdown) && activeIntervals == old(activeIntervals)
      ensures selected.Some? ==>
        frames == [] && cameraEnabled && countdown == 3 && isCountingDown
        && activeIntervals == old(activeIntervals) + 1
      ensures isRecording == old(isRecording) && pendingStarts == old(pendingStarts)
      ensures old(Valid()) && old(pendingStarts) == 0 ==> Valid()
    {
      if selected.None? {
        return;
      }
      frames := [];
      cameraEnabled := true;
      countdown := 3;
      isCountingDown := true;
      activeIntervals := activeIntervals + 1;
    }

    /** One firing of the 1000 ms interval: the countdown drops by one; on the
        tick whose previous value is at most 1 the interval is cleared, the
        overlay is hidden and the 200 ms start is scheduled. */
    method CountdownTick()
      requires activeIntervals > 0
      modifies this
      ensures countdown == old(countdown) - 1
      ensures old(countdown) <= 1 ==>
        activeIntervals == old(activeIntervals) - 1 && !isCountingDown && pendingStarts == old(pendingStarts) + 1
      ensures old(countdown) > 1 ==>
        activeIntervals == old(activeIntervals) && isCountingDown == old(isCountingDown) && pendingStarts == old(pendingStarts)
      ensures frames == old(frames) && isRecording == old(isRecording) && cameraEnabled == old(cameraEnabled)
      ensures old(Valid()) ==> Valid()
    {
      if countdown <= 1 {
        activeIntervals := activeIntervals - 1;
        isCountingDown := false;
        pendingStarts := pendingStarts + 1;
      }
      countdown := countdown - 1;
    }

    /** The 200 ms timeout fires: recording starts. */
    method RecordingTimeout()
      requires pendingStarts > 0
      modifies this
      ensures isRecording && pendingStarts == old(pendingStarts) - 1
      ensures frames == old(frames) && cameraEnabled == old(cameraEnabled) && isCountingDown == old(isCountingDown)
      ensures countdown == old(countdown) && activeIntervals == old(activeIntervals)
      ensures old(Valid()) ==> Valid()
    {
      pendingStarts := pendingStarts - 1;
      isRecording := true;
    }

    /** `stopEverything` as written: the flags and the buffer are reset, but the
        countdown interval and the pending start keep running. */
    method StopAsWritten()
      modifies this
      ensures !isCountingDown && !isRecording && !cameraEnabled && frames == []
      ensures countdown == old(countdown)
      ensures activeIntervals == old(activeIntervals) && pendingStarts == old(pendingStarts)
    {
      isCountingDown := false;
      isRecording := false;
      cameraEnabled := false;
      frames := [];
    }

    /** `stopEverything` as intended: it also clears the countdown interval and
        the pending start. Every field ends at a constant, so a second call
        changes nothing. */
    method Stop()
      modifies this
      ensures Valid()
      ensures !isCountingDown && !isRecording && !cameraEnabled && frames == []
      ensures activeIntervals == 0 && pendingStarts == 0 && countdown == old(countdown)
    {
      isCountingDown := false;
      isRecording := false;
      cameraEnabled := false;
      frames := [];
      activeIntervals := 0;
      pendingStarts := 0;
    }
  }

  /** Cancelling one second into the countdown with the code as written: the
      interval keeps firing and recording switches itself on two seconds later.
      Returns isRecording at the end. */
  method CancelDuringCountdownAsWritten(l: Label) returns (recordingAfterCancel: bool, cameraAfterCancel: bool)
    ensures recordingAfterCancel && !cameraAfterCancel
  {
    var s := new CaptureSession();
    s.Start(Some(l));
    s.CountdownTick();      // 3 -> 2
    s.StopAsWritten();      // "Cancelar"
    s.CountdownTick();      // 2 -> 1
    s.CountdownTick();      // 1: clears the interval, schedules the start
    s.RecordingTimeout();   // recording is on again, with the camera off
    recordingAfterCancel, cameraAfterCancel := s.isRecording, s.cameraEnabled;
  }

  /** The same sequence with the intended cancel: nothing is left to fire. */
  method CancelDuringCountdown(l: Label) returns (recordingAfterCancel: bool, timersLeft: nat)
    ensures !recordingAfterCancel && timersLeft == 0
  {
    var s := new CaptureSession();
    s.Start(Some(l));
    s.CountdownTick();
    s.Stop();
    recordingAfterCancel, timersLeft := s.isRecording, s.activeIntervals + s.pendingStarts;
  }

  /** Pressing Comenzar again in the 200 ms between the end of a countdown and
      the start of recording: the earlier timeout still fires, so recording
      runs while the new countdown is on screen, with a second start to come. */
  method RestartInStartWindow(l: Label) returns (recording: bool, countingDown: bool, startsLeft: nat)
    ensures recording && countingDown && startsLeft == 0
  {
    var s := new CaptureSession();
    s.Start(Some(l));
    s.CountdownTick();      // 3 -> 2
    s.CountdownTick();      // 2 -> 1
    s.CountdownTick();      // 1: clears the interval, schedules the start
    s.Start(Some(l));       // the button is back before the start fires
    s.RecordingTimeout();   // the first start fires during the new countdown
    recording, countingDown, startsLeft := s.isRecording, s.isCountingDown, s.pendingStarts;
  }
}
