/**
 The delta-time bookkeeping of the frame loop: the loop remembers the
 timestamp (in milliseconds) of the previous frame, starting with none, and
 hands the stepper the elapsed time in seconds.
 */
module FrameClock {

  datatype Option<T> = None | Some(value: T)

  /**
   Seconds elapsed since the previous frame. The first frame has no
   baseline and takes itself as one, so it gets a zero delta.
   */
  function FrameDelta(lastTime: Option<real>, timestamp: real): (dt: real)
    ensures lastTime.None? ==> dt == 0.0
    ensures lastTime.Some? ==> lastTime.value + 1000.0 * dt == timestamp
  {
    var baseline := if lastTime.None? then timestamp else lastTime.value;
    (timestamp - baseline) / 1000.0
  }

  /** The deltas handed to the stepper by frames at `timestamps`, in order. */
  function Deltas(lastTime: Option<real>, timestamps: seq<real>): (ds: seq<real>)
    ensures |ds| == |timestamps|
    decreases |timestamps|
  {
    if timestamps == [] then []
    else [FrameDelta(lastTime, timestamps[0])] + Deltas(Some(timestamps[0]), timestamps[1..])
  }

  function Sum(s: seq<real>): real {
    if s == [] then 0.0 else s[0] + Sum(s[1..])
  }

  predicate NonDecreasing(s: seq<real>) {
    forall i, j :: 0 <= i < j < |s| ==> s[i] <= s[j]
  }

  /**
   Frame `i` is handed the delta from the frame before it, or from `lastTime`
   when it is the first: each frame measures against its predecessor.
   */
  lemma {:induction false} DeltaAt(lastTime: Option<real>, timestamps: seq<real>, i: nat)
    requires i < |timestamps|
    ensures Deltas(lastTime, timestamps)[i]
         == FrameDelta(if i == 0 then lastTime else Some(timestamps[i - 1]), timestamps[i])
    decreases i
  {
    if i > 0 {
      var rest := timestamps[1..];
      DeltaAt(Some(timestamps[0]), rest, i - 1);
      assert Deltas(lastTime, timestamps)[i] == Deltas(Some(timestamps[0]), rest)[i - 1];
      if i > 1 {
        assert rest[i - 2] == timestamps[i - 1];
      }
    }
  }

  /** The very first frame of the loop is handed a zero delta. */
  lemma FirstFrameIsZero(timestamps: seq<real>)
    requires timestamps != []
    ensures Deltas(None, timestamps)[0] == 0.0
  {
  }

  /**
   Starting from a baseline, the deltas add up to the time between the
   baseline and the last frame, converted to seconds: no time is lost or
   counted twice.
   */
  lemma {:induction false} DeltasTelescope(last: real, timestamps: seq<real>)
    requires timestamps != []
    ensures Sum(Deltas(Some(last), timestamps)) == (timestamps[|timestamps| - 1] - last) / 1000.0
    decreases |timestamps|
  {
    var rest := timestamps[1..];
    var ds := Deltas(Some(last), timestamps);
    assert ds == [(timestamps[0] - last) / 1000.0] + Deltas(Some(timestamps[0]), rest);
    assert ds[1..] == Deltas(Some(timestamps[0]), rest);
    if rest != [] {
      DeltasTelescope(timestamps[0], rest);
      assert rest[|rest| - 1] == timestamps[|timestamps| - 1];
    } else {
      assert Deltas(Some(timestamps[0]), rest) == [];
    }
  }

  /** Over a whole session the simulated time equals the time since the first frame. */
  lemma TotalSimulatedTime(timestamps: seq<real>)
    requires timestamps != []
    ensures Sum(Deltas(None, timestamps)) == (timestamps[|timestamps| - 1] - timestamps[0]) / 1000.0
  {
    var ds := Deltas(None, timestamps);
    var rest := timestamps[1..];
    assert ds[1..] == Deltas(Some(timestamps[0]), rest);
    if rest != [] {
      DeltasTelescope(timestamps[0], rest);
      assert rest[|rest| - 1] == timestamps[|timestamps| - 1];
    }
  }

  /** With non-decreasing timestamps no frame is handed a negative delta. */
  lemma {:induction false} DeltasNonNegative(lastTime: Option<real>, timestamps: seq<real>)
    requires NonDecreasing(timestamps)
    requires timestamps != [] && lastTime.Some? ==> lastTime.value <= timestamps[0]
    ensures forall i :: 0 <= i < |timestamps| ==> Deltas(lastTime, timestamps)[i] >= 0.0
    decreases |timestamps|
  {
    if timestamps != [] {
      var rest := timestamps[1..];
      var ds := Deltas(lastTime, timestamps);
      assert ds[1..] == Deltas(Some(timestamps[0]), rest);
      assert NonDecreasing(rest) by {
        forall i, j | 0 <= i < j < |rest| ensures rest[i] <= rest[j] {
          assert rest[i] == timestamps[i + 1] && rest[j] == timestamps[j + 1];
        }
      }
      DeltasNonNegative(Some(timestamps[0]), rest);
      forall i | 0 <= i < |timestamps| ensures ds[i] >= 0.0 {
        if i > 0 {
          assert ds[i] == ds[1..][i - 1];
        }
      }
    }
  }
}
