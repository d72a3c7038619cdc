/** Rest detection after a throw: the die counts as settled once its speed
    has stayed below a threshold for longer than a configured wait. */
module Settle {

  /** `waitingToSettle` and `currentSettleWaitTime`. */
  datatype Timer = Timer(waiting: bool, elapsed: real)

  /** One sample of the physics collaborator: the die's speed and the
      frame's duration. */
  datatype Sample = Sample(speed: real, deltaTime: real)

  /** The condition under which `Update` moves the camera (strictly
      greater than the wait). */
  predicate Settled(t: Timer, settleWaitTime: real) {
    t.elapsed > settleWaitTime
  }

  /** One frame while the die is thrown: `CheckDieIsAtRest` followed by the
      timer step of `Update`. */
  function Frame(t: Timer, s: Sample, minMagnitude: real, settleWaitTime: real): (r: Timer)
    ensures r.waiting <==> s.speed < minMagnitude
    ensures s.speed >= minMagnitude ==> r.elapsed == 0.0
    ensures t.elapsed >= 0.0 && r.elapsed > t.elapsed ==> r.elapsed <= settleWaitTime + s.deltaTime
    ensures t.elapsed >= 0.0 && r.elapsed > t.elapsed ==> !Settled(t, settleWaitTime)
    ensures s.speed < minMagnitude && s.deltaTime >= 0.0 ==> r.elapsed >= t.elapsed
    ensures t.elapsed >= 0.0 && s.deltaTime >= 0.0 ==> r.elapsed >= 0.0
    ensures t.elapsed >= 0.0 && s.deltaTime >= 0.0 ==> r.elapsed <= t.elapsed + s.deltaTime
  {
    var waiting := s.speed < minMagnitude;
    var elapsed := if waiting then t.elapsed else 0.0;
    Timer(waiting, if waiting && elapsed <= settleWaitTime then elapsed + s.deltaTime else elapsed)
  }

  /** Consecutive frames while thrown. */
  function Run(t: Timer, samples: seq<Sample>, minMagnitude: real, settleWaitTime: real): Timer
    decreases |samples|
  {
    if samples == [] then t
    else Run(Frame(t, samples[0], minMagnitude, settleWaitTime), samples[1..], minMagnitude, settleWaitTime)
  }

  /** With every frame at most `maxDelta` long, the timer never exceeds
      the wait by more than one frame, and never goes negative. */
  lemma {:induction false} RunBounded(t: Timer, samples: seq<Sample>, minMagnitude: real,
                                      settleWaitTime: real, maxDelta: real)
    requires 0.0 <= t.elapsed <= settleWaitTime + maxDelta
    requires forall i :: 0 <= i < |samples| ==> 0.0 <= samples[i].deltaTime <= maxDelta
    ensures 0.0 <= Run(t, samples, minMagnitude, settleWaitTime).elapsed <= settleWaitTime + maxDelta
    decreases |samples|
  {
    if samples != [] {
      var t' := Frame(t, samples[0], minMagnitude, settleWaitTime);
      assert 0.0 <= samples[0].deltaTime <= maxDelta;
      forall i | 0 <= i < |samples[1..]|
        ensures 0.0 <= samples[1..][i].deltaTime <= maxDelta
      {
        assert samples[1..][i] == samples[i + 1];
      }
      RunBounded(t', samples[1..], minMagnitude, settleWaitTime, maxDelta);
    }
  }

  /** A frame in which the die moves at or above the threshold reads the
      timer as zero at the end of any run. */
  lemma {:induction false} MovingDieRestartsTimer(t: Timer, samples: seq<Sample>, minMagnitude: real,
                                                  settleWaitTime: real)
    requires samples != [] && samples[|samples| - 1].speed >= minMagnitude
    ensures Run(t, samples, minMagnitude, settleWaitTime) == Timer(false, 0.0)
    decreases |samples|
  {
    var t' := Frame(t, samples[0], minMagnitude, settleWaitTime);
    if |samples| > 1 {
      MovingDieRestartsTimer(t', samples[1..], minMagnitude, settleWaitTime);
    }
  }

  /** With a threshold of 0.05, a wait of 0.4 and frames of 0.2, a die
      slower than the threshold reaches exactly 0.4 after two frames, which
      is not yet settled, and is settled after the third; a die at speed
      0.2 is never at rest. */
  lemma ThreeFrameScenario()
    ensures var slow := Sample(0.01, 0.2);
      Run(Timer(false, 0.0), [slow, slow], 0.05, 0.4) == Timer(true, 0.4) &&
      !Settled(Run(Timer(false, 0.0), [slow, slow], 0.05, 0.4), 0.4) &&
      Settled(Run(Timer(false, 0.0), [slow, slow, slow], 0.05, 0.4), 0.4)
    ensures var fast := Sample(0.2, 0.2);
      Run(Timer(false, 0.0), [fast, fast, fast], 0.05, 0.4) == Timer(false, 0.0)
  {
    var slow, fast := Sample(0.01, 0.2), Sample(0.2, 0.2);
    var t0 := Timer(false, 0.0);
    var t1 := Frame(t0, slow, 0.05, 0.4);
    var t2 := Frame(t1, slow, 0.05, 0.4);
    var t3 := Frame(t2, slow, 0.05, 0.4);
    assert t1 == Timer(true, 0.2) && t2 == Timer(true, 0.4) && t3 == Timer(true, 0.6);
    assert Run(t2, [], 0.05, 0.4) == t2;
    assert Run(t1, [slow], 0.05, 0.4) == t2;
    assert [slow, slow][1..] == [slow];
    assert Run(t0, [slow, slow], 0.05, 0.4) == t2;
    assert Run(t3, [], 0.05, 0.4) == t3;
    assert Run(t2, [slow], 0.05, 0.4) == t3;
    assert [slow, slow, slow][1..] == [slow, slow];
    assert Run(t1, [slow, slow], 0.05, 0.4) == t3;
    assert Run(t0, [slow, slow, slow], 0.05, 0.4) == t3;
    MovingDieRestartsTimer(t0, [fast, fast, fast], 0.05, 0.4);
  }
}
