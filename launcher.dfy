/** fire(): spin up both launcher wheels, drive the trigger forward until the
    potentiometer reads at most 300, drive it back until it reads at least
    500, then stop the trigger and both wheels.  Each loop test is one fresh
    analogRead.  The readings are a finite feed r; when the feed runs out
    before both thresholds are met, the model stops where the robot would
    still be busy-waiting. */
module Launcher {
  import opened Hardware

  const LAUNCH_SPEED: int := 127
  const TRIG_SPEED: int := 127
  const SPIN_UP_MS: int := 500
  const TRIGGER_SHOOT: int := 300   // the forward loop runs while reading > this
  const TRIGGER_READY: int := 500   // the backward loop runs while reading < this

  /** The first index at or after from whose reading is at most bound (|r| if none). */
  function FirstAtOrBelow(r: seq<int>, from: nat, bound: int): (k: nat)
    requires from <= |r|
    ensures from <= k <= |r|
    ensures forall i :: from <= i < k ==> r[i] > bound
    ensures k < |r| ==> r[k] <= bound
    decreases |r| - from
  {
    if from == |r| || r[from] <= bound then from else FirstAtOrBelow(r, from + 1, bound)
  }

  /** The first index at or after from whose reading is at least bound (|r| if none). */
  function FirstAtOrAbove(r: seq<int>, from: nat, bound: int): (j: nat)
    requires from <= |r|
    ensures from <= j <= |r|
    ensures forall i :: from <= i < j ==> r[i] < bound
    ensures j < |r| ==> r[j] >= bound
    decreases |r| - from
  {
    if from == |r| || r[from] >= bound then from else FirstAtOrAbove(r, from + 1, bound)
  }

  /** The reading that ends the forward loop. */
  function ShootIndex(r: seq<int>): nat {
    FirstAtOrBelow(r, 0, TRIGGER_SHOOT)
  }

  /** The reading that ends the backward loop, which starts on the reading after ShootIndex. */
  function ReadyIndex(r: seq<int>): nat
    requires ShootIndex(r) < |r|
  {
    FirstAtOrAbove(r, ShootIndex(r) + 1, TRIGGER_READY)
  }

  /** fire() returns on the feed r. */
  predicate FireDone(r: seq<int>) {
    ShootIndex(r) < |r| && ReadyIndex(r) < |r|
  }

  /** How many readings fire() takes from the feed. */
  function FireConsumed(r: seq<int>): nat {
    if FireDone(r) then ReadyIndex(r) + 1 else |r|
  }

  function SpinUp(): seq<Event> {
    [SetMotor(LAUNCHA, LAUNCH_SPEED), SetMotor(LAUNCHB, -LAUNCH_SPEED), Wait(SPIN_UP_MS)]
  }

  function StopAll(): seq<Event> {
    [StopMotor(TRIG), StopMotor(LAUNCHA), StopMotor(LAUNCHB)]
  }

  /** One loop iteration per reading: read it, then command the trigger. */
  function Pulses(readings: seq<int>, speed: int): (es: seq<Event>)
    ensures |es| == 2 * |readings|
    decreases |readings|
  {
    if readings == [] then []
    else Pulses(readings[..|readings| - 1], speed) + [ReadAnalog(TRIGPOT, readings[|readings| - 1]), SetMotor(TRIG, speed)]
  }

  /** One busy-wait loop over r that starts at reading from and ends on
      reading j (j == |r|: the feed ran out first): every reading before j
      is followed by a trigger command at speed, j itself only by its read. */
  function Loop(r: seq<int>, from: nat, j: nat, speed: int): seq<Event>
    requires from <= j <= |r|
  {
    Pulses(r[from..j], speed) + (if j < |r| then [ReadAnalog(TRIGPOT, r[j])] else [])
  }

  /** The forward loop. */
  function Advance(r: seq<int>): seq<Event> {
    Loop(r, 0, ShootIndex(r), TRIG_SPEED)
  }

  /** The backward loop, which starts on the reading after the one that ended Advance. */
  function Retract(r: seq<int>): seq<Event>
    requires ShootIndex(r) < |r|
  {
    Loop(r, ShootIndex(r) + 1, ReadyIndex(r), -TRIG_SPEED)
  }

  /** Everything fire() issues before its final stops. */
  function FireMoves(r: seq<int>): seq<Event> {
    SpinUp() + Advance(r) + (if ShootIndex(r) < |r| then Retract(r) else [])
  }

  /** The hardware calls of fire() on the feed r. */
  function FireEvents(r: seq<int>): seq<Event> {
    FireMoves(r) + (if FireDone(r) then StopAll() else [])
  }

  // ---------------------------------------------------------------------------
  // Properties of fire()

  /** fire() returns exactly when some reading at most 300 is followed, later
      in the feed, by a reading at least 500. */
  lemma FireDoneIff(r: seq<int>)
    ensures FireDone(r) <==>
      exists i, j :: 0 <= i < j < |r| && r[i] <= TRIGGER_SHOOT && r[j] >= TRIGGER_READY
  {
    if FireDone(r) {
      var i, j := ShootIndex(r), ReadyIndex(r);
      assert 0 <= i < j < |r| && r[i] <= TRIGGER_SHOOT && r[j] >= TRIGGER_READY;
    }
    if exists i, j :: 0 <= i < j < |r| && r[i] <= TRIGGER_SHOOT && r[j] >= TRIGGER_READY {
      var i, j :| 0 <= i < j < |r| && r[i] <= TRIGGER_SHOOT && r[j] >= TRIGGER_READY;
      var k := ShootIndex(r);
      assert k <= i;
      var m := FirstAtOrAbove(r, k + 1, TRIGGER_READY);
      assert m <= j;
    }
  }

  /** Spin-up sets wheel A to +127 and wheel B to -127. */
  lemma SpinUpReplay(o: Outputs)
    ensures Replay(o, SpinUp()) == o.(motors := o.motors[LAUNCHA := LAUNCH_SPEED][LAUNCHB := -LAUNCH_SPEED])
  {
    var s := SpinUp();
    ReplayStep(o, [], s[0]);
    ReplayStep(o, [s[0]], s[1]);
    ReplayStep(o, [s[0], s[1]], s[2]);
    assert [] + [s[0]] == [s[0]] && [s[0]] + [s[1]] == [s[0], s[1]] && [s[0], s[1]] + [s[2]] == s;
  }

  /** The final stops zero the trigger and both wheels. */
  lemma StopAllReplay(o: Outputs)
    ensures Replay(o, StopAll()) == o.(motors := o.motors[TRIG := 0][LAUNCHA := 0][LAUNCHB := 0])
  {
    var s := StopAll();
    ReplayStep(o, [], s[0]);
    ReplayStep(o, [s[0]], s[1]);
    ReplayStep(o, [s[0], s[1]], s[2]);
    assert [] + [s[0]] == [s[0]] && [s[0]] + [s[1]] == [s[0], s[1]] && [s[0], s[1]] + [s[2]] == s;
  }

  /** When fire() returns, the trigger loop ended on a reading at most 300,
      the backward loop on a later reading at least 500, and the trigger and
      both launcher wheels are stopped. */
  lemma FireDoneStopsAll(o: Outputs, r: seq<int>)
    requires FireDone(r)
    ensures 0 < FireConsumed(r) <= |r|
    ensures r[ShootIndex(r)] <= TRIGGER_SHOOT && r[FireConsumed(r) - 1] >= TRIGGER_READY
    ensures ShootIndex(r) < FireConsumed(r) - 1
    ensures var m := Replay(o, FireEvents(r)).motors;
      TRIG in m && LAUNCHA in m && LAUNCHB in m && m[TRIG] == 0 && m[LAUNCHA] == 0 && m[LAUNCHB] == 0
  {
    ReplayAppend(o, FireMoves(r), StopAll());
    StopAllReplay(Replay(o, FireMoves(r)));
  }

  predicate IsTriggerCommand(e: Event) {
    e.SetMotor? && e.port == TRIG
  }

  predicate TriggerPhaseEvent(e: Event) {
    e.ReadAnalog? || IsTriggerCommand(e)
  }

  /** Reads the potentiometer or commands the trigger: nothing else. */
  predicate TriggerOnly(es: seq<Event>) {
    forall i :: 0 <= i < |es| ==> TriggerPhaseEvent(es[i])
  }

  /** The reading prev licenses the trigger command e: forwards on a reading
      above 300, backwards on a reading below 500, no other speed. */
  predicate Justified(prev: Event, e: Event) {
    prev.ReadAnalog? && e.SetMotor? &&
    ((e.speed == TRIG_SPEED && prev.value > TRIGGER_SHOOT) ||
     (e.speed == -TRIG_SPEED && prev.value < TRIGGER_READY))
  }

  /** Every trigger command directly follows a reading that licenses it. */
  predicate TriggerGuarded(es: seq<Event>) {
    forall i :: 0 <= i < |es| && IsTriggerCommand(es[i]) ==> 0 < i && Justified(es[i - 1], es[i])
  }

  lemma {:induction false} PulsesAt(readings: seq<int>, speed: int, m: int)
    requires 0 <= m < |readings|
    ensures Pulses(readings, speed)[2 * m] == ReadAnalog(TRIGPOT, readings[m])
    ensures Pulses(readings, speed)[2 * m + 1] == SetMotor(TRIG, speed)
    decreases |readings|
  {
    var n := |readings| - 1;
    if m < n {
      PulsesAt(readings[..n], speed, m);
    }
  }

  lemma PulsesTriggerOnly(readings: seq<int>, speed: int)
    ensures TriggerOnly(Pulses(readings, speed))
  {
    var es := Pulses(readings, speed);
    forall i | 0 <= i < |es|
      ensures TriggerPhaseEvent(es[i])
    {
      PulsesAt(readings, speed, i / 2);
    }
  }

  lemma PulsesGuarded(readings: seq<int>, speed: int)
    requires forall m :: 0 <= m < |readings| ==>
      (speed == TRIG_SPEED && readings[m] > TRIGGER_SHOOT) ||
      (speed == -TRIG_SPEED && readings[m] < TRIGGER_READY)
    ensures TriggerGuarded(Pulses(readings, speed))
    ensures readings != [] ==> Pulses(readings, speed)[0].ReadAnalog?
  {
    var es := Pulses(readings, speed);
    forall i | 0 <= i < |es| && IsTriggerCommand(es[i])
      ensures 0 < i && Justified(es[i - 1], es[i])
    {
      var m := i / 2;
      PulsesAt(readings, speed, m);
      assert i == 2 * m + 1;
    }
    if readings != [] {
      PulsesAt(readings, speed, 0);
    }
  }

  lemma GuardedAppend(a: seq<Event>, b: seq<Event>)
    requires TriggerGuarded(a) && TriggerGuarded(b)
    requires b != [] ==> !IsTriggerCommand(b[0])
    ensures TriggerGuarded(a + b)
  {
    var es := a + b;
    forall i | 0 <= i < |es| && IsTriggerCommand(es[i])
      ensures 0 < i && Justified(es[i - 1], es[i])
    {
      if i < |a| {
        assert es[i] == a[i] && es[i - 1] == a[i - 1];
      } else {
        assert es[i] == b[i - |a|];
        assert i - |a| > 0;
        assert es[i - 1] == b[i - 1 - |a|];
      }
    }
  }

  lemma AdvanceGuarded(r: seq<int>)
    ensures TriggerGuarded(Advance(r))
    ensures Advance(r) != [] ==> Advance(r)[0].ReadAnalog?
  {
    var k := ShootIndex(r);
    PulsesGuarded(r[0..k], TRIG_SPEED);
    GuardedAppend(Pulses(r[0..k], TRIG_SPEED), if k < |r| then [ReadAnalog(TRIGPOT, r[k])] else []);
  }

  lemma RetractGuarded(r: seq<int>)
    requires ShootIndex(r) < |r|
    ensures TriggerGuarded(Retract(r))
    ensures Retract(r) != [] ==> Retract(r)[0].ReadAnalog?
  {
    var k, j := ShootIndex(r), ReadyIndex(r);
    PulsesGuarded(r[k + 1..j], -TRIG_SPEED);
    GuardedAppend(Pulses(r[k + 1..j], -TRIG_SPEED), if j < |r| then [ReadAnalog(TRIGPOT, r[j])] else []);
  }

  /** The trigger motor gets +127 only right after a reading above 300 and
      -127 only right after a reading below 500; it gets no other speed. */
  lemma FireTriggerGuarded(r: seq<int>)
    ensures TriggerGuarded(FireEvents(r))
  {
    var up, adv := SpinUp(), Advance(r);
    var back: seq<Event> := if ShootIndex(r) < |r| then Retract(r) else [];
    var stop: seq<Event> := if FireDone(r) then StopAll() else [];
    assert TriggerGuarded(up) by {
      forall i | 0 <= i < |up| ensures !IsTriggerCommand(up[i]) { }
    }
    assert TriggerGuarded(stop) by {
      forall i | 0 <= i < |stop| ensures !IsTriggerCommand(stop[i]) { }
    }
    AdvanceGuarded(r);
    if ShootIndex(r) < |r| {
      RetractGuarded(r);
    }
    GuardedAppend(up, adv);
    GuardedAppend(up + adv, back);
    assert FireMoves(r) == up + adv + back;
    GuardedAppend(up + adv + back, stop);
    assert FireEvents(r) == up + adv + back + stop;
  }

  lemma TriggerOnlyAppend(a: seq<Event>, b: seq<Event>)
    requires TriggerOnly(a) && TriggerOnly(b)
    ensures TriggerOnly(a + b)
  {
    var es := a + b;
    forall i | 0 <= i < |es|
      ensures TriggerPhaseEvent(es[i])
    {
      if i < |a| { assert es[i] == a[i]; } else { assert es[i] == b[i - |a|]; }
    }
  }

  lemma AdvanceTriggerOnly(r: seq<int>)
    ensures TriggerOnly(Advance(r))
  {
    var k := ShootIndex(r);
    PulsesTriggerOnly(r[0..k], TRIG_SPEED);
    TriggerOnlyAppend(Pulses(r[0..k], TRIG_SPEED), if k < |r| then [ReadAnalog(TRIGPOT, r[k])] else []);
  }

  lemma RetractTriggerOnly(r: seq<int>)
    requires ShootIndex(r) < |r|
    ensures TriggerOnly(Retract(r))
  {
    var k, j := ShootIndex(r), ReadyIndex(r);
    PulsesTriggerOnly(r[k + 1..j], -TRIG_SPEED);
    TriggerOnlyAppend(Pulses(r[k + 1..j], -TRIG_SPEED), if j < |r| then [ReadAnalog(TRIGPOT, r[j])] else []);
  }

  /** Between spin-up and the final stops, fire() only reads the potentiometer
      and commands the trigger. */
  lemma TriggerPhaseOnly(r: seq<int>)
    ensures FireMoves(r) == SpinUp() + FireMoves(r)[3..]
    ensures TriggerOnly(FireMoves(r)[3..])
  {
    var tail: seq<Event> := [];
    AdvanceTriggerOnly(r);
    if ShootIndex(r) < |r| {
      RetractTriggerOnly(r);
      tail := Retract(r);
    }
    TriggerOnlyAppend(Advance(r), tail);
    assert FireMoves(r) == SpinUp() + (Advance(r) + tail);
    assert FireMoves(r)[3..] == Advance(r) + tail;
  }

  /** The launcher wheels spin (A at +127, B at -127) from the end of spin-up
      until the final stops: during every trigger command, and for good when
      the feed runs out before fire() returns. */
  lemma LaunchersSpin(o: Outputs, r: seq<int>, n: int)
    requires 3 <= n <= |FireMoves(r)|
    ensures var m := Replay(o, FireEvents(r)[..n]).motors;
      LAUNCHA in m && LAUNCHB in m && m[LAUNCHA] == LAUNCH_SPEED && m[LAUNCHB] == -LAUNCH_SPEED
  {
    TriggerPhaseOnly(r);
    var rest := FireMoves(r)[3..];
    var x := rest[..n - 3];
    assert FireEvents(r)[..n] == SpinUp() + x;
    ReplayAppend(o, SpinUp(), x);
    SpinUpReplay(o);
    var p := Replay(o, SpinUp());
    forall i | 0 <= i < |x| ensures !Touches(x[i], LAUNCHA) && !Touches(x[i], LAUNCHB) {
      assert x[i] == rest[i];
    }
    ReplayKeepsMotor(p, x, LAUNCHA);
    ReplayKeepsMotor(p, x, LAUNCHB);
  }

  /** Whenever fire() commands the trigger, both launcher wheels are already spinning. */
  lemma LaunchersSpinWhileTriggerMoves(o: Outputs, r: seq<int>, i: int)
    requires 0 <= i < |FireEvents(r)| && Touches(FireEvents(r)[i], TRIG)
    requires FireEvents(r)[i].SetMotor?
    ensures var m := Replay(o, FireEvents(r)[..i]).motors;
      LAUNCHA in m && LAUNCHB in m && m[LAUNCHA] == LAUNCH_SPEED && m[LAUNCHB] == -LAUNCH_SPEED
  {
    TriggerPhaseOnly(r);
    LaunchersSpin(o, r, i);
  }

  /** When the feed runs out before fire() returns, the wheels are left spinning. */
  lemma FireStalledKeepsLaunchers(o: Outputs, r: seq<int>)
    requires !FireDone(r)
    ensures var m := Replay(o, FireEvents(r)).motors;
      LAUNCHA in m && LAUNCHB in m && m[LAUNCHA] == LAUNCH_SPEED && m[LAUNCHB] == -LAUNCH_SPEED
  {
    assert FireEvents(r) == FireEvents(r)[..|FireMoves(r)|];
    LaunchersSpin(o, r, |FireMoves(r)|);
  }

  /** What fire() may do: read the potentiometer, wait, or command one of
      the trigger and the two launcher wheels. */
  predicate LauncherEvent(e: Event) {
    e.ReadAnalog? || e.Wait? ||
    (IsMotorEvent(e) && (e.port == TRIG || e.port == LAUNCHA || e.port == LAUNCHB))
  }

  /** fire() touches no pin and no drive motor. */
  lemma FireOnlyLaunches(r: seq<int>)
    ensures forall i :: 0 <= i < |FireEvents(r)| ==> LauncherEvent(FireEvents(r)[i])
  {
    TriggerPhaseOnly(r);
    var es, rest := FireEvents(r), FireMoves(r)[3..];
    var stop: seq<Event> := if FireDone(r) then StopAll() else [];
    assert es == SpinUp() + rest + stop;
    forall i | 0 <= i < |es| ensures LauncherEvent(es[i]) {
      if i < 3 {
        assert es[i] == SpinUp()[i];
      } else if i < 3 + |rest| {
        assert es[i] == rest[i - 3] && TriggerPhaseEvent(rest[i - 3]);
      } else {
        assert es[i] == stop[i - 3 - |rest|];
      }
    }
  }

  // ---------------------------------------------------------------------------
  // The operation

  lemma PulsesExtend(r: seq<int>, from: nat, i: nat, speed: int)
    requires from <= i < |r|
    ensures Pulses(r[from..i + 1], speed) == Pulses(r[from..i], speed) + [ReadAnalog(TRIGPOT, r[i]), SetMotor(TRIG, speed)]
  {
    assert r[from..i + 1][..i - from] == r[from..i];
  }

  /** One more pass of a trigger loop: the reading that kept it going and
      the motor command it issued. */
  lemma LoopStep(t0: seq<Event>, r: seq<int>, from: nat, i: nat, speed: int)
    requires from <= i < |r|
    ensures t0 + Pulses(r[from..i], speed) + [ReadAnalog(TRIGPOT, r[i])] + [SetMotor(TRIG, speed)]
      == t0 + Pulses(r[from..i + 1], speed)
  {
    PulsesExtend(r, from, i, speed);
  }

  /** A trigger loop that stopped at reading i. */
  lemma LoopEnds(t0: seq<Event>, r: seq<int>, from: nat, i: nat, speed: int)
    requires from <= i < |r|
    ensures t0 + Pulses(r[from..i], speed) + [ReadAnalog(TRIGPOT, r[i])] == t0 + Loop(r, from, i, speed)
  {
  }

  /** A trigger loop whose feed ran out. */
  lemma LoopStalls(t0: seq<Event>, r: seq<int>, from: nat, speed: int)
    requires from <= |r|
    ensures t0 + Pulses(r[from..|r|], speed) == t0 + Loop(r, from, |r|, speed)
  {
  }

  /** while (analogRead(TRIGPOT) > triggerShoot) motorSet(TRIG, 127);
      on the feed r from reading from on.  ended is false when the feed runs
      out with the loop still going. */
  method TriggerForward(hw: Cortex, ghost r: seq<int>, ghost from: nat) returns (ended: bool)
    requires from <= |r| && hw.pot == r[from..]
    modifies hw
    ensures var k := FirstAtOrBelow(r, from, TRIGGER_SHOOT);
      ended == (k < |r|) &&
      hw.pot == (if ended then r[k + 1..] else []) &&
      hw.trace == old(hw.trace) + Loop(r, from, k, TRIG_SPEED)
    ensures hw.inputs == old(hw.inputs)
  {
    ghost var t0 := hw.trace;
    var triggerShoot := TRIGGER_SHOOT;
    if hw.pot == [] {
      assert FirstAtOrBelow(r, from, TRIGGER_SHOOT) == |r|;
      LoopStalls(t0, r, from, TRIG_SPEED);
      return false;
    }
    ghost var i := from;
    var v := hw.AnalogRead(TRIGPOT);
    while v > triggerShoot
      invariant from <= i < |r| && v == r[i] && hw.pot == r[i + 1..] && hw.inputs == old(hw.inputs)
      invariant forall m :: from <= m < i ==> r[m] > TRIGGER_SHOOT
      invariant hw.trace == t0 + Pulses(r[from..i], TRIG_SPEED) + [ReadAnalog(TRIGPOT, v)]
      decreases |hw.pot|
    {
      hw.MotorSet(TRIG, TRIG_SPEED);
      LoopStep(t0, r, from, i, TRIG_SPEED);
      if hw.pot == [] {
        // the feed ends while the trigger is still travelling
        assert FirstAtOrBelow(r, from, TRIGGER_SHOOT) == |r|;
        LoopStalls(t0, r, from, TRIG_SPEED);
        return false;
      }
      v := hw.AnalogRead(TRIGPOT);
      i := i + 1;
    }
    assert FirstAtOrBelow(r, from, TRIGGER_SHOOT) == i;
    LoopEnds(t0, r, from, i, TRIG_SPEED);
    ended := true;
  }

  /** while (analogRead(TRIGPOT) < triggerReady) motorSet(TRIG, -127);
      on the feed r from reading from on.  ended is false when the feed runs
      out with the loop still going. */
  method TriggerBack(hw: Cortex, ghost r: seq<int>, ghost from: nat) returns (ended: bool)
    requires from <= |r| && hw.pot == r[from..]
    modifies hw
    ensures var j := FirstAtOrAbove(r, from, TRIGGER_READY);
      ended == (j < |r|) &&
      hw.pot == (if ended then r[j + 1..] else []) &&
      hw.trace == old(hw.trace) + Loop(r, from, j, -TRIG_SPEED)
    ensures hw.inputs == old(hw.inputs)
  {
    ghost var t0 := hw.trace;
    var triggerReady := TRIGGER_READY;
    if hw.pot == [] {
      assert FirstAtOrAbove(r, from, TRIGGER_READY) == |r|;
      LoopStalls(t0, r, from, -TRIG_SPEED);
      return false;
    }
    ghost var i := from;
    var v := hw.AnalogRead(TRIGPOT);
    while v < triggerReady
      invariant from <= i < |r| && v == r[i] && hw.pot == r[i + 1..] && hw.inputs == old(hw.inputs)
      invariant forall m :: from <= m < i ==> r[m] < TRIGGER_READY
      invariant hw.trace == t0 + Pulses(r[from..i], -TRIG_SPEED) + [ReadAnalog(TRIGPOT, v)]
      decreases |hw.pot|
    {
      hw.MotorSet(TRIG, -TRIG_SPEED);
      LoopStep(t0, r, from, i, -TRIG_SPEED);
      if hw.pot == [] {
        // the feed ends while the trigger is still travelling
        assert FirstAtOrAbove(r, from, TRIGGER_READY) == |r|;
        LoopStalls(t0, r, from, -TRIG_SPEED);
        return false;
      }
      v := hw.AnalogRead(TRIGPOT);
      i := i + 1;
    }
    assert FirstAtOrAbove(r, from, TRIGGER_READY) == i;
    LoopEnds(t0, r, from, i, -TRIG_SPEED);
    ended := true;
  }

  // How FireEvents and FireConsumed break down at each way out of fire()

  lemma ForwardStalls(r: seq<int>)
    requires ShootIndex(r) == |r|
    ensures !FireDone(r) && FireConsumed(r) == |r| && FireEvents(r) == SpinUp() + Advance(r)
    ensures r[FireConsumed(r)..] == []
  {
    assert FireMoves(r) == SpinUp() + Advance(r) + [];
    assert FireEvents(r) == FireMoves(r) + [];
  }

  lemma BackStalls(r: seq<int>)
    requires ShootIndex(r) < |r| && ReadyIndex(r) == |r|
    ensures !FireDone(r) && FireConsumed(r) == |r| && FireEvents(r) == SpinUp() + Advance(r) + Retract(r)
    ensures r[FireConsumed(r)..] == []
  {
    assert FireEvents(r) == FireMoves(r) + [];
  }

  lemma FireCompletes(r: seq<int>)
    requires ShootIndex(r) < |r| && ReadyIndex(r) < |r|
    ensures FireDone(r) && FireConsumed(r) == ReadyIndex(r) + 1
    ensures FireEvents(r) == SpinUp() + Advance(r) + Retract(r) + StopAll()
  {
  }

  /** The spin-up at the head of fire(). */
  method SpinUpLaunchers(hw: Cortex)
    modifies hw
    ensures hw.trace == old(hw.trace) + SpinUp()
    ensures hw.pot == old(hw.pot) && hw.inputs == old(hw.inputs)
  {
    hw.MotorSet(LAUNCHA, LAUNCH_SPEED);
    hw.MotorSet(LAUNCHB, -LAUNCH_SPEED);
    hw.Delay(SPIN_UP_MS);
  }

  /** The three stops at the end of fire(). */
  method StopLaunchers(hw: Cortex)
    modifies hw
    ensures hw.trace == old(hw.trace) + StopAll()
    ensures hw.pot == old(hw.pot) && hw.inputs == old(hw.inputs)
  {
    hw.MotorStop(TRIG);
    hw.MotorStop(LAUNCHA);
    hw.MotorStop(LAUNCHB);
  }

  /** fire(): spin-up, the two trigger loops, the stops.  done is false when
      the readings run out inside one of the loops. */
  method Fire(hw: Cortex) returns (done: bool)
    modifies hw
    ensures done == FireDone(old(hw.pot))
    ensures hw.trace == old(hw.trace) + FireEvents(old(hw.pot))
    ensures hw.Out() == Replay(old(hw.Out()), FireEvents(old(hw.pot)))
    ensures hw.pot == old(hw.pot)[FireConsumed(old(hw.pot))..]
    ensures hw.inputs == old(hw.inputs)
  {
    ghost var r, t0 := hw.pot, hw.trace;
    ghost var es := SpinUp();

    // Spin up launcher wheel
    SpinUpLaunchers(hw);

    // Advance trigger until fired
    assert r[0..] == r;
    var ended := TriggerForward(hw, r, 0);
    ConcatAssoc(t0, es, Advance(r));
    es := es + Advance(r);
    if !ended {
      ForwardStalls(r);
      ReplayAppend(Cortex.Start, t0, es);
      return false;
    }

    // Retract trigger until ready
    ended := TriggerBack(hw, r, ShootIndex(r) + 1);
    ConcatAssoc(t0, es, Retract(r));
    es := es + Retract(r);
    if !ended {
      BackStalls(r);
      ReplayAppend(Cortex.Start, t0, es);
      return false;
    }

    // Stop all motors
    StopLaunchers(hw);
    ConcatAssoc(t0, es, StopAll());
    es := es + StopAll();
    FireCompletes(r);
    ReplayAppend(Cortex.Start, t0, es);
    done := true;
  }
}
