/** turn(dir, dist): a timed pivot on the spot.  Both drive motors get the same
    signed speed; since the left drive is mounted reversed ("negative
    forwards"), equal speeds turn the robot.  dir == 0 means left; any other
    value the opposite way.  dist is a duration in units of 32 ms. */
module Drive {
  import opened Hardware

  const DRIVE_SPEED: int := 127
  const DIST_SCALE: int := 32

  /** The speed both drive motors receive: +127 exactly when dir is 0
      (C treats every nonzero dir as true). */
  function TurnSpeed(dir: int): (s: int)
    ensures s == DRIVE_SPEED <==> dir == 0
    ensures s == -DRIVE_SPEED <==> dir != 0
  {
    if dir != 0 then -DRIVE_SPEED else DRIVE_SPEED
  }

  /** How long the motors run: dist scaled by 32 ms. */
  function TurnDelay(dist: int): (ms: int)
    ensures ms % DIST_SCALE == 0 && ms / DIST_SCALE == dist
    ensures 0 <= dist <= 15 ==> 0 <= ms <= 15 * DIST_SCALE
    ensures dist == 0 ==> ms == 0
  {
    dist * DIST_SCALE
  }

  /** The hardware calls of turn(dir, dist). */
  function TurnEvents(dir: int, dist: int): seq<Event> {
    var s := TurnSpeed(dir);
    [SetMotor(LDRIVE, s), SetMotor(RDRIVE, s), Wait(TurnDelay(dist)), StopMotor(LDRIVE), StopMotor(RDRIVE)]
  }

  /** While turn waits, both drive motors run at TurnSpeed(dir). */
  lemma TurnDrivesDuringDelay(o: Outputs, dir: int, dist: int)
    ensures |TurnEvents(dir, dist)| == 5 && TurnEvents(dir, dist)[2] == Wait(TurnDelay(dist))
    ensures Replay(o, TurnEvents(dir, dist)[..2]).motors == o.motors[LDRIVE := TurnSpeed(dir)][RDRIVE := TurnSpeed(dir)]
    ensures Replay(o, TurnEvents(dir, dist)[..2]).motors[LDRIVE] == Replay(o, TurnEvents(dir, dist)[..2]).motors[RDRIVE]
  {
    var es := TurnEvents(dir, dist);
    assert es[..2] == [] + [es[0]] + [es[1]];
    ReplayStep(o, [], es[0]);
    ReplayStep(o, [es[0]], es[1]);
    assert [] + [es[0]] == [es[0]];
  }

  /** turn returns with both drive motors stopped and nothing else changed. */
  lemma TurnStopsDrive(o: Outputs, dir: int, dist: int)
    ensures Replay(o, TurnEvents(dir, dist)).motors == o.motors[LDRIVE := 0][RDRIVE := 0]
    ensures Replay(o, TurnEvents(dir, dist)).pins == o.pins
  {
    var es := TurnEvents(dir, dist);
    var s := TurnSpeed(dir);
    assert es == [es[0]] + [es[1]] + [es[2]] + [es[3]] + [es[4]];
    ReplayStep(o, [], es[0]);
    ReplayStep(o, [es[0]], es[1]);
    ReplayStep(o, [es[0]] + [es[1]], es[2]);
    ReplayStep(o, [es[0]] + [es[1]] + [es[2]], es[3]);
    ReplayStep(o, [es[0]] + [es[1]] + [es[2]] + [es[3]], es[4]);
    assert [] + [es[0]] == [es[0]];
    assert o.motors[LDRIVE := s][RDRIVE := s][LDRIVE := 0][RDRIVE := 0] == o.motors[LDRIVE := 0][RDRIVE := 0];
  }

  /** turn(dir, dist), in the source's two branches. */
  method Turn(hw: Cortex, dir: int, dist: int)
    modifies hw
    ensures hw.trace == old(hw.trace) + TurnEvents(dir, dist)
    ensures hw.Out() == Replay(old(hw.Out()), TurnEvents(dir, dist))
    ensures hw.inputs == old(hw.inputs) && hw.pot == old(hw.pot)
  {
    ghost var t0 := hw.trace;
    var speed := DRIVE_SPEED;
    var ms := dist * DIST_SCALE;
    if dir != 0 {
      hw.MotorSet(LDRIVE, -speed);
      hw.MotorSet(RDRIVE, -speed);
      hw.Delay(ms);
      hw.MotorStop(LDRIVE);
      hw.MotorStop(RDRIVE);
    } else {
      hw.MotorSet(LDRIVE, speed);
      hw.MotorSet(RDRIVE, speed);
      hw.Delay(ms);
      hw.MotorStop(LDRIVE);
      hw.MotorStop(RDRIVE);
    }
    ReplayAppend(Cortex.Start, t0, TurnEvents(dir, dist));
  }
}
