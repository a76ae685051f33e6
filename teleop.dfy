/** operatorControl(): configure the pins, then forever raise READY, read a
    2-bit command, lower READY, run the maneuver (fire() for command 3,
    turn(command - 1, dist) otherwise, dist being a fresh 4-bit read) and
    raise isReady again.  The endless loop is modelled over a finite list of
    input frames, one per pass: before each pass the companion computer sets
    the six input pins to the next frame. */
module Teleop {
  import opened Hardware
  import opened Protocol
  import opened Drive
  import opened Launcher

  const FIRE_COMMAND: int := 3

  /** The command a frame carries. */
  function CommandOf(f: Frame): int {
    DecodeCommand(f.cmdA, f.cmdB)
  }

  /** The distance a frame carries. */
  function DistanceOf(f: Frame): int {
    DecodeDistance(Nibble(f.cmd0, f.cmd1, f.cmd2, f.cmd3))
  }

  /** The frame the companion computer sets to send command c and distance d. */
  function EncodeFrame(c: int, d: int): (f: Frame)
    requires 0 <= c <= 3 && 0 <= d <= 15
    ensures CommandOf(f) == c && DistanceOf(f) == d
  {
    var (a, b) := EncodeCommand(c);
    var n := EncodeDistance(d);
    Frame(a, b, n.b0, n.b1, n.b2, n.b3)
  }

  /** The direction turn() receives for a command other than 3. */
  function TurnDir(command: int): int {
    command - 1
  }

  function SetupEvents(): seq<Event> {
    [ConfigurePin(READY, Output), ConfigurePin(CMDA, Input), ConfigurePin(CMDB, Input),
     ConfigurePin(CMD0, Input), ConfigurePin(CMD1, Input), ConfigurePin(CMD2, Input), ConfigurePin(CMD3, Input)]
  }

  function CommandReads(f: Frame): seq<Event> {
    [ReadPin(CMDA, f.cmdA), ReadPin(CMDB, f.cmdB)]
  }

  function DistanceReads(f: Frame): seq<Event> {
    [ReadPin(CMD0, f.cmd0), ReadPin(CMD1, f.cmd1), ReadPin(CMD2, f.cmd2), ReadPin(CMD3, f.cmd3)]
  }

  /** command == 3: READY low, then fire(). */
  function FireTail(pot: seq<int>): seq<Event> {
    [WritePin(READY, false)] + FireEvents(pot)
  }

  /** Any other command: the distance reads, READY low, then turn(command - 1, dist). */
  function TurnTail(f: Frame): seq<Event> {
    DistanceReads(f) + [WritePin(READY, false)] + TurnEvents(TurnDir(CommandOf(f)), DistanceOf(f))
  }

  /** The calls of one pass after the command reads. */
  function ManeuverEvents(f: Frame, pot: seq<int>): seq<Event> {
    if CommandOf(f) == FIRE_COMMAND then FireTail(pot) else TurnTail(f)
  }

  /** The calls of one pass that starts with isReady. */
  function PassEvents(isReady: bool, f: Frame, pot: seq<int>): seq<Event> {
    [WritePin(READY, isReady)] + CommandReads(f) + ManeuverEvents(f, pot)
  }

  /** The maneuver of a pass returns (only fire() can stall on the feed). */
  predicate PassFinished(f: Frame, pot: seq<int>) {
    CommandOf(f) != FIRE_COMMAND || FireDone(pot)
  }

  /** How many potentiometer readings a pass takes. */
  function PassConsumed(f: Frame, pot: seq<int>): nat {
    if CommandOf(f) == FIRE_COMMAND then FireConsumed(pot) else 0
  }

  /** What a bounded run of operatorControl() leaves: the calls after setup,
      the unread readings, how many passes started, and whether the last one
      stalled inside fire(). */
  datatype Run = Run(events: seq<Event>, rest: seq<int>, served: nat, stalled: bool)

  /** The passes over frames, each starting with READY high, until a fire()
      stalls. */
  function Session(frames: seq<Frame>, pot: seq<int>): (run: Run)
    ensures run.served <= |frames| && |run.rest| <= |pot|
    ensures run.stalled ==> 0 < run.served
    ensures !run.stalled ==> run.served == |frames|
    decreases |frames|
  {
    if frames == [] then Run([], pot, 0, false)
    else
      var f := frames[0];
      var es := PassEvents(true, f, pot);
      if !PassFinished(f, pot) then Run(es, pot[PassConsumed(f, pot)..], 1, true)
      else
        var tail := Session(frames[1..], pot[PassConsumed(f, pot)..]);
        Run(es + tail.events, tail.rest, tail.served + 1, tail.stalled)
  }

  // ---------------------------------------------------------------------------
  // Properties of one pass

  /** The calls of a fire pass before fire() itself. */
  function FireHead(isReady: bool, f: Frame): seq<Event> {
    [WritePin(READY, isReady), ReadPin(CMDA, f.cmdA), ReadPin(CMDB, f.cmdB), WritePin(READY, false)]
  }

  /** The calls of a turn pass before turn() itself. */
  function TurnHead(isReady: bool, f: Frame): seq<Event> {
    [WritePin(READY, isReady), ReadPin(CMDA, f.cmdA), ReadPin(CMDB, f.cmdB),
     ReadPin(CMD0, f.cmd0), ReadPin(CMD1, f.cmd1), ReadPin(CMD2, f.cmd2), ReadPin(CMD3, f.cmd3),
     WritePin(READY, false)]
  }

  lemma PassSplit(isReady: bool, f: Frame, pot: seq<int>)
    ensures PassEvents(isReady, f, pot) ==
      if CommandOf(f) == FIRE_COMMAND then FireHead(isReady, f) + FireEvents(pot)
      else TurnHead(isReady, f) + TurnEvents(TurnDir(CommandOf(f)), DistanceOf(f))
  {
  }

  /** The event neither reads a distance pin nor commands a drive motor. */
  predicate OffDrive(e: Event) {
    !(e.ReadPin? && CMD0 <= e.pin <= CMD3) && !Touches(e, LDRIVE) && !Touches(e, RDRIVE)
  }

  lemma FireHeadOffDrive(isReady: bool, f: Frame)
    ensures forall j :: 0 <= j < |FireHead(isReady, f)| ==> OffDrive(FireHead(isReady, f)[j])
  {
  }

  lemma OffDriveAppend(pre: seq<Event>, tail: seq<Event>)
    requires forall j :: 0 <= j < |pre| ==> OffDrive(pre[j])
    requires forall j :: 0 <= j < |tail| ==> LauncherEvent(tail[j])
    ensures forall j :: 0 <= j < |pre + tail| ==> OffDrive((pre + tail)[j])
  {
    forall j | 0 <= j < |pre + tail| ensures OffDrive((pre + tail)[j]) {
      if j >= |pre| {
        assert (pre + tail)[j] == tail[j - |pre|] && LauncherEvent(tail[j - |pre|]);
      }
    }
  }

  /** Command 3 runs fire() after lowering READY; the distance pins are not
      read and the drive motors are not touched. */
  lemma FireDispatch(isReady: bool, f: Frame, pot: seq<int>)
    requires CommandOf(f) == FIRE_COMMAND
    ensures PassEvents(isReady, f, pot) == FireHead(isReady, f) + FireEvents(pot)
    ensures FireHead(isReady, f)[3] == WritePin(READY, false)
    ensures forall i :: 0 <= i < |PassEvents(isReady, f, pot)| ==> OffDrive(PassEvents(isReady, f, pot)[i])
  {
    PassSplit(isReady, f, pot);
    FireHeadOffDrive(isReady, f);
    FireOnlyLaunches(pot);
    OffDriveAppend(FireHead(isReady, f), FireEvents(pot));
  }

  /** Any other command reads the distance, lowers READY and runs
      turn(command - 1, dist); it takes no potentiometer reading and leaves
      both drive motors stopped. */
  lemma TurnDispatch(o: Outputs, isReady: bool, f: Frame, pot: seq<int>)
    requires CommandOf(f) != FIRE_COMMAND
    ensures PassEvents(isReady, f, pot) == TurnHead(isReady, f) + TurnEvents(CommandOf(f) - 1, DistanceOf(f))
    ensures TurnHead(isReady, f)[7] == WritePin(READY, false)
    ensures PassFinished(f, pot) && PassConsumed(f, pot) == 0
    ensures var m := Replay(o, PassEvents(isReady, f, pot)).motors;
      LDRIVE in m && RDRIVE in m && m[LDRIVE] == 0 && m[RDRIVE] == 0
  {
    var head := TurnHead(isReady, f);
    var te := TurnEvents(TurnDir(CommandOf(f)), DistanceOf(f));
    PassSplit(isReady, f, pot);
    ReplayAppend(o, head, te);
    TurnStopsDrive(Replay(o, head), TurnDir(CommandOf(f)), DistanceOf(f));
  }

  /** Commands 1 and 2 turn in opposite directions; command 0, documented as
      "do nothing", turns exactly like command 2. */
  lemma CommandDirections(f: Frame, g: Frame)
    requires DistanceOf(f) == DistanceOf(g)
    ensures CommandOf(f) == 1 ==> TurnSpeed(TurnDir(CommandOf(f))) == DRIVE_SPEED
    ensures CommandOf(f) == 2 ==> TurnSpeed(TurnDir(CommandOf(f))) == -DRIVE_SPEED
    ensures CommandOf(f) == 0 && CommandOf(g) == 2 ==>
      TurnSpeed(TurnDir(CommandOf(f))) == -DRIVE_SPEED &&
      TurnEvents(TurnDir(CommandOf(f)), DistanceOf(f)) == TurnEvents(TurnDir(CommandOf(g)), DistanceOf(g))
  {
  }

  lemma HeadsQuiet(isReady: bool, f: Frame)
    ensures forall j :: 0 <= j < |FireHead(isReady, f)| ==> !IsMotorEvent(FireHead(isReady, f)[j])
    ensures forall j :: 0 <= j < |TurnHead(isReady, f)| ==> !IsMotorEvent(TurnHead(isReady, f)[j])
  {
  }

  lemma NoWriteAmongLauncherEvents(es: seq<Event>)
    requires forall j :: 0 <= j < |es| ==> LauncherEvent(es[j])
    ensures forall j :: 0 <= j < |es| ==> !es[j].WritePin?
  {
  }

  /** One pass lowers READY before its first motor command and keeps it low
      through every motor command and after the maneuver. */
  lemma ReadyLowWhileMoving(o: Outputs, isReady: bool, f: Frame, pot: seq<int>, i: int)
    requires 0 <= i <= |PassEvents(isReady, f, pot)|
    requires i == |PassEvents(isReady, f, pot)| || IsMotorEvent(PassEvents(isReady, f, pot)[i])
    ensures READY in Replay(o, PassEvents(isReady, f, pot)[..i]).pins
    ensures !Replay(o, PassEvents(isReady, f, pot)[..i]).pins[READY]
  {
    PassSplit(isReady, f, pot);
    HeadsQuiet(isReady, f);
    if CommandOf(f) == FIRE_COMMAND {
      FireOnlyLaunches(pot);
      NoWriteAmongLauncherEvents(FireEvents(pot));
      PinHeldAfterWrite(o, FireHead(isReady, f), FireEvents(pot), i);
    } else {
      PinHeldAfterWrite(o, TurnHead(isReady, f), TurnEvents(TurnDir(CommandOf(f)), DistanceOf(f)), i);
    }
  }

  // ---------------------------------------------------------------------------
  // Properties of a run

  /** A run stalls only in a fire() pass, and then it has used up the feed. */
  lemma {:induction false} StallIsFire(frames: seq<Frame>, pot: seq<int>)
    requires Session(frames, pot).stalled
    ensures CommandOf(frames[Session(frames, pot).served - 1]) == FIRE_COMMAND
    ensures Session(frames, pot).rest == []
    decreases |frames|
  {
    var f := frames[0];
    if PassFinished(f, pot) {
      var rest := pot[PassConsumed(f, pot)..];
      StallIsFire(frames[1..], rest);
      assert frames[1..][Session(frames[1..], rest).served - 1] == frames[Session(frames, pot).served - 1];
    }
  }

  // ---------------------------------------------------------------------------
  // The operations

  /** The fire branch of a pass. */
  method FireManeuver(hw: Cortex) returns (finished: bool)
    modifies hw
    ensures hw.trace == old(hw.trace) + FireTail(old(hw.pot))
    ensures hw.pot == old(hw.pot)[FireConsumed(old(hw.pot))..]
    ensures finished == FireDone(old(hw.pot)) && hw.inputs == old(hw.inputs)
  {
    ghost var t0 := hw.trace;
    hw.DigitalWrite(READY, false);
    finished := Fire(hw);
    ConcatAssoc(t0, [WritePin(READY, false)], FireEvents(old(hw.pot)));
  }

  /** The turn branch of a pass: dist is read fresh from the distance pins. */
  method TurnManeuver(hw: Cortex, command: int) returns (dist: int)
    requires command == CommandOf(hw.inputs) && command != FIRE_COMMAND
    modifies hw
    ensures hw.trace == old(hw.trace) + TurnTail(old(hw.inputs))
    ensures dist == DistanceOf(old(hw.inputs))
    ensures hw.pot == old(hw.pot) && hw.inputs == old(hw.inputs)
  {
    ghost var t0, f := hw.trace, hw.inputs;
    var d0 := hw.DigitalRead(CMD0);
    var d1 := hw.DigitalRead(CMD1);
    var d2 := hw.DigitalRead(CMD2);
    var d3 := hw.DigitalRead(CMD3);
    dist := Bit(d0) + Bit(d1) * 2 + Bit(d2) * 4 + Bit(d3) * 8;
    hw.DigitalWrite(READY, false);
    ghost var head := DistanceReads(f) + [WritePin(READY, false)];
    assert hw.trace == t0 + head;
    Turn(hw, command - 1, dist);
    ConcatAssoc(t0, head, TurnEvents(TurnDir(command), dist));
  }

  /** One pass of the while (1) loop, as written; finished is false when
      fire() is still busy-waiting once the feed runs out. */
  method Pass(hw: Cortex, isReady: bool, dist: int) returns (finished: bool, isReadyAfter: bool, command: int, distAfter: int)
    modifies hw
    ensures var f, pot := old(hw.inputs), old(hw.pot);
      hw.trace == old(hw.trace) + PassEvents(isReady, f, pot) &&
      hw.pot == pot[PassConsumed(f, pot)..] &&
      finished == PassFinished(f, pot) &&
      command == CommandOf(f) &&
      distAfter == (if command == FIRE_COMMAND then dist else DistanceOf(f))
    ensures hw.Out() == Replay(old(hw.Out()), PassEvents(isReady, old(hw.inputs), old(hw.pot)))
    ensures isReadyAfter == finished && hw.inputs == old(hw.inputs)
  {
    ghost var t0, f, pot := hw.trace, hw.inputs, hw.pot;
    hw.DigitalWrite(READY, isReady);
    var a := hw.DigitalRead(CMDA);
    var b := hw.DigitalRead(CMDB);
    command := Bit(a) + Bit(b) * 2;
    ghost var head := [WritePin(READY, isReady)] + CommandReads(f);
    assert hw.trace == t0 + head;
    if command == FIRE_COMMAND {
      isReadyAfter := false;
      finished := FireManeuver(hw);
      if finished {
        isReadyAfter := true;
      }
      distAfter := dist;
    } else {
      isReadyAfter := false;
      distAfter := TurnManeuver(hw, command);
      isReadyAfter := true;
      finished := true;
    }
    ConcatAssoc(t0, head, ManeuverEvents(f, pot));
    ReplayAppend(Cortex.Start, t0, PassEvents(isReady, f, pot));
  }

  /** The configuration of the seven shared pins. */
  method PreparePins(hw: Cortex)
    modifies hw
    ensures hw.trace == old(hw.trace) + SetupEvents()
    ensures hw.pot == old(hw.pot) && hw.inputs == old(hw.inputs)
  {
    hw.PinMode(READY, Output);
    hw.PinMode(CMDA, Input);
    hw.PinMode(CMDB, Input);
    hw.PinMode(CMD0, Input);
    hw.PinMode(CMD1, Input);
    hw.PinMode(CMD2, Input);
    hw.PinMode(CMD3, Input);
  }

  /** After done, the passes over frames[n..] on pot complete the run whole. */
  ghost predicate Pending(frames: seq<Frame>, n: nat, pot: seq<int>, done: seq<Event>, whole: Run) {
    n <= |frames| &&
    var left := Session(frames[n..], pot);
    done + left.events == whole.events && left.rest == whole.rest &&
    n + left.served == whole.served && left.stalled == whole.stalled
  }

  /** One more pass of a run: either the run goes on from the next frame,
      or this pass stalled and the run is over. */
  lemma SessionAdvance(frames: seq<Frame>, n: nat, pot: seq<int>, done: seq<Event>, whole: Run)
    requires n < |frames| && Pending(frames, n, pot, done, whole)
    ensures var f := frames[n];
      var done', pot' := done + PassEvents(true, f, pot), pot[PassConsumed(f, pot)..];
      if PassFinished(f, pot) then Pending(frames, n + 1, pot', done', whole)
      else done' == whole.events && pot' == whole.rest && n + 1 == whole.served && whole.stalled
  {
    var f := frames[n];
    assert frames[n..][0] == f && frames[n..][1..] == frames[n + 1..];
    var step := PassEvents(true, f, pot);
    var pot' := pot[PassConsumed(f, pot)..];
    if PassFinished(f, pot) {
      ConcatAssoc(done, step, Session(frames[n + 1..], pot').events);
    }
  }

  /** One loop pass on frames[n], which the companion computer has just set
      on the input pins, tracked against the run whole. */
  method ServeFrame(hw: Cortex, frames: seq<Frame>, n: nat, isReady: bool, dist: int,
                    ghost t0: seq<Event>, ghost done: seq<Event>, ghost whole: Run)
      returns (finished: bool, isReadyAfter: bool, command: int, distAfter: int, ghost doneAfter: seq<Event>)
    requires n < |frames| && isReady && 0 <= dist <= 15
    requires hw.trace == t0 + done && Pending(frames, n, hw.pot, done, whole)
    modifies hw
    ensures hw.trace == t0 + doneAfter && hw.inputs == frames[n] && 0 <= distAfter <= 15
    ensures finished ==> isReadyAfter && Pending(frames, n + 1, hw.pot, doneAfter, whole)
    ensures !finished ==> doneAfter == whole.events && hw.pot == whole.rest && n + 1 == whole.served && whole.stalled
  {
    hw.SetInputs(frames[n]);
    SessionAdvance(frames, n, hw.pot, done, whole);
    ghost var step := PassEvents(true, frames[n], hw.pot);
    finished, isReadyAfter, command, distAfter := Pass(hw, isReady, dist);
    ConcatAssoc(t0, done, step);
    doneAfter := done + step;
  }

  /** operatorControl() over the input frames, one loop pass per frame,
      stopping early when a fire() pass stalls. */
  method OperatorControl(hw: Cortex, frames: seq<Frame>) returns (stalled: bool)
    modifies hw
    ensures var run := Session(frames, old(hw.pot));
      hw.trace == old(hw.trace) + SetupEvents() + run.events &&
      hw.pot == run.rest && stalled == run.stalled &&
      hw.inputs == (if run.served == 0 then old(hw.inputs) else frames[run.served - 1])
  {
    var isReady := true;
    var command := 0;
    var dist := 0;

    // Prepare pins
    PreparePins(hw);

    ghost var t0, inputs0 := hw.trace, hw.inputs;
    ghost var whole := Session(frames, hw.pot);
    ghost var done: seq<Event> := [];
    assert frames[0..] == frames;
    var n := 0;
    stalled := false;
    while n < |frames| && !stalled
      invariant 0 <= n <= |frames| && 0 <= dist <= 15
      invariant hw.trace == t0 + done
      invariant !stalled ==> isReady && Pending(frames, n, hw.pot, done, whole)
      invariant stalled ==> done == whole.events && hw.pot == whole.rest && n == whole.served && whole.stalled
      invariant hw.inputs == (if n == 0 then inputs0 else frames[n - 1])
      decreases |frames| - n
    {
      var finished;
      finished, isReady, command, dist, done := ServeFrame(hw, frames, n, isReady, dist, t0, done, whole);
      stalled := !finished;
      n := n + 1;
    }
    if !stalled {
      assert frames[n..] == [];
    }
    assert done == whole.events && hw.pot == whole.rest && stalled == whole.stalled && n == whole.served;
  }
}
