/** The hardware layer the teleop controller runs on: its ports and pins, the
    calls the controller makes into it, and the actuator state those calls
    leave behind.  Every call is logged as an Event; the actuator state is the
    replay of the log (Replay), so properties of a maneuver are properties of
    the events it issues. */
module Hardware {

  // Motor ports
  const LDRIVE: int := 1    // left drive, negative is forwards
  const RDRIVE: int := 10   // right drive, positive is forwards
  const TRIG: int := 2      // trigger, positive fires
  const LAUNCHA: int := 4   // launcher wheel A, positive fires
  const LAUNCHB: int := 5   // launcher wheel B, negative fires

  // Analog channel of the trigger potentiometer
  const TRIGPOT: int := 1

  // Digital pins shared with the companion computer
  const READY: int := 1   // output: high while the robot accepts a command
  const CMDA: int := 2    // command, least significant bit
  const CMDB: int := 3
  const CMD0: int := 4    // distance, least significant bit
  const CMD1: int := 5
  const CMD2: int := 6
  const CMD3: int := 7

  datatype PinDirection = Input | Output

  /** One call into the hardware layer; a read records the value it returned. */
  datatype Event =
    | ConfigurePin(pin: int, direction: PinDirection)   // pinMode
    | WritePin(pin: int, level: bool)                   // digitalWrite
    | ReadPin(pin: int, level: bool)                    // digitalRead
    | ReadAnalog(channel: int, value: int)              // analogRead
    | SetMotor(port: int, speed: int)                   // motorSet
    | StopMotor(port: int)                              // motorStop
    | Wait(ms: int)                                     // delay

  /** What the actuators are doing: the last speed commanded on each motor
      port and the last level written to each output pin. */
  datatype Outputs = Outputs(motors: map<int, int>, pins: map<int, bool>)

  function Effect(o: Outputs, e: Event): Outputs {
    match e
    case WritePin(pin, level) => o.(pins := o.pins[pin := level])
    case SetMotor(port, speed) => o.(motors := o.motors[port := speed])
    case StopMotor(port) => o.(motors := o.motors[port := 0])
    case _ => o
  }

  /** The actuator state after the events es, starting from o. */
  function Replay(o: Outputs, es: seq<Event>): Outputs
    decreases |es|
  {
    if es == [] then o else Effect(Replay(o, es[..|es| - 1]), es[|es| - 1])
  }

  predicate Touches(e: Event, port: int) {
    (e.SetMotor? && e.port == port) || (e.StopMotor? && e.port == port)
  }

  predicate IsMotorEvent(e: Event) {
    e.SetMotor? || e.StopMotor?
  }

  lemma ReplayStep(o: Outputs, es: seq<Event>, e: Event)
    ensures Replay(o, es + [e]) == Effect(Replay(o, es), e)
  {
    assert (es + [e])[..|es|] == es;
  }

  /** Replaying two logs one after the other is replaying their concatenation. */
  lemma {:induction false} ReplayAppend(o: Outputs, a: seq<Event>, b: seq<Event>)
    ensures Replay(o, a + b) == Replay(Replay(o, a), b)
    decreases |b|
  {
    if b == [] {
      assert a + b == a;
    } else {
      var b' := b[..|b| - 1];
      assert a + b == (a + b') + [b[|b| - 1]];
      ReplayStep(o, a + b', b[|b| - 1]);
      ReplayAppend(o, a, b');
      ReplayStep(Replay(o, a), b', b[|b| - 1]);
    }
  }

  lemma ConcatAssoc(a: seq<Event>, b: seq<Event>, c: seq<Event>)
    ensures a + b + c == a + (b + c)
  {
  }

  /** A motor that no event commands keeps its speed. */
  lemma {:induction false} ReplayKeepsMotor(o: Outputs, es: seq<Event>, port: int)
    requires port in o.motors
    requires forall i :: 0 <= i < |es| ==> !Touches(es[i], port)
    ensures port in Replay(o, es).motors && Replay(o, es).motors[port] == o.motors[port]
    decreases |es|
  {
    if es != [] {
      ReplayKeepsMotor(o, es[..|es| - 1], port);
    }
  }

  /** A pin that no event writes keeps its level. */
  lemma {:induction false} ReplayKeepsPin(o: Outputs, es: seq<Event>, pin: int)
    requires pin in o.pins
    requires forall i :: 0 <= i < |es| ==> !(es[i].WritePin? && es[i].pin == pin)
    ensures pin in Replay(o, es).pins && Replay(o, es).pins[pin] == o.pins[pin]
    decreases |es|
  {
    if es != [] {
      ReplayKeepsPin(o, es[..|es| - 1], pin);
    }
  }

  /** pre issues no motor command and ends by writing a pin; tail writes no
      pin.  Then at every motor command of pre + tail, and at its end, the pin
      holds the level pre wrote last. */
  lemma PinHeldAfterWrite(o: Outputs, pre: seq<Event>, tail: seq<Event>, i: int)
    requires pre != [] && pre[|pre| - 1].WritePin?
    requires forall j :: 0 <= j < |pre| ==> !IsMotorEvent(pre[j])
    requires forall j :: 0 <= j < |tail| ==> !tail[j].WritePin?
    requires 0 <= i <= |pre + tail| && (i == |pre + tail| || IsMotorEvent((pre + tail)[i]))
    ensures var w := pre[|pre| - 1];
      w.pin in Replay(o, (pre + tail)[..i]).pins && Replay(o, (pre + tail)[..i]).pins[w.pin] == w.level
  {
    var w := pre[|pre| - 1];
    var mid := tail[..i - |pre|];
    assert (pre + tail)[..i] == pre + mid;
    ReplayAppend(o, pre, mid);
    ReplayStep(o, pre[..|pre| - 1], w);
    assert pre[..|pre| - 1] + [w] == pre;
    forall j | 0 <= j < |mid| ensures !(mid[j].WritePin? && mid[j].pin == w.pin) {
      assert mid[j] == tail[j];
    }
    ReplayKeepsPin(Replay(o, pre), mid, w.pin);
  }

  /** The levels the companion computer holds on the six input pins. */
  datatype Frame = Frame(cmdA: bool, cmdB: bool, cmd0: bool, cmd1: bool, cmd2: bool, cmd3: bool)

  predicate IsInputPin(pin: int) {
    CMDA <= pin <= CMD3
  }

  function Level(f: Frame, pin: int): bool
    requires IsInputPin(pin)
  {
    if pin == CMDA then f.cmdA
    else if pin == CMDB then f.cmdB
    else if pin == CMD0 then f.cmd0
    else if pin == CMD1 then f.cmd1
    else if pin == CMD2 then f.cmd2
    else f.cmd3
  }

  /** The robot's controller board as the teleop code sees it.  The input
      levels and the potentiometer readings are supplied from outside; every
      call is appended to trace, and the actuator state is what the trace
      commands (Out). */
  class Cortex {
    var inputs: Frame
    var pot: seq<int>      // the readings analogRead(TRIGPOT) returns, in order
    var trace: seq<Event>

    /** Nothing has been commanded yet: no motor speed, no pin level. */
    static const Start: Outputs := Outputs(map[], map[])

    constructor (inputs: Frame, pot: seq<int>)
      ensures this.inputs == inputs && this.pot == pot && trace == []
      ensures Out() == Start
    {
      this.inputs := inputs;
      this.pot := pot;
      trace := [];
    }

    /** The actuator state the calls so far leave behind. */
    function Out(): Outputs
      reads this
    {
      Replay(Start, trace)
    }

    /** The companion computer changes the input levels; not a controller call. */
    method SetInputs(f: Frame)
      modifies this
      ensures inputs == f
      ensures pot == old(pot) && trace == old(trace)
    {
      inputs := f;
    }

    method PinMode(pin: int, direction: PinDirection)
      modifies this
      ensures trace == old(trace) + [ConfigurePin(pin, direction)]
      ensures inputs == old(inputs) && pot == old(pot)
    {
      trace := trace + [ConfigurePin(pin, direction)];
    }

    method DigitalWrite(pin: int, level: bool)
      modifies this
      ensures trace == old(trace) + [WritePin(pin, level)]
      ensures inputs == old(inputs) && pot == old(pot)
    {
      trace := trace + [WritePin(pin, level)];
    }

    method DigitalRead(pin: int) returns (level: bool)
      requires IsInputPin(pin)
      modifies this
      ensures level == Level(inputs, pin)
      ensures trace == old(trace) + [ReadPin(pin, level)]
      ensures inputs == old(inputs) && pot == old(pot)
    {
      level := Level(inputs, pin);
      trace := trace + [ReadPin(pin, level)];
    }

    /** Reads the trigger potentiometer: the next reading of the feed. */
    method AnalogRead(channel: int) returns (value: int)
      requires pot != []
      modifies this
      ensures value == old(pot)[0] && pot == old(pot)[1..]
      ensures trace == old(trace) + [ReadAnalog(channel, value)]
      ensures inputs == old(inputs)
    {
      value := pot[0];
      pot := pot[1..];
      trace := trace + [ReadAnalog(channel, value)];
    }

    method MotorSet(port: int, speed: int)
      modifies this
      ensures trace == old(trace) + [SetMotor(port, speed)]
      ensures inputs == old(inputs) && pot == old(pot)
    {
      trace := trace + [SetMotor(port, speed)];
    }

    method MotorStop(port: int)
      modifies this
      ensures trace == old(trace) + [StopMotor(port)]
      ensures inputs == old(inputs) && pot == old(pot)
    {
      trace := trace + [StopMotor(port)];
    }

    /** Blocks for ms milliseconds; only the request is recorded. */
    method Delay(ms: int)
      modifies this
      ensures trace == old(trace) + [Wait(ms)]
      ensures inputs == old(inputs) && pot == old(pot)
    {
      trace := trace + [Wait(ms)];
    }
  }
}
