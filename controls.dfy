/** Control messages: steering and motor-speed samples, de-duplicated against the
    previous sample and written to the board only while the link is up and ready,
    and the game-controller routing that feeds them. */
module Controls {
  import opened CarTypes
  import Connectivity

  /** The affine map from a steering axis value in -1..1 to a servo position in 0..1. */
  function ServoValue(x: real): (v: real)
    ensures x == 2.0 * v - 1.0
    ensures -1.0 <= x <= 1.0 <==> 0.0 <= v <= 1.0
  {
    0.5 * (x + 1.0)
  }

  /** The map sends full left, centre and full right to 0, 0.5 and 1. */
  lemma ServoValueEndpoints()
    ensures ServoValue(-1.0) == 0.0 && ServoValue(0.0) == 0.5 && ServoValue(1.0) == 1.0
  {
  }

  /** Whether a channel write reaches the board: connected, ready and the control object built. */
  predicate LinkUp(s: State) {
    s.bleConnected && s.bleReady && s.control.Some?
  }

  /** Under the connectivity invariant a write is gated by exactly the two flags the code tests. */
  lemma LinkUpIsConnectedAndReady(s: State)
    requires Connectivity.BleInv(s)
    ensures LinkUp(s) <==> s.bleConnected && s.bleReady
  {
  }

  /** updateSteering: drop a repeat, otherwise remember the sample and, with the link up,
      send its servo position to output 0. */
  function UpdateSteering(s: State, x: real): (r: State)
    ensures x == s.prevSteering ==> r == s
    ensures r.prevSteering == x
    ensures s.log <= r.log && |r.log| <= |s.log| + 1
    ensures |r.log| == |s.log| + 1 <==> x != s.prevSteering && LinkUp(s)
    ensures |r.log| == |s.log| + 1 ==> r.log[|s.log|] == Servo(SteeringChannel, ServoValue(x))
    ensures r.(prevSteering := s.prevSteering, log := s.log) == s
  {
    if x == s.prevSteering then s
    else
      var remembered := s.(prevSteering := x);
      if LinkUp(remembered) then remembered.(log := remembered.log + [Servo(SteeringChannel, ServoValue(x))])
      else remembered
  }

  /** updateMotorSpeed: the same rule for the throttle, written raw to PWM output 6. */
  function UpdateMotorSpeed(s: State, y: real): (r: State)
    ensures y == s.prevMotorSpeed ==> r == s
    ensures r.prevMotorSpeed == y
    ensures s.log <= r.log && |r.log| <= |s.log| + 1
    ensures |r.log| == |s.log| + 1 <==> y != s.prevMotorSpeed && LinkUp(s)
    ensures |r.log| == |s.log| + 1 ==> r.log[|s.log|] == Pwm(ThrottleChannel, y)
    ensures r.(prevMotorSpeed := s.prevMotorSpeed, log := s.log) == s
  {
    if y == s.prevMotorSpeed then s
    else
      var remembered := s.(prevMotorSpeed := y);
      if LinkUp(remembered) then remembered.(log := remembered.log + [Pwm(ThrottleChannel, y)])
      else remembered
  }

  /** Two identical consecutive samples produce at most one write. */
  lemma RepeatedSampleWritesOnce(s: State, x: real, y: real)
    ensures UpdateSteering(UpdateSteering(s, x), x) == UpdateSteering(s, x)
    ensures |UpdateSteering(UpdateSteering(s, x), x).log| <= |s.log| + 1
    ensures UpdateMotorSpeed(UpdateMotorSpeed(s, y), y) == UpdateMotorSpeed(s, y)
    ensures |UpdateMotorSpeed(UpdateMotorSpeed(s, y), y).log| <= |s.log| + 1
  {
  }

  /** The previous sample is remembered whether or not it was written, so a value
      first seen while the link is down is never sent once the link comes back:
      after didConnect the same value is dropped as a repeat, and the board gets
      nothing until the stick moves. */
  lemma SampleSeenWhileDownIsNotResent(s: State, x: real)
    requires Connectivity.BleInv(s) && !s.bleConnected && s.selectedPeripheral.Some?
    requires x != s.prevSteering
    ensures var up := Connectivity.DidConnect(UpdateSteering(s, x));
      LinkUp(up) && UpdateSteering(up, x) == up
    ensures Servo(SteeringChannel, ServoValue(x)) !in UpdateSteering(s, x).log[|s.log|..]
  {
  }

  /** The game-controller elements the value-changed handler distinguishes. */
  datatype GamepadElement =
    | LeftTrigger | RightTrigger | LeftShoulder | RightShoulder | Dpad
    | LeftThumbstick(leftX: real, leftY: real)
    | RightThumbstick(rightX: real, rightY: real)
    | ButtonA | ButtonB | ButtonX | ButtonY | OtherElement

  /** The value-changed handler: the left stick's y axis drives the motor, the right
      stick's x axis the steering; every other element only logs to the console. */
  function GamepadValueChanged(s: State, e: GamepadElement): (r: State)
    ensures e.LeftThumbstick? ==> r == UpdateMotorSpeed(s, e.leftY)
    ensures e.RightThumbstick? ==> r == UpdateSteering(s, e.rightX)
    ensures !e.LeftThumbstick? && !e.RightThumbstick? ==> r == s
  {
    match e
    case LeftThumbstick(_, y) => UpdateMotorSpeed(s, y)
    case RightThumbstick(x, _) => UpdateSteering(s, x)
    case _ => s
  }

  /** A stream of game-controller changes handled in order. */
  function FeedGamepad(s: State, es: seq<GamepadElement>): State
    decreases |es|
  {
    if es == [] then s else FeedGamepad(GamepadValueChanged(s, es[0]), es[1..])
  }

  /** The last steering sample in a stream, or `prev` if it holds none. */
  function LastSteering(es: seq<GamepadElement>, prev: real): real
    decreases |es|
  {
    if es == [] then prev
    else LastSteering(es[1..], if es[0].RightThumbstick? then es[0].rightX else prev)
  }

  /** While the link is not up, no sample reaches the board: the log is untouched,
      the link flags stay as they are, and the remembered steering value is the last
      sample seen. */
  lemma {:induction false} SamplesDroppedWhileDown(s: State, es: seq<GamepadElement>)
    requires !(s.bleConnected && s.bleReady)
    ensures FeedGamepad(s, es).log == s.log
    ensures FeedGamepad(s, es).prevSteering == LastSteering(es, s.prevSteering)
    ensures FeedGamepad(s, es).(prevSteering := s.prevSteering, prevMotorSpeed := s.prevMotorSpeed) == s
    decreases |es|
  {
    if es != [] {
      SamplesDroppedWhileDown(GamepadValueChanged(s, es[0]), es[1..]);
    }
  }
}
