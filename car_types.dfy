/** Shared data of the car controller's view controller: the peripheral records,
    the camera and recording bookkeeping, the log of calls made to the outside
    world, and the value-level snapshot of every field the handlers touch. */
module CarTypes {

  datatype Option<T> = None | Some(value: T)

  /** A peripheral's identifier (a UUID on the platform), kept abstract. */
  type Uuid = nat

  /** A discovered Bluetooth peripheral, known by its identifier. */
  datatype Peripheral = Peripheral(identifier: Uuid)

  /** One entry of the discovery list: the peripheral and the signal strength it was seen with. */
  datatype Discovery = Discovery(peripheral: Peripheral, rssi: int)

  /** The radio states the Bluetooth stack reports. */
  datatype RadioState = Unknown | Resetting | Unsupported | Unauthorized | PoweredOff | PoweredOn

  /** Outcome of the camera setup, cached once and consulted by every preview action. */
  datatype SessionSetupResult = Success | NotAuthorized | ConfigurationFailed

  /** Camera authorization status as the platform reports it. */
  datatype CameraAuthorization = NotDetermined | Restricted | Denied | Authorized

  /** What happened when the session tried to attach the back wide-angle camera. */
  datatype DeviceProbe = NoDevice | InputCreationFailed | CannotAddInput | InputAdded

  /** A background-task identifier; `Invalid` is the platform's sentinel. */
  datatype TaskId = Invalid | Task(id: nat)

  /** A temporary movie file; the serial stands for the fresh UUID in its name. */
  datatype FileName = TempMovie(serial: nat)

  /** The movie file output attached to the session, and the file it records to, if any. */
  datatype MovieOutput = MovieOutput(recording: Option<FileName>)

  /** The error a finished recording reports: none, or one that still says whether
      the recording finished successfully. */
  datatype RecordingError = NoError | Error(finishedSuccessfully: bool)

  /** Alerts shown when the preview cannot start. */
  datatype Alert = CameraNotAuthorized | UnableToCapture

  /** Every call the controller makes to a collaborator, in order. */
  datatype Event =
    | StartScan
    | StopScan
    | Connect(peripheral: Peripheral)
    | InitDevice(device: Peripheral, maxAnalogOut: nat, maxLcdLines: nat)
    | AnalogOutEnable(index: nat, enable: bool)
    | Servo(servoIndex: nat, servoValue: real)
    | Pwm(pwmIndex: nat, pwmValue: real)
    | BeginConfiguration
    | AddVideoInput
    | CommitConfiguration
    | StartRunning
    | StopRunning
    | AddMovieOutput
    | BeginBackgroundTask(task: TaskId)
    | UseHevc
    | StartRecording(file: FileName)
    | StopRecording
    | SaveToLibrary(saved: FileName)
    | CleanupRun(cleaned: FileName)
    | RemoveFile(removed: FileName)
    | EndBackgroundTask(ended: nat)
    | ShowAlert(alert: Alert)

  /** The device configuration handed to the actuator board on connection. */
  const MaxAnalogOut: nat := 8
  const MaxLcdLines: nat := 2
  /** Analog output 0 drives the steering servo, output 6 the throttle PWM. */
  const SteeringChannel: nat := 0
  const ThrottleChannel: nat := 6

  /** The controller's fields as one value. `control` is the peripheral the
      actuator-control object was built for (absent until the first connection);
      `recordingsStarted` counts the fresh file names handed out so far;
      `log` is the history of outside calls. */
  datatype State = State(
    peripherals: seq<Discovery>,
    selectedPeripheral: Option<Peripheral>,
    bleConnected: bool,
    bleReady: bool,
    control: Option<Peripheral>,
    prevMotorSpeed: real,
    prevSteering: real,
    setupResult: SessionSetupResult,
    isSessionRunning: bool,
    movieFileOutput: Option<MovieOutput>,
    backgroundRecordingID: Option<TaskId>,
    recordingsStarted: nat,
    log: seq<Event>)

  /** The field initialisers of the controller. */
  function Initial(): (s: State)
    ensures s.peripherals == [] && s.selectedPeripheral == None && s.control == None
    ensures !s.bleConnected && !s.bleReady && s.setupResult == Success
    ensures s.movieFileOutput == None && s.backgroundRecordingID == None && s.log == []
    ensures s.prevSteering == 0.0 && s.prevMotorSpeed == 0.0 && !s.isSessionRunning && s.recordingsStarted == 0
  {
    State([], None, false, false, None, 0.0, 0.0, Success, false, None, None, 0, [])
  }

  /** A channel command names one of the board's analog outputs. */
  predicate ChannelOk(e: Event) {
    match e
    case AnalogOutEnable(i, _) => i < MaxAnalogOut
    case Servo(i, _) => i < MaxAnalogOut
    case Pwm(i, _) => i < MaxAnalogOut
    case _ => true
  }

  predicate ChannelsInRange(log: seq<Event>) {
    forall i :: 0 <= i < |log| ==> ChannelOk(log[i])
  }

  lemma ChannelsAppend(a: seq<Event>, b: seq<Event>)
    requires ChannelsInRange(a) && ChannelsInRange(b)
    ensures ChannelsInRange(a + b)
  {
    forall i | 0 <= i < |a + b| ensures ChannelOk((a + b)[i]) {
      if i < |a| { assert (a + b)[i] == a[i]; } else { assert (a + b)[i] == b[i - |a|]; }
    }
  }

  /** The number of times `e` occurs in `log`. */
  function Occurrences(log: seq<Event>, e: Event): nat {
    if log == [] then 0 else (if log[0] == e then 1 else 0) + Occurrences(log[1..], e)
  }

  lemma {:induction false} OccurrencesAppend(a: seq<Event>, b: seq<Event>, e: Event)
    ensures Occurrences(a + b, e) == Occurrences(a, e) + Occurrences(b, e)
  {
    if a == [] {
      assert a + b == b;
    } else {
      assert (a + b)[1..] == a[1..] + b;
      OccurrencesAppend(a[1..], b, e);
    }
  }

  lemma {:induction false} OccurrencesAbsent(log: seq<Event>, e: Event)
    ensures Occurrences(log, e) == 0 <==> e !in log
  {
    if log != [] {
      OccurrencesAbsent(log[1..], e);
      assert log == [log[0]] + log[1..];
    }
  }

  /** The files recordings were started to, in order. */
  function Targets(log: seq<Event>): seq<FileName> {
    if log == [] then []
    else (if log[0].StartRecording? then [log[0].file] else []) + Targets(log[1..])
  }

  lemma {:induction false} TargetsAppend(a: seq<Event>, b: seq<Event>)
    ensures Targets(a + b) == Targets(a) + Targets(b)
  {
    if a == [] {
      assert a + b == b;
    } else {
      var head := if a[0].StartRecording? then [a[0].file] else [];
      assert (a + b)[0] == a[0];
      assert (a + b)[1..] == a[1..] + b;
      TargetsAppend(a[1..], b);
      calc {
        Targets(a + b);
        head + Targets(a[1..] + b);
        head + (Targets(a[1..]) + Targets(b));
        (head + Targets(a[1..])) + Targets(b);
      }
    }
  }

  /** The recording targets so far are TempMovie(0), TempMovie(1), ..., TempMovie(n - 1). */
  predicate Numbered(t: seq<FileName>, n: nat) {
    |t| == n && forall k :: 0 <= k < |t| ==> t[k] == TempMovie(k)
  }
}
