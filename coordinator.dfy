/** The controller as a whole: every handler as one atomic step over the
    controller's fields, the invariant all of them keep, and the independence
    of the Bluetooth side from the camera side. */
module Coordinator {
  import opened CarTypes
  import Connectivity
  import Controls
  import Capture

  /** One invocation of a handler, with the answers the platform gives it. */
  datatype Handler =
    | OnDiscover(peripheral: Peripheral, rssi: int)
    | OnConnect
    | OnFailToConnect
    | OnDisconnect
    | OnUpdateState(state: RadioState)
    | OnReconnect
    | OnSteering(x: real)
    | OnMotorSpeed(y: real)
    | OnGamepad(element: Controls.GamepadElement)
    | OnInitCamera(status: CameraAuthorization, granted: bool, probe: DeviceProbe)
    | OnStartPreview(running: bool, canAddOutput: bool)
    | OnStopPreview(stillRunning: bool)
    | OnRecordToggle(multitasking: bool, task: TaskId, hevcAvailable: bool)
    | OnFinishRecording(file: FileName, error: RecordingError, photoAuthorized: bool,
                        saveSucceeded: bool, fileExists: bool)

  function Step(s: State, h: Handler): State {
    match h
    case OnDiscover(p, rssi) => Connectivity.Discover(s, Discovery(p, rssi))
    case OnConnect => Connectivity.DidConnect(s)
    case OnFailToConnect => Connectivity.DidFailToConnect(s)
    case OnDisconnect => Connectivity.DidDisconnect(s)
    case OnUpdateState(st) => Connectivity.DidUpdateState(s, st)
    case OnReconnect => Connectivity.TryReconnect(s)
    case OnSteering(x) => Controls.UpdateSteering(s, x)
    case OnMotorSpeed(y) => Controls.UpdateMotorSpeed(s, y)
    case OnGamepad(e) => Controls.GamepadValueChanged(s, e)
    case OnInitCamera(status, granted, probe) => Capture.InitCamera(s, status, granted, probe)
    case OnStartPreview(running, canAdd) => Capture.StartCameraPreview(s, running, canAdd)
    case OnStopPreview(running) => Capture.StopCameraPreview(s, running)
    case OnRecordToggle(multitasking, task, hevc) => Capture.RecordToggle(s, multitasking, task, hevc)
    case OnFinishRecording(file, err, auth, saved, present) =>
      Capture.DidFinishRecording(s, file, err, auth, saved, present)
  }

  function Run(s: State, hs: seq<Handler>): State
    decreases |hs|
  {
    if hs == [] then s else Run(Step(s, hs[0]), hs[1..])
  }

  /** The controller's invariant: the connectivity invariant, every channel command
      naming one of the board's eight outputs, and recording files numbered in order. */
  predicate Inv(s: State) {
    Connectivity.BleInv(s) && ChannelsInRange(s.log) && Capture.TargetsNumbered(s)
  }

  lemma InitialInv()
    ensures Inv(Initial())
  {
  }

  /** Calls that neither address a channel out of range nor start a recording. */
  predicate Quiet(added: seq<Event>) {
    ChannelsInRange(added) && Targets(added) == []
  }

  lemma QuietAppend(s: State, r: State, added: seq<Event>)
    requires ChannelsInRange(s.log) && Capture.TargetsNumbered(s)
    requires r.log == s.log + added && Quiet(added) && r.recordingsStarted == s.recordingsStarted
    ensures ChannelsInRange(r.log) && Capture.TargetsNumbered(r)
  {
    ChannelsAppend(s.log, added);
    TargetsAppend(s.log, added);
  }

  lemma QuietPair(a: Event, b: Event)
    requires ChannelOk(a) && ChannelOk(b) && !a.StartRecording? && !b.StartRecording?
    ensures Quiet([a, b])
  {
    QuietOne(a);
    QuietOne(b);
    assert [a, b] == [a] + [b];
    QuietJoin([a], [b]);
  }

  lemma QuietJoin(a: seq<Event>, b: seq<Event>)
    requires Quiet(a) && Quiet(b)
    ensures Quiet(a + b)
  {
    ChannelsAppend(a, b);
    TargetsAppend(a, b);
  }

  lemma QuietOne(a: Event)
    requires ChannelOk(a) && !a.StartRecording?
    ensures Quiet([a])
  {
    assert [a][1..] == [];
  }

  lemma FinishQuiet(held: Option<TaskId>, file: FileName, saving: bool, fileExists: bool)
    ensures Quiet(Capture.FinishEvents(held, file, saving, fileExists))
  {
    var save: seq<Event> := if saving then [SaveToLibrary(file)] else [];
    var rm: seq<Event> := if fileExists then [RemoveFile(file)] else [];
    var end: seq<Event> := match held case Some(Task(n)) => [EndBackgroundTask(n)] case _ => [];
    assert Capture.FinishEvents(held, file, saving, fileExists) == save + [CleanupRun(file)] + rm + end;
    if saving { QuietOne(SaveToLibrary(file)); }
    QuietOne(CleanupRun(file));
    if fileExists { QuietOne(RemoveFile(file)); }
    if end != [] { assert end == [end[0]]; QuietOne(end[0]); }
    QuietJoin(save, [CleanupRun(file)]);
    QuietJoin(save + [CleanupRun(file)], rm);
    QuietJoin(save + [CleanupRun(file)] + rm, end);
  }

  /** What a control sample appends: nothing or one write to output 0 or 6. */
  lemma ControlQuiet(s: State, r: State)
    requires s.log <= r.log && |r.log| <= |s.log| + 1
    requires |r.log| == |s.log| + 1 ==> r.log[|s.log|].Servo? || r.log[|s.log|].Pwm?
    requires |r.log| == |s.log| + 1 ==> ChannelOk(r.log[|s.log|])
    ensures r.log == s.log + r.log[|s.log|..] && Quiet(r.log[|s.log|..])
  {
    if |r.log| == |s.log| + 1 {
      assert r.log[|s.log|..] == [r.log[|s.log|]];
      QuietOne(r.log[|s.log|]);
    } else {
      assert r.log[|s.log|..] == [];
    }
  }

  /** Every handler keeps the invariant. */
  lemma StepPreservesInv(s: State, h: Handler)
    requires Inv(s)
    ensures Inv(Step(s, h))
  {
    if IsConnectivityHandler(h) {
      ConnectivityStepKeeps(s, h);
    } else {
      CaptureStepKeeps(s, h);
    }
  }

  /** The Bluetooth and control handlers keep the invariant. */
  lemma ConnectivityStepKeeps(s: State, h: Handler)
    requires Inv(s) && IsConnectivityHandler(h)
    ensures Inv(Step(s, h))
  {
    var r := Step(s, h);
    match h {
      case OnDiscover(p, rssi) =>
        if r != s {
          QuietPair(StopScan, Connect(r.peripherals[0].peripheral));
          QuietAppend(s, r, [StopScan, Connect(r.peripherals[0].peripheral)]);
        }
      case OnConnect =>
        ConnectQuiet(s);
      case OnFailToConnect =>
        QuietPair(StopScan, StartScan);
        QuietAppend(s, r, [StopScan, StartScan]);
      case OnDisconnect =>
        QuietPair(StopScan, StartScan);
        QuietAppend(s, r, [StopScan, StartScan]);
      case OnUpdateState(st) =>
        QuietOne(StartScan);
        if st == PoweredOn { QuietAppend(s, r, [StartScan]); }
      case OnReconnect =>
        QuietPair(StopScan, StartScan);
        QuietAppend(s, r, [StopScan, StartScan]);
      case OnSteering(x) =>
        ControlQuiet(s, r);
        QuietAppend(s, r, r.log[|s.log|..]);
      case OnMotorSpeed(y) =>
        ControlQuiet(s, r);
        QuietAppend(s, r, r.log[|s.log|..]);
      case OnGamepad(e) =>
        ControlQuiet(s, r);
        QuietAppend(s, r, r.log[|s.log|..]);
      case _ =>
    }
  }

  /** The camera handlers keep the invariant. */
  lemma CaptureStepKeeps(s: State, h: Handler)
    requires Inv(s) && !IsConnectivityHandler(h)
    ensures Inv(Step(s, h))
  {
    var r := Step(s, h);
    match h {
      case OnInitCamera(status, granted, probe) =>
        InitCameraQuiet(s, status, granted, probe);
      case OnStartPreview(running, canAdd) =>
        StartPreviewQuiet(s, running, canAdd);
      case OnStopPreview(running) =>
        QuietOne(StopRunning);
        if s.setupResult == Success { QuietAppend(s, r, [StopRunning]); }
      case OnRecordToggle(multitasking, task, hevc) =>
        RecordToggleKeeps(s, multitasking, task, hevc);
      case OnFinishRecording(file, err, auth, saved, present) =>
        Capture.FinishRecordingState(s, file, err, auth, saved, present);
        var added := Capture.FinishEvents(s.backgroundRecordingID, file, Capture.RecordingSucceeded(err) && auth, present);
        FinishQuiet(s.backgroundRecordingID, file, Capture.RecordingSucceeded(err) && auth, present);
        QuietAppend(s, r, added);
      case _ =>
    }
  }

  lemma ConnectQuiet(s: State)
    requires Inv(s)
    ensures Inv(Connectivity.DidConnect(s))
  {
    if s.selectedPeripheral.Some? {
      var r := Connectivity.DidConnect(s);
      var added := [InitDevice(s.selectedPeripheral.value, MaxAnalogOut, MaxLcdLines),
                    AnalogOutEnable(SteeringChannel, true), AnalogOutEnable(ThrottleChannel, true)];
      assert r.log == s.log + added;
      QuietOne(added[0]);
      QuietPair(added[1], added[2]);
      assert added == [added[0]] + [added[1], added[2]];
      QuietJoin([added[0]], [added[1], added[2]]);
      QuietAppend(s, r, added);
    }
  }

  lemma InitCameraQuiet(s: State, status: CameraAuthorization, granted: bool, probe: DeviceProbe)
    requires Inv(s)
    ensures Inv(Capture.InitCamera(s, status, granted, probe))
  {
    var checked := if Capture.CameraAllowed(status, granted) then s else s.(setupResult := NotAuthorized);
    assert Capture.InitCamera(s, status, granted, probe) == Capture.ConfigureSession(checked, probe);
    ConfigureQuiet(checked, probe);
  }

  lemma ConfigureQuiet(s: State, probe: DeviceProbe)
    requires Inv(s)
    ensures Inv(Capture.ConfigureSession(s, probe))
  {
    if s.setupResult == Success {
      var r := Capture.ConfigureSession(s, probe);
      QuietPair(BeginConfiguration, CommitConfiguration);
      if probe == InputAdded {
        QuietOne(BeginConfiguration);
        QuietPair(AddVideoInput, CommitConfiguration);
        QuietJoin([BeginConfiguration], [AddVideoInput, CommitConfiguration]);
        assert [BeginConfiguration] + [AddVideoInput, CommitConfiguration] == [BeginConfiguration, AddVideoInput, CommitConfiguration];
        QuietAppend(s, r, [BeginConfiguration, AddVideoInput, CommitConfiguration]);
      } else {
        QuietAppend(s, r, [BeginConfiguration, CommitConfiguration]);
      }
    }
  }

  lemma StartPreviewQuiet(s: State, running: bool, canAdd: bool)
    requires Inv(s)
    ensures Inv(Capture.StartCameraPreview(s, running, canAdd))
  {
    var r := Capture.StartCameraPreview(s, running, canAdd);
    var added := r.log[|s.log|..];
    assert r.log == s.log + added;
    QuietOne(StartRunning);
    QuietOne(ShowAlert(CameraNotAuthorized));
    QuietOne(ShowAlert(UnableToCapture));
    QuietOne(AddMovieOutput);
    QuietPair(BeginConfiguration, CommitConfiguration);
    var attach := [BeginConfiguration, AddMovieOutput, CommitConfiguration];
    assert attach == [BeginConfiguration] + [AddMovieOutput] + [CommitConfiguration];
    QuietJoin([BeginConfiguration], [AddMovieOutput]);
    QuietJoin([BeginConfiguration] + [AddMovieOutput], [CommitConfiguration]);
    QuietJoin([StartRunning], attach);
    assert added == [StartRunning] || added == [StartRunning] + attach ||
           added == [ShowAlert(CameraNotAuthorized)] || added == [ShowAlert(UnableToCapture)];
    QuietAppend(s, r, added);
  }

  lemma RecordToggleKeeps(s: State, multitasking: bool, task: TaskId, hevc: bool)
    requires Inv(s)
    ensures Inv(Capture.RecordToggle(s, multitasking, task, hevc))
  {
    var r := Capture.RecordToggle(s, multitasking, task, hevc);
    if s.movieFileOutput.Some? && !Capture.IsRecording(s) {
      Capture.RecordStartUsesFreshFile(s, multitasking, task, hevc);
      ChannelsAppend(s.log, Capture.StartEvents(multitasking, task, hevc, Capture.NextTarget(s)));
    } else if Capture.IsRecording(s) {
      QuietOne(StopRecording);
      QuietAppend(s, r, [StopRecording]);
    }
  }

  /** Any sequence of handlers keeps the invariant; in particular the discovery list
      never holds an identifier twice. */
  lemma {:induction false} RunPreservesInv(s: State, hs: seq<Handler>)
    requires Inv(s)
    ensures Inv(Run(s, hs))
    ensures Connectivity.DistinctIds(Run(s, hs).peripherals)
    decreases |hs|
  {
    if hs != [] {
      StepPreservesInv(s, hs[0]);
      RunPreservesInv(Step(s, hs[0]), hs[1..]);
    }
  }

  /** The Bluetooth and control-input handlers, as opposed to the camera handlers. */
  predicate IsConnectivityHandler(h: Handler) {
    h.OnDiscover? || h.OnConnect? || h.OnFailToConnect? || h.OnDisconnect? || h.OnUpdateState?
    || h.OnReconnect? || h.OnSteering? || h.OnMotorSpeed? || h.OnGamepad?
  }

  /** The Bluetooth and control fields alone, everything else erased. */
  function BleView(s: State): State {
    s.(setupResult := Success, isSessionRunning := false, movieFileOutput := None,
       backgroundRecordingID := None, recordingsStarted := 0, log := [])
  }

  /** The camera fields alone, everything else erased. */
  function CamView(s: State): State {
    s.(peripherals := [], selectedPeripheral := None, bleConnected := false, bleReady := false,
       control := None, prevMotorSpeed := 0.0, prevSteering := 0.0, log := [])
  }

  /** A Bluetooth or control handler leaves the camera fields alone and depends on
      the Bluetooth and control fields only. */
  lemma ConnectivityIsLocal(s: State, t: State, h: Handler)
    requires IsConnectivityHandler(h)
    ensures CamView(Step(s, h)) == CamView(s)
    ensures BleView(s) == BleView(t) ==> BleView(Step(s, h)) == BleView(Step(t, h))
  {
  }

  /** A camera handler leaves the Bluetooth and control fields alone and depends on
      the camera fields only. */
  lemma CaptureIsLocal(s: State, t: State, h: Handler)
    requires !IsConnectivityHandler(h)
    ensures BleView(Step(s, h)) == BleView(s)
    ensures CamView(s) == CamView(t) ==> CamView(Step(s, h)) == CamView(Step(t, h))
  {
    match h {
      case OnInitCamera(status, granted, probe) => InitCameraIsLocal(s, t, status, granted, probe);
      case OnStartPreview(running, canAdd) => StartPreviewIsLocal(s, t, running, canAdd);
      case OnStopPreview(running) =>
      case OnRecordToggle(multitasking, task, hevc) => RecordToggleIsLocal(s, t, multitasking, task, hevc);
      case OnFinishRecording(file, err, auth, saved, present) =>
        Capture.FinishRecordingState(s, file, err, auth, saved, present);
        Capture.FinishRecordingState(t, file, err, auth, saved, present);
    }
  }

  lemma InitCameraIsLocal(s: State, t: State, status: CameraAuthorization, granted: bool, probe: DeviceProbe)
    ensures BleView(Capture.InitCamera(s, status, granted, probe)) == BleView(s)
    ensures CamView(s) == CamView(t) ==>
      CamView(Capture.InitCamera(s, status, granted, probe)) == CamView(Capture.InitCamera(t, status, granted, probe))
  {
  }

  lemma StartPreviewIsLocal(s: State, t: State, running: bool, canAdd: bool)
    ensures BleView(Capture.StartCameraPreview(s, running, canAdd)) == BleView(s)
    ensures CamView(s) == CamView(t) ==>
      CamView(Capture.StartCameraPreview(s, running, canAdd)) == CamView(Capture.StartCameraPreview(t, running, canAdd))
  {
  }

  lemma RecordToggleIsLocal(s: State, t: State, multitasking: bool, task: TaskId, hevc: bool)
    ensures BleView(Capture.RecordToggle(s, multitasking, task, hevc)) == BleView(s)
    ensures CamView(s) == CamView(t) ==>
      CamView(Capture.RecordToggle(s, multitasking, task, hevc)) == CamView(Capture.RecordToggle(t, multitasking, task, hevc))
  {
  }

  /** The two groups of handlers cannot disturb each other's fields, whatever queue
      or thread delivers them: a Bluetooth or control handler and a camera handler
      reach the same fields in either order (only the interleaving of their calls in
      the log differs). */
  lemma HandlersCommute(s: State, ble: Handler, cam: Handler)
    requires IsConnectivityHandler(ble) && !IsConnectivityHandler(cam)
    ensures Step(Step(s, ble), cam).(log := []) == Step(Step(s, cam), ble).(log := [])
  {
    var a := Step(Step(s, ble), cam);
    var b := Step(Step(s, cam), ble);
    CaptureIsLocal(Step(s, ble), s, cam);
    ConnectivityIsLocal(Step(s, cam), s, ble);
    CaptureIsLocal(s, s, cam);
    ConnectivityIsLocal(s, s, ble);
    assert BleView(a) == BleView(b);
    assert CamView(a) == CamView(b);
  }
}
