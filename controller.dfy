/** The view controller itself: its fields updated in place by each handler,
    every handler proved to move the fields exactly as the corresponding step
    function says and to keep the controller's invariant. */
module Controller {
  import opened CarTypes
  import Cn = Connectivity
  import Ct = Controls
  import Cp = Capture
  import Co = Coordinator

  class ViewController {
    var peripherals: seq<Discovery>
    var selectedPeripheral: Option<Peripheral>
    var bleConnected: bool
    var bleReady: bool
    /** The actuator-control object, recorded by the peripheral it was built for. */
    var control: Option<Peripheral>
    var prevMotorSpeed: real
    var prevSteering: real
    var setupResult: SessionSetupResult
    var isSessionRunning: bool
    var movieFileOutput: Option<MovieOutput>
    var backgroundRecordingID: Option<TaskId>
    /** How many fresh temporary file names have been handed out. */
    var recordingsStarted: nat
    /** The calls made to collaborators so far. */
    var log: seq<Event>

    /** The fields as one value. */
    function Snapshot(): State
      reads this
    {
      State(peripherals, selectedPeripheral, bleConnected, bleReady, control, prevMotorSpeed, prevSteering,
            setupResult, isSessionRunning, movieFileOutput, backgroundRecordingID, recordingsStarted, log)
    }

    ghost predicate Valid()
      reads this
    {
      Co.Inv(Snapshot())
    }

    /** The field initialisers. */
    constructor ()
      ensures Valid() && Snapshot() == Initial()
    {
      peripherals, selectedPeripheral, bleConnected, bleReady, control := [], None, false, false, None;
      prevMotorSpeed, prevSteering := 0.0, 0.0;
      setupResult, isSessionRunning, movieFileOutput, backgroundRecordingID := Success, false, None, None;
      recordingsStarted, log := 0, [];
      Co.InitialInv();
    }

    /** didDiscover: skip an identifier already listed; otherwise append it, select
        the first entry, stop scanning and try to connect to the selection. */
    method DidDiscover(peripheral: Peripheral, rssi: int)
      requires Valid()
      modifies this
      ensures Valid()
      ensures Snapshot() == Cn.Discover(old(Snapshot()), Discovery(peripheral, rssi))
    {
      ghost var before := Snapshot();
      Co.StepPreservesInv(before, Co.OnDiscover(peripheral, rssi));
      for i := 0 to |peripherals|
        invariant forall j :: 0 <= j < i ==> peripherals[j].peripheral.identifier != peripheral.identifier
      {
        if peripheral.identifier == peripherals[i].peripheral.identifier {
          return;
        }
      }
      peripherals := peripherals + [Discovery(peripheral, rssi)];
      selectedPeripheral := Some(peripherals[0].peripheral);
      log := log + [StopScan];
      match selectedPeripheral {
        case Some(p) => log := log + [Connect(p)];
        case None =>
      }
      assert Snapshot() == Co.Step(before, Co.OnDiscover(peripheral, rssi));
    }

    /** servoEnable: switch analog outputs 0 and 6 through the control object, if any. */
    method ServoEnable(enable: bool)
      modifies this
      ensures Snapshot() == Cn.ServoEnable(old(Snapshot()), enable)
    {
      if control.Some? {
        log := log + [AnalogOutEnable(SteeringChannel, enable)];
        log := log + [AnalogOutEnable(ThrottleChannel, enable)];
      }
    }

    /** initBLEControl: build the control object for the selected peripheral,
        initialise the device, enable the outputs and mark the link ready. */
    method InitBLEControl()
      modifies this
      ensures Snapshot() == Cn.InitBLEControl(old(Snapshot()))
    {
      if selectedPeripheral.None? {
        return;
      }
      var peripheral := selectedPeripheral.value;
      control := Some(peripheral);
      log := log + [InitDevice(peripheral, MaxAnalogOut, MaxLcdLines)];
      ServoEnable(true);
      bleReady := true;
    }

    /** didConnect */
    method DidConnect()
      requires Valid()
      modifies this
      ensures Valid()
      ensures Snapshot() == Cn.DidConnect(old(Snapshot()))
    {
      ghost var before := Snapshot();
      Co.StepPreservesInv(before, Co.OnConnect);
      bleConnected := true;
      InitBLEControl();
      assert Snapshot() == Co.Step(before, Co.OnConnect);
    }

    /** tryReconnect */
    method TryReconnect()
      requires Valid()
      modifies this
      ensures Valid()
      ensures Snapshot() == Cn.TryReconnect(old(Snapshot()))
    {
      ghost var before := Snapshot();
      Co.StepPreservesInv(before, Co.OnReconnect);
      log := log + [StopScan];
      peripherals := [];
      log := log + [StartScan];
      assert Snapshot() == Co.Step(before, Co.OnReconnect);
    }

    /** didFailToConnect */
    method DidFailToConnect()
      requires Valid()
      modifies this
      ensures Valid()
      ensures Snapshot() == Cn.DidFailToConnect(old(Snapshot()))
    {
      bleConnected := false;
      TryReconnect();
    }

    /** didDisconnect */
    method DidDisconnect()
      requires Valid()
      modifies this
      ensures Valid()
      ensures Snapshot() == Cn.DidDisconnect(old(Snapshot()))
    {
      bleConnected := false;
      TryReconnect();
    }

    /** didUpdateState */
    method DidUpdateState(state: RadioState)
      requires Valid()
      modifies this
      ensures Valid()
      ensures Snapshot() == Cn.DidUpdateState(old(Snapshot()), state)
    {
      Co.StepPreservesInv(Snapshot(), Co.OnUpdateState(state));
      if state == PoweredOn {
        log := log + [StartScan];
      }
    }

    /** updateSteering */
    method UpdateSteering(x: real)
      requires Valid()
      modifies this
      ensures Valid()
      ensures Snapshot() == Ct.UpdateSteering(old(Snapshot()), x)
    {
      Co.StepPreservesInv(Snapshot(), Co.OnSteering(x));
      if x == prevSteering {
        return;
      }
      prevSteering := x;
      if bleConnected && bleReady && control.Some? {
        log := log + [Servo(SteeringChannel, Ct.ServoValue(x))];
      }
    }

    /** updateMotorSpeed */
    method UpdateMotorSpeed(y: real)
      requires Valid()
      modifies this
      ensures Valid()
      ensures Snapshot() == Ct.UpdateMotorSpeed(old(Snapshot()), y)
    {
      Co.StepPreservesInv(Snapshot(), Co.OnMotorSpeed(y));
      if y == prevMotorSpeed {
        return;
      }
      prevMotorSpeed := y;
      if bleConnected && bleReady && control.Some? {
        log := log + [Pwm(ThrottleChannel, y)];
      }
    }

    /** The game-controller value-changed handler. */
    method GamepadValueChanged(element: Ct.GamepadElement)
      requires Valid()
      modifies this
      ensures Valid()
      ensures Snapshot() == Ct.GamepadValueChanged(old(Snapshot()), element)
    {
      match element {
        case LeftThumbstick(_, y) => UpdateMotorSpeed(y);
        case RightThumbstick(x, _) => UpdateSteering(x);
        case _ =>
      }
    }

    /** configureSession */
    method ConfigureSession(probe: DeviceProbe)
      modifies this
      ensures Snapshot() == Cp.ConfigureSession(old(Snapshot()), probe)
    {
      if setupResult != Success {
        return;
      }
      ghost var before := Snapshot();
      log := log + [BeginConfiguration];
      match probe {
        case InputAdded =>
          log := log + [AddVideoInput];
        case _ =>
          setupResult := ConfigurationFailed;
      }
      log := log + [CommitConfiguration];
      ghost var added := if probe == InputAdded then [BeginConfiguration, AddVideoInput, CommitConfiguration]
                         else [BeginConfiguration, CommitConfiguration];
      assert Snapshot() == before.(setupResult := setupResult, log := before.log + added);
    }

    /** initCamera */
    method InitCamera(status: CameraAuthorization, granted: bool, probe: DeviceProbe)
      requires Valid()
      modifies this
      ensures Valid()
      ensures Snapshot() == Cp.InitCamera(old(Snapshot()), status, granted, probe)
    {
      ghost var before := Snapshot();
      Co.StepPreservesInv(before, Co.OnInitCamera(status, granted, probe));
      match status {
        case Authorized =>
        case NotDetermined =>
          if !granted {
            setupResult := NotAuthorized;
          }
        case _ =>
          setupResult := NotAuthorized;
      }
      ConfigureSession(probe);
      assert Snapshot() == Co.Step(before, Co.OnInitCamera(status, granted, probe));
    }

    /** addMovieFileOutput */
    method AddMovieFileOutput(canAddOutput: bool)
      modifies this
      ensures Snapshot() == Cp.AddMovieFileOutput(old(Snapshot()), canAddOutput)
    {
      if canAddOutput {
        log := log + [BeginConfiguration];
        log := log + [AddMovieOutput];
        log := log + [CommitConfiguration];
        movieFileOutput := Some(MovieOutput(None));
      }
    }

    /** startCameraPreview */
    method StartCameraPreview(running: bool, canAddOutput: bool)
      requires Valid()
      modifies this
      ensures Valid()
      ensures Snapshot() == Cp.StartCameraPreview(old(Snapshot()), running, canAddOutput)
    {
      ghost var before := Snapshot();
      Co.StepPreservesInv(before, Co.OnStartPreview(running, canAddOutput));
      match setupResult {
        case Success =>
          StartSession(running, canAddOutput);
        case NotAuthorized =>
          log := log + [ShowAlert(CameraNotAuthorized)];
        case ConfigurationFailed =>
          log := log + [ShowAlert(UnableToCapture)];
      }
      assert Snapshot() == Co.Step(before, Co.OnStartPreview(running, canAddOutput));
    }

    /** The success branch of startCameraPreview: start the session, then add the
        movie output. */
    method StartSession(running: bool, canAddOutput: bool)
      requires setupResult == Success
      modifies this
      ensures Snapshot() == Cp.StartCameraPreview(old(Snapshot()), running, canAddOutput)
    {
      ghost var before := Snapshot();
      log := log + [StartRunning];
      isSessionRunning := running;
      assert Snapshot() == before.(isSessionRunning := running, log := before.log + [StartRunning]);
      AddMovieFileOutput(canAddOutput);
    }

    /** stopCameraPreview */
    method StopCameraPreview(running: bool)
      requires Valid()
      modifies this
      ensures Valid()
      ensures Snapshot() == Cp.StopCameraPreview(old(Snapshot()), running)
    {
      Co.StepPreservesInv(Snapshot(), Co.OnStopPreview(running));
      if setupResult == Success {
        log := log + [StopRunning];
        isSessionRunning := running;
      }
    }

    /** recordToggle */
    method RecordToggle(multitasking: bool, task: TaskId, hevcAvailable: bool)
      requires Valid()
      modifies this
      ensures Valid()
      ensures Snapshot() == Cp.RecordToggle(old(Snapshot()), multitasking, task, hevcAvailable)
    {
      ghost var before := Snapshot();
      ToggleDecision(multitasking, task, hevcAvailable);
      Co.StepPreservesInv(before, Co.OnRecordToggle(multitasking, task, hevcAvailable));
    }

    /** The decision recordToggle makes on the movie output's recording flag: start a
        recording on an idle output (the block it sends to the session queue), stop a
        recording one (the block it sends to the main queue). */
    method ToggleDecision(multitasking: bool, task: TaskId, hevcAvailable: bool)
      modifies this
      ensures Snapshot() == Cp.RecordToggle(old(Snapshot()), multitasking, task, hevcAvailable)
    {
      ghost var before := Snapshot();
      if movieFileOutput.None? {
        return;
      }
      if movieFileOutput.value.recording.None? {
        BeginRecording(multitasking, task, hevcAvailable);
        assert Snapshot() == Cp.RecordToggle(before, multitasking, task, hevcAvailable);
      } else {
        log := log + [StopRecording];
        movieFileOutput := Some(MovieOutput(None));
      }
    }

    /** The start branch of recordToggle: take a background task if the device
        multitasks, pick the codec, and record to a fresh temporary file. */
    method BeginRecording(multitasking: bool, task: TaskId, hevcAvailable: bool)
      modifies this
      ensures Snapshot() == old(Snapshot()).(
        backgroundRecordingID := if multitasking then Some(task) else old(backgroundRecordingID),
        movieFileOutput := Some(MovieOutput(Some(TempMovie(old(recordingsStarted))))),
        recordingsStarted := old(recordingsStarted) + 1,
        log := old(log) + Cp.StartEvents(multitasking, task, hevcAvailable, TempMovie(old(recordingsStarted))))
    {
      var file := TempMovie(recordingsStarted);
      var taken: seq<Event> := [];
      if multitasking {
        taken := [BeginBackgroundTask(task)];
        backgroundRecordingID := Some(task);
      }
      var codec: seq<Event> := if hevcAvailable then [UseHevc] else [];
      log := log + (taken + codec + [StartRecording(file)]);
      recordingsStarted := recordingsStarted + 1;
      movieFileOutput := Some(MovieOutput(Some(file)));
    }

    /** The cleanup nested in the finish handler. */
    method Cleanup(file: FileName, fileExists: bool)
      modifies this
      ensures Snapshot() == Cp.Cleanup(old(Snapshot()), file, fileExists)
    {
      log := log + [CleanupRun(file)];
      if fileExists {
        log := log + [RemoveFile(file)];
      }
      match backgroundRecordingID {
        case Some(current) =>
          backgroundRecordingID := Some(Invalid);
          if current != Invalid {
            log := log + [EndBackgroundTask(current.id)];
          }
        case None =>
      }
    }

    /** The movie output has stopped recording to `file` by the time it reports the
        finish; this is the platform's doing, not the handler's. */
    method RecordingEnded(file: FileName)
      modifies this
      ensures Snapshot() == Cp.RecordingEnded(old(Snapshot()), file)
    {
      if movieFileOutput == Some(MovieOutput(Some(file))) {
        movieFileOutput := Some(MovieOutput(None));
      }
    }

    /** fileOutput(_:didFinishRecordingTo:from:error:) */
    method FileOutputDidFinishRecording(file: FileName, error: RecordingError, photoAuthorized: bool,
                                        saveSucceeded: bool, fileExists: bool)
      requires Valid()
      modifies this
      ensures Valid()
      ensures Snapshot() == Cp.DidFinishRecording(old(Snapshot()), file, error, photoAuthorized, saveSucceeded, fileExists)
    {
      ghost var before := Snapshot();
      Co.StepPreservesInv(before, Co.OnFinishRecording(file, error, photoAuthorized, saveSucceeded, fileExists));
      RecordingEnded(file);
      SaveThenCleanup(file, error, photoAuthorized, fileExists);
    }

    /** The decision of the finish handler once the output has stopped: save a
        successful recording when photos are authorized, then clean up; otherwise
        clean up directly. */
    method SaveThenCleanup(file: FileName, error: RecordingError, photoAuthorized: bool, fileExists: bool)
      modifies this
      ensures Snapshot() == (if Cp.RecordingSucceeded(error) && photoAuthorized
                             then Cp.Cleanup(old(Snapshot()).(log := old(log) + [SaveToLibrary(file)]), file, fileExists)
                             else Cp.Cleanup(old(Snapshot()), file, fileExists))
    {
      var success := true;
      if error.Error? {
        success := error.finishedSuccessfully;
      }
      if success && photoAuthorized {
        log := log + [SaveToLibrary(file)];
      }
      Cleanup(file, fileExists);
    }
  }
}
