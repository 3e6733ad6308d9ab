/** The camera side: the cached setup result and its gating of the preview
    actions, the record toggle, and what happens when a recording finishes. */
module Capture {
  import opened CarTypes

  /** Fields the camera handlers never touch (the Bluetooth and control side). */
  predicate SameConnectivity(s: State, r: State) {
    r.peripherals == s.peripherals && r.selectedPeripheral == s.selectedPeripheral
    && r.bleConnected == s.bleConnected && r.bleReady == s.bleReady && r.control == s.control
    && r.prevSteering == s.prevSteering && r.prevMotorSpeed == s.prevMotorSpeed
  }

  /** configureSession: only a successful setup so far is configured; any failure to
      attach the camera input marks the setup failed; a begun configuration is
      always committed. */
  function ConfigureSession(s: State, probe: DeviceProbe): (r: State)
    ensures s.setupResult != Success ==> r == s
    ensures s.setupResult == Success ==> (r.setupResult == Success <==> probe == InputAdded)
    ensures s.setupResult == Success && probe != InputAdded ==> r.setupResult == ConfigurationFailed
    ensures s.log <= r.log
    ensures s.setupResult == Success ==>
      |r.log| >= |s.log| + 2 && r.log[|s.log|] == BeginConfiguration && r.log[|r.log| - 1] == CommitConfiguration
    ensures AddVideoInput in r.log[|s.log|..] <==> s.setupResult == Success && probe == InputAdded
    ensures r.(setupResult := s.setupResult, log := s.log) == s
  {
    if s.setupResult != Success then s
    else
      var added := if probe == InputAdded then [BeginConfiguration, AddVideoInput, CommitConfiguration]
                   else [BeginConfiguration, CommitConfiguration];
      assert (s.log + added)[|s.log|..] == added;
      s.(setupResult := if probe == InputAdded then Success else ConfigurationFailed, log := s.log + added)
  }

  /** Whether the camera authorization check of initCamera lets the setup stand. */
  predicate CameraAllowed(status: CameraAuthorization, granted: bool) {
    status == Authorized || (status == NotDetermined && granted)
  }

  /** initCamera: a denied, restricted or refused authorization marks the setup
      not authorized; then the session is configured. */
  function InitCamera(s: State, status: CameraAuthorization, granted: bool, probe: DeviceProbe): (r: State)
    ensures r.setupResult == Success <==>
      s.setupResult == Success && CameraAllowed(status, granted) && probe == InputAdded
    ensures !CameraAllowed(status, granted) ==> r.setupResult == NotAuthorized && r.log == s.log
    ensures s.setupResult == Success && CameraAllowed(status, granted) ==> r == ConfigureSession(s, probe)
    ensures r.(setupResult := s.setupResult, log := s.log) == s
    ensures s.log <= r.log
  {
    var checked :=
      match status
      case Authorized => s
      case NotDetermined => if granted then s else s.(setupResult := NotAuthorized)
      case _ => s.(setupResult := NotAuthorized);
    ConfigureSession(checked, probe)
  }

  /** addMovieFileOutput: attach a new, idle movie output if the session accepts one,
      inside a configuration of the session. */
  function AddMovieFileOutput(s: State, canAddOutput: bool): (r: State)
    ensures canAddOutput ==> r.movieFileOutput == Some(MovieOutput(None))
    ensures canAddOutput ==> r.log == s.log + [BeginConfiguration, AddMovieOutput, CommitConfiguration]
    ensures !canAddOutput ==> r == s
    ensures r.(movieFileOutput := s.movieFileOutput, log := s.log) == s
  {
    if canAddOutput then
      s.(movieFileOutput := Some(MovieOutput(None)),
         log := s.log + [BeginConfiguration, AddMovieOutput, CommitConfiguration])
    else s
  }

  /** startCameraPreview: only a successful setup starts the session (recording what
      the session reports as its running state) and adds the movie output; the other
      setup results only show their alert. */
  function StartCameraPreview(s: State, running: bool, canAddOutput: bool): (r: State)
    ensures r.setupResult == s.setupResult && r.backgroundRecordingID == s.backgroundRecordingID
    ensures s.setupResult == Success ==>
      r.isSessionRunning == running && |r.log| > |s.log| && r.log[..|s.log| + 1] == s.log + [StartRunning]
    ensures s.setupResult == Success ==> (r.movieFileOutput != s.movieFileOutput ==> canAddOutput)
    ensures s.setupResult == NotAuthorized ==> r == s.(log := s.log + [ShowAlert(CameraNotAuthorized)])
    ensures s.setupResult == ConfigurationFailed ==> r == s.(log := s.log + [ShowAlert(UnableToCapture)])
    ensures StartRunning in r.log[|s.log|..] <==> s.setupResult == Success
    ensures r.recordingsStarted == s.recordingsStarted && SameConnectivity(s, r)
  {
    match s.setupResult
    case Success =>
      var started := s.(isSessionRunning := running, log := s.log + [StartRunning]);
      var r := AddMovieFileOutput(started, canAddOutput);
      assert r.log[|s.log|] == StartRunning;
      r
    case NotAuthorized => s.(log := s.log + [ShowAlert(CameraNotAuthorized)])
    case ConfigurationFailed => s.(log := s.log + [ShowAlert(UnableToCapture)])
  }

  /** stopCameraPreview: only a successful setup stops the session. */
  function StopCameraPreview(s: State, running: bool): (r: State)
    ensures s.setupResult == Success ==> r == s.(isSessionRunning := running, log := s.log + [StopRunning])
    ensures s.setupResult != Success ==> r == s
  {
    if s.setupResult == Success then s.(isSessionRunning := running, log := s.log + [StopRunning]) else s
  }

  /** Whether the movie output exists and is recording. */
  predicate IsRecording(s: State) {
    s.movieFileOutput.Some? && s.movieFileOutput.value.recording.Some?
  }

  /** The fresh temporary file the next recording goes to. */
  function NextTarget(s: State): FileName {
    TempMovie(s.recordingsStarted)
  }

  /** The calls recordToggle makes when it starts a recording: the background task
      when the device multitasks, the codec choice when HEVC is available, then the
      start itself. */
  function StartEvents(multitasking: bool, task: TaskId, hevcAvailable: bool, file: FileName): (added: seq<Event>)
    ensures |added| >= 1 && added[|added| - 1] == StartRecording(file)
    ensures UseHevc in added <==> hevcAvailable
    ensures BeginBackgroundTask(task) in added <==> multitasking
    ensures Targets(added) == [file] && ChannelsInRange(added)
  {
    var taken := if multitasking then [BeginBackgroundTask(task)] else [];
    var codec := if hevcAvailable then [UseHevc] else [];
    var start := [StartRecording(file)];
    TargetsAppend(taken + codec, start);
    TargetsAppend(taken, codec);
    assert Targets(start) == [file] by { assert start[1..] == []; }
    assert Targets(taken) == [] && Targets(codec) == [];
    taken + codec + start
  }

  /** recordToggle: nothing without a movie output; an idle output starts recording
      to a fresh file (after taking a background task when multitasking is supported
      and choosing HEVC when available); a recording output is stopped. */
  function RecordToggle(s: State, multitasking: bool, task: TaskId, hevcAvailable: bool): (r: State)
    ensures s.movieFileOutput.None? ==> r == s
    ensures s.movieFileOutput.Some? && !IsRecording(s) ==>
      r.movieFileOutput == Some(MovieOutput(Some(NextTarget(s)))) &&
      r.recordingsStarted == s.recordingsStarted + 1 &&
      r.log == s.log + StartEvents(multitasking, task, hevcAvailable, NextTarget(s)) &&
      r.backgroundRecordingID == (if multitasking then Some(task) else s.backgroundRecordingID)
    ensures IsRecording(s) ==>
      r == s.(movieFileOutput := Some(MovieOutput(None)), log := s.log + [StopRecording])
    ensures s.log <= r.log && r.setupResult == s.setupResult && r.isSessionRunning == s.isSessionRunning
    ensures SameConnectivity(s, r)
  {
    match s.movieFileOutput
    case None => s
    case Some(output) =>
      if output.recording.None? then
        var file := NextTarget(s);
        s.(backgroundRecordingID := if multitasking then Some(task) else s.backgroundRecordingID,
           movieFileOutput := Some(MovieOutput(Some(file))),
           recordingsStarted := s.recordingsStarted + 1,
           log := s.log + StartEvents(multitasking, task, hevcAvailable, file))
      else
        s.(movieFileOutput := Some(MovieOutput(None)), log := s.log + [StopRecording])
  }

  /** Whether a finished recording counts as successful: no error, or an error that
      still reports the recording as finished successfully. */
  function RecordingSucceeded(err: RecordingError): (ok: bool)
    ensures err.NoError? ==> ok
    ensures err.Error? ==> ok == err.finishedSuccessfully
  {
    match err
    case NoError => true
    case Error(finished) => finished
  }

  /** cleanup: remove the temporary file if it is still there, and if a background
      task identifier is held, replace it by the invalid identifier, ending the task
      unless it was already invalid. */
  function Cleanup(s: State, file: FileName, fileExists: bool): (r: State)
    ensures |r.log| > |s.log| && r.log[..|s.log|] == s.log && r.log[|s.log|] == CleanupRun(file)
    ensures r.backgroundRecordingID == (if s.backgroundRecordingID.Some? then Some(Invalid) else None)
    ensures r.(backgroundRecordingID := s.backgroundRecordingID, log := s.log) == s
  {
    var removed := s.log + [CleanupRun(file)] + (if fileExists then [RemoveFile(file)] else []);
    match s.backgroundRecordingID
    case None => s.(log := removed)
    case Some(current) =>
      s.(backgroundRecordingID := Some(Invalid),
         log := removed + (if current != Invalid then [EndBackgroundTask(current.id)] else []))
  }

  /** The events a finish handler adds for the background task held in `id`. */
  predicate EndsTaskAsHeld(added: seq<Event>, id: Option<TaskId>) {
    match id
    case Some(Task(n)) =>
      Occurrences(added, EndBackgroundTask(n)) == 1 &&
      forall e :: e in added && e.EndBackgroundTask? ==> e == EndBackgroundTask(n)
    case _ => forall e :: e in added ==> !e.EndBackgroundTask?
  }

  /** fileOutput(_:didFinishRecordingTo:...): a successful recording with photo-library
      access is saved and then cleaned up (whatever the save reports); every other
      case is cleaned up directly. */
  function DidFinishRecording(s: State, file: FileName, err: RecordingError, photoAuthorized: bool,
                              saveSucceeded: bool, fileExists: bool): (r: State)
    ensures |r.log| > |s.log| && r.log[..|s.log|] == s.log
    ensures r.log[|s.log|] == (if RecordingSucceeded(err) && photoAuthorized then SaveToLibrary(file) else CleanupRun(file))
    ensures r.backgroundRecordingID == (if s.backgroundRecordingID.Some? then Some(Invalid) else None)
    ensures r.movieFileOutput == RecordingEnded(s, file).movieFileOutput
  {
    var ended := RecordingEnded(s, file);
    if RecordingSucceeded(err) && photoAuthorized then
      Cleanup(ended.(log := ended.log + [SaveToLibrary(file)]), file, fileExists)
    else
      Cleanup(ended, file, fileExists)
  }

  /** The movie output stops recording to `file` before it reports the end of that
      recording, whether the recording was stopped by the toggle or ended by itself;
      an output recording to another file, or idle, is left as it is. */
  function RecordingEnded(s: State, file: FileName): (r: State)
    ensures r.movieFileOutput == (if s.movieFileOutput == Some(MovieOutput(Some(file))) then Some(MovieOutput(None))
                                  else s.movieFileOutput)
    ensures !IsRecording(s) ==> r == s
    ensures r.(movieFileOutput := s.movieFileOutput) == s
  {
    if s.movieFileOutput == Some(MovieOutput(Some(file))) then s.(movieFileOutput := Some(MovieOutput(None))) else s
  }

  /** A recording that ends by itself leaves the output idle, so the next toggle starts
      a new recording to a fresh file instead of stopping the one that has ended. */
  lemma ToggleAfterRecordingEndedStarts(s: State, multitasking: bool, task: TaskId, hevc: bool,
                                        err: RecordingError, photoAuthorized: bool, saved: bool, present: bool)
    requires s.movieFileOutput.Some? && !IsRecording(s)
    ensures var rec := RecordToggle(s, multitasking, task, hevc);
      var fin := DidFinishRecording(rec, NextTarget(s), err, photoAuthorized, saved, present);
      var again := RecordToggle(fin, multitasking, task, hevc);
      && !IsRecording(fin)
      && again.movieFileOutput == Some(MovieOutput(Some(TempMovie(s.recordingsStarted + 1))))
      && StartRecording(TempMovie(s.recordingsStarted + 1)) in again.log[|fin.log|..]
      && StopRecording !in again.log[|fin.log|..]
  {
    var rec := RecordToggle(s, multitasking, task, hevc);
    assert rec.movieFileOutput == Some(MovieOutput(Some(NextTarget(s))));
    assert rec.recordingsStarted == s.recordingsStarted + 1;
    FinishRecordingState(rec, NextTarget(s), err, photoAuthorized, saved, present);
    var fin := DidFinishRecording(rec, NextTarget(s), err, photoAuthorized, saved, present);
    assert fin.movieFileOutput == Some(MovieOutput(None));
    assert fin.recordingsStarted == rec.recordingsStarted;
    var added := StartEvents(multitasking, task, hevc, NextTarget(fin));
    var again := RecordToggle(fin, multitasking, task, hevc);
    assert again.log == fin.log + added;
    assert again.log[|fin.log|..] == added;
    StartEventsKinds(multitasking, task, hevc, NextTarget(fin));
  }

  /** A start of recording makes no call but the task, the codec choice and the start. */
  lemma StartEventsKinds(multitasking: bool, task: TaskId, hevcAvailable: bool, file: FileName)
    ensures forall e :: e in StartEvents(multitasking, task, hevcAvailable, file) ==>
      e.BeginBackgroundTask? || e == UseHevc || e == StartRecording(file)
  {
  }

  /** The calls a finish handler makes, in order: the save when `saving`, the
      cleanup, the removal when the file exists, and the end of a valid held task. */
  function FinishEvents(held: Option<TaskId>, file: FileName, saving: bool, fileExists: bool): seq<Event> {
    (if saving then [SaveToLibrary(file)] else []) + [CleanupRun(file)]
    + (if fileExists then [RemoveFile(file)] else [])
    + (match held case Some(Task(n)) => [EndBackgroundTask(n)] case _ => [])
  }

  /** The calls a cleanup makes: the cleanup itself, the removal when the file
      exists, and the end of a valid held task. */
  lemma CleanupState(s: State, file: FileName, fileExists: bool)
    ensures var r := Cleanup(s, file, fileExists);
      && r.log == s.log + FinishEvents(s.backgroundRecordingID, file, false, fileExists)
      && r.backgroundRecordingID == (if s.backgroundRecordingID.Some? then Some(Invalid) else None)
      && r.(backgroundRecordingID := s.backgroundRecordingID, log := s.log) == s
  {
    var tail := (if fileExists then [RemoveFile(file)] else [])
      + (match s.backgroundRecordingID case Some(Task(n)) => [EndBackgroundTask(n)] case _ => []);
    assert FinishEvents(s.backgroundRecordingID, file, false, fileExists) == [CleanupRun(file)] + tail;
  }

  /** What a finish handler does to the state; the save's own outcome plays no part. */
  lemma FinishRecordingState(s: State, file: FileName, err: RecordingError, photoAuthorized: bool,
                             saveSucceeded: bool, fileExists: bool)
    ensures var r := DidFinishRecording(s, file, err, photoAuthorized, saveSucceeded, fileExists);
      && r.log == s.log + FinishEvents(s.backgroundRecordingID, file, RecordingSucceeded(err) && photoAuthorized, fileExists)
      && r.backgroundRecordingID == (if s.backgroundRecordingID.Some? then Some(Invalid) else None)
      && r.movieFileOutput == RecordingEnded(s, file).movieFileOutput
      && r.(backgroundRecordingID := s.backgroundRecordingID, movieFileOutput := s.movieFileOutput, log := s.log) == s
    ensures DidFinishRecording(s, file, err, photoAuthorized, true, fileExists) ==
            DidFinishRecording(s, file, err, photoAuthorized, false, fileExists)
  {
    var ended := RecordingEnded(s, file);
    if RecordingSucceeded(err) && photoAuthorized {
      var saved := ended.(log := ended.log + [SaveToLibrary(file)]);
      CleanupState(saved, file, fileExists);
      var held := s.backgroundRecordingID;
      assert FinishEvents(held, file, true, fileExists) == [SaveToLibrary(file)] + FinishEvents(held, file, false, fileExists);
      assert saved.log + FinishEvents(held, file, false, fileExists) == s.log + FinishEvents(held, file, true, fileExists);
    } else {
      CleanupState(ended, file, fileExists);
    }
  }

  /** The number of times a one-element-or-empty piece holds `e`. */
  lemma OccurrencesSingle(x: Event, e: Event)
    ensures Occurrences([x], e) == (if x == e then 1 else 0)
  {
    assert [x][1..] == [];
  }

  /** Every finish path runs the cleanup exactly once; it saves exactly once when
      `saving` and never otherwise. */
  lemma FinishCleansUpOnce(held: Option<TaskId>, file: FileName, saving: bool, fileExists: bool)
    ensures Occurrences(FinishEvents(held, file, saving, fileExists), CleanupRun(file)) == 1
    ensures Occurrences(FinishEvents(held, file, saving, fileExists), SaveToLibrary(file)) == (if saving then 1 else 0)
  {
    var save: seq<Event> := if saving then [SaveToLibrary(file)] else [];
    var rm: seq<Event> := if fileExists then [RemoveFile(file)] else [];
    var end: seq<Event> := match held case Some(Task(n)) => [EndBackgroundTask(n)] case _ => [];
    assert FinishEvents(held, file, saving, fileExists) == save + [CleanupRun(file)] + rm + end;
    var c, v := CleanupRun(file), SaveToLibrary(file);
    OccurrencesAppend(save + [c] + rm, end, c);
    OccurrencesAppend(save + [c], rm, c);
    OccurrencesAppend(save, [c], c);
    OccurrencesAppend(save + [c] + rm, end, v);
    OccurrencesAppend(save + [c], rm, v);
    OccurrencesAppend(save, [c], v);
    OccurrencesSingle(c, c);
    OccurrencesSingle(c, v);
    if saving { OccurrencesSingle(v, c); OccurrencesSingle(v, v); }
    if fileExists { OccurrencesSingle(RemoveFile(file), c); OccurrencesSingle(RemoveFile(file), v); }
    if end != [] { OccurrencesSingle(end[0], c); OccurrencesSingle(end[0], v); assert end == [end[0]]; }
  }

  /** The save, when made, comes first and the cleanup right after it; the only save
      is of the recorded file; the file is removed exactly when it still exists. */
  lemma FinishOrder(held: Option<TaskId>, file: FileName, saving: bool, fileExists: bool)
    ensures var added := FinishEvents(held, file, saving, fileExists);
      && (forall e :: e in added && e.SaveToLibrary? ==> e == SaveToLibrary(file))
      && (saving ==> |added| >= 2 && added[0] == SaveToLibrary(file) && added[1] == CleanupRun(file))
      && (!saving ==> |added| >= 1 && added[0] == CleanupRun(file))
      && (RemoveFile(file) in added <==> fileExists)
  {
  }

  /** A finish handler ends the held background task exactly when it is valid, and
      no other task. */
  lemma FinishEndsHeldTask(held: Option<TaskId>, file: FileName, saving: bool, fileExists: bool)
    ensures EndsTaskAsHeld(FinishEvents(held, file, saving, fileExists), held)
  {
    var front := (if saving then [SaveToLibrary(file)] else []) + [CleanupRun(file)]
                 + (if fileExists then [RemoveFile(file)] else []);
    assert forall e :: e in front ==> !e.EndBackgroundTask?;
    match held {
      case Some(Task(n)) =>
        assert FinishEvents(held, file, saving, fileExists) == front + [EndBackgroundTask(n)];
        OccurrencesAppend(front, [EndBackgroundTask(n)], EndBackgroundTask(n));
        OccurrencesAbsent(front, EndBackgroundTask(n));
      case _ =>
        assert FinishEvents(held, file, saving, fileExists) == front;
    }
  }

  /** Every file a recording was started to so far is numbered in order, so file
      names are never reused. */
  predicate TargetsNumbered(s: State) {
    Numbered(Targets(s.log), s.recordingsStarted)
  }

  /** The next number extends a numbered list and is not in it. */
  lemma NumberedExtend(t: seq<FileName>, n: nat)
    requires Numbered(t, n)
    ensures TempMovie(n) !in t && Numbered(t + [TempMovie(n)], n + 1)
  {
  }

  /** Starting a recording adds exactly its own file to the recording targets. */
  lemma RecordStartTargets(s: State, multitasking: bool, task: TaskId, hevcAvailable: bool)
    requires s.movieFileOutput.Some? && !IsRecording(s)
    ensures Targets(RecordToggle(s, multitasking, task, hevcAvailable).log) == Targets(s.log) + [NextTarget(s)]
  {
    TargetsAppend(s.log, StartEvents(multitasking, task, hevcAvailable, NextTarget(s)));
  }

  /** Starting a recording goes to a file no earlier recording used, and keeps the
      numbering. */
  lemma RecordStartUsesFreshFile(s: State, multitasking: bool, task: TaskId, hevcAvailable: bool)
    requires TargetsNumbered(s) && s.movieFileOutput.Some? && !IsRecording(s)
    ensures NextTarget(s) !in Targets(s.log)
    ensures TargetsNumbered(RecordToggle(s, multitasking, task, hevcAvailable))
  {
    RecordStartTargets(s, multitasking, task, hevcAvailable);
    NumberedExtend(Targets(s.log), s.recordingsStarted);
  }

  /** The capture state machine: from an idle movie output, toggling twice records one
      file and returns to an idle output with the session still running; stopping the
      preview afterwards stops the session. */
  lemma PreviewRecordStopCycle(s: State, running: bool, multitasking: bool, task: TaskId, hevc: bool, stopped: bool)
    requires s.setupResult == Success
    ensures var p := StartCameraPreview(s, running, true);
      var rec := RecordToggle(p, multitasking, task, hevc);
      var back := RecordToggle(rec, multitasking, task, hevc);
      var idle := StopCameraPreview(back, stopped);
      && IsRecording(rec) && rec.movieFileOutput.value.recording == Some(NextTarget(p))
      && back.movieFileOutput == Some(MovieOutput(None)) && back.isSessionRunning == running
      && idle.isSessionRunning == stopped && idle.movieFileOutput == back.movieFileOutput
      && idle.log == back.log + [StopRunning]
  {
  }
}
