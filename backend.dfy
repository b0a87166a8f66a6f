/**
  YOLOv11MedicationMonitor (proto.py:70-481) as a class whose fields the
  protocol updates in place.  Each method is proved to leave the state that
  the matching function of module Protocol gives.  The three session
  counters are local variables of run_protocol in the source; they are fields
  here because the body of the inner loop is a method of its own.
 */
module Backend {
  import opened Common
  import opened Detections
  import opened Protocol
  import ProtocolProps

  class MedicationMonitor {
    var currentPhase: int
    var resultStatus: Status
    var frameCount: nat
    var pillHistory: seq<Point>
    var shouldReset: bool
    var running: bool
    var cameraOpen: bool
    /** obj_model == "MOCK" */
    var mockModel: bool
    /** The reports save_result_to_json has written. */
    var reports: seq<Report>
    var faceLossCounter: nat
    var phase4Counter: nat
    var finalConfirmCounter: nat
    /** run_protocol's local `detections` has been assigned. */
    var detectionsBound: bool

    /** The monitor's state as a value of module Protocol. */
    function Model(): Monitor
      reads this
    {
      Monitor(
        Session(currentPhase, resultStatus, frameCount, faceLossCounter, phase4Counter, finalConfirmCounter, pillHistory),
        shouldReset, running, cameraOpen, mockModel, reports, detectionsBound)
    }

    /** `__init__`; `modelLoaded` says whether YOLO loaded the weights (otherwise "MOCK"). */
    constructor (modelLoaded: bool)
      ensures Model() == InitialMonitor(modelLoaded)
    {
      currentPhase := 1;
      pillHistory := [];
      resultStatus := Initializing;
      frameCount := 0;
      shouldReset := false;
      running := true;
      cameraOpen := false;
      mockModel := !modelLoaded;
      reports := [];
      detectionsBound := false;
      faceLossCounter, phase4Counter, finalConfirmCounter := 0, 0, 0;
    }

    /** The /reset route (proto.py:536-545): raise should_reset, which ends the inner loop at its next check. */
    method RequestReset()
      modifies this
      ensures Model() == old(Model()).(shouldReset := true)
    {
      shouldReset := true;
    }

    /** Opening the camera for a session (proto.py:219-224). */
    method OpenCamera(isOpen: bool)
      modifies this
      ensures Model() == Protocol.OpenCamera(old(Model()), isOpen)
    {
      cameraOpen := isOpen;
      if !isOpen {
        mockModel := true;
      }
    }

    /** The reset of all session variables (proto.py:240-249). */
    method StartSession()
      modifies this
      ensures Model() == BeginSession(old(Model()))
      ensures currentPhase == 1 && resultStatus == Running && frameCount == 0 && pillHistory == []
      ensures faceLossCounter == 0 && phase4Counter == 0 && finalConfirmCounter == 0 && !shouldReset
    {
      frameCount := 0;
      currentPhase := 1;
      resultStatus := Running;
      faceLossCounter := 0;
      finalConfirmCounter := 0;
      phase4Counter := 0;
      pillHistory := [];
      shouldReset := false;
    }

    /** One pass of the inner loop's body (proto.py:255-409); `flow` says whether and how it broke out. */
    method ProcessFrame(src: FrameSource) returns (flow: Flow)
      modifies this
      ensures Model() == old(Model()).(session := PassOn(old(Model()), src).session)
      ensures flow == PassOn(old(Model()), src).flow
    {
      ghost var m0 := Model();
      frameCount := frameCount + 1;
      assert Model() == m0.(session := Counted(m0.session));
      if cameraOpen && src.ReadFailed? {
        return ReadError;
      }
      var d := YoloDetect(src);
      PassOnRead(m0, src, d);
      flow := EvaluateFrame(d);
    }

    /** The pass after the frame has been counted and read (proto.py:266-409). */
    method EvaluateFrame(d: Detections) returns (flow: Flow)
      modifies this
      ensures Model() == old(Model()).(session := Evaluate(old(Current()), d).session)
      ensures flow == Evaluate(old(Current()), d).flow
    {
      var fatal := CheckFace(d);
      if fatal {
        resultStatus := MouthCovered;
        return Finished;
      }
      flow := StepPhase(d);
    }

    /** `_yolo_detect` (proto.py:130-160): the mock record for a mock model or a failed detector, else the detector's. */
    method YoloDetect(src: FrameSource) returns (d: Detections)
      ensures d == FrameDetections(mockModel, currentPhase, src)
    {
      if mockModel || !src.Detected? {
        d := MockDetections(currentPhase);
      } else {
        d := src.d;
      }
    }

    /** The session part of the state. */
    function Current(): Session
      reads this
    {
      Model().session
    }

    /** The face-loss check (proto.py:276-284); `fatal` when the mouth has been lost for too long. */
    method CheckFace(d: Detections) returns (fatal: bool)
      modifies this
      ensures Model() == old(Model()).(session := CountFace(old(Current()), d))
      ensures fatal == (old(frameCount) > STABILIZATION_FRAMES && !d.lipLandmarks && faceLossCounter >= PILL_STATIONARY_FRAMES)
    {
      fatal := false;
      if frameCount > STABILIZATION_FRAMES {
        if !d.lipLandmarks {
          faceLossCounter := faceLossCounter + 1;
          if faceLossCounter >= PILL_STATIONARY_FRAMES {
            fatal := true;
          }
        } else {
          faceLossCounter := 0;
        }
      }
    }

    /** The `if/elif` chain on current_phase (proto.py:297-403). */
    method StepPhase(d: Detections) returns (flow: Flow)
      modifies this
      ensures Model() == old(Model()).(session := PhaseStep(old(Current()), d).session)
      ensures flow == PhaseStep(old(Current()), d).flow
    {
      flow := Next;
      if currentPhase == 1 {
        if CheckDetection(d, Pill, CPILL_P1_MIN) {
          currentPhase := 2;
        }
      } else if currentPhase == 2 {
        var tonguePresent := CheckDetection(d, TongueNoPill, CTONGUE_MIN);
        var jawOpen := JawDistance(d) > MOUTH_OPEN_THRESHOLD;
        if tonguePresent && jawOpen {
          currentPhase := 3;
        }
      } else if currentPhase == 3 {
        HoldPill(d);
      } else if currentPhase == 4 {
        HoldClosed(d);
      } else if currentPhase == 5 {
        flow := Reopen(d);
      } else if currentPhase == 6 {
        flow := ConfirmSwallow(d);
      }
    }

    /** Phase 3 (proto.py:314-332). */
    method HoldPill(d: Detections)
      requires currentPhase == 3
      modifies this
      ensures Model() == old(Model()).(session := Phase3(old(Current()), d))
    {
      if CheckDetection(d, PillOnTongue, CPILL_P3_MIN) {
        var centroid := Centroid(BoxOf(d, PillOnTongue));
        if centroid.Some? {
          pillHistory := DequeAppend(pillHistory, centroid.value, PILL_STATIONARY_FRAMES);
        } else {
          pillHistory := [];
        }
        if |pillHistory| >= PILL_STATIONARY_FRAMES {
          currentPhase := 4;
          pillHistory := [];
        }
      } else {
        pillHistory := [];
      }
    }

    /** Phase 4 (proto.py:334-363). */
    method HoldClosed(d: Detections)
      requires currentPhase == 4
      modifies this
      ensures Model() == old(Model()).(session := Phase4(old(Current()), d))
    {
      var jaw := JawDistance(d);
      var tongueAbsent := CheckAbsence(d, TongueNoPill, CTONGUE_P4_MAX);
      var jawClosed := jaw < MOUTH_CLOSURE_THRESHOLD;
      var potConf := Conf(d, PillOnTongue);
      var warning := false;
      if phase4Counter > 0 && jaw > MOUTH_OPEN_THRESHOLD && potConf < CPILL_P3_MIN {
        phase4Counter := 0;
        warning := true;
      }
      if tongueAbsent && jawClosed {
        if phase4Counter < CONCEALMENT_FRAMES {
          phase4Counter := phase4Counter + 1;
        } else {
          currentPhase := 5;
          phase4Counter := 0;
        }
      } else if phase4Counter > 0 && !warning {
        phase4Counter := 0;
      }
    }

    /** Phase 5 (proto.py:365-377); Finished when the pill is seen again. */
    method Reopen(d: Detections) returns (flow: Flow)
      requires currentPhase == 5
      modifies this
      ensures Model() == old(Model()).(session := Phase5(old(Current()), d).session)
      ensures flow == Phase5(old(Current()), d).flow
    {
      flow := Next;
      if Conf(d, PillOnTongue) >= CPILL_P3_MIN {
        resultStatus := PillReappeared;
        return Finished;
      }
      if CheckDetection(d, TongueNoPill, CTONGUE_MIN) {
        currentPhase := 6;
      }
    }

    /** Phase 6 (proto.py:379-403); Finished once the pass is confirmed. */
    method ConfirmSwallow(d: Detections) returns (flow: Flow)
      requires currentPhase == 6
      modifies this
      ensures Model() == old(Model()).(session := Phase6(old(Current()), d).session)
      ensures flow == Phase6(old(Current()), d).flow
    {
      flow := Next;
      var tongueConfirmed := CheckDetection(d, TongueNoPill, CTONGUE_MIN);
      var pillGone := CheckAbsence(d, Pill, CPILL_P6_MAX);
      if tongueConfirmed && pillGone {
        finalConfirmCounter := finalConfirmCounter + 1;
        if finalConfirmCounter >= FINAL_CONFIRMATION_FRAMES {
          resultStatus := VerifiedPass;
          flow := Finished;
        }
      } else {
        finalConfirmCounter := 0;
      }
    }

    /** The inner `while` (proto.py:254-409) over the given input. */
    method RunInnerLoop(ticks: seq<Tick>) returns (flow: Flow)
      modifies this
      ensures Model() == InnerLoop(old(Model()), ticks).monitor
      ensures flow == InnerLoop(old(Model()), ticks).flow
    {
      var i := 0;
      flow := Next;
      while i < |ticks| && currentPhase <= 6 && !shouldReset && running
        invariant 0 <= i <= |ticks|
        invariant flow == Next
        invariant InnerLoop(Model(), ticks[i..]) == InnerLoop(old(Model()), ticks)
        decreases |ticks| - i
      {
        assert ticks[i..][1..] == ticks[i + 1..];
        match ticks[i] {
          case ResetRequest =>
            RequestReset();
          case Frame(src) =>
            var f := ProcessFrame(src);
            if f != Next {
              flow := f;
              return;
            }
        }
        i := i + 1;
      }
    }

    /** save_result_to_json (proto.py:175-204): the file write is one more report. */
    method SaveResult()
      modifies this
      ensures Model() == Protocol.SaveResult(old(Model()))
    {
      reports := reports + [Report(resultStatus, currentPhase, frameCount)];
    }

    /**
      One pass of the outer loop (proto.py:212-464): open the camera, reset the
      session, run the inner loop, and quit on `q`; `crashed` when the code
      after the inner loop raises.
     */
    method RunSession(input: SessionInput) returns (crashed: bool)
      modifies this
      ensures Model() == OuterPass(old(Model()), input).monitor
      ensures crashed == OuterPass(old(Model()), input).crashed
    {
      OpenCamera(input.cameraOpens);
      StartSession();
      ghost var begun := Model();
      var flow := RunInnerLoop(input.ticks);
      ProtocolProps.InnerLoopKeepsEnvironment(begun, input.ticks);
      if flow == ReadError || (!detectionsBound && frameCount == 0) {
        return true;
      }
      crashed := false;
      detectionsBound := true;
      if cameraOpen && input.quitKey {
        resultStatus := UserQuit;
        running := false;
      }
    }

    /**
      run_protocol (proto.py:206-481) over the given session inputs;
      `crashed` when a failed read ended the protocol thread.
     */
    method RunProtocol(sessions: seq<SessionInput>) returns (crashed: bool)
      modifies this
      ensures Model() == Run(old(Model()), sessions).monitor
      ensures crashed == Run(old(Model()), sessions).crashed
    {
      var k := 0;
      crashed := false;
      while running && k < |sessions|
        invariant 0 <= k <= |sessions|
        invariant OuterLoop(Model(), sessions[k..]) == OuterLoop(old(Model()), sessions)
        decreases |sessions| - k
      {
        assert sessions[k..][1..] == sessions[k + 1..];
        crashed := RunSession(sessions[k]);
        if crashed {
          return;
        }
        k := k + 1;
      }
      // The source saves unconditionally here; the loop can end with
      // `running` still true only because this input ran out.
      if !running {
        SaveResult();
      }
    }
  }
}
