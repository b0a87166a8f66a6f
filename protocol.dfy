/**
  The six-phase adherence protocol of proto.py as functions of the monitor's
  state.  One call of FrameStep is one pass of the inner `while` of
  `run_protocol` (proto.py:254-409); InnerLoop runs that loop over a stream of
  inputs, OuterPass one pass of the outer loop, Run the outer loop and what
  follows it.  The class in backend.dfy runs the same steps imperatively and is
  proved equal to these functions.
 */
module Protocol {
  import opened Common
  import opened Detections

  // Thresholds and frame counts, proto.py:30-47.
  const MOUTH_OPEN_THRESHOLD: real := 20.0
  const MOUTH_CLOSURE_THRESHOLD: real := 5.0
  const CPILL_P1_MIN: real := 0.8
  const CPILL_P3_MIN: real := 0.4
  const CTONGUE_MIN: real := 0.5
  const CTONGUE_P4_MAX: real := 0.2
  const CPILL_P6_MAX: real := 0.1
  /** Also the pill_history bound (deque maxlen) and the face-loss limit. */
  const PILL_STATIONARY_FRAMES: nat := 60
  const CONCEALMENT_FRAMES: nat := 50
  const FINAL_CONFIRMATION_FRAMES: nat := 60
  const STABILIZATION_FRAMES: nat := 20

  /** The values result_status takes. */
  datatype Status = Initializing | Running | VerifiedPass | MouthCovered | PillReappeared | UserQuit

  /** The text of each status as the monitor stores it and /status serves it. */
  function StatusText(st: Status): (r: string)
    ensures |r| > 0
  {
    match st
    case Initializing => "INITIALIZING"
    case Running => "RUNNING"
    case VerifiedPass => "VERIFIED (PASS)"
    case MouthCovered => "FATAL FAILURE (MOUTH COVERED)"
    case PillReappeared => "FATAL FAILURE (PILL REAPPEARED)"
    case UserQuit => "USER QUIT"
  }

  /**
    The state one session works on: the monitor's current_phase,
    result_status, frame_count and pill_history, and run_protocol's three
    session counters.
   */
  datatype Session = Session(
    phase: int,
    status: Status,
    frameCount: nat,
    faceLoss: nat,
    phase4: nat,
    finalConfirm: nat,
    history: seq<Point>)

  /** What the detector yields for one pass of the inner loop. */
  datatype FrameSource =
    | ReadFailed             // cap.read() returned no frame
    | Detected(d: Detections) // YOLO and MediaPipe ran on the frame
    | DetectorFailed         // the detector raised; the mock record is used

  /** How a pass of the inner loop ends: on to the next pass, a `break` on an outcome, or a `break` on a failed read. */
  datatype Flow = Next | Finished | ReadError

  datatype Stepped = Stepped(session: Session, flow: Flow)

  /** One saved report (save_result_to_json); the timestamp and duration are left out. */
  datatype Report = Report(finalStatus: Status, phaseAtEnd: int, frameCount: nat)

  /**
    The parts of YOLOv11MedicationMonitor the protocol reads and writes.
    `detectionsBound` says whether run_protocol's local `detections` has been
    assigned (proto.py:269) in an earlier session.
   */
  datatype Monitor = Monitor(
    session: Session,
    shouldReset: bool,
    running: bool,
    cameraOpen: bool,
    mockModel: bool,
    reports: seq<Report>,
    detectionsBound: bool)

  /** Input between two checks of the inner loop's condition. */
  datatype Tick =
    | ResetRequest        // the /reset route set should_reset (proto.py:543)
    | Frame(src: FrameSource)

  /** Input of one pass of the outer loop: whether the camera opened, the inner loop's input, and whether `q` was pressed. */
  datatype SessionInput = SessionInput(cameraOpens: bool, ticks: seq<Tick>, quitKey: bool)

  datatype SessionEnd = SessionEnd(monitor: Monitor, flow: Flow)

  datatype ProtocolEnd = ProtocolEnd(monitor: Monitor, crashed: bool)

  /** Appending to a deque with the given maxlen: the oldest element drops out when it is full. */
  function DequeAppend<T>(h: seq<T>, x: T, maxlen: nat): (r: seq<T>)
    ensures |r| == if |h| + 1 <= maxlen then |h| + 1 else maxlen
    ensures r == (h + [x])[|h| + 1 - |r|..]
    ensures maxlen > 0 ==> r[|r| - 1] == x
  {
    var t := h + [x];
    if |t| > maxlen then t[|t| - maxlen..] else t
  }

  /** The session variables after the reset of proto.py:241-249. */
  function FreshSession(): Session {
    Session(1, Running, 0, 0, 0, 0, [])
  }

  /** The state the constructor (proto.py:71-93) leaves; `modelLoaded` is whether the YOLO weights loaded. */
  function InitialMonitor(modelLoaded: bool): Monitor {
    Monitor(Session(1, Initializing, 0, 0, 0, 0, []), false, true, false, !modelLoaded, [], false)
  }

  /** The detections a pass of the inner loop works on. */
  function FrameDetections(mockModel: bool, phase: int, src: FrameSource): Detections {
    if mockModel then MockDetections(phase)
    else match src
      case Detected(d) => d
      case _ => MockDetections(phase)
  }

  /** The face-loss check ends the session on this frame (proto.py:276-282). */
  predicate FaceFatal(s: Session, d: Detections) {
    s.frameCount + 1 > STABILIZATION_FRAMES && !d.lipLandmarks && s.faceLoss + 1 >= PILL_STATIONARY_FRAMES
  }

  /** Phase 1: hold the medication up. */
  function Phase1(s: Session, d: Detections): Session {
    if CheckDetection(d, Pill, CPILL_P1_MIN) then s.(phase := 2) else s
  }

  /** Phase 2: open the mouth wide, tongue showing. */
  function Phase2(s: Session, d: Detections): Session {
    var tonguePresent := CheckDetection(d, TongueNoPill, CTONGUE_MIN);
    var jawOpen := JawDistance(d) > MOUTH_OPEN_THRESHOLD;
    if tonguePresent && jawOpen then s.(phase := 3) else s
  }

  /** Phase 3: hold the pill on the tongue for 60 frames with a box each time. */
  function Phase3(s: Session, d: Detections): Session {
    if CheckDetection(d, PillOnTongue, CPILL_P3_MIN) then
      var h := match Centroid(BoxOf(d, PillOnTongue))
        case Some(p) => DequeAppend(s.history, p, PILL_STATIONARY_FRAMES)
        case None => [];
      if |h| >= PILL_STATIONARY_FRAMES then s.(phase := 4, history := []) else s.(history := h)
    else s.(history := [])
  }

  /** A phase-4 frame counts toward concealment: tongue absent and jaw closed. */
  predicate Concealed(d: Detections) {
    CheckAbsence(d, TongueNoPill, CTONGUE_P4_MAX) && JawDistance(d) < MOUTH_CLOSURE_THRESHOLD
  }

  /** Phase 4: keep the mouth closed; the counter advances the phase once it is full. */
  function Phase4(s: Session, d: Detections): Session {
    var potConf := Conf(d, PillOnTongue);
    var openedWide := s.phase4 > 0 && JawDistance(d) > MOUTH_OPEN_THRESHOLD && potConf < CPILL_P3_MIN;
    // `warning_message` is set exactly when openedWide reset the counter
    var c := if openedWide then 0 else s.phase4;
    if Concealed(d) then
      if c < CONCEALMENT_FRAMES then s.(phase4 := c + 1) else s.(phase := 5, phase4 := 0)
    else
      s.(phase4 := if c > 0 && !openedWide then 0 else c)
  }

  /** Phase 5: reopen the mouth; a pill on the tongue now is fatal. */
  function Phase5(s: Session, d: Detections): Stepped {
    if Conf(d, PillOnTongue) >= CPILL_P3_MIN then Stepped(s.(status := PillReappeared), Finished)
    else if CheckDetection(d, TongueNoPill, CTONGUE_MIN) then Stepped(s.(phase := 6), Next)
    else Stepped(s, Next)
  }

  /** Phase 6: tongue showing and no pill for 60 frames in a row. */
  function Phase6(s: Session, d: Detections): Stepped {
    if CheckDetection(d, TongueNoPill, CTONGUE_MIN) && CheckAbsence(d, Pill, CPILL_P6_MAX) then
      var c := s.finalConfirm + 1;
      if c >= FINAL_CONFIRMATION_FRAMES then Stepped(s.(finalConfirm := c, status := VerifiedPass), Finished)
      else Stepped(s.(finalConfirm := c), Next)
    else Stepped(s.(finalConfirm := 0), Next)
  }

  /** The `if/elif` chain on current_phase (proto.py:297-403). */
  function PhaseStep(s: Session, d: Detections): Stepped {
    if s.phase == 1 then Stepped(Phase1(s, d), Next)
    else if s.phase == 2 then Stepped(Phase2(s, d), Next)
    else if s.phase == 3 then Stepped(Phase3(s, d), Next)
    else if s.phase == 4 then Stepped(Phase4(s, d), Next)
    else if s.phase == 5 then Phase5(s, d)
    else if s.phase == 6 then Phase6(s, d)
    else Stepped(s, Next)
  }

  /** The face-loss count after a frame, once frame_count has been advanced (proto.py:276-284). */
  function CountFace(s: Session, d: Detections): Session {
    if s.frameCount > STABILIZATION_FRAMES then
      if !d.lipLandmarks then s.(faceLoss := s.faceLoss + 1) else s.(faceLoss := 0)
    else s
  }

  /**
    The rest of a pass once frame_count has been advanced and the frame read:
    the face check, which may end the session, then the phase logic.
   */
  function Evaluate(s: Session, d: Detections): Stepped {
    var s1 := CountFace(s, d);
    if s.frameCount > STABILIZATION_FRAMES && !d.lipLandmarks && s1.faceLoss >= PILL_STATIONARY_FRAMES then
      Stepped(s1.(status := MouthCovered), Finished)
    else PhaseStep(s1, d)
  }

  /** The session once `frame_count += 1` has run. */
  function Counted(s: Session): Session {
    s.(frameCount := s.frameCount + 1)
  }

  /** One frame that was read: count it, check the face, then the phase logic. */
  function FrameStep(s: Session, d: Detections): Stepped {
    Evaluate(Counted(s), d)
  }

  /** One pass of the inner loop's body (proto.py:255-409). */
  function PassOn(m: Monitor, src: FrameSource): Stepped {
    if m.cameraOpen && src.ReadFailed? then Stepped(Counted(m.session), ReadError)
    else FrameStep(m.session, FrameDetections(m.mockModel, m.session.phase, src))
  }

  /** A pass that reads a frame counts it and evaluates its detections. */
  lemma PassOnRead(m: Monitor, src: FrameSource, d: Detections)
    requires !(m.cameraOpen && src.ReadFailed?) && d == FrameDetections(m.mockModel, m.session.phase, src)
    ensures PassOn(m, src) == Evaluate(Counted(m.session), d)
  {
  }

  /** The inner loop's condition (proto.py:254). */
  predicate InnerLoopActive(m: Monitor) {
    m.session.phase <= 6 && !m.shouldReset && m.running
  }

  /** The inner loop run over the given input until its condition fails, it breaks, or the input ends. */
  function InnerLoop(m: Monitor, ticks: seq<Tick>): SessionEnd
    decreases |ticks|
  {
    if !InnerLoopActive(m) || ticks == [] then SessionEnd(m, Next)
    else match ticks[0]
      case ResetRequest => InnerLoop(m.(shouldReset := true), ticks[1..])
      case Frame(src) =>
        var st := PassOn(m, src);
        if st.flow == Next then InnerLoop(m.(session := st.session), ticks[1..])
        else SessionEnd(m.(session := st.session), st.flow)
  }

  /** Opening the camera (proto.py:219-224): without a camera the model falls back to mock for good. */
  function OpenCamera(m: Monitor, isOpen: bool): Monitor {
    m.(cameraOpen := isOpen, mockModel := m.mockModel || !isOpen)
  }

  /** The session reset (proto.py:240-249). */
  function BeginSession(m: Monitor): Monitor {
    m.(session := FreshSession(), shouldReset := false)
  }

  /**
    One pass of the outer loop (proto.py:212-464).  The code after the inner
    loop raises, ending the protocol thread (`crashed`), in two cases: a failed
    read broke the loop with `frame` still None, which `frame.copy()` at
    proto.py:446 rejects; or neither this session nor an earlier one has
    assigned `detections`, which proto.py:411 reads (a reset before the first
    frame of the first session).  Every pass that does not fail its read
    assigns `detections` and counts a frame, so without a failed read this
    session assigned it exactly when it counted a frame.  Otherwise `q` (only
    read while the camera is open) quits.
   */
  function OuterPass(m: Monitor, input: SessionInput): ProtocolEnd {
    var e := InnerLoop(BeginSession(OpenCamera(m, input.cameraOpens)), input.ticks);
    if e.flow == ReadError || (!m.detectionsBound && e.monitor.session.frameCount == 0) then ProtocolEnd(e.monitor, true)
    else
      var seen := e.monitor.(detectionsBound := true);
      if input.cameraOpens && input.quitKey then
        ProtocolEnd(seen.(session := seen.session.(status := UserQuit), running := false), false)
      else ProtocolEnd(seen, false)
  }

  /** The outer `while self.running` loop over the given session inputs. */
  function OuterLoop(m: Monitor, sessions: seq<SessionInput>): ProtocolEnd
    decreases |sessions|
  {
    if !m.running || sessions == [] then ProtocolEnd(m, false)
    else
      var r := OuterPass(m, sessions[0]);
      if r.crashed then r else OuterLoop(r.monitor, sessions[1..])
  }

  /** save_result_to_json: one more report holding the final status, the phase and the frame count. */
  function SaveResult(m: Monitor): Monitor {
    m.(reports := m.reports + [Report(m.session.status, m.session.phase, m.session.frameCount)])
  }

  /**
    run_protocol (proto.py:206-481).  The outer loop is left only once
    `running` is false, and then the result is saved; the wait for a reset
    that follows (proto.py:472-475) needs `running`, so it never runs.  When
    the input ends while the monitor is still running the source would go on
    looping, and nothing is saved.
   */
  function Run(m: Monitor, sessions: seq<SessionInput>): ProtocolEnd {
    var o := OuterLoop(m, sessions);
    if !o.crashed && !o.monitor.running then ProtocolEnd(SaveResult(o.monitor), false) else o
  }
}
