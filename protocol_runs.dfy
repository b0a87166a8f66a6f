/**
  Whole sessions and whole runs of the protocol: the least number of frames a
  pass takes, what a mock detector leads to, and when reports are saved.
 */
module ProtocolRuns {
  import opened Common
  import opened Detections
  import opened Protocol
  import opened ProtocolProps

  // ---------------------------------------------------------------------
  // How many frames a pass takes

  /**
    The fewest frames in which a session can reach VERIFIED (PASS): one to show
    the pill, one to open the mouth, 60 holding the pill on the tongue, 51 with
    the mouth closed, one to reopen it and 60 confirming the swallow.
   */
  const MIN_FRAMES_TO_PASS: nat :=
    1 + 1 + PILL_STATIONARY_FRAMES + (CONCEALMENT_FRAMES + 1) + 1 + FINAL_CONFIRMATION_FRAMES

  /** The fewest frames still needed to pass from a session in the given state. */
  function FramesToPass(s: Session): int {
    var fromPhase5 := 1 + FINAL_CONFIRMATION_FRAMES;
    var fromPhase4 := CONCEALMENT_FRAMES + 1 + fromPhase5;
    var fromPhase3 := PILL_STATIONARY_FRAMES + fromPhase4;
    if s.phase == 1 then 2 + fromPhase3
    else if s.phase == 2 then 1 + fromPhase3
    else if s.phase == 3 then fromPhase3 - |s.history|
    else if s.phase == 4 then fromPhase4 - s.phase4
    else if s.phase == 5 then fromPhase5
    else FINAL_CONFIRMATION_FRAMES - s.finalConfirm
  }

  /** A frame brings a pass at most one frame closer, and passes only when one frame was left. */
  lemma FrameNeedsOneAtMost(s: Session, d: Detections)
    requires SessionInv(s)
    ensures var r := FrameStep(s, d);
      && (r.flow == Next ==> FramesToPass(r.session) >= FramesToPass(s) - 1)
      && (r.session.status == VerifiedPass ==> FramesToPass(s) == 1)
  {
    FrameKeepsInv(s, d);
    if FaceFatal(s, d) {
      FaceLossRule(s, d);
    } else if s.phase == 3 {
      Phase3Rule(s, d);
    } else if s.phase == 4 {
      Phase4Rule(s, d);
    } else if s.phase == 6 {
      Phase6Rule(s, d);
    }
  }

  /** One pass of the inner loop's body brings a pass at most one frame closer. */
  lemma PassNeedsOneAtMost(m: Monitor, src: FrameSource)
    requires SessionInv(m.session)
    ensures var r := PassOn(m, src);
      && r.session.frameCount == m.session.frameCount + 1
      && (r.flow == Next ==> SessionInv(r.session) && FramesToPass(r.session) >= FramesToPass(m.session) - 1)
      && (r.session.status == VerifiedPass ==> FramesToPass(m.session) == 1)
  {
    PassKeepsInv(m, src);
    if !(m.cameraOpen && src.ReadFailed?) {
      var d := FrameDetections(m.mockModel, m.session.phase, src);
      FrameNeedsOneAtMost(m.session, d);
      FramePhaseStep(m.session, d);
    }
  }

  /** A session passes only after at least FramesToPass more frames. */
  lemma {:induction false} InnerLoopPassBound(m: Monitor, ticks: seq<Tick>)
    requires SessionInv(m.session)
    ensures var e := InnerLoop(m, ticks);
      e.monitor.session.status == VerifiedPass ==>
        e.monitor.session.frameCount >= m.session.frameCount + FramesToPass(m.session)
    decreases |ticks|
  {
    if InnerLoopActive(m) && ticks != [] {
      match ticks[0]
      case ResetRequest =>
        InnerLoopPassBound(m.(shouldReset := true), ticks[1..]);
      case Frame(src) =>
        var st := PassOn(m, src);
        PassNeedsOneAtMost(m, src);
        if st.flow == Next {
          InnerLoopPassBound(m.(session := st.session), ticks[1..]);
        }
    }
  }

  /** Whatever the input, a session reports VERIFIED (PASS) only on its 174th frame or later. */
  lemma PassNeedsMinimumFrames(m: Monitor, ticks: seq<Tick>)
    ensures var e := InnerLoop(BeginSession(m), ticks);
      e.monitor.session.status == VerifiedPass ==> e.monitor.session.frameCount >= MIN_FRAMES_TO_PASS
  {
    FreshSessionInv();
    InnerLoopPassBound(BeginSession(m), ticks);
  }

  /** Running the inner loop over two inputs in turn is running it over both, once the first leaves it going. */
  lemma {:induction false} InnerLoopAppend(m: Monitor, a: seq<Tick>, b: seq<Tick>)
    requires InnerLoop(m, a).flow == Next
    ensures InnerLoop(m, a + b) == InnerLoop(InnerLoop(m, a).monitor, b)
    decreases |a|
  {
    if a == [] {
      assert a + b == b;
    } else if InnerLoopActive(m) {
      assert (a + b)[0] == a[0];
      assert (a + b)[1..] == a[1..] + b;
      match a[0]
      case ResetRequest =>
        InnerLoopAppend(m.(shouldReset := true), a[1..], b);
      case Frame(src) =>
        var st := PassOn(m, src);
        InnerLoopAppend(m.(session := st.session), a[1..], b);
    }
  }

  /** Feed distributes over concatenation. */
  lemma FeedAppend(a: seq<Detections>, b: seq<Detections>)
    ensures Feed(a + b) == Feed(a) + Feed(b)
  {
    var l, r := Feed(a + b), Feed(a) + Feed(b);
    forall i | 0 <= i < |l|
      ensures l[i] == r[i]
    {
      if i < |a| {
        assert (a + b)[i] == a[i];
      } else {
        assert (a + b)[i] == b[i - |a|];
      }
    }
  }

  /** The same detections n times in a row. */
  function Repeat(d: Detections, n: nat): (r: seq<Detections>)
    ensures |r| == n
    ensures forall i :: 0 <= i < n ==> r[i] == d
  {
    seq(n, _ => d)
  }

  /** A frame with the pill held up and the face in view. */
  const SHOW_PILL := Detections(map[Pill := Detection(0.9, None)], None, true)
  /** The mouth open wide with the tongue showing and no pill. */
  const OPEN_WIDE := Detections(map[TongueNoPill := Detection(0.9, None)], Some(30.0), true)
  /** The pill on the tongue, boxed. */
  const PILL_ON_TONGUE := Detections(map[PillOnTongue := Detection(0.9, Some(BBox(320, 240, 12, 12)))], Some(30.0), true)
  /** The mouth closed: nothing detected, the lips together. */
  const MOUTH_CLOSED := Detections(map[], Some(0.0), true)

  /** One frame on a live monitor, as the inner loop runs it. */
  lemma OneFrame(m: Monitor, d: Detections)
    requires LiveReal(m) && SessionInv(m.session)
    ensures InnerLoop(m, Feed([d])) == SessionEnd(m.(session := FrameStep(m.session, d).session), FrameStep(m.session, d).flow)
  {
    var t := Feed([d]);
    assert t == [Frame(Detected(d))];
    assert t[1..] == [];
  }

  /** Reopening the mouth in phase 5 and then 60 confirming frames pass, 61 frames on. */
  lemma PassFromPhase5(m: Monitor)
    requires LiveReal(m) && SessionInv(m.session) && m.session.phase == 5
    ensures var e := InnerLoop(m, Feed([OPEN_WIDE] + Repeat(OPEN_WIDE, FINAL_CONFIRMATION_FRAMES)));
      && e.flow == Finished && e.monitor.session.status == VerifiedPass
      && e.monitor.session.frameCount == m.session.frameCount + 1 + FINAL_CONFIRMATION_FRAMES
  {
    var s6 := Repeat(OPEN_WIDE, FINAL_CONFIRMATION_FRAMES);
    OneFrame(m, OPEN_WIDE);
    var m5 := InnerLoop(m, Feed([OPEN_WIDE])).monitor;
    FrameKeepsInv(m.session, OPEN_WIDE);
    assert m5.session.phase == 6 && m5.session.finalConfirm == 0;
    Phase6Confirmation(m5, s6);
    FeedAppend([OPEN_WIDE], s6);
    InnerLoopAppend(m, Feed([OPEN_WIDE]), Feed(s6));
  }

  /** From phase 4 with the counter at 0: 51 closed frames, then PassFromPhase5's frames. */
  lemma PassFromPhase4(m: Monitor)
    requires LiveReal(m) && SessionInv(m.session) && m.session.phase == 4 && m.session.phase4 == 0
    ensures var e := InnerLoop(m, Feed(Repeat(MOUTH_CLOSED, CONCEALMENT_FRAMES + 1)
        + ([OPEN_WIDE] + Repeat(OPEN_WIDE, FINAL_CONFIRMATION_FRAMES))));
      && e.flow == Finished && e.monitor.session.status == VerifiedPass
      && e.monitor.session.frameCount == m.session.frameCount + CONCEALMENT_FRAMES + 2 + FINAL_CONFIRMATION_FRAMES
  {
    var s4 := Repeat(MOUTH_CLOSED, CONCEALMENT_FRAMES + 1);
    var rest := [OPEN_WIDE] + Repeat(OPEN_WIDE, FINAL_CONFIRMATION_FRAMES);
    Phase4Concealment(m, s4);
    InnerLoopInv(m, Feed(s4));
    FeedKeepsLive(m, s4);
    PassFromPhase5(InnerLoop(m, Feed(s4)).monitor);
    FeedAppend(s4, rest);
    InnerLoopAppend(m, Feed(s4), Feed(rest));
  }

  /** From phase 3 with an empty history: 60 held frames, then PassFromPhase4's frames. */
  lemma PassFromPhase3(m: Monitor)
    requires LiveReal(m) && SessionInv(m.session) && m.session.phase == 3 && m.session.history == []
    ensures var e := InnerLoop(m, Feed(Repeat(PILL_ON_TONGUE, PILL_STATIONARY_FRAMES)
        + (Repeat(MOUTH_CLOSED, CONCEALMENT_FRAMES + 1) + ([OPEN_WIDE] + Repeat(OPEN_WIDE, FINAL_CONFIRMATION_FRAMES)))));
      && e.flow == Finished && e.monitor.session.status == VerifiedPass
      && e.monitor.session.frameCount == m.session.frameCount + MIN_FRAMES_TO_PASS - 2
  {
    var s3 := Repeat(PILL_ON_TONGUE, PILL_STATIONARY_FRAMES);
    var rest := Repeat(MOUTH_CLOSED, CONCEALMENT_FRAMES + 1) + ([OPEN_WIDE] + Repeat(OPEN_WIDE, FINAL_CONFIRMATION_FRAMES));
    Phase3Hold(m, s3);
    InnerLoopInv(m, Feed(s3));
    FeedKeepsLive(m, s3);
    PassFromPhase4(InnerLoop(m, Feed(s3)).monitor);
    FeedAppend(s3, rest);
    InnerLoopAppend(m, Feed(s3), Feed(rest));
  }

  /** The input of the fastest pass. */
  function FastestInput(): seq<Detections> {
    [SHOW_PILL] + ([OPEN_WIDE] + (Repeat(PILL_ON_TONGUE, PILL_STATIONARY_FRAMES)
      + (Repeat(MOUTH_CLOSED, CONCEALMENT_FRAMES + 1) + ([OPEN_WIDE] + Repeat(OPEN_WIDE, FINAL_CONFIRMATION_FRAMES)))))
  }

  /** The fastest pass: 174 frames are enough, so the bound of PassNeedsMinimumFrames is the least one. */
  lemma FastestPass(m: Monitor)
    requires m.running && !m.mockModel
    ensures var e := InnerLoop(BeginSession(m), Feed(FastestInput()));
      && e.flow == Finished
      && e.monitor.session.status == VerifiedPass
      && e.monitor.session.frameCount == MIN_FRAMES_TO_PASS
  {
    var tail := FastestInput()[2..];
    assert FastestInput() == [SHOW_PILL] + ([OPEN_WIDE] + tail);
    var m0 := BeginSession(m);
    FreshSessionInv();
    OneFrame(m0, SHOW_PILL);
    FrameKeepsInv(m0.session, SHOW_PILL);
    var m1 := InnerLoop(m0, Feed([SHOW_PILL])).monitor;
    assert m1.session.phase == 2;
    OneFrame(m1, OPEN_WIDE);
    FrameKeepsInv(m1.session, OPEN_WIDE);
    var m2 := InnerLoop(m1, Feed([OPEN_WIDE])).monitor;
    assert m2.session.phase == 3 && m2.session.frameCount == 2;
    PassFromPhase3(m2);
    FeedAppend([OPEN_WIDE], tail);
    InnerLoopAppend(m1, Feed([OPEN_WIDE]), Feed(tail));
    FeedAppend([SHOW_PILL], [OPEN_WIDE] + tail);
    InnerLoopAppend(m0, Feed([SHOW_PILL]), Feed([OPEN_WIDE] + tail));
  }

  /** Frames alone never raise should_reset and leave the environment as it was. */
  lemma {:induction false} FeedKeepsLive(m: Monitor, ds: seq<Detections>)
    requires LiveReal(m)
    ensures LiveReal(InnerLoop(m, Feed(ds)).monitor)
    decreases |ds|
  {
    InnerLoopKeepsEnvironment(m, Feed(ds));
    if InnerLoopActive(m) && ds != [] {
      var t := Feed(ds);
      assert t[0] == Frame(Detected(ds[0]));
      assert t[1..] == Feed(ds[1..]);
      var st := PassOn(m, Detected(ds[0]));
      if st.flow == Next {
        FeedKeepsLive(m.(session := st.session), ds[1..]);
      }
    }
  }

  // ---------------------------------------------------------------------
  // The mock detector

  /**
    The frame on which a session on the mock detector fails: the mock record
    never has lip landmarks, so the face is lost on every frame after the 20
    stabilisation frames, and the 60th such frame is fatal.
   */
  const MOCK_FAILURE_FRAME: nat := STABILIZATION_FRAMES + PILL_STATIONARY_FRAMES

  /**
    Where a mock session stands after each frame: through phases 1 and 2 in
    one frame each, 60 frames of phase 3, then stuck in phase 4 (the mock jaw
    distance of 5.0 is not below the closure threshold of 5.0), with the face
    lost on every frame since the 20th.
   */
  predicate MockProgress(s: Session) {
    && s.status == Running
    && s.frameCount < MOCK_FAILURE_FRAME
    && s.faceLoss == (if s.frameCount > STABILIZATION_FRAMES then s.frameCount - STABILIZATION_FRAMES else 0)
    && s.phase4 == 0 && s.finalConfirm == 0
    && ((s.phase == 1 && s.frameCount == 0 && s.history == [])
     || (s.phase == 2 && s.frameCount == 1 && s.history == [])
     || (s.phase == 3 && s.frameCount == 2 + |s.history| && |s.history| < PILL_STATIONARY_FRAMES)
     || (s.phase == 4 && s.frameCount >= 2 + PILL_STATIONARY_FRAMES && s.history == []))
  }

  /** The mock detector never closes phase 4: its jaw distance is exactly the closure threshold. */
  lemma MockNeverConceals()
    ensures !Concealed(MockDetections(4))
  {
    MockDetectionsByPhase(4);
  }

  /** A mock frame keeps MockProgress until the 80th, which ends the session with the mouth covered in phase 4. */
  lemma MockFrame(s: Session)
    requires MockProgress(s)
    ensures var r := FrameStep(s, MockDetections(s.phase));
      && r.session.frameCount == s.frameCount + 1
      && (s.frameCount + 1 < MOCK_FAILURE_FRAME ==> r.flow == Next && MockProgress(r.session))
      && (s.frameCount + 1 == MOCK_FAILURE_FRAME ==>
            r.flow == Finished && r.session.status == MouthCovered && r.session.phase == 4
            && r.session.frameCount == MOCK_FAILURE_FRAME)
  {
    MockDetectionsByPhase(s.phase);
    var d := MockDetections(s.phase);
    FramePhaseStep(s, d);
    if FaceFatal(s, d) {
      FaceLossRule(s, d);
    } else if s.phase == 3 {
      Phase3Rule(s, d);
    } else if s.phase == 4 {
      Phase4Rule(s, d);
    }
  }

  /** A pass of the mock monitor that reads its frame is a mock frame. */
  lemma MockPass(m: Monitor, src: FrameSource)
    requires m.mockModel && MockProgress(m.session) && !(m.cameraOpen && src.ReadFailed?)
    ensures var r := PassOn(m, src);
      && r.session.frameCount == m.session.frameCount + 1
      && (m.session.frameCount + 1 < MOCK_FAILURE_FRAME ==> r.flow == Next && MockProgress(r.session))
      && (m.session.frameCount + 1 == MOCK_FAILURE_FRAME ==>
            r.flow == Finished && r.session.status == MouthCovered && r.session.phase == 4
            && r.session.frameCount == MOCK_FAILURE_FRAME)
  {
    assert PassOn(m, src) == FrameStep(m.session, MockDetections(m.session.phase));
    MockFrame(m.session);
  }

  /** Frames only, none of them a failed read of an open camera. */
  predicate PlainFrames(cameraOpen: bool, ticks: seq<Tick>) {
    forall i :: 0 <= i < |ticks| ==> ticks[i].Frame? && !(cameraOpen && ticks[i].src.ReadFailed?)
  }

  /** A frame at the head of the input is one pass, then the rest of the loop. */
  lemma InnerLoopOnFrame(m: Monitor, ticks: seq<Tick>)
    requires InnerLoopActive(m) && ticks != [] && ticks[0].Frame?
    ensures var st := PassOn(m, ticks[0].src);
      InnerLoop(m, ticks) ==
        if st.flow == Next then InnerLoop(m.(session := st.session), ticks[1..])
        else SessionEnd(m.(session := st.session), st.flow)
  {
  }

  /** Dropping the first tick keeps the input plain. */
  lemma PlainFramesTail(cameraOpen: bool, ticks: seq<Tick>)
    requires ticks != [] && PlainFrames(cameraOpen, ticks)
    ensures PlainFrames(cameraOpen, ticks[1..])
  {
    forall i | 0 <= i < |ticks[1..]|
      ensures ticks[1..][i].Frame? && !(cameraOpen && ticks[1..][i].src.ReadFailed?)
    {
      assert ticks[1..][i] == ticks[i + 1];
    }
  }

  /** On the mock detector a session never passes, never sees the pill reappear and never leaves phases 1-4. */
  lemma {:induction false} MockNeverPasses(m: Monitor, ticks: seq<Tick>)
    requires m.mockModel && MockProgress(m.session)
    ensures var e := InnerLoop(m, ticks);
      && e.monitor.session.status != VerifiedPass
      && e.monitor.session.status != PillReappeared
      && e.monitor.session.phase <= 4
    decreases |ticks|
  {
    if InnerLoopActive(m) && ticks != [] {
      match ticks[0]
      case ResetRequest =>
        MockNeverPasses(m.(shouldReset := true), ticks[1..]);
      case Frame(src) =>
        if !(m.cameraOpen && src.ReadFailed?) {
          MockPass(m, src);
          var st := PassOn(m, src);
          if st.flow == Next {
            MockNeverPasses(m.(session := st.session), ticks[1..]);
          }
        }
    }
  }

  /** Fed enough plain frames, a mock session ends on frame 80 with the mouth covered. */
  lemma {:induction false} MockFailsOnTime(m: Monitor, ticks: seq<Tick>)
    requires m.mockModel && MockProgress(m.session)
    requires m.running && !m.shouldReset && PlainFrames(m.cameraOpen, ticks)
    requires m.session.frameCount + |ticks| >= MOCK_FAILURE_FRAME
    ensures var e := InnerLoop(m, ticks);
      && e.flow == Finished && e.monitor.session.status == MouthCovered
      && e.monitor.session.frameCount == MOCK_FAILURE_FRAME
    decreases |ticks|
  {
    assert ticks[0].Frame?;
    var src := ticks[0].src;
    MockPass(m, src);
    var st := PassOn(m, src);
    InnerLoopOnFrame(m, ticks);
    if st.flow == Next {
      PlainFramesTail(m.cameraOpen, ticks);
      MockFailsOnTime(m.(session := st.session), ticks[1..]);
    }
  }

  /**
    On the mock detector a session never passes and never sees the pill
    reappear; fed enough frames, it ends on frame 80 with the mouth covered.
   */
  lemma MockInnerLoop(m: Monitor, ticks: seq<Tick>)
    requires m.mockModel && MockProgress(m.session)
    ensures var e := InnerLoop(m, ticks);
      && e.monitor.session.status != VerifiedPass
      && e.monitor.session.status != PillReappeared
      && e.monitor.session.phase <= 4
      && (m.running && !m.shouldReset && PlainFrames(m.cameraOpen, ticks)
          && m.session.frameCount + |ticks| >= MOCK_FAILURE_FRAME ==>
            e.flow == Finished && e.monitor.session.status == MouthCovered
            && e.monitor.session.frameCount == MOCK_FAILURE_FRAME)
  {
    MockNeverPasses(m, ticks);
    if m.running && !m.shouldReset && PlainFrames(m.cameraOpen, ticks)
       && m.session.frameCount + |ticks| >= MOCK_FAILURE_FRAME {
      MockFailsOnTime(m, ticks);
    }
  }

  /** A session on the mock detector fails with the mouth covered on its 80th frame and can never pass. */
  lemma MockSessionFails(m: Monitor, ticks: seq<Tick>)
    requires m.mockModel
    ensures var e := InnerLoop(BeginSession(m), ticks);
      && e.monitor.session.status != VerifiedPass
      && (m.running && PlainFrames(m.cameraOpen, ticks) && |ticks| >= MOCK_FAILURE_FRAME ==>
            e.flow == Finished && e.monitor.session.status == MouthCovered
            && e.monitor.session.frameCount == MOCK_FAILURE_FRAME)
  {
    MockInnerLoop(BeginSession(m), ticks);
  }

  // ---------------------------------------------------------------------
  // The outer loop

  /** The outer loop never writes a report, and once the model is the mock it stays the mock. */
  lemma {:induction false} OuterLoopKeepsReports(m: Monitor, sessions: seq<SessionInput>)
    ensures OuterLoop(m, sessions).monitor.reports == m.reports
    ensures m.mockModel ==> OuterLoop(m, sessions).monitor.mockModel
    decreases |sessions|
  {
    if m.running && sessions != [] {
      var m1 := BeginSession(Protocol.OpenCamera(m, sessions[0].cameraOpens));
      InnerLoopKeepsEnvironment(m1, sessions[0].ticks);
      var r := OuterPass(m, sessions[0]);
      if !r.crashed {
        OuterLoopKeepsReports(r.monitor, sessions[1..]);
      }
    }
  }

  /**
    A run saves exactly one report, holding the final status, phase and frame
    count, when it stops without crashing, and none otherwise.
   */
  lemma RunSavesOnStop(m: Monitor, sessions: seq<SessionInput>)
    ensures var r := Run(m, sessions);
      && (!r.crashed && !r.monitor.running ==>
            r.monitor.reports == m.reports + [Report(r.monitor.session.status, r.monitor.session.phase, r.monitor.session.frameCount)])
      && (r.crashed || r.monitor.running ==> r.monitor.reports == m.reports)
  {
    OuterLoopKeepsReports(m, sessions);
  }

  /** Quitting with the camera open stops the run after that session and saves USER QUIT. */
  lemma QuitStopsRun(m: Monitor, input: SessionInput, rest: seq<SessionInput>)
    requires m.running && input.cameraOpens && input.quitKey
    requires InnerLoop(BeginSession(Protocol.OpenCamera(m, true)), input.ticks).flow != ReadError
    requires m.detectionsBound || InnerLoop(BeginSession(Protocol.OpenCamera(m, true)), input.ticks).monitor.session.frameCount > 0
    ensures var r := Run(m, [input] + rest);
      && !r.crashed && !r.monitor.running
      && r.monitor.session.status == UserQuit
      && r.monitor.reports == m.reports + [Report(UserQuit, r.monitor.session.phase, r.monitor.session.frameCount)]
  {
    var m1 := BeginSession(Protocol.OpenCamera(m, true));
    InnerLoopKeepsEnvironment(m1, input.ticks);
    assert ([input] + rest)[0] == input;
    var p := OuterPass(m, input);
    assert !p.crashed && !p.monitor.running && p.monitor.session.status == UserQuit;
    assert OuterLoop(m, [input] + rest) == OuterLoop(p.monitor, ([input] + rest)[1..]);
  }

  /** A failed read of an open camera ends the run with nothing saved. */
  lemma ReadFailureCrashes(m: Monitor, input: SessionInput, rest: seq<SessionInput>)
    requires m.running && input.cameraOpens
    requires InnerLoop(BeginSession(Protocol.OpenCamera(m, true)), input.ticks).flow == ReadError
    ensures Run(m, [input] + rest).crashed
    ensures Run(m, [input] + rest).monitor.reports == m.reports
  {
    var m1 := BeginSession(Protocol.OpenCamera(m, true));
    InnerLoopKeepsEnvironment(m1, input.ticks);
    assert ([input] + rest)[0] == input;
  }

  /**
    A reset that arrives before the first frame of the first session leaves
    `detections` unassigned, so the code after the inner loop raises: the run
    ends crashed with nothing saved.
   */
  lemma ResetFirstCrashes(modelLoaded: bool, input: SessionInput, rest: seq<SessionInput>)
    requires input.ticks != [] && input.ticks[0] == ResetRequest
    ensures Run(InitialMonitor(modelLoaded), [input] + rest).crashed
    ensures Run(InitialMonitor(modelLoaded), [input] + rest).monitor.reports == []
  {
    var m1 := BeginSession(Protocol.OpenCamera(InitialMonitor(modelLoaded), input.cameraOpens));
    assert InnerLoop(m1, input.ticks) == InnerLoop(m1.(shouldReset := true), input.ticks[1..]);
    assert ([input] + rest)[0] == input;
  }

  /**
    The outer loop keeps the phase within 1..6 and, once a session has begun,
    the status is RUNNING, an outcome, or USER QUIT.
   */
  lemma {:induction false} OuterLoopPhaseRange(m: Monitor, sessions: seq<SessionInput>)
    requires 1 <= m.session.phase <= 6
    ensures 1 <= OuterLoop(m, sessions).monitor.session.phase <= 6
    ensures var st := OuterLoop(m, sessions).monitor.session.status;
      st == m.session.status || st == Running || IsOutcome(st) || st == UserQuit
    decreases |sessions|
  {
    if m.running && sessions != [] {
      var m1 := BeginSession(Protocol.OpenCamera(m, sessions[0].cameraOpens));
      FreshSessionInv();
      InnerLoopInv(m1, sessions[0].ticks);
      var r := OuterPass(m, sessions[0]);
      if !r.crashed {
        OuterLoopPhaseRange(r.monitor, sessions[1..]);
      }
    }
  }
}
