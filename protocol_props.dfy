/** What the protocol of module Protocol guarantees, frame by frame and over whole runs. */
module ProtocolProps {
  import opened Common
  import opened Detections
  import opened Protocol

  /** The inner loop changes only the session and should_reset. */
  lemma {:induction false} InnerLoopKeepsEnvironment(m: Monitor, ticks: seq<Tick>)
    ensures InnerLoop(m, ticks).monitor.running == m.running
    ensures InnerLoop(m, ticks).monitor.cameraOpen == m.cameraOpen
    ensures InnerLoop(m, ticks).monitor.mockModel == m.mockModel
    ensures InnerLoop(m, ticks).monitor.reports == m.reports
    ensures InnerLoop(m, ticks).monitor.detectionsBound == m.detectionsBound
    decreases |ticks|
  {
    if InnerLoopActive(m) && ticks != [] {
      match ticks[0]
      case ResetRequest =>
        InnerLoopKeepsEnvironment(m.(shouldReset := true), ticks[1..]);
      case Frame(src) =>
        var st := PassOn(m, src);
        if st.flow == Next {
          InnerLoopKeepsEnvironment(m.(session := st.session), ticks[1..]);
        }
    }
  }

  // ---------------------------------------------------------------------
  // One frame

  /** Each frame is counted, and leaves the phase where it was or moves it on by exactly one. */
  lemma FramePhaseStep(s: Session, d: Detections)
    ensures FrameStep(s, d).session.frameCount == s.frameCount + 1
    ensures FrameStep(s, d).session.phase == s.phase
         || (FrameStep(s, d).session.phase == s.phase + 1 && 1 <= s.phase <= 5 && FrameStep(s, d).flow == Next)
    ensures FrameStep(s, d).flow != ReadError
  {
  }

  /** Face loss counts only after the first 20 frames; a frame with landmarks clears it; the 60th lost frame in a row is fatal. */
  lemma FaceLossRule(s: Session, d: Detections)
    ensures s.frameCount + 1 <= STABILIZATION_FRAMES ==> FrameStep(s, d).session.faceLoss == s.faceLoss
    ensures s.frameCount + 1 > STABILIZATION_FRAMES && d.lipLandmarks ==> FrameStep(s, d).session.faceLoss == 0
    ensures s.frameCount + 1 > STABILIZATION_FRAMES && !d.lipLandmarks ==> FrameStep(s, d).session.faceLoss == s.faceLoss + 1
    ensures FaceFatal(s, d) ==>
      FrameStep(s, d) == Stepped(s.(frameCount := s.frameCount + 1, faceLoss := s.faceLoss + 1, status := MouthCovered), Finished)
  {
  }

  /** Phase 1 -> 2 exactly on a pill confidence of at least 0.8. */
  lemma Phase1Rule(s: Session, d: Detections)
    requires s.phase == 1
    ensures FrameStep(s, d).session.phase == 2 <==> !FaceFatal(s, d) && Conf(d, Pill) >= CPILL_P1_MIN
    ensures FrameStep(s, d).session.phase != 2 ==> FrameStep(s, d).session.phase == 1
  {
  }

  /** Phase 2 -> 3 exactly on tongue-no-pill of at least 0.5 with the jaw strictly more than 20 apart. */
  lemma Phase2Rule(s: Session, d: Detections)
    requires s.phase == 2
    ensures FrameStep(s, d).session.phase == 3 <==>
      !FaceFatal(s, d) && Conf(d, TongueNoPill) >= CTONGUE_MIN && JawDistance(d) > MOUTH_OPEN_THRESHOLD
  {
  }

  /** A pill-on-tongue frame with a box: the history grows until it holds 60 points, which advances the phase. */
  lemma Phase3Rule(s: Session, d: Detections)
    requires s.phase == 3 && !FaceFatal(s, d) && |s.history| < PILL_STATIONARY_FRAMES
    ensures var r := FrameStep(s, d).session;
      && r.phase4 == s.phase4 && r.finalConfirm == s.finalConfirm && r.status == s.status
      && (!(Conf(d, PillOnTongue) >= CPILL_P3_MIN && BoxOf(d, PillOnTongue).Some?) ==> r.phase == 3 && r.history == [])
      && (Conf(d, PillOnTongue) >= CPILL_P3_MIN && BoxOf(d, PillOnTongue).Some? ==>
            if |s.history| + 1 >= PILL_STATIONARY_FRAMES then r.phase == 4 && r.history == []
            else r.phase == 3 && r.history == s.history + [Centroid(BoxOf(d, PillOnTongue)).value])
  {
  }

  /** The concealment counter: +1 on a concealed frame below 50, back to 0 on any other frame, phase 5 on a concealed frame at 50. */
  lemma Phase4Rule(s: Session, d: Detections)
    requires s.phase == 4 && !FaceFatal(s, d) && s.phase4 <= CONCEALMENT_FRAMES
    ensures var r := FrameStep(s, d).session;
      && r.history == s.history && r.finalConfirm == s.finalConfirm && r.status == s.status
      && (!Concealed(d) ==> r.phase == 4 && r.phase4 == 0)
      && (Concealed(d) && s.phase4 < CONCEALMENT_FRAMES ==> r.phase == 4 && r.phase4 == s.phase4 + 1)
      && (Concealed(d) && s.phase4 == CONCEALMENT_FRAMES ==> r.phase == 5 && r.phase4 == 0)
  {
  }

  /** In phase 5 a pill on the tongue ends the session as a failure before the advance check. */
  lemma Phase5Rule(s: Session, d: Detections)
    requires s.phase == 5 && !FaceFatal(s, d)
    ensures Conf(d, PillOnTongue) >= CPILL_P3_MIN ==>
      FrameStep(s, d).flow == Finished && FrameStep(s, d).session.status == PillReappeared && FrameStep(s, d).session.phase == 5
    ensures Conf(d, PillOnTongue) < CPILL_P3_MIN ==>
      FrameStep(s, d).flow == Next && (FrameStep(s, d).session.phase == 6 <==> Conf(d, TongueNoPill) >= CTONGUE_MIN)
  {
  }

  /** Confirming frames count up, any other frame resets the count, and the 60th in a row passes. */
  lemma Phase6Rule(s: Session, d: Detections)
    requires s.phase == 6 && !FaceFatal(s, d)
    ensures var confirming := Conf(d, TongueNoPill) >= CTONGUE_MIN && Conf(d, Pill) < CPILL_P6_MAX;
      var r := FrameStep(s, d);
      && r.session.phase == 6
      && (confirming ==> r.session.finalConfirm == s.finalConfirm + 1)
      && (!confirming ==> r.session.finalConfirm == 0 && r.flow == Next)
      && (r.flow == Finished <==> confirming && s.finalConfirm + 1 >= FINAL_CONFIRMATION_FRAMES)
      && (r.flow == Finished ==> r.session.status == VerifiedPass)
  {
  }

  // ---------------------------------------------------------------------
  // The session invariant

  /** The statuses a session can end on by itself. */
  predicate IsOutcome(status: Status) {
    status == VerifiedPass || status == MouthCovered || status == PillReappeared
  }

  /** What holds of a running session between frames. */
  predicate SessionInv(s: Session) {
    && 1 <= s.phase <= 6
    && s.status == Running
    && |s.history| < PILL_STATIONARY_FRAMES
    && s.phase4 <= CONCEALMENT_FRAMES
    && s.finalConfirm < FINAL_CONFIRMATION_FRAMES
    && s.faceLoss < PILL_STATIONARY_FRAMES
    && (s.phase != 3 ==> s.history == [])
    && (s.phase != 4 ==> s.phase4 == 0)
    && (s.phase != 6 ==> s.finalConfirm == 0)
    && (s.frameCount <= STABILIZATION_FRAMES ==> s.faceLoss == 0)
  }

  /** A fresh session satisfies the invariant. */
  lemma FreshSessionInv()
    ensures SessionInv(FreshSession())
  {
  }

  /** A frame keeps the invariant, or ends the session on an outcome with the phase still in 1..6. */
  lemma FrameKeepsInv(s: Session, d: Detections)
    requires SessionInv(s)
    ensures var r := FrameStep(s, d);
      && r.session.phase >= s.phase
      && (r.flow == Next ==> SessionInv(r.session))
      && (r.flow == Finished ==> IsOutcome(r.session.status) && 1 <= r.session.phase <= 6)
      && (r.session.status == VerifiedPass ==> r.session.phase == 6 && r.session.finalConfirm == FINAL_CONFIRMATION_FRAMES)
  {
    FramePhaseStep(s, d);
    if FaceFatal(s, d) {
      FaceLossRule(s, d);
    } else if s.phase == 3 {
      Phase3Rule(s, d);
    } else if s.phase == 4 {
      Phase4Rule(s, d);
    } else if s.phase == 6 {
      Phase6Rule(s, d);
    }
  }

  /** One pass of the inner loop's body keeps the invariant the same way; a failed read only counts the frame. */
  lemma PassKeepsInv(m: Monitor, src: FrameSource)
    requires SessionInv(m.session)
    ensures var r := PassOn(m, src);
      && r.session.phase >= m.session.phase
      && (r.flow != Finished ==> SessionInv(r.session))
      && (r.flow == Finished ==> IsOutcome(r.session.status) && 1 <= r.session.phase <= 6)
  {
    if !(m.cameraOpen && src.ReadFailed?) {
      FrameKeepsInv(m.session, FrameDetections(m.mockModel, m.session.phase, src));
    }
  }

  /**
    Over any input the inner loop keeps the invariant, never moves the phase
    back, and stops on Finished only with an outcome status.
   */
  lemma {:induction false} InnerLoopInv(m: Monitor, ticks: seq<Tick>)
    requires SessionInv(m.session)
    ensures var e := InnerLoop(m, ticks);
      && e.monitor.session.phase >= m.session.phase
      && (e.flow != Finished ==> SessionInv(e.monitor.session))
      && (e.flow == Finished ==> IsOutcome(e.monitor.session.status) && 1 <= e.monitor.session.phase <= 6)
    decreases |ticks|
  {
    if InnerLoopActive(m) && ticks != [] {
      match ticks[0]
      case ResetRequest =>
        InnerLoopInv(m.(shouldReset := true), ticks[1..]);
      case Frame(src) =>
        var st := PassOn(m, src);
        PassKeepsInv(m, src);
        if st.flow == Next {
          InnerLoopInv(m.(session := st.session), ticks[1..]);
        }
    }
  }

  // ---------------------------------------------------------------------
  // Consecutive frames

  /** The inner loop's input for a run of frames the detector saw. */
  function Feed(ds: seq<Detections>): (r: seq<Tick>)
    ensures |r| == |ds|
    ensures forall i :: 0 <= i < |ds| ==> r[i] == Frame(Detected(ds[i]))
  {
    if ds == [] then [] else [Frame(Detected(ds[0]))] + Feed(ds[1..])
  }

  /** A live monitor on the real detector, with no reset pending. */
  predicate LiveReal(m: Monitor) {
    m.running && !m.shouldReset && !m.mockModel
  }

  /** The first of a run of detected frames is one frame step; the loop goes on with the rest only after Next. */
  lemma FeedFirst(m: Monitor, ds: seq<Detections>)
    requires LiveReal(m) && m.session.phase <= 6 && ds != []
    ensures var st := FrameStep(m.session, ds[0]);
      && (st.flow == Next ==> InnerLoop(m, Feed(ds)) == InnerLoop(m.(session := st.session), Feed(ds[1..])))
      && (st.flow != Next ==> InnerLoop(m, Feed(ds)) == SessionEnd(m.(session := st.session), st.flow))
  {
    var t := Feed(ds);
    assert t[0] == Frame(Detected(ds[0]));
    assert t[1..] == Feed(ds[1..]);
    assert PassOn(m, Detected(ds[0])) == FrameStep(m.session, ds[0]);
  }

  /** Frames in phase 4 that count toward concealment, with the face in view. */
  predicate ConcealedInView(d: Detections) {
    d.lipLandmarks && Concealed(d)
  }

  /**
    From a concealment count of c in phase 4, 51 - c concealed frames in a row
    reach phase 5 and fewer leave the count at c plus their number: 51
    concealed frames in a row from 0.
   */
  lemma {:induction false} Phase4Concealment(m: Monitor, ds: seq<Detections>)
    requires LiveReal(m) && m.session.phase == 4 && SessionInv(m.session)
    requires m.session.phase4 + |ds| <= CONCEALMENT_FRAMES + 1
    requires forall i :: 0 <= i < |ds| ==> ConcealedInView(ds[i])
    ensures var e := InnerLoop(m, Feed(ds));
      && e.flow == Next
      && e.monitor.session.frameCount == m.session.frameCount + |ds|
      && (m.session.phase4 + |ds| == CONCEALMENT_FRAMES + 1 ==> e.monitor.session.phase == 5 && e.monitor.session.phase4 == 0)
      && (m.session.phase4 + |ds| <= CONCEALMENT_FRAMES ==> e.monitor.session.phase == 4 && e.monitor.session.phase4 == m.session.phase4 + |ds|)
    decreases |ds|
  {
    if ds != [] {
      var st := FrameStep(m.session, ds[0]);
      FeedFirst(m, ds);
      Phase4Rule(m.session, ds[0]);
      FrameKeepsInv(m.session, ds[0]);
      if m.session.phase4 == CONCEALMENT_FRAMES {
        assert |ds| == 1;
        assert Feed(ds[1..]) == [];
      } else {
        Phase4Concealment(m.(session := st.session), ds[1..]);
      }
    }
  }

  /** Frames in phase 6 that confirm the swallow, with the face in view. */
  predicate ConfirmingInView(d: Detections) {
    d.lipLandmarks && Conf(d, TongueNoPill) >= CTONGUE_MIN && Conf(d, Pill) < CPILL_P6_MAX
  }

  /** From a confirmation count of c in phase 6, the (60 - c)th confirming frame in a row passes and ends the session. */
  lemma {:induction false} Phase6Confirmation(m: Monitor, ds: seq<Detections>)
    requires LiveReal(m) && m.session.phase == 6 && SessionInv(m.session)
    requires m.session.finalConfirm + |ds| <= FINAL_CONFIRMATION_FRAMES
    requires forall i :: 0 <= i < |ds| ==> ConfirmingInView(ds[i])
    ensures var e := InnerLoop(m, Feed(ds));
      && e.monitor.session.frameCount == m.session.frameCount + |ds|
      && (m.session.finalConfirm + |ds| == FINAL_CONFIRMATION_FRAMES ==> e.flow == Finished && e.monitor.session.status == VerifiedPass)
      && (m.session.finalConfirm + |ds| < FINAL_CONFIRMATION_FRAMES ==>
            e.flow == Next && e.monitor.session.phase == 6 && e.monitor.session.finalConfirm == m.session.finalConfirm + |ds|)
    decreases |ds|
  {
    if ds != [] {
      var st := FrameStep(m.session, ds[0]);
      FeedFirst(m, ds);
      Phase6Rule(m.session, ds[0]);
      FrameKeepsInv(m.session, ds[0]);
      if m.session.finalConfirm + 1 < FINAL_CONFIRMATION_FRAMES {
        Phase6Confirmation(m.(session := st.session), ds[1..]);
      }
    }
  }

  /** Frames in phase 3 with the pill on the tongue, boxed, and the face in view. */
  predicate PillHeldInView(d: Detections) {
    d.lipLandmarks && Conf(d, PillOnTongue) >= CPILL_P3_MIN && BoxOf(d, PillOnTongue).Some?
  }

  /** One held frame in phase 3, counted by the history's length. */
  lemma Phase3Held(s: Session, d: Detections)
    requires s.phase == 3 && SessionInv(s) && PillHeldInView(d)
    ensures var r := FrameStep(s, d);
      && r.flow == Next && r.session.frameCount == s.frameCount + 1
      && r.session.phase4 == s.phase4 && SessionInv(r.session)
      && (|s.history| + 1 == PILL_STATIONARY_FRAMES ==> r.session.phase == 4 && r.session.history == [])
      && (|s.history| + 1 < PILL_STATIONARY_FRAMES ==> r.session.phase == 3 && |r.session.history| == |s.history| + 1)
  {
    Phase3Rule(s, d);
    FrameKeepsInv(s, d);
  }

  /** With h points in the history, 60 - h more held frames in a row reach phase 4 with the history cleared. */
  lemma {:induction false} Phase3Hold(m: Monitor, ds: seq<Detections>)
    requires LiveReal(m) && m.session.phase == 3 && SessionInv(m.session)
    requires |m.session.history| + |ds| <= PILL_STATIONARY_FRAMES
    requires forall i :: 0 <= i < |ds| ==> PillHeldInView(ds[i])
    ensures var e := InnerLoop(m, Feed(ds));
      && e.flow == Next
      && e.monitor.session.frameCount == m.session.frameCount + |ds|
      && e.monitor.session.phase4 == m.session.phase4
      && (|m.session.history| + |ds| == PILL_STATIONARY_FRAMES ==> e.monitor.session.phase == 4 && e.monitor.session.history == [])
      && (|m.session.history| + |ds| < PILL_STATIONARY_FRAMES ==>
            e.monitor.session.phase == 3 && |e.monitor.session.history| == |m.session.history| + |ds|)
    decreases |ds|
  {
    if ds != [] {
      var st := FrameStep(m.session, ds[0]);
      FeedFirst(m, ds);
      Phase3Held(m.session, ds[0]);
      var m1 := m.(session := st.session);
      if |m.session.history| + 1 < PILL_STATIONARY_FRAMES {
        Phase3Hold(m1, ds[1..]);
      } else {
        assert Feed(ds[1..]) == [];
      }
    }
  }
}
