/**
  The backend and the page together: what /status_update serves
  (proto.py:520-533), how one poll of it shows on the page, and how the page
  classifies each status the protocol can produce.
 */
module EndToEnd {
  import opened Common
  import opened Protocol
  import opened StatusPresenter
  import opened PhaseParse
  import opened Dashboard

  /** The JSON /status_update serves: the monitor's status and phase, or DISCONNECTED and 0 without a monitor. */
  function StatusPayload(m: Option<Monitor>): PollOutcome {
    match m
    case Some(mon) => Ok(Some(StatusText(mon.session.status)), Number(mon.session.phase))
    case None => Ok(Some("DISCONNECTED"), Number(0))
  }

  /** A poll of a live backend shows its status text and phase, and the phase label reads back as the phase. */
  lemma PollShowsBackend(p: Page, m: Monitor, seenConnected: bool)
    ensures var r := PollStep(p, StatusPayload(Some(m)), seenConnected);
      && r.protocolStatus == StatusText(m.session.status)
      && r.phaseCount == m.session.phase
      && (m.session.phase >= 0 ==> PhaseNumber(r.currentPhase) == Some(m.session.phase))
  {
    PhaseFieldRule(p, Some(StatusText(m.session.status)), Number(m.session.phase), seenConnected);
  }

  /** Without a monitor the page shows DISCONNECTED, greyed out, with phase 0 and no reset button. */
  lemma PollWithoutMonitor(p: Page, seenConnected: bool)
    ensures var r := PollStep(p, StatusPayload(None), seenConnected);
      && r.protocolStatus == "DISCONNECTED" && r.phaseCount == 0
      && StatusColor(r.protocolStatus) == Muted && !IsSessionTerminated(r.protocolStatus)
  {
    var r := PollStep(p, StatusPayload(None), seenConnected);
    DisconnectedShown(r.protocolStatus);
  }

  /** "DISCONNECTED" is shown greyed out and does not terminate the session. */
  lemma DisconnectedShown(s: string)
    requires s == "DISCONNECTED"
    ensures StatusColor(s) == Muted && !IsSessionTerminated(s)
  {
    Absent(s, "PASS", 0);
    Absent(s, "VERIFIED", 0);
    Absent(s, "FAIL", 0);
    Absent(s, "FATAL", 0);
    Absent(s, "QUIT", 0);
  }

  /** Only VERIFIED (PASS) holds the word PASS. */
  lemma PassWord(st: Status)
    ensures Contains(StatusText(st), "PASS") <==> st == VerifiedPass
  {
    var s := StatusText(st);
    match st
    case VerifiedPass =>
      assert OccursAt(s, "PASS", 10);
      Present(s, "PASS", 10);
    case PillReappeared => Absent(s, "PASS", 2);
    case _ => Absent(s, "PASS", 0);
  }

  /** Only VERIFIED (PASS) holds the word VERIFIED. */
  lemma VerifiedWord(st: Status)
    ensures Contains(StatusText(st), "VERIFIED") <==> st == VerifiedPass
  {
    var s := StatusText(st);
    match st
    case VerifiedPass =>
      assert OccursAt(s, "VERIFIED", 0);
      Present(s, "VERIFIED", 0);
    case MouthCovered => AbsentWithin(s, "VERIFIED", 0);
    case _ => Absent(s, "VERIFIED", 0);
  }

  /** Exactly the two fatal failures hold the word FAIL. */
  lemma FailWord(st: Status)
    ensures Contains(StatusText(st), "FAIL") <==> st == MouthCovered || st == PillReappeared
  {
    var s := StatusText(st);
    match st
    case MouthCovered => FailureText(s);
    case PillReappeared => FailureText(s);
    case VerifiedPass => Absent(s, "FAIL", 3);
    case _ => Absent(s, "FAIL", 0);
  }

  /** Both failure texts begin with "FATAL FAIL". */
  lemma FailureText(s: string)
    requires s == StatusText(MouthCovered) || s == StatusText(PillReappeared)
    ensures Contains(s, "FAIL")
  {
    assert s[6] == 'F' && s[7] == 'A' && s[8] == 'I' && s[9] == 'L';
    Present(s, "FAIL", 6);
  }

  /** Exactly the two fatal failures hold the word FATAL. */
  lemma FatalWord(st: Status)
    ensures Contains(StatusText(st), "FATAL") <==> st == MouthCovered || st == PillReappeared
  {
    var s := StatusText(st);
    match st
    case MouthCovered =>
      assert OccursAt(s, "FATAL", 0);
      Present(s, "FATAL", 0);
    case PillReappeared =>
      assert OccursAt(s, "FATAL", 0);
      Present(s, "FATAL", 0);
    case VerifiedPass => Absent(s, "FATAL", 2);
    case _ => Absent(s, "FATAL", 0);
  }

  /** Only USER QUIT holds the word QUIT. */
  lemma QuitWord(st: Status)
    ensures Contains(StatusText(st), "QUIT") <==> st == UserQuit
  {
    var s := StatusText(st);
    match st
    case UserQuit =>
      assert OccursAt(s, "QUIT", 5);
      Present(s, "QUIT", 5);
    case _ => Absent(s, "QUIT", 0);
  }

  /** The colour the page gives each status of the protocol. */
  function ExpectedColor(st: Status): Color {
    match st
    case VerifiedPass => Success
    case MouthCovered => Destructive
    case PillReappeared => Destructive
    case _ => Warning
  }

  /**
    The page classifies every status of the protocol: VERIFIED (PASS), both
    FATAL FAILUREs and USER QUIT end the session and offer a reset; only PASS
    is green, the failures red; INITIALIZING and RUNNING keep the spinner.
   */
  lemma StatusClassification(st: Status)
    ensures IsSessionTerminated(StatusText(st)) <==> st != Initializing && st != Running
    ensures StatusColor(StatusText(st)) == ExpectedColor(st)
    ensures StatusIcon(StatusText(st)) == IconOf(ExpectedColor(st))
  {
    var s := StatusText(st);
    IconFollowsColor(s);
    PassWord(st);
    VerifiedWord(st);
    FailWord(st);
    FatalWord(st);
    QuitWord(st);
  }

  /**
    After a poll of a backend whose session has ended, a connected page
    offers a reset; while the session runs it does not.
   */
  lemma ResetOfferedAfterOutcome(p: Page, m: Monitor)
    requires p.isConnected && !p.isResetting
    ensures var r := Poll(p, StatusPayload(Some(m)));
      ResetEnabled(r) <==> m.session.status != Initializing && m.session.status != Running
  {
    var r := Poll(p, StatusPayload(Some(m)));
    PollShowsBackend(p, m, p.isConnected);
    StatusClassification(m.session.status);
    ConnectRule(p, StatusPayload(Some(m)));
  }
}
