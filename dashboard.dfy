/**
  The Monitor page (src/pages/Monitor.tsx): the state one poll of
  /status_update changes, the connection stabiliser with its toast flags, and
  the state effects of the reset button.  PageState functions say what each
  handler does; the class MonitorPage runs the handlers step by step as the
  component does and is proved to follow them.
 */
module Dashboard {
  import opened Common
  import opened StatusPresenter
  import opened PhaseParse

  /** `data.current_phase`: a number, a string, or anything else. */
  datatype PhaseField = Number(n: int) | Text(t: string) | Other

  /** The outcome of one poll: the JSON received, or a failure (a non-ok response or a thrown error). */
  datatype PollOutcome = Ok(resultStatus: Option<string>, phase: PhaseField) | Failed

  /** The toasts the page raises. */
  datatype Toast = ConnectedToast | ConnectionLostToast | ResetToast | ResetFailedToast

  /** The page's refs and state, and the toasts raised so far. */
  datatype Page = Page(
    stableCount: nat,
    failCount: nat,
    shownConnected: bool,
    shownDisconnected: bool,
    isConnected: bool,
    protocolStatus: string,
    currentPhase: string,
    phaseCount: int,
    isResetting: bool,
    toasts: seq<Toast>)

  const WAITING := "Waiting for connection..."

  /** The state on mount (src/pages/Monitor.tsx:9-21). */
  const INITIAL_PAGE := Page(0, 0, false, false, false, "CONNECTING", WAITING, 0, false, [])

  /** `data.result_status || "RUNNING"`: a missing or empty status reads as RUNNING. */
  function StatusShown(resultStatus: Option<string>): (r: string)
    ensures resultStatus == None || resultStatus == Some("") ==> r == "RUNNING"
    ensures resultStatus.Some? && resultStatus.value != "" ==> r == resultStatus.value
  {
    match resultStatus
    case Some(s) => if s == "" then "RUNNING" else s
    case None => "RUNNING"
  }

  /** The phase field handling (src/pages/Monitor.tsx:51-63). */
  function ApplyPhase(p: Page, f: PhaseField): Page {
    match f
    case Number(n) => p.(phaseCount := n, currentPhase := PhaseLabel(n))
    case Text(t) => p.(currentPhase := t, phaseCount := match PhaseNumber(t) case Some(k) => k case None => p.phaseCount)
    case Other => p.(currentPhase := "Monitoring...")
  }

  /** Becoming connected (src/pages/Monitor.tsx:37-45): the toast fires unless already shown, and re-arms the other one. */
  function Connect(p: Page): Page {
    if !p.shownConnected then
      p.(isConnected := true, toasts := p.toasts + [ConnectedToast], shownConnected := true, shownDisconnected := false)
    else p.(isConnected := true)
  }

  /** Becoming disconnected (src/pages/Monitor.tsx:70-81). */
  function Disconnect(p: Page): Page {
    var p1 :=
      if !p.shownDisconnected then
        p.(isConnected := false, toasts := p.toasts + [ConnectionLostToast], shownDisconnected := true, shownConnected := false)
      else p.(isConnected := false);
    p1.(protocolStatus := "DISCONNECTED", currentPhase := "Backend not connected")
  }

  /** The try branch's counters and connection check (src/pages/Monitor.tsx:33-46). */
  function OnSuccess(p: Page, seenConnected: bool): Page {
    var p1 := p.(stableCount := p.stableCount + 1, failCount := 0);
    if !seenConnected && p1.stableCount >= 2 then Connect(p1) else p1
  }

  /** The catch branch (src/pages/Monitor.tsx:64-83). */
  function OnFailure(p: Page, seenConnected: bool): Page {
    var p1 := p.(failCount := p.failCount + 1, stableCount := 0);
    if seenConnected && p1.failCount >= 3 then Disconnect(p1) else p1
  }

  /**
    One run of pollStatus (src/pages/Monitor.tsx:25-84), where `seenConnected`
    is the value of isConnected the callback reads.
   */
  function PollStep(p: Page, o: PollOutcome, seenConnected: bool): Page {
    match o
    case Ok(status, phase) => ApplyPhase(OnSuccess(p, seenConnected).(protocolStatus := StatusShown(status)), phase)
    case Failed => OnFailure(p, seenConnected)
  }

  /** A poll that reads the current isConnected, as the code is written. */
  function Poll(p: Page, o: PollOutcome): Page {
    PollStep(p, o, p.isConnected)
  }

  /** Polls one after another. */
  function Polls(p: Page, os: seq<PollOutcome>): Page
    decreases |os|
  {
    if os == [] then p else Polls(Poll(p, os[0]), os[1..])
  }

  /** The state handleReset (src/pages/Monitor.tsx:95-121) leaves, `ok` being whether POST /reset answered ok. */
  function ResetStep(p: Page, ok: bool): Page {
    if ok then p.(toasts := p.toasts + [ResetToast], phaseCount := 0, currentPhase := WAITING, isResetting := false)
    else p.(toasts := p.toasts + [ResetFailedToast], isResetting := false)
  }

  /** The reset button is shown and enabled (src/pages/Monitor.tsx:193-197). */
  predicate ResetEnabled(p: Page) {
    IsSessionTerminated(p.protocolStatus) && !p.isResetting && p.isConnected
  }

  // ---------------------------------------------------------------------
  // One poll

  /** The phase display and the status shown leave the connection state alone. */
  lemma DisplayKeepsLink(p: Page, status: Option<string>, f: PhaseField)
    ensures LinkOf(ApplyPhase(p.(protocolStatus := StatusShown(status)), f)) == LinkOf(p)
  {
  }

  /** After any poll at most one counter is nonzero: a success counts up and clears failures, a failure the reverse. */
  lemma CountersExclusive(p: Page, o: PollOutcome, seenConnected: bool)
    ensures var r := PollStep(p, o, seenConnected);
      && (r.stableCount == 0 || r.failCount == 0)
      && (o.Ok? ==> r.stableCount == p.stableCount + 1 && r.failCount == 0)
      && (o.Failed? ==> r.failCount == p.failCount + 1 && r.stableCount == 0)
  {
    if o.Ok? {
      DisplayKeepsLink(OnSuccess(p, seenConnected), o.resultStatus, o.phase);
    }
  }

  /**
    The page connects exactly on a success that makes two in a row; the
    connected toast comes with it when it was not shown, and re-arms the
    disconnected toast.
   */
  lemma ConnectRule(p: Page, o: PollOutcome)
    ensures var r := Poll(p, o);
      && (!p.isConnected && r.isConnected <==> !p.isConnected && o.Ok? && p.stableCount + 1 >= 2)
      && (p.isConnected && o.Ok? ==> r.isConnected && r.toasts == p.toasts)
      && (!p.isConnected && r.isConnected && !p.shownConnected ==>
            r.toasts == p.toasts + [ConnectedToast] && r.shownConnected && !r.shownDisconnected)
      && (!p.isConnected && r.isConnected && p.shownConnected ==> r.toasts == p.toasts)
  {
    if o.Ok? {
      DisplayKeepsLink(OnSuccess(p, p.isConnected), o.resultStatus, o.phase);
    }
  }

  /**
    The page disconnects exactly on a failure that makes three in a row, and
    then shows DISCONNECTED; failures while not connected change only the
    counters.
   */
  lemma DisconnectRule(p: Page)
    ensures var r := Poll(p, Failed);
      && (p.isConnected && !r.isConnected <==> p.isConnected && p.failCount + 1 >= 3)
      && (p.isConnected && !r.isConnected ==>
            r.protocolStatus == "DISCONNECTED" && r.currentPhase == "Backend not connected"
            && (!p.shownDisconnected ==> r.toasts == p.toasts + [ConnectionLostToast] && r.shownDisconnected && !r.shownConnected))
      && (!p.isConnected ==> r == p.(failCount := p.failCount + 1, stableCount := 0))
  {
  }

  /** On a success the status shown is result_status, or RUNNING when it is missing or empty. */
  lemma SuccessStatus(p: Page, status: Option<string>, phase: PhaseField, seenConnected: bool)
    ensures var r := PollStep(p, Ok(status, phase), seenConnected);
      && (status.Some? && status.value != "" ==> r.protocolStatus == status.value)
      && (status.None? || status == Some("") ==> r.protocolStatus == "RUNNING")
  {
  }

  /**
    The phase field: a number n is shown as "Phase n" and counted as n, and
    the text reads back as n unless n is negative; a string is shown as it is
    and counted by its first "Phase <digits>", or the count is kept; anything
    else shows "Monitoring..." and keeps the count.
   */
  lemma PhaseFieldRule(p: Page, status: Option<string>, phase: PhaseField, seenConnected: bool)
    ensures var r := PollStep(p, Ok(status, phase), seenConnected);
      && (phase.Number? ==>
            r.phaseCount == phase.n && r.currentPhase == PhaseLabel(phase.n)
            && PhaseNumber(r.currentPhase) == (if phase.n >= 0 then Some(phase.n) else None))
      && (phase.Text? ==>
            r.currentPhase == phase.t
            && (PhaseNumber(phase.t).Some? ==> r.phaseCount == PhaseNumber(phase.t).value)
            && ((forall j :: !MatchAt(phase.t, j)) ==> r.phaseCount == p.phaseCount))
      && (phase.Other? ==> r.currentPhase == "Monitoring..." && r.phaseCount == p.phaseCount)
  {
    if phase.Number? && phase.n >= 0 {
      PhaseLabelRoundTrip(phase.n, []);
      assert PhaseLabel(phase.n) + [] == PhaseLabel(phase.n);
    } else if phase.Number? {
      NegativeLabelUnread(phase.n);
    }
  }

  /** The count is not clamped to 0..6: a phase of 9 is counted as 9. */
  lemma NoClamping(p: Page, seenConnected: bool)
    ensures PollStep(p, Ok(None, Number(9)), seenConnected).phaseCount == 9
  {
  }

  /** A reset leaves isResetting false; only an ok one clears the phase display; nothing else changes beyond the toast. */
  lemma ResetRule(p: Page, ok: bool)
    ensures var r := ResetStep(p, ok);
      && !r.isResetting
      && (ok ==> r.phaseCount == 0 && r.currentPhase == WAITING && r.toasts == p.toasts + [ResetToast])
      && (!ok ==> r.phaseCount == p.phaseCount && r.currentPhase == p.currentPhase && r.toasts == p.toasts + [ResetFailedToast])
      && r.protocolStatus == p.protocolStatus && r.isConnected == p.isConnected
      && r.stableCount == p.stableCount && r.failCount == p.failCount
  {
  }

  // ---------------------------------------------------------------------
  // The connection invariant

  /** The connection toasts among all toasts, in order. */
  function ConnToasts(ts: seq<Toast>): (r: seq<Toast>)
    ensures |r| <= |ts|
    ensures forall i :: 0 <= i < |r| ==> r[i] == ConnectedToast || r[i] == ConnectionLostToast
  {
    if ts == [] then []
    else
      var init := ConnToasts(ts[..|ts| - 1]);
      var last := ts[|ts| - 1];
      if last == ConnectedToast || last == ConnectionLostToast then init + [last] else init
  }

  /** Connected, Connection Lost, Connected, ... in strict turn. */
  predicate Alternating(cs: seq<Toast>) {
    forall i :: 0 <= i < |cs| ==> cs[i] == (if i % 2 == 0 then ConnectedToast else ConnectionLostToast)
  }

  /** The part of the page the connection stabiliser works on. */
  datatype Link = Link(stableCount: nat, failCount: nat, shownConnected: bool, shownDisconnected: bool,
                       isConnected: bool, toasts: seq<Toast>)

  function LinkOf(p: Page): Link {
    Link(p.stableCount, p.failCount, p.shownConnected, p.shownDisconnected, p.isConnected, p.toasts)
  }

  /**
    What holds between polls: isConnected agrees with the connected flag and
    with the connection toasts shown so far, which alternate starting with
    Connected; at most one counter is nonzero.
   */
  predicate LinkInv(l: Link) {
    && (l.isConnected <==> l.shownConnected)
    && (l.isConnected ==> !l.shownDisconnected)
    && (l.stableCount == 0 || l.failCount == 0)
    && Alternating(ConnToasts(l.toasts))
    && (l.isConnected <==> |ConnToasts(l.toasts)| % 2 == 1)
  }

  predicate PageInv(p: Page) {
    LinkInv(LinkOf(p))
  }

  lemma InitialPageInv()
    ensures PageInv(INITIAL_PAGE)
  {
  }

  /** Appending one toast to the toasts seen. */
  lemma ConnToastsSnoc(ts: seq<Toast>, t: Toast)
    ensures ConnToasts(ts + [t]) == if t == ConnectedToast || t == ConnectionLostToast then ConnToasts(ts) + [t] else ConnToasts(ts)
  {
    assert (ts + [t])[..|ts|] == ts;
  }

  /** The next connection toast in turn keeps the toasts alternating. */
  lemma AlternatingSnoc(cs: seq<Toast>, t: Toast)
    requires Alternating(cs)
    requires t == (if |cs| % 2 == 0 then ConnectedToast else ConnectionLostToast)
    ensures Alternating(cs + [t])
  {
  }

  /** A success keeps the invariant. */
  lemma OnSuccessKeepsInv(p: Page)
    requires PageInv(p)
    ensures PageInv(OnSuccess(p, p.isConnected))
  {
    var r := OnSuccess(p, p.isConnected);
    if r.toasts != p.toasts {
      ConnToastsSnoc(p.toasts, ConnectedToast);
      AlternatingSnoc(ConnToasts(p.toasts), ConnectedToast);
    }
  }

  /** A failure keeps the invariant. */
  lemma OnFailureKeepsInv(p: Page)
    requires PageInv(p)
    ensures PageInv(OnFailure(p, p.isConnected))
  {
    var r := OnFailure(p, p.isConnected);
    if r.toasts != p.toasts {
      ConnToastsSnoc(p.toasts, ConnectionLostToast);
      AlternatingSnoc(ConnToasts(p.toasts), ConnectionLostToast);
    }
  }

  /** Every poll keeps the invariant: each change of connection raises its toast, exactly once. */
  lemma PollKeepsInv(p: Page, o: PollOutcome)
    requires PageInv(p)
    ensures PageInv(Poll(p, o))
  {
    match o
    case Ok(status, phase) =>
      OnSuccessKeepsInv(p);
      DisplayKeepsLink(OnSuccess(p, p.isConnected), status, phase);
    case Failed =>
      OnFailureKeepsInv(p);
  }

  /** A reset keeps the invariant: its toasts are not connection toasts. */
  lemma ResetKeepsInv(p: Page, ok: bool)
    requires PageInv(p)
    ensures PageInv(ResetStep(p, ok))
  {
    ConnToastsSnoc(p.toasts, if ok then ResetToast else ResetFailedToast);
  }

  /** The invariant holds after any sequence of polls. */
  lemma {:induction false} PollsKeepInv(p: Page, os: seq<PollOutcome>)
    requires PageInv(p)
    ensures PageInv(Polls(p, os))
    decreases |os|
  {
    if os != [] {
      PollKeepsInv(p, os[0]);
      PollsKeepInv(Poll(p, os[0]), os[1..]);
    }
  }

  // ---------------------------------------------------------------------
  // Runs of polls

  /** Two successes in a row always leave the page connected. */
  lemma TwoSuccessesConnect(p: Page, a: PollOutcome, b: PollOutcome)
    requires a.Ok? && b.Ok?
    ensures Poll(Poll(p, a), b).isConnected
  {
    DisplayKeepsLink(OnSuccess(p, p.isConnected), a.resultStatus, a.phase);
    var p1 := Poll(p, a);
    DisplayKeepsLink(OnSuccess(p1, p1.isConnected), b.resultStatus, b.phase);
  }

  /** A connected page with no failures counted rides out two failures and disconnects on the third. */
  lemma ThreeFailuresDisconnect(p: Page)
    requires p.isConnected && p.failCount == 0
    ensures Poll(p, Failed).isConnected && Poll(Poll(p, Failed), Failed).isConnected
    ensures var r := Poll(Poll(Poll(p, Failed), Failed), Failed);
      !r.isConnected && r.protocolStatus == "DISCONNECTED"
  {
  }

  // ---------------------------------------------------------------------
  // The callback as it runs: isConnected captured on mount

  /**
    pollStatus is created once, when the effect with dependencies
    [backendUrl, toast] first runs (src/pages/Monitor.tsx:23-93), so the
    isConnected it reads is the initial false on every poll.
   */
  function StalePoll(p: Page, o: PollOutcome): Page {
    PollStep(p, o, false)
  }

  function StalePolls(p: Page, os: seq<PollOutcome>): Page
    decreases |os|
  {
    if os == [] then p else StalePolls(StalePoll(p, os[0]), os[1..])
  }

  /** Polling as the page runs, a connected page never disconnects, whatever the backend does. */
  lemma {:induction false} StaleNeverDisconnects(p: Page, os: seq<PollOutcome>)
    requires p.isConnected
    ensures StalePolls(p, os).isConnected
    decreases |os|
  {
    if os != [] {
      StaleNeverDisconnects(StalePoll(p, os[0]), os[1..]);
    }
  }

  /** Two successes and then three failures: the mount-time value of isConnected, and the current one. */
  const OUTAGE: seq<PollOutcome> := [Ok(Some("RUNNING"), Number(1)), Ok(Some("RUNNING"), Number(1)), Failed, Failed, Failed]

  /** Through the outage the running page stays "Connected" and still shows RUNNING. */
  lemma StaleOutageStaysConnected()
    ensures StalePolls(INITIAL_PAGE, OUTAGE).isConnected
    ensures StalePolls(INITIAL_PAGE, OUTAGE).protocolStatus == "RUNNING"
  {
    var p2 := StalePoll(StalePoll(INITIAL_PAGE, OUTAGE[0]), OUTAGE[1]);
    assert p2.isConnected && p2.protocolStatus == "RUNNING";
    var p5 := StalePoll(StalePoll(StalePoll(p2, Failed), Failed), Failed);
    assert p5 == p2.(failCount := 3, stableCount := 0);
    assert StalePolls(INITIAL_PAGE, OUTAGE) == StalePolls(p5, []);
  }

  /** Reading the current isConnected, the same outage disconnects the page and shows DISCONNECTED. */
  lemma OutageDisconnects()
    ensures !Polls(INITIAL_PAGE, OUTAGE).isConnected
    ensures Polls(INITIAL_PAGE, OUTAGE).protocolStatus == "DISCONNECTED"
  {
    var p2 := Poll(Poll(INITIAL_PAGE, OUTAGE[0]), OUTAGE[1]);
    assert p2.isConnected && p2.failCount == 0;
    ThreeFailuresDisconnect(p2);
    assert Polls(INITIAL_PAGE, OUTAGE) == Polls(Poll(Poll(Poll(p2, Failed), Failed), Failed), []);
  }

  // ---------------------------------------------------------------------
  // The component

  /** The Monitor component's refs and state. */
  class MonitorPage {
    var connectionStableCount: nat
    var disconnectionCount: nat
    var hasShownConnectedToast: bool
    var hasShownDisconnectedToast: bool
    var isConnected: bool
    var protocolStatus: string
    var currentPhase: string
    var phaseCount: int
    var isResetting: bool
    /** The toasts raised so far. */
    var toasts: seq<Toast>

    function Model(): Page
      reads this
    {
      Page(connectionStableCount, disconnectionCount, hasShownConnectedToast, hasShownDisconnectedToast,
        isConnected, protocolStatus, currentPhase, phaseCount, isResetting, toasts)
    }

    /** Mounting the page. */
    constructor ()
      ensures Model() == INITIAL_PAGE
    {
      connectionStableCount, disconnectionCount := 0, 0;
      hasShownConnectedToast, hasShownDisconnectedToast := false, false;
      isConnected := false;
      protocolStatus := "CONNECTING";
      currentPhase := WAITING;
      phaseCount := 0;
      isResetting := false;
      toasts := [];
    }

    /** pollStatus (src/pages/Monitor.tsx:25-84), reading isConnected as a field. */
    method PollStatus(o: PollOutcome)
      modifies this
      ensures Model() == Poll(old(Model()), o)
    {
      match o {
        case Ok(status, phase) =>
          RecordSuccess();
          protocolStatus := StatusShown(status);
          ShowPhase(phase);
        case Failed =>
          RecordFailure();
      }
    }

    /** The try branch's counters and connection check (src/pages/Monitor.tsx:33-46). */
    method RecordSuccess()
      modifies this
      ensures Model() == OnSuccess(old(Model()), old(isConnected))
    {
      connectionStableCount := connectionStableCount + 1;
      disconnectionCount := 0;
      if !isConnected && connectionStableCount >= 2 {
        isConnected := true;
        if !hasShownConnectedToast {
          toasts := toasts + [ConnectedToast];
          hasShownConnectedToast := true;
          hasShownDisconnectedToast := false;
        }
      }
    }

    /** The phase field handling (src/pages/Monitor.tsx:51-63). */
    method ShowPhase(phase: PhaseField)
      modifies this
      ensures Model() == ApplyPhase(old(Model()), phase)
    {
      match phase {
        case Number(n) =>
          phaseCount := n;
          currentPhase := PhaseLabel(n);
        case Text(t) =>
          currentPhase := t;
          var found := PhaseNumber(t);
          if found.Some? {
            phaseCount := found.value;
          }
        case Other =>
          currentPhase := "Monitoring...";
      }
    }

    /** The catch branch (src/pages/Monitor.tsx:64-83). */
    method RecordFailure()
      modifies this
      ensures Model() == OnFailure(old(Model()), old(isConnected))
    {
      disconnectionCount := disconnectionCount + 1;
      connectionStableCount := 0;
      if isConnected && disconnectionCount >= 3 {
        LoseConnection();
      }
    }

    /** Becoming disconnected (src/pages/Monitor.tsx:70-81). */
    method LoseConnection()
      modifies this
      ensures Model() == Disconnect(old(Model()))
    {
      isConnected := false;
      if !hasShownDisconnectedToast {
        toasts := toasts + [ConnectionLostToast];
        hasShownDisconnectedToast := true;
        hasShownConnectedToast := false;
      }
      protocolStatus := "DISCONNECTED";
      currentPhase := "Backend not connected";
    }

    /** handleReset (src/pages/Monitor.tsx:95-121); `ok` is whether POST /reset answered ok. */
    method HandleReset(ok: bool)
      modifies this
      ensures Model() == ResetStep(old(Model()), ok)
    {
      isResetting := true;
      if ok {
        toasts := toasts + [ResetToast];
        phaseCount := 0;
        currentPhase := WAITING;
      } else {
        toasts := toasts + [ResetFailedToast];
      }
      isResetting := false;
    }
  }
}
