# Medication adherence monitor — a verified model

The system watches a patient take a pill through a webcam. A Python backend
(`proto.py`) runs a six-phase protocol over the detections of each camera frame:

1. show the pill;
2. open the mouth wide;
3. hold the pill on the tongue;
4. close the mouth;
5. reopen it;
6. confirm the swallow with the pill gone.

A session ends in one of three ways:

- `VERIFIED (PASS)`;
- one of two fatal failures: `FATAL FAILURE (MOUTH COVERED)` or `FATAL FAILURE (PILL REAPPEARED)`;
- `USER QUIT`.

A React page (`src/pages/Monitor.tsx`) polls the backend's status route. It
keeps a connection stabiliser, parses the phase field and colours the
status. Its reset button asks the backend for a new session.

This project models both parts in Dafny and proves what they do.

- **`Detections`** (detections.dfy) holds the per-frame detection record:
  - the confidence of each target class, its box, the jaw distance and the lip landmarks;
  - `_check_detection`, `_check_absence`, `_calculate_centroid` and `_get_mock_detections`;
  - the loop of `_yolo_detect` that keeps each class's strongest box, as a method.
- **`Protocol`** (protocol.dfy) is the protocol as functions of the monitor's state:
  - one frame of the inner loop (`FrameStep`, `PassOn`);
  - the inner loop over a stream of inputs (`InnerLoop`);
  - one pass of the outer loop (`OuterPass`), the outer loop (`OuterLoop`) and `run_protocol` (`Run`).
- **`Backend`** (backend.dfy) is the monitor as a class whose fields every step
  updates in place. Each method is proved to leave exactly the state the
  matching function of `Protocol` gives.
- **`ProtocolProps`** and **`ProtocolRuns`** (protocol_props.dfy, protocol_runs.dfy)
  hold the protocol's guarantees:
  - each frame's transition rules;
  - a session invariant kept by every frame;
  - runs of consecutive frames;
  - the least number of frames to a pass;
  - mock mode;
  - when a report is saved.
- **`StatusPresenter`** (status.dfy) holds `getStatusColor`, `getStatusIcon` and
  `isSessionTerminated` over JavaScript's `includes`.
- **`PhaseParse`** (phase_parse.dfy) holds the `Phase ${n}` label and the
  `/Phase (\d+)/` match with `parseInt`, with a round trip between them.
- **`Dashboard`** (dashboard.dfy) holds the page:
  - one poll as a function of the page state;
  - the connection invariant kept by every poll and reset;
  - the class `MonitorPage`, whose handlers update the state step by step.
- **`EndToEnd`** (endtoend.dfy) joins the two sides. It covers:
  - what the status route serves;
  - how a poll shows it;
  - how the page classifies every status the protocol can reach.

Confidences and jaw distances are `real`s. The code only compares them, so
nothing is computed on them. The source's inputs become parameters:

- each frame's detection record, or a failed read;
- whether the camera opened;
- when `/reset` arrives;
- whether `q` was pressed;
- each poll's outcome.

Facts the proofs establish about the code as written:

- **Continuous mode**: a session that passes or fails is followed at once by a new
  session. `run_protocol` leaves its outer loop only once `running` is false,
  and only `q` with the camera open makes it false. `save_result_to_json`
  therefore runs once, after a quit, and the wait-for-reset block after the
  outer loop never runs (`ProtocolRuns.RunSavesOnStop`, `ProtocolRuns.QuitStopsRun`).
- **A failed camera read crashes the thread**: it breaks the inner loop with the
  frame still `None`, and the per-session code after the loop
  (proto.py:411-446) then fails on it. The protocol thread ends with nothing
  saved (`ProtocolRuns.ReadFailureCrashes`).
- **A reset before the first frame of the first session crashes the thread too**: the inner
  loop then runs no pass, so `detections` (assigned at proto.py:269) is still unbound when
  proto.py:411 reads it. Nothing is saved (`ProtocolRuns.ResetFirstCrashes`). A later session
  sees the previous session's `detections` and does not crash this way.
- **A pass takes at least 174 frames**, and 174 are enough:
  1 + 1 + 60 + 51 + 1 + 60 (`ProtocolRuns.PassNeedsMinimumFrames`, `ProtocolRuns.FastestPass`).
- **Mock mode cannot pass**:
  - The mock record never has lip landmarks, so a mock session fed 80 frames ends
    `FATAL FAILURE (MOUTH COVERED)` on frame 80; a reset or a failed read can end it earlier.
  - Even without that, its phase-4 jaw distance of 5 is not below the
    closure threshold of 5 (`ProtocolRuns.MockSessionFails`,
    `ProtocolRuns.MockNeverConceals`).
- **The page does not clamp the phase count**: a status phase of 9 shows as 9 (`Dashboard.NoClamping`).
- **`isSessionTerminated` does not test VERIFIED**: "VERIFIED" alone is coloured as a pass but does
  not end the session (`StatusPresenter.VerifiedAloneNotTerminated`).

## Model

| member | source | states |
|---|---|---|
| Detections.LabelOf | proto.py:143-144 | a class name maps to a target label exactly when it is one of the four target class names, and to the label of that name |
| Detections.Conf | proto.py:162-168 | the confidence of a class, 0.0 when the key is missing from the record |
| Detections.Centroid | proto.py:170-173 | no centroid exactly when there is no box; otherwise the box centre |
| Detections.EmptyObjectsHasEveryLabel | proto.py:133 | the default record has every target class at confidence 0.0 with no box |
| Detections.MockDetectionsByPhase | proto.py:105-120 | the mock record per phase: no lip landmarks, pill 0.95 only in phase 1, tongue-no-pill 0.9 in phases 2, 5, 6, pill-on-tongue 0.9 with a box in phase 3, jaw 30 in phase 2 and 5 in phase 4, else 0 |
| Detections.BoxInfo | proto.py:145 | corner to centre form: width and height are the corner differences, the centre is the lower corner plus half the size, rounded down |
| Detections.StrongestEntryStep | proto.py:146 | one more box keeps each label's entry the first strongest box so far, or the default |
| Detections.NoCandidateKeepsDefault | proto.py:141-146 | a label no box beats 0.0 for keeps the default entry |
| Detections.StrongestPerLabel | proto.py:141-146 | the fold leaves every label its strongest box (the first one on ties, by the strict `>`), or the default when none beats 0.0 |
| Protocol.DequeAppend | proto.py:76 | appending to a deque with maxlen: length capped at maxlen, the new element last, the oldest ones dropped |
| ProtocolProps.InnerLoopKeepsEnvironment | proto.py:254-409 | the inner loop changes neither running, nor the camera, nor the model, nor the saved reports |
| ProtocolProps.FramePhaseStep | proto.py:297-403 | each frame advances frame_count by one and leaves the phase where it was or moves it on by exactly one, from 1..5 |
| ProtocolProps.FaceLossRule | proto.py:276-284 | face loss counts only after frame 20, is cleared by a frame with landmarks, and its 60th frame in a row ends the session MOUTH COVERED before any phase logic |
| ProtocolProps.Phase1Rule | proto.py:297-302 | phase 1 moves to 2 exactly when the pill confidence is at least 0.8 (and the face check did not end the session) |
| ProtocolProps.Phase2Rule | proto.py:304-312 | phase 2 moves to 3 exactly when tongue-no-pill is at least 0.5 and the jaw distance strictly above 20 |
| ProtocolProps.Phase3Rule | proto.py:314-332 | a pill-on-tongue frame of at least 0.4 with a box grows the history; a 60th point moves to phase 4 and clears it; any other frame empties it |
| ProtocolProps.Phase4Rule | proto.py:334-363 | a concealed frame (tongue below 0.2, jaw below 5) counts up to 50, and one at 50 moves to phase 5; any other frame leaves the counter 0 |
| ProtocolProps.Phase5Rule | proto.py:365-377 | in phase 5 a pill-on-tongue of at least 0.4 ends the session PILL REAPPEARED before the advance check; otherwise phase 6 exactly on tongue-no-pill of at least 0.5 |
| ProtocolProps.Phase6Rule | proto.py:379-403 | confirming frames count up, any other frame resets the count to 0, and the session passes exactly on the 60th confirming frame in a row |
| ProtocolProps.FreshSessionInv | proto.py:240-249 | the reset session satisfies the session invariant |
| ProtocolProps.FrameKeepsInv | proto.py:254-409 | a frame never moves the phase back, keeps the invariant (phase 1..6, history below 60, counter bounds) or ends on an outcome, and PASS only in phase 6 with the count at 60 |
| ProtocolProps.PassKeepsInv | proto.py:255-409 | one pass of the body, a failed read included, keeps the invariant or ends on an outcome |
| ProtocolProps.InnerLoopInv | proto.py:254-409 | over any input the inner loop keeps the invariant, never moves the phase back, and stops on Finished only with an outcome |
| ProtocolProps.Phase4Concealment | proto.py:344-351 | from counter c, 51 - c concealed frames in a row reach phase 5 with the counter cleared, fewer leave it at c plus their number |
| ProtocolProps.Phase6Confirmation | proto.py:383-390 | from count c, the (60 - c)th confirming frame in a row passes, fewer leave the count at c plus their number |
| ProtocolProps.Phase3Hold | proto.py:314-327 | with h points held, 60 - h more held frames reach phase 4 with the history cleared, fewer grow it by their number |
| ProtocolRuns.FrameNeedsOneAtMost | proto.py:297-403 | a frame brings a pass at most one frame closer, and passes only when one frame was left |
| ProtocolRuns.InnerLoopPassBound | proto.py:254-409 | a session passes only after at least the frames still needed from where it stood |
| ProtocolRuns.PassNeedsMinimumFrames | proto.py:240-409 | whatever the input, VERIFIED (PASS) comes no earlier than frame 174 of a session |
| ProtocolRuns.PassFromPhase5 | proto.py:365-390 | reopening the mouth and 60 confirming frames pass 61 frames on |
| ProtocolRuns.PassFromPhase4 | proto.py:334-390 | from phase 4 at 0, 51 closed frames then the phase-5 frames pass |
| ProtocolRuns.PassFromPhase3 | proto.py:314-390 | from phase 3 with no history, 60 held frames then the phase-4 frames pass |
| ProtocolRuns.FastestPass | proto.py:240-390 | a session on the real detector passes on exactly frame 174 with the fastest input, so the bound is the least one |
| ProtocolRuns.MockNeverConceals | proto.py:110-111 | the mock phase-4 record never counts as concealed: its jaw distance of 5 is not below 5 |
| ProtocolRuns.MockFrame | proto.py:105-120 | each mock frame keeps the mock session's progress until frame 80, which ends it MOUTH COVERED in phase 4 |
| ProtocolRuns.MockInnerLoop | proto.py:254-409 | on the mock detector the inner loop never passes, never sees the pill reappear and stays below phase 5; fed enough frames it fails on frame 80 |
| ProtocolRuns.MockPass | proto.py:254-268 | a mock pass that reads its frame counts it and then behaves as a mock frame |
| ProtocolRuns.MockNeverPasses | proto.py:254-409 | on the mock detector the inner loop never passes, never sees the pill reappear and stays below phase 5, whatever the input |
| ProtocolRuns.MockFailsOnTime | proto.py:254-409 | fed enough frames that read, a mock session breaks on frame 80 with MOUTH COVERED |
| ProtocolRuns.MockSessionFails | proto.py:130-131 | a session on the mock model never passes and, fed 80 plain frames, fails MOUTH COVERED on frame 80 |
| ProtocolRuns.OuterLoopKeepsReports | proto.py:211-464 | the outer loop writes no report, and a mock model stays mock |
| ProtocolRuns.RunSavesOnStop | proto.py:466-467 | a run saves exactly one report with the final status, phase and frame count when it stops without crashing, and none otherwise |
| ProtocolRuns.QuitStopsRun | proto.py:458-462 | `q` with the camera open stops the run after that session and saves USER QUIT, whenever the session did not fail a read and `detections` was assigned, in an earlier session or by a frame of this one |
| ProtocolRuns.ReadFailureCrashes | proto.py:258-262 | a failed read of an open camera ends the run crashed with nothing saved |
| ProtocolRuns.ResetFirstCrashes | proto.py:249-411 | a reset before the first frame of the first session leaves `detections` unassigned for proto.py:411, so the run crashes with nothing saved |
| ProtocolRuns.OuterLoopPhaseRange | proto.py:211-464 | across sessions the phase stays in 1..6 and the status is the initial one, RUNNING, an outcome, or USER QUIT |
| Backend.MedicationMonitor.constructor | proto.py:71-93 | the initial state: phase 1, INITIALIZING, no frames, running, mock exactly when the weights did not load |
| Backend.MedicationMonitor.RequestReset | proto.py:536-545 | the reset route raises should_reset and changes nothing else |
| Backend.MedicationMonitor.OpenCamera | proto.py:219-224 | a camera that does not open switches the model to mock for good |
| Backend.MedicationMonitor.StartSession | proto.py:240-249 | the reset: frame_count 0, phase 1, RUNNING, all three counters 0, empty history, should_reset false |
| Backend.MedicationMonitor.ProcessFrame | proto.py:255-409 | one pass of the body updates the fields as PassOn says and reports how the pass ended |
| Backend.MedicationMonitor.EvaluateFrame | proto.py:266-409 | the face check and the phase logic on a counted frame, as Evaluate says |
| Backend.MedicationMonitor.YoloDetect | proto.py:130-160 | the mock record for a mock model or a failed detector, else the detector's record |
| Backend.MedicationMonitor.CheckFace | proto.py:276-284 | the face-loss count as CountFace says, fatal exactly on the 60th lost frame after frame 20 |
| Backend.MedicationMonitor.StepPhase | proto.py:297-403 | the if/elif chain on the phase, as PhaseStep says |
| Backend.MedicationMonitor.HoldPill | proto.py:314-332 | phase 3 on the fields, as Phase3 says |
| Backend.MedicationMonitor.HoldClosed | proto.py:334-363 | phase 4 on the fields, warning flag included, as Phase4 says |
| Backend.MedicationMonitor.Reopen | proto.py:365-377 | phase 5 on the fields, as Phase5 says |
| Backend.MedicationMonitor.ConfirmSwallow | proto.py:379-403 | phase 6 on the fields, as Phase6 says |
| Backend.MedicationMonitor.RunInnerLoop | proto.py:254-409 | the inner while loop leaves the state InnerLoop gives |
| Backend.MedicationMonitor.RunSession | proto.py:212-464 | one pass of the outer loop leaves the state OuterPass gives and crashes exactly when OuterPass does |
| Backend.MedicationMonitor.SaveResult | proto.py:175-204 | one more report with the status, phase and frame count |
| Backend.MedicationMonitor.RunProtocol | proto.py:206-481 | run_protocol leaves the state Run gives, and crashes exactly when Run does |
| StatusPresenter.StatusColor | src/pages/Monitor.tsx:128-133 | success exactly for PASS or VERIFIED, destructive exactly for FAIL or FATAL without those, muted exactly for DISCONNECTED without any of them |
| StatusPresenter.IconFollowsColor | src/pages/Monitor.tsx:128-140 | the icon always takes the branch the colour takes |
| StatusPresenter.FailureTerminates | src/pages/Monitor.tsx:123-133 | a status with FAIL and no pass word terminates the session and is destructive |
| StatusPresenter.TerminatedNotMuted | src/pages/Monitor.tsx:123-133 | a terminated status is never shown as disconnected |
| StatusPresenter.VerifiedAloneNotTerminated | src/pages/Monitor.tsx:123-129 | "VERIFIED" alone is shown as a pass but does not terminate the session |
| PhaseParse.DigitRun | src/pages/Monitor.tsx:57 | the greedy `\d+`: the longest run of digits from an index |
| PhaseParse.FirstMatch | src/pages/Monitor.tsx:57 | the leftmost index from which "Phase " and a digit follow, or none |
| PhaseParse.PhaseNumber | src/pages/Monitor.tsx:57-59 | no number exactly when "Phase " followed by a digit occurs nowhere |
| PhaseParse.NatToString | src/pages/Monitor.tsx:54 | the decimal text of a number is a nonempty run of digits |
| PhaseParse.NatToStringValue | src/pages/Monitor.tsx:54-59 | parseInt of the decimal text of n is n |
| PhaseParse.PhaseLabelRoundTrip | src/pages/Monitor.tsx:52-59 | the text "Phase n", followed by anything not starting with a digit, parses back to n |
| PhaseParse.NegativeLabelUnread | src/pages/Monitor.tsx:52-59 | the text "Phase -n" does not match the pattern |
| Dashboard.StatusShown | src/pages/Monitor.tsx:48 | a missing or empty result_status shows RUNNING, any other is shown as it is |
| Dashboard.DisplayKeepsLink | src/pages/Monitor.tsx:48-63 | the status and phase display leave the connection state alone |
| Dashboard.CountersExclusive | src/pages/Monitor.tsx:33-67 | after any poll at most one counter is nonzero: a success counts up and clears failures, a failure the reverse |
| Dashboard.ConnectRule | src/pages/Monitor.tsx:36-46 | the page connects exactly on a success making two in a row; the connected toast comes only when it was not shown, and re-arms the other |
| Dashboard.DisconnectRule | src/pages/Monitor.tsx:65-82 | the page disconnects exactly on a failure making three in a row, then shows DISCONNECTED and "Backend not connected", with the symmetric toast rule |
| Dashboard.SuccessStatus | src/pages/Monitor.tsx:48 | on a success the status shown is result_status, or RUNNING when missing or empty |
| Dashboard.PhaseFieldRule | src/pages/Monitor.tsx:50-63 | a number n gives count n and text "Phase n", which parses back to n; a string is shown as is and counted by its first match or the count is kept; anything else shows "Monitoring..." |
| Dashboard.NoClamping | src/pages/Monitor.tsx:52-54 | a phase of 9 is counted as 9 |
| Dashboard.ResetRule | src/pages/Monitor.tsx:95-121 | after a reset isResetting is false; an ok one sets count 0 and "Waiting for connection...", a failed one keeps them; each raises its toast |
| Dashboard.InitialPageInv | src/pages/Monitor.tsx:9-21 | the page on mount satisfies the connection invariant |
| Dashboard.OnSuccessKeepsInv | src/pages/Monitor.tsx:32-46 | a success keeps the connection invariant |
| Dashboard.OnFailureKeepsInv | src/pages/Monitor.tsx:64-83 | a failure keeps the connection invariant |
| Dashboard.PollKeepsInv | src/pages/Monitor.tsx:25-84 | every poll keeps it: connected agrees with the toast flags, the connection toasts alternate starting with Connected, and at most one counter is nonzero |
| Dashboard.ResetKeepsInv | src/pages/Monitor.tsx:95-121 | a reset keeps the connection invariant |
| Dashboard.PollsKeepInv | src/pages/Monitor.tsx:86-90 | the invariant holds after any sequence of polls |
| Dashboard.TwoSuccessesConnect | src/pages/Monitor.tsx:32-46 | two successes in a row always leave the page connected |
| Dashboard.ThreeFailuresDisconnect | src/pages/Monitor.tsx:65-82 | a connected page rides out two failures and disconnects on the third |
| Dashboard.StaleNeverDisconnects | src/pages/Monitor.tsx:23-93 | with isConnected read as captured on mount, a connected page never disconnects |
| Dashboard.StaleOutageStaysConnected | src/pages/Monitor.tsx:23-93 | as the page runs, two successes then three failures leave it connected and showing RUNNING |
| Dashboard.OutageDisconnects | src/pages/Monitor.tsx:25-84 | reading the current isConnected, the same outage disconnects and shows DISCONNECTED |
| Dashboard.MonitorPage.constructor | src/pages/Monitor.tsx:9-21 | the state on mount |
| Dashboard.MonitorPage.PollStatus | src/pages/Monitor.tsx:25-84 | one poll on the fields leaves the state Poll gives |
| Dashboard.MonitorPage.RecordSuccess | src/pages/Monitor.tsx:32-46 | the try branch's counters and connection check |
| Dashboard.MonitorPage.ShowPhase | src/pages/Monitor.tsx:50-63 | the phase field handling |
| Dashboard.MonitorPage.RecordFailure | src/pages/Monitor.tsx:64-83 | the catch branch |
| Dashboard.MonitorPage.LoseConnection | src/pages/Monitor.tsx:69-82 | the disconnect with its toast flags and display |
| Dashboard.MonitorPage.HandleReset | src/pages/Monitor.tsx:95-121 | handleReset's effect on the state, ok or not |
| EndToEnd.PollShowsBackend | proto.py:520-528 | a poll of a live backend shows its status text and phase, and the phase label parses back to the phase |
| EndToEnd.PollWithoutMonitor | proto.py:529-533 | without a monitor the page shows DISCONNECTED, muted, phase 0, not terminated |
| EndToEnd.DisconnectedShown | src/pages/Monitor.tsx:128-133 | "DISCONNECTED" is muted and does not terminate the session |
| EndToEnd.PassWord | src/pages/Monitor.tsx:124 | of the protocol's statuses only VERIFIED (PASS) contains PASS |
| EndToEnd.VerifiedWord | src/pages/Monitor.tsx:129 | only VERIFIED (PASS) contains VERIFIED |
| EndToEnd.FailWord | src/pages/Monitor.tsx:125 | exactly the two fatal failures contain FAIL |
| EndToEnd.FatalWord | src/pages/Monitor.tsx:130 | exactly the two fatal failures contain FATAL |
| EndToEnd.QuitWord | src/pages/Monitor.tsx:126 | only USER QUIT contains QUIT |
| EndToEnd.StatusClassification | src/pages/Monitor.tsx:123-140 | every status but INITIALIZING and RUNNING terminates; PASS is success, both failures destructive, the rest warning; the icon follows |
| EndToEnd.ResetOfferedAfterOutcome | src/pages/Monitor.tsx:193-197 | after polling an ended session a connected page offers the reset, and while the session runs it does not |

## Left out

- YOLO inference, MediaPipe landmarking and all cv2 capture and drawing, from proto.py:130-160, 229-235, 286-295 and 405-464. These are foreign libraries, so each frame is an abstract detection record or a failed read.
- The float arithmetic of `_calculate_jaw_drop` and `_convert_bbox_to_xyxy`, and the duration estimate. Confidences and the jaw distance are only compared, so they are `real`s; box coordinates are whole pixels.
- The per-frame text, prompts and warning messages. They are only drawn. The warning flag of phase 4 is kept because it decides a branch.
- Flask, the MJPEG stream, the lock, the threading Event and the browser opener. The JSON file write is one more report, with no timestamp or file name.
- Concurrency. `/reset` becomes an input that sets should_reset between two checks of the inner loop's condition. The wait of 0.5 s, the 0.03 s sleep and the wait-for-reset loop are left out; that loop is unreachable.
- Inputs are finite sequences. Where the source would loop forever on a camera-less mock backend, the model stops when its input ends. `Protocol.Run` then returns without saving, as the source never reaches the save. A session whose input ends is treated as an inner loop that has ended, so a first session whose input ends before any frame counts as a crash, like a reset there.
- `setInterval`, `fetch`, JSON decoding and `toast` rendering. A poll's outcome becomes an input, and the toasts are a list of raised toasts.
- React's batching of state updates. The page's state is set in order, as the handler is written.
- Dashboard.MonitorPage.HandleReset: runs atomically, from `setIsResetting(true)` to `setIsResetting(false)`. In the page, polls can interleave with its `await fetch`. So no page state the model reaches has `isResetting` true, and the `!isResetting` condition of `Dashboard.ResetEnabled` plays no part in the proofs.
- `data.result_status || "RUNNING"` is modelled for missing and empty strings only. Other falsy or non-string JSON values are left out.
- Non-integer JavaScript numbers in the phase field are left out, and so are digit runs beyond parseInt's precision.
- Dashboard.MonitorPage.PollStatus: reads the current isConnected, which is the corrected behaviour. The callback as written sees the value captured on mount; `Dashboard.StalePoll` models that reading (see Findings).
- The History, Settings and Dashboard pages and the navigation component. They are static markup and sample data.

## Findings

| source | as written | input that shows it | evidently intended | confidence | as-written member | corrected member |
|---|---|---|---|---|---|---|
| src/pages/Monitor.tsx:23-93 | pollStatus is created once, by an effect whose dependencies are `[backendUrl, toast]`, so the `isConnected` it reads is always the initial `false`; the disconnect branch at line 69 can never run | two successful polls and then three failed ones: the page stays "Connected" and keeps showing the last status, RUNNING | after three failures in a row the page disconnects, shows DISCONNECTED and raises the Connection Lost toast | high (not executed) | Dashboard.StaleOutageStaysConnected | Dashboard.OutageDisconnects |
