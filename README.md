# Speed estimation and violation logging: a Dafny model

This project models the per-track decision logic of the vehicle monitoring
system's `SpeedEstimator` (`main.py`). For every detection of a video frame,
the estimator does the following:

- it reads a plate from the text fragments the OCR engine returned;
- it makes that plate canonical;
- it updates the track's last timestamp and box;
- it locks a speed for the track once, after a 50 ms debounce;
- it classifies the vehicle, blacklist first and then over-speed;
- it emits a live update;
- it passes the track through an at-most-once gate that saves one record and,
  for a violation, sends one notification.

The modules follow the program's structure.

- `Plate` (`plate.dfy`) holds `perform_ocr`'s join of the recognised
  fragments and the canonicalisation `strip()` followed by `replace(" ", "")`.
  Python's notion of whitespace is written out character by character.
- `Policy` (`policy.dfy`) holds the fallbacks of `get_threshold_speed`
  (50.0 on a missing row or any failure) and of `is_blacklisted` (false for
  an empty plate or when the store cannot answer). It also holds the status
  decision and its three labels.
- `Tracking` (`tracking.dfy`) describes, as values, what one detection does
  to the three dictionaries `trk_pt`, `trk_pp` and `spd` and to the set
  `logged_ids` (`Observe`), and what a whole frame does (`RunFrame`). The requested side
  effects are kept in a `Log`: saved records, notifications and live
  updates. The `Ledger` invariant ties that log to `logged_ids`: a finalized
  track has exactly one saved record, any other track has none, no track has
  more notifications than records, and every notification is about a
  violation.
- `Estimator` (`estimator.dfy`) is the `SpeedEstimator` class itself. Its
  fields are the dictionaries and set the source mutates, plus a ghost log of
  requested effects. `EstimateSpeed` is the source's loop. It is proved to
  leave the object exactly where `RunFrame` says, to return exactly
  `RunFrame`'s rows, and to keep `Valid()` (well-formed bookkeeping plus the
  ledger). Because of that, every at-most-once property holds across any
  sequence of frames.

The model turns the system's collaborators into inputs:

- the tracker's detections (box, track id, resolved class name);
- the OCR fragments;
- a per-detection clock reading in milliseconds;
- the store's answer to the threshold query;
- the blacklist;
- a clock value for the saved record;
- whether a live event sink is attached.

The speed geometry (centre displacement over elapsed time, scaled to km/h and
rounded) is an uninterpreted function of the previous box, the current box and
the elapsed milliseconds. The estimator holds it as a constant.

On a first sighting the source stores the timestamp and then reads the clock
again, so the elapsed time is essentially zero and no speed is locked. The
model takes that elapsed time as 0.

The live update is emitted only when a sink is attached and the plate is
non-empty (`main.py:166`).

## Model

| member | source | states |
|---|---|---|
| `Plate.TrimStartSpec` | main.py:124 | `lstrip()` returns a suffix of its input, everything it dropped is whitespace, and the result does not start with whitespace |
| `Plate.TrimEndSpec` | main.py:124 | `rstrip()` returns a prefix of its input, everything it dropped is whitespace, and the result does not end with whitespace |
| `Plate.StripTrimmed` | main.py:124 | `strip()` leaves no whitespace at either end, and leaves nothing exactly when the input is all whitespace |
| `Plate.StripSlice` | main.py:124 | `strip()` keeps one contiguous slice of its input, with only whitespace before and after it |
| `Plate.RemoveSpacesSpec` | main.py:124 | `replace(" ", "")` leaves no space and never lengthens the text |
| `Plate.RemoveSpacesAppend` | main.py:124 | deleting spaces distributes over concatenation |
| `Plate.RemoveSpacesKeepsEnds` | main.py:124 | deleting spaces from text with no space at either end keeps its first and last characters |
| `Plate.CanonicalTrimmed` | main.py:124 | the canonical plate has no whitespace at either end |
| `Plate.CanonicalIdempotent` | main.py:124 | canonicalising twice equals canonicalising once |
| `Plate.CanonicalFixesCanonical` | main.py:124 | text without spaces and without whitespace at either end is already canonical |
| `Plate.CanonicalOfSpacesOnly` | main.py:124 | when the only whitespace is the plain space, canonicalising is just deleting the spaces |
| `Plate.ReadPlateSpaceFree` | main.py:124 | the plate a detection contributes never holds a space |
| `Plate.RemoveSpacesOfSpaceFree` | main.py:60 | the second `replace(" ", "")` applied when saving the record leaves the already canonical plate unchanged |
| `Plate.RemoveSpacesOfBlank` | main.py:124 | deleting spaces from an all-space string leaves the empty string |
| `Plate.JoinLength` | main.py:47 | `' '.join` produces the fragments' total length plus one separator between each pair |
| `Plate.JoinSpacesOnly` | main.py:47 | joining fragments whose only whitespace is the space adds no other whitespace |
| `Plate.RemoveSpacesOfJoin` | main.py:47 | deleting the spaces of the joined text gives the space-free fragments concatenated in reported order |
| `Plate.PerformOcrSpec` | main.py:43-48 | `perform_ocr` returns the empty string exactly when nothing was recognised or the only fragment is empty; otherwise its length is the fragments' total plus the separators |
| `Plate.ReadPlateIsSquash` | main.py:124 | for fragments whose only whitespace is the space, the plate is the fragments with their spaces deleted, concatenated in reported order; no fragments give the empty plate |
| `Policy.Label` | main.py:150-161 | the status string is empty exactly for the clear outcome |
| `Policy.ThresholdSpeed` | main.py:102-110 | the stored threshold when a row is returned, 50.0 on a missing row or a failed query |
| `Policy.IsBlacklisted` | main.py:65-76 | false for an empty plate and whenever the store cannot answer; otherwise membership in the blacklist |
| `Policy.DecideCases` | main.py:153-161 | "BLACKLISTED" exactly for a non-empty plate in an available blacklist; "OVER SPEED" exactly when not blacklisted and the speed is strictly above the threshold; clear otherwise |
| `Policy.BlacklistPrecedence` | main.py:153-157 | a blacklisted plate is flagged as blacklisted whatever its speed |
| `Policy.EmptyPlateOnlySpeed` | main.py:153-161 | with no plate only the speed can flag a vehicle |
| `Policy.RaisingThresholdNeverFlags` | main.py:158 | raising the threshold never turns a clear vehicle into an over-speed one |
| `Policy.AlertIffViolation` | main.py:184 | the notification guard holds exactly for the two violation statuses |
| `Tracking.Observe` | main.py:122-194 | one loop pass keeps the bookkeeping well formed: timestamps and boxes are recorded together, only seen tracks lock, only locked tracks finalize |
| `Tracking.ObserveSpec` | main.py:122-194 | one loop pass overwrites the track's timestamp and box. It leaves every existing lock unchanged and adds a lock only for an unlocked track more than 50 ms after its previous sighting, computed from the previous box. It reports the canonical plate, the lock (or 0) and the decided status. It saves a record exactly when the track is not finalized, has a plate and has a lock. It notifies only in that case and only for a violation. It emits exactly when a sink is attached and the plate is non-empty |
| `Tracking.RunFrame` | main.py:121-194 | a frame keeps the bookkeeping well formed and yields one row per detection |
| `Tracking.InitialLedger` | main.py:17-21 | a new estimator is well formed and satisfies the ledger |
| `Tracking.ObserveCounts` | main.py:174-186 | one pass saves one record exactly for a track it finalizes, notifies no more often than it saves, notifies only violations, and never un-finalizes a track |
| `Tracking.ObserveKeepsLedger` | main.py:174-186 | one pass preserves the ledger |
| `Tracking.RunFrameKeepsLedger` | main.py:121-186 | a whole frame preserves the ledger |
| `Tracking.AtMostOnce` | main.py:174-186 | under the ledger a track has at most one saved record and at most one notification, and none before it is finalized |
| `Tracking.FrameAdvance` | main.py:121 | running the frame from detection i is one pass on detection i followed by the frame from i + 1 |
| `Tracking.RunFrameKeepsLocks` | main.py:134-143 | within a frame no locked speed is changed or dropped, and the set of finalized tracks only grows |
| `Tracking.ReportFollowsDetection` | main.py:188-194 | row i carries detection i's track id, class name and canonical plate |
| `Tracking.LockedSpeedReported` | main.py:134-143 | a speed locked before the frame is the speed in every row of that track, whatever the later motion |
| `Tracking.ReportedSpeedIsLockOrZero` | main.py:143 | every row's speed is 0 or the speed its track holds locked at the end of the frame |
| `Tracking.ObserveUnread` | main.py:174 | a detection with no plate saves nothing and finalizes nothing |
| `Tracking.UnreadPlateNeverSaved` | main.py:174-186 | a track whose plate is never read in a frame gets no record and is not finalized by it |
| `Tracking.UnlockedNeverSaved` | main.py:174-186 | a track with no locked speed at the end of a frame gets no record in it |
| `Estimator.SpeedEstimator.constructor` | main.py:14-28 | a new estimator tracks nothing, has locked and finalized nothing, has requested no effects, and is valid |
| `Estimator.SpeedEstimator.TrackMotion` | main.py:127-145 | a first sighting records the timestamp and box, a lock is added exactly as `Tracking.Lock` says, and the timestamp and box are then overwritten with the current ones; the returned speed is the lock or 0 |
| `Estimator.SpeedEstimator.Track` | main.py:122-194 | one loop pass on the object's fields leaves them, the returned row and the effect log exactly as `Tracking.Observe` describes, and keeps the estimator valid (the at-most-once ledger) when it was valid before |
| `Estimator.SpeedEstimator.EstimateSpeed` | main.py:112-196 | reads the threshold once. It leaves the dictionaries, returns the rows and appends the effects exactly as `Tracking.RunFrame` describes. It keeps the estimator valid (the at-most-once ledger across frames), never changes or drops a locked speed, and never un-finalizes a track |

## Left out

- Object detection and tracking (`extract_tracks`, the boxes, ids and class indices, the class-name table) are not modelled. Each detection arrives with its box, track id and resolved class name.
- The OCR engine call is not modelled; its recognised fragments are an input. So is the check that the crop is an array, because a crop always is one.
- Floating-point geometry is not modelled: the norm of the centre displacement, the division by elapsed seconds, the factor 3.6 and `round(..., 2)` are one uninterpreted function of the previous box, the current box and the elapsed milliseconds.
- Clock readings are inputs. Each detection carries its own millisecond timestamp. The gap between the two clock reads on a first sighting is taken as 0. `datetime.now()` and the record's date and time strings become a single clock value stored in the record.
- The blacklist is one answer per frame. The source queries the store once per detection with a plate, so a blacklist changed mid-frame is not captured.
- Membership is exact string equality. The store's collation (case and trailing-space handling) is not modelled.
- Save, notification and live-update calls are recorded as requested effects. The failures the source catches are not modelled; each still counts as the one attempt, and the track is still finalized: a missing connection in `save_to_database` (`main.py:51-53`), a `mysql.connector.Error` raised by the insert (`main.py:62`), and any exception in `send_email` (`main.py:99`). Live-update failures are not caught by the source (next line).
- The notification's message text, the SMTP settings, the insert statement and the live event's namespace are not modelled.
- The collaborator calls inside the loop are assumed to return. These are the OCR call (`main.py:45`, reached from `main.py:124`), the class-name lookup (`main.py:125`), `socketio.emit` (`main.py:167`), and `save_to_database` (`main.py:175`) for errors other than `mysql.connector.Error`, which is all its handler catches (`main.py:62`). The source does not catch an exception from any of them, so one aborts the frame and returns no rows; updates made before the failing call are kept. A failing OCR call or class-name lookup comes before the bookkeeping (`main.py:127-145`), so that pass changes nothing. A failing `emit` comes after the timestamp, box and lock updates and before the finalize gate. A non-MySQL error escaping `save_to_database` comes after the gate opened and the save was attempted, but before `logged_ids.add` (`main.py:186`): that pass leaves an attempted save for a track that is not finalized, so a later pass can save it again, and the ledger does not hold for it. The model always completes every pass and returns one row per detection; its ledger, at-most-once and speed-lock properties are about runs in which every pass completes.
- Drawing on the frame (`Annotator`, colours, label text) and console printing are not modelled.
- The unused fields `trkd_ids` and `speed_threshold` and the hard-coded credentials are not modelled.
- Speeds are reals and track ids unbounded integers. The source's integer default 0 for an unlocked track is the real 0.
- `app.py` is not part of this model.
- Tracking.ReportedSpeedIsLockOrZero: states only that a row's speed is 0 or its track's end-of-frame lock. The exact per-detection value (the lock if present after that pass, otherwise 0) is stated by `Tracking.ObserveSpec`.
