/**
 * The per-track state machine of the speed estimator, as values: what one
 * detection does to the track bookkeeping (last timestamp, last box, locked
 * speed, finalized tracks), which result row it yields and which side
 * effects (persisted record, notification, live update) it requests; and the
 * same for a whole frame, detection after detection in tracker order.
 */
module Tracking {
  import opened Plate
  import opened Policy

  type TrackId = int

  /** A bounding box `(x1, y1, x2, y2)` as the tracker reports it. */
  datatype Box = Box(x1: real, y1: real, x2: real, y2: real)

  /**
   * Candidate speed from the previous box, the current box and the elapsed
   * milliseconds (Euclidean centre displacement over time, scaled to km/h
   * and rounded to two decimals in the source).
   */
  type Estimate = (Box, Box, int) -> real

  /** A speed is only computed once more than this many milliseconds have passed. */
  const DebounceMs: int := 50

  /**
   * One detection as the surrounding collaborators deliver it: the box,
   * the tracker's id, the resolved class name, the text fragments the
   * recogniser read from the crop, and the clock reading in milliseconds.
   */
  datatype Detection = Detection(box: Box, trackId: TrackId, className: string, fragments: seq<string>, time: nat)

  /**
   * Per-track bookkeeping: `trk_pt` (last timestamp), `trk_pp` (last box),
   * `spd` (locked speeds) and `logged_ids` (finalized tracks).
   */
  datatype Tracks = Tracks(
    lastSeen: map<TrackId, nat>,
    lastBox: map<TrackId, Box>,
    locked: map<TrackId, real>,
    logged: set<TrackId>)

  /** Timestamp and box are recorded together; only seen tracks lock; only locked tracks finalize. */
  ghost predicate WellFormed(t: Tracks) {
    && (forall k :: k in t.lastSeen <==> k in t.lastBox)
    && (forall k :: k in t.locked ==> k in t.lastSeen)
    && (forall k :: k in t.logged ==> k in t.locked)
  }

  /** The bookkeeping of a freshly constructed estimator. */
  const Initial: Tracks := Tracks(map[], map[], map[], {})

  /** Inputs fixed for a whole frame. */
  datatype Context = Context(
    estimate: Estimate,   // the speed geometry
    threshold: real,      // read once per frame
    blacklist: Blacklist, // the blacklist as the store answers during the frame
    live: bool,           // a live event sink is attached
    clock: nat)           // the frame's wall-clock reading, used for the record's date and time

  /** One entry of the `results` list. */
  datatype Report = Report(trackId: TrackId, className: string, speed: real, plate: string, status: string)

  /** One `save_to_database` call. */
  datatype Record = Record(clock: nat, trackId: TrackId, className: string, speed: real, plate: string, status: string)

  /** One `send_email` call, tagged with the track it is about. */
  datatype Notice = Notice(trackId: TrackId, plate: string, speed: real, status: string)

  /** One `detection_update` emission. */
  datatype Update = Update(trackId: TrackId, plate: string, speed: real, status: string)

  /** The side effects requested, in order. */
  datatype Log = Log(saves: seq<Record>, emails: seq<Notice>, updates: seq<Update>)

  /** No effect requested. */
  const NoEffects: Log := Log([], [], [])

  /** The effects of `a` followed by those of `b`. */
  function Then(a: Log, b: Log): Log {
    Log(a.saves + b.saves, a.emails + b.emails, a.updates + b.updates)
  }

  /** What one detection produces. */
  datatype Step = Step(tracks: Tracks, report: Report, log: Log)

  /** What one frame produces. */
  datatype FrameRun = FrameRun(tracks: Tracks, reports: seq<Report>, log: Log)

  /**
   * Milliseconds since the track was last seen; a first sighting counts as
   * no time at all, since the timestamp is stored and then read back.
   */
  function Elapsed(t: Tracks, d: Detection): int {
    if d.trackId in t.lastSeen then d.time - t.lastSeen[d.trackId] else 0
  }

  /** Whether the finalize gate opens for this detection. */
  predicate Finalizes(t: Tracks, id: TrackId, plate: string, locked: map<TrackId, real>) {
    id !in t.logged && plate != [] && id in locked
  }

  /**
   * The speed locks after seeing `d`: a track without a lock gets one, from
   * its previous box, once more than the debounce interval has passed.
   */
  function Lock(t: Tracks, d: Detection, estimate: Estimate): map<TrackId, real>
    requires WellFormed(t)
  {
    var elapsed := Elapsed(t, d);
    if d.trackId !in t.locked && elapsed > DebounceMs
    then t.locked[d.trackId := estimate(t.lastBox[d.trackId], d.box, elapsed)]
    else t.locked
  }

  /** The body of the `estimate_speed` loop for one detection. */
  function Observe(t: Tracks, d: Detection, ctx: Context): (o: Step)
    requires WellFormed(t)
    ensures WellFormed(o.tracks)
  {
    var id := d.trackId;
    var plate := ReadPlate(d.fragments);
    var locked := Lock(t, d, ctx.estimate);
    var speed := if id in locked then locked[id] else 0.0;
    var status := Label(Decide(plate, speed, ctx.threshold, ctx.blacklist));
    var updates := if ctx.live && plate != [] then [Update(id, plate, speed, status)] else [];
    var fin := Finalizes(t, id, plate, locked);
    // the record stores the plate with its spaces removed once more
    var saves := if fin then [Record(ctx.clock, id, d.className, speed, RemoveSpaces(plate), status)] else [];
    var emails := if fin && IsAlert(status) then [Notice(id, plate, speed, status)] else [];
    var logged := if fin then t.logged + {id} else t.logged;
    Step(Tracks(t.lastSeen[id := d.time], t.lastBox[id := d.box], locked, logged),
         Report(id, d.className, speed, plate, status),
         Log(saves, emails, updates))
  }

  /**
   * What one detection does: its track's timestamp and box are overwritten,
   * a speed is locked once (only past the debounce, from the previous box),
   * the row carries the canonical plate, the locked speed or 0 and the
   * decided status, and the finalize gate opens at most once per track.
   */
  lemma ObserveSpec(t: Tracks, d: Detection, ctx: Context)
    requires WellFormed(t)
    ensures var o := Observe(t, d, ctx);
            // the timestamp and box are overwritten on every observation
            && (o.tracks.lastSeen == t.lastSeen[d.trackId := d.time])
            && (o.tracks.lastBox == t.lastBox[d.trackId := d.box])
            // the speed lock: nothing locked changes, a lock is added only past the debounce
            && (forall k :: k in t.locked ==> k in o.tracks.locked && o.tracks.locked[k] == t.locked[k])
            && (forall k :: k != d.trackId ==> (k in o.tracks.locked <==> k in t.locked))
            && (d.trackId in o.tracks.locked <==> d.trackId in t.locked || Elapsed(t, d) > DebounceMs)
            && (d.trackId in o.tracks.locked && d.trackId !in t.locked ==>
                  d.trackId in t.lastBox
                  && o.tracks.locked[d.trackId] == ctx.estimate(t.lastBox[d.trackId], d.box, Elapsed(t, d)))
            && (d.trackId !in t.lastSeen ==> o.tracks.locked == t.locked)
            // the reported row
            && (o.report.trackId == d.trackId && o.report.className == d.className)
            && (o.report.plate == ReadPlate(d.fragments))
            && (o.report.speed == if d.trackId in o.tracks.locked then o.tracks.locked[d.trackId] else 0.0)
            && (o.report.status == Label(Decide(o.report.plate, o.report.speed, ctx.threshold, ctx.blacklist)))
            // the finalize gate
            && (o.tracks.logged
                == if Finalizes(t, d.trackId, o.report.plate, o.tracks.locked) then t.logged + {d.trackId} else t.logged)
            && (o.log.saves
                == if Finalizes(t, d.trackId, o.report.plate, o.tracks.locked)
                   then [Record(ctx.clock, d.trackId, d.className, o.report.speed, o.report.plate, o.report.status)]
                   else [])
            && (o.log.emails
                == if Finalizes(t, d.trackId, o.report.plate, o.tracks.locked) && IsAlert(o.report.status)
                   then [Notice(d.trackId, o.report.plate, o.report.speed, o.report.status)]
                   else [])
            && (o.log.updates
                == if ctx.live && o.report.plate != []
                   then [Update(d.trackId, o.report.plate, o.report.speed, o.report.status)]
                   else [])
  {
    ReadPlateSpaceFree(d.fragments);
    RemoveSpacesOfSpaceFree(ReadPlate(d.fragments));
  }

  /** The whole `estimate_speed` loop: every detection of the frame, in tracker order. */
  function RunFrame(t: Tracks, ds: seq<Detection>, ctx: Context): (r: FrameRun)
    requires WellFormed(t)
    ensures WellFormed(r.tracks)
    ensures |r.reports| == |ds|
    decreases |ds|
  {
    if ds == [] then FrameRun(t, [], NoEffects)
    else
      var o := Observe(t, ds[0], ctx);
      var rest := RunFrame(o.tracks, ds[1..], ctx);
      FrameRun(rest.tracks, [o.report] + rest.reports, Then(o.log, rest.log))
  }

  // ---------------------------------------------------------------------
  // The at-most-once ledger
  // ---------------------------------------------------------------------

  /** How many records were saved for track `id`. */
  function SavesFor(saves: seq<Record>, id: TrackId): nat {
    if saves == [] then 0
    else SavesFor(saves[..|saves| - 1], id) + (if saves[|saves| - 1].trackId == id then 1 else 0)
  }

  /** How many notifications were sent about track `id`. */
  function NoticesFor(emails: seq<Notice>, id: TrackId): nat {
    if emails == [] then 0
    else NoticesFor(emails[..|emails| - 1], id) + (if emails[|emails| - 1].trackId == id then 1 else 0)
  }

  /**
   * The relation between the finalized tracks and the effects requested so
   * far: a finalized track has exactly one saved record and any other has
   * none, no track has more notifications than records, and every
   * notification is about a violation.
   */
  ghost predicate Ledger(t: Tracks, log: Log) {
    && (forall id :: SavesFor(log.saves, id) == if id in t.logged then 1 else 0)
    && (forall id :: NoticesFor(log.emails, id) <= SavesFor(log.saves, id))
    && (forall i :: 0 <= i < |log.emails| ==> IsAlert(log.emails[i].status))
  }

  /** Record counts add up over concatenated logs. */
  lemma {:induction false} SavesForAppend(a: seq<Record>, b: seq<Record>, id: TrackId)
    ensures SavesFor(a + b, id) == SavesFor(a, id) + SavesFor(b, id)
    decreases |b|
  {
    if b == [] {
      assert a + b == a;
    } else {
      assert (a + b)[..|a + b| - 1] == a + b[..|b| - 1];
      SavesForAppend(a, b[..|b| - 1], id);
    }
  }

  /** Notification counts add up over concatenated logs. */
  lemma {:induction false} NoticesForAppend(a: seq<Notice>, b: seq<Notice>, id: TrackId)
    ensures NoticesFor(a + b, id) == NoticesFor(a, id) + NoticesFor(b, id)
    decreases |b|
  {
    if b == [] {
      assert a + b == a;
    } else {
      assert (a + b)[..|a + b| - 1] == a + b[..|b| - 1];
      NoticesForAppend(a, b[..|b| - 1], id);
    }
  }

  /** A fresh estimator has finalized nothing and requested nothing. */
  lemma InitialLedger()
    ensures WellFormed(Initial) && Ledger(Initial, NoEffects)
  {
  }

  /**
   * The effects of one detection, counted per track: one record exactly for
   * the track it finalizes, no more notifications than records, and only
   * violations notified.
   */
  lemma ObserveCounts(t: Tracks, d: Detection, ctx: Context, id: TrackId)
    requires WellFormed(t)
    ensures var o := Observe(t, d, ctx);
            && SavesFor(o.log.saves, id) == (if id in o.tracks.logged && id !in t.logged then 1 else 0)
            && NoticesFor(o.log.emails, id) <= SavesFor(o.log.saves, id)
            && o.tracks.logged >= t.logged
            && forall i :: 0 <= i < |o.log.emails| ==> IsAlert(o.log.emails[i].status)
  {
    var o := Observe(t, d, ctx);
    assert o.log.saves != [] ==> o.log.saves[..0] == [];
    assert o.log.emails != [] ==> o.log.emails[..0] == [];
  }

  /** One detection keeps the ledger. */
  lemma ObserveKeepsLedger(t: Tracks, log: Log, d: Detection, ctx: Context)
    requires WellFormed(t) && Ledger(t, log)
    ensures Ledger(Observe(t, d, ctx).tracks, Then(log, Observe(t, d, ctx).log))
  {
    var o := Observe(t, d, ctx);
    var all := Then(log, o.log);
    forall id
      ensures SavesFor(all.saves, id) == if id in o.tracks.logged then 1 else 0
      ensures NoticesFor(all.emails, id) <= SavesFor(all.saves, id)
    {
      ObserveCounts(t, d, ctx, id);
      SavesForAppend(log.saves, o.log.saves, id);
      NoticesForAppend(log.emails, o.log.emails, id);
    }
    ObserveCounts(t, d, ctx, 0);
    forall i | 0 <= i < |all.emails| ensures IsAlert(all.emails[i].status) {
      if i >= |log.emails| {
        assert all.emails[i] == o.log.emails[i - |log.emails|];
      }
    }
  }

  /** Appending effect logs is associative. */
  lemma ThenAssociative(a: Log, b: Log, c: Log)
    ensures Then(Then(a, b), c) == Then(a, Then(b, c))
  {
    assert (a.saves + b.saves) + c.saves == a.saves + (b.saves + c.saves);
    assert (a.emails + b.emails) + c.emails == a.emails + (b.emails + c.emails);
    assert (a.updates + b.updates) + c.updates == a.updates + (b.updates + c.updates);
  }

  /** A whole frame keeps the ledger. */
  lemma {:induction false} RunFrameKeepsLedger(t: Tracks, log: Log, ds: seq<Detection>, ctx: Context)
    requires WellFormed(t) && Ledger(t, log)
    ensures Ledger(RunFrame(t, ds, ctx).tracks, Then(log, RunFrame(t, ds, ctx).log))
    decreases |ds|
  {
    if ds == [] {
      assert Then(log, NoEffects) == log;
    } else {
      var o := Observe(t, ds[0], ctx);
      var rest := RunFrame(o.tracks, ds[1..], ctx);
      ObserveKeepsLedger(t, log, ds[0], ctx);
      RunFrameKeepsLedger(o.tracks, Then(log, o.log), ds[1..], ctx);
      ThenAssociative(log, o.log, rest.log);
    }
  }

  /**
   * Running the frame from detection `i` is observing detection `i` and then
   * running the frame from `i + 1`: the step the estimator's loop takes.
   */
  lemma FrameAdvance(t: Tracks, ds: seq<Detection>, i: nat, ctx: Context, done: seq<Report>, log: Log)
    requires WellFormed(t) && i < |ds|
    ensures var o := Observe(t, ds[i], ctx);
            var next := RunFrame(o.tracks, ds[i + 1..], ctx);
            var cur := RunFrame(t, ds[i..], ctx);
            && next.tracks == cur.tracks
            && (done + [o.report]) + next.reports == done + cur.reports
            && Then(Then(log, o.log), next.log) == Then(log, cur.log)
  {
    var o := Observe(t, ds[i], ctx);
    var next := RunFrame(o.tracks, ds[i + 1..], ctx);
    assert ds[i..][0] == ds[i] && ds[i..][1..] == ds[i + 1..];
    ThenAssociative(log, o.log, next.log);
  }

  /** Under the ledger each track has at most one saved record and at most one notification. */
  lemma AtMostOnce(t: Tracks, log: Log, id: TrackId)
    requires Ledger(t, log)
    ensures SavesFor(log.saves, id) <= 1
    ensures NoticesFor(log.emails, id) <= 1
    ensures id !in t.logged ==> SavesFor(log.saves, id) == 0 && NoticesFor(log.emails, id) == 0
  {
  }

  // ---------------------------------------------------------------------
  // Frame-level properties
  // ---------------------------------------------------------------------

  /** One report per detection, in tracker order, each carrying the detection's track, class and plate. */
  lemma {:induction false} ReportFollowsDetection(t: Tracks, ds: seq<Detection>, ctx: Context, i: nat)
    requires WellFormed(t)
    requires i < |ds|
    ensures var r := RunFrame(t, ds, ctx).reports[i];
            && r.trackId == ds[i].trackId
            && r.className == ds[i].className
            && r.plate == ReadPlate(ds[i].fragments)
    decreases |ds|
  {
    var o := Observe(t, ds[0], ctx);
    var rest := RunFrame(o.tracks, ds[1..], ctx);
    if i > 0 {
      assert ds[1..][i - 1] == ds[i];
      ReportFollowsDetection(o.tracks, ds[1..], ctx, i - 1);
      assert ([o.report] + rest.reports)[i] == rest.reports[i - 1];
    }
  }

  /** Within a frame a locked speed is never changed or dropped, and a finalized track stays finalized. */
  lemma {:induction false} RunFrameKeepsLocks(t: Tracks, ds: seq<Detection>, ctx: Context)
    requires WellFormed(t)
    ensures var r := RunFrame(t, ds, ctx);
            && (forall k :: k in t.locked ==> k in r.tracks.locked && r.tracks.locked[k] == t.locked[k])
            && t.logged <= r.tracks.logged
    decreases |ds|
  {
    if ds != [] {
      var o := Observe(t, ds[0], ctx);
      ObserveSpec(t, ds[0], ctx);
      RunFrameKeepsLocks(o.tracks, ds[1..], ctx);
    }
  }

  /**
   * A speed locked before the frame is the speed every report of that track
   * carries during the frame, whatever the boxes and times.
   */
  lemma {:induction false} LockedSpeedReported(t: Tracks, ds: seq<Detection>, ctx: Context, i: nat)
    requires WellFormed(t)
    requires i < |ds| && ds[i].trackId in t.locked
    ensures RunFrame(t, ds, ctx).reports[i].speed == t.locked[ds[i].trackId]
    decreases |ds|
  {
    var o := Observe(t, ds[0], ctx);
    var rest := RunFrame(o.tracks, ds[1..], ctx);
    if i > 0 {
      assert ds[1..][i - 1] == ds[i];
      LockedSpeedReported(o.tracks, ds[1..], ctx, i - 1);
      assert ([o.report] + rest.reports)[i] == rest.reports[i - 1];
    }
  }

  /**
   * Every report carries either 0 (its track had no lock yet) or the speed
   * its track has locked at the end of the frame.
   */
  lemma {:induction false} ReportedSpeedIsLockOrZero(t: Tracks, ds: seq<Detection>, ctx: Context, i: nat)
    requires WellFormed(t)
    requires i < |ds|
    ensures var r := RunFrame(t, ds, ctx);
            || r.reports[i].speed == 0.0
            || (ds[i].trackId in r.tracks.locked && r.reports[i].speed == r.tracks.locked[ds[i].trackId])
    decreases |ds|
  {
    var o := Observe(t, ds[0], ctx);
    var rest := RunFrame(o.tracks, ds[1..], ctx);
    if i > 0 {
      assert ds[1..][i - 1] == ds[i];
      ReportedSpeedIsLockOrZero(o.tracks, ds[1..], ctx, i - 1);
      assert ([o.report] + rest.reports)[i] == rest.reports[i - 1];
    } else {
      RunFrameKeepsLocks(o.tracks, ds[1..], ctx);
    }
  }

  /** A detection whose plate is unread saves nothing and finalizes nothing. */
  lemma ObserveUnread(t: Tracks, d: Detection, ctx: Context)
    requires WellFormed(t)
    requires ReadPlate(d.fragments) == []
    ensures Observe(t, d, ctx).log.saves == []
    ensures Observe(t, d, ctx).tracks.logged == t.logged
  {
  }

  /**
   * A track whose plate is never read during the frame gets no saved record
   * in it and does not become finalized.
   */
  lemma {:induction false} UnreadPlateNeverSaved(t: Tracks, ds: seq<Detection>, ctx: Context, id: TrackId)
    requires WellFormed(t)
    requires forall i :: 0 <= i < |ds| && ds[i].trackId == id ==> ReadPlate(ds[i].fragments) == []
    ensures SavesFor(RunFrame(t, ds, ctx).log.saves, id) == 0
    ensures id in RunFrame(t, ds, ctx).tracks.logged <==> id in t.logged
    decreases |ds|
  {
    if ds != [] {
      var o := Observe(t, ds[0], ctx);
      var rest := RunFrame(o.tracks, ds[1..], ctx);
      if ds[0].trackId == id {
        ObserveUnread(t, ds[0], ctx);
      }
      assert SavesFor(o.log.saves, id) == 0 && (id in o.tracks.logged <==> id in t.logged);
      forall i | 0 <= i < |ds[1..]| && ds[1..][i].trackId == id
        ensures ReadPlate(ds[1..][i].fragments) == []
      {
        assert ds[1..][i] == ds[i + 1];
      }
      UnreadPlateNeverSaved(o.tracks, ds[1..], ctx, id);
      SavesForAppend(o.log.saves, rest.log.saves, id);
    }
  }

  /** A track that holds no locked speed by the end of the frame gets no saved record in it. */
  lemma {:induction false} UnlockedNeverSaved(t: Tracks, ds: seq<Detection>, ctx: Context, id: TrackId)
    requires WellFormed(t)
    requires id !in RunFrame(t, ds, ctx).tracks.locked
    ensures SavesFor(RunFrame(t, ds, ctx).log.saves, id) == 0
    decreases |ds|
  {
    if ds != [] {
      var o := Observe(t, ds[0], ctx);
      var rest := RunFrame(o.tracks, ds[1..], ctx);
      RunFrameKeepsLocks(o.tracks, ds[1..], ctx);
      ObserveSpec(t, ds[0], ctx);
      assert o.log.saves != [] ==> o.log.saves[..0] == [];
      assert SavesFor(o.log.saves, id) == 0;
      UnlockedNeverSaved(o.tracks, ds[1..], ctx, id);
      SavesForAppend(o.log.saves, rest.log.saves, id);
    }
  }
}
