/**
 * The speed estimator object: the per-track dictionaries and set it keeps between
 * frames and the `estimate_speed` loop that updates them detection by
 * detection. The loop is proved to do exactly what `Tracking.RunFrame`
 * describes, so every property proved there holds of the object.
 */
module Estimator {
  import opened Plate
  import opened Policy
  import opened Tracking

  class SpeedEstimator {
    /** `trk_pt`: the timestamp at which each track was last seen. */
    var trkPt: map<TrackId, nat>
    /** `trk_pp`: the box each track had when last seen. */
    var trkPp: map<TrackId, Box>
    /** `spd`: the speed locked for each track. */
    var spd: map<TrackId, real>
    /** `logged_ids`: tracks whose record has been saved. */
    var loggedIds: set<TrackId>
    /** Every save, notification and live update requested so far, in order. */
    ghost var effects: Log

    /** The speed geometry used for every lock. */
    const estimate: Estimate
    /** Whether a live event sink is attached (`socketio` is set). */
    const live: bool

    /** The three dictionaries and the set `logged_ids` as a value. */
    function State(): Tracks
      reads this
    {
      Tracks(trkPt, trkPp, spd, loggedIds)
    }

    /** The bookkeeping is consistent and every finalized track was saved exactly once. */
    ghost predicate Valid()
      reads this
    {
      WellFormed(State()) && Ledger(State(), effects)
    }

    /** A new estimator: nothing tracked, nothing locked, nothing saved. */
    constructor (estimate: Estimate, live: bool)
      ensures Valid()
      ensures State() == Initial && effects == NoEffects
      ensures this.estimate == estimate && this.live == live
    {
      trkPt := map[];
      trkPp := map[];
      spd := map[];
      loggedIds := {};
      effects := NoEffects;
      this.estimate := estimate;
      this.live := live;
      new;
      InitialLedger();
    }

    /**
     * The motion part of the loop body for detection `d`: a first sighting
     * records the timestamp and box, a track without a lock gets one once
     * more than 50 ms have passed, and the timestamp and box are then
     * overwritten; the speed is the lock, or 0 while there is none.
     */
    method TrackMotion(d: Detection) returns (speed: real)
      requires WellFormed(State())
      modifies this
      ensures trkPt == old(trkPt)[d.trackId := d.time]
      ensures trkPp == old(trkPp)[d.trackId := d.box]
      ensures spd == Lock(old(State()), d, estimate)
      ensures speed == if d.trackId in spd then spd[d.trackId] else 0.0
      ensures loggedIds == old(loggedIds) && effects == old(effects)
    {
      var id := d.trackId;
      if id !in trkPt {
        trkPt := trkPt[id := d.time];
        trkPp := trkPp[id := d.box];
      }
      var timeDiff := d.time - trkPt[id];
      if id !in spd && timeDiff > DebounceMs {
        spd := spd[id := estimate(trkPp[id], d.box, timeDiff)];
      }
      speed := if id in spd then spd[id] else 0.0;
      trkPt := trkPt[id := d.time];
      trkPp := trkPp[id := d.box];
    }

    /**
     * One pass of the `estimate_speed` loop body for detection `d`: exactly
     * what `Tracking.Observe` describes, on the object's own dictionaries.
     */
    method Track(d: Detection, clock: nat, threshold: real, blacklist: Blacklist) returns (report: Report)
      requires WellFormed(State())
      modifies this
      ensures old(Valid()) ==> Valid()
      ensures var o := Observe(old(State()), d, Context(estimate, threshold, blacklist, live, clock));
              && State() == o.tracks
              && report == o.report
              && effects == Then(old(effects), o.log)
    {
      ghost var o := Observe(State(), d, Context(estimate, threshold, blacklist, live, clock));
      ghost var before, logBefore := State(), effects;
      var id := d.trackId;
      var plate := ReadPlate(d.fragments);
      var speed := TrackMotion(d);

      var status := "";
      if plate != [] && IsBlacklisted(plate, blacklist) {
        status := "BLACKLISTED";
      } else if speed > threshold {
        status := "OVER SPEED";
      }
      assert status == o.report.status;

      var updates := [];
      if live && plate != [] {
        updates := [Update(id, plate, speed, status)];
      }
      var saves := [];
      var emails := [];
      ReadPlateSpaceFree(d.fragments);
      RemoveSpacesOfSpaceFree(plate);
      if id !in loggedIds && plate != [] && id in spd {
        saves := [Record(clock, id, d.className, speed, RemoveSpaces(plate), status)];
        if status == "BLACKLISTED" || status == "OVER SPEED" {
          emails := [Notice(id, plate, speed, status)];
        }
        loggedIds := loggedIds + {id};
      }
      effects := Then(effects, Log(saves, emails, updates));
      report := Report(id, d.className, speed, plate, status);
      if Ledger(before, logBefore) {
        ObserveKeepsLedger(before, logBefore, d, Context(estimate, threshold, blacklist, live, clock));
      }
    }

    /**
     * `estimate_speed` for one frame: the threshold is read once, then each
     * detection in tracker order updates the track's timestamp and box,
     * locks a speed once more than 50 ms have passed, classifies the
     * vehicle, emits a live update when a plate was read and finalizes the
     * track the first time it has both a plate and a locked speed.
     */
    method EstimateSpeed(detections: seq<Detection>, clock: nat, thresholdReply: ThresholdReply, blacklist: Blacklist)
      returns (results: seq<Report>)
      requires Valid()
      modifies this
      ensures Valid()
      ensures var r := RunFrame(old(State()), detections,
                                Context(estimate, ThresholdSpeed(thresholdReply), blacklist, live, clock));
              && State() == r.tracks
              && results == r.reports
              && effects == Then(old(effects), r.log)
      ensures forall k :: k in old(spd) ==> k in spd && spd[k] == old(spd)[k]
      ensures old(loggedIds) <= loggedIds
    {
      var threshold := ThresholdSpeed(thresholdReply);
      ghost var ctx := Context(estimate, threshold, blacklist, live, clock);
      ghost var final := RunFrame(State(), detections, ctx);
      ghost var start := effects;
      RunFrameKeepsLocks(State(), detections, ctx);
      results := [];
      var i := 0;
      while i < |detections|
        invariant 0 <= i <= |detections|
        invariant Valid()
        invariant RunFrame(State(), detections[i..], ctx).tracks == final.tracks
        invariant results + RunFrame(State(), detections[i..], ctx).reports == final.reports
        invariant Then(effects, RunFrame(State(), detections[i..], ctx).log) == Then(start, final.log)
        decreases |detections| - i
      {
        ghost var before := State();
        FrameAdvance(before, detections, i, ctx, results, effects);
        var report := Track(detections[i], clock, threshold, blacklist);
        results := results + [report];
        i := i + 1;
      }
      assert detections[i..] == [];
      assert Then(effects, NoEffects) == effects;
    }
  }
}
