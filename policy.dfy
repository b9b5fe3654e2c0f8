/**
 * Violation policy: how the speed threshold and the blacklist are read from
 * the configuration store (with their fallbacks), and how a plate and a speed
 * are classified, blacklist first.
 */
module Policy {

  /** The classification a detection receives; the source carries it as a string. */
  datatype Status = Clear | OverSpeed | Blacklisted

  /** The string the source stores and shows for each status. */
  function Label(s: Status): (r: string)
    ensures r == [] <==> s == Clear
  {
    match s
    case Clear => ""
    case OverSpeed => "OVER SPEED"
    case Blacklisted => "BLACKLISTED"
  }

  /** The membership test `status in ["BLACKLISTED", "OVER SPEED"]` guarding the notification. */
  predicate IsAlert(status: string) {
    status == "BLACKLISTED" || status == "OVER SPEED"
  }

  /** Threshold used whenever the settings row cannot be read. */
  const DefaultThreshold: real := 50.0

  /**
   * What the configuration store answered to the threshold query: the query
   * raised (including a missing connection), returned no row, or a value.
   */
  datatype ThresholdReply = QueryFailed | NoRow | Row(value: real)

  /**
   * The store's view of the blacklist at the moment of the lookup: either
   * the lookup cannot be made (no connection, or the query raised) or the
   * set of blacklisted plates.
   */
  datatype Blacklist = Unavailable | Available(plates: set<string>)

  /** `get_threshold_speed`: the stored value, or 50.0 on a missing row or any failure. */
  function ThresholdSpeed(reply: ThresholdReply): (r: real)
    ensures reply.Row? ==> r == reply.value
    ensures !reply.Row? ==> r == DefaultThreshold
  {
    match reply
    case Row(v) => v
    case _ => DefaultThreshold
  }

  /** `is_blacklisted`: false for an empty plate and whenever the store cannot answer. */
  function IsBlacklisted(plate: string, blacklist: Blacklist): (r: bool)
    ensures plate == [] ==> !r
    ensures blacklist.Unavailable? ==> !r
    ensures plate != [] && blacklist.Available? ==> (r <==> plate in blacklist.plates)
  {
    plate != [] && blacklist.Available? && plate in blacklist.plates
  }

  /**
   * The status decision, first match wins: a non-empty blacklisted plate,
   * then a speed strictly above the threshold, otherwise no status.
   */
  function Decide(plate: string, speed: real, threshold: real, blacklist: Blacklist): (r: Status)
  {
    if plate != [] && IsBlacklisted(plate, blacklist) then Blacklisted
    else if speed > threshold then OverSpeed
    else Clear
  }

  // ---------------------------------------------------------------------
  // Lemmas
  // ---------------------------------------------------------------------

  /** The three outcomes of the decision, each with its exact condition. */
  lemma DecideCases(plate: string, speed: real, threshold: real, blacklist: Blacklist)
    ensures Decide(plate, speed, threshold, blacklist) == Blacklisted
            <==> plate != [] && blacklist.Available? && plate in blacklist.plates
    ensures Decide(plate, speed, threshold, blacklist) == OverSpeed
            <==> !IsBlacklisted(plate, blacklist) && speed > threshold
    ensures Decide(plate, speed, threshold, blacklist) == Clear
            <==> !IsBlacklisted(plate, blacklist) && speed <= threshold
  {
  }

  /** A blacklisted plate is flagged whatever its speed, even below the threshold. */
  lemma BlacklistPrecedence(plate: string, speed: real, threshold: real, plates: set<string>)
    requires plate != [] && plate in plates
    ensures Decide(plate, speed, threshold, Available(plates)) == Blacklisted
  {
  }

  /** An empty plate is never blacklisted, so only the speed can flag it. */
  lemma EmptyPlateOnlySpeed(speed: real, threshold: real, blacklist: Blacklist)
    ensures Decide([], speed, threshold, blacklist) == (if speed > threshold then OverSpeed else Clear)
  {
  }

  /** Raising the threshold never turns a clear vehicle into an over-speed one. */
  lemma RaisingThresholdNeverFlags(plate: string, speed: real, low: real, high: real, blacklist: Blacklist)
    requires low <= high
    requires Decide(plate, speed, low, blacklist) == Clear
    ensures Decide(plate, speed, high, blacklist) == Clear
  {
  }

  /** Exactly the two violation statuses have an alerting label. */
  lemma AlertIffViolation(s: Status)
    ensures IsAlert(Label(s)) <==> s != Clear
  {
  }
}
