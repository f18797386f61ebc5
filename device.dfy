/** The Device document (server/models/Device.js): the efficiency score table, the
    cost and abnormality rules, the location label, the age-based status and the
    pre-save hook that keeps `lastSeen` and `connectionStatus` current.
    Times are milliseconds since the epoch. */
module DeviceModel {
  import opened Common

  datatype Rating = APlus3 | APlus2 | APlus | A | B | C | D | E | F | G

  /** The ratings from best to worst, as the schema enumerates them. */
  const RatingOrder: seq<Rating> := [APlus3, APlus2, APlus, A, B, C, D, E, F, G]

  /** The stored connection status; `Recent` is written by the pre-save hook although
      the schema's enumeration does not list it. */
  datatype ConnectionStatus = Online | Recent | Offline | Disconnected | Error

  /** The `status` virtual. */
  datatype Status = StatusOnline | StatusRecent | StatusOffline | StatusUnknown

  const MsPerMinute := 60000
  const OnlineMinutes := 5
  const RecentMinutes := 60
  const NotSpecified := "Location not specified"

  function ScoreOf(r: Rating): nat
  {
    match r
    case APlus3 => 100 case APlus2 => 90 case APlus => 80 case A => 75 case B => 65
    case C => 55 case D => 45 case E => 35 case F => 25 case G => 15
  }

  /** `calculateEfficiencyScore()`: null without a rating, else its table score. */
  function EfficiencyScore(rating: Option<Rating>): (r: Option<nat>)
    ensures r.None? <==> rating.None?
    ensures r.Some? ==> 15 <= r.value <= 100
    ensures rating == Some(APlus3) ==> r == Some(100)
    ensures rating == Some(G) ==> r == Some(15)
  {
    if rating.None? then None else Some(ScoreOf(rating.value))
  }

  /** A better rating always scores strictly higher. */
  lemma ScoresStrictlyDecrease(i: nat, j: nat)
    requires i < j < |RatingOrder|
    ensures EfficiencyScore(Some(RatingOrder[i])).value > EfficiencyScore(Some(RatingOrder[j])).value
  {
  }

  /** `getEstimatedAnnualCost(ratePerKwh)`: null when either factor is missing or zero. */
  function EstimatedAnnualCost(annualConsumption: Option<real>, ratePerKwh: Option<real>): (r: Option<real>)
    ensures r.Some? <==> TruthyNum(annualConsumption) && TruthyNum(ratePerKwh)
    ensures r.Some? ==> r.value == annualConsumption.value * ratePerKwh.value && r.value != 0.0
  {
    if !TruthyNum(annualConsumption) || !TruthyNum(ratePerKwh) then None
    else Some(annualConsumption.value * ratePerKwh.value)
  }

  /** The consumption above which `isConsumptionAbnormal` fires: the baseline raised
      by `threshold` percent. */
  function AbnormalLimit(baseline: real, threshold: real): real
  {
    baseline * (1.0 + threshold / 100.0)
  }

  /** `isConsumptionAbnormal(current)`. */
  function IsConsumptionAbnormal(baseline: Option<real>, threshold: Option<real>, current: real): (r: bool)
    ensures !TruthyNum(baseline) || !TruthyNum(threshold) ==> !r
    ensures TruthyNum(baseline) && TruthyNum(threshold) ==>
      (r <==> current > AbnormalLimit(baseline.value, threshold.value))
  {
    TruthyNum(baseline) && TruthyNum(threshold)
    && current > AbnormalLimit(baseline.value, threshold.value)
  }

  /** Abnormality is monotone: a larger reading is abnormal whenever a smaller one is,
      and with a positive baseline and threshold the baseline itself is normal. */
  lemma AbnormalMonotone(baseline: Option<real>, threshold: Option<real>, c1: real, c2: real)
    requires c1 <= c2
    ensures IsConsumptionAbnormal(baseline, threshold, c1) ==> IsConsumptionAbnormal(baseline, threshold, c2)
    ensures baseline.Some? && baseline.value > 0.0 && threshold.Some? && threshold.value > 0.0 ==>
      !IsConsumptionAbnormal(baseline, threshold, baseline.value)
      && IsConsumptionAbnormal(baseline, threshold, AbnormalLimit(baseline.value, threshold.value) + 1.0)
  {
  }

  datatype DeviceLocation = DeviceLocation(coordinates: seq<real>, address: Option<string>,
                                           room: Option<string>, building: Option<string>)

  /** `getLocationString()`; `fixed4` renders a number with four decimals (`toFixed(4)`).
      Coordinates are stored longitude first and printed latitude first. */
  function LocationString(loc: DeviceLocation, fixed4: real -> string): (r: string)
    ensures TruthyStr(loc.address) ==> r == loc.address.value
    ensures !TruthyStr(loc.address) && TruthyStr(loc.room) ==> r == loc.room.value
    ensures !TruthyStr(loc.address) && !TruthyStr(loc.room) && TruthyStr(loc.building) ==> r == loc.building.value
    ensures !TruthyStr(loc.address) && !TruthyStr(loc.room) && !TruthyStr(loc.building) ==>
      (if |loc.coordinates| == 2 then r == fixed4(loc.coordinates[1]) + ", " + fixed4(loc.coordinates[0])
       else r == NotSpecified)
    ensures r != ""
  {
    if TruthyStr(loc.address) then loc.address.value
    else if TruthyStr(loc.room) then loc.room.value
    else if TruthyStr(loc.building) then loc.building.value
    else if |loc.coordinates| == 2 then fixed4(loc.coordinates[1]) + ", " + fixed4(loc.coordinates[0])
    else NotSpecified
  }

  /** The age bucket shared by the `status` virtual and the pre-save hook, computed
      as the source does, in fractional minutes. */
  function AgeBucket(ageMs: int): (s: Status)
    ensures s != StatusUnknown
    ensures s == StatusOnline <==> ageMs < OnlineMinutes * MsPerMinute
    ensures s == StatusRecent <==> OnlineMinutes * MsPerMinute <= ageMs < RecentMinutes * MsPerMinute
    ensures s == StatusOffline <==> ageMs >= RecentMinutes * MsPerMinute
  {
    var minutesAgo := ageMs as real / MsPerMinute as real;
    if minutesAgo < OnlineMinutes as real then StatusOnline
    else if minutesAgo < RecentMinutes as real then StatusRecent
    else StatusOffline
  }

  /** The `status` virtual at time `now`. */
  function StatusAt(lastSeen: Option<int>, now: int): (s: Status)
    ensures s == StatusUnknown <==> lastSeen.None?
    ensures lastSeen.Some? ==> s == AgeBucket(now - lastSeen.value)
  {
    if lastSeen.None? then StatusUnknown else AgeBucket(now - lastSeen.value)
  }

  function Freshness(s: Status): nat
  {
    match s
    case StatusOnline => 0 case StatusRecent => 1 case StatusOffline => 2 case StatusUnknown => 3
  }

  /** As time passes with no new sighting, a device only moves from online to recent
      to offline, never back. */
  lemma StatusOnlyAges(lastSeen: Option<int>, t1: int, t2: int)
    requires t1 <= t2
    ensures Freshness(StatusAt(lastSeen, t1)) <= Freshness(StatusAt(lastSeen, t2))
  {
  }

  function StoredStatus(s: Status): ConnectionStatus
  {
    match s
    case StatusOnline => Online
    case StatusRecent => Recent
    case _ => Offline
  }

  /** A device document; the pre-save hook updates it in place. */
  class Device {
    var isOnline: bool
    var lastSeen: Option<int>
    var connectionStatus: ConnectionStatus

    constructor (isOnline: bool, lastSeen: Option<int>)
      ensures this.isOnline == isOnline && this.lastSeen == lastSeen && connectionStatus == Offline
    {
      this.isOnline, this.lastSeen, connectionStatus := isOnline, lastSeen, Offline;
    }

    /** The pre-save hook; the flags say which paths the update touched. Coming
        online stamps `lastSeen`, which then counts as modified. */
    method PreSave(isOnlineModified: bool, lastSeenModified: bool, isNew: bool, now: int)
      modifies this
      ensures isOnline == old(isOnline)
      ensures isOnlineModified && isOnline ==> lastSeen == Some(now) && connectionStatus == Online
      ensures !(isOnlineModified && isOnline) ==> lastSeen == old(lastSeen)
      ensures !(isOnlineModified && isOnline) && (lastSeenModified || isNew) ==>
        connectionStatus == StoredStatus(AgeBucket(now - Override(lastSeen, now)))
      ensures !(isOnlineModified && isOnline) && !(lastSeenModified || isNew) ==>
        connectionStatus == old(connectionStatus)
    {
      var touched := lastSeenModified;
      if isOnlineModified && isOnline {
        lastSeen := Some(now);
        connectionStatus := Online;
        touched := true;
      }
      if touched || isNew {
        var seen := Override(lastSeen, now);
        connectionStatus := StoredStatus(AgeBucket(now - seen));
      }
    }
  }

}
