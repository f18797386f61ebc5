/** The EcoTip document (server/models/EcoTip.js): the pre-save defaults, the
    query `getPersonalizedTips` builds, and the counters `logInteraction` bumps. */
module EcoTipModel {
  import opened Common

  const All := "all"
  const DefaultUserType := "residential"
  const Global := "global"

  datatype Season = Winter | Spring | Summer | Autumn

  function SeasonName(s: Season): string
  {
    match s
    case Winter => "winter" case Spring => "spring" case Summer => "summer" case Autumn => "autumn"
  }

  /** The season for a zero-based month (`Date.getMonth()`, 0 = January). */
  function SeasonOf(month: int): (s: Season)
    requires 0 <= month < 12
    ensures s == Winter <==> month in {11, 0, 1}
    ensures s == Spring <==> 2 <= month <= 4
    ensures s == Summer <==> 5 <= month <= 7
    ensures s == Autumn <==> 8 <= month <= 10
  {
    if month in {11, 0, 1} then Winter
    else if 2 <= month <= 4 then Spring
    else if 5 <= month <= 7 then Summer
    else Autumn
  }

  function NextSeason(s: Season): Season
  {
    match s
    case Winter => Spring case Spring => Summer case Summer => Autumn case Autumn => Winter
  }

  /** Three months on, the season is always the next one. */
  lemma SeasonsFollowEachOther(month: int)
    requires 0 <= month < 12
    ensures SeasonOf((month + 3) % 12) == NextSeason(SeasonOf(month))
  {
  }

  /** The fields of a tip the personalised query looks at. */
  datatype TipTargeting = TipTargeting(isActive: bool, userTypes: seq<string>, seasons: seq<string>, regions: seq<string>)

  /** The profile fields the query reads; `None` and `""` are absent. */
  datatype UserProfile = UserProfile(userType: Option<string>, location: Option<string>)

  /** `user.profile?.userType || 'residential'`. */
  function UserTypeOf(user: UserProfile): (t: string)
    ensures TruthyStr(user.userType) ==> t == user.userType.value
    ensures !TruthyStr(user.userType) ==> t == DefaultUserType
  {
    if TruthyStr(user.userType) then user.userType.value else DefaultUserType
  }

  /** One alternative of the query's `$or`: an array field of the tip contains the value,
      or (for `$in`) one of the values. */
  datatype Alternative = UserTypeIs(userType: string) | SeasonIs(season: string) | RegionIn(regions: seq<string>)

  /** The `$or` list as `getPersonalizedTips` builds it: the two user-type alternatives,
      then the two season alternatives pushed onto it, then, for a user with a
      location, the region alternative. */
  function OrList(user: UserProfile, month: int): (alts: seq<Alternative>)
    requires 0 <= month < 12
  {
    var base := [UserTypeIs(All), UserTypeIs(UserTypeOf(user))]
                + [SeasonIs(All), SeasonIs(SeasonName(SeasonOf(month)))];
    if TruthyStr(user.location) then base + [RegionIn([user.location.value, Global])] else base
  }

  predicate Holds(tip: TipTargeting, alt: Alternative)
  {
    match alt
    case UserTypeIs(t) => t in tip.userTypes
    case SeasonIs(s) => s in tip.seasons
    case RegionIn(rs) => exists k :: 0 <= k < |rs| && rs[k] in tip.regions
  }

  /** The query of `getPersonalizedTips` for a user in a given month: the tip must be
      active, and one of the `$or` alternatives must hold. Because the season and
      region alternatives are pushed onto the same `$or` list as the user-type ones,
      any one of them suffices. */
  function PersonalizedMatch(tip: TipTargeting, user: UserProfile, month: int): (r: bool)
    requires 0 <= month < 12
    ensures r <==> tip.isActive
                   && (All in tip.userTypes || UserTypeOf(user) in tip.userTypes
                       || All in tip.seasons || SeasonName(SeasonOf(month)) in tip.seasons
                       || (TruthyStr(user.location) && (user.location.value in tip.regions || Global in tip.regions)))
  {
    var alts := OrList(user, month);
    assert alts[0] == UserTypeIs(All) && alts[1] == UserTypeIs(UserTypeOf(user));
    assert alts[2] == SeasonIs(All) && alts[3] == SeasonIs(SeasonName(SeasonOf(month)));
    assert TruthyStr(user.location) ==> |alts| == 5 && alts[4] == RegionIn([user.location.value, Global]);
    assert !TruthyStr(user.location) ==> |alts| == 4;
    assert TruthyStr(user.location) ==>
      (Holds(tip, RegionIn([user.location.value, Global])) <==>
       user.location.value in tip.regions || Global in tip.regions) by {
      if TruthyStr(user.location) {
        var rs := [user.location.value, Global];
        if user.location.value in tip.regions { assert rs[0] in tip.regions; }
        if Global in tip.regions { assert rs[1] in tip.regions; }
      }
    }
    tip.isActive && exists k :: 0 <= k < |alts| && Holds(tip, alts[k])
  }

  /** Because every alternative sits in one `$or`, a tip meant for all user types is
      offered in every month, whatever seasons it lists. */
  lemma SeasonDoesNotNarrow(tip: TipTargeting, user: UserProfile, month: int)
    requires 0 <= month < 12
    requires tip.isActive && All in tip.userTypes
    requires tip.seasons == [SeasonName(Winter)]
    ensures PersonalizedMatch(tip, user, month)
    ensures PersonalizedMatch(tip, user, 6) && SeasonOf(6) == Summer
  {
  }

  /** The interaction counters. */
  datatype TipStats = TipStats(views: nat, completed: nat, saved: nat, shared: nat, lastViewed: Option<int>)

  datatype Counter = Views | Completed | Saved | Shared

  /** The update `logInteraction` sends: one counter to increment and, for a view,
      the new `lastViewed`. */
  datatype TipUpdate = TipUpdate(inc: Counter, setLastViewed: Option<int>)

  /** The update for an interaction type at time `now`; `None` for an unknown type,
      for which `logInteraction` returns null without touching the tip. */
  function InteractionUpdate(interactionType: string, now: int): (u: Option<TipUpdate>)
    ensures u.Some? <==> interactionType in {"view", "complete", "save", "share"}
    ensures u.Some? ==> (u.value.setLastViewed.Some? <==> interactionType == "view")
    ensures u.Some? && u.value.setLastViewed.Some? ==> u.value.setLastViewed.value == now
  {
    match interactionType
    case "view" => Some(TipUpdate(Views, Some(now)))
    case "complete" => Some(TipUpdate(Completed, None))
    case "save" => Some(TipUpdate(Saved, None))
    case "share" => Some(TipUpdate(Shared, None))
    case _ => None
  }

  function CounterValue(s: TipStats, c: Counter): nat
  {
    match c
    case Views => s.views case Completed => s.completed case Saved => s.saved case Shared => s.shared
  }

  /** `findByIdAndUpdate(tipId, update)` on the stats. */
  function ApplyUpdate(s: TipStats, u: TipUpdate): (r: TipStats)
    ensures CounterValue(r, u.inc) == CounterValue(s, u.inc) + 1
    ensures forall c :: c != u.inc ==> CounterValue(r, c) == CounterValue(s, c)
    ensures r.lastViewed == (if u.setLastViewed.Some? then u.setLastViewed else s.lastViewed)
  {
    var s' := match u.inc
      case Views => s.(views := s.views + 1)
      case Completed => s.(completed := s.completed + 1)
      case Saved => s.(saved := s.saved + 1)
      case Shared => s.(shared := s.shared + 1);
    if u.setLastViewed.Some? then s'.(lastViewed := u.setLastViewed) else s'
  }

  function Total(s: TipStats): nat
  {
    s.views + s.completed + s.saved + s.shared
  }

  /** A known interaction raises the counters' total by exactly one, and only a view
      moves `lastViewed`. */
  lemma {:induction false} ExactlyOneCounter(s: TipStats, interactionType: string, now: int)
    requires InteractionUpdate(interactionType, now).Some?
    ensures var r := ApplyUpdate(s, InteractionUpdate(interactionType, now).value);
      Total(r) == Total(s) + 1
      && (interactionType == "view" ==> r.views == s.views + 1 && r.lastViewed == Some(now))
      && (interactionType != "view" ==> r.lastViewed == s.lastViewed)
  {
    var u := InteractionUpdate(interactionType, now).value;
    var r := ApplyUpdate(s, u);
    assert CounterValue(r, u.inc) == CounterValue(s, u.inc) + 1;
    assert forall c :: c != u.inc ==> CounterValue(r, c) == CounterValue(s, c);
    assert Total(r) == CounterValue(r, Views) + CounterValue(r, Completed) + CounterValue(r, Saved) + CounterValue(r, Shared);
    assert Total(s) == CounterValue(s, Views) + CounterValue(s, Completed) + CounterValue(s, Saved) + CounterValue(s, Shared);
  }

  /** A tip document: the two targeting arrays the pre-save hook fills and the stats
      `logInteraction` updates. */
  class EcoTip {
    var applicableUserTypes: seq<string>
    var applicableSeasons: seq<string>
    var stats: TipStats

    constructor (userTypes: seq<string>, seasons: seq<string>)
      ensures applicableUserTypes == userTypes && applicableSeasons == seasons
      ensures stats == TipStats(0, 0, 0, 0, None)
    {
      applicableUserTypes, applicableSeasons := userTypes, seasons;
      stats := TipStats(0, 0, 0, 0, None);
    }

    /** The pre-save hook: an empty targeting array becomes `['all']`; a non-empty one
        is kept. */
    method PreSave()
      modifies this
      ensures applicableUserTypes == (if old(applicableUserTypes) == [] then [All] else old(applicableUserTypes))
      ensures applicableSeasons == (if old(applicableSeasons) == [] then [All] else old(applicableSeasons))
      ensures applicableUserTypes != [] && applicableSeasons != []
      ensures stats == old(stats)
    {
      if |applicableUserTypes| == 0 {
        applicableUserTypes := [All];
      }
      if |applicableSeasons| == 0 {
        applicableSeasons := [All];
      }
    }

    /** `logInteraction(tipId, interactionType)` on this tip; `found` is false when it
        returns null. */
    method LogInteraction(interactionType: string, now: int) returns (found: bool)
      modifies this
      ensures found <==> InteractionUpdate(interactionType, now).Some?
      ensures found ==> stats == ApplyUpdate(old(stats), InteractionUpdate(interactionType, now).value)
      ensures !found ==> stats == old(stats)
      ensures applicableUserTypes == old(applicableUserTypes) && applicableSeasons == old(applicableSeasons)
    {
      var update := InteractionUpdate(interactionType, now);
      if update.None? {
        return false;
      }
      stats := ApplyUpdate(stats, update.value);
      found := true;
    }
  }
}
