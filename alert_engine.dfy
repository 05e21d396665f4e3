/** `AlertEngine` (`server/services/alertEngine.ts`): user alert criteria
    matched against recently scraped listings, and the processing pass that
    stamps the alerts it sends. The text of the match reasons is modelled by
    the `Reason` datatype; delivery (console output) is not part of the
    model. */
module AlertEngine {
  import opened FirearmsSchema
  import opened Text

  /** The optional fields of an alert's criteria document. */
  datatype Criteria = Criteria(
    manufacturer: Option<string>,
    model: Option<string>,
    caliber: Option<string>,
    category: Option<string>,
    condition: Option<string>,
    maxPrice: Option<real>,
    minRarity: Option<string>,
    nfaOnly: Option<bool>,
    estateSalesOnly: Option<bool>
  )

  /** One entry of `reasons`, by the criterion that produced it and the
      values it quotes. */
  datatype Reason =
    | ManufacturerMatches(manufacturer: string)
    | ModelMatches(model: string)
    | CaliberMatches(caliber: string)
    | CategoryMatches(category: string)
    | ConditionMatches(condition: string)
    | PriceWithinBudget(bid: real, maxPrice: real)
    | RarityMeets(rarity: Option<string>)
    | NfaAsRequested
    | EstateSaleAsRequested

  /** The outcome of one criterion: not given, passed with a reason, or failed. */
  datatype Check = Skipped | Passed(reason: Reason) | Unmet

  datatype MatchResult = MatchResult(matches: bool, reasons: seq<Reason>)

  /** A case-insensitive substring criterion; a null listing field fails. */
  function TextCheck(field: Option<string>, criterion: Option<string>, reason: string -> Reason): Check {
    if !Truthy(criterion, "") then Skipped
    else if field.Some? && Contains(Lower(field.value), Lower(criterion.value)) then Passed(reason(field.value))
    else Unmet
  }

  /** An exact, case-sensitive equality criterion. */
  function ExactCheck(field: Option<string>, criterion: Option<string>, reason: string -> Reason): Check {
    if !Truthy(criterion, "") then Skipped
    else if field == criterion then Passed(reason(criterion.value))
    else Unmet
  }

  /** The price bound, checked only when both the bound and the bid are truthy. */
  function PriceCheck(bid: Option<real>, maxPrice: Option<real>): Check {
    if Truthy(maxPrice, 0.0) && Truthy(bid, 0.0) then
      if bid.value <= maxPrice.value then Passed(PriceWithinBudget(bid.value, maxPrice.value)) else Unmet
    else Skipped
  }

  const RarityLevels: seq<string> := ["Common", "Scarce", "Rare", "Extremely Rare"]

  /** `s.indexOf(x)`: the first position of `x`, or -1. */
  function IndexOf(s: seq<string>, x: string): (i: int)
    ensures -1 <= i < |s|
    ensures i >= 0 ==> s[i] == x && x !in s[..i]
    ensures i == -1 <==> x !in s
  {
    if s == [] then -1
    else if s[0] == x then 0
    else
      var i := IndexOf(s[1..], x);
      assert s == [s[0]] + s[1..];
      if i == -1 then -1
      else
        assert s[..i + 1] == [s[0]] + s[1..][..i];
        i + 1
  }

  /** The rarity criterion: the listing's level (a missing rarity counting as
      Common) must be at least the minimum's level; levels of unknown names
      are -1. */
  function RarityCheck(rarity: Option<string>, minRarity: Option<string>): Check {
    if !Truthy(minRarity, "") then Skipped
    else
      var level := IndexOf(RarityLevels, if Truthy(rarity, "") then rarity.value else "Common");
      if level >= IndexOf(RarityLevels, minRarity.value) then Passed(RarityMeets(rarity)) else Unmet
  }

  /** A flag criterion (`nfaOnly`, `estateSalesOnly`): when requested, the
      listing's flag must be truthy. */
  function FlagCheck(flag: Option<bool>, wanted: Option<bool>, reason: Reason): Check {
    if !Truthy(wanted, false) then Skipped
    else if Truthy(flag, false) then Passed(reason)
    else Unmet
  }

  /** The criteria in the order `matchesCriteria` evaluates them. */
  function Checks(l: Listing, c: Criteria): (cs: seq<Check>)
    ensures |cs| == 9
  {
    [ TextCheck(l.manufacturer, c.manufacturer, s => ManufacturerMatches(s)),
      TextCheck(l.model, c.model, s => ModelMatches(s)),
      TextCheck(l.caliber, c.caliber, s => CaliberMatches(s)),
      ExactCheck(l.category, c.category, s => CategoryMatches(s)),
      ExactCheck(l.condition, c.condition, s => ConditionMatches(s)),
      PriceCheck(l.currentBid, c.maxPrice),
      RarityCheck(l.rarity, c.minRarity),
      FlagCheck(l.nfaItem, c.nfaOnly, NfaAsRequested),
      FlagCheck(l.isEstateSale, c.estateSalesOnly, EstateSaleAsRequested) ]
  }

  /** Runs the checks in order, pushing the reason of each passed one and
      returning "no match" at the first failure. */
  function Evaluate(checks: seq<Check>, reasons: seq<Reason>): MatchResult {
    if checks == [] then MatchResult(|reasons| > 0, reasons)
    else
      match checks[0]
      case Skipped => Evaluate(checks[1..], reasons)
      case Passed(r) => Evaluate(checks[1..], reasons + [r])
      case Unmet => MatchResult(false, [])
  }

  /** `matchesCriteria(auction, criteria)`. */
  function MatchesCriteria(l: Listing, c: Criteria): MatchResult {
    Evaluate(Checks(l, c), [])
  }

  /** The reasons of the passed checks, in order. */
  function PassedReasons(checks: seq<Check>): seq<Reason> {
    if checks == [] then []
    else (if checks[0].Passed? then [checks[0].reason] else []) + PassedReasons(checks[1..])
  }

  /** The short-circuit evaluation agrees with the order-free reading: a
      failure anywhere means no match and no reasons; otherwise the reasons
      are those of all the passed checks, and it is a match iff there is at
      least one. */
  lemma {:induction false} EvaluateMeaning(checks: seq<Check>, reasons: seq<Reason>)
    ensures Unmet in checks ==> Evaluate(checks, reasons) == MatchResult(false, [])
    ensures Unmet !in checks ==>
      Evaluate(checks, reasons) == MatchResult(|reasons + PassedReasons(checks)| > 0, reasons + PassedReasons(checks))
  {
    if checks != [] {
      assert checks == [checks[0]] + checks[1..];
      match checks[0]
      case Skipped =>
        EvaluateMeaning(checks[1..], reasons);
      case Passed(r) =>
        EvaluateMeaning(checks[1..], reasons + [r]);
        assert reasons + [r] + PassedReasons(checks[1..]) == reasons + PassedReasons(checks);
      case Unmet =>
    }
  }

  /** The criterion as the alert's author means it, stated without the
      evaluation order: case-insensitive substring for manufacturer, model
      and caliber, equality for category and condition, the bid bound when
      both are truthy, the rarity order, and the two flags. */
  ghost predicate TextOk(field: Option<string>, criterion: Option<string>) {
    !Truthy(criterion, "") || (field.Some? && exists i :: OccursAt(Lower(field.value), Lower(criterion.value), i))
  }

  ghost predicate AllCriteriaHold(l: Listing, c: Criteria) {
    && TextOk(l.manufacturer, c.manufacturer)
    && TextOk(l.model, c.model)
    && TextOk(l.caliber, c.caliber)
    && (!Truthy(c.category, "") || l.category == c.category)
    && (!Truthy(c.condition, "") || l.condition == c.condition)
    && (!(Truthy(c.maxPrice, 0.0) && Truthy(l.currentBid, 0.0)) || l.currentBid.value <= c.maxPrice.value)
    && (!Truthy(c.minRarity, "") ||
        IndexOf(RarityLevels, if Truthy(l.rarity, "") then l.rarity.value else "Common")
          >= IndexOf(RarityLevels, c.minRarity.value))
    && (!Truthy(c.nfaOnly, false) || l.nfaItem == Some(true))
    && (!Truthy(c.estateSalesOnly, false) || l.isEstateSale == Some(true))
  }

  /** At least one criterion takes part (the price bound only with a bid). */
  predicate AnyCriterionApplies(l: Listing, c: Criteria) {
    || Truthy(c.manufacturer, "") || Truthy(c.model, "") || Truthy(c.caliber, "")
    || Truthy(c.category, "") || Truthy(c.condition, "")
    || (Truthy(c.maxPrice, 0.0) && Truthy(l.currentBid, 0.0))
    || Truthy(c.minRarity, "") || Truthy(c.nfaOnly, false) || Truthy(c.estateSalesOnly, false)
  }

  lemma TextCheckMeaning(field: Option<string>, criterion: Option<string>, reason: string -> Reason)
    ensures TextCheck(field, criterion, reason) != Unmet <==> TextOk(field, criterion)
    ensures TextCheck(field, criterion, reason).Skipped? <==> !Truthy(criterion, "")
  {
    if field.Some? && criterion.Some? {
      ContainsIff(Lower(field.value), Lower(criterion.value));
    }
  }

  lemma FlagMeaning(flag: Option<bool>, wanted: Option<bool>, reason: Reason)
    ensures FlagCheck(flag, wanted, reason) != Unmet <==> (!Truthy(wanted, false) || flag == Some(true))
    ensures FlagCheck(flag, wanted, reason).Skipped? <==> !Truthy(wanted, false)
  {
    if flag.Some? && flag.value {
      assert Truthy(flag, false);
    }
  }

  /** Each check's outcome, as the criterion it evaluates. */
  lemma CheckOutcomes(l: Listing, c: Criteria)
    ensures var cs := Checks(l, c);
      && (cs[0] != Unmet <==> TextOk(l.manufacturer, c.manufacturer))
      && (cs[1] != Unmet <==> TextOk(l.model, c.model))
      && (cs[2] != Unmet <==> TextOk(l.caliber, c.caliber))
      && (cs[3] != Unmet <==> (!Truthy(c.category, "") || l.category == c.category))
      && (cs[4] != Unmet <==> (!Truthy(c.condition, "") || l.condition == c.condition))
      && (cs[5] != Unmet <==> (!(Truthy(c.maxPrice, 0.0) && Truthy(l.currentBid, 0.0))
                               || l.currentBid.value <= c.maxPrice.value))
      && (cs[6] != Unmet <==> (!Truthy(c.minRarity, "") ||
            IndexOf(RarityLevels, if Truthy(l.rarity, "") then l.rarity.value else "Common")
              >= IndexOf(RarityLevels, c.minRarity.value)))
      && (cs[7] != Unmet <==> (!Truthy(c.nfaOnly, false) || l.nfaItem == Some(true)))
      && (cs[8] != Unmet <==> (!Truthy(c.estateSalesOnly, false) || l.isEstateSale == Some(true)))
  {
    TextCheckMeaning(l.manufacturer, c.manufacturer, s => ManufacturerMatches(s));
    TextCheckMeaning(l.model, c.model, s => ModelMatches(s));
    TextCheckMeaning(l.caliber, c.caliber, s => CaliberMatches(s));
    FlagMeaning(l.nfaItem, c.nfaOnly, NfaAsRequested);
    FlagMeaning(l.isEstateSale, c.estateSalesOnly, EstateSaleAsRequested);
  }

  /** Which checks take part at all. */
  lemma CheckApplies(l: Listing, c: Criteria)
    ensures var cs := Checks(l, c);
      && (cs[0].Skipped? <==> !Truthy(c.manufacturer, ""))
      && (cs[1].Skipped? <==> !Truthy(c.model, ""))
      && (cs[2].Skipped? <==> !Truthy(c.caliber, ""))
      && (cs[3].Skipped? <==> !Truthy(c.category, ""))
      && (cs[4].Skipped? <==> !Truthy(c.condition, ""))
      && (cs[5].Skipped? <==> !(Truthy(c.maxPrice, 0.0) && Truthy(l.currentBid, 0.0)))
      && (cs[6].Skipped? <==> !Truthy(c.minRarity, ""))
      && (cs[7].Skipped? <==> !Truthy(c.nfaOnly, false))
      && (cs[8].Skipped? <==> !Truthy(c.estateSalesOnly, false))
  {
    TextCheckMeaning(l.manufacturer, c.manufacturer, s => ManufacturerMatches(s));
    TextCheckMeaning(l.model, c.model, s => ModelMatches(s));
    TextCheckMeaning(l.caliber, c.caliber, s => CaliberMatches(s));
    FlagMeaning(l.nfaItem, c.nfaOnly, NfaAsRequested);
    FlagMeaning(l.isEstateSale, c.estateSalesOnly, EstateSaleAsRequested);
  }

  /** No check fails exactly when every criterion holds. */
  lemma ChecksHold(l: Listing, c: Criteria)
    ensures Unmet !in Checks(l, c) <==> AllCriteriaHold(l, c)
  {
    var cs := Checks(l, c);
    CheckOutcomes(l, c);
    assert Unmet in cs <==> exists i :: 0 <= i < 9 && cs[i] == Unmet;
  }

  /** Without a failure, some check passes exactly when some criterion applies. */
  lemma ChecksApply(l: Listing, c: Criteria)
    requires Unmet !in Checks(l, c)
    ensures PassedReasons(Checks(l, c)) != [] <==> AnyCriterionApplies(l, c)
  {
    var cs := Checks(l, c);
    CheckApplies(l, c);
    PassedReasonsEmpty(cs);
    assert forall i :: 0 <= i < 9 ==> (cs[i].Passed? <==> !cs[i].Skipped?);
  }

  lemma {:induction false} PassedReasonsEmpty(checks: seq<Check>)
    ensures PassedReasons(checks) == [] <==> forall i :: 0 <= i < |checks| ==> !checks[i].Passed?
  {
    if checks != [] {
      PassedReasonsEmpty(checks[1..]);
      assert forall i :: 1 <= i < |checks| ==> checks[i] == checks[1..][i - 1];
    }
  }

  /** A listing matches an alert exactly when every criterion the alert gives
      holds and at least one applies; a match carries at least one reason,
      and a non-match none. */
  lemma MatchesCriteriaMeaning(l: Listing, c: Criteria)
    ensures MatchesCriteria(l, c).matches <==> AllCriteriaHold(l, c) && AnyCriterionApplies(l, c)
    ensures MatchesCriteria(l, c).matches <==> MatchesCriteria(l, c).reasons != []
  {
    EvaluateMeaning(Checks(l, c), []);
    ChecksHold(l, c);
    if Unmet !in Checks(l, c) {
      ChecksApply(l, c);
    }
  }

  /** An alert without criteria matches nothing. */
  lemma EmptyCriteriaMatchNothing(l: Listing)
    ensures !MatchesCriteria(l, Criteria(None, None, None, None, None, None, None, None, None)).matches
  {
    MatchesCriteriaMeaning(l, Criteria(None, None, None, None, None, None, None, None, None));
  }

  /** A manufacturer and budget alert: "Colt" with a 1000 limit matches a
      "Colt Firearms" listing bidding 900 and not one bidding 1100. */
  lemma ColtBudgetAlert(l: Listing)
    requires l.manufacturer == Some("Colt Firearms")
    ensures var c := Criteria(Some("Colt"), None, None, None, None, Some(1000.0), None, None, None);
      && (l.currentBid == Some(900.0) ==> MatchesCriteria(l, c).matches)
      && (l.currentBid == Some(1100.0) ==> !MatchesCriteria(l, c).matches)
  {
    var c := Criteria(Some("Colt"), None, None, None, None, Some(1000.0), None, None, None);
    assert Lower("Colt Firearms")[0..4] == Lower("Colt");
    assert OccursAt(Lower("Colt Firearms"), Lower("Colt"), 0);
    MatchesCriteriaMeaning(l, c);
  }

  /** A minimum rarity outside the four known levels admits every listing;
      a listing with an unknown rarity meets no known minimum. */
  lemma RarityEdges(rarity: Option<string>, minRarity: string)
    requires minRarity != ""
    ensures minRarity !in RarityLevels ==> RarityCheck(rarity, Some(minRarity)).Passed?
    ensures minRarity in RarityLevels && Truthy(rarity, "") && rarity.value !in RarityLevels ==>
      RarityCheck(rarity, Some(minRarity)) == Unmet
  {
  }

  // ---------------------------------------------------------------------
  // Alerts table, checkAlerts and processAlerts

  /** A `user_alerts` row (`createdAt` is not modelled). */
  datatype UserAlert = UserAlert(id: nat, userId: Option<nat>, alertType: string, criteria: Criteria, active: bool,
                                 lastTriggered: Option<int>)

  datatype AlertMatch = AlertMatch(alertId: nat, auction: Listing, matchReasons: seq<Reason>)

  const HourMs: int := 3600000

  /** The active alerts, in table order: exactly the alerts that are active. */
  function ActiveAlerts(alerts: seq<UserAlert>): (r: seq<UserAlert>)
    ensures |r| <= |alerts|
    ensures forall a :: a in r <==> a in alerts && a.active
  {
    if alerts == [] then []
    else
      var init, last := alerts[..|alerts| - 1], alerts[|alerts| - 1];
      assert alerts == init + [last];
      ActiveAlerts(init) + (if last.active then [last] else [])
  }

  /** The listings scraped in the 24 hours before `now`, in table order:
      exactly the listings scraped since then. */
  function RecentListings(listings: seq<Listing>, now: int): (r: seq<Listing>)
    ensures |r| <= |listings|
    ensures forall l :: l in r <==> l in listings && l.scrapedAt >= now - 24 * HourMs
  {
    if listings == [] then []
    else
      var init, last := listings[..|listings| - 1], listings[|listings| - 1];
      assert listings == init + [last];
      RecentListings(init, now) + (if last.scrapedAt >= now - 24 * HourMs then [last] else [])
  }

  /** The matches of one alert against the listings, in listing order. */
  function AlertMatches(a: UserAlert, recent: seq<Listing>): seq<AlertMatch> {
    if recent == [] then []
    else
      var l := recent[|recent| - 1];
      var m := MatchesCriteria(l, a.criteria);
      AlertMatches(a, recent[..|recent| - 1]) + (if m.matches then [AlertMatch(a.id, l, m.reasons)] else [])
  }

  /** All matches, alert by alert. */
  function AllMatches(alerts: seq<UserAlert>, recent: seq<Listing>): seq<AlertMatch> {
    if alerts == [] then []
    else AllMatches(alerts[..|alerts| - 1], recent) + AlertMatches(alerts[|alerts| - 1], recent)
  }

  lemma AlertMatchesNext(a: UserAlert, recent: seq<Listing>, j: nat)
    requires j < |recent|
    ensures var m := MatchesCriteria(recent[j], a.criteria);
      AlertMatches(a, recent[..j + 1])
        == AlertMatches(a, recent[..j]) + (if m.matches then [AlertMatch(a.id, recent[j], m.reasons)] else [])
  {
    assert recent[..j + 1][..j] == recent[..j];
  }

  lemma AllMatchesNext(alerts: seq<UserAlert>, i: nat, recent: seq<Listing>)
    requires i < |alerts|
    ensures AllMatches(alerts[..i + 1], recent) == AllMatches(alerts[..i], recent) + AlertMatches(alerts[i], recent)
  {
    assert alerts[..i + 1][..i] == alerts[..i];
  }

  /** One match per matching (alert, listing) pair: a match is in the list
      exactly when it pairs an alert with a listing that meets its criteria,
      with the reasons of that evaluation. */
  lemma {:induction false} AlertMatchesMembers(a: UserAlert, recent: seq<Listing>)
    ensures forall x :: x in AlertMatches(a, recent) <==>
      exists j :: 0 <= j < |recent| && x == AlertMatch(a.id, recent[j], MatchesCriteria(recent[j], a.criteria).reasons)
        && MatchesCriteria(recent[j], a.criteria).matches
  {
    if recent != [] {
      var init := recent[..|recent| - 1];
      AlertMatchesMembers(a, init);
      forall j | 0 <= j < |init| ensures recent[j] == init[j] {
      }
    }
  }

  lemma {:induction false} AllMatchesMembers(alerts: seq<UserAlert>, recent: seq<Listing>)
    ensures forall x :: x in AllMatches(alerts, recent) <==>
      exists i :: 0 <= i < |alerts| && x in AlertMatches(alerts[i], recent)
  {
    if alerts != [] {
      var init := alerts[..|alerts| - 1];
      AllMatchesMembers(init, recent);
      forall i | 0 <= i < |init| ensures alerts[i] == init[i] {
      }
    }
  }

  /** The listing count of the matches equals the number of matching pairs. */
  function MatchingPairs(alerts: seq<UserAlert>, recent: seq<Listing>): nat {
    if alerts == [] then 0
    else MatchingPairs(alerts[..|alerts| - 1], recent) + MatchingListings(alerts[|alerts| - 1], recent)
  }

  function MatchingListings(a: UserAlert, recent: seq<Listing>): nat {
    if recent == [] then 0
    else
      MatchingListings(a, recent[..|recent| - 1])
        + (if MatchesCriteria(recent[|recent| - 1], a.criteria).matches then 1 else 0)
  }

  lemma {:induction false} AllMatchesCount(alerts: seq<UserAlert>, recent: seq<Listing>)
    ensures |AllMatches(alerts, recent)| == MatchingPairs(alerts, recent)
  {
    if alerts != [] {
      AllMatchesCount(alerts[..|alerts| - 1], recent);
      AlertMatchesCount(alerts[|alerts| - 1], recent);
    }
  }

  lemma {:induction false} AlertMatchesCount(a: UserAlert, recent: seq<Listing>)
    ensures |AlertMatches(a, recent)| == MatchingListings(a, recent)
  {
    if recent != [] {
      AlertMatchesCount(a, recent[..|recent| - 1]);
    }
  }

  /** The table after stamping `lastTriggered := now` on the rows with the
      given ids, one id after the other. */
  function StampAll(alerts: seq<UserAlert>, ids: seq<nat>, now: int): (r: seq<UserAlert>)
    ensures |r| == |alerts|
  {
    if ids == [] then alerts else Stamp(StampAll(alerts, ids[..|ids| - 1], now), ids[|ids| - 1], now)
  }

  /** `UPDATE user_alerts SET lastTriggered = now WHERE id = ?`. */
  function Stamp(alerts: seq<UserAlert>, id: nat, now: int): (r: seq<UserAlert>)
    ensures |r| == |alerts|
  {
    seq(|alerts|, k requires 0 <= k < |alerts| =>
      if alerts[k].id == id then alerts[k].(lastTriggered := Some(now)) else alerts[k])
  }

  /** Stamping changes only `lastTriggered`, sets it to `now` on exactly the
      rows whose id was stamped, and leaves the other rows as they were. */
  lemma {:induction false} StampAllEffect(alerts: seq<UserAlert>, ids: seq<nat>, now: int)
    ensures forall k :: 0 <= k < |alerts| ==>
      && StampAll(alerts, ids, now)[k].(lastTriggered := alerts[k].lastTriggered) == alerts[k]
      && (alerts[k].id in ids ==> StampAll(alerts, ids, now)[k].lastTriggered == Some(now))
      && (alerts[k].id !in ids ==> StampAll(alerts, ids, now)[k] == alerts[k])
  {
    if ids != [] {
      StampAllEffect(alerts, ids[..|ids| - 1], now);
      assert ids == ids[..|ids| - 1] + [ids[|ids| - 1]];
    }
  }

  /** The ids of the matches whose delivery did not hit an error, `fails(k)`
      saying whether sending the `k`-th match failed (and was caught). */
  function SentIds(matches: seq<AlertMatch>, fails: nat -> bool): seq<nat> {
    if matches == [] then []
    else
      SentIds(matches[..|matches| - 1], fails)
        + (if fails(|matches| - 1) then [] else [matches[|matches| - 1].alertId])
  }

  /** Sending the `k`-th match stamps its alert unless that send fails. */
  lemma SentStep(alerts: seq<UserAlert>, matches: seq<AlertMatch>, k: nat, fails: nat -> bool, now: int)
    requires k < |matches|
    ensures StampAll(alerts, SentIds(matches[..k + 1], fails), now) ==
      if fails(k) then StampAll(alerts, SentIds(matches[..k], fails), now)
      else Stamp(StampAll(alerts, SentIds(matches[..k], fails), now), matches[k].alertId, now)
  {
    assert matches[..k + 1][..k] == matches[..k];
    var ids := SentIds(matches[..k], fails);
    if !fails(k) {
      assert (ids + [matches[k].alertId])[..|ids|] == ids;
    } else {
      assert ids + [] == ids;
    }
  }

  class AlertEngineService {
    /** The `user_alerts` table. */
    var alerts: seq<UserAlert>

    constructor(alerts: seq<UserAlert>)
      ensures this.alerts == alerts
    {
      this.alerts := alerts;
    }

    /** `checkAlerts()` at time `now`: no matches without active alerts;
        otherwise every active alert against every listing scraped in the
        last 24 hours, alert by alert. */
    method CheckAlerts(listings: seq<Listing>, now: int) returns (matches: seq<AlertMatch>)
      ensures matches == AllMatches(ActiveAlerts(alerts), RecentListings(listings, now))
      ensures |matches| == MatchingPairs(ActiveAlerts(alerts), RecentListings(listings, now))
    {
      var active := ActiveAlerts(alerts);
      if |active| == 0 {
        return [];
      }
      var recent := RecentListings(listings, now);
      matches := [];
      for i := 0 to |active|
        invariant matches == AllMatches(active[..i], recent)
      {
        AllMatchesNext(active, i, recent);
        var found := MatchAlert(active[i], recent);
        matches := matches + found;
      }
      assert active[..|active|] == active;
      AllMatchesCount(active, recent);
    }

    /** The inner loop of `checkAlerts`: one alert against every recent
        listing, in listing order. */
    method MatchAlert(alert: UserAlert, recent: seq<Listing>) returns (found: seq<AlertMatch>)
      ensures found == AlertMatches(alert, recent)
    {
      found := [];
      for j := 0 to |recent|
        invariant found == AlertMatches(alert, recent[..j])
      {
        AlertMatchesNext(alert, recent, j);
        var result := MatchesCriteria(recent[j], alert.criteria);
        if result.matches {
          found := found + [AlertMatch(alert.id, recent[j], result.reasons)];
        }
      }
      assert recent[..|recent|] == recent;
    }

    /** `sendAlert(match)`: stamps the alert's `lastTriggered` unless its
        lookup or update fails (`fails`), which the method catches. A match
        whose alert no longer exists changes nothing. */
    method SendAlert(m: AlertMatch, fails: bool, now: int)
      modifies this
      ensures alerts == if fails then old(alerts) else Stamp(old(alerts), m.alertId, now)
    {
      if fails {
        return;
      }
      alerts := Stamp(alerts, m.alertId, now);
    }

    /** `processAlerts()`: every match is sent; `sendAlert` catches its own
        errors, so none reach the loop and `errors` stays 0. */
    method ProcessAlerts(listings: seq<Listing>, now: int, fails: nat -> bool)
      returns (totalMatches: nat, alertsSent: nat, errors: nat)
      modifies this
      ensures totalMatches == MatchingPairs(ActiveAlerts(old(alerts)), RecentListings(listings, now))
      ensures alertsSent == totalMatches && errors == 0
      ensures alerts == StampAll(old(alerts), SentIds(AllMatches(ActiveAlerts(old(alerts)),
                                                                 RecentListings(listings, now)), fails), now)
    {
      var matches := CheckAlerts(listings, now);
      alertsSent, errors := 0, 0;
      for k := 0 to |matches|
        invariant alertsSent == k && errors == 0
        invariant alerts == StampAll(old(alerts), SentIds(matches[..k], fails), now)
      {
        SentStep(old(alerts), matches, k, fails, now);
        SendAlert(matches[k], fails(k), now);
        alertsSent := alertsSent + 1;
      }
      assert matches[..|matches|] == matches;
      totalMatches := |matches|;
    }
  }
}
