/**
 * The billing page (dashboard/app/dashboard/billing/page.tsx): the fixed tier table, the
 * current tier and trial, which plan buttons appear, and how prices are rendered.
 */
module Billing {
  import opened Wrappers
  import opened Text
  import Api
  import Session

  datatype Tier = Tier(
    id: string, name: string, priceMonthly: nat, priceYearly: nat,
    maxDevices: int, maxPrinters: int, historyDays: int, features: seq<string>)

  /** The tiers the page offers, cheapest first; -1 stands for unlimited. */
  function TierTable(): (ts: seq<Tier>)
    ensures |ts| == 4
    ensures ts[0].id == "free" && ts[1].id == "maker" && ts[2].id == "pro" && ts[3].id == "enterprise"
    ensures ts[0].priceMonthly == 0 && ts[0].priceYearly == 0
    ensures forall i, j :: 0 <= i < j < |ts| ==> ts[i].priceMonthly < ts[j].priceMonthly
    ensures forall i, j :: 0 <= i < j < |ts| ==> ts[i].id != ts[j].id
  {
    [ Tier("free", "Free", 0, 0, 1, 3, 7,
        ["Basic alerts", "7 days history", "1 device", "3 printers"]),
      Tier("maker", "Maker", 1000, 10000, 2, 10, 90,
        ["Advanced alerts", "Email notifications", "90 days history", "2 devices", "10 printers"]),
      Tier("pro", "Pro", 5000, 50000, 5, 50, 365,
        ["All Maker features", "API access", "Webhooks", "365 days history", "5 devices", "50 printers"]),
      Tier("enterprise", "Enterprise", 15000, 150000, 10, -1, -1,
        ["All Pro features", "Priority support", "SLA guarantee", "Unlimited history", "10 devices", "Unlimited printers"]) ]
  }

  predicate DistinctIds(tiers: seq<Tier>)
  {
    forall i, j :: 0 <= i < j < |tiers| ==> tiers[i].id != tiers[j].id
  }

  /** `license?.tier_id`: undefined when there is no license. */
  function LicenseTierId(license: Option<Session.License>): Option<string>
  {
    match license
    case Some(l) => Some(l.tierId)
    case None => None
  }

  /** `tiers.findIndex(t => t.id === id)`: the first position holding `id`, or -1. */
  function TierIndex(tiers: seq<Tier>, id: Option<string>): (k: int)
    ensures -1 <= k < |tiers|
    ensures k >= 0 ==> id == Some(tiers[k].id) && forall j :: 0 <= j < k ==> Some(tiers[j].id) != id
    ensures k == -1 <==> forall j :: 0 <= j < |tiers| ==> Some(tiers[j].id) != id
  {
    if tiers == [] then -1
    else if Some(tiers[0].id) == id then 0
    else
      var k := TierIndex(tiers[1..], id);
      if k == -1 then -1 else k + 1
  }

  /** `tiers.find(t => t.id === id)`: the first tier holding `id`. */
  function FindTier(tiers: seq<Tier>, id: Option<string>): (t: Option<Tier>)
    ensures t.Some? <==> TierIndex(tiers, id) >= 0
    ensures t.Some? ==> t.value == tiers[TierIndex(tiers, id)]
  {
    if tiers == [] then None
    else if Some(tiers[0].id) == id then Some(tiers[0])
    else FindTier(tiers[1..], id)
  }

  /** The tier whose id is the license's tier id; none without a license or for an unknown id. */
  function CurrentTier(tiers: seq<Tier>, license: Option<Session.License>): (t: Option<Tier>)
    ensures t.Some? ==> license.Some? && t.value.id == license.value.tierId && t.value in tiers
    ensures t.None? <==> license.None? || forall j :: 0 <= j < |tiers| ==> tiers[j].id != license.value.tierId
  {
    FindTier(tiers, LicenseTierId(license))
  }

  /**
   * `currentTier?.name || 'Unknown'`: the name of the listed tier the licence names, or
   * "Unknown". Over the page's table, "Unknown" shows exactly when no tier is current.
   */
  function CurrentPlanName(tiers: seq<Tier>, license: Option<Session.License>): (s: string)
    ensures s != ""
    ensures s == "Unknown" ||
      exists j :: 0 <= j < |tiers| && tiers[j].name == s && license.Some? && tiers[j].id == license.value.tierId
    ensures tiers == TierTable() ==> (s == "Unknown" <==> CurrentTier(tiers, license).None?)
  {
    match CurrentTier(tiers, license)
    case Some(t) => if t.name != "" then t.name else "Unknown"
    case None => "Unknown"
  }

  function IsCurrent(tier: Tier, license: Option<Session.License>): (r: bool)
    ensures r <==> license.Some? && license.value.tierId == tier.id
  {
    Some(tier.id) == LicenseTierId(license)
  }

  /** A tier is an upgrade when it comes later in the list than the current tier. */
  function IsUpgrade(tiers: seq<Tier>, tier: Tier, license: Option<Session.License>): (r: bool)
    ensures r ==> !IsCurrent(tier, license)
    ensures r ==> exists j :: 0 <= j < |tiers| && tiers[j].id == tier.id
    ensures CurrentTier(tiers, license).None? ==>
      (r <==> exists j :: 0 <= j < |tiers| && tiers[j].id == tier.id)
  {
    TierIndex(tiers, Some(tier.id)) > TierIndex(tiers, LicenseTierId(license))
  }

  /** With distinct ids, a listed tier's own index is its position. */
  lemma {:induction false} IndexOfListed(tiers: seq<Tier>, i: nat)
    requires DistinctIds(tiers) && i < |tiers|
    ensures TierIndex(tiers, Some(tiers[i].id)) == i
  {
  }

  /**
   * Over the page's tier table, the i-th tier is an upgrade exactly when i exceeds the
   * current tier's position, which is -1 without a license or for an unknown tier.
   */
  lemma UpgradeIsLaterPosition(i: nat, license: Option<Session.License>)
    requires i < |TierTable()|
    ensures IsUpgrade(TierTable(), TierTable()[i], license) <==> i > TierIndex(TierTable(), LicenseTierId(license))
    ensures CurrentTier(TierTable(), license).None? ==> IsUpgrade(TierTable(), TierTable()[i], license)
  {
    IndexOfListed(TierTable(), i);
  }

  /**
   * The Upgrade/Downgrade button: on every tier but the current one and `free`. On the page's
   * table, that is every tier but the first and the one at the current tier's position.
   */
  function ShowsChangeButton(tier: Tier, license: Option<Session.License>): (r: bool)
    ensures r <==> !IsCurrent(tier, license) && tier.id != "free"
    ensures tier in TierTable() ==>
      (r <==> (tier != TierTable()[0] && TierIndex(TierTable(), Some(tier.id)) != TierIndex(TierTable(), LicenseTierId(license))))
  {
    !IsCurrent(tier, license) && tier.id != "free"
  }

  /** The disabled "Current Plan" button: on the current tier unless it is `free`. */
  function ShowsCurrentPlanButton(tier: Tier, license: Option<Session.License>): (r: bool)
    ensures r <==> IsCurrent(tier, license) && tier.id != "free"
    ensures r ==> !ShowsChangeButton(tier, license)
  {
    IsCurrent(tier, license) && tier.id != "free"
  }

  /** The free tier never shows a button; every other tier shows exactly one. */
  lemma OneButtonPerPaidTier(tier: Tier, license: Option<Session.License>)
    ensures tier.id == "free" ==> !ShowsChangeButton(tier, license) && !ShowsCurrentPlanButton(tier, license)
    ensures tier.id != "free" ==> ShowsChangeButton(tier, license) != ShowsCurrentPlanButton(tier, license)
  {
  }

  /**
   * On the page's table, with the current tier at position `k` (-1 when none is), the change
   * button shows at every position but 0 and `k`, and the Current Plan button only at `k`
   * when `k` is not 0.
   */
  lemma ButtonsOnPage(i: nat, license: Option<Session.License>)
    requires i < |TierTable()|
    ensures var k := TierIndex(TierTable(), LicenseTierId(license));
      ShowsChangeButton(TierTable()[i], license) <==> i != 0 && i != k
    ensures var k := TierIndex(TierTable(), LicenseTierId(license));
      ShowsCurrentPlanButton(TierTable()[i], license) <==> i != 0 && i == k
  {
    IndexOfListed(TierTable(), i);
  }

  function ChangeButtonLabel(tiers: seq<Tier>, tier: Tier, license: Option<Session.License>): (s: string)
    ensures s == "Upgrade" <==> IsUpgrade(tiers, tier, license)
    ensures s == "Upgrade" || s == "Downgrade"
  {
    if IsUpgrade(tiers, tier, license) then "Upgrade" else "Downgrade"
  }

  /**
   * `status === 'trial' && trial_ends_at && new Date(trial_ends_at) > new Date()`, with the
   * expiry and the clock as timestamps.
   */
  function IsTrialActive(license: Option<Session.License>, now: int): (r: bool)
    ensures r <==> (license.Some? && license.value.status == "trial"
      && license.value.trialEndsAt.Some? && license.value.trialEndsAt.value > now)
  {
    match license
    case None => false
    case Some(l) => l.status == "trial" && l.trialEndsAt.Some? && l.trialEndsAt.value > now
  }

  /** A trial that is active now was active at every earlier moment. */
  lemma TrialActiveEarlier(license: Option<Session.License>, earlier: int, now: int)
    requires earlier <= now && IsTrialActive(license, now)
    ensures IsTrialActive(license, earlier)
  {
  }

  /** "Active subscription" shows exactly for status `active`, and never beside a live trial. */
  function ShowsActiveSubscription(license: Option<Session.License>): (r: bool)
    ensures r <==> license.Some? && license.value.status == "active"
    ensures r ==> forall now :: !IsTrialActive(license, now)
  {
    license.Some? && license.value.status == "active"
  }

  /** The "Starting at" price shows when the current tier is known and is not enterprise. */
  function ShowsStartingPrice(tiers: seq<Tier>, license: Option<Session.License>): (r: bool)
    ensures r ==> license.Some? && license.value.tierId != "enterprise"
  {
    var t := CurrentTier(tiers, license);
    t.Some? && t.value.id != "enterprise"
  }

  /**
   * The annual-savings line shows exactly when the yearly price is positive: over the page's
   * table, on every tier but `free`.
   */
  function ShowsAnnualSavings(tier: Tier): (r: bool)
    ensures r <==> tier.priceYearly > 0
    ensures tier in TierTable() ==> (r <==> tier.id != "free")
  {
    tier.priceYearly > 0
  }

  /** `n` as exactly two digits; `n` is below 100. */
  function TwoDigits(n: nat): (s: string)
    requires n < 100
    ensures |s| == 2 && AllDigits(s) && DigitsToNat(s) == n
  {
    var s := [DigitChar(n / 10), DigitChar(n % 10)];
    assert s[..1] == [DigitChar(n / 10)] && s[..1][..0] == [];
    assert DigitsToNat(s[..1]) == n / 10;
    s
  }

  /** `$` followed by the whole dollars, a point and the cents as two digits. */
  function FormatPrice(cents: nat): (s: string)
    ensures |s| >= 5 && s[0] == '$' && s[|s| - 3] == '.'
    ensures AllDigits(s[1..|s| - 3]) && AllDigits(s[|s| - 2..])
  {
    "$" + NatToString(cents / 100) + "." + TwoDigits(cents % 100)
  }

  /** Reads `$<digits>.<two digits>` back into cents. */
  function ParsePrice(s: string): Option<nat>
  {
    if |s| >= 5 && s[0] == '$' && s[|s| - 3] == '.' && AllDigits(s[1..|s| - 3]) && AllDigits(s[|s| - 2..])
    then Some(DigitsToNat(s[1..|s| - 3]) * 100 + DigitsToNat(s[|s| - 2..]))
    else None
  }

  /** A formatted price reads back as the amount it shows. */
  lemma FormatPriceRoundTrip(cents: nat)
    ensures ParsePrice(FormatPrice(cents)) == Some(cents)
  {
    var whole, frac := NatToString(cents / 100), TwoDigits(cents % 100);
    var s := FormatPrice(cents);
    assert s[1..|s| - 3] == whole;
    assert s[|s| - 2..] == frac;
    NatToStringRoundTrip(cents / 100);
  }

  /** The prices of the tier table as the page shows them. */
  lemma TierPricesShown()
    ensures FormatPrice(0) == "$0.00"
    ensures FormatPrice(1000) == "$10.00"
    ensures FormatPrice(150000) == "$1500.00"
  {
    assert NatToString(10) == "10";
    assert NatToString(1500) == "1500" by {
      assert NatToString(15) == "15";
      assert NatToString(150) == "150";
    }
  }

  /** The change button posts a checkout session request for the tier, always monthly. */
  function CheckoutCall(c: Api.Client, tier: Tier): (r: Api.Request)
    ensures r.verb == Api.Post && r.path == "/billing/create-checkout-session"
    ensures r.body == Some(map["tier_id" := Api.JString(tier.id), "billing_period" := Api.JString("monthly")])
  {
    Api.Call(c, Api.Post, "/billing/create-checkout-session",
      Some(map["tier_id" := Api.JString(tier.id), "billing_period" := Api.JString("monthly")]))
  }

  /** The page's state: the license from `/auth/me`, the tier table and its loading flag. */
  class BillingPage {
    var license: Option<Session.License>
    var tiers: seq<Tier>
    var loading: bool

    constructor ()
      ensures license.None? && tiers == [] && loading
    {
      license, tiers, loading := None, [], true;
    }

    /**
     * `loadData`: on success the license comes from the profile and the tier table is set;
     * on failure both stay as they were. `loading` ends false either way.
     */
    method LoadData(me: Result<Session.User, Session.ApiError>)
      modifies this
      ensures !loading
      ensures me.Ok? ==> license == me.value.license && tiers == TierTable()
      ensures me.Err? ==> license == old(license) && tiers == old(tiers)
    {
      if me.Ok? {
        license := me.value.license;
        tiers := TierTable();
      }
      loading := false;
    }
  }
}
