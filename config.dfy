/**
 * Application settings: the marketplace fee table, the subscription tiers,
 * the feature flags, and the lookups over them, plus the check that every
 * required API key is configured.
 *
 * The environment the settings are loaded from is a map from variable name to
 * value; a variable that is unset or empty is missing.
 */
module Config {
  import opened Wrappers
  import opened Text

  /** `table.get(key)` on a dict given as its items in order. */
  function Find<T>(table: seq<(string, T)>, key: string): (r: Option<T>)
    ensures r.None? <==> forall i :: 0 <= i < |table| ==> table[i].0 != key
    ensures r.Some? ==> exists i :: 0 <= i < |table| && table[i] == (key, r.value)
  {
    if table == [] then None
    else if table[0].0 == key then Some(table[0].1)
    else
      var r := Find(table[1..], key);
      assert forall i :: 1 <= i < |table| ==> table[i] == table[1..][i - 1];
      assert r.Some? ==> exists i :: 0 <= i < |table[1..]| && table[1..][i] == (key, r.value);
      r
  }

  /** The lookup finds the first entry with the key. */
  lemma {:induction false} FindFirst<T>(table: seq<(string, T)>, i: int)
    requires 0 <= i < |table|
    requires forall j :: 0 <= j < i ==> table[j].0 != table[i].0
    ensures Find(table, table[i].0) == Some(table[i].1)
  {
    if i > 0 {
      assert table[0].0 != table[i].0;
      assert table[1..][i - 1] == table[i];
      FindFirst(table[1..], i - 1);
    }
  }

  /** `SUPPORTED_MARKETPLACES`. */
  const SupportedMarketplaces: seq<string> := ["ebay", "facebook_marketplace", "mercari", "poshmark"]

  /** `MARKETPLACE_FEES`: each platform's fee as a fraction of the price. */
  const MarketplaceFees: seq<(string, real)> := [
    ("ebay", 0.1325),
    ("facebook_marketplace", 0.05),
    ("mercari", 0.10),
    ("poshmark", 0.20),
    ("amazon", 0.15),
    ("depop", 0.10),
    ("vinted", 0.07)
  ]

  /** The fee a platform is charged when the table has no entry for it. */
  const DefaultMarketplaceFee := 0.10

  /** Every configured fee is a fraction in [0, 1], and every supported marketplace has one. */
  lemma MarketplaceFeesAreFractions()
    ensures forall i :: 0 <= i < |MarketplaceFees| ==> 0.0 <= MarketplaceFees[i].1 <= 1.0
    ensures forall p :: p in SupportedMarketplaces ==> Find(MarketplaceFees, p).Some?
  {
    forall p | p in SupportedMarketplaces
      ensures Find(MarketplaceFees, p).Some?
    {
      assert p == "ebay" || p == "facebook_marketplace" || p == "mercari" || p == "poshmark";
    }
  }

  /** `get_marketplace_fee`: the fee of the lower-cased platform name, 10% for a platform not in the table. */
  function GetMarketplaceFee(platform: string): (fee: real)
    ensures 0.0 <= fee <= 1.0
    ensures (forall i :: 0 <= i < |MarketplaceFees| ==> MarketplaceFees[i].0 != Lower(platform)) ==> fee == DefaultMarketplaceFee
    ensures (exists i :: 0 <= i < |MarketplaceFees| && MarketplaceFees[i].0 == Lower(platform)) ==>
              (Lower(platform), fee) in MarketplaceFees
  {
    MarketplaceFeesAreFractions();
    Find(MarketplaceFees, Lower(platform)).GetOr(DefaultMarketplaceFee)
  }

  /** The fee lookup ignores case. */
  lemma GetMarketplaceFeeIgnoresCase(platform: string)
    ensures GetMarketplaceFee(Lower(platform)) == GetMarketplaceFee(platform)
  {
    LowerIdempotent(platform);
  }

  /** The `ENABLE_*` feature flags. */
  datatype FeatureFlags = FeatureFlags(
    googleShopping: bool,
    ebayIntegration: bool,
    microsoftVision: bool,
    geminiPro: bool,
    mockData: bool)

  /** The flags' default values. */
  const DefaultFlags := FeatureFlags(true, true, true, true, false)

  /** The feature names `is_feature_enabled` knows. */
  const FeatureNames: seq<string> := ["google_shopping", "ebay", "microsoft_vision", "gemini_pro", "mock_data"]

  /** `is_feature_enabled`: the flag of the lower-cased feature name; false for an unknown name. */
  function IsFeatureEnabled(flags: FeatureFlags, feature: string): (enabled: bool)
    ensures Lower(feature) !in FeatureNames ==> !enabled
  {
    match Lower(feature)
    case "google_shopping" => flags.googleShopping
    case "ebay" => flags.ebayIntegration
    case "microsoft_vision" => flags.microsoftVision
    case "gemini_pro" => flags.geminiPro
    case "mock_data" => flags.mockData
    case _ => false
  }

  /** The flag lookup ignores case. */
  lemma IsFeatureEnabledIgnoresCase(flags: FeatureFlags, feature: string)
    ensures IsFeatureEnabled(flags, Lower(feature)) == IsFeatureEnabled(flags, feature)
  {
    LowerIdempotent(feature);
  }

  /** Under the default flags every known feature but mock data is on. */
  lemma DefaultFeatures(feature: string)
    ensures IsFeatureEnabled(DefaultFlags, feature) <==> Lower(feature) in FeatureNames && Lower(feature) != "mock_data"
  {
  }

  /** One entry of `SUBSCRIPTION_TIERS`; an analysis limit of -1 means unlimited. */
  datatype TierConfig = TierConfig(name: string, analysisLimit: int, priceMonthly: real, features: seq<string>)

  const FreeTrialTier := TierConfig("Free Trial", 2, 0.0, ["Basic AI analysis", "Price estimates", "Marketplace suggestions"])

  /** `SUBSCRIPTION_TIERS`, in declaration order. */
  const SubscriptionTiers: seq<(string, TierConfig)> := [
    ("free_trial", FreeTrialTier),
    ("basic", TierConfig("Basic", 20, 9.99,
      ["20 monthly analyses", "Basic AI analysis", "Price estimates", "Marketplace suggestions", "Email support"])),
    ("pro", TierConfig("Pro", 50, 19.99,
      ["50 monthly analyses", "Advanced AI analysis", "Detailed price breakdowns", "Priority support",
       "Export analysis data", "Listing optimization tips"])),
    ("business", TierConfig("Business", 100, 29.99,
      ["100 monthly analyses", "Premium AI models", "Advanced analytics", "Priority support", "Export capabilities",
       "Bulk analysis"])),
    ("enterprise", TierConfig("Enterprise", -1, 69.99,
      ["Unlimited analyses", "White-label options", "Advanced features", "Priority support", "Custom integrations"]))
  ]

  /**
   * The tiers cost more the later they are declared, and each limited tier
   * allows more analyses than the one before; only the last, enterprise, is
   * unlimited.
   */
  lemma TiersOrdered()
    ensures forall i, j :: 0 <= i < j < |SubscriptionTiers| ==>
              SubscriptionTiers[i].1.priceMonthly < SubscriptionTiers[j].1.priceMonthly
    ensures forall i, j :: 0 <= i < j < |SubscriptionTiers| - 1 ==>
              0 < SubscriptionTiers[i].1.analysisLimit < SubscriptionTiers[j].1.analysisLimit
    ensures forall i :: 0 <= i < |SubscriptionTiers| ==>
              (SubscriptionTiers[i].1.analysisLimit < 0 <==> SubscriptionTiers[i].0 == "enterprise")
  {
  }

  /** `get_subscription_tier`: the tier of the lower-cased name, the free trial for an unknown name. */
  function GetSubscriptionTier(tierName: string): (tier: TierConfig)
    ensures (forall i :: 0 <= i < |SubscriptionTiers| ==> SubscriptionTiers[i].0 != Lower(tierName)) ==> tier == FreeTrialTier
    ensures (exists i :: 0 <= i < |SubscriptionTiers| && SubscriptionTiers[i].0 == Lower(tierName)) ==>
              (Lower(tierName), tier) in SubscriptionTiers
    ensures tier.analysisLimit in {2, 20, 50, 100, -1}
  {
    var r := Find(SubscriptionTiers, Lower(tierName));
    if r.Some? then
      var i :| 0 <= i < |SubscriptionTiers| && SubscriptionTiers[i] == (Lower(tierName), r.value);
      r.value
    else FreeTrialTier
  }

  /** The names `validate_api_keys` requires, in order. */
  const RequiredKeys: seq<string> := [
    "GOOGLE_VISION_API_KEY",
    "GOOGLE_GEMINI_API_KEY",
    "MICROSOFT_VISION_API_KEY",
    "GOOGLE_SHOPPING_API_KEY",
    "EBAY_APP_ID",
    "SUPABASE_URL",
    "SUPABASE_SERVICE_KEY",
    "STRIPE_SECRET_KEY",
    "STRIPE_WEBHOOK_SECRET"
  ]

  /** A setting is present when it is set to a non-empty value. */
  predicate Present(env: map<string, string>, key: string) {
    key in env && env[key] != ""
  }

  /** The keys among `keys` that are not present, in the order of `keys`. */
  function MissingKeys(env: map<string, string>, keys: seq<string>): (r: seq<string>)
    ensures |r| <= |keys|
    ensures forall k :: k in r <==> k in keys && !Present(env, k)
  {
    if keys == [] then []
    else
      var init := keys[..|keys| - 1];
      var last := keys[|keys| - 1];
      var rest := MissingKeys(env, init);
      assert forall k :: k in keys <==> k in init || k == last;
      if Present(env, last) then rest else rest + [last]
  }

  /**
   * One key is reported exactly when it is not present, and the missing
   * keys of two runs of keys are those of the first followed by those of
   * the second: order and repeats are kept.
   */
  lemma {:induction false} MissingKeysAppend(env: map<string, string>, a: seq<string>, b: seq<string>)
    ensures MissingKeys(env, a + b) == MissingKeys(env, a) + MissingKeys(env, b)
    ensures |a| == 1 ==> MissingKeys(env, a) == (if Present(env, a[0]) then [] else a)
  {
    if b == [] {
      assert a + b == a;
    } else {
      assert (a + b)[..|a + b| - 1] == a + b[..|b| - 1];
      MissingKeysAppend(env, a, b[..|b| - 1]);
    }
    if |a| == 1 {
      assert a[..0] == [];
    }
  }

  /** The loop of `validate_api_keys`: collects the keys that are not present, in order. */
  method CollectMissing(env: map<string, string>, keys: seq<string>) returns (missingKeys: seq<string>)
    ensures missingKeys == MissingKeys(env, keys)
  {
    missingKeys := [];
    var i := 0;
    while i < |keys|
      invariant 0 <= i <= |keys|
      invariant missingKeys == MissingKeys(env, keys[..i])
    {
      var key := keys[i];
      if !Present(env, key) {
        missingKeys := missingKeys + [key];
      }
      assert keys[..i + 1][..i] == keys[..i];
      i := i + 1;
    }
    assert keys[..i] == keys;
  }

  /**
   * `validate_api_keys`: raises, naming every missing key in order, when some
   * required key is missing; succeeds otherwise.
   */
  method ValidateApiKeys(env: map<string, string>) returns (r: Result<()>)
    ensures r.Err? <==> exists k :: k in RequiredKeys && !Present(env, k)
    ensures r.Err? ==> r.message == "Missing required environment variables: " + Join(MissingKeys(env, RequiredKeys), ", ")
  {
    var missingKeys := CollectMissing(env, RequiredKeys);
    if missingKeys != [] {
      assert missingKeys[0] in MissingKeys(env, RequiredKeys);
      return Err("Missing required environment variables: " + Join(missingKeys, ", "));
    }
    r := Ok(());
  }
}
