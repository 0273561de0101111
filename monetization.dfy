/** The economy provider: coins, experience and level, streak freezes, owned
    items, the active theme, the XP-boost expiry and the subscription tier.
    Each operation is a pure function on `Economy` with the backend's answers
    as parameters; the class `Provider` holds the state in fields and its
    methods are proved to perform exactly those functions. */
module Monetization {
  import opened Remote

  const FreeTier := "free"
  const DefaultTheme := "default"

  /** XP needed per level: the next level is reached at `level * 100`. */
  const XpPerLevel := 100

  datatype Economy = Economy(
    isPremium: bool,
    tier: string,
    coins: int,
    streakFreezes: int,
    xp: int,
    level: int,
    inventory: seq<string>,         // owned item ids, in the order they were fetched
    activeTheme: string,
    xpBoostExpiresAt: Option<int>,  // a timestamp; null when there is no boost
    showPremiumModal: bool)

  const Initial := Economy(false, FreeTier, 0, 0, 0, 1, [], DefaultTheme, None, false)

  /** One row of the `profiles` table, as the refresh selects it. */
  datatype ProfileRow = ProfileRow(
    subscriptionTier: string,
    coins: int,
    streakFreezeCount: int,
    expPoints: Option<int>,
    level: Option<int>,
    activeTheme: Option<string>,
    xpBoostExpiresAt: Option<int>)

  /** The field updates the provider writes to the user's `profiles` row. */
  datatype ProfileUpdate =
    | XpAndLevel(expPoints: int, level: int)
    | CoinsAndFreezes(coins: int, streakFreezeCount: int)
    | ActiveTheme(themeId: string)
    | SubscriptionTier(tier: string)

  /** The purchase procedures called on the backend. */
  datatype PurchaseRpc =
    | PurchaseTheme(itemId: string, cost: int)
    | ActivateXpBoost(durationHours: int, cost: int)

  /** `isPremium` agrees with what the tier implies. */
  predicate PremiumMatchesTier(e: Economy) {
    e.isPremium == (e.tier != FreeTier)
  }

  /** `refreshUser`: nothing without a signed-in user; otherwise the fetched
      profile row (when the read returned one) replaces the profile fields with
      defaults for missing values, and the fetched inventory (when the read
      returned one) replaces the inventory. */
  function Refreshed(e: Economy, hasUser: bool, profile: Option<ProfileRow>,
                     items: Option<seq<string>>): (r: Economy)
    ensures r.showPremiumModal == e.showPremiumModal
    ensures hasUser && profile.Some? ==> PremiumMatchesTier(r) && r.activeTheme != "" && r.level != 0
    ensures !hasUser || profile.None? ==>
      r.(inventory := e.inventory) == e && (r.inventory == e.inventory || items.Some?)
  {
    if !hasUser then e
    else
      var e1 := match profile
        case None => e
        case Some(p) => e.(
          tier := p.subscriptionTier,
          coins := p.coins,
          streakFreezes := p.streakFreezeCount,
          xp := OrInt(p.expPoints, 0),
          level := OrInt(p.level, 1),
          activeTheme := OrText(p.activeTheme, DefaultTheme),
          xpBoostExpiresAt := p.xpBoostExpiresAt,
          isPremium := p.subscriptionTier != FreeTier);
      match items
      case None => e1
      case Some(ids) => e1.(inventory := ids)
  }

  /** `isBoostActive` at time `now`. */
  predicate BoostActive(expiresAt: Option<int>, now: int) {
    expiresAt.Some? && now < expiresAt.value
  }

  function Multiplier(boosted: bool): int {
    if boosted then 2 else 1
  }

  /** The level after reaching `newXp`: one more when the threshold of the
      current level is met, and never more than one. */
  function NextLevel(level: int, newXp: int): int {
    if newXp >= level * XpPerLevel then level + 1 else level
  }

  /** `awardXP(amount)` at time `now`: the new local state, and the update it
      writes to the backend (the write's result is not looked at). */
  function Awarded(e: Economy, amount: int, now: int): (r: (Economy, ProfileUpdate))
    ensures r.0 == e.(xp := r.0.xp, level := r.0.level)
    ensures r.1 == XpAndLevel(r.0.xp, r.0.level)
    ensures r.0.level == e.level || r.0.level == e.level + 1
    ensures amount >= 0 ==> r.0.xp >= e.xp + amount
  {
    var newXp := e.xp + amount * Multiplier(BoostActive(e.xpBoostExpiresAt, now));
    var newLevel := NextLevel(e.level, newXp);
    (e.(xp := newXp, level := newLevel), XpAndLevel(newXp, newLevel))
  }

  /** `buyTheme` and `buyBoost`: the result of the purchase call decides;
      only a successful purchase refreshes, and it reports success after the
      refresh. */
  function AfterPurchaseCall(e: Economy, hasUser: bool, reply: Reply<bool>,
                             profile: Option<ProfileRow>, items: Option<seq<string>>): (r: (bool, Economy))
    ensures r.0 <==> reply == Ok(true)
    ensures !r.0 ==> r.1 == e
  {
    if reply == Ok(true) then (true, Refreshed(e, hasUser, profile, items)) else (false, e)
  }

  /** `equipTheme`, given the result of its profile write. */
  function Equipped(e: Economy, themeId: string, reply: Reply<()>): (r: Economy)
    ensures r.(activeTheme := e.activeTheme) == e
    ensures reply.Ok? ==> r.activeTheme == themeId
    ensures reply.Error? ==> r == e
  {
    if reply.Ok? then e.(activeTheme := themeId) else e
  }

  /** `purchaseSubscription`, given the result of its profile write. */
  function Subscribed(e: Economy, newTier: string, reply: Reply<()>): (r: Economy)
    ensures reply.Error? ==> r == e
    ensures reply.Ok? ==> r.tier == newTier && r.isPremium && !r.showPremiumModal
    ensures r.coins == e.coins && r.xp == e.xp && r.level == e.level && r.inventory == e.inventory
    ensures r.activeTheme == e.activeTheme && r.xpBoostExpiresAt == e.xpBoostExpiresAt
  {
    if reply.Ok? then e.(tier := newTier, isPremium := true, showPremiumModal := false) else e
  }

  // ---------------------------------------------------------------------------
  // Properties

  /** Without a user nothing changes. With a profile row, `isPremium` is
      derived from the tier and missing values take their defaults; the boost
      expiry is copied (null stays null); with an inventory read, the owned ids
      are exactly the fetched ones. A read that returned nothing leaves its part
      of the state as it was. */
  lemma RefreshRules(e: Economy, hasUser: bool, profile: Option<ProfileRow>, items: Option<seq<string>>)
    ensures !hasUser ==> Refreshed(e, hasUser, profile, items) == e
    ensures var r := Refreshed(e, hasUser, profile, items);
      hasUser && profile.Some? ==>
        var p := profile.value;
        && r.tier == p.subscriptionTier && r.coins == p.coins && r.streakFreezes == p.streakFreezeCount
        && PremiumMatchesTier(r)
        && (p.expPoints.None? ==> r.xp == 0)
        && (p.expPoints.Some? ==> r.xp == p.expPoints.value)
        && (p.level.None? || p.level == Some(0) ==> r.level == 1)
        && (p.level.Some? && p.level.value != 0 ==> r.level == p.level.value)
        && (p.activeTheme.None? || p.activeTheme == Some("") ==> r.activeTheme == DefaultTheme)
        && (p.activeTheme.Some? && p.activeTheme.value != "" ==> r.activeTheme == p.activeTheme.value)
        && r.xpBoostExpiresAt == p.xpBoostExpiresAt
    ensures var r := Refreshed(e, hasUser, profile, items);
      hasUser && profile.None? ==>
        r.(inventory := e.inventory) == e
    ensures var r := Refreshed(e, hasUser, profile, items);
      hasUser && items.Some? ==> r.inventory == items.value
    ensures items.None? ==> Refreshed(e, hasUser, profile, items).inventory == e.inventory
  {
  }

  /** Refreshing twice with the same answers is refreshing once. */
  lemma RefreshIdempotent(e: Economy, hasUser: bool, profile: Option<ProfileRow>, items: Option<seq<string>>)
    ensures var r := Refreshed(e, hasUser, profile, items);
      Refreshed(r, hasUser, profile, items) == r
  {
  }

  /** A boost is active only before its expiry, and once it has lapsed it
      stays lapsed. */
  lemma BoostLapses(expiresAt: Option<int>, now: int, later: int)
    requires now <= later
    ensures BoostActive(expiresAt, later) ==> BoostActive(expiresAt, now)
    ensures BoostActive(expiresAt, now) <==> expiresAt.Some? && now < expiresAt.value
    ensures expiresAt.None? ==> !BoostActive(expiresAt, now)
  {
  }

  /** An award adds twice the amount while the boost is active and the amount
      otherwise; the same call with the boost active gains exactly twice what
      it gains without. */
  lemma BoostDoublesAward(e: Economy, amount: int, now: int)
    ensures Awarded(e, amount, now).0.xp - e.xp ==
      if BoostActive(e.xpBoostExpiresAt, now) then 2 * amount else amount
    ensures var boosted := e.(xpBoostExpiresAt := Some(now + 1));
      var plain := e.(xpBoostExpiresAt := None);
      Awarded(boosted, amount, now).0.xp - e.xp == 2 * (Awarded(plain, amount, now).0.xp - e.xp)
  {
  }

  /** The level rises by exactly one when the new XP meets the current
      level's threshold and stays otherwise, however far past the threshold the
      award goes; a non-negative award never lowers XP; only XP and level
      change, and the write carries exactly the new pair. */
  lemma AwardRules(e: Economy, amount: int, now: int)
    ensures var (r, write) := Awarded(e, amount, now);
      && (r.level == e.level + 1 <==> r.xp >= e.level * XpPerLevel)
      && (r.level == e.level <==> r.xp < e.level * XpPerLevel)
      && (amount >= 0 ==> r.xp >= e.xp)
      && r == e.(xp := r.xp, level := r.level)
      && write == XpAndLevel(r.xp, r.level)
  {
  }

  /** One short of the threshold plus an award of 2 is exactly one level up. */
  lemma ThresholdCrossedOnce(e: Economy, now: int)
    requires e.xp == e.level * XpPerLevel - 1
    ensures Awarded(e, 2, now).0.level == e.level + 1
  {
  }

  /** A purchase call reports success exactly when it returns true without an
      error; a failed one leaves the state untouched and a successful one leaves
      the refreshed state. */
  lemma PurchaseCallRules(e: Economy, hasUser: bool, reply: Reply<bool>,
                          profile: Option<ProfileRow>, items: Option<seq<string>>)
    ensures var (ok, r) := AfterPurchaseCall(e, hasUser, reply, profile, items);
      && (ok <==> reply.Ok? && reply.data)
      && (!ok ==> r == e)
      && (ok ==> r == Refreshed(e, hasUser, profile, items))
  {
  }

  /** Equipping changes nothing but the active theme, and that only when the
      write succeeds; the theme need not be owned. */
  lemma EquipRules(e: Economy, themeId: string, reply: Reply<()>)
    ensures reply.Error? ==> Equipped(e, themeId, reply) == e
    ensures reply.Ok? ==> Equipped(e, themeId, reply).activeTheme == themeId
    ensures Equipped(e, themeId, reply).(activeTheme := e.activeTheme) == e
  {
  }

  /** A subscription changes nothing when the write fails; when it succeeds
      the tier is the new one and the account is premium, whatever the tier. */
  lemma SubscribeRules(e: Economy, newTier: string, reply: Reply<()>)
    ensures reply.Error? ==> Subscribed(e, newTier, reply) == e
    ensures reply.Ok? ==>
      Subscribed(e, newTier, reply).tier == newTier && Subscribed(e, newTier, reply).isPremium
  {
  }

  /** Every operation keeps `isPremium` in line with the tier, except a
      successful subscription to the tier "free", which marks the account
      premium until the next refresh. */
  lemma PremiumMatchesTierKept(e: Economy, hasUser: bool, profile: Option<ProfileRow>,
                               items: Option<seq<string>>, amount: int, now: int,
                               themeId: string, newTier: string, write: Reply<()>, reply: Reply<bool>)
    requires PremiumMatchesTier(e)
    ensures PremiumMatchesTier(Refreshed(e, hasUser, profile, items))
    ensures PremiumMatchesTier(Awarded(e, amount, now).0)
    ensures PremiumMatchesTier(AfterPurchaseCall(e, hasUser, reply, profile, items).1)
    ensures PremiumMatchesTier(Equipped(e, themeId, write))
    ensures PremiumMatchesTier(Subscribed(e, newTier, write)) <==> write.Error? || newTier != FreeTier
  {
  }

  // ---------------------------------------------------------------------------
  // The provider

  class Provider {
    /** Whether the session has a user; the provider is mounted only for a
        signed-in session. */
    const hasUser: bool

    var isPremium: bool
    var tier: string
    var coins: int
    var streakFreezes: int
    var xp: int
    var level: int
    var inventory: seq<string>
    var activeTheme: string
    var xpBoostExpiresAt: Option<int>
    var showPremiumModal: bool

    function State(): Economy
      reads this
    {
      Economy(isPremium, tier, coins, streakFreezes, xp, level, inventory, activeTheme,
              xpBoostExpiresAt, showPremiumModal)
    }

    constructor (hasUser: bool)
      ensures this.hasUser == hasUser && State() == Initial
    {
      this.hasUser := hasUser;
      isPremium, tier := false, FreeTier;
      coins, streakFreezes, xp, level := 0, 0, 0, 1;
      inventory, activeTheme := [], DefaultTheme;
      xpBoostExpiresAt := None;
      showPremiumModal := false;
    }

    /** `refreshUser`, with what the profile read and the inventory read
        returned (None when a read returned no data). */
    method Refresh(profile: Option<ProfileRow>, items: Option<seq<string>>)
      modifies this
      ensures State() == Refreshed(old(State()), hasUser, profile, items)
    {
      if !hasUser {
        return;
      }
      if profile.Some? {
        var p := profile.value;
        tier := p.subscriptionTier;
        coins := p.coins;
        streakFreezes := p.streakFreezeCount;
        xp := OrInt(p.expPoints, 0);
        level := OrInt(p.level, 1);
        activeTheme := OrText(p.activeTheme, DefaultTheme);
        xpBoostExpiresAt := p.xpBoostExpiresAt;
        isPremium := p.subscriptionTier != FreeTier;
      }
      if items.Some? {
        inventory := items.value;
      }
    }

    function IsBoostActive(now: int): (active: bool)
      reads this
    {
      BoostActive(xpBoostExpiresAt, now)
    }

    method PurchaseSubscription(newTier: string, reply: Reply<()>) returns (write: ProfileUpdate)
      requires hasUser
      modifies this
      ensures write == SubscriptionTier(newTier)
      ensures State() == Subscribed(old(State()), newTier, reply)
    {
      write := SubscriptionTier(newTier);
      if reply.Ok? {
        tier := newTier;
        isPremium := true;
        showPremiumModal := false;
      }
    }

    /** `buyTheme(itemId, cost)`: the `purchase_theme` call, issued with no
        local funds check, then, on success, a refresh that completes before
        the result is returned. */
    method BuyTheme(itemId: string, cost: int, reply: Reply<bool>,
                    profile: Option<ProfileRow>, items: Option<seq<string>>) returns (ok: bool, call: PurchaseRpc)
      modifies this
      ensures call == PurchaseTheme(itemId, cost)
      ensures (ok, State()) == AfterPurchaseCall(old(State()), hasUser, reply, profile, items)
    {
      call := PurchaseTheme(itemId, cost);
      ok := PurchaseCall(reply, profile, items);
    }

    /** `buyBoost(durationHours, cost)`: the `activate_xp_boost` call, then
        the same handling as a theme purchase. */
    method BuyBoost(durationHours: int, cost: int, reply: Reply<bool>,
                    profile: Option<ProfileRow>, items: Option<seq<string>>) returns (ok: bool, call: PurchaseRpc)
      modifies this
      ensures call == ActivateXpBoost(durationHours, cost)
      ensures (ok, State()) == AfterPurchaseCall(old(State()), hasUser, reply, profile, items)
    {
      call := ActivateXpBoost(durationHours, cost);
      ok := PurchaseCall(reply, profile, items);
    }

    /** What `buyTheme` and `buyBoost` do with the purchase call's reply. */
    method PurchaseCall(reply: Reply<bool>, profile: Option<ProfileRow>, items: Option<seq<string>>)
      returns (ok: bool)
      modifies this
      ensures (ok, State()) == AfterPurchaseCall(old(State()), hasUser, reply, profile, items)
    {
      if reply.Error? {
        return false;
      }
      if !reply.data {
        return false;
      }
      Refresh(profile, items);
      ok := true;
    }

    /** `buyFreeze(cost)`: a local funds check, then a write of the debited
        balance and one more freeze. The local state is not touched: the
        refresh it starts is not awaited, and happens later as its own
        `Refresh`. Returns the result and the write it issued, if any. */
    method BuyFreeze(cost: int, reply: Reply<()>) returns (ok: bool, write: Option<ProfileUpdate>)
      requires coins >= cost ==> hasUser
      ensures coins < cost ==> !ok && write.None?
      ensures coins >= cost ==>
        write == Some(CoinsAndFreezes(coins - cost, streakFreezes + 1)) && (ok <==> reply.Ok?)
      ensures write.Some? ==> write.value.coins >= 0 && write.value.streakFreezeCount > streakFreezes
    {
      if coins < cost {
        return false, None;
      }
      write := Some(CoinsAndFreezes(coins - cost, streakFreezes + 1));
      ok := reply.Ok?;
    }

    /** `equipTheme(themeId)`, given the result of its profile write. */
    method EquipTheme(themeId: string, reply: Reply<()>) returns (write: ProfileUpdate)
      requires hasUser
      modifies this
      ensures write == ActiveTheme(themeId)
      ensures State() == Equipped(old(State()), themeId, reply)
    {
      write := ActiveTheme(themeId);
      if reply.Ok? {
        activeTheme := themeId;
      }
    }

    /** `awardXP(amount)` at time `now`. */
    method AwardXP(amount: int, now: int) returns (write: ProfileUpdate)
      requires hasUser
      modifies this
      ensures (State(), write) == Awarded(old(State()), amount, now)
    {
      var multiplier := if IsBoostActive(now) then 2 else 1;
      var newXp := xp + amount * multiplier;
      var newLevel := level;
      if newXp >= level * XpPerLevel {
        newLevel := newLevel + 1;
      }
      xp, level := newXp, newLevel;
      write := XpAndLevel(newXp, newLevel);
    }
  }
}
