/**
 * The upgrade page: three plans with a monthly and a yearly price, the plan
 * the signed-in user is on, which card is marked current and has its button
 * disabled, and the price, unit and savings texts each card shows for the
 * selected billing cycle.
 */
module Plans {
  import opened Wrappers

  datatype PlanKey = Free | Premium | Pro

  datatype Cycle = Monthly | Yearly

  datatype Price = Price(monthly: nat, yearly: nat)

  datatype PlanInfo = PlanInfo(name: string, price: Price, popular: bool)

  /** The `plans` table. */
  function PlanOf(key: PlanKey): PlanInfo {
    match key
    case Free => PlanInfo("Free", Price(0, 0), false)
    case Premium => PlanInfo("Premium", Price(29, 290), true)
    case Pro => PlanInfo("Professional", Price(99, 990), false)
  }

  /** `plans[key].price[cycle]`. */
  function TablePrice(key: PlanKey, cycle: Cycle): (amount: nat)
    ensures cycle == Monthly ==> amount == PlanOf(key).price.monthly
    ensures cycle == Yearly ==> amount == PlanOf(key).price.yearly
  {
    match cycle
    case Monthly => PlanOf(key).price.monthly
    case Yearly => PlanOf(key).price.yearly
  }

  /** The tier name stored in a profile for each plan. */
  function TierName(key: PlanKey): string {
    match key
    case Free => "free"
    case Premium => "premium"
    case Pro => "pro"
  }

  /** `userProfile?.subscription_tier || 'free'`: a missing profile or tier, or an empty one, is the free plan. */
  function CurrentPlan(tier: Option<string>): (current: string)
    ensures current != ""
    ensures tier.None? || tier.value == "" ==> current == "free"
    ensures tier.Some? && tier.value != "" ==> current == tier.value
  {
    if tier.Some? && tier.value != "" then tier.value else "free"
  }

  /**
   * A card is marked "Current Plan", and its button disabled, exactly when the
   * current plan is its tier; so at most one card is ever current.
   */
  function IsCurrent(current: string, key: PlanKey): (disabled: bool)
    ensures disabled ==> forall other :: other != key ==> current != TierName(other)
  {
    current == TierName(key)
  }

  /**
   * Each card compares the current plan with its own tier literal, so a card
   * is disabled exactly when the user is on that tier, and a user on a known
   * tier sees exactly that one card disabled.
   */
  lemma DisabledExactlyOnOwnTier(current: string, key: PlanKey)
    ensures IsCurrent(current, Free) <==> current == "free"
    ensures IsCurrent(current, Premium) <==> current == "premium"
    ensures IsCurrent(current, Pro) <==> current == "pro"
    ensures forall tier :: IsCurrent(TierName(tier), key) <==> tier == key
  {
    forall tier
      ensures IsCurrent(TierName(tier), key) <==> tier == key
    {
      if tier != key {
        assert TierName(tier) != TierName(key) by {
          assert TierName(tier)[0] != TierName(key)[0] || |TierName(tier)| != |TierName(key)|;
        }
      }
    }
  }

  /** The text on each card's button. */
  function ButtonLabel(current: string, key: PlanKey): (caption: string)
    ensures caption == "Current Plan" <==> IsCurrent(current, key)
    ensures !IsCurrent(current, key) && key == Free ==> caption == "Downgrade"
    ensures !IsCurrent(current, key) && key == Premium ==> caption == "Upgrade to Premium"
    ensures !IsCurrent(current, key) && key == Pro ==> caption == "Upgrade to Pro"
  {
    if IsCurrent(current, key) then "Current Plan"
    else match key
      case Free => "Downgrade"
      case Premium => "Upgrade to Premium"
      case Pro => "Upgrade to Pro"
  }

  /** The price a card shows: the free card always shows $0, the paid cards look the cycle up in the table. */
  function DisplayedPrice(key: PlanKey, cycle: Cycle): (amount: nat)
    ensures key == Free ==> amount == 0
    ensures key != Free ==> amount == TablePrice(key, cycle)
  {
    if key == Free then 0 else TablePrice(key, cycle)
  }

  /** The unit after the price: the free card always says "month", the paid cards follow the cycle. */
  function UnitLabel(key: PlanKey, cycle: Cycle): (unit: string)
    ensures unit == "month" || unit == "year"
    ensures unit == "year" <==> key != Free && cycle.Yearly?
  {
    if key == Free || cycle == Monthly then "month" else "year"
  }

  /** The hard-coded "Save $N/year" line, shown on the paid cards in the yearly cycle only. */
  function SavingsShown(key: PlanKey, cycle: Cycle): (saving: Option<nat>)
    ensures saving.Some? <==> key != Free && cycle.Yearly?
  {
    match (key, cycle)
    case (Premium, Yearly) => Some(58)
    case (Pro, Yearly) => Some(198)
    case _ => None
  }

  /** Round half up, as `Math.round` does for the non-negative ratio `num / den`. */
  function RoundedRatio(num: nat, den: nat): (r: nat)
    requires den > 0
    ensures 2 * den * r <= 2 * num + den < 2 * den * (r + 1)
  {
    (2 * num + den) / (2 * den)
  }

  /** The toggle's "Save 17%" badge, a single figure for both paid plans. */
  const AdvertisedDiscountPercent: nat := 17

  // ---------------------------------------------------------------------------
  // Properties
  // ---------------------------------------------------------------------------

  /** The displayed prices: premium 29 or 290, pro 99 or 990, and the free card's $0 agrees with the table in both cycles. */
  lemma DisplayedPrices()
    ensures DisplayedPrice(Premium, Monthly) == 29 && DisplayedPrice(Premium, Yearly) == 290
    ensures DisplayedPrice(Pro, Monthly) == 99 && DisplayedPrice(Pro, Yearly) == 990
    ensures forall cycle :: DisplayedPrice(Free, cycle) == TablePrice(Free, cycle) == 0
  {
  }

  /** The yearly price of every plan is below twelve monthly payments, or both are zero. */
  lemma {:induction false} YearlyNeverCostsMore(key: PlanKey)
    ensures TablePrice(key, Yearly) <= 12 * TablePrice(key, Monthly)
    ensures key != Free ==> TablePrice(key, Yearly) < 12 * TablePrice(key, Monthly)
  {
  }

  /** Each savings line is twelve monthly payments less the yearly price. */
  lemma {:induction false} SavingsMatchTable(key: PlanKey)
    requires key != Free
    ensures SavingsShown(key, Yearly) == Some(12 * TablePrice(key, Monthly) - TablePrice(key, Yearly))
  {
  }

  /** "Save 17%" is the rounded yearly discount of both paid plans. */
  lemma {:induction false} AdvertisedDiscountIsRounded(key: PlanKey)
    requires key != Free
    ensures var full := 12 * TablePrice(key, Monthly);
      RoundedRatio(100 * (full - TablePrice(key, Yearly)), full) == AdvertisedDiscountPercent
  {
    match key
    case Premium =>
      assert RoundedRatio(5800, 348) == 17;
    case Pro =>
      assert RoundedRatio(19800, 1188) == 17;
  }

  /** No tier on record means the free card is the current one and the only disabled button. */
  lemma NoTierMeansFree(tier: Option<string>)
    requires tier.None? || tier.value == ""
    ensures IsCurrent(CurrentPlan(tier), Free)
    ensures !IsCurrent(CurrentPlan(tier), Premium) && !IsCurrent(CurrentPlan(tier), Pro)
  {
  }

  /** A tier that names none of the three plans marks no card current and leaves every button enabled. */
  lemma UnknownTierEnablesEveryButton(tier: string)
    requires tier != "" && tier != "free" && tier != "premium" && tier != "pro"
    ensures forall key :: !IsCurrent(CurrentPlan(Some(tier)), key)
    ensures ButtonLabel(CurrentPlan(Some(tier)), Free) == "Downgrade"
  {
  }
}
