/** The item store: the catalogue, the button each item card shows, the
    client-side checks before the confirmation popover opens, and the
    popover's Buy button, which runs the item's handler on the provider. */
module Marketplace {
  import opened Remote
  import opened Monetization

  datatype Kind = Powerup | Theme | Sound | Boost

  /** What an item's `handler` does when the popover's Buy button runs it. */
  datatype Handler =
    | FreezeHandler(cost: int)                 // buyFreeze(cost)
    | ThemeHandler(itemId: string, cost: int)  // buyTheme(itemId, cost)
    | ComingSoon                               // toast("Coming soon!")
    | BoostHandler(hours: int, cost: int)      // buyBoost(hours, cost)

  datatype Item = Item(id: string, name: string, cost: int, kind: Kind, premiumOnly: bool, handler: Handler)

  const Items: seq<Item> := [
    Item("freeze_1", "Streak Freeze", 50, Powerup, false, FreezeHandler(50)),
    Item("theme_gold", "Midas Touch", 500, Theme, true, ThemeHandler("theme_gold", 500)),
    Item("sound_pack_rain", "Rainy Lo-Fi", 200, Sound, false, ComingSoon),
    Item("xp_boost_1h", "2x XP Boost", 150, Boost, false, BoostHandler(1, 150))
  ]

  datatype Label = ActiveLabel | EquipLabel | BuyLabel

  /** What clicking the button does. */
  datatype Action = NoAction | EquipAction(themeId: string) | ConfirmAction

  datatype ButtonState = ButtonState(text: Label, disabled: bool, action: Action)

  /** `getButtonState(item)`. */
  function ButtonFor(item: Item, inventory: seq<string>, activeTheme: string, boostActive: bool): (b: ButtonState)
    ensures b.disabled <==> b.text == ActiveLabel
    ensures b.disabled ==> b.action == NoAction
    ensures b.text == BuyLabel <==> b.action == ConfirmAction
    ensures b.action.EquipAction? ==> item.kind == Theme && b.action.themeId == item.id && item.id in inventory
  {
    if item.kind == Theme then
      if activeTheme == item.id then ButtonState(ActiveLabel, true, NoAction)
      else if item.id in inventory then ButtonState(EquipLabel, false, EquipAction(item.id))
      else ButtonState(BuyLabel, false, ConfirmAction)
    else if item.kind == Boost then
      if boostActive then ButtonState(ActiveLabel, true, NoAction)
      else ButtonState(BuyLabel, false, ConfirmAction)
    else ButtonState(BuyLabel, false, ConfirmAction)
  }

  /** Outcome of `confirmPurchase(item)`. */
  datatype Gate = PremiumRequired | InsufficientFunds(shortfall: int) | Confirm

  /** The checks of `confirmPurchase`, in their order: membership first, then
      the balance the client knows. */
  function PurchaseGate(item: Item, isPremium: bool, coins: int): (g: Gate)
    ensures g == Confirm ==> (!item.premiumOnly || isPremium) && item.cost <= coins
    ensures g.InsufficientFunds? ==> g.shortfall == item.cost - coins > 0
    ensures g == PremiumRequired ==> item.premiumOnly && !isPremium
  {
    if item.premiumOnly && !isPremium then PremiumRequired
    else if item.cost > coins then InsufficientFunds(item.cost - coins)
    else Confirm
  }

  /** What a handler's promise resolves to: a purchase result, or, for the
      placeholder, the return value of the toast call, which is the new
      toast's id. */
  datatype HandlerResult = Flag(ok: bool) | ToastId(id: string)

  /** JavaScript truthiness of a handler's result. */
  predicate Truthy(r: HandlerResult) {
    match r
    case Flag(b) => b
    case ToastId(id) => id != ""
  }

  /** The placeholder's result as written: the handler is an arrow function
      whose body is the toast call, so it resolves to the toast's id. */
  function ComingSoonResultAsWritten(toastId: string): HandlerResult {
    ToastId(toastId)
  }

  /** The placeholder's result as evidently intended: nothing was bought. */
  function ComingSoonResult(): HandlerResult {
    Flag(false)
  }

  // ---------------------------------------------------------------------------
  // Properties

  /** Four items costing 50, 500, 200 and 150 coins, with distinct ids; only
      the gold theme is for members only, and each handler charges what its
      card shows. */
  lemma CatalogueFacts()
    ensures |Items| == 4
    ensures Items[0].cost == 50 && Items[1].cost == 500 && Items[2].cost == 200 && Items[3].cost == 150
    ensures forall i :: 0 <= i < |Items| ==> (Items[i].premiumOnly <==> Items[i].id == "theme_gold")
    ensures forall i, j :: 0 <= i < j < |Items| ==> Items[i].id != Items[j].id
    ensures forall i :: 0 <= i < |Items| && !Items[i].handler.ComingSoon? ==> Items[i].handler.cost == Items[i].cost
  {
  }

  /** A theme's button reads "Active" (disabled, no action) exactly when it is
      the active theme; otherwise "Equip" exactly when it is owned, else "Buy".
      So equipping is offered only for owned themes. */
  lemma ThemeButton(item: Item, inventory: seq<string>, activeTheme: string, boostActive: bool)
    requires item.kind == Theme
    ensures var b := ButtonFor(item, inventory, activeTheme, boostActive);
      && (b.text == ActiveLabel <==> activeTheme == item.id)
      && (b.text == ActiveLabel ==> b.disabled && b.action == NoAction)
      && (b.text == EquipLabel <==> activeTheme != item.id && item.id in inventory)
      && (b.text == BuyLabel <==> activeTheme != item.id && item.id !in inventory)
      && (b.action.EquipAction? ==> b.action.themeId == item.id && item.id in inventory)
  {
  }

  /** The boost's button is disabled as "Active" exactly while a boost runs;
      every other item that is not a theme always offers "Buy". */
  lemma OtherButtons(item: Item, inventory: seq<string>, activeTheme: string, boostActive: bool)
    requires item.kind != Theme
    ensures var b := ButtonFor(item, inventory, activeTheme, boostActive);
      && (b.disabled <==> item.kind == Boost && boostActive)
      && (b.disabled ==> b.text == ActiveLabel && b.action == NoAction)
      && (!b.disabled ==> b == ButtonState(BuyLabel, false, ConfirmAction))
  {
  }

  /** The membership check comes before the funds check: a members-only item
      is refused to a free account whatever its balance; a refusal for funds
      names a positive shortfall; the popover may open only when both pass. */
  lemma GateOrder(item: Item, isPremium: bool, coins: int)
    ensures item.premiumOnly && !isPremium ==> PurchaseGate(item, isPremium, coins) == PremiumRequired
    ensures PurchaseGate(item, isPremium, coins).InsufficientFunds? ==>
      PurchaseGate(item, isPremium, coins).shortfall > 0 && item.cost > coins
    ensures PurchaseGate(item, isPremium, coins) == Confirm <==>
      (!item.premiumOnly || isPremium) && item.cost <= coins
  {
  }

  /** As written, the placeholder's Buy resolves to a toast id, which is
      truthy, so a purchase of the sound pack is reported although nothing
      was bought. */
  lemma ComingSoonReportedAsPurchase(toastId: string)
    requires toastId != ""
    ensures Truthy(ComingSoonResultAsWritten(toastId))
  {
  }

  // ---------------------------------------------------------------------------
  // The store component

  class Store {
    const provider: Provider

    /** The confirmation popover: open with the item it holds, or closed. */
    var confirming: Option<Item>

    constructor (provider: Provider)
      ensures this.provider == provider && confirming == None
    {
      this.provider := provider;
      confirming := None;
    }

    /** `confirmPurchase(item)`: opens the popover holding the item when both
        checks pass, and leaves it as it was otherwise. */
    method ConfirmPurchase(item: Item) returns (gate: Gate)
      modifies this
      ensures gate == PurchaseGate(item, provider.isPremium, provider.coins)
      ensures confirming == if gate == Confirm then Some(item) else old(confirming)
    {
      if item.premiumOnly && !provider.isPremium {
        return PremiumRequired;
      }
      if item.cost > provider.coins {
        return InsufficientFunds(item.cost - provider.coins);
      }
      confirming := Some(item);
      gate := Confirm;
    }

    /** A click on an item card's button at time `now`: the action its
        button state offers, with the equip write's result for an equip. */
    method ClickItem(item: Item, now: int, equipReply: Reply<()>) returns (gate: Option<Gate>)
      requires provider.hasUser
      modifies this, provider
      ensures var b := ButtonFor(item, old(provider.inventory), old(provider.activeTheme),
                                 BoostActive(old(provider.xpBoostExpiresAt), now));
        && (b.action == NoAction ==>
              gate.None? && confirming == old(confirming) && provider.State() == old(provider.State()))
        && (b.action.EquipAction? ==>
              gate.None? && confirming == old(confirming)
              && provider.State() == Equipped(old(provider.State()), item.id, equipReply))
        && (b.action == ConfirmAction ==>
              gate == Some(PurchaseGate(item, old(provider.isPremium), old(provider.coins)))
              && confirming == (if gate == Some(Confirm) then Some(item) else old(confirming))
              && provider.State() == old(provider.State()))
    {
      var b := ButtonFor(item, provider.inventory, provider.activeTheme, provider.IsBoostActive(now));
      match b.action {
        case NoAction =>
          gate := None;
        case EquipAction(themeId) =>
          var _ := provider.EquipTheme(themeId, equipReply);
          gate := None;
        case ConfirmAction =>
          var g := ConfirmPurchase(item);
          gate := Some(g);
      }
    }

    /** The popover's Cancel button or its backdrop. */
    method Dismiss()
      modifies this
      ensures confirming == None
    {
      confirming := None;
    }

    /** The popover's Buy button: it closes the popover first, then runs the
        held item's handler with the backend's answers, and shows the success
        toast when the handler's result is truthy. The placeholder resolves
        to a falsy result here (see `ComingSoonResultAsWritten`), so a success
        toast means a purchase went through. */
    method Buy(writeReply: Reply<()>, callReply: Reply<bool>,
               profile: Option<ProfileRow>, items: Option<seq<string>>) returns (successToast: bool)
      requires confirming.Some?
      requires var h := confirming.value.handler; h.FreezeHandler? && provider.coins >= h.cost ==> provider.hasUser
      modifies this, provider
      ensures confirming == None
      ensures var h := old(confirming).value.handler;
        && (h.FreezeHandler? ==>
              provider.State() == old(provider.State())
              && (successToast <==> old(provider.coins) >= h.cost && writeReply.Ok?))
        && ((h.ThemeHandler? || h.BoostHandler?) ==>
              (successToast, provider.State()) ==
                AfterPurchaseCall(old(provider.State()), provider.hasUser, callReply, profile, items))
        && (h.ComingSoon? ==> !successToast && provider.State() == old(provider.State()))
    {
      var item := confirming.value;
      confirming := None;
      var result: HandlerResult;
      match item.handler {
        case FreezeHandler(cost) =>
          var ok, _ := provider.BuyFreeze(cost, writeReply);
          result := Flag(ok);
        case ThemeHandler(itemId, cost) =>
          var ok, _ := provider.BuyTheme(itemId, cost, callReply, profile, items);
          result := Flag(ok);
        case BoostHandler(hours, cost) =>
          var ok, _ := provider.BuyBoost(hours, cost, callReply, profile, items);
          result := Flag(ok);
        case ComingSoon =>
          result := ComingSoonResult();
      }
      successToast := Truthy(result);
    }
  }
}
