/**
 * The gift card step of the wizard: creating the test batch, choosing a
 * delivery method for one card or for all of them, the per-method counts
 * with the continue button they enable, and the display record of a method.
 */
module GiftCardManager {
  import opened Types
  import opened Utils
  import opened Validation
  import opened Store

  /** initializeGiftCards: replace the card list with a fresh test batch, in one update. */
  method InitializeGiftCards(store: DistributionState, count: int, value: int)
    requires store.Valid()
    modifies store
    ensures store.Valid() && store.listeners == old(store.listeners)
    ensures store.state == old(store.state).(giftCards := GenerateTestGiftCards(count, value))
    ensures store.delivered == old(store.delivered) + Round(store.listeners, store.state)
  {
    var giftCards := GenerateTestGiftCards(count, value);
    store.SetState(NoStateUpdate.(giftCards := Some(giftCards)));
  }

  /** The partial card update `{ method }`. */
  function MethodUpdate(m: DeliveryMethod): CardUpdate {
    NoCardUpdate.(delivery := Some(Some(m)))
  }

  /**
   * selectMethod: the cards with the id get the method, through one card
   * update; the counts refreshed afterwards only read the store.
   */
  method SelectMethod(store: DistributionState, cardId: int, m: DeliveryMethod)
    requires store.Valid()
    modifies store
    ensures store.Valid() && store.listeners == old(store.listeners)
    ensures store.state == old(store.state).(giftCards := UpdateCards(old(store.state.giftCards), cardId, MethodUpdate(m)))
    ensures store.delivered == old(store.delivered) + Round(store.listeners, store.state)
  {
    store.UpdateGiftCard(cardId, MethodUpdate(m));
    var _ := UpdateMethodCounts(store);
  }

  /** Choosing a method for one card changes that field of the cards with the id and nothing else. */
  lemma SelectMethodChangesOnlyMethod(cards: seq<GiftCard>, cardId: int, m: DeliveryMethod, i: int)
    requires 0 <= i < |cards|
    ensures |UpdateCards(cards, cardId, MethodUpdate(m))| == |cards|
    ensures UpdateCards(cards, cardId, MethodUpdate(m))[i] ==
      if cards[i].id == cardId then cards[i].(delivery := Some(m)) else cards[i]
  {
    UpdateCardsFrame(cards, cardId, MethodUpdate(m), i);
  }

  /** `cards.map(card => ({ ...card, method }))`. */
  function WithMethod(cards: seq<GiftCard>, m: DeliveryMethod): seq<GiftCard> {
    seq(|cards|, i requires 0 <= i < |cards| => cards[i].(delivery := Some(m)))
  }

  /** selectAllMethod: every card gets the method in a single update, so one notification however many cards there are. */
  method SelectAllMethod(store: DistributionState, m: DeliveryMethod)
    requires store.Valid()
    modifies store
    ensures store.Valid() && store.listeners == old(store.listeners)
    ensures store.state == old(store.state).(giftCards := WithMethod(old(store.state.giftCards), m))
    ensures store.delivered == old(store.delivered) + Round(store.listeners, store.state)
    ensures |store.delivered| == |old(store.delivered)| + |store.listeners|
  {
    var state := store.GetState();
    var updatedCards := WithMethod(state.giftCards, m);
    store.SetState(NoStateUpdate.(giftCards := Some(updatedCards)));
    var _ := UpdateMethodCounts(store);
  }

  /**
   * Choosing a method for all cards keeps the list's length and order and
   * every field but the method, is idempotent, and leaves a selection exactly
   * when there is a card.
   */
  lemma WithMethodProperties(cards: seq<GiftCard>, m: DeliveryMethod)
    ensures |WithMethod(cards, m)| == |cards|
    ensures forall i | 0 <= i < |cards| ::
      var c := WithMethod(cards, m)[i];
      c.delivery == Some(m) && c.id == cards[i].id && c.value == cards[i].value && c.code == cards[i].code &&
      c.recipient == cards[i].recipient && c.details == cards[i].details && c.config == cards[i].config
    ensures WithMethod(WithMethod(cards, m), m) == WithMethod(cards, m)
    ensures HasSelection(WithMethod(cards, m)) <==> cards != []
  {
    if cards != [] {
      assert WithMethod(cards, m)[0].delivery.Some?;
    }
  }

  /** After choosing a method for all cards, its group holds every card and the other groups are empty. */
  lemma {:induction false} WithMethodGroups(cards: seq<GiftCard>, m: DeliveryMethod, key: string)
    ensures key == MethodName(m) ==> CardsWithKey(WithMethod(cards, m), key) == WithMethod(cards, m)
    ensures key != MethodName(m) ==> CardsWithKey(WithMethod(cards, m), key) == []
    decreases |cards|
  {
    if cards != [] {
      var init, last := cards[..|cards| - 1], cards[|cards| - 1];
      assert WithMethod(cards, m) == WithMethod(init, m) + [last.(delivery := Some(m))];
      WithMethodGroups(init, m, key);
      CardsWithKeyAppend(WithMethod(init, m), last.(delivery := Some(m)), key);
    }
  }

  // ---------------------------------------------------------------------------
  // updateMethodCounts and updateContinueButtonState
  // ---------------------------------------------------------------------------

  datatype MethodCounts = MethodCounts(physical: nat, email: nat, sms: nat, unselected: nat)

  /** A group holds every card exactly when every card has that group's key. */
  lemma {:induction false} GroupIsAll(cards: seq<GiftCard>, key: string)
    ensures |CardsWithKey(cards, key)| == |cards| <==> forall c | c in cards :: MethodKey(c) == key
    decreases |cards|
  {
    if cards != [] {
      var init, last := cards[..|cards| - 1], cards[|cards| - 1];
      assert cards == init + [last];
      GroupIsAll(init, key);
    }
  }

  /**
   * Every card is unselected exactly when none has a method, and no card is
   * unselected exactly when every card has one.
   */
  lemma UnselectedCount(cards: seq<GiftCard>)
    ensures |CardsWithKey(cards, UnselectedKey)| == |cards| <==> !HasSelection(cards)
    ensures CardsWithKey(cards, UnselectedKey) == [] <==> forall c | c in cards :: c.delivery.Some?
  {
    GroupIsAll(cards, UnselectedKey);
    forall c | c in cards
      ensures MethodKey(c) == UnselectedKey <==> c.delivery.None?
    {
      if c.delivery.Some? {
        assert MethodName(c.delivery.value) != UnselectedKey;
      }
    }
    if HasSelection(cards) {
      var k :| 0 <= k < |cards| && cards[k].delivery.Some?;
      assert cards[k] in cards;
    }
    forall c ensures c in CardsWithKey(cards, UnselectedKey) <==> c in cards && c.delivery.None? {
      CardsWithKeyMembers(cards, UnselectedKey, c);
    }
    if CardsWithKey(cards, UnselectedKey) != [] {
      assert CardsWithKey(cards, UnselectedKey)[0] in CardsWithKey(cards, UnselectedKey);
    }
  }

  /**
   * The count logic of updateMethodCounts: each count is the size of its
   * group (0 for an absent group); the four add up to the number of cards, and
   * the three method counts are all 0 exactly when no card has a method.
   */
  method UpdateMethodCounts(store: DistributionState) returns (counts: MethodCounts)
    ensures counts.physical == |CardsWithKey(store.state.giftCards, "physical")|
    ensures counts.email == |CardsWithKey(store.state.giftCards, "email")|
    ensures counts.sms == |CardsWithKey(store.state.giftCards, "sms")|
    ensures counts.unselected == |CardsWithKey(store.state.giftCards, UnselectedKey)|
    ensures counts.physical + counts.email + counts.sms + counts.unselected == |store.state.giftCards|
    ensures counts.physical + counts.email + counts.sms == 0 <==> !HasSelection(store.state.giftCards)
  {
    var state := store.GetState();
    var grouped := GroupGiftCardsByMethod(state.giftCards);
    counts := MethodCounts(
      GroupSize(grouped, "physical"),
      GroupSize(grouped, "email"),
      GroupSize(grouped, "sms"),
      GroupSize(grouped, UnselectedKey));
    GroupSizesSum(state.giftCards);
    UnselectedCount(state.giftCards);
  }

  /** updateContinueButtonState: the button is disabled exactly when the step-1 gate is closed. */
  method ContinueButtonDisabled(store: DistributionState) returns (disabled: bool)
    ensures disabled <==> !CanProceedToNextStep(1, store.state.giftCards)
    ensures disabled <==> forall c | c in store.state.giftCards :: c.delivery.None?
  {
    var state := store.GetState();
    disabled := !HasSelection(state.giftCards);
    if !disabled {
      var k :| 0 <= k < |state.giftCards| && state.giftCards[k].delivery.Some?;
      assert state.giftCards[k] in state.giftCards;
    }
  }

  // ---------------------------------------------------------------------------
  // getMethodConfig
  // ---------------------------------------------------------------------------

  /** Which icon a display record carries: one per delivery method, none for the fallback. */
  datatype Icon = PhysicalIcon | EmailIcon | SmsIcon | NoIcon

  /** How a delivery method is shown: its icon, its label and its colour classes. */
  datatype MethodConfig = MethodConfig(icon: Icon, name: string, textColor: string, bgColor: string)

  const PhysicalConfig := MethodConfig(PhysicalIcon, "Fysisk", "text-orange-700", "bg-orange-50 border-2 border-orange-300")
  const EmailConfig := MethodConfig(EmailIcon, "E-post", "text-blue-700", "bg-blue-50 border-2 border-blue-300")
  const SmsConfig := MethodConfig(SmsIcon, "SMS", "text-green-700", "bg-green-50 border-2 border-green-300")
  const UnknownConfig := MethodConfig(NoIcon, "Ukjent", "text-gray-500", "bg-gray-50 border border-gray-200")

  /** The keys of the lookup table: its own properties. */
  const ConfigKeys: set<string> := {"physical", "email", "sms"}

  /** The properties every plain JavaScript object inherits from `Object.prototype`. */
  const ObjectPrototypeKeys: set<string> := {
    "constructor", "hasOwnProperty", "isPrototypeOf", "propertyIsEnumerable",
    "toString", "toLocaleString", "valueOf", "__proto__",
    "__defineGetter__", "__defineSetter__", "__lookupGetter__", "__lookupSetter__"}

  /** What indexing the object literal yields: one of its own records, or an inherited member (a function, or `Object.prototype` itself). */
  datatype Lookup = OwnRecord(config: MethodConfig) | InheritedMember(key: string)

  /**
   * getMethodConfig as written: `configs[method] || fallback`. An inherited
   * member is truthy, so for those keys the fallback is not taken and the
   * caller gets something that is not a display record.
   */
  function GetMethodConfigAsWritten(key: string): (r: Lookup)
    ensures r.InheritedMember? <==> key in ObjectPrototypeKeys
  {
    if key == "physical" then OwnRecord(PhysicalConfig)
    else if key == "email" then OwnRecord(EmailConfig)
    else if key == "sms" then OwnRecord(SmsConfig)
    else if key in ObjectPrototypeKeys then InheritedMember(key)
    else OwnRecord(UnknownConfig)
  }

  /** The as-written lookup hands back no display record for the key "toString". */
  lemma AsWrittenLeaksInheritedMember()
    ensures GetMethodConfigAsWritten("toString") == InheritedMember("toString")
    ensures !GetMethodConfigAsWritten("toString").OwnRecord?
  {
  }

  /**
   * getMethodConfig with an own-property lookup: the fixed record for the three
   * methods, and the "Ukjent" fallback for every other string.
   */
  function GetMethodConfig(key: string): (config: MethodConfig)
    ensures config.name == UnknownConfig.name <==> key !in ConfigKeys
    ensures key !in ConfigKeys ==> config == UnknownConfig
  {
    if key == "physical" then PhysicalConfig
    else if key == "email" then EmailConfig
    else if key == "sms" then SmsConfig
    else UnknownConfig
  }

  /**
   * The corrected lookup agrees with the one as written on every key that is
   * not inherited from `Object.prototype`; every delivery method has its own
   * record, and no two methods share one.
   */
  lemma GetMethodConfigAgrees(key: string, a: DeliveryMethod, b: DeliveryMethod)
    ensures key !in ObjectPrototypeKeys ==> GetMethodConfigAsWritten(key) == OwnRecord(GetMethodConfig(key))
    ensures GetMethodConfig(MethodName(a)) != UnknownConfig
    ensures GetMethodConfig(MethodName(a)) == GetMethodConfig(MethodName(b)) ==> a == b
  {
  }
}
