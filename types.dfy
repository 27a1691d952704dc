/**
 * The records of the gift-card distribution wizard: a gift card, its delivery
 * method and recipient configuration, the wizard's application state and a
 * validation result. `null` and optional (`?`) fields are `Option`s.
 */
module Types {

  datatype Option<+T> = None | Some(value: T)

  /** The three delivery channels a card can be sent through. */
  datatype DeliveryMethod = Physical | Email | Sms

  /** A recipient snapshot; every field is optional. */
  datatype Recipient = Recipient(
    name: Option<string>,
    email: Option<string>,
    phone: Option<string>,
    message: Option<string>)

  /** Per-card form data entered in the configuration step. */
  datatype RecipientConfig = RecipientConfig(
    email: Option<string>,
    phone: Option<string>,
    name: Option<string>,
    message: Option<string>,
    scheduledDate: Option<string>,
    scheduledTime: Option<string>)

  /** The open bag of auxiliary UI fields (sendTime, motif, ...), keyed by name. */
  type CardDetails = map<string, string>

  datatype GiftCard = GiftCard(
    id: int,
    value: int,
    code: string,
    delivery: Option<DeliveryMethod>,
    recipient: Option<Recipient>,
    details: CardDetails,
    config: Option<RecipientConfig>)

  /** The wizard's single application state. */
  datatype AppState = AppState(
    currentStep: int,
    testCount: int,
    testValue: int,
    giftCards: seq<GiftCard>,
    termsAccepted: bool)

  datatype ValidationResult = ValidationResult(isValid: bool, errors: seq<string>)

  /** `Partial<AppState>`: a field is overwritten exactly when it is `Some`. */
  datatype StateUpdate = StateUpdate(
    currentStep: Option<int>,
    testCount: Option<int>,
    testValue: Option<int>,
    giftCards: Option<seq<GiftCard>>,
    termsAccepted: Option<bool>)

  /**
   * `Partial<GiftCard>`: a field is overwritten exactly when it is `Some`;
   * for a nullable field the new value may itself be `None` (null).
   */
  datatype CardUpdate = CardUpdate(
    id: Option<int>,
    value: Option<int>,
    code: Option<string>,
    delivery: Option<Option<DeliveryMethod>>,
    recipient: Option<Option<Recipient>>,
    details: Option<CardDetails>,
    config: Option<Option<RecipientConfig>>)

  const NoStateUpdate := StateUpdate(None, None, None, None, None)
  const NoCardUpdate := CardUpdate(None, None, None, None, None, None, None)

  /** The value a present update field gives, or the current one. */
  function Pick<T>(update: Option<T>, current: T): T {
    match update
    case Some(v) => v
    case None => current
  }
}
