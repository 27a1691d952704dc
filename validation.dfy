/**
 * The wizard's validation layer: the per-card check with its message-length
 * rule, the batch check that prefixes each failing card's errors with its id,
 * the as-you-type input check, and the gate that decides whether the wizard
 * may leave a step.
 */
module Validation {
  import opened Types
  import opened Strings
  import opened Utils

  const MessageTooLong := "Melding kan ikke være lengre enn 500 tegn"
  const MaxMessageLength := 500

  function ConfigMessage(card: GiftCard): Option<string> {
    if card.config.Some? then card.config.value.message else None
  }

  /** `card.config?.message && card.config.message.length > 500`. */
  predicate MessageTooLongFor(card: GiftCard) {
    HasText(ConfigMessage(card)) && |ConfigMessage(card).value| > MaxMessageLength
  }

  /** The errors validateCardConfiguration reports for a card, in the order it pushes them. */
  function CardErrors(card: GiftCard): seq<string> {
    if card.delivery.None? then [MethodRequired]
    else ContactErrors(card) + (if MessageTooLongFor(card) then [MessageTooLong] else [])
  }

  /**
   * validateCardConfiguration: the method error alone when no method is
   * chosen; otherwise the contact error, then the length error.
   */
  method ValidateCardConfiguration(card: GiftCard) returns (result: ValidationResult)
    ensures result.errors == CardErrors(card)
    ensures result.isValid <==> result.errors == []
  {
    var errors: seq<string> := [];
    if card.delivery.None? {
      errors := errors + [MethodRequired];
      return ValidationResult(false, errors);
    }
    match card.delivery.value {
      case Email =>
        if !HasText(ConfigEmail(card)) {
          errors := errors + [EmailRequired];
        } else if !ValidateEmail(ConfigEmail(card).value) {
          errors := errors + [EmailInvalid];
        }
      case Sms =>
        if !HasText(ConfigPhone(card)) {
          errors := errors + [PhoneRequired];
        } else if !ValidatePhone(ConfigPhone(card).value) {
          errors := errors + [PhoneInvalid];
        }
      case Physical =>
    }
    if MessageTooLongFor(card) {
      errors := errors + [MessageTooLong];
    }
    result := ValidationResult(|errors| == 0, errors);
  }

  /**
   * What a card's error list can be: the method error alone, or at most one
   * contact error followed by at most one length error, the length error
   * exactly when the message is over-long, and never a contact error for a
   * physical card.
   */
  lemma CardErrorsShape(card: GiftCard)
    ensures |CardErrors(card)| <= 2
    ensures card.delivery.None? ==> CardErrors(card) == [MethodRequired]
    ensures card.delivery.Some? ==>
      (MessageTooLong in CardErrors(card) <==> MessageTooLongFor(card)) &&
      (MessageTooLongFor(card) ==> CardErrors(card)[|CardErrors(card)| - 1] == MessageTooLong) &&
      MethodRequired !in CardErrors(card)
    ensures card.delivery == Some(Physical) ==>
      CardErrors(card) == (if MessageTooLongFor(card) then [MessageTooLong] else [])
    ensures !(EmailRequired in CardErrors(card) && EmailInvalid in CardErrors(card))
    ensures !(PhoneRequired in CardErrors(card) && PhoneInvalid in CardErrors(card))
  {
    var contact := ContactErrors(card);
    assert |contact| <= 1;
    if card.delivery.Some? {
      assert forall e | e in contact :: e in {EmailRequired, EmailInvalid, PhoneRequired, PhoneInvalid};
    }
  }

  // ---------------------------------------------------------------------------
  // validateAllConfigurations
  // ---------------------------------------------------------------------------

  /** `Gavekort #<id>: ` followed by the card's errors joined with `, `. */
  function ErrorLine(card: GiftCard): string {
    "Gavekort #" + IntToString(card.id) + ": " + Join(CardErrors(card), ", ")
  }

  /** The lines the batch check pushes for `cards`, in order. */
  function ErrorLines(cards: seq<GiftCard>): seq<string> {
    if cards == [] then []
    else
      var last := cards[|cards| - 1];
      ErrorLines(cards[..|cards| - 1]) + (if CardErrors(last) != [] then [ErrorLine(last)] else [])
  }

  /** The cards that fail validateCardConfiguration, in input order. */
  function InvalidCards(cards: seq<GiftCard>): (invalid: seq<GiftCard>)
    ensures forall c | c in invalid :: c in cards && CardErrors(c) != []
  {
    if cards == [] then []
    else
      var last := cards[|cards| - 1];
      InvalidCards(cards[..|cards| - 1]) + (if CardErrors(last) != [] then [last] else [])
  }

  /** A card is listed as failing exactly when it is one of the cards and has an error. */
  lemma {:induction false} InvalidCardsMembers(cards: seq<GiftCard>, c: GiftCard)
    ensures c in InvalidCards(cards) <==> c in cards && CardErrors(c) != []
  {
    if cards != [] {
      var init, last := cards[..|cards| - 1], cards[|cards| - 1];
      assert cards == init + [last];
      InvalidCardsMembers(init, c);
    }
  }

  /**
   * validateAllConfigurations: one line per failing card in input order, and
   * valid exactly when there is no line.
   */
  method ValidateAllConfigurations(cards: seq<GiftCard>) returns (result: ValidationResult)
    ensures result.errors == ErrorLines(cards)
    ensures result.isValid <==> result.errors == []
  {
    var errors: seq<string> := [];
    for i := 0 to |cards|
      invariant errors == ErrorLines(cards[..i])
    {
      var card := cards[i];
      var cardResult := ValidateCardConfiguration(card);
      if !cardResult.isValid {
        errors := errors + ["Gavekort #" + IntToString(card.id) + ": " + Join(cardResult.errors, ", ")];
      }
      assert cards[..i + 1][..i] == cards[..i];
    }
    assert cards[..|cards|] == cards;
    result := ValidationResult(|errors| == 0, errors);
  }

  /** The batch is valid exactly when every card is valid on its own. */
  lemma {:induction false} ErrorLinesEmptyIff(cards: seq<GiftCard>)
    ensures ErrorLines(cards) == [] <==> forall c | c in cards :: CardErrors(c) == []
    decreases |cards|
  {
    if cards != [] {
      var init, last := cards[..|cards| - 1], cards[|cards| - 1];
      assert cards == init + [last];
      assert ErrorLines(cards) == [] <==> ErrorLines(init) == [] && CardErrors(last) == [];
      ErrorLinesEmptyIff(init);
    }
  }

  /** The i-th line belongs to the i-th failing card. */
  lemma {:induction false} ErrorLinesPerInvalidCard(cards: seq<GiftCard>)
    ensures |ErrorLines(cards)| == |InvalidCards(cards)|
    ensures forall j | 0 <= j < |ErrorLines(cards)| :: ErrorLines(cards)[j] == ErrorLine(InvalidCards(cards)[j])
    decreases |cards|
  {
    if cards != [] {
      ErrorLinesPerInvalidCard(cards[..|cards| - 1]);
    }
  }

  // ---------------------------------------------------------------------------
  // validateInput
  // ---------------------------------------------------------------------------

  datatype InputKind = EmailInput | PhoneInput | MessageInput

  /** validateInput: the as-you-type check of one form field. */
  predicate ValidateInput(kind: InputKind, value: string) {
    match kind
    case EmailInput => value == "" || ValidateEmail(value)
    case PhoneInput => value == "" || ValidatePhone(value)
    case MessageInput => |value| <= MaxMessageLength
  }

  /**
   * On a filled-in field the as-you-type check agrees with the check made when
   * the card is validated: an e-mail or phone card has no contact error
   * exactly when its field passes, and a message is over-long exactly when it
   * fails.
   */
  lemma ValidateInputAgreesWithCard(card: GiftCard)
    ensures card.delivery == Some(Email) && HasText(ConfigEmail(card)) ==>
      (ContactErrors(card) == [] <==> ValidateInput(EmailInput, ConfigEmail(card).value))
    ensures card.delivery == Some(Sms) && HasText(ConfigPhone(card)) ==>
      (ContactErrors(card) == [] <==> ValidateInput(PhoneInput, ConfigPhone(card).value))
    ensures ConfigMessage(card).Some? ==>
      (MessageTooLongFor(card) <==> !ValidateInput(MessageInput, ConfigMessage(card).value))
  {
  }

  // ---------------------------------------------------------------------------
  // canProceedToNextStep
  // ---------------------------------------------------------------------------

  predicate IsDigital(card: GiftCard) {
    card.delivery == Some(Email) || card.delivery == Some(Sms)
  }

  /** `cards.filter(c => c.method === 'email' || c.method === 'sms')`. */
  function DigitalCards(cards: seq<GiftCard>): seq<GiftCard> {
    if cards == [] then []
    else
      var last := cards[|cards| - 1];
      DigitalCards(cards[..|cards| - 1]) + (if IsDigital(last) then [last] else [])
  }

  predicate HasSelection(cards: seq<GiftCard>) {
    exists i | 0 <= i < |cards| :: cards[i].delivery.Some?
  }

  /** canProceedToNextStep: the gate for leaving `step`. */
  predicate CanProceedToNextStep(step: int, cards: seq<GiftCard>) {
    if step == 1 then HasSelection(cards)
    else if step == 2 then ErrorLines(DigitalCards(cards)) == []
    else true
  }

  /** A card is kept by the filter exactly when it is an e-mail or SMS card of the batch. */
  lemma {:induction false} DigitalCardsMembers(cards: seq<GiftCard>, c: GiftCard)
    ensures c in DigitalCards(cards) <==> c in cards && IsDigital(c)
    decreases |cards|
  {
    if cards != [] {
      var init, last := cards[..|cards| - 1], cards[|cards| - 1];
      assert cards == init + [last];
      DigitalCardsMembers(init, c);
    }
  }

  /** The lines of a concatenated batch are those of the first part followed by those of the second. */
  lemma {:induction false} ErrorLinesConcat(a: seq<GiftCard>, b: seq<GiftCard>)
    ensures ErrorLines(a + b) == ErrorLines(a) + ErrorLines(b)
    decreases |b|
  {
    if b == [] {
      assert a + b == a;
    } else {
      var init := b[..|b| - 1];
      assert (a + b)[..|a + b| - 1] == a + init;
      assert (a + b)[|a + b| - 1] == b[|b| - 1];
      ErrorLinesConcat(a, init);
    }
  }

  /**
   * The gate: leaving step 1 needs a card with a method; leaving step 2 needs
   * every e-mail and SMS card to validate, whatever the physical and unset
   * cards hold; every other step may always be left.
   */
  lemma CanProceedCharacterisation(step: int, cards: seq<GiftCard>)
    ensures step == 1 ==> (CanProceedToNextStep(step, cards) <==> exists i | 0 <= i < |cards| :: cards[i].delivery.Some?)
    ensures step == 2 ==> (CanProceedToNextStep(step, cards) <==>
      forall c | c in cards && IsDigital(c) :: ContactErrors(c) == [] && !MessageTooLongFor(c))
    ensures step != 1 && step != 2 ==> CanProceedToNextStep(step, cards)
  {
    ErrorLinesEmptyIff(DigitalCards(cards));
    forall c {
      DigitalCardsMembers(cards, c);
    }
  }
}
