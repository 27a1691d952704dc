/**
 * The pure helpers of the distribution wizard: the e-mail and Norwegian
 * mobile-number shape checks, the per-card configuration check, grouping of
 * cards by delivery method, the total face value and the test-batch generator.
 */
module Utils {
  import opened Types
  import opened Strings

  // ---------------------------------------------------------------------------
  // Character classes
  // ---------------------------------------------------------------------------

  /** The characters of the regular-expression class `\s`: ECMAScript white space and line terminators. */
  predicate IsWhitespace(c: char) {
    c == '\t' || c == '\n' || c == '\U{000B}' || c == '\U{000C}' || c == '\r' || c == ' '
    || c == '\U{00A0}' || c == '\U{1680}' || ('\U{2000}' <= c <= '\U{200A}')
    || c == '\U{2028}' || c == '\U{2029}' || c == '\U{202F}' || c == '\U{205F}'
    || c == '\U{3000}' || c == '\U{FEFF}'
  }

  predicate NoWhitespace(s: string) {
    forall i | 0 <= i < |s| :: !IsWhitespace(s[i])
  }

  predicate AllWhitespace(s: string) {
    forall i | 0 <= i < |s| :: IsWhitespace(s[i])
  }

  // ---------------------------------------------------------------------------
  // validateEmail
  // ---------------------------------------------------------------------------

  /** A run matched by `[^\s@]+`: non-empty, no white space and no '@'. */
  predicate PlainRun(s: string) {
    |s| > 0 && forall i | 0 <= i < |s| :: !IsWhitespace(s[i]) && s[i] != '@'
  }

  function EmailShape(local: string, host: string, tld: string): string {
    local + "@" + host + "." + tld
  }

  /** The language of `^[^\s@]+@[^\s@]+\.[^\s@]+$`. */
  ghost predicate EmailPattern(s: string) {
    exists local, host, tld ::
      EmailShape(local, host, tld) == s && PlainRun(local) && PlainRun(host) && PlainRun(tld)
  }

  /** `s` has an '@' at `at` and at no other index. */
  predicate OnlyAtSignAt(s: string, at: int) {
    0 <= at < |s| && s[at] == '@' && forall i | 0 <= i < |s| && i != at :: s[i] != '@'
  }

  /** Some '.' after index `at + 1` that is not the last character. */
  predicate InnerDotAfter(s: string, at: int) {
    exists d | 0 <= at + 1 < d < |s| - 1 :: s[d] == '.'
  }

  /**
   * validateEmail: no white space, exactly one '@', something before it, and
   * after it a '.' that is neither the first nor the last character.
   */
  predicate ValidateEmail(s: string) {
    NoWhitespace(s) && exists at | 0 < at < |s| :: OnlyAtSignAt(s, at) && InnerDotAfter(s, at)
  }

  lemma EmailShapeAt(local: string, host: string, tld: string, i: int)
    requires 0 <= i < |EmailShape(local, host, tld)|
    ensures var s := EmailShape(local, host, tld);
            |s| == |local| + |host| + |tld| + 2 &&
            (i < |local| ==> s[i] == local[i]) &&
            (i == |local| ==> s[i] == '@') &&
            (|local| < i < |local| + 1 + |host| ==> s[i] == host[i - |local| - 1]) &&
            (i == |local| + 1 + |host| ==> s[i] == '.') &&
            (i > |local| + 1 + |host| ==> s[i] == tld[i - |local| - |host| - 2])
  {
  }

  /** The index characterisation accepts exactly the language of the regular expression. */
  lemma ValidateEmailMatchesPattern(s: string)
    ensures ValidateEmail(s) <==> EmailPattern(s)
  {
    if ValidateEmail(s) {
      ValidEmailHasShape(s);
    }
    if EmailPattern(s) {
      var local, host, tld :| EmailShape(local, host, tld) == s && PlainRun(local) && PlainRun(host) && PlainRun(tld);
      ShapedEmailIsValid(local, host, tld);
    }
  }

  /** Splitting an accepted address at its '@' and at an inner dot gives the three runs of the pattern. */
  lemma ValidEmailHasShape(s: string)
    requires ValidateEmail(s)
    ensures EmailPattern(s)
  {
    var at :| 0 < at < |s| && OnlyAtSignAt(s, at) && InnerDotAfter(s, at);
    var d :| at + 1 < d < |s| - 1 && s[d] == '.';
    var local, host, tld := s[0..at], s[at + 1..d], s[d + 1..|s|];
    assert EmailShape(local, host, tld) == s;
    SliceIsPlain(s, at, 0, at);
    SliceIsPlain(s, at, at + 1, d);
    SliceIsPlain(s, at, d + 1, |s|);
  }

  /** A non-empty stretch of an address that avoids its only '@' is a plain run. */
  lemma SliceIsPlain(s: string, at: int, lo: int, hi: int)
    requires NoWhitespace(s) && OnlyAtSignAt(s, at)
    requires 0 <= lo < hi <= |s| && !(lo <= at < hi)
    ensures PlainRun(s[lo..hi])
  {
    forall i | 0 <= i < hi - lo ensures !IsWhitespace(s[lo..hi][i]) && s[lo..hi][i] != '@' {
      assert s[lo..hi][i] == s[lo + i];
    }
  }

  /** Every string of the pattern's shape is accepted, with its '@' right after the local part. */
  lemma ShapedEmailIsValid(local: string, host: string, tld: string)
    requires PlainRun(local) && PlainRun(host) && PlainRun(tld)
    ensures ValidateEmail(EmailShape(local, host, tld))
  {
    var s := EmailShape(local, host, tld);
    var at, d := |local|, |local| + 1 + |host|;
    forall i | 0 <= i < |s| ensures !IsWhitespace(s[i]) && (i != at ==> s[i] != '@') {
      EmailShapeAt(local, host, tld, i);
    }
    EmailShapeAt(local, host, tld, at);
    EmailShapeAt(local, host, tld, d);
    assert OnlyAtSignAt(s, at) && InnerDotAfter(s, at);
  }

  lemma EmailExamples()
    ensures ValidateEmail("a@b.co")
    ensures !ValidateEmail("a@b")
    ensures !ValidateEmail("abc")
  {
    assert OnlyAtSignAt("a@b.co", 1) && "a@b.co"[3] == '.';
  }

  // ---------------------------------------------------------------------------
  // validatePhone
  // ---------------------------------------------------------------------------

  /** `phone.replace(/\s/g, '')`. */
  function StripWhitespace(s: string): (r: string)
    ensures NoWhitespace(r) && |r| <= |s|
  {
    if s == [] then []
    else (if IsWhitespace(s[0]) then [] else [s[0]]) + StripWhitespace(s[1..])
  }

  /** `[4-9]\d{7}`: eight ASCII digits, the first of them 4 to 9. */
  predicate MobileDigits(t: string) {
    |t| == 8 && '4' <= t[0] <= '9' && AllDigits(t)
  }

  /** The language of `^(\+47)?[4-9]\d{7}$`. */
  predicate PhonePattern(t: string) {
    MobileDigits(t) || (|t| == 11 && t[..3] == "+47" && MobileDigits(t[3..]))
  }

  /** validatePhone: the number with its white space removed is a Norwegian mobile number. */
  predicate ValidatePhone(s: string) {
    PhonePattern(StripWhitespace(s))
  }

  lemma {:induction false} StripConcat(a: string, b: string)
    ensures StripWhitespace(a + b) == StripWhitespace(a) + StripWhitespace(b)
    decreases |a|
  {
    if a != [] {
      assert (a + b)[1..] == a[1..] + b;
      StripConcat(a[1..], b);
    } else {
      assert a + b == b;
    }
  }

  lemma {:induction false} StripBlank(w: string)
    requires AllWhitespace(w)
    ensures StripWhitespace(w) == []
    decreases |w|
  {
    if w != [] {
      StripBlank(w[1..]);
    }
  }

  lemma {:induction false} StripKeepsPlain(s: string)
    requires NoWhitespace(s)
    ensures StripWhitespace(s) == s
    decreases |s|
  {
    if s != [] {
      StripKeepsPlain(s[1..]);
    }
  }

  /** Inserting white space anywhere never changes whether a number is accepted. */
  lemma PhoneIgnoresWhitespace(a: string, w: string, b: string)
    requires AllWhitespace(w)
    ensures ValidatePhone(a + w + b) == ValidatePhone(a + b)
  {
    StripConcat(a + w, b);
    StripConcat(a, w);
    StripConcat(a, b);
    StripBlank(w);
    assert StripWhitespace(a) + [] == StripWhitespace(a);
  }

  /** Both forms the regular expression allows are accepted: eight mobile digits, with or without `+47`. */
  lemma MobileForms(u: string)
    requires MobileDigits(u)
    ensures ValidatePhone(u) && ValidatePhone("+47" + u)
  {
    var t := "+47" + u;
    assert NoWhitespace(t) by {
      forall i | 0 <= i < |t| ensures !IsWhitespace(t[i]) {
        if i >= 3 { assert t[i] == u[i - 3]; }
      }
    }
    StripKeepsPlain(u);
    StripKeepsPlain(t);
    assert t[..3] == "+47" && t[3..] == u;
  }

  lemma PhoneExamples()
    ensures ValidatePhone("+4791234567")
    ensures ValidatePhone("91234567")
  {
    MobileForms("91234567");
    assert "+47" + "91234567" == "+4791234567";
  }

  /** A number written with digits only is accepted exactly when it is a bare mobile number. */
  lemma DigitsOnlyPhone(s: string)
    requires AllDigits(s)
    ensures ValidatePhone(s) <==> MobileDigits(s)
  {
    assert NoWhitespace(s) by {
      forall i | 0 <= i < |s| ensures !IsWhitespace(s[i]) {
        assert IsDigit(s[i]);
      }
    }
    StripKeepsPlain(s);
    if |s| == 11 {
      assert s[0] != '+';
      assert s[..3] != "+47" by { assert s[..3][0] == s[0]; }
    }
  }

  /** A number starting with 1 is not a Norwegian mobile number. */
  lemma PhoneRejectsLeadingOne()
    ensures !ValidatePhone("12345678")
  {
    DigitsOnlyPhone("12345678");
  }

  /** A mobile number written in the usual grouping, `+47 XXX XX XXX`, validates. */
  lemma MobileFormSpaced(u: string)
    requires MobileDigits(u)
    ensures ValidatePhone("+47 " + u[..3] + " " + u[3..5] + " " + u[5..])
  {
    var p, x, y, z := "+47", u[..3], u[3..5], u[5..];
    assert AllWhitespace(" ");
    PhoneIgnoresWhitespace(p + " " + x + " " + y, " ", z);
    PhoneIgnoresWhitespace(p + " " + x, " ", y + z);
    PhoneIgnoresWhitespace(p, " ", x + y + z);
    assert "+47 " + x + " " + y + " " + z == (p + " " + x + " " + y) + " " + z;
    assert (p + " " + x + " " + y) + z == (p + " " + x) + " " + (y + z);
    assert (p + " " + x) + (y + z) == p + " " + (x + y + z);
    assert x + y + z == u;
    MobileForms(u);
  }

  // ---------------------------------------------------------------------------
  // validateGiftCardConfiguration
  // ---------------------------------------------------------------------------

  const MethodRequired := "Leveringsmetode må velges"
  const EmailRequired := "E-postadresse er påkrevd"
  const EmailInvalid := "Ugyldig e-postadresse"
  const PhoneRequired := "Mobilnummer er påkrevd"
  const PhoneInvalid := "Ugyldig mobilnummer"

  /** JavaScript truthiness of an optional string: present and non-empty. */
  predicate HasText(s: Option<string>) {
    s.Some? && s.value != ""
  }

  function ConfigEmail(card: GiftCard): Option<string> {
    if card.config.Some? then card.config.value.email else None
  }

  function ConfigPhone(card: GiftCard): Option<string> {
    if card.config.Some? then card.config.value.phone else None
  }

  /** The error, if any, about the contact field the card's delivery method needs. */
  function ContactErrors(card: GiftCard): seq<string> {
    match card.delivery
    case Some(Email) =>
      if !HasText(ConfigEmail(card)) then [EmailRequired]
      else if !ValidateEmail(ConfigEmail(card).value) then [EmailInvalid]
      else []
    case Some(Sms) =>
      if !HasText(ConfigPhone(card)) then [PhoneRequired]
      else if !ValidatePhone(ConfigPhone(card).value) then [PhoneInvalid]
      else []
    case _ => []
  }

  /**
   * At most one contact error: for an e-mail card "required" exactly when the
   * address is missing or empty and "invalid" exactly when it is present but
   * malformed, symmetrically for an SMS card, and none for any other card.
   */
  lemma ContactErrorsShape(card: GiftCard)
    ensures |ContactErrors(card)| <= 1
    ensures card.delivery != Some(Email) && card.delivery != Some(Sms) ==> ContactErrors(card) == []
    ensures card.delivery == Some(Email) ==>
      (ContactErrors(card) == [EmailRequired] <==> !HasText(ConfigEmail(card))) &&
      (ContactErrors(card) == [EmailInvalid] <==> HasText(ConfigEmail(card)) && !ValidateEmail(ConfigEmail(card).value))
    ensures card.delivery == Some(Sms) ==>
      (ContactErrors(card) == [PhoneRequired] <==> !HasText(ConfigPhone(card))) &&
      (ContactErrors(card) == [PhoneInvalid] <==> HasText(ConfigPhone(card)) && !ValidatePhone(ConfigPhone(card).value))
  {
  }

  /** A card whose contact field is present and well formed has no contact error. */
  lemma ContactErrorsEmptyIff(card: GiftCard)
    ensures ContactErrors(card) == [] <==>
      match card.delivery
      case Some(Email) => HasText(ConfigEmail(card)) && ValidateEmail(ConfigEmail(card).value)
      case Some(Sms) => HasText(ConfigPhone(card)) && ValidatePhone(ConfigPhone(card).value)
      case _ => true
  {
  }

  /**
   * validateGiftCardConfiguration: a card without a method fails with exactly
   * the method error; otherwise at most the one contact error, and a physical
   * card always passes.
   */
  method ValidateGiftCardConfiguration(card: GiftCard) returns (result: ValidationResult)
    ensures result.isValid <==> result.errors == []
    ensures |result.errors| <= 1
    ensures card.delivery.None? ==> result == ValidationResult(false, [MethodRequired])
    ensures card.delivery.Some? ==> result.errors == ContactErrors(card)
    ensures card.delivery == Some(Physical) ==> result.isValid
  {
    var errors: seq<string> := [];
    if card.delivery.None? {
      errors := errors + [MethodRequired];
      return ValidationResult(false, errors);
    }
    if card.delivery == Some(Email) {
      if !HasText(ConfigEmail(card)) {
        errors := errors + [EmailRequired];
      } else if !ValidateEmail(ConfigEmail(card).value) {
        errors := errors + [EmailInvalid];
      }
    }
    if card.delivery == Some(Sms) {
      if !HasText(ConfigPhone(card)) {
        errors := errors + [PhoneRequired];
      } else if !ValidatePhone(ConfigPhone(card).value) {
        errors := errors + [PhoneInvalid];
      }
    }
    result := ValidationResult(|errors| == 0, errors);
  }

  // ---------------------------------------------------------------------------
  // groupGiftCardsByMethod
  // ---------------------------------------------------------------------------

  const UnselectedKey := "unselected"

  function MethodName(m: DeliveryMethod): string {
    match m
    case Physical => "physical"
    case Email => "email"
    case Sms => "sms"
  }

  /** `card.method || 'unselected'`: the group a card belongs to. */
  function MethodKey(card: GiftCard): (key: string)
    ensures key in GroupKeys
  {
    if card.delivery.Some? then MethodName(card.delivery.value) else UnselectedKey
  }

  const GroupKeys: set<string> := {"physical", "email", "sms", UnselectedKey}

  /** The cards of group `key`, in input order. */
  function CardsWithKey(cards: seq<GiftCard>, key: string): (group: seq<GiftCard>)
    ensures |group| <= |cards|
  {
    if cards == [] then []
    else
      var last := cards[|cards| - 1];
      CardsWithKey(cards[..|cards| - 1], key) + (if MethodKey(last) == key then [last] else [])
  }

  /** A card is in group `key` exactly when it is one of the cards and its key is `key`. */
  lemma {:induction false} CardsWithKeyMembers(cards: seq<GiftCard>, key: string, c: GiftCard)
    ensures c in CardsWithKey(cards, key) <==> c in cards && MethodKey(c) == key
    decreases |cards|
  {
    if cards != [] {
      var init := cards[..|cards| - 1];
      CardsWithKeyMembers(init, key, c);
      assert cards == init + [cards[|cards| - 1]];
    }
  }

  /** Filtering into a group distributes over concatenation, so each group keeps input order. */
  lemma {:induction false} CardsWithKeyConcat(a: seq<GiftCard>, b: seq<GiftCard>, key: string)
    ensures CardsWithKey(a + b, key) == CardsWithKey(a, key) + CardsWithKey(b, key)
    decreases |b|
  {
    if b == [] {
      assert a + b == a;
    } else {
      var init := b[..|b| - 1];
      assert (a + b)[..|a + b| - 1] == a + init;
      assert (a + b)[|a + b| - 1] == b[|b| - 1];
      CardsWithKeyConcat(a, init, key);
    }
  }

  /** Appending one card extends its own group by that card. */
  lemma CardsWithKeyAppend(cards: seq<GiftCard>, c: GiftCard, key: string)
    ensures CardsWithKey(cards + [c], key) == CardsWithKey(cards, key) + (if MethodKey(c) == key then [c] else [])
  {
    assert (cards + [c])[..|cards|] == cards;
  }

  function GroupSize(groups: map<string, seq<GiftCard>>, key: string): nat {
    if key in groups then |groups[key]| else 0
  }

  /** The four group sizes add up to the number of cards: every card is in exactly one group. */
  lemma {:induction false} GroupSizesSum(cards: seq<GiftCard>)
    ensures |CardsWithKey(cards, "physical")| + |CardsWithKey(cards, "email")|
          + |CardsWithKey(cards, "sms")| + |CardsWithKey(cards, UnselectedKey)| == |cards|
    decreases |cards|
  {
    if cards != [] {
      GroupSizesSum(cards[..|cards| - 1]);
    }
  }

  /**
   * groupGiftCardsByMethod: a key is present exactly when its group is
   * non-empty, and maps to the cards with that key in input order.
   */
  method GroupGiftCardsByMethod(cards: seq<GiftCard>) returns (groups: map<string, seq<GiftCard>>)
    ensures groups.Keys <= GroupKeys
    ensures forall key :: key in groups <==> CardsWithKey(cards, key) != []
    ensures forall key | key in groups :: groups[key] == CardsWithKey(cards, key)
  {
    groups := map[];
    for i := 0 to |cards|
      invariant groups.Keys <= GroupKeys
      invariant forall key :: key in groups <==> CardsWithKey(cards[..i], key) != []
      invariant forall key | key in groups :: groups[key] == CardsWithKey(cards[..i], key)
    {
      var card := cards[i];
      var key := MethodKey(card);
      ghost var before := groups;
      if key !in groups {
        groups := groups[key := []];
      }
      groups := groups[key := groups[key] + [card]];
      forall k
        ensures k in groups <==> CardsWithKey(cards[..i + 1], k) != []
        ensures k in groups ==> groups[k] == CardsWithKey(cards[..i + 1], k)
      {
        CardsWithKeyStep(cards, i, k);
        if k != key {
          assert (k in groups <==> k in before) && (k in groups ==> groups[k] == before[k]);
        }
      }
    }
    assert cards[..|cards|] == cards;
  }

  /** One more card extends its own group by that card and leaves the others alone. */
  lemma CardsWithKeyStep(cards: seq<GiftCard>, i: int, key: string)
    requires 0 <= i < |cards|
    ensures CardsWithKey(cards[..i + 1], key) ==
      CardsWithKey(cards[..i], key) + (if MethodKey(cards[i]) == key then [cards[i]] else [])
  {
    assert cards[..i + 1][..i] == cards[..i];
  }

  // ---------------------------------------------------------------------------
  // calculateTotalValue
  // ---------------------------------------------------------------------------

  /** `cards.reduce((sum, card) => sum + card.value, 0)`. */
  function TotalValue(cards: seq<GiftCard>): int {
    if cards == [] then 0 else TotalValue(cards[..|cards| - 1]) + cards[|cards| - 1].value
  }

  /** The total is additive over concatenation. */
  lemma {:induction false} TotalValueConcat(a: seq<GiftCard>, b: seq<GiftCard>)
    ensures TotalValue(a + b) == TotalValue(a) + TotalValue(b)
    decreases |b|
  {
    if b == [] {
      assert a + b == a;
    } else {
      var ab := a + b;
      assert ab[..|ab| - 1] == a + b[..|b| - 1];
      TotalValueConcat(a, b[..|b| - 1]);
    }
  }

  lemma GroupTotalStep(cards: seq<GiftCard>, key: string)
    requires cards != []
    ensures var last := cards[|cards| - 1];
      TotalValue(CardsWithKey(cards, key))
      == TotalValue(CardsWithKey(cards[..|cards| - 1], key)) + (if MethodKey(last) == key then last.value else 0)
  {
    var last := cards[|cards| - 1];
    var tail := if MethodKey(last) == key then [last] else [];
    TotalValueConcat(CardsWithKey(cards[..|cards| - 1], key), tail);
    assert [last][..0] == [];
  }

  /** The totals of the four groups add up to the total of the batch. */
  lemma {:induction false} TotalValueOfGroups(cards: seq<GiftCard>)
    ensures TotalValue(CardsWithKey(cards, "physical")) + TotalValue(CardsWithKey(cards, "email"))
          + TotalValue(CardsWithKey(cards, "sms")) + TotalValue(CardsWithKey(cards, UnselectedKey))
          == TotalValue(cards)
    decreases |cards|
  {
    if cards != [] {
      TotalValueOfGroups(cards[..|cards| - 1]);
      GroupTotalStep(cards, "physical");
      GroupTotalStep(cards, "email");
      GroupTotalStep(cards, "sms");
      GroupTotalStep(cards, UnselectedKey);
    }
  }

  // ---------------------------------------------------------------------------
  // generateTestGiftCards
  // ---------------------------------------------------------------------------

  /** `TEST-` and the number left-padded with zeros to three digits. */
  function TestCode(n: nat): string {
    "TEST-" + PadStart(NatToDecimal(n), 3, '0')
  }

  function TestCard(index: nat, value: int): GiftCard {
    GiftCard(index + 1, value, TestCode(index + 1), None, None, map[], None)
  }

  /** `Array.from({ length: count }, ...)`: a negative length gives no cards. */
  function GenerateTestGiftCards(count: int, value: int): (cards: seq<GiftCard>)
    ensures |cards| == if count < 0 then 0 else count
    ensures forall i | 0 <= i < |cards| ::
      cards[i].id == i + 1 && cards[i].value == value && cards[i].code == TestCode(i + 1) &&
      cards[i].delivery.None? && cards[i].recipient.None? && cards[i].details == map[] &&
      cards[i].config.None?
  {
    seq(if count < 0 then 0 else count, i requires 0 <= i => TestCard(i, value))
  }

  /** The digits of a test code read back as the card number, after a `TEST-` prefix. */
  lemma TestCodeEncodesNumber(n: nat)
    ensures |TestCode(n)| >= 8 && TestCode(n)[..5] == "TEST-"
    ensures AllDigits(TestCode(n)[5..]) && ParseDecimal(TestCode(n)[5..]) == n
  {
    var digits := PadStart(NatToDecimal(n), 3, '0');
    assert TestCode(n)[5..] == digits;
    ParseZeroPadded(NatToDecimal(n), 3);
    ParseNatToDecimal(n);
  }

  /** Different card numbers give different test codes. */
  lemma TestCodesDistinct(m: nat, n: nat)
    requires m != n
    ensures TestCode(m) != TestCode(n)
  {
    TestCodeEncodesNumber(m);
    TestCodeEncodesNumber(n);
  }

  /** Generated cards have pairwise distinct ids and pairwise distinct codes. */
  lemma GeneratedCardsDistinct(count: int, value: int, i: int, j: int)
    requires 0 <= i < j < |GenerateTestGiftCards(count, value)|
    ensures GenerateTestGiftCards(count, value)[i].id != GenerateTestGiftCards(count, value)[j].id
    ensures GenerateTestGiftCards(count, value)[i].code != GenerateTestGiftCards(count, value)[j].code
  {
    var cards := GenerateTestGiftCards(count, value);
    assert cards[i].id == i + 1 && cards[j].id == j + 1;
    assert cards[i].code == TestCode(i + 1) && cards[j].code == TestCode(j + 1);
    TestCodesDistinct(i + 1, j + 1);
  }

  /** Cards that all have face value `value` are worth `value` each. */
  lemma {:induction false} TotalValueUniform(cards: seq<GiftCard>, value: int)
    requires forall i | 0 <= i < |cards| :: cards[i].value == value
    ensures TotalValue(cards) == |cards| * value
    decreases |cards|
  {
    if cards != [] {
      TotalValueUniform(cards[..|cards| - 1], value);
    }
  }

  /** A batch of `count` cards of face value `value` is worth `count * value`. */
  lemma GeneratedTotalValue(count: nat, value: int)
    ensures TotalValue(GenerateTestGiftCards(count, value)) == count * value
  {
    TotalValueUniform(GenerateTestGiftCards(count, value), value);
  }
}
