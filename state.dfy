/**
 * The wizard's store: one application state, merged field by field, and a
 * set of listeners, every one of which is called once, with a copy of the new
 * state, after each change. Listeners are opaque ids; a call to a listener is
 * recorded as a `Delivery` in the store's delivery log.
 */
module Store {
  import opened Types

  /** A registered callback, known only by its identity. */
  type ListenerId = nat

  /** One call of one listener with the state it was given. */
  datatype Delivery = Delivery(listener: ListenerId, snapshot: AppState)

  /** The state a new store starts in and `reset` returns to. */
  const InitialState := AppState(0, 10, 500, [], false)

  // ---------------------------------------------------------------------------
  // Merging a partial update into the state: `{ ...state, ...updates }`
  // ---------------------------------------------------------------------------

  function ApplyUpdate(s: AppState, u: StateUpdate): AppState {
    AppState(
      Pick(u.currentStep, s.currentStep),
      Pick(u.testCount, s.testCount),
      Pick(u.testValue, s.testValue),
      Pick(u.giftCards, s.giftCards),
      Pick(u.termsAccepted, s.termsAccepted))
  }

  /** Every field the update carries has the update's value in `t`. */
  predicate TakesUpdate(t: AppState, u: StateUpdate) {
    (u.currentStep.Some? ==> t.currentStep == u.currentStep.value) &&
    (u.testCount.Some? ==> t.testCount == u.testCount.value) &&
    (u.testValue.Some? ==> t.testValue == u.testValue.value) &&
    (u.giftCards.Some? ==> t.giftCards == u.giftCards.value) &&
    (u.termsAccepted.Some? ==> t.termsAccepted == u.termsAccepted.value)
  }

  /** Every field the update does not carry is the same in `s` and `t`. */
  predicate KeepsOthers(s: AppState, t: AppState, u: StateUpdate) {
    (u.currentStep.None? ==> t.currentStep == s.currentStep) &&
    (u.testCount.None? ==> t.testCount == s.testCount) &&
    (u.testValue.None? ==> t.testValue == s.testValue) &&
    (u.giftCards.None? ==> t.giftCards == s.giftCards) &&
    (u.termsAccepted.None? ==> t.termsAccepted == s.termsAccepted)
  }

  /** The merged state is the one state that takes the update's fields and keeps all others. */
  lemma ApplyUpdateCharacterised(s: AppState, u: StateUpdate, t: AppState)
    ensures t == ApplyUpdate(s, u) <==> TakesUpdate(t, u) && KeepsOthers(s, t, u)
  {
  }

  /** `{ ...{ ...s, ...u }, ...v }`: the later update wins field by field. */
  function ThenUpdate(u: StateUpdate, v: StateUpdate): StateUpdate {
    StateUpdate(
      if v.currentStep.Some? then v.currentStep else u.currentStep,
      if v.testCount.Some? then v.testCount else u.testCount,
      if v.testValue.Some? then v.testValue else u.testValue,
      if v.giftCards.Some? then v.giftCards else u.giftCards,
      if v.termsAccepted.Some? then v.termsAccepted else u.termsAccepted)
  }

  /** Two merges in a row are one merge of the combined update; merging twice is merging once. */
  lemma ApplyUpdateComposes(s: AppState, u: StateUpdate, v: StateUpdate)
    ensures ApplyUpdate(ApplyUpdate(s, u), v) == ApplyUpdate(s, ThenUpdate(u, v))
    ensures ApplyUpdate(ApplyUpdate(s, u), u) == ApplyUpdate(s, u)
    ensures ApplyUpdate(s, NoStateUpdate) == s
  {
  }

  // ---------------------------------------------------------------------------
  // Merging a partial update into a card: `{ ...card, ...updates }`
  // ---------------------------------------------------------------------------

  function MergeCard(card: GiftCard, u: CardUpdate): GiftCard {
    GiftCard(
      Pick(u.id, card.id),
      Pick(u.value, card.value),
      Pick(u.code, card.code),
      Pick(u.delivery, card.delivery),
      Pick(u.recipient, card.recipient),
      Pick(u.details, card.details),
      Pick(u.config, card.config))
  }

  /** `cards.map(card => card.id === id ? { ...card, ...u } : card)`. */
  function UpdateCards(cards: seq<GiftCard>, id: int, u: CardUpdate): (updated: seq<GiftCard>)
    ensures |updated| == |cards|
  {
    if cards == [] then []
    else [if cards[0].id == id then MergeCard(cards[0], u) else cards[0]] + UpdateCards(cards[1..], id, u)
  }

  /**
   * The card update keeps the list's length and order, leaves every card with
   * another id alone, and merges the update into every card with the id.
   */
  lemma {:induction false} UpdateCardsFrame(cards: seq<GiftCard>, id: int, u: CardUpdate, i: int)
    requires 0 <= i < |cards|
    ensures cards[i].id != id ==> UpdateCards(cards, id, u)[i] == cards[i]
    ensures cards[i].id == id ==> UpdateCards(cards, id, u)[i] == MergeCard(cards[i], u)
    decreases |cards|
  {
    if i > 0 {
      UpdateCardsFrame(cards[1..], id, u, i - 1);
    }
  }

  /** Updating an id no card has changes nothing. */
  lemma {:induction false} UpdateCardsMissingId(cards: seq<GiftCard>, id: int, u: CardUpdate)
    requires forall i | 0 <= i < |cards| :: cards[i].id != id
    ensures UpdateCards(cards, id, u) == cards
    decreases |cards|
  {
    if cards != [] {
      UpdateCardsMissingId(cards[1..], id, u);
    }
  }

  /** `cards.find(card => card.id === id)`: the first card with the id, if any. */
  function FindCard(cards: seq<GiftCard>, id: int): (found: Option<GiftCard>)
    ensures found.None? <==> forall i | 0 <= i < |cards| :: cards[i].id != id
    ensures found.Some? ==> found.value.id == id && found.value in cards
  {
    if cards == [] then None
    else if cards[0].id == id then Some(cards[0])
    else FindCard(cards[1..], id)
  }

  /** The card found is the first one with the id. */
  lemma {:induction false} FindCardFirst(cards: seq<GiftCard>, id: int, k: int)
    requires 0 <= k < |cards| && cards[k].id == id
    requires forall j | 0 <= j < k :: cards[j].id != id
    ensures FindCard(cards, id) == Some(cards[k])
    decreases |cards|
  {
    if k > 0 {
      FindCardFirst(cards[1..], id, k - 1);
    }
  }

  /** Reading a card back after updating it gives the merged card, unless the update changes its id. */
  lemma {:induction false} FindAfterUpdate(cards: seq<GiftCard>, id: int, u: CardUpdate)
    requires u.id.None? || u.id == Some(id)
    ensures FindCard(UpdateCards(cards, id, u), id) ==
      if FindCard(cards, id).Some? then Some(MergeCard(FindCard(cards, id).value, u)) else None
    decreases |cards|
  {
    if cards != [] && cards[0].id != id {
      FindAfterUpdate(cards[1..], id, u);
    }
  }

  // ---------------------------------------------------------------------------
  // The listener set and its notification round
  // ---------------------------------------------------------------------------

  predicate NoDuplicates(ls: seq<ListenerId>) {
    forall i, j | 0 <= i < j < |ls| :: ls[i] != ls[j]
  }

  /** `Set.add`: a listener already present keeps its place. */
  function AddListener(ls: seq<ListenerId>, l: ListenerId): seq<ListenerId> {
    if l in ls then ls else ls + [l]
  }

  /** `Set.delete`. */
  function RemoveListener(ls: seq<ListenerId>, l: ListenerId): (rest: seq<ListenerId>)
    ensures l !in rest
    ensures forall x | x != l :: x in rest <==> x in ls
  {
    if ls == [] then []
    else (if ls[0] == l then [] else [ls[0]]) + RemoveListener(ls[1..], l)
  }

  lemma {:induction false} RemoveKeepsDistinct(ls: seq<ListenerId>, l: ListenerId)
    requires NoDuplicates(ls)
    ensures NoDuplicates(RemoveListener(ls, l))
    decreases |ls|
  {
    if ls != [] {
      RemoveKeepsDistinct(ls[1..], l);
      var rest := RemoveListener(ls[1..], l);
      if ls[0] != l {
        assert ls[0] !in rest;
        assert NoDuplicates([ls[0]] + rest);
      }
    }
  }

  /** The listener list behaves as a set: no duplicates, adding twice is adding once, removing twice is removing once. */
  lemma ListenerSetSemantics(ls: seq<ListenerId>, l: ListenerId)
    requires NoDuplicates(ls)
    ensures NoDuplicates(AddListener(ls, l)) && NoDuplicates(RemoveListener(ls, l))
    ensures AddListener(AddListener(ls, l), l) == AddListener(ls, l)
    ensures RemoveListener(RemoveListener(ls, l), l) == RemoveListener(ls, l)
    ensures l !in ls ==> RemoveListener(AddListener(ls, l), l) == ls
  {
    RemoveKeepsDistinct(ls, l);
    RemoveAbsent(RemoveListener(ls, l), l);
    if l !in ls {
      RemoveAppended(ls, l);
    }
  }

  lemma {:induction false} RemoveAbsent(ls: seq<ListenerId>, l: ListenerId)
    requires l !in ls
    ensures RemoveListener(ls, l) == ls
    decreases |ls|
  {
    if ls != [] {
      RemoveAbsent(ls[1..], l);
    }
  }

  lemma {:induction false} RemoveAppended(ls: seq<ListenerId>, l: ListenerId)
    requires l !in ls
    ensures RemoveListener(ls + [l], l) == ls
    decreases |ls|
  {
    if ls == [] {
      assert ls + [l] == [l];
    } else {
      assert (ls + [l])[1..] == ls[1..] + [l];
      RemoveAppended(ls[1..], l);
    }
  }

  /** One notification: each listener, in registration order, called with `s`. */
  function Round(ls: seq<ListenerId>, s: AppState): (calls: seq<Delivery>)
    ensures |calls| == |ls|
  {
    if ls == [] then [] else Round(ls[..|ls| - 1], s) + [Delivery(ls[|ls| - 1], s)]
  }

  /** In one round every registered listener is called exactly once, and only with `s`. */
  lemma {:induction false} RoundCallsEachOnce(ls: seq<ListenerId>, s: AppState)
    requires NoDuplicates(ls)
    ensures forall i | 0 <= i < |ls| :: Round(ls, s)[i] == Delivery(ls[i], s)
    ensures forall i, j | 0 <= i < |ls| && 0 <= j < |ls| && Round(ls, s)[i].listener == Round(ls, s)[j].listener :: i == j
    ensures forall l | l in ls :: exists i | 0 <= i < |ls| :: Round(ls, s)[i].listener == l
    decreases |ls|
  {
    if ls != [] {
      RoundCallsEachOnce(ls[..|ls| - 1], s);
    }
  }

  // ---------------------------------------------------------------------------
  // The store
  // ---------------------------------------------------------------------------

  class DistributionState {
    var state: AppState
    var listeners: seq<ListenerId>
    /** Every listener call so far, in order. */
    var delivered: seq<Delivery>

    ghost predicate Valid()
      reads this
    {
      NoDuplicates(listeners)
    }

    constructor()
      ensures Valid()
      ensures state == InitialState && listeners == [] && delivered == []
    {
      state := InitialState;
      listeners := [];
      delivered := [];
    }

    /** getState: a copy of the state; a value, so changing it cannot reach the store. */
    method GetState() returns (s: AppState)
      ensures s == state
    {
      s := state;
    }

    /** notify: every listener, in registration order, called once with the current state. */
    method Notify()
      requires Valid()
      modifies this`delivered
      ensures delivered == old(delivered) + Round(listeners, state)
    {
      var snapshot := GetState();
      for i := 0 to |listeners|
        invariant delivered == old(delivered) + Round(listeners[..i], snapshot)
      {
        assert listeners[..i + 1][..i] == listeners[..i];
        delivered := delivered + [Delivery(listeners[i], snapshot)];
      }
      assert listeners[..|listeners|] == listeners;
    }

    /** setState: merge the update, then notify once. */
    method SetState(u: StateUpdate)
      requires Valid()
      modifies this
      ensures Valid()
      ensures state == ApplyUpdate(old(state), u)
      ensures listeners == old(listeners)
      ensures delivered == old(delivered) + Round(listeners, state)
    {
      state := ApplyUpdate(state, u);
      Notify();
    }

    /** updateGiftCard: merge the update into every card with the id, then notify once, found or not. */
    method UpdateGiftCard(id: int, u: CardUpdate)
      requires Valid()
      modifies this
      ensures Valid()
      ensures state == old(state).(giftCards := UpdateCards(old(state.giftCards), id, u))
      ensures listeners == old(listeners)
      ensures delivered == old(delivered) + Round(listeners, state)
    {
      state := state.(giftCards := UpdateCards(state.giftCards, id, u));
      Notify();
    }

    /** getGiftCard: the first card with the id, if any. */
    method GetGiftCard(id: int) returns (found: Option<GiftCard>)
      ensures found == FindCard(state.giftCards, id)
    {
      found := FindCard(state.giftCards, id);
    }

    /** reset: back to the initial state, then notify once. */
    method Reset()
      requires Valid()
      modifies this
      ensures Valid()
      ensures state == InitialState
      ensures listeners == old(listeners)
      ensures delivered == old(delivered) + Round(listeners, InitialState)
    {
      state := InitialState;
      Notify();
    }

    /** subscribe: register a listener; registering it again changes nothing. */
    method Subscribe(l: ListenerId)
      requires Valid()
      modifies this`listeners
      ensures Valid()
      ensures listeners == AddListener(old(listeners), l)
    {
      ListenerSetSemantics(listeners, l);
      listeners := AddListener(listeners, l);
    }

    /** The function subscribe returns: deregister the listener; a second call changes nothing. */
    method Unsubscribe(l: ListenerId)
      requires Valid()
      modifies this`listeners
      ensures Valid()
      ensures listeners == RemoveListener(old(listeners), l)
    {
      ListenerSetSemantics(listeners, l);
      listeners := RemoveListener(listeners, l);
    }
  }
}
