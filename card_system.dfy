/** The chamber manager (four card slots) and the deck manager (draw pile and
    discard pile), which hold references to each other.  Each state change is
    proved to follow the table functions of Economy, where conservation and
    the other properties are proved. */
module CardSystem {
  import opened Wrappers
  import opened Cards
  import opened Piles
  import opened Economy

  /** The chambers: NORTH, EAST, SOUTH, WEST. */
  const SlotCount := 4

  class CardManager {
    /** The chambers; None is an empty chamber. */
    const cardSlots: array<Option<Card>>
    var deckManager: DeckManager?
    /** The calls made to the revolver UI, oldest first. */
    var notifications: seq<SlotNotification>
    /** The requests issued by activated cards, oldest first. */
    var issuedEffects: seq<EffectRequest>

    ghost predicate Valid()
      reads this, deckManager
    {
      cardSlots.Length == SlotCount && deckManager != null && deckManager.cardManager == this
    }

    /** A fresh chamber array holds four empty chambers. */
    constructor ()
      ensures fresh(cardSlots) && cardSlots.Length == SlotCount
      ensures forall k :: 0 <= k < cardSlots.Length ==> cardSlots[k] == None
      ensures deckManager == null && notifications == [] && issuedEffects == []
    {
      cardSlots := new Option<Card>[SlotCount](_ => None);
      deckManager := null;
      notifications := [];
      issuedEffects := [];
    }

    method SetCardInSlot(slotIndex: int, card: Option<Card>)
      modifies cardSlots, this`notifications
      ensures 0 <= slotIndex < cardSlots.Length ==>
                cardSlots[..] == old(cardSlots[..])[slotIndex := card] &&
                notifications == old(notifications) + [SlotUpdate(slotIndex, card)]
      ensures !(0 <= slotIndex < cardSlots.Length) ==>
                cardSlots[..] == old(cardSlots[..]) && notifications == old(notifications)
    {
      if slotIndex < 0 || slotIndex >= cardSlots.Length {
        return;
      }
      cardSlots[slotIndex] := card;
      notifications := notifications + [SlotUpdate(slotIndex, card)];
    }

    /** Empties an occupied chamber, runs its card, discards it and asks for
        an automatic redraw of that chamber; does nothing otherwise. */
    method ActivateCardInSlot(slotIndex: int, player: Player)
      requires Valid()
      modifies cardSlots, this`notifications, this`issuedEffects, deckManager`discardPile, deckManager`pendingAutoDraws
      ensures deckManager.State() == ActivateSlot(old(deckManager.State()), slotIndex)
      ensures issuedEffects == old(issuedEffects) + ActivationEffects(old(deckManager.State()), slotIndex, player)
      ensures deckManager.pendingAutoDraws ==
                old(deckManager.pendingAutoDraws) + (if Occupied(old(deckManager.State()), slotIndex) then [slotIndex] else [])
    {
      if slotIndex < 0 || slotIndex >= cardSlots.Length {
        return;
      }
      var card := cardSlots[slotIndex];
      if card.Some? {
        var usedCard := card.value;
        cardSlots[slotIndex] := None;
        notifications := notifications + [SlotUpdate(slotIndex, None)];
        issuedEffects := issuedEffects + Activate(usedCard, player);
        deckManager.DiscardCard(Some(usedCard));
        deckManager.StartAutoDrawForSlot(slotIndex);
      }
    }

    /** Empties any in-range chamber and discards its card, if any; never
        asks for a redraw. */
    method DiscardCardFromSlot(slotIndex: int)
      requires Valid()
      modifies cardSlots, this`notifications, deckManager`discardPile
      ensures deckManager.State() == DiscardSlot(old(deckManager.State()), slotIndex)
    {
      if slotIndex < 0 || slotIndex >= cardSlots.Length {
        return;
      }
      var discardedCard := cardSlots[slotIndex];
      cardSlots[slotIndex] := None;
      notifications := notifications + [SlotUpdate(slotIndex, None)];
      if discardedCard.Some? {
        deckManager.DiscardCard(discardedCard);
      }
    }
  }

  class DeckManager {
    /** The player's permanent collection. */
    var baseDeck: seq<Card>
    /** The draw pile; the front is drawn first. */
    var activeDeck: seq<Card>
    var discardPile: seq<Card>
    /** Chambers whose delayed redraw is still waiting, oldest first. */
    var pendingAutoDraws: seq<int>
    const cardManager: CardManager

    ghost predicate Valid()
      reads this, cardManager
    {
      cardManager.deckManager == this && cardManager.cardSlots.Length == SlotCount
    }

    /** Both piles, the chambers and the UI calls, as one table. */
    ghost function State(): Table
      reads this, cardManager, cardManager.cardSlots
    {
      Table(activeDeck, discardPile, cardManager.cardSlots[..], cardManager.notifications)
    }

    /** A deck manager wired to a fresh chamber manager: empty piles, empty
        chambers. */
    constructor (baseDeck: seq<Card>)
      ensures Valid() && fresh(cardManager) && fresh(cardManager.cardSlots)
      ensures this.baseDeck == baseDeck && pendingAutoDraws == []
      ensures State() == Table([], [], [None, None, None, None], [])
      ensures cardManager.issuedEffects == []
    {
      this.baseDeck := baseDeck;
      activeDeck := [];
      discardPile := [];
      pendingAutoDraws := [];
      cardManager := new CardManager();
      new;
      cardManager.deckManager := this;
    }

    /** Clears both piles, shuffles a copy of the base deck into the draw
        pile and loads every chamber in index order. */
    method InitializeDecks(noise: nat -> nat)
      requires Valid()
      modifies this`activeDeck, this`discardPile, cardManager.cardSlots, cardManager`notifications
      ensures State() == Initialize(old(State()), baseDeck, noise)
    {
      activeDeck := [];
      discardPile := [];
      activeDeck := activeDeck + baseDeck;
      assert activeDeck == baseDeck;
      ShuffleDeck(Rolls(noise, |activeDeck|));
      ghost var start := State();
      assert start == Table(Shuffled(baseDeck, Rolls(noise, |baseDeck|)), [], old(State()).slots, old(State()).ui);
      var i := 0;
      while i < cardManager.cardSlots.Length
        invariant 0 <= i <= cardManager.cardSlots.Length
        invariant |State().slots| == |start.slots|
        invariant Fill(State(), i, noise) == Fill(start, 0, noise)
      {
        DrawCardToSlot(i, noise);
        i := i + 1;
      }
    }

    /** Takes the front card of the draw pile, first recycling the discard
        pile into an empty draw pile; None when no card is left anywhere. */
    method DrawCard(noise: nat -> nat) returns (drawn: Option<Card>)
      modifies this`activeDeck, this`discardPile
      ensures DrawOutcome(drawn, activeDeck, discardPile) == Draw(old(activeDeck), old(discardPile), noise)
    {
      if |activeDeck| == 0 {
        ShuffleDiscardIntoActiveDeck(noise);
      }
      if |activeDeck| == 0 {
        return None;
      }
      drawn := Some(activeDeck[0]);
      activeDeck := activeDeck[1..];
    }

    method DrawCardToSlot(slotIndex: int, noise: nat -> nat)
      requires Valid()
      modifies this`activeDeck, this`discardPile, cardManager.cardSlots, cardManager`notifications
      ensures State() == DrawToSlot(old(State()), slotIndex, noise)
    {
      if slotIndex < 0 || slotIndex >= cardManager.cardSlots.Length {
        return;
      }
      if cardManager.cardSlots[slotIndex].Some? {
        return;
      }
      var drawnCard := DrawCard(noise);
      if drawnCard.Some? {
        cardManager.SetCardInSlot(slotIndex, drawnCard);
      }
    }

    method DiscardCard(card: Option<Card>)
      modifies this`discardPile
      ensures discardPile == old(discardPile) + Discarded(card)
    {
      if card.Some? {
        discardPile := discardPile + [card.value];
      }
    }

    /** Starting the delayed redraw only records the request. */
    method StartAutoDrawForSlot(slotIndex: int)
      modifies this`pendingAutoDraws
      ensures pendingAutoDraws == old(pendingAutoDraws) + [slotIndex]
    {
      pendingAutoDraws := pendingAutoDraws + [slotIndex];
    }

    /** The oldest waiting redraw fires: AutoDrawAfterDelay after its delay. */
    method RunPendingAutoDraw(noise: nat -> nat)
      requires Valid() && pendingAutoDraws != []
      modifies this`activeDeck, this`discardPile, this`pendingAutoDraws, cardManager.cardSlots, cardManager`notifications
      ensures pendingAutoDraws == old(pendingAutoDraws[1..])
      ensures State() == DrawToSlot(old(State()), old(pendingAutoDraws[0]), noise)
    {
      var slotIndex := pendingAutoDraws[0];
      pendingAutoDraws := pendingAutoDraws[1..];
      DrawCardToSlot(slotIndex, noise);
    }

    /** Fisher-Yates in place on the draw pile, with rolls[i] standing for
        Random.Range(i, Count). */
    method ShuffleDeck(rolls: seq<nat>)
      requires ValidRolls(rolls, |activeDeck|)
      modifies this`activeDeck
      ensures activeDeck == Shuffled(old(activeDeck), rolls)
      ensures |activeDeck| == |old(activeDeck)| && multiset(activeDeck) == multiset(old(activeDeck))
    {
      var i := 0;
      while i < |activeDeck|
        invariant 0 <= i <= |activeDeck| == |old(activeDeck)|
        invariant FisherYates(activeDeck, rolls, i) == Shuffled(old(activeDeck), rolls)
      {
        var temp := activeDeck[i];
        var randomIndex := rolls[i];
        activeDeck := activeDeck[i := activeDeck[randomIndex]];
        activeDeck := activeDeck[randomIndex := temp];
        i := i + 1;
      }
      ShuffledPermutes(old(activeDeck), rolls);
    }

    method ShuffleDiscardIntoActiveDeck(noise: nat -> nat)
      modifies this`activeDeck, this`discardPile
      ensures discardPile == []
      ensures activeDeck == Shuffled(old(activeDeck) + old(discardPile), Rolls(noise, |old(activeDeck) + old(discardPile)|))
    {
      activeDeck := activeDeck + discardPile;
      discardPile := [];
      ShuffleDeck(Rolls(noise, |activeDeck|));
    }

    method GetActiveCount() returns (count: int)
      ensures count == |activeDeck|
    {
      count := |activeDeck|;
    }

    method GetDiscardCount() returns (count: int)
      ensures count == |discardPile|
    {
      count := |discardPile|;
    }
  }

  /** A one-card recycle: if the discard pile holds one card and the draw
      pile is empty, shuffling and drawing yields that same card. */
  lemma RecycleSingle(card: Card, noise: nat -> nat)
    ensures Draw([], [card], noise) == DrawOutcome(Some(card), [], [])
  {
    var r := Rolls(noise, 1);
    DrawRecyclesDiscard([card], noise);
    ShuffledPermutes([card], r);
    var sh := Shuffled([card], r);
    assert sh == [sh[0]];
    assert sh[0] in multiset(sh);
  }

  /** The refill cycle on tables: with a base deck of four cards and four
      empty chambers, initialization loads every chamber and leaves both
      piles empty; activating chamber 0 and then redrawing into it recycles
      the one discarded card and loads that same card back. */
  lemma RefillCycle(deck: seq<Card>, initNoise: nat -> nat, drawNoise: nat -> nat)
    requires |deck| == SlotCount
    ensures var f := Initialize(Table([], [], [None, None, None, None], []), deck, initNoise);
            var g := DrawToSlot(ActivateSlot(f, 0), 0, drawNoise);
            f.active == [] && f.discard == [] && |f.slots| == SlotCount &&
            f.slots[0].Some? && f.slots[0].value in multiset(deck) &&
            g.slots[0] == f.slots[0] && g.active == [] && g.discard == []
  {
    var t0 := Table([], [], [None, None, None, None], []);
    InitializeFromEmptySlots(t0, deck, initNoise);
    var sh := Shuffled(deck, Rolls(initNoise, |deck|));
    assert sh[0] in multiset(sh);
    var f := Initialize(t0, deck, initNoise);
    assert f.slots[0] == Some(sh[0]);
    var act := ActivateSlot(f, 0);
    assert act.active == [] && act.discard == [sh[0]];
    RecycleSingle(sh[0], drawNoise);
  }

  /** The refill cycle run through the two managers: the delayed redraw
      scheduled by activating chamber 0 loads the same card back, leaving
      both piles empty. */
  method RefillScenario(a: Card, b: Card, c: Card, d: Card, player: Player, initNoise: nat -> nat, drawNoise: nat -> nat)
    returns (loaded: Option<Card>, refilled: Option<Card>, activeAfterInit: int, activeAfter: int, discardAfter: int)
    ensures loaded.Some? && loaded.value in multiset{a, b, c, d}
    ensures refilled == loaded
    ensures activeAfterInit == 0 && activeAfter == 0 && discardAfter == 0
  {
    var deck := new DeckManager([a, b, c, d]);
    RefillCycle([a, b, c, d], initNoise, drawNoise);
    var chambers := deck.cardManager;
    deck.InitializeDecks(initNoise);
    ghost var f := deck.State();
    assert f == Initialize(Table([], [], [None, None, None, None], []), [a, b, c, d], initNoise);
    loaded := chambers.cardSlots[0];
    assert loaded == f.slots[0];
    activeAfterInit := deck.GetActiveCount();
    chambers.ActivateCardInSlot(0, player);
    ghost var act := deck.State();
    assert act == ActivateSlot(f, 0);
    assert deck.pendingAutoDraws == [0];
    deck.RunPendingAutoDraw(drawNoise);
    assert deck.State() == DrawToSlot(act, 0, drawNoise);
    refilled := chambers.cardSlots[0];
    activeAfter := deck.GetActiveCount();
    discardAfter := deck.GetDiscardCount();
  }
}
