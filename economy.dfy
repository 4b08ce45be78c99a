/** The card economy as a value: where every card is (draw pile, discard
    pile, chambers) plus the calls made to the revolver UI.  Each slot
    operation of the deck and chamber managers is a function from one table
    to the next; the classes in CardSystem are proved to follow them. */
module Economy {
  import opened Wrappers
  import opened Cards
  import opened Piles

  /** A call of the revolver UI: LoadCard for a card, DiscardCard (here
      ClearSlot) for an emptied chamber. */
  datatype SlotNotification = LoadCard(slot: int, card: Card) | ClearSlot(slot: int)

  /** CardManager.UpdateSlotUI: which UI call a slot change makes. */
  function SlotUpdate(slot: int, card: Option<Card>): SlotNotification
  {
    if card.Some? then LoadCard(slot, card.value) else ClearSlot(slot)
  }

  datatype Table = Table(active: seq<Card>, discard: seq<Card>, slots: seq<Option<Card>>, ui: seq<SlotNotification>)

  /** Every card the player owns right now, wherever it is. */
  function Total(t: Table): multiset<Card>
  {
    multiset(t.active) + multiset(t.discard) + SlotCards(t.slots)
  }

  predicate InRange(t: Table, i: int)
  {
    0 <= i < |t.slots|
  }

  predicate Occupied(t: Table, i: int)
  {
    InRange(t, i) && t.slots[i].Some?
  }

  /** DeckManager.DrawCardToSlot: ignored out of range or on an occupied
      chamber; otherwise draw and, if a card came, load it. */
  function DrawToSlot(t: Table, i: int, noise: nat -> nat): Table
  {
    if !InRange(t, i) || t.slots[i].Some? then t
    else
      var o := Draw(t.active, t.discard, noise);
      if o.drawn.Some? then Table(o.active, o.discard, t.slots[i := o.drawn], t.ui + [SlotUpdate(i, o.drawn)])
      else Table(o.active, o.discard, t.slots, t.ui)
  }

  /** CardManager.ActivateCardInSlot, as far as the piles and the UI see it:
      the card leaves its chamber for the end of the discard pile. */
  function ActivateSlot(t: Table, i: int): Table
  {
    if !Occupied(t, i) then t
    else Table(t.active, t.discard + [t.slots[i].value], t.slots[i := None], t.ui + [SlotUpdate(i, None)])
  }

  /** The requests the card effect of ActivateCardInSlot issues. */
  function ActivationEffects(t: Table, i: int, player: Player): seq<EffectRequest>
  {
    if Occupied(t, i) then Activate(t.slots[i].value, player) else []
  }

  /** The card a chamber sent to the discard pile, if any. */
  function Discarded(slot: Option<Card>): seq<Card>
  {
    if slot.Some? then [slot.value] else []
  }

  /** CardManager.DiscardCardFromSlot: any in-range chamber is cleared (and
      the UI told so), its card, if any, goes to the discard pile. */
  function DiscardSlot(t: Table, i: int): Table
  {
    if !InRange(t, i) then t
    else Table(t.active, t.discard + Discarded(t.slots[i]), t.slots[i := None], t.ui + [SlotUpdate(i, None)])
  }

  /** The chamber-loading loop of InitializeDecks from chamber i on. */
  function Fill(t: Table, i: nat, noise: nat -> nat): Table
    decreases |t.slots| - i
  {
    if i >= |t.slots| then t
    else Fill(DrawToSlot(t, i, noise), i + 1, noise)
  }

  /** DeckManager.InitializeDecks: both piles are emptied, the base deck is
      copied into the draw pile and shuffled, then every chamber is loaded in
      index order. */
  function Initialize(t: Table, baseDeck: seq<Card>, noise: nat -> nat): Table
  {
    Fill(Table(Shuffled(baseDeck, Rolls(noise, |baseDeck|)), [], t.slots, t.ui), 0, noise)
  }

  /** Loading a chamber moves a card from the piles into the chamber and does
      not lose or invent any. */
  lemma DrawToSlotConserves(t: Table, i: int, noise: nat -> nat)
    ensures Total(DrawToSlot(t, i, noise)) == Total(t)
  {
    if InRange(t, i) && t.slots[i].None? {
      var o := Draw(t.active, t.discard, noise);
      var u := DrawToSlot(t, i, noise);
      DrawConserves(t.active, t.discard, noise);
      SlotCardsUpdate(t.slots, i, o.drawn);
      assert u.active == o.active && u.discard == o.discard;
      if o.drawn.Some? {
        assert u.slots == t.slots[i := o.drawn];
      } else {
        assert u.slots == t.slots == t.slots[i := o.drawn];
      }
      Rebalance(multiset(u.active) + multiset(u.discard), multiset(t.active) + multiset(t.discard),
                SlotCards(u.slots), SlotCards(t.slots), Held(o.drawn), Held(t.slots[i]));
    }
  }

  /** Loading a chamber writes at most that chamber, and writes the front of
      the draw pile when there is one. */
  lemma DrawToSlotWrites(t: Table, i: int, noise: nat -> nat)
    ensures |DrawToSlot(t, i, noise).slots| == |t.slots|
    ensures forall k :: 0 <= k < |t.slots| && k != i ==> DrawToSlot(t, i, noise).slots[k] == t.slots[k]
    ensures InRange(t, i) && t.slots[i].None? && t.active != [] ==>
              DrawToSlot(t, i, noise).slots[i] == Some(t.active[0]) &&
              DrawToSlot(t, i, noise).active == t.active[1..] &&
              DrawToSlot(t, i, noise).discard == t.discard
  {
    if InRange(t, i) && t.slots[i].None? && t.active != [] {
      DrawFromActive(t.active, t.discard, noise);
    }
  }

  /** A free chamber stays empty exactly when there is no card left in either
      pile. */
  lemma DrawToSlotEmptyIff(t: Table, i: int, noise: nat -> nat)
    requires InRange(t, i) && t.slots[i].None?
    ensures DrawToSlot(t, i, noise).slots[i].None? <==> t.active == [] && t.discard == []
    ensures DrawToSlot(t, i, noise).slots[i].None? ==> DrawToSlot(t, i, noise) == t
  {
    DrawNoneIff(t.active, t.discard, noise);
  }

  /** Activation moves the card to the discard pile: nothing lost. */
  lemma ActivateSlotConserves(t: Table, i: int)
    ensures Total(ActivateSlot(t, i)) == Total(t)
  {
    if Occupied(t, i) {
      var c := t.slots[i].value;
      var u := ActivateSlot(t, i);
      SlotCardsUpdate(t.slots, i, None);
      assert multiset(u.discard) == multiset(t.discard) + Held(t.slots[i]);
      Rebalance(multiset(u.active) + multiset(u.discard), multiset(t.active) + multiset(t.discard),
                SlotCards(u.slots), SlotCards(t.slots), Held(None), Held(t.slots[i]));
    }
  }

  /** An empty or out-of-range chamber activates nothing. */
  lemma ActivateEmptySlotIsNoOp(t: Table, i: int, player: Player)
    requires !Occupied(t, i)
    ensures ActivateSlot(t, i) == t && ActivationEffects(t, i, player) == []
  {
  }

  /** Activating an occupied chamber clears it, appends its card to the
      discard pile and runs that card's effect. */
  lemma ActivateOccupiedSlot(t: Table, i: int, player: Player)
    requires Occupied(t, i)
    ensures ActivateSlot(t, i).slots[i] == None
    ensures ActivateSlot(t, i).discard == t.discard + [t.slots[i].value]
    ensures ActivateSlot(t, i).active == t.active
    ensures forall k :: 0 <= k < |t.slots| && k != i ==> ActivateSlot(t, i).slots[k] == t.slots[k]
    ensures ActivationEffects(t, i, player) == Activate(t.slots[i].value, player)
  {
  }

  /** Discarding a chamber by hand: nothing lost. */
  lemma DiscardSlotConserves(t: Table, i: int)
    ensures Total(DiscardSlot(t, i)) == Total(t)
  {
    if InRange(t, i) {
      var u := DiscardSlot(t, i);
      SlotCardsUpdate(t.slots, i, None);
      assert multiset(u.discard) == multiset(t.discard) + Held(t.slots[i]);
      Rebalance(multiset(u.active) + multiset(u.discard), multiset(t.active) + multiset(t.discard),
                SlotCards(u.slots), SlotCards(t.slots), Held(None), Held(t.slots[i]));
    }
  }

  /** An in-range chamber ends up empty; the discard pile grows by its card
      only when it held one. */
  lemma DiscardSlotClears(t: Table, i: int)
    ensures InRange(t, i) ==> DiscardSlot(t, i).slots[i] == None
    ensures InRange(t, i) ==> |DiscardSlot(t, i).discard| == |t.discard| + (if t.slots[i].Some? then 1 else 0)
    ensures !InRange(t, i) ==> DiscardSlot(t, i) == t
  {
  }

  lemma {:induction false} FillConserves(t: Table, i: nat, noise: nat -> nat)
    ensures Total(Fill(t, i, noise)) == Total(t)
    decreases |t.slots| - i
  {
    if i < |t.slots| {
      DrawToSlotConserves(t, i, noise);
      FillConserves(DrawToSlot(t, i, noise), i + 1, noise);
    }
  }

  /** Whatever the chambers held before, InitializeDecks ends with an empty
      discard pile and the base deck plus the cards already chambered: both
      piles' old contents are dropped. */
  lemma InitializeConserves(t: Table, baseDeck: seq<Card>, noise: nat -> nat)
    ensures Total(Initialize(t, baseDeck, noise)) == multiset(baseDeck) + SlotCards(t.slots)
  {
    var r := Rolls(noise, |baseDeck|);
    ShuffledPermutes(baseDeck, r);
    FillConserves(Table(Shuffled(baseDeck, r), [], t.slots, t.ui), 0, noise);
  }

  /** Chamber j after loading from the shuffled deck sh. */
  function Loaded(sh: seq<Card>, j: nat): Option<Card>
  {
    if j < |sh| then Some(sh[j]) else None
  }

  function Min(a: nat, b: nat): nat
  {
    if a <= b then a else b
  }

  /** The UI calls the loading loop makes over chambers 0..k-1. */
  function LoadNotes(sh: seq<Card>, k: nat): seq<SlotNotification>
  {
    seq(Min(k, |sh|), j requires 0 <= j < Min(k, |sh|) => LoadCard(j, sh[j]))
  }

  lemma LoadNotesStep(sh: seq<Card>, k: nat)
    ensures k < |sh| ==> LoadNotes(sh, k + 1) == LoadNotes(sh, k) + [LoadCard(k, sh[k])]
    ensures k >= |sh| ==> LoadNotes(sh, k + 1) == LoadNotes(sh, k)
  {
  }

  lemma ShuffledEmpty(empty: seq<Card>, rolls: seq<nat>)
    requires empty == [] && ValidRolls(rolls, 0)
    ensures Shuffled(empty, rolls) == []
  {
  }

  /** The state of the loading loop before chamber i, started from empty
      chambers and an empty discard pile: chambers before i hold sh[0..i) (as
      far as sh goes), the rest are empty, the discard pile is still empty
      and the draw pile holds what is left of sh. */
  predicate LoadedUpTo(t: Table, i: nat, sh: seq<Card>, ui0: seq<SlotNotification>)
  {
    i <= |t.slots| && t.discard == [] &&
    (forall j :: 0 <= j < i ==> t.slots[j] == Loaded(sh, j)) &&
    (forall j :: i <= j < |t.slots| ==> t.slots[j] == None) &&
    t.active == sh[Min(i, |sh|)..] &&
    t.ui == ui0 + LoadNotes(sh, i)
  }

  /** One chamber of the loading loop keeps that state. */
  lemma LoadStep(t: Table, i: nat, noise: nat -> nat, sh: seq<Card>, ui0: seq<SlotNotification>)
    requires LoadedUpTo(t, i, sh, ui0) && i < |t.slots|
    ensures |DrawToSlot(t, i, noise).slots| == |t.slots|
    ensures LoadedUpTo(DrawToSlot(t, i, noise), i + 1, sh, ui0)
  {
    var u := DrawToSlot(t, i, noise);
    LoadNotesStep(sh, i);
    if i < |sh| {
      assert t.active == sh[i..] && t.active != [];
      DrawFromActive(t.active, t.discard, noise);
      assert u.active == sh[i + 1..];
      assert u.ui == ui0 + LoadNotes(sh, i + 1);
    } else {
      assert t.active == [];
      assert [] + t.discard == [];
      ShuffledEmpty(t.active + t.discard, Rolls(noise, 0));
      assert u == t;
    }
  }

  lemma {:induction false} FillFromEmpty(t: Table, i: nat, noise: nat -> nat, sh: seq<Card>, ui0: seq<SlotNotification>)
    requires LoadedUpTo(t, i, sh, ui0)
    ensures |Fill(t, i, noise).slots| == |t.slots|
    ensures LoadedUpTo(Fill(t, i, noise), |t.slots|, sh, ui0)
    decreases |t.slots| - i
  {
    if i < |t.slots| {
      LoadStep(t, i, noise, sh, ui0);
      FillFromEmpty(DrawToSlot(t, i, noise), i + 1, noise, sh, ui0);
    }
  }

  /** InitializeDecks with every chamber empty: the discard pile is empty,
      chamber j holds the j-th card of the shuffled base deck (each chamber is
      filled when the deck has at least as many cards as there are chambers),
      the draw pile holds the rest, one LoadCard per filled chamber is sent,
      and the player owns exactly the base deck. */
  lemma InitializeFromEmptySlots(t: Table, baseDeck: seq<Card>, noise: nat -> nat)
    requires forall j :: 0 <= j < |t.slots| ==> t.slots[j] == None
    ensures var sh := Shuffled(baseDeck, Rolls(noise, |baseDeck|));
            var f := Initialize(t, baseDeck, noise);
            |sh| == |baseDeck| && multiset(sh) == multiset(baseDeck) &&
            f.discard == [] && |f.slots| == |t.slots| &&
            (forall j :: 0 <= j < |t.slots| ==> f.slots[j] == Loaded(sh, j)) &&
            f.active == sh[Min(|t.slots|, |sh|)..] &&
            f.ui == t.ui + LoadNotes(sh, |t.slots|) &&
            Total(f) == multiset(baseDeck)
    ensures |baseDeck| >= |t.slots| ==> forall j :: 0 <= j < |t.slots| ==> Initialize(t, baseDeck, noise).slots[j].Some?
  {
    var r := Rolls(noise, |baseDeck|);
    var sh := Shuffled(baseDeck, r);
    ShuffledPermutes(baseDeck, r);
    var start := Table(sh, [], t.slots, t.ui);
    assert LoadNotes(sh, 0) == [];
    assert LoadedUpTo(start, 0, sh, t.ui);
    FillFromEmpty(start, 0, noise, sh, t.ui);
    var f := Fill(start, 0, noise);
    assert f == Initialize(t, baseDeck, noise);
    assert LoadedUpTo(f, |t.slots|, sh, t.ui);
    InitializeConserves(t, baseDeck, noise);
    SlotCardsEmpty(t.slots);
  }
}
