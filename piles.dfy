/** Pure facts about the card piles: the Fisher-Yates shuffle driven by an
    oracle of random indices, and the multiset of the cards held in the
    chamber slots. */
module Piles {
  import opened Wrappers
  import opened Cards

  /** The indices Random.Range(i, n) may return, one per loop step of the
      shuffle: each lies in [i, n). */
  predicate ValidRolls(rolls: seq<nat>, n: nat)
  {
    |rolls| == n && forall i :: 0 <= i < n ==> i <= rolls[i] < n
  }

  /** The indices drawn from a random source: any raw draw is mapped into
      [i, n).  Every valid roll sequence arises this way. */
  function Rolls(noise: nat -> nat, n: nat): (rolls: seq<nat>)
    ensures ValidRolls(rolls, n)
  {
    seq(n, i requires 0 <= i < n => i + noise(i) % (n - i))
  }

  lemma EveryValidRollSequenceIsDrawn(rolls: seq<nat>, n: nat)
    requires ValidRolls(rolls, n)
    ensures Rolls((i: nat) => if i < |rolls| && i <= rolls[i] then rolls[i] - i else 0, n) == rolls
  {
    var noise: nat -> nat := (i: nat) => if i < |rolls| && i <= rolls[i] then rolls[i] - i else 0;
    forall i | 0 <= i < n ensures Rolls(noise, n)[i] == rolls[i] {
      assert noise(i) % (n - i) == rolls[i] - i;
    }
  }

  function Swap<T>(s: seq<T>, i: nat, j: nat): (r: seq<T>)
    requires i < |s| && j < |s|
  {
    s[i := s[j]][j := s[i]]
  }

  lemma SwapIsPermutation<T>(s: seq<T>, i: nat, j: nat)
    requires i < |s| && j < |s|
    ensures |Swap(s, i, j)| == |s|
    ensures multiset(Swap(s, i, j)) == multiset(s)
  {
    var t := s[i := s[j]];
    assert multiset(t) == multiset(s) - multiset{s[i]} + multiset{s[j]};
    assert multiset(t[j := s[i]]) == multiset(t) - multiset{t[j]} + multiset{s[i]};
  }

  /** The shuffle loop from step i on: swap position i with the rolled
      index, then continue with i + 1. */
  function FisherYates<T>(s: seq<T>, rolls: seq<nat>, i: nat): seq<T>
    requires ValidRolls(rolls, |s|) && i <= |s|
    decreases |s| - i
  {
    if i == |s| then s else FisherYates(Swap(s, i, rolls[i]), rolls, i + 1)
  }

  function Shuffled<T>(s: seq<T>, rolls: seq<nat>): seq<T>
    requires ValidRolls(rolls, |s|)
  {
    FisherYates(s, rolls, 0)
  }

  /** The shuffle is a permutation: same length, same multiset of cards. */
  lemma {:induction false} FisherYatesPermutes<T>(s: seq<T>, rolls: seq<nat>, i: nat)
    requires ValidRolls(rolls, |s|) && i <= |s|
    ensures |FisherYates(s, rolls, i)| == |s|
    ensures multiset(FisherYates(s, rolls, i)) == multiset(s)
    decreases |s| - i
  {
    if i < |s| {
      SwapIsPermutation(s, i, rolls[i]);
      FisherYatesPermutes(Swap(s, i, rolls[i]), rolls, i + 1);
    }
  }

  lemma ShuffledPermutes<T>(s: seq<T>, rolls: seq<nat>)
    requires ValidRolls(rolls, |s|)
    ensures |Shuffled(s, rolls)| == |s| && multiset(Shuffled(s, rolls)) == multiset(s)
  {
    FisherYatesPermutes(s, rolls, 0);
  }

  /** The card a slot holds, as a multiset of at most one card. */
  function Held<T>(slot: Option<T>): multiset<T>
  {
    if slot.Some? then multiset{slot.value} else multiset{}
  }

  /** All cards held in the slots. */
  function SlotCards<T>(slots: seq<Option<T>>): multiset<T>
  {
    if slots == [] then multiset{} else Held(slots[0]) + SlotCards(slots[1..])
  }

  lemma {:induction false} SlotCardsEmpty<T>(slots: seq<Option<T>>)
    requires forall k :: 0 <= k < |slots| ==> slots[k].None?
    ensures SlotCards(slots) == multiset{}
  {
    if slots != [] {
      SlotCardsEmpty(slots[1..]);
    }
  }

  lemma AddOnLeft<T>(h: multiset<T>, a: multiset<T>, b: multiset<T>, p: multiset<T>, q: multiset<T>)
    requires a + p == b + q
    ensures h + a + p == h + b + q
  {
    forall c ensures (h + a + p)[c] == (h + b + q)[c] {
      assert (a + p)[c] == (b + q)[c];
    }
  }

  /** Moving cards between two places: if the first place gave away y and
      received x while the second received y and gave away x, the pair as a
      whole is unchanged. */
  lemma Rebalance<T>(a: multiset<T>, b: multiset<T>, c: multiset<T>, d: multiset<T>, x: multiset<T>, y: multiset<T>)
    requires a + x == b + y
    requires c + y == d + x
    ensures a + c == b + d
  {
    forall e ensures (a + c)[e] == (b + d)[e] {
      assert (a + x)[e] == (b + y)[e];
      assert (c + y)[e] == (d + x)[e];
    }
  }

  lemma UnfoldUpdate<T>(slots: seq<Option<T>>, i: nat, x: Option<T>)
    requires 0 < i < |slots|
    ensures SlotCards(slots[i := x]) == Held(slots[0]) + SlotCards(slots[1..][i - 1 := x])
  {
    assert slots[i := x][1..] == slots[1..][i - 1 := x];
  }

  lemma UpdateFirst<T>(slots: seq<Option<T>>, x: Option<T>)
    requires 0 < |slots|
    ensures SlotCards(slots[0 := x]) + Held(slots[0]) == SlotCards(slots) + Held(x)
  {
    assert slots[0 := x][1..] == slots[1..];
  }

  /** Replacing the content of one slot exchanges exactly that card in the
      multiset of held cards. */
  lemma {:induction false} SlotCardsUpdate<T>(slots: seq<Option<T>>, i: nat, x: Option<T>)
    requires i < |slots|
    ensures SlotCards(slots[i := x]) + Held(slots[i]) == SlotCards(slots) + Held(x)
  {
    if i == 0 {
      UpdateFirst(slots, x);
    } else {
      var rest := slots[1..];
      assert rest[i - 1] == slots[i];
      SlotCardsUpdate(rest, i - 1, x);
      UnfoldUpdate(slots, i, x);
      AddOnLeft(Held(slots[0]), SlotCards(rest[i - 1 := x]), SlotCards(rest), Held(slots[i]), Held(x));
    }
  }

  /** The held cards of a prefix grow by one slot at a time. */
  lemma {:induction false} SlotCardsSnoc<T>(slots: seq<Option<T>>, k: nat)
    requires k < |slots|
    ensures SlotCards(slots[..k + 1]) == SlotCards(slots[..k]) + Held(slots[k])
  {
    if k == 0 {
      assert slots[..1][1..] == [];
    } else {
      assert slots[..k + 1][1..] == slots[1..][..k];
      assert slots[..k][1..] == slots[1..][..k - 1];
      SlotCardsSnoc(slots[1..], k - 1);
    }
  }

  /** What DrawCard returns and leaves behind. */
  datatype DrawOutcome = DrawOutcome(drawn: Option<Card>, active: seq<Card>, discard: seq<Card>)

  /** DrawCard: an empty draw pile first takes the whole discard pile and is
      shuffled; then the front card is drawn, if there is one. */
  function Draw(active: seq<Card>, discard: seq<Card>, noise: nat -> nat): DrawOutcome
  {
    var pile := if active == [] then Shuffled(active + discard, Rolls(noise, |active + discard|)) else active;
    var spent := if active == [] then [] else discard;
    if pile == [] then DrawOutcome(None, pile, spent) else DrawOutcome(Some(pile[0]), pile[1..], spent)
  }

  /** From a non-empty draw pile the front card is drawn and the discard
      pile is not touched. */
  lemma DrawFromActive(active: seq<Card>, discard: seq<Card>, noise: nat -> nat)
    requires active != []
    ensures Draw(active, discard, noise) == DrawOutcome(Some(active[0]), active[1..], discard)
  {
  }

  /** From an empty draw pile the discard pile is recycled: it ends up empty
      and the card comes from the shuffled discard pile. */
  lemma DrawRecyclesDiscard(discard: seq<Card>, noise: nat -> nat)
    requires discard != []
    ensures var r := Rolls(noise, |discard|);
            |Shuffled(discard, r)| == |discard| &&
            Draw([], discard, noise) == DrawOutcome(Some(Shuffled(discard, r)[0]), Shuffled(discard, r)[1..], [])
  {
    assert [] + discard == discard;
    ShuffledPermutes(discard, Rolls(noise, |discard|));
  }

  /** No card is drawn exactly when both piles are empty, and then both stay
      empty. */
  lemma DrawNoneIff(active: seq<Card>, discard: seq<Card>, noise: nat -> nat)
    ensures Draw(active, discard, noise).drawn.None? <==> active == [] && discard == []
    ensures Draw(active, discard, noise).drawn.None? ==> Draw(active, discard, noise) == DrawOutcome(None, [], [])
  {
    if active == [] {
      ShuffledPermutes(active + discard, Rolls(noise, |active + discard|));
    }
  }

  /** Drawing loses and invents no card: the two piles after the draw plus
      the drawn card are the two piles before. */
  lemma DrawConserves(active: seq<Card>, discard: seq<Card>, noise: nat -> nat)
    ensures var o := Draw(active, discard, noise);
            multiset(o.active) + multiset(o.discard) + Held(o.drawn) == multiset(active) + multiset(discard)
  {
    var o := Draw(active, discard, noise);
    var pile := if active == [] then Shuffled(active + discard, Rolls(noise, |active + discard|)) else active;
    if active == [] {
      ShuffledPermutes(active + discard, Rolls(noise, |active + discard|));
    }
    assert multiset(pile) + multiset(o.discard) == multiset(active) + multiset(discard);
    if pile != [] {
      assert pile == [pile[0]] + pile[1..];
      assert multiset(pile) == multiset{pile[0]} + multiset(pile[1..]);
    }
  }
}
