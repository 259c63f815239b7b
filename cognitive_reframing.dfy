// components/tools/CognitiveReframing.tsx — a deck of five reframing cards,
// each flipped to write a kinder version of a negative thought.
module CognitiveReframing {

  /** The number of cards in the deck. */
  const Cards: nat := 5

  /** The card after `draws` draws from card i. */
  function AfterDraws(i: nat, draws: nat): nat
  {
    if draws == 0 then i else (AfterDraws(i, draws - 1) + 1) % Cards
  }

  /** Drawing k times moves k places round the deck. */
  lemma {:induction false} AfterDrawsIsShift(i: nat, draws: nat)
    requires i < Cards
    ensures AfterDraws(i, draws) == (i + draws) % Cards
    ensures AfterDraws(i, draws) < Cards
  {
    if draws > 0 {
      AfterDrawsIsShift(i, draws - 1);
    }
  }

  /** Five draws bring back the card drawn from. */
  lemma FiveDrawsReturn(i: nat)
    requires i < Cards
    ensures AfterDraws(i, Cards) == i
  {
    AfterDrawsIsShift(i, Cards);
  }

  class Deck {
    var cardIndex: nat
    var isFlipped: bool
    var userReframe: string

    predicate Valid()
      reads this
    {
      cardIndex < Cards
    }

    constructor ()
      ensures Valid() && cardIndex == 0 && !isFlipped && userReframe == []
    {
      cardIndex := 0;
      isFlipped := false;
      userReframe := [];
    }

    /** drawNewCard: the next card, face up and with no text. */
    method DrawNewCard()
      requires Valid()
      modifies this
      ensures Valid()
      ensures cardIndex == (old(cardIndex) + 1) % Cards && cardIndex == AfterDraws(old(cardIndex), 1)
      ensures !isFlipped && userReframe == []
    {
      isFlipped := false;
      userReframe := [];
      cardIndex := (cardIndex + 1) % Cards;
    }

    method Flip()
      modifies this`isFlipped
      ensures isFlipped
    {
      isFlipped := true;
    }

    method SetReframe(text: string)
      modifies this`userReframe
      ensures userReframe == text
    {
      userReframe := text;
    }
  }
}
