// components/tools/minigames/MemoryMatch.tsx — sixteen cards, eight pairs
// of icons; turn two face up, keep them if they match.
module MemoryMatch {
  import JsMath

  /** A card; its icon is determined by `iconId`. */
  datatype Card = Card(id: nat, iconId: nat, isFlipped: bool, isMatched: bool)

  const Icons := 8

  /** The deck before shuffling: for icon k the cards 2k and 2k+1. */
  function FreshDeck(): seq<Card>
  {
    seq(2 * Icons, i requires 0 <= i < 2 * Icons => Card(i, i / 2, false, false))
  }

  /** One draw of Math.random() per swap. */
  predicate Draws(rands: seq<real>)
  {
    forall k :: 0 <= k < |rands| ==> 0.0 <= rands[k] < 1.0
  }

  /** The Fisher–Yates loop: from the last position down to the second, swap
      it with a position drawn at random from those up to it. */
  method Shuffle(a: array<Card>, rands: seq<real>)
    requires a.Length > 0 && |rands| == a.Length - 1 && Draws(rands)
    modifies a
    ensures multiset(a[..]) == multiset(old(a[..]))
  {
    var i := a.Length - 1;
    while i > 0
      invariant 0 <= i < a.Length
      invariant multiset(a[..]) == multiset(old(a[..]))
    {
      var j := JsMath.PickIndex(rands[a.Length - 1 - i], i + 1);
      a[i], a[j] := a[j], a[i];
      i := i - 1;
    }
  }

  /** createShuffledCards. */
  method CreateShuffledCards(rands: seq<real>) returns (cards: seq<Card>)
    requires |rands| == 2 * Icons - 1 && Draws(rands)
    ensures multiset(cards) == multiset(FreshDeck())
  {
    var a := new Card[2 * Icons](i requires 0 <= i < 2 * Icons => Card(i, i / 2, false, false));
    assert a[..] == FreshDeck();
    Shuffle(a, rands);
    cards := a[..];
  }

  /** Positions hold different cards. */
  predicate Distinct(s: seq<Card>)
  {
    forall p, q :: 0 <= p < q < |s| ==> s[p] != s[q]
  }

  lemma {:induction false} DistinctCount(s: seq<Card>, x: Card)
    requires Distinct(s)
    ensures multiset(s)[x] <= 1
    decreases |s|
  {
    if s != [] {
      DistinctCount(s[1..], x);
      assert s == [s[0]] + s[1..];
      if s[0] == x {
        assert x !in s[1..] by {
          forall q | 0 <= q < |s[1..]| ensures s[1..][q] != x {
            assert s[1..][q] == s[q + 1];
          }
        }
      }
    }
  }

  /** A card twice in s occurs at least twice in its multiset. */
  lemma Twice(s: seq<Card>, p: nat, q: nat)
    requires p < q < |s| && s[p] == s[q]
    ensures multiset(s)[s[p]] >= 2
  {
    assert s == s[..q] + [s[q]] + s[q + 1..];
    assert s[..q][p] == s[p];
    assert s[p] in multiset(s[..q]);
  }

  /** Rearranging distinct cards keeps them distinct. */
  lemma PermutationDistinct(s: seq<Card>, t: seq<Card>)
    requires multiset(s) == multiset(t) && Distinct(t)
    ensures Distinct(s)
  {
    forall p, q | 0 <= p < q < |s| ensures s[p] != s[q] {
      if s[p] == s[q] {
        Twice(s, p, q);
        DistinctCount(t, s[p]);
      }
    }
  }

  /** Any shuffle of the new deck has 16 cards with ids 0..15, all different,
      every card face down and unmatched, and icon k on cards 2k and 2k+1
      only — so each icon on exactly two cards. */
  lemma ShuffledDeck(s: seq<Card>)
    requires multiset(s) == multiset(FreshDeck())
    ensures |s| == 2 * Icons
    ensures forall p :: 0 <= p < |s| ==> s[p].id < 2 * Icons && s[p].iconId == s[p].id / 2
                                         && !s[p].isFlipped && !s[p].isMatched
    ensures forall p, q :: 0 <= p < q < |s| ==> s[p].id != s[q].id
    ensures forall i :: 0 <= i < 2 * Icons ==> Card(i, i / 2, false, false) in s
  {
    var deck := FreshDeck();
    assert |s| == |multiset(s)| == |multiset(deck)| == |deck|;
    forall p | 0 <= p < |s|
      ensures s[p].id < 2 * Icons && s[p].iconId == s[p].id / 2 && !s[p].isFlipped && !s[p].isMatched
    {
      assert s[p] in multiset(deck);
    }
    assert Distinct(deck);
    PermutationDistinct(s, deck);
    forall i | 0 <= i < 2 * Icons ensures Card(i, i / 2, false, false) in s {
      assert deck[i] in multiset(s);
    }
  }

  /** Among the positions of any shuffle of the new deck, icon k is on exactly two. */
  lemma IconOnTwoCards(s: seq<Card>, k: nat)
    requires multiset(s) == multiset(FreshDeck()) && k < Icons
    ensures exists p, q :: 0 <= p < q < |s| && s[p].iconId == k && s[q].iconId == k
                           && forall r :: 0 <= r < |s| && s[r].iconId == k ==> r == p || r == q
  {
    ShuffledDeck(s);
    var i0, i1 := 2 * k, 2 * k + 1;
    assert i0 / 2 == k && i1 / 2 == k;
    assert Card(i0, i0 / 2, false, false) in s && Card(i1, i1 / 2, false, false) in s;
    var a :| 0 <= a < |s| && s[a] == Card(2 * k, k, false, false);
    var b :| 0 <= b < |s| && s[b] == Card(2 * k + 1, k, false, false);
    var p, q := if a < b then a else b, if a < b then b else a;
    forall r | 0 <= r < |s| && s[r].iconId == k ensures r == p || r == q {
      assert s[r].id == s[a].id || s[r].id == s[b].id;
    }
  }

  // ---------------------------------------------------------------- the component

  predicate AllMatched(cards: seq<Card>)
  {
    forall k :: 0 <= k < |cards| ==> cards[k].isMatched
  }

  /** A card that has been matched stays matched. */
  predicate KeepsMatches(before: seq<Card>, after: seq<Card>)
  {
    |after| == |before| && forall k :: 0 <= k < |before| && before[k].isMatched ==> after[k].isMatched
  }

  /** No two cards share an id. */
  predicate DistinctIds(cards: seq<Card>)
  {
    forall p, q :: 0 <= p < q < |cards| ==> cards[p].id != cards[q].id
  }

  /** The match branch: every card carrying the id of one of the two is marked matched. */
  function MarkPair(cards: seq<Card>, first: Card, second: Card): (r: seq<Card>)
    ensures KeepsMatches(cards, r)
    ensures forall k :: 0 <= k < |r| ==> r[k].isFlipped == cards[k].isFlipped
  {
    seq(|cards|, k requires 0 <= k < |cards| =>
          if cards[k].id == first.id || cards[k].id == second.id then cards[k].(isMatched := true) else cards[k])
  }

  /** With distinct ids, marking by id marks exactly the two positions. */
  lemma MarkPairAt(cards: seq<Card>, i: nat, j: nat)
    requires DistinctIds(cards) && i < |cards| && j < |cards|
    ensures MarkPair(cards, cards[i], cards[j])
            == cards[i := cards[i].(isMatched := true)][j := cards[j].(isMatched := true)]
  {
    var r := MarkPair(cards, cards[i], cards[j]);
    var e := cards[i := cards[i].(isMatched := true)][j := cards[j].(isMatched := true)];
    forall k | 0 <= k < |cards| ensures r[k] == e[k] {
      if k != i && k != j {
        if k < i { assert cards[k].id != cards[i].id; } else { assert cards[i].id != cards[k].id; }
        if k < j { assert cards[k].id != cards[j].id; } else { assert cards[j].id != cards[k].id; }
      }
    }
  }

  /** The timer callback: the cards at the two positions turn face down. */
  function Unflip(cards: seq<Card>, i: nat, j: nat): (r: seq<Card>)
    ensures |r| == |cards|
    ensures forall k :: 0 <= k < |r| ==> r[k].isMatched == cards[k].isMatched && r[k].id == cards[k].id
    ensures forall k :: 0 <= k < |r| ==> (r[k].isFlipped <==> cards[k].isFlipped && k != i && k != j)
  {
    seq(|cards|, k requires 0 <= k < |cards| =>
          if k == i || k == j then cards[k].(isFlipped := false) else cards[k])
  }

  class Game {
    var cards: seq<Card>
    var flipped: seq<nat>
    var moves: nat
    var isGameOver: bool
    var isChecking: bool
    /** The "no match" timers set and not yet fired, each with the two
        positions its callback turns back; they fire in the order set. */
    var timers: seq<(nat, nat)>

    /** What every handler keeps: at most two face-up positions, distinct and
        face up; distinct ids; over exactly when the deck is non-empty and
        all matched. */
    predicate Valid()
      reads this
    {
      FaceUpOk() && isGameOver == (AllMatched(cards) && |cards| > 0)
    }

    /** Valid but for the game-over flag. */
    predicate FaceUpOk()
      reads this
    {
      |flipped| <= 2
      && (forall f :: 0 <= f < |flipped| ==> flipped[f] < |cards|)
      && (|flipped| == 2 ==> flipped[0] != flipped[1])
      && (forall f :: 0 <= f < |flipped| ==> cards[flipped[f]].isFlipped)
      && DistinctIds(cards)
    }

    /** What the game means to keep as well: a face-up unmatched card is one
        of the face-up list, and a timer is pending exactly while checking,
        for the two cards of that list. */
    predicate Consistent()
      reads this
    {
      (forall k :: 0 <= k < |cards| && cards[k].isFlipped && !cards[k].isMatched ==> k in flipped)
      && isChecking == (|timers| > 0)
      && (|timers| > 0 ==> |timers| == 1 && |flipped| == 2 && timers[0] == (flipped[0], flipped[1]))
    }

    constructor (rands: seq<real>)
      requires |rands| == 2 * Icons - 1 && Draws(rands)
      ensures Valid() && Consistent()
      ensures multiset(cards) == multiset(FreshDeck())
      ensures flipped == [] && moves == 0 && !isGameOver && !isChecking && timers == []
    {
      var deck := CreateShuffledCards(rands);
      ShuffledDeck(deck);
      FreshNotOver(deck);
      cards, flipped, moves, isGameOver, isChecking, timers := deck, [], 0, false, false, [];
    }

    /** The pair-check effect, run when the face-up list or the cards change:
        with two face up, a match marks both matched and clears the list; a
        mismatch sets the timer that turns them back. Either way one move is
        counted. */
    method CheckPair()
      requires FaceUpOk()
      modifies this
      ensures FaceUpOk()
      ensures |old(flipped)| != 2 ==> cards == old(cards) && flipped == old(flipped) && moves == old(moves)
                                      && isChecking == old(isChecking) && timers == old(timers)
      ensures |old(flipped)| == 2 ==>
                var i, j := old(flipped)[0], old(flipped)[1];
                moves == old(moves) + 1
                && if old(cards)[i].iconId == old(cards)[j].iconId
                   then cards == old(cards)[i := old(cards)[i].(isMatched := true)][j := old(cards)[j].(isMatched := true)]
                        && flipped == [] && !isChecking && timers == old(timers)
                   else cards == old(cards) && flipped == old(flipped) && isChecking
                        && timers == old(timers) + [(i, j)]
      ensures isGameOver == old(isGameOver)
      ensures KeepsMatches(old(cards), cards)
    {
      if |flipped| == 2 {
        isChecking := true;
        var firstIndex, secondIndex := flipped[0], flipped[1];
        var firstCard, secondCard := cards[firstIndex], cards[secondIndex];
        if firstCard.iconId == secondCard.iconId {
          MarkPairAt(cards, firstIndex, secondIndex);
          cards := MarkPair(cards, firstCard, secondCard);
          flipped := [];
          isChecking := false;
        } else {
          timers := timers + [(firstIndex, secondIndex)];
        }
        moves := moves + 1;
      }
    }

    /** The game-over effect, run when the cards change. */
    method GameOverCheck()
      modifies this
      ensures isGameOver == (old(isGameOver) || (AllMatched(cards) && |cards| > 0))
      ensures cards == old(cards) && flipped == old(flipped) && moves == old(moves)
      ensures isChecking == old(isChecking) && timers == old(timers)
    {
      if AllMatched(cards) && |cards| > 0 {
        isGameOver := true;
      }
    }

    /** handleCardClick, followed by the effects its change triggers. */
    method CardClick(index: nat)
      requires Valid() && index < |cards|
      modifies this
      ensures Valid()
      ensures var ignored := old(isChecking) || old(cards[index].isFlipped) || old(cards[index].isMatched)
                             || |old(flipped)| >= 2;
              var c1, f1 := old(cards)[index := old(cards[index]).(isFlipped := true)], old(flipped) + [index];
              if ignored then
                cards == old(cards) && flipped == old(flipped) && moves == old(moves)
                && isChecking == old(isChecking) && timers == old(timers)
              else if |f1| < 2 then
                cards == c1 && flipped == f1 && moves == old(moves) && !isChecking && timers == old(timers)
              else
                moves == old(moves) + 1
                && if c1[f1[0]].iconId == c1[f1[1]].iconId
                   then cards == c1[f1[0] := c1[f1[0]].(isMatched := true)][f1[1] := c1[f1[1]].(isMatched := true)]
                        && flipped == [] && !isChecking && timers == old(timers)
                   else cards == c1 && flipped == f1 && isChecking && timers == old(timers) + [(f1[0], f1[1])]
      ensures old(Consistent()) ==> Consistent()
      ensures KeepsMatches(old(cards), cards)
    {
      if isChecking || cards[index].isFlipped || cards[index].isMatched || |flipped| >= 2 {
        return;
      }
      Flip(index);
      ghost var flippedCards := cards;
      CheckPair();
      assert KeepsMatches(flippedCards, cards);
      GameOverCheck();
    }

    /** The click's own update: the card turns face up and joins the list. */
    method Flip(index: nat)
      requires FaceUpOk() && index < |cards| && !cards[index].isFlipped && |flipped| < 2
      modifies this`cards, this`flipped
      ensures cards == old(cards)[index := old(cards[index]).(isFlipped := true)]
      ensures flipped == old(flipped) + [index]
      ensures FaceUpOk() && KeepsMatches(old(cards), cards)
      ensures (forall k :: 0 <= k < |old(cards)| && old(cards)[k].isFlipped && !old(cards)[k].isMatched ==> k in old(flipped))
              ==> forall k :: 0 <= k < |cards| && cards[k].isFlipped && !cards[k].isMatched ==> k in flipped
    {
      cards := cards[index := cards[index].(isFlipped := true)];
      flipped := flipped + [index];
      assert forall p, q :: 0 <= p < q < |cards| ==> cards[p].id == old(cards)[p].id && cards[q].id == old(cards)[q].id;
    }

    /** The oldest pending timer fires: its two cards turn face down, the
        face-up list is cleared and checking ends. */
    method TimerFires()
      requires Valid()
      modifies this
      ensures Valid()
      ensures old(timers) == [] ==> cards == old(cards) && flipped == old(flipped)
                                    && isChecking == old(isChecking) && timers == []
      ensures old(timers) != [] ==> cards == Unflip(old(cards), old(timers)[0].0, old(timers)[0].1)
                                    && flipped == [] && !isChecking && timers == old(timers)[1..]
      ensures moves == old(moves)
      ensures old(Consistent()) ==> Consistent()
      ensures KeepsMatches(old(cards), cards)
    {
      if timers != [] {
        var (firstIndex, secondIndex) := timers[0];
        cards := Unflip(cards, firstIndex, secondIndex);
        flipped := [];
        isChecking := false;
        timers := timers[1..];
      }
    }

    /** resetGame as written: a new deck and a fresh score, but a timer
        still pending is not cancelled. The game is consistent afterwards
        exactly when no timer was pending. */
    method Reset(rands: seq<real>)
      requires |rands| == 2 * Icons - 1 && Draws(rands)
      modifies this
      ensures Valid()
      ensures multiset(cards) == multiset(FreshDeck())
      ensures flipped == [] && moves == 0 && !isGameOver && !isChecking && timers == old(timers)
      ensures forall k :: 0 <= k < |cards| ==> !cards[k].isFlipped
      ensures Consistent() <==> old(timers) == []
    {
      var deck := CreateShuffledCards(rands);
      ShuffledDeck(deck);
      FreshNotOver(deck);
      cards := deck;
      flipped := [];
      moves := 0;
      isGameOver := false;
      isChecking := false;
    }

    /** resetGame with the pending timers cancelled: always consistent. */
    method ResetCancelling(rands: seq<real>)
      requires |rands| == 2 * Icons - 1 && Draws(rands)
      modifies this
      ensures Valid() && Consistent()
      ensures multiset(cards) == multiset(FreshDeck())
      ensures flipped == [] && moves == 0 && !isGameOver && !isChecking && timers == []
    {
      Reset(rands);
      timers := [];
    }
  }

  /** A fresh deck is not a finished game and has no card face up. */
  lemma FreshNotOver(s: seq<Card>)
    requires multiset(s) == multiset(FreshDeck())
    ensures !AllMatched(s) && |s| > 0
    ensures forall k :: 0 <= k < |s| ==> !s[k].isFlipped
  {
    ShuffledDeck(s);
    assert !s[0].isMatched;
  }

  /** Reset during the one-second wait after a mismatch, then turn a card of
      the new deck face up: the old timer fires and clears the face-up list,
      and the card is left face up, unmatched and out of the list. Clicks on
      it are ignored from then on, so the game can no longer be finished. */
  method StaleTimerStrandsCard(g: Game, rands: seq<real>, c: nat)
    requires g.Valid() && g.Consistent() && |g.timers| == 1
    requires |rands| == 2 * Icons - 1 && Draws(rands)
    requires c < 2 * Icons && c != g.timers[0].0 && c != g.timers[0].1
    modifies g
    ensures g.Valid() && !g.Consistent()
    ensures c < |g.cards| && g.cards[c].isFlipped && !g.cards[c].isMatched && c !in g.flipped
    ensures !g.isChecking && g.timers == []
  {
    g.Reset(rands);
    ShuffledDeck(g.cards);
    g.CardClick(c);
    assert g.cards[c].isFlipped && !g.cards[c].isMatched;
    g.TimerFires();
  }
}
