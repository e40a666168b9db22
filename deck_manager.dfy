/**
 * The card deck (CardDeckScripts/DeckManager.cs): a list of card prefabs
 * that is replaced, appended to, shuffled in place and drawn from the front.
 * The deck list is a sequence value, so `SetDeck`'s copy is the assignment
 * itself: later changes to the caller's list cannot reach the deck.
 */
module Decks {
  import opened Wrappers

  /** A card prefab, by its object identity. */
  datatype Prefab = Prefab(handle: nat)

  /** Drawing from a deck: the front card and the rest, or nothing from an empty deck. */
  function Draw(deck: seq<Prefab>): (r: (Option<Prefab>, seq<Prefab>))
    ensures r.0.None? <==> deck == []
    ensures r.0.Some? ==> [r.0.value] + r.1 == deck
    ensures r.0.None? ==> r.1 == deck
  {
    if |deck| == 0 then (None, deck) else (Some(deck[0]), deck[1..])
  }

  /** The deck is a queue: a card added at the back comes out after every card already there. */
  lemma DrawAfterAdd(deck: seq<Prefab>, card: Prefab)
    ensures deck == [] ==> Draw(deck + [card]) == (Some(card), [])
    ensures deck != [] ==> Draw(deck + [card]) == (Some(deck[0]), deck[1..] + [card])
  {
    if deck != [] {
      assert (deck + [card])[1..] == deck[1..] + [card];
    }
  }

  /** Drawing `n` cards from the front, in order, from a deck that has them. */
  lemma {:induction false} DrawInOrder(deck: seq<Prefab>, n: nat)
    requires n <= |deck|
    ensures DrawMany(deck, n) == (deck[..n], deck[n..])
  {
    if n > 0 {
      DrawInOrder(deck[1..], n - 1);
      assert deck[..n] == [deck[0]] + deck[1..][..n - 1];
      assert deck[n..] == deck[1..][n - 1..];
    }
  }

  /** The cards of `n` successive draws and the deck left afterwards. */
  function DrawMany(deck: seq<Prefab>, n: nat): (seq<Prefab>, seq<Prefab>)
    decreases n
  {
    if n == 0 then ([], deck)
    else
      var (card, rest) := Draw(deck);
      match card
      case None => ([], rest)
      case Some(c) =>
        var (more, left) := DrawMany(rest, n - 1);
        ([c] + more, left)
  }

  class DeckManager {
    var deck: seq<Prefab>

    /** A new deck is empty. */
    constructor ()
      ensures deck == []
    {
      deck := [];
    }

    /** `SetDeck`: the deck becomes a copy of the given list. */
    method SetDeck(newDeck: seq<Prefab>)
      modifies this
      ensures deck == newDeck
    {
      deck := newDeck;
    }

    /** `AddCard`: one card at the end. */
    method AddCard(cardPrefab: Prefab)
      modifies this
      ensures deck == old(deck) + [cardPrefab]
    {
      deck := deck + [cardPrefab];
    }

    /** `AddCards`: all the given cards at the end, in their order. */
    method AddCards(cards: seq<Prefab>)
      modifies this
      ensures deck == old(deck) + cards
    {
      deck := deck + cards;
    }

    /**
     * `Shuffle`: each position in turn swaps with a random position at or
     * after it. The deck keeps its length and its cards.
     */
    method Shuffle()
      modifies this
      ensures |deck| == |old(deck)|
      ensures multiset(deck) == multiset(old(deck))
    {
      var i := 0;
      while i < |deck|
        invariant 0 <= i <= |deck|
        invariant |deck| == |old(deck)|
        invariant multiset(deck) == multiset(old(deck))
      {
        var rand :| i <= rand < |deck|;
        var temp := deck[i];
        deck := deck[i := deck[rand]];
        deck := deck[rand := temp];
        i := i + 1;
      }
    }

    /**
     * `DrawCard`: an empty deck is left alone and nothing is drawn;
     * otherwise exactly the front card is removed and handed to the hand
     * area, and the rest keep their order.
     */
    method DrawCard() returns (drawn: Option<Prefab>)
      modifies this
      ensures (drawn, deck) == Draw(old(deck))
    {
      if |deck| == 0 {
        return None;
      }
      var prefab := deck[0];
      deck := deck[1..];
      return Some(prefab);
    }
  }
}
