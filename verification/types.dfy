/** Cards, decks and game records of the future-sight simulator.
    Index 0 of a deck is its bottom and the last element its top. */
module Types {

  /** A card; only `hasQual` is ever branched on, the other two fields are carried along. */
  datatype MagicCard = MagicCard(cardId: int, hasQual: bool, uniqueQual: int := 0, cmc: int := -1)

  /** The exceptions the core raises. */
  datatype Failure = EmptyDeckException | ValueError | ZeroDivisionError

  datatype Result<T> = Ok(value: T) | Err(error: Failure)

  datatype Option<T> = None | Some(value: T)

  /** Setting of one game: m of the n cards have the quality; per round at most
      roundMax cards are played from the top and at most scryMax scries are taken. */
  datatype FSGameParams = FSGameParams(m: int, n: int, roundMax: int, scryMax: int)

  /** Rounds played, total extra cards played, and their exact average per round. */
  datatype FSGameOutcome = FSGameOutcome(rounds: int, virtualDraws: int, dpr: real)

  /** How `add_cards(c, to_bottom=True)` places a card: as the code does it (at the
      bottom AND on top, the append having no `else`), or only at the bottom, as its
      documentation says. */
  datatype BuryRule = AsWritten | Intended

  function Top(s: seq<MagicCard>): MagicCard
    requires |s| > 0
  {
    s[|s| - 1]
  }

  function WithoutTop(s: seq<MagicCard>): seq<MagicCard>
    requires |s| > 0
  {
    s[..|s| - 1]
  }

  /** The deck after `add_cards(card, toBottom)`. */
  function AddedCards(s: seq<MagicCard>, card: MagicCard, toBottom: bool, rule: BuryRule): (r: seq<MagicCard>)
    ensures !toBottom ==> r == s + [card]
    ensures toBottom ==> |r| > |s| && r[0] == card && r[1..|s| + 1] == s
    ensures |r| == |s| + (if toBottom && rule == AsWritten then 2 else 1)
    ensures toBottom && rule == AsWritten ==> r[|s| + 1] == card
  {
    var inserted := if toBottom then [card] + s else s;
    match rule
    case Intended => if toBottom then inserted else inserted + [card]
    case AsWritten => inserted + [card]
  }

  /** The deck after `move_to_bottom`: the former top is at index 0 and the other
      cards keep their order above it. */
  function MovedToBottom(s: seq<MagicCard>, rule: BuryRule): (r: seq<MagicCard>)
    ensures |s| <= 1 ==> r == s
    ensures |r| == |s| + (if |s| >= 2 && rule == AsWritten then 1 else 0)
    ensures |s| >= 2 ==> r[0] == Top(s) && r[1..|s|] == WithoutTop(s)
    ensures |s| >= 2 && rule == AsWritten ==> r[|s|] == Top(s)
  {
    if |s| <= 1 then s else AddedCards(WithoutTop(s), Top(s), true, rule)
  }

  /** Whether `scry1` buries the top card. */
  predicate ScryMoves(s: seq<MagicCard>)
  {
    |s| >= 2 && !Top(s).hasQual
  }

  /** The deck after `scry1`. */
  function Scried(s: seq<MagicCard>, rule: BuryRule): (r: seq<MagicCard>)
    ensures !ScryMoves(s) ==> r == s
    ensures |r| == |s| + (if ScryMoves(s) && rule == AsWritten then 1 else 0)
    ensures ScryMoves(s) ==> r[0] == Top(s)
    ensures rule == AsWritten ==> (r == s <==> !ScryMoves(s))
  {
    if |s| <= 1 || Top(s).hasQual then s else MovedToBottom(s, rule)
  }

  /** As written, burying the top of a deck of two or more cards leaves a copy of
      it on top as well: the deck grows by one and the former top is counted twice. */
  lemma MoveToBottomDuplicatesTop(s: seq<MagicCard>)
    requires |s| >= 2
    ensures MovedToBottom(s, AsWritten) == [Top(s)] + WithoutTop(s) + [Top(s)]
    ensures multiset(MovedToBottom(s, AsWritten)) == multiset(s) + multiset{Top(s)}
    ensures multiset(MovedToBottom(s, AsWritten)) != multiset(s)
  {
    assert s == WithoutTop(s) + [Top(s)];
    assert Top(s) in multiset(MovedToBottom(s, AsWritten));
  }

  /** With the `else` the documentation describes, burying is a rotation: the
      cards are conserved and the former top becomes the bottom. */
  lemma MoveToBottomIntendedConserves(s: seq<MagicCard>)
    ensures |MovedToBottom(s, Intended)| == |s|
    ensures multiset(MovedToBottom(s, Intended)) == multiset(s)
    ensures |s| >= 2 ==> MovedToBottom(s, Intended) == [Top(s)] + WithoutTop(s)
  {
    if |s| >= 2 {
      assert s == WithoutTop(s) + [Top(s)];
    }
  }

  /** The deck; `cards` is updated in place by the methods below. */
  class MagicDeck {
    var cards: seq<MagicCard>

    constructor (cards: seq<MagicCard>)
      ensures this.cards == cards
    {
      this.cards := cards;
    }

    method Decksize() returns (size: nat)
      ensures size == |cards|
    {
      size := |cards|;
    }

    method AddCards(card: MagicCard, toBottom: bool)
      modifies this
      ensures cards == AddedCards(old(cards), card, toBottom, AsWritten)
      ensures toBottom ==> cards == [card] + old(cards) + [card]
    {
      if toBottom {
        cards := [card] + cards;
      }
      cards := cards + [card];
    }

    /** `rng.shuffle(cards)`: the random source is replaced by the permutation it chose. */
    method Shuffle(permutation: seq<MagicCard>)
      requires multiset(permutation) == multiset(cards)
      modifies this
      ensures cards == permutation
      ensures multiset(cards) == multiset(old(cards))
    {
      cards := permutation;
    }

    method ObserveACard() returns (r: Result<MagicCard>)
      ensures |cards| == 0 ==> r == Err(EmptyDeckException)
      ensures |cards| > 0 ==> r == Ok(Top(cards))
    {
      var size := Decksize();
      if size == 0 {
        return Err(EmptyDeckException);
      }
      return Ok(cards[|cards| - 1]);
    }

    method MoveToBottom()
      modifies this
      ensures cards == MovedToBottom(old(cards), AsWritten)
      ensures |old(cards)| >= 2 ==> |cards| == |old(cards)| + 1
    {
      var size := Decksize();
      if size <= 1 {
        return;
      }
      var card := cards[|cards| - 1];
      cards := cards[..|cards| - 1];
      AddCards(card, true);
    }

    method PlayACard() returns (r: Result<MagicCard>)
      modifies this
      ensures |old(cards)| == 0 ==> r == Err(EmptyDeckException) && cards == old(cards)
      ensures |old(cards)| > 0 ==> r == Ok(Top(old(cards))) && cards == WithoutTop(old(cards))
    {
      var size := Decksize();
      if size == 0 {
        return Err(EmptyDeckException);
      }
      var card := cards[|cards| - 1];
      cards := cards[..|cards| - 1];
      return Ok(card);
    }

    method Scry1() returns (moved: bool)
      modifies this
      ensures moved == ScryMoves(old(cards))
      ensures cards == Scried(old(cards), AsWritten)
    {
      var size := Decksize();
      if size <= 1 {
        return false;
      }
      var card := ObserveACard();
      if !card.value.hasQual {
        MoveToBottom();
        return true;
      }
      return false;
    }
  }
}
