/** Deck construction, the per-round future-sight action and the game loop. */
module Simulation {
  import opened Types

  function Max(a: int, b: int): int { if a >= b then a else b }

  function Min(a: int, b: int): int { if a <= b then a else b }

  // ---------------------------------------------------------------------------
  // Building an m-of-n deck
  // ---------------------------------------------------------------------------

  /** The cards of `create_m_n_deck(m, n)`, bottom first: the m quality cards with
      ids `range(m)`, then the non-quality cards with ids `range(m, n)`. */
  function MNDeck(m: int, n: int): (r: Result<seq<MagicCard>>)
    ensures r.Err? <==> m > n
    ensures r.Err? ==> r.error == ValueError
    ensures r.Ok? ==> |r.value| == n - Min(m, 0)
    ensures r.Ok? ==> forall i :: 0 <= i < |r.value| ==>
      r.value[i] == MagicCard(i + Min(m, 0), 0 <= i + Min(m, 0) < m)
  {
    if m > n then Err(ValueError)
    else if m == 0 && n == 0 then Ok([])
    else
      var qualCards := seq(Max(m, 0), i => MagicCard(i, true));
      var noqualCards := seq(n - m, i => MagicCard(m + i, false));
      Ok(qualCards + noqualCards)
  }

  /** The number of quality cards in a deck. */
  function CountQual(s: seq<MagicCard>): nat
  {
    if s == [] then 0 else (if s[0].hasQual then 1 else 0) + CountQual(s[1..])
  }

  lemma {:induction false} CountQualConcat(a: seq<MagicCard>, b: seq<MagicCard>)
    ensures CountQual(a + b) == CountQual(a) + CountQual(b)
  {
    if a != [] {
      assert (a + b)[1..] == a[1..] + b;
      CountQualConcat(a[1..], b);
    } else {
      assert a + b == b;
    }
  }

  lemma {:induction false} CountQualUniform(s: seq<MagicCard>, qual: bool)
    requires forall i :: 0 <= i < |s| ==> s[i].hasQual == qual
    ensures CountQual(s) == if qual then |s| else 0
  {
    if s != [] {
      CountQualUniform(s[1..], qual);
    }
  }

  /** For 0 <= m <= n the deck holds n cards, exactly m of them with the quality. */
  lemma MNDeckComposition(m: int, n: int)
    requires 0 <= m <= n
    ensures MNDeck(m, n).Ok?
    ensures |MNDeck(m, n).value| == n
    ensures CountQual(MNDeck(m, n).value) == m
    ensures m == 0 && n == 0 ==> MNDeck(m, n).value == []
  {
    var s := MNDeck(m, n).value;
    assert s == s[..m] + s[m..];
    CountQualUniform(s[..m], true);
    CountQualUniform(s[m..], false);
    CountQualConcat(s[..m], s[m..]);
  }

  /** `create_m_n_deck`: the random generator it also builds is not modelled. */
  method CreateMNDeck(m: int, n: int) returns (r: Result<MagicDeck>)
    ensures r.Err? <==> m > n
    ensures r.Err? ==> r.error == ValueError
    ensures r.Ok? ==> fresh(r.value) && r.value.cards == MNDeck(m, n).value
  {
    var cards := MNDeck(m, n);
    if cards.Err? {
      return Err(cards.error);
    }
    var deck := new MagicDeck(cards.value);
    return Ok(deck);
  }

  // ---------------------------------------------------------------------------
  // One round of future sight
  // ---------------------------------------------------------------------------

  /** The number of quality cards on top of the deck before the first one without. */
  function TopRun(s: seq<MagicCard>): (r: nat)
    ensures r <= |s|
    ensures forall i :: |s| - r <= i < |s| ==> s[i].hasQual
    ensures r < |s| ==> !s[|s| - 1 - r].hasQual
  {
    if |s| == 0 || !Top(s).hasQual then 0 else 1 + TopRun(WithoutTop(s))
  }

  /** The locals of the round loop; `playedCards` records the cards played, in order. */
  datatype RoundState = RoundState(
    deck: seq<MagicCard>, availCards: int, availScries: int, played: nat, playedCards: seq<MagicCard>)

  function RoundBudget(st: RoundState): nat
  {
    Max(st.availCards, 0) + Max(st.availScries, 0)
  }

  /** The round loop run to its end from state `st`. It stops only on an empty
      deck, an exhausted play budget, or a non-quality top card with no scry left. */
  function RoundLoop(st: RoundState, rule: BuryRule): (r: RoundState)
    decreases RoundBudget(st)
    ensures |r.deck| == 0 || r.availCards <= 0 || (!Top(r.deck).hasQual && r.availScries <= 0)
  {
    if |st.deck| > 0 && st.availCards > 0 then
      if Top(st.deck).hasQual then
        RoundLoop(st.(deck := WithoutTop(st.deck), availCards := st.availCards - 1,
                      played := st.played + 1, playedCards := st.playedCards + [Top(st.deck)]), rule)
      else if st.availScries > 0 then
        RoundLoop(st.(deck := Scried(st.deck, rule), availScries := st.availScries - 1), rule)
      else
        st
    else
      st
  }

  function RoundStart(deck: seq<MagicCard>, game: FSGameParams): RoundState
  {
    RoundState(deck, game.roundMax, game.scryMax, 0, [])
  }

  /** `fs_round_action` on a deck. */
  function RoundAction(deck: seq<MagicCard>, game: FSGameParams, rule: BuryRule): (r: RoundState)
    ensures 0 <= r.played <= Max(game.roundMax, 0)
  {
    RoundLoopBudgets(RoundStart(deck, game), rule);
    RoundLoop(RoundStart(deck, game), rule)
  }

  /** At most the play budget is spent, and `scry1` is called at most the scry
      budget times (each call spends one unit of `availScries`). */
  lemma {:induction false} RoundLoopBudgets(st: RoundState, rule: BuryRule)
    decreases RoundBudget(st)
    ensures var r := RoundLoop(st, rule);
      st.played <= r.played <= st.played + Max(st.availCards, 0) &&
      r.availCards == st.availCards - (r.played - st.played) &&
      r.availScries <= st.availScries &&
      st.availScries - r.availScries <= Max(st.availScries, 0)
  {
    if |st.deck| > 0 && st.availCards > 0 {
      if Top(st.deck).hasQual {
        RoundLoopBudgets(st.(deck := WithoutTop(st.deck), availCards := st.availCards - 1,
                             played := st.played + 1, playedCards := st.playedCards + [Top(st.deck)]), rule);
      } else if st.availScries > 0 {
        RoundLoopBudgets(st.(deck := Scried(st.deck, rule), availScries := st.availScries - 1), rule);
      }
    }
  }

  /** Every card the round removes had the quality, and one card is recorded per play. */
  lemma {:induction false} RoundLoopPlaysOnlyQuality(st: RoundState, rule: BuryRule)
    requires |st.playedCards| == st.played
    decreases RoundBudget(st)
    ensures var r := RoundLoop(st, rule);
      st.playedCards <= r.playedCards && |r.playedCards| == r.played &&
      forall i :: |st.playedCards| <= i < |r.playedCards| ==> r.playedCards[i].hasQual
  {
    if |st.deck| > 0 && st.availCards > 0 {
      if Top(st.deck).hasQual {
        var next := st.(deck := WithoutTop(st.deck), availCards := st.availCards - 1,
                        played := st.played + 1, playedCards := st.playedCards + [Top(st.deck)]);
        RoundLoopPlaysOnlyQuality(next, rule);
      } else if st.availScries > 0 {
        RoundLoopPlaysOnlyQuality(st.(deck := Scried(st.deck, rule), availScries := st.availScries - 1), rule);
      }
    }
  }

  /** Each play removes one card. Without scries, or with burying as intended, no
      card is created; as written, each scry may add one. */
  lemma {:induction false} RoundLoopSize(st: RoundState, rule: BuryRule)
    decreases RoundBudget(st)
    ensures var r := RoundLoop(st, rule);
      |r.deck| + r.played <= |st.deck| + st.played + (st.availScries - r.availScries) &&
      ((st.availScries <= 0 || rule == Intended) ==> |r.deck| + r.played == |st.deck| + st.played)
  {
    if |st.deck| > 0 && st.availCards > 0 {
      if Top(st.deck).hasQual {
        var next := st.(deck := WithoutTop(st.deck), availCards := st.availCards - 1,
                        played := st.played + 1, playedCards := st.playedCards + [Top(st.deck)]);
        assert RoundLoop(st, rule) == RoundLoop(next, rule);
        RoundLoopSize(next, rule);
      } else if st.availScries > 0 {
        var next := st.(deck := Scried(st.deck, rule), availScries := st.availScries - 1);
        assert RoundLoop(st, rule) == RoundLoop(next, rule);
        RoundLoopSize(next, rule);
      }
    }
  }

  /** Without scries the round plays exactly min(play budget, run of quality
      cards on top) cards. */
  lemma {:induction false} RoundLoopWithoutScries(st: RoundState, rule: BuryRule)
    requires st.availScries <= 0
    decreases RoundBudget(st)
    ensures RoundLoop(st, rule).played - st.played == Min(Max(st.availCards, 0), TopRun(st.deck))
  {
    if |st.deck| > 0 && st.availCards > 0 && Top(st.deck).hasQual {
      var next := st.(deck := WithoutTop(st.deck), availCards := st.availCards - 1,
                      played := st.played + 1, playedCards := st.playedCards + [Top(st.deck)]);
      RoundLoopWithoutScries(next, rule);
      assert RoundLoop(st, rule) == RoundLoop(next, rule);
      assert TopRun(st.deck) == 1 + TopRun(next.deck);
    } else {
      assert RoundLoop(st, rule) == st;
    }
  }

  /** Without scries the cards played are taken from the top and the rest of the
      deck is left as it was. */
  lemma {:induction false} RoundLoopWithoutScriesKeepsRest(st: RoundState, rule: BuryRule)
    requires st.availScries <= 0
    decreases RoundBudget(st)
    ensures var r := RoundLoop(st, rule);
      var k := r.played - st.played;
      0 <= k <= |st.deck| && r.deck == st.deck[..|st.deck| - k]
  {
    if |st.deck| > 0 && st.availCards > 0 && Top(st.deck).hasQual {
      var next := st.(deck := WithoutTop(st.deck), availCards := st.availCards - 1,
                      played := st.played + 1, playedCards := st.playedCards + [Top(st.deck)]);
      RoundLoopWithoutScriesKeepsRest(next, rule);
      var r := RoundLoop(st, rule);
      assert r == RoundLoop(next, rule);
      var k := r.played - st.played;
      assert next.deck[..|next.deck| - (k - 1)] == st.deck[..|st.deck| - k];
    } else {
      assert RoundLoop(st, rule) == st;
    }
  }

  /** `fs_round_action`: plays quality cards from the top, scrying past the others
      while scries remain. */
  method FsRoundAction(deck: MagicDeck, game: FSGameParams) returns (played: int)
    modifies deck
    ensures deck.cards == RoundAction(old(deck.cards), game, AsWritten).deck
    ensures played == RoundAction(old(deck.cards), game, AsWritten).played
    ensures 0 <= played <= Max(game.roundMax, 0)
    ensures game.scryMax <= 0 ==> |deck.cards| + played == |old(deck.cards)|
  {
    var availCards := game.roundMax;
    var availScries := game.scryMax;
    played := 0;
    ghost var playedCards: seq<MagicCard> := [];
    ghost var target := RoundAction(deck.cards, game, AsWritten);
    var size := deck.Decksize();
    while size > 0 && availCards > 0
      invariant size == |deck.cards|
      invariant played >= 0
      invariant RoundLoop(RoundState(deck.cards, availCards, availScries, played, playedCards), AsWritten) == target
      decreases Max(availCards, 0) + Max(availScries, 0)
    {
      ghost var current := RoundState(deck.cards, availCards, availScries, played, playedCards);
      var topcard := deck.ObserveACard();
      if topcard.value.hasQual {
        var card := deck.PlayACard();
        assert card.Ok?;
        playedCards := playedCards + [topcard.value];
        played := played + 1;
        availCards := availCards - 1;
      } else if availScries > 0 {
        var moved := deck.Scry1();
        availScries := availScries - 1;
      } else {
        assert RoundLoop(current, AsWritten) == current;
        break;
      }
      assert RoundLoop(RoundState(deck.cards, availCards, availScries, played, playedCards), AsWritten)
          == RoundLoop(current, AsWritten);
      size := deck.Decksize();
    }
    RoundLoopBudgets(RoundStart(old(deck.cards), game), AsWritten);
    RoundLoopSize(RoundStart(old(deck.cards), game), AsWritten);
  }

  // ---------------------------------------------------------------------------
  // One game
  // ---------------------------------------------------------------------------

  /** The deck after the initial hand is taken: up to k cards leave from the top,
      stopping early on an empty deck. */
  function Discard(s: seq<MagicCard>, k: int): (r: seq<MagicCard>)
    decreases |s|
    ensures |r| == |s| - Min(Max(k, 0), |s|)
    ensures r == s[..|r|]
  {
    if k <= 0 || |s| == 0 then s else Discard(WithoutTop(s), k - 1)
  }

  /** Rounds played and extra cards played so far. */
  datatype Tally = Tally(realRounds: int, virtualDraws: int)

  /** One round after the normal draw: the future-sight action on the rest of the deck. */
  function NextRound(s: seq<MagicCard>, game: FSGameParams, rule: BuryRule): RoundState
    requires |s| > 0
  {
    RoundAction(WithoutTop(s), game, rule)
  }

  function CapMeasure(cap: Option<int>, realRounds: int): nat
  {
    if cap.Some? && realRounds <= cap.value then cap.value + 1 - realRounds else 0
  }

  /** The round loop of `simulate_fs_game` run to its end from deck `s` and the
      counters so far. It needs a cap unless the deck shrinks every round, which
      holds without scries or with burying as intended. A non-empty deck plays at
      least one round, an empty one none, and the counters never decrease. */
  function PlayRounds(s: seq<MagicCard>, game: FSGameParams, cap: Option<int>, rule: BuryRule,
                      realRounds: int, virtualDraws: int): (t: Tally)
    requires rule == Intended || game.scryMax <= 0 || cap.Some?
    decreases CapMeasure(cap, realRounds), |s|
    ensures t.realRounds == realRounds <==> |s| == 0
    ensures t.realRounds >= realRounds && t.virtualDraws >= virtualDraws
  {
    if |s| == 0 then Tally(realRounds, virtualDraws)
    else if cap.Some? && realRounds + 1 > cap.value then Tally(realRounds + 1, virtualDraws)
    else
      var round := NextRound(s, game, rule);
      RoundLoopSize(RoundStart(WithoutTop(s), game), rule);
      PlayRounds(round.deck, game, cap, rule, realRounds + 1, virtualDraws + round.played)
  }

  /** The outcome of `simulate_fs_game` once the deck has been shuffled into `shuffled`. */
  function SimulatedGame(game: FSGameParams, rounds: Option<int>, shuffled: seq<MagicCard>,
                         initHandSize: int, rule: BuryRule): (r: Result<FSGameOutcome>)
    requires game.m > game.n || rule == Intended || game.scryMax <= 0 || rounds.Some?
    ensures r == Err(ValueError) <==> game.m > game.n
    ensures r.Ok? ==> r.value.rounds >= 1 && r.value.dpr * r.value.rounds as real == r.value.virtualDraws as real
  {
    if game.m > game.n then Err(ValueError)
    else
      var tally := PlayRounds(Discard(shuffled, initHandSize), game, rounds, rule, 0, 0);
      if tally.realRounds == 0 then Err(ZeroDivisionError)
      else Ok(FSGameOutcome(tally.realRounds, tally.virtualDraws,
                            tally.virtualDraws as real / tally.realRounds as real))
  }

  /** The `for` loop of `simulate_fs_game` that removes the initial hand. */
  method DiscardInitialHand(deck: MagicDeck, initHandSize: int)
    modifies deck
    ensures deck.cards == Discard(old(deck.cards), initHandSize)
  {
    if initHandSize > 0 {
      for i := 0 to initHandSize
        invariant Discard(deck.cards, initHandSize - i) == Discard(old(deck.cards), initHandSize)
      {
        var size := deck.Decksize();
        if size == 0 {
          break;
        }
        var card := deck.PlayACard();
        assert card.Ok?;
      }
    }
  }

  /** The `while` loop of `simulate_fs_game`: one normal draw per round, then the
      round's extra plays unless the cap is exceeded. */
  method PlayGame(deck: MagicDeck, game: FSGameParams, rounds: Option<int>)
    returns (realRounds: int, virtualDraws: int)
    requires game.scryMax <= 0 || rounds.Some?
    modifies deck
    ensures Tally(realRounds, virtualDraws) == PlayRounds(old(deck.cards), game, rounds, AsWritten, 0, 0)
    ensures deck.cards == [] || (rounds.Some? && realRounds == Max(rounds.value, 0) + 1)
  {
    realRounds := 0;
    virtualDraws := 0;
    var size := deck.Decksize();
    while size > 0
      invariant size == |deck.cards|
      invariant rounds.Some? ==> realRounds <= Max(rounds.value, 0)
      invariant PlayRounds(deck.cards, game, rounds, AsWritten, realRounds, virtualDraws)
             == PlayRounds(old(deck.cards), game, rounds, AsWritten, 0, 0)
      decreases CapMeasure(rounds, realRounds), size
    {
      ghost var before := deck.cards;
      var card := deck.PlayACard();
      assert card.Ok?;
      realRounds := realRounds + 1;
      if rounds.Some? && realRounds > rounds.value {
        assert PlayRounds(before, game, rounds, AsWritten, realRounds - 1, virtualDraws)
            == Tally(realRounds, virtualDraws);
        break;
      }
      ghost var round := NextRound(before, game, AsWritten);
      var played := FsRoundAction(deck, game);
      assert deck.cards == round.deck && played == round.played;
      virtualDraws := virtualDraws + played;
      size := deck.Decksize();
    }
  }

  /** `simulate_fs_game`; `shuffled` is the order the random shuffle produced. */
  method SimulateFsGame(game: FSGameParams, rounds: Option<int>, shuffled: seq<MagicCard>, initHandSize: int)
    returns (r: Result<FSGameOutcome>)
    requires game.m > game.n || game.scryMax <= 0 || rounds.Some?
    requires game.m <= game.n ==> multiset(shuffled) == multiset(MNDeck(game.m, game.n).value)
    ensures r == SimulatedGame(game, rounds, shuffled, initHandSize, AsWritten)
    ensures r == Err(ValueError) <==> game.m > game.n
  {
    var created := CreateMNDeck(game.m, game.n);
    if created.Err? {
      return Err(created.error);
    }
    var deck := created.value;
    deck.Shuffle(shuffled);
    DiscardInitialHand(deck, initHandSize);
    var realRounds, virtualDraws := PlayGame(deck, game, rounds);
    if realRounds == 0 {
      return Err(ZeroDivisionError);
    }
    return Ok(FSGameOutcome(realRounds, virtualDraws, virtualDraws as real / realRounds as real));
  }

  // ---------------------------------------------------------------------------
  // Properties of a game
  // ---------------------------------------------------------------------------

  /** The game fails with ZeroDivisionError exactly when the initial hand took
      the whole deck; otherwise the average is the exact quotient. */
  lemma GameFailsExactlyWhenHandTakesDeck(game: FSGameParams, rounds: Option<int>, shuffled: seq<MagicCard>,
                                          initHandSize: int, rule: BuryRule)
    requires game.m > game.n || rule == Intended || game.scryMax <= 0 || rounds.Some?
    ensures var r := SimulatedGame(game, rounds, shuffled, initHandSize, rule);
      (r == Err(ZeroDivisionError) <==> game.m <= game.n && |Discard(shuffled, initHandSize)| == 0) &&
      (r.Ok? ==> r.value.rounds >= 1 && r.value.virtualDraws >= 0 &&
                 r.value.dpr == r.value.virtualDraws as real / r.value.rounds as real)
  {
  }

  lemma ProductStep(a: int, b: int)
    requires a >= 1 && b >= 0
    ensures 0 <= (a - 1) * b && (a - 1) * b + b == a * b
  {
  }

  lemma {:induction false} PlayRoundsCapped(s: seq<MagicCard>, game: FSGameParams, cap: int, rule: BuryRule,
                                            realRounds: int, virtualDraws: int)
    decreases CapMeasure(Some(cap), realRounds), |s|
    ensures var t := PlayRounds(s, game, Some(cap), rule, realRounds, virtualDraws);
      t.realRounds <= Max(cap, realRounds) + 1 &&
      virtualDraws <= t.virtualDraws <= virtualDraws + (Max(cap, realRounds) - realRounds) * Max(game.roundMax, 0)
  {
    var t := PlayRounds(s, game, Some(cap), rule, realRounds, virtualDraws);
    var budget := Max(game.roundMax, 0);
    var left := Max(cap, realRounds) - realRounds;
    if |s| == 0 || realRounds + 1 > cap {
      assert t.virtualDraws == virtualDraws;
      if left >= 1 {
        ProductStep(left, budget);
      }
    } else {
      var round := NextRound(s, game, rule);
      RoundLoopBudgets(RoundStart(WithoutTop(s), game), rule);
      assert t == PlayRounds(round.deck, game, Some(cap), rule, realRounds + 1, virtualDraws + round.played);
      PlayRoundsCapped(round.deck, game, cap, rule, realRounds + 1, virtualDraws + round.played);
      assert Max(cap, realRounds + 1) - (realRounds + 1) == left - 1;
      ProductStep(left, budget);
    }
  }

  /** With a round cap c, at most c + 1 rounds are counted (the one that exceeds
      the cap plays no extra card) and at most c round actions run, so at most
      c * round_max extra cards are played. */
  lemma CappedGameBounds(game: FSGameParams, cap: int, shuffled: seq<MagicCard>, initHandSize: int, rule: BuryRule)
    ensures var r := SimulatedGame(game, Some(cap), shuffled, initHandSize, rule);
      r.Ok? ==> r.value.rounds <= Max(cap, 0) + 1 &&
                0 <= r.value.virtualDraws <= Max(cap, 0) * Max(game.roundMax, 0)
  {
    if game.m <= game.n {
      PlayRoundsCapped(Discard(shuffled, initHandSize), game, cap, rule, 0, 0);
    }
  }

  lemma {:induction false} PlayRoundsConservesCards(s: seq<MagicCard>, game: FSGameParams, rule: BuryRule,
                                                    realRounds: int, virtualDraws: int)
    requires rule == Intended || game.scryMax <= 0
    decreases |s|
    ensures var t := PlayRounds(s, game, None, rule, realRounds, virtualDraws);
      t.realRounds + t.virtualDraws == |s| + realRounds + virtualDraws
  {
    if |s| > 0 {
      var round := NextRound(s, game, rule);
      RoundLoopSize(RoundStart(WithoutTop(s), game), rule);
      PlayRoundsConservesCards(round.deck, game, rule, realRounds + 1, virtualDraws + round.played);
    }
  }

  /** Without a cap, and without scries or with burying as intended, every card
      of an n-card deck is either in the initial hand, a normal draw, or an extra
      play: discarded + rounds + virtual draws == n. */
  lemma GameCountsEveryCard(game: FSGameParams, shuffled: seq<MagicCard>, initHandSize: int, rule: BuryRule)
    requires 0 <= game.m <= game.n
    requires rule == Intended || game.scryMax <= 0
    requires multiset(shuffled) == multiset(MNDeck(game.m, game.n).value)
    ensures var discarded := Min(Max(initHandSize, 0), game.n);
      var r := SimulatedGame(game, None, shuffled, initHandSize, rule);
      (discarded == game.n ==> r == Err(ZeroDivisionError)) &&
      (discarded < game.n ==> r.Ok? && discarded + r.value.rounds + r.value.virtualDraws == game.n)
  {
    MNDeckComposition(game.m, game.n);
    assert |shuffled| == |multiset(shuffled)| == game.n;
    var s := Discard(shuffled, initHandSize);
    PlayRoundsConservesCards(s, game, rule, 0, 0);
  }

  lemma {:induction false} AllQualityRounds(s: seq<MagicCard>, game: FSGameParams, rule: BuryRule,
                                            realRounds: int, virtualDraws: int)
    requires forall i :: 0 <= i < |s| ==> s[i].hasQual
    requires game.roundMax == 1 && game.scryMax <= 0
    decreases |s|
    ensures PlayRounds(s, game, None, rule, realRounds, virtualDraws)
         == Tally(realRounds + (|s| + 1) / 2, virtualDraws + |s| / 2)
  {
    if |s| > 0 {
      var round := NextRound(s, game, rule);
      RoundLoopWithoutScries(RoundStart(WithoutTop(s), game), rule);
      RoundLoopWithoutScriesKeepsRest(RoundStart(WithoutTop(s), game), rule);
      RoundLoopSize(RoundStart(WithoutTop(s), game), rule);
      if |s| >= 2 {
        assert TopRun(WithoutTop(s)) >= 1;
        assert round.deck == s[..|s| - 2];
      }
      AllQualityRounds(round.deck, game, rule, realRounds + 1, virtualDraws + round.played);
    }
  }

  /** A deck whose n >= 1 cards all have the quality, with one extra play per
      round and no scry: every round but possibly the last plays one extra card,
      so the game has ceil(n / 2) rounds and floor(n / 2) extra plays; four
      cards give two rounds, two extra plays and an average of 1. */
  lemma AllQualityGame(n: int, shuffled: seq<MagicCard>, rule: BuryRule)
    requires n >= 1
    requires multiset(shuffled) == multiset(MNDeck(n, n).value)
    ensures SimulatedGame(FSGameParams(n, n, 1, 0), None, shuffled, 0, rule)
         == Ok(FSGameOutcome((n + 1) / 2, n / 2, (n / 2) as real / ((n + 1) / 2) as real))
    ensures n == 4 ==>
      SimulatedGame(FSGameParams(n, n, 1, 0), None, shuffled, 0, rule) == Ok(FSGameOutcome(2, 2, 1.0))
  {
    var deck := MNDeck(n, n).value;
    forall i | 0 <= i < |shuffled|
      ensures shuffled[i].hasQual
    {
      assert shuffled[i] in multiset(deck);
      var j :| 0 <= j < |deck| && deck[j] == shuffled[i];
    }
    assert |shuffled| == |multiset(shuffled)| == n;
    assert Discard(shuffled, 0) == shuffled;
    var game := FSGameParams(n, n, 1, 0);
    AllQualityRounds(shuffled, game, rule, 0, 0);
    var tally := PlayRounds(shuffled, game, None, rule, 0, 0);
    assert tally == Tally((n + 1) / 2, n / 2);
    if n == 4 {
      assert (n + 1) / 2 == 2 && n / 2 == 2;
      assert 2 as real / 2 as real == 1.0;
    }
  }

  /** As written, the deck of three non-quality cards with one play and one scry
      per round never shrinks: after the first round it alternates between two
      three-card states. */
  lemma ScryGameCycles()
    ensures var game := FSGameParams(0, 3, 1, 1);
      var c0, c1, c2 := MagicCard(0, false), MagicCard(1, false), MagicCard(2, false);
      MNDeck(0, 3) == Ok([c0, c1, c2]) &&
      NextRound([c0, c1, c2], game, AsWritten) == RoundState([c1, c0, c1], 1, 0, 0, []) &&
      NextRound([c1, c0, c1], game, AsWritten) == RoundState([c0, c1, c0], 1, 0, 0, []) &&
      NextRound([c0, c1, c0], game, AsWritten) == RoundState([c1, c0, c1], 1, 0, 0, [])
  {
    var game := FSGameParams(0, 3, 1, 1);
    var c0, c1, c2 := MagicCard(0, false), MagicCard(1, false), MagicCard(2, false);
    assert MNDeck(0, 3).value == [c0, c1, c2];
    assert Scried([c0, c1], AsWritten) == [c1, c0, c1];
    assert Scried([c1, c0], AsWritten) == [c0, c1, c0];
    assert WithoutTop([c0, c1, c2]) == [c0, c1];
    assert WithoutTop([c1, c0, c1]) == [c1, c0];
    assert WithoutTop([c0, c1, c0]) == [c0, c1];
    assert RoundLoop(RoundState([c0, c1], 1, 1, 0, []), AsWritten)
        == RoundLoop(RoundState([c1, c0, c1], 1, 0, 0, []), AsWritten)
        == RoundState([c1, c0, c1], 1, 0, 0, []);
    assert RoundLoop(RoundState([c1, c0], 1, 1, 0, []), AsWritten)
        == RoundLoop(RoundState([c0, c1, c0], 1, 0, 0, []), AsWritten)
        == RoundState([c0, c1, c0], 1, 0, 0, []);
  }

  lemma {:induction false} ScryCycleReachesCap(s: seq<MagicCard>, cap: int, realRounds: int)
    requires s == [MagicCard(1, false), MagicCard(0, false), MagicCard(1, false)] ||
             s == [MagicCard(0, false), MagicCard(1, false), MagicCard(0, false)]
    requires 0 <= realRounds <= cap
    decreases cap - realRounds
    ensures PlayRounds(s, FSGameParams(0, 3, 1, 1), Some(cap), AsWritten, realRounds, 0) == Tally(cap + 1, 0)
  {
    ScryGameCycles();
    if realRounds + 1 <= cap {
      ScryCycleReachesCap(NextRound(s, FSGameParams(0, 3, 1, 1), AsWritten).deck, cap, realRounds + 1);
    }
  }

  /** As written, that game runs into every round cap: with cap c it counts c + 1
      rounds and plays nothing extra. Without a cap the loop never ends. */
  lemma ScryGameReachesEveryCap(cap: nat)
    ensures SimulatedGame(FSGameParams(0, 3, 1, 1), Some(cap), MNDeck(0, 3).value, 0, AsWritten)
         == Ok(FSGameOutcome(cap + 1, 0, 0.0))
  {
    ScryGameCycles();
    var game := FSGameParams(0, 3, 1, 1);
    var s := MNDeck(0, 3).value;
    if cap >= 1 {
      ScryCycleReachesCap(NextRound(s, game, AsWritten).deck, cap, 1);
    }
  }

  /** With burying as intended, the rounds of the same game shrink the deck. */
  lemma IntendedScryRounds()
    ensures var game := FSGameParams(0, 3, 1, 1);
      var c0, c1, c2 := MagicCard(0, false), MagicCard(1, false), MagicCard(2, false);
      NextRound([c0, c1, c2], game, Intended) == RoundState([c1, c0], 1, 0, 0, []) &&
      NextRound([c1, c0], game, Intended) == RoundState([c1], 1, 0, 0, []) &&
      NextRound([c1], game, Intended) == RoundState([], 1, 1, 0, [])
  {
    var c0, c1, c2 := MagicCard(0, false), MagicCard(1, false), MagicCard(2, false);
    assert Scried([c0, c1], Intended) == [c1, c0];
    assert Scried([c1], Intended) == [c1];
    assert WithoutTop([c0, c1, c2]) == [c0, c1];
    assert WithoutTop([c1, c0]) == [c1];
    assert WithoutTop([c1]) == [];
    assert RoundLoop(RoundState([c0, c1], 1, 1, 0, []), Intended)
        == RoundLoop(RoundState([c1, c0], 1, 0, 0, []), Intended)
        == RoundState([c1, c0], 1, 0, 0, []);
    assert RoundLoop(RoundState([c1], 1, 1, 0, []), Intended)
        == RoundLoop(RoundState([c1], 1, 0, 0, []), Intended)
        == RoundState([c1], 1, 0, 0, []);
  }

  /** With burying as intended the same game ends after three rounds. */
  lemma IntendedScryGameEnds()
    ensures SimulatedGame(FSGameParams(0, 3, 1, 1), None, MNDeck(0, 3).value, 0, Intended)
         == Ok(FSGameOutcome(3, 0, 0.0))
  {
    var game := FSGameParams(0, 3, 1, 1);
    var c0, c1, c2 := MagicCard(0, false), MagicCard(1, false), MagicCard(2, false);
    assert MNDeck(0, 3).value == [c0, c1, c2];
    IntendedScryRounds();
    assert PlayRounds([c1], game, None, Intended, 2, 0) == PlayRounds([], game, None, Intended, 3, 0);
    assert PlayRounds([c1, c0], game, None, Intended, 1, 0) == PlayRounds([c1], game, None, Intended, 2, 0);
    assert PlayRounds([c0, c1, c2], game, None, Intended, 0, 0)
        == PlayRounds([c1, c0], game, None, Intended, 1, 0);
  }
}
