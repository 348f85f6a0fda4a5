/** What one round of src/Main.java does to the balance, the hands and the
    static deck, and what a run of rounds can do to them. */
module MainBlackjackRules {
  import opened Common
  import opened StringCards
  import opened MainBlackjack

  /** After the deal, the hands only grow and the deck only loses cards from its end. */
  lemma PlayMovesCards(balance: int, bet: int, p: seq<Card>, h: seq<Card>, d: seq<Card>, actions: seq<Decision>)
    ensures var r := Play(balance, bet, p, h, d, actions);
      && |p| <= |r.player| && r.player[..|p|] == p
      && |h| <= |r.house| && r.house[..|h|] == h
      && |r.deck| <= |d| && r.deck == d[..|r.deck|]
  {
    if HandScore(p) != BlackjackValue {
      var t := PlayerPlays(p, d, actions);
      PlayerPlaysShape(p, d, actions);
      if t.stop == Stood {
        var hp := HousePlays(h, t.deck);
        HousePlaysShape(h, t.deck);
        assert hp.deck == t.deck[..|hp.deck|] == d[..|hp.deck|];
      }
    }
  }

  /** After the deal, no card is lost or made: hands and deck hold the cards they held. */
  lemma PlayConservesCards(balance: int, bet: int, p: seq<Card>, h: seq<Card>, d: seq<Card>, actions: seq<Decision>)
    ensures var r := Play(balance, bet, p, h, d, actions);
      multiset(r.player) + multiset(r.house) + multiset(r.deck) == multiset(p) + multiset(h) + multiset(d)
  {
    var r := Play(balance, bet, p, h, d, actions);
    if HandScore(p) != BlackjackValue {
      var t := PlayerPlays(p, d, actions);
      PlayerPlaysKeepsCards(p, d, actions);
      if t.stop == Stood {
        var hp := HousePlays(h, t.deck);
        HousePlaysKeepsCards(h, t.deck);
        assert r.player == t.hand && r.house == hp.hand && r.deck == hp.deck;
        MovedTwice(t.hand, hp.hand, hp.deck, t.deck, p, h, d);
      } else {
        assert r.player == t.hand && r.house == h && r.deck == t.deck;
        MovedTwice(t.hand, h, t.deck, t.deck, p, h, d);
      }
    }
  }

  /** The comparison after the house turn, outcome by outcome, for a player at 21 or below. */
  lemma SettleMeaning(player: seq<Card>, house: seq<Card>)
    requires HandScore(player) <= BlackjackValue
    ensures var o := Settle(player, house);
      && o != Blackjack && o != Bust
      && (o == HouseBust <==> HandScore(house) > BlackjackValue)
      && (o == PlayerHigher ==> HandScore(house) < HandScore(player))
      && (o == HouseHigher ==> HandScore(player) < HandScore(house) <= BlackjackValue)
      && (o == Tie ==> HandScore(player) == HandScore(house))
  {
  }

  /** After the deal, the balance changes by the outcome's amount, and each outcome
      matches the scores it was decided on. */
  lemma PlaySettles(balance: int, bet: int, p: seq<Card>, h: seq<Card>, d: seq<Card>, actions: seq<Decision>)
    requires HandScore(p) <= BlackjackValue
    ensures var r := Play(balance, bet, p, h, d, actions);
      && (r.status.Failed? ==> r.balance == balance)
      && (r.status == Done(Blackjack) <==> HandScore(p) == BlackjackValue)
      && (r.status == Done(Blackjack) ==> r.balance == balance + 3 * bet / 2 && r.player == p && r.house == h && r.deck == d)
      && (r.status == Done(Bust) ==> r.balance == balance && HandScore(r.player) > BlackjackValue && r.house == h)
      && (r.status == Done(HouseBust) ==>
            r.balance == balance + bet && HandScore(r.player) <= BlackjackValue < HandScore(r.house))
      && (r.status == Done(PlayerHigher) ==>
            r.balance == balance + bet && HandScore(r.house) < HandScore(r.player) <= BlackjackValue)
      && (r.status == Done(HouseHigher) ==>
            r.balance == balance - bet && HandScore(r.player) < HandScore(r.house) <= BlackjackValue)
      && (r.status == Done(Tie) ==>
            r.balance == balance && HandScore(r.player) == HandScore(r.house) <= BlackjackValue)
  {
    var r := Play(balance, bet, p, h, d, actions);
    if HandScore(p) != BlackjackValue {
      var t := PlayerPlays(p, d, actions);
      assert (t.stop == Busted ==> HandScore(t.hand) > BlackjackValue)
          && (t.stop == Stood ==> HandScore(t.hand) <= BlackjackValue) by {
        PlayerPlaysShape(p, d, actions);
        assert |t.hand| == |p| ==> t.hand == t.hand[..|p|] == p;
      }
      if t.stop.Halted? {
        assert r.status == Failed(t.stop.failure) && r.balance == balance;
      } else if t.stop == Busted {
        assert r == RoundEnd(Done(Bust), balance, t.deck, t.hand, h);
      } else {
        var hp := HousePlays(h, t.deck);
        if hp.stop.Halted? {
          assert r.status == Failed(hp.stop.failure) && r.balance == balance;
        } else {
          var o := Settle(t.hand, hp.hand);
          assert r == RoundEnd(Done(o), balance + NetChange(o, bet), hp.deck, t.hand, hp.hand);
          SettleMeaning(t.hand, hp.hand);
        }
      }
    } else {
      assert r == RoundEnd(Done(Blackjack), balance + 3 * bet / 2, d, p, h);
    }
  }

  /** After the deal, the house draws only after the player stands, and stands on 17 or more. */
  lemma PlayHouseRule(balance: int, bet: int, p: seq<Card>, h: seq<Card>, d: seq<Card>, actions: seq<Decision>)
    ensures var r := Play(balance, bet, p, h, d, actions);
      && (r.status == Done(Blackjack) || r.status == Done(Bust) ==> r.house == h)
      && (r.status.Done? && r.status != Done(Blackjack) && r.status != Done(Bust) ==>
            HandScore(r.house) >= HouseStandsAt)
      && (forall m :: |h| <= m < |r.house| ==> HandScore(r.house[..m]) < HouseStandsAt)
  {
    if HandScore(p) != BlackjackValue {
      var t := PlayerPlays(p, d, actions);
      if t.stop == Stood {
        HousePlaysShape(h, t.deck);
      }
    }
  }

  /** The four dealt cards and the deck left make up the deck before the deal. */
  lemma DealSplit(deck: seq<Card>)
    requires |deck| >= 4
    ensures var n := |deck|;
      multiset([deck[n - 1], deck[n - 3]]) + multiset([deck[n - 2], deck[n - 4]]) + multiset(deck[..n - 4]) == multiset(deck)
  {
    var n := |deck|;
    assert deck == deck[..n - 4] + [deck[n - 4], deck[n - 3], deck[n - 2], deck[n - 1]];
  }

  /** The deal takes the last four cards: player, house, player, house; the hands
      only grow after that. */
  lemma DealOrder(balance: int, deck: seq<Card>, bets: seq<int>, actions: seq<Decision>)
    requires FirstValidBet(balance, bets) < |bets| && |deck| >= 4
    ensures var r, n := Round(balance, deck, bets, actions), |deck|;
      && |r.player| >= 2 && r.player[..2] == [deck[n - 1], deck[n - 3]]
      && |r.house| >= 2 && r.house[..2] == [deck[n - 2], deck[n - 4]]
  {
    var n := |deck|;
    RoundIsPlay(balance, deck, bets, actions);
    PlayMovesCards(balance, bets[FirstValidBet(balance, bets)], [deck[n - 1], deck[n - 3]], [deck[n - 2], deck[n - 4]], deck[..n - 4], actions);
  }

  /** A natural 21 on the first two cards ends the round at once: 1.5 times the bet
      (rounded down) is won, and nobody draws; no other round is a Blackjack. */
  lemma NaturalFastPath(balance: int, deck: seq<Card>, bets: seq<int>, actions: seq<Decision>)
    requires FirstValidBet(balance, bets) < |bets| && |deck| >= 4
    ensures var r, n, bet := Round(balance, deck, bets, actions), |deck|, bets[FirstValidBet(balance, bets)];
      && (r.status == Done(Blackjack) <==> HandScore([deck[n - 1], deck[n - 3]]) == BlackjackValue)
      && (r.status == Done(Blackjack) ==>
            && r.balance == balance + 3 * bet / 2 && r.balance > balance
            && r.player == [deck[n - 1], deck[n - 3]] && r.house == [deck[n - 2], deck[n - 4]]
            && r.deck == deck[..n - 4])
  {
    var n := |deck|;
    RoundIsPlay(balance, deck, bets, actions);
    PlaySettles(balance, bets[FirstValidBet(balance, bets)], [deck[n - 1], deck[n - 3]], [deck[n - 2], deck[n - 4]], deck[..n - 4], actions);
  }

  /** The balance after a round, outcome by outcome, and what the hands showed. A
      bust leaves the balance as it was; a round that fails leaves it too. */
  lemma Settlement(balance: int, deck: seq<Card>, bets: seq<int>, actions: seq<Decision>)
    requires FirstValidBet(balance, bets) < |bets|
    ensures var r, bet := Round(balance, deck, bets, actions), bets[FirstValidBet(balance, bets)];
      && (r.status.Failed? ==> r.balance == balance)
      && (r.status == Done(Blackjack) ==> r.balance == balance + 3 * bet / 2 && HandScore(r.player) == BlackjackValue)
      && (r.status == Done(Bust) ==> r.balance == balance && HandScore(r.player) > BlackjackValue)
      && (r.status == Done(HouseBust) ==>
            r.balance == balance + bet && HandScore(r.player) <= BlackjackValue < HandScore(r.house))
      && (r.status == Done(PlayerHigher) ==>
            r.balance == balance + bet && HandScore(r.house) < HandScore(r.player) <= BlackjackValue)
      && (r.status == Done(HouseHigher) ==>
            r.balance == balance - bet && HandScore(r.player) < HandScore(r.house) <= BlackjackValue)
      && (r.status == Done(Tie) ==>
            r.balance == balance && HandScore(r.player) == HandScore(r.house) <= BlackjackValue)
  {
    var n := |deck|;
    if n >= 4 {
      RoundIsPlay(balance, deck, bets, actions);
      PlaySettles(balance, bets[FirstValidBet(balance, bets)], [deck[n - 1], deck[n - 3]], [deck[n - 2], deck[n - 4]], deck[..n - 4], actions);
    }
  }

  /** The bet lies in 1..balance, so a balance that starts at 0 or more stays so. */
  lemma BalanceStaysNonNegative(balance: int, deck: seq<Card>, bets: seq<int>, actions: seq<Decision>)
    requires balance >= 0
    ensures Round(balance, deck, bets, actions).balance >= 0
  {
    if FirstValidBet(balance, bets) < |bets| {
      Settlement(balance, deck, bets, actions);
    }
  }

  /** With a balance of 0 no bet is ever accepted: the round waits for input until
      the input ends, and nothing changes. */
  lemma BrokePlayerCannotBet(balance: int, deck: seq<Card>, bets: seq<int>, actions: seq<Decision>)
    requires balance <= 0
    ensures Round(balance, deck, bets, actions) == RoundEnd(Failed(InputExhausted), balance, deck, [], [])
  {
    assert FirstValidBet(balance, bets) == |bets|;
  }

  /** The house draws only after the player stands, only while below 17, and ends on
      17 or more unless the deck ran out; after a natural or a bust it draws nothing. */
  lemma HouseStandsOnSeventeen(balance: int, deck: seq<Card>, bets: seq<int>, actions: seq<Decision>)
    requires FirstValidBet(balance, bets) < |bets| && |deck| >= 4
    ensures var r, n := Round(balance, deck, bets, actions), |deck|;
      && (r.status == Done(Blackjack) || r.status == Done(Bust) ==> r.house == [deck[n - 2], deck[n - 4]])
      && (r.status.Done? && r.status != Done(Blackjack) && r.status != Done(Bust) ==>
            HandScore(r.house) >= HouseStandsAt)
      && (forall m :: 2 <= m < |r.house| ==> HandScore(r.house[..m]) < HouseStandsAt)
  {
    var n := |deck|;
    RoundIsPlay(balance, deck, bets, actions);
    PlayHouseRule(balance, bets[FirstValidBet(balance, bets)], [deck[n - 1], deck[n - 3]], [deck[n - 2], deck[n - 4]], deck[..n - 4], actions);
  }

  /** After a deal, the hands and the deck left hold the cards of the deck before. */
  lemma DealtRoundKeepsCards(balance: int, deck: seq<Card>, bets: seq<int>, actions: seq<Decision>)
    requires FirstValidBet(balance, bets) < |bets| && |deck| >= 4
    ensures var r := Round(balance, deck, bets, actions);
      multiset(r.player) + multiset(r.house) + multiset(r.deck) == multiset(deck)
  {
    var n := |deck|;
    RoundIsPlay(balance, deck, bets, actions);
    PlayConservesCards(balance, bets[FirstValidBet(balance, bets)], [deck[n - 1], deck[n - 3]], [deck[n - 2], deck[n - 4]], deck[..n - 4], actions);
    DealSplit(deck);
  }

  /** After a deal, the deck left is a prefix of the deck before without its last four cards. */
  lemma DealtRoundLeavesPrefix(balance: int, deck: seq<Card>, bets: seq<int>, actions: seq<Decision>)
    requires FirstValidBet(balance, bets) < |bets| && |deck| >= 4
    ensures var r := Round(balance, deck, bets, actions);
      |r.deck| <= |deck| - 4 && r.deck == deck[..|r.deck|]
  {
    var n := |deck|;
    RoundIsPlay(balance, deck, bets, actions);
    PlayMovesCards(balance, bets[FirstValidBet(balance, bets)], [deck[n - 1], deck[n - 3]], [deck[n - 2], deck[n - 4]], deck[..n - 4], actions);
    var r := Round(balance, deck, bets, actions);
    assert deck[..n - 4][..|r.deck|] == deck[..|r.deck|];
  }

  /** Cards only move from the end of the deck into the hands: none is lost or made,
      the deck left is a prefix of the deck before, and a round that completes uses
      at least the four dealt cards. A deck of fewer than four cards fails the deal. */
  lemma CardsConserved(balance: int, deck: seq<Card>, bets: seq<int>, actions: seq<Decision>)
    requires FirstValidBet(balance, bets) < |bets|
    ensures var r := Round(balance, deck, bets, actions);
      && |r.deck| <= |deck| && r.deck == deck[..|r.deck|]
      && (|deck| < 4 ==> r.status == Failed(DeckEmpty) && r.deck == [])
      && (|deck| >= 4 ==> multiset(r.player) + multiset(r.house) + multiset(r.deck) == multiset(deck))
      && (r.status.Done? ==> |r.deck| <= |deck| - 4)
  {
    if |deck| >= 4 {
      DealtRoundKeepsCards(balance, deck, bets, actions);
      DealtRoundLeavesPrefix(balance, deck, bets, actions);
    }
  }

  /** Over any run of rounds, each completed round takes at least four cards from the
      never-refilled deck, and a balance that starts at 0 or more stays so. */
  lemma {:induction false} SessionBounded(balance: int, deck: seq<Card>, inputs: seq<RoundInput>)
    ensures var s := Session(balance, deck, inputs);
      && 4 * s.played + |s.deck| <= |deck|
      && (balance >= 0 ==> s.balance >= 0)
    decreases |inputs|
  {
    if inputs != [] {
      var r := Round(balance, deck, inputs[0].bets, inputs[0].actions);
      if balance >= 0 {
        BalanceStaysNonNegative(balance, deck, inputs[0].bets, inputs[0].actions);
      }
      if FirstValidBet(balance, inputs[0].bets) < |inputs[0].bets| {
        CardsConserved(balance, deck, inputs[0].bets, inputs[0].actions);
      }
      if !r.status.Failed? {
        SessionBounded(r.balance, r.deck, inputs[1..]);
      }
    }
  }

  /** So a fresh 52-card deck lasts at most 13 completed rounds. */
  lemma FreshDeckLastsThirteenRounds(balance: int, inputs: seq<RoundInput>)
    ensures Session(balance, NewDeckOrder(), inputs).played <= 13
  {
    SessionBounded(balance, NewDeckOrder(), inputs);
  }
}
