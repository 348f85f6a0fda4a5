/** What one round of src/test/BlackjackGame1.java does to the balance and the
    cards of its fresh deck. */
module BlackjackGame1Rules {
  import opened Common
  import opened StringCards
  import FisherYates
  import opened BlackjackGame1

  /** After the deal, the hands only grow, and every card stays in a hand or the deck. */
  lemma PlayMovesCards(balance: int, bet: int, p: seq<Card>, h: seq<Card>, d: seq<Card>, actions: seq<Decision>)
    ensures var r := Play(balance, bet, p, h, d, actions);
      && |p| <= |r.player| && r.player[..|p|] == p
      && |h| <= |r.dealer| && r.dealer[..|h|] == h
      && multiset(r.player) + multiset(r.dealer) + multiset(r.deck) == multiset(p) + multiset(h) + multiset(d)
  {
    var r := Play(balance, bet, p, h, d, actions);
    if HandScore(p) != BlackjackValue {
      var t := PlayerPlays(p, d, actions);
      PlayerPlaysShape(p, d, actions);
      assert multiset(t.hand) + multiset(t.deck) == multiset(p) + multiset(d) by {
        assert multiset(t.hand + t.deck) == multiset(p + d);
      }
      if t.stop == Stood {
        var hp := DealerPlays(h, t.deck);
        DealerPlaysShape(h, t.deck);
        assert multiset(hp.hand) + multiset(hp.deck) == multiset(h) + multiset(t.deck) by {
          assert multiset(hp.hand + hp.deck) == multiset(h + t.deck);
        }
        assert r.player == t.hand && r.dealer == hp.hand && r.deck == hp.deck;
        MovedTwice(t.hand, hp.hand, hp.deck, t.deck, p, h, d);
      } else {
        assert r.player == t.hand && r.dealer == h && r.deck == t.deck;
        MovedTwice(t.hand, h, t.deck, t.deck, p, h, d);
      }
    }
  }

  /** The comparison after the dealer's turn, outcome by outcome, for a player at 21 or below. */
  lemma SettleMeaning(player: seq<Card>, dealer: seq<Card>)
    requires HandScore(player) <= BlackjackValue
    ensures var o := Settle(player, dealer);
      && o != DoubleNatural && o != Natural && o != Bust
      && (o == DealerBust <==> HandScore(dealer) > BlackjackValue)
      && (o == Push ==> HandScore(player) == HandScore(dealer))
      && (o == DealerHigher ==> HandScore(player) < HandScore(dealer) <= BlackjackValue)
      && (o == PlayerHigher ==> HandScore(dealer) < HandScore(player))
  {
  }

  /** After the deal, the balance changes by the outcome's amount, and each outcome
      matches the scores it was decided on, tested in the source's order. */
  lemma PlaySettles(balance: int, bet: int, p: seq<Card>, h: seq<Card>, d: seq<Card>, actions: seq<Decision>)
    requires HandScore(p) <= BlackjackValue
    ensures var r := Play(balance, bet, p, h, d, actions);
      && (r.status.Failed? ==> r.balance == balance)
      && (r.status == Done(DoubleNatural) <==> HandScore(p) == BlackjackValue && HandScore(h) == BlackjackValue)
      && (r.status == Done(Natural) <==> HandScore(p) == BlackjackValue && HandScore(h) != BlackjackValue)
      && (r.status == Done(DoubleNatural) || r.status == Done(Natural) ==> r.player == p && r.dealer == h && r.deck == d)
      && (r.status == Done(DoubleNatural) ==> r.balance == balance)
      && (r.status == Done(Natural) ==> r.balance == balance + bet)
      && (r.status == Done(Bust) ==> r.balance == balance - bet && HandScore(r.player) > BlackjackValue && r.dealer == h)
      && (r.status == Done(DealerBust) ==>
            r.balance == balance + bet && HandScore(r.player) <= BlackjackValue < HandScore(r.dealer))
      && (r.status == Done(Push) ==>
            r.balance == balance && HandScore(r.player) == HandScore(r.dealer) <= BlackjackValue)
      && (r.status == Done(DealerHigher) ==>
            r.balance == balance - bet && HandScore(r.player) < HandScore(r.dealer) <= BlackjackValue)
      && (r.status == Done(PlayerHigher) ==>
            r.balance == balance + bet && HandScore(r.dealer) < HandScore(r.player) <= BlackjackValue)
  {
    var r := Play(balance, bet, p, h, d, actions);
    if HandScore(p) != BlackjackValue {
      var t := PlayerPlays(p, d, actions);
      PlayerPlaysShape(p, d, actions);
      if t.stop.Halted? {
        assert r.status == Failed(t.stop.failure) && r.balance == balance;
      } else if t.stop == Busted {
        assert r == RoundEnd(Done(Bust), balance - bet, t.hand, h, t.deck);
      } else {
        assert |t.hand| == |p| ==> t.hand == t.hand[..|p|] == p;
        assert HandScore(t.hand) <= BlackjackValue;
        var hp := DealerPlays(h, t.deck);
        if hp.stop.Halted? {
          assert r.status == Failed(hp.stop.failure) && r.balance == balance;
        } else {
          var o := Settle(t.hand, hp.hand);
          assert r == RoundEnd(Done(o), balance + NetChange(o, bet), t.hand, hp.hand, hp.deck);
          SettleMeaning(t.hand, hp.hand);
        }
      }
    } else if HandScore(h) == BlackjackValue {
      assert r == RoundEnd(Done(DoubleNatural), balance, p, h, d);
    } else {
      assert r == RoundEnd(Done(Natural), balance + bet, p, h, d);
    }
  }

  /** After the deal, the dealer draws only after the player stands, only while below
      17, and ends on 17 or more unless the deck ran out. */
  lemma PlayDealerRule(balance: int, bet: int, p: seq<Card>, h: seq<Card>, d: seq<Card>, actions: seq<Decision>)
    ensures var r := Play(balance, bet, p, h, d, actions);
      && (r.status.Done? && r.status.outcome in {DoubleNatural, Natural, Bust} ==> r.dealer == h)
      && (r.status.Done? && r.status.outcome in {DealerBust, Push, DealerHigher, PlayerHigher} ==>
            HandScore(r.dealer) >= DealerStandsAt)
      && (forall m :: |h| <= m < |r.dealer| ==> HandScore(r.dealer[..m]) < DealerStandsAt)
  {
    if HandScore(p) != BlackjackValue {
      var t := PlayerPlays(p, d, actions);
      if t.stop == Stood {
        DealerPlaysShape(h, t.deck);
      }
    }
  }

  /** The deal takes the first two cards for the player and the next two for the dealer. */
  lemma DealOrder(balance: int, deck: seq<Card>, bet: int, actions: seq<Decision>)
    requires |deck| >= 4
    ensures var r := Round(balance, deck, bet, actions);
      && |r.player| >= 2 && r.player[..2] == deck[..2]
      && |r.dealer| >= 2 && r.dealer[..2] == deck[2..4]
  {
    PlayMovesCards(balance, bet, deck[..2], deck[2..4], deck[4..], actions);
  }

  /** Both naturals tie with no change; a natural of the player's alone wins the bet
      once; either way no further card is drawn. */
  lemma Naturals(balance: int, deck: seq<Card>, bet: int, actions: seq<Decision>)
    requires |deck| >= 4
    ensures var r := Round(balance, deck, bet, actions);
      && (r.status == Done(DoubleNatural) <==>
            HandScore(deck[..2]) == BlackjackValue && HandScore(deck[2..4]) == BlackjackValue)
      && (r.status == Done(Natural) <==>
            HandScore(deck[..2]) == BlackjackValue && HandScore(deck[2..4]) != BlackjackValue)
      && (r.status == Done(DoubleNatural) ==> r.balance == balance)
      && (r.status == Done(Natural) ==> r.balance == balance + bet)
      && (r.status == Done(DoubleNatural) || r.status == Done(Natural) ==>
            r.player == deck[..2] && r.dealer == deck[2..4] && r.deck == deck[4..])
  {
    TwoCardsNeverBust(deck[0], deck[1]);
    assert deck[..2] == [deck[0], deck[1]];
    PlaySettles(balance, bet, deck[..2], deck[2..4], deck[4..], actions);
  }

  /** The balance after a round, outcome by outcome. A bust loses the bet and the
      dealer draws nothing; after the dealer's turn the tests run dealer bust, then
      equal scores, then dealer higher, and the player wins otherwise. */
  lemma Settlement(balance: int, deck: seq<Card>, bet: int, actions: seq<Decision>)
    ensures var r := Round(balance, deck, bet, actions);
      && (r.status.Failed? ==> r.balance == balance)
      && (r.status == Done(Bust) ==>
            r.balance == balance - bet && HandScore(r.player) > BlackjackValue && r.dealer == deck[2..4])
      && (r.status == Done(DealerBust) ==>
            r.balance == balance + bet && HandScore(r.player) <= BlackjackValue < HandScore(r.dealer))
      && (r.status == Done(Push) ==>
            r.balance == balance && HandScore(r.player) == HandScore(r.dealer) <= BlackjackValue)
      && (r.status == Done(DealerHigher) ==>
            r.balance == balance - bet && HandScore(r.player) < HandScore(r.dealer) <= BlackjackValue)
      && (r.status == Done(PlayerHigher) ==>
            r.balance == balance + bet && HandScore(r.dealer) < HandScore(r.player) <= BlackjackValue)
  {
    if |deck| >= 4 {
      TwoCardsNeverBust(deck[0], deck[1]);
      assert deck[..2] == [deck[0], deck[1]];
      PlaySettles(balance, bet, deck[..2], deck[2..4], deck[4..], actions);
    }
  }

  /** The dealer stands on 17 or more whenever the round reaches the comparison, and
      every dealer hand it drew on was below 17. */
  lemma DealerStandsOnSeventeen(balance: int, deck: seq<Card>, bet: int, actions: seq<Decision>)
    requires |deck| >= 4
    ensures var r := Round(balance, deck, bet, actions);
      && (r.status.Done? && r.status.outcome in {DealerBust, Push, DealerHigher, PlayerHigher} ==>
            HandScore(r.dealer) >= DealerStandsAt)
      && (forall m :: 2 <= m < |r.dealer| ==> HandScore(r.dealer[..m]) < DealerStandsAt)
  {
    PlayDealerRule(balance, bet, deck[..2], deck[2..4], deck[4..], actions);
  }

  /** A round keeps every card of its deck in a hand or in the deck left. */
  lemma RoundKeepsCards(balance: int, deck: seq<Card>, bet: int, actions: seq<Decision>)
    requires |deck| >= 4
    ensures var r := Round(balance, deck, bet, actions);
      && |r.player| >= 2 && |r.dealer| >= 2
      && multiset(r.player + r.dealer + r.deck) == multiset(deck)
  {
    PlayMovesCards(balance, bet, deck[..2], deck[2..4], deck[4..], actions);
    assert deck == deck[..2] + deck[2..4] + deck[4..];
  }

  /** With the fresh shuffled deck the deal always succeeds, and at the end of the
      round the two hands and the deck hold all 52 cards, none of them twice. */
  lemma NoCardTwice(balance: int, js: seq<int>, bet: int, actions: seq<Decision>)
    requires FisherYates.ValidDraws(52, js)
    ensures var r := Round(balance, FisherYates.Shuffled(NewDeckOrder(), js), bet, actions);
      && |r.player| >= 2 && |r.dealer| >= 2
      && |r.player + r.dealer + r.deck| == 52 && Distinct(r.player + r.dealer + r.deck)
      && (forall c: Card :: c in r.player + r.dealer + r.deck)
  {
    var deck := FisherYates.Shuffled(NewDeckOrder(), js);
    RoundKeepsCards(balance, deck, bet, actions);
    var r := Round(balance, deck, bet, actions);
    PermutedDeckDistinct(r.player + r.dealer + r.deck);
  }
}
