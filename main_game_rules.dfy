/** What one round of src/MainGame.java does to the earnings, the hands and the
    game's one deck. */
module MainGameRules {
  import opened Common
  import opened MainGame

  /** The player's turn only adds cards, taken from the front of the deck; it kept
      drawing only on hands below 21, and it busts exactly on its last card. */
  lemma {:induction false} PlayerPlaysShape(hand: seq<Card>, deck: seq<Card>, actions: seq<Decision>)
    ensures var t := PlayerPlays(hand, deck, actions);
      && |hand| <= |t.hand| && t.hand[..|hand|] == hand
      && t.hand + t.deck == hand + deck
      && (t.stop == Busted ==> |hand| < |t.hand| && HandScore(t.hand) > BlackjackValue)
      && (t.stop != Busted && |hand| < |t.hand| ==> HandScore(t.hand) <= BlackjackValue)
      && (forall m :: |hand| < m < |t.hand| ==> HandScore(t.hand[..m]) < BlackjackValue)
    decreases |actions|
  {
    if actions != [] {
      if actions[0] == Hit && deck != [] {
        var c := deck[0];
        assert (hand + [c]) + deck[1..] == hand + deck;
        if HandScore(hand + [c]) < BlackjackValue {
          PlayerPlaysShape(hand + [c], deck[1..], actions[1..]);
          var t := PlayerPlays(hand + [c], deck[1..], actions[1..]);
          assert t.hand[..|hand|] == (t.hand[..|hand| + 1])[..|hand|];
          forall m | |hand| < m < |t.hand|
            ensures HandScore(t.hand[..m]) < BlackjackValue
          {
            if m == |hand| + 1 {
              assert t.hand[..m] == hand + [c];
            }
          }
        }
      } else if actions[0] != Stand && actions[0] != Hit {
        PlayerPlaysShape(hand, deck, actions[1..]);
      }
    }
  }

  /** The house's turn only adds cards, taken from the front of the deck; it stops at
      17 or more, or with an empty deck, and it drew on hands below 17 only. */
  lemma {:induction false} HousePlaysShape(hand: seq<Card>, deck: seq<Card>)
    ensures var t := HousePlays(hand, deck);
      && |hand| <= |t.hand| && t.hand[..|hand|] == hand
      && t.hand + t.deck == hand + deck
      && (t.stop == Stood || t.stop == Halted(DeckEmpty))
      && (t.stop == Stood ==> HandScore(t.hand) >= DealerMinimum)
      && (forall m :: |hand| <= m < |t.hand| ==> HandScore(t.hand[..m]) < DealerMinimum)
    decreases |deck|
  {
    if HandScore(hand) < DealerMinimum && deck != [] {
      var c := deck[0];
      assert (hand + [c]) + deck[1..] == hand + deck;
      HousePlaysShape(hand + [c], deck[1..]);
      var t := HousePlays(hand + [c], deck[1..]);
      assert t.hand[..|hand|] == (t.hand[..|hand| + 1])[..|hand|];
      forall m | |hand| <= m < |t.hand|
        ensures HandScore(t.hand[..m]) < DealerMinimum
      {
        if m == |hand| {
          assert t.hand[..m] == hand;
        }
      }
    }
  }

  /** When a turn moves cards from the front of a deck to the end of a hand, the deck
      left is a suffix of the deck it started from. */
  lemma DropDealt(hand: seq<Card>, deck: seq<Card>, hand': seq<Card>, deck': seq<Card>)
    requires |hand| <= |hand'| && hand'[..|hand|] == hand && hand' + deck' == hand + deck
    ensures |deck'| <= |deck| && deck' == deck[|deck| - |deck'|..]
  {
    assert (hand' + deck')[|hand|..] == hand'[|hand|..] + deck';
    assert (hand + deck)[|hand|..] == deck;
  }

  /** The hit loop only appends to the hand, and leaves a suffix of the deck. */
  lemma PlayerPlaysMoves(hand: seq<Card>, deck: seq<Card>, actions: seq<Decision>)
    ensures var t := PlayerPlays(hand, deck, actions);
      && |hand| <= |t.hand| && t.hand[..|hand|] == hand
      && |t.deck| <= |deck| && t.deck == deck[|deck| - |t.deck|..]
  {
    var t := PlayerPlays(hand, deck, actions);
    PlayerPlaysShape(hand, deck, actions);
    DropDealt(hand, deck, t.hand, t.deck);
  }

  /** The house loop only appends to the hand, and leaves a suffix of the deck. */
  lemma HousePlaysMoves(hand: seq<Card>, deck: seq<Card>)
    ensures var t := HousePlays(hand, deck);
      && |hand| <= |t.hand| && t.hand[..|hand|] == hand
      && |t.deck| <= |deck| && t.deck == deck[|deck| - |t.deck|..]
  {
    var t := HousePlays(hand, deck);
    HousePlaysShape(hand, deck);
    DropDealt(hand, deck, t.hand, t.deck);
  }

  /** A suffix of a suffix of d is a suffix of d. */
  lemma SuffixOfSuffix(d: seq<Card>, x: seq<Card>, y: seq<Card>)
    requires |x| <= |d| && x == d[|d| - |x|..] && |y| <= |x| && y == x[|x| - |y|..]
    ensures y == d[|d| - |y|..]
  {
    assert d[|d| - |x|..][|x| - |y|..] == d[|d| - |y|..];
  }

  /** After the deal, the hands only grow, and the deck left is a suffix of the deck
      after the deal. */
  lemma PlayMovesCards(earnings: int, bet: int, p: seq<Card>, h: seq<Card>, d: seq<Card>, actions: seq<Decision>)
    ensures var r := Play(earnings, bet, p, h, d, actions);
      && |p| <= |r.player| && r.player[..|p|] == p
      && |h| <= |r.house| && r.house[..|h|] == h
      && |r.deck| <= |d| && r.deck == d[|d| - |r.deck|..]
  {
    var r := Play(earnings, bet, p, h, d, actions);
    if HandScore(p) != BlackjackValue {
      var t := PlayerPlays(p, d, actions);
      PlayerPlaysMoves(p, d, actions);
      if t.stop.Halted? {
        assert r.player == t.hand && r.house == h && r.deck == t.deck;
      } else {
        var hp := HousePlays(h, t.deck);
        HousePlaysMoves(h, t.deck);
        assert r.player == t.hand && r.house == hp.hand && r.deck == hp.deck;
        SuffixOfSuffix(d, t.deck, hp.deck);
      }
    }
  }

  /** After the deal, every card stays in a hand or in the deck. */
  lemma PlayConservesCards(earnings: int, bet: int, p: seq<Card>, h: seq<Card>, d: seq<Card>, actions: seq<Decision>)
    ensures var r := Play(earnings, bet, p, h, d, actions);
      multiset(r.player) + multiset(r.house) + multiset(r.deck) == multiset(p) + multiset(h) + multiset(d)
  {
    var r := Play(earnings, bet, p, h, d, actions);
    if HandScore(p) != BlackjackValue {
      var t := PlayerPlays(p, d, actions);
      assert multiset(t.hand) + multiset(t.deck) == multiset(p) + multiset(d) by {
        PlayerPlaysShape(p, d, actions);
        assert multiset(t.hand + t.deck) == multiset(p + d);
      }
      if t.stop.Halted? {
        assert r.player == t.hand && r.house == h && r.deck == t.deck;
        MovedTwice(t.hand, h, t.deck, t.deck, p, h, d);
      } else {
        var hp := HousePlays(h, t.deck);
        assert multiset(hp.hand) + multiset(hp.deck) == multiset(h) + multiset(t.deck) by {
          HousePlaysShape(h, t.deck);
          assert multiset(hp.hand + hp.deck) == multiset(h + t.deck);
        }
        assert r.player == t.hand && r.house == hp.hand && r.deck == hp.deck;
        MovedTwice(t.hand, hp.hand, hp.deck, t.deck, p, h, d);
      }
    }
  }

  /** Each verdict of determineWinner matches the scores it was decided on. */
  lemma WinnerMeaning(player: seq<Card>, house: seq<Card>)
    ensures var v := Winner(player, house);
      && (v == PlayerBust <==> HandScore(player) > BlackjackValue)
      && (v == HouseBust ==> HandScore(player) <= BlackjackValue < HandScore(house))
      && (v == PlayerHigher ==> HandScore(house) < HandScore(player) <= BlackjackValue)
      && (v == HouseHigher ==> HandScore(player) < HandScore(house) <= BlackjackValue)
      && (v == Tie ==> HandScore(player) == HandScore(house) <= BlackjackValue)
  {
  }

  /** After the deal (the bet already taken), the earnings grow by the natural payout
      or by determineWinner's credit, and each verdict matches the scores. */
  lemma PlaySettles(earnings: int, bet: int, p: seq<Card>, h: seq<Card>, d: seq<Card>, actions: seq<Decision>)
    requires HandScore(p) <= BlackjackValue
    ensures var r := Play(earnings, bet, p, h, d, actions);
      && (r.status.Failed? ==> r.earnings == earnings)
      && (r.status == Done(Blackjack) <==> HandScore(p) == BlackjackValue)
      && (r.status == Done(Blackjack) ==>
            r.earnings == earnings + 3 * bet / 2 && r.player == p && r.house == h && r.deck == d)
      && (r.status.Done? && r.status.outcome.Settled? ==>
            r.earnings == earnings + Credit(r.status.outcome.verdict))
      && (r.status == Done(Settled(PlayerBust)) ==> HandScore(r.player) > BlackjackValue)
      && (r.status == Done(Settled(HouseBust)) ==> HandScore(r.player) <= BlackjackValue < HandScore(r.house))
      && (r.status == Done(Settled(PlayerHigher)) ==> HandScore(r.house) < HandScore(r.player) <= BlackjackValue)
      && (r.status == Done(Settled(HouseHigher)) ==> HandScore(r.player) < HandScore(r.house) <= BlackjackValue)
      && (r.status == Done(Settled(Tie)) ==> HandScore(r.player) == HandScore(r.house) <= BlackjackValue)
  {
    var r := Play(earnings, bet, p, h, d, actions);
    if HandScore(p) != BlackjackValue {
      var t := PlayerPlays(p, d, actions);
      if !t.stop.Halted? {
        var hp := HousePlays(h, t.deck);
        if !hp.stop.Halted? {
          var v := Winner(t.hand, hp.hand);
          assert r.status == Done(Settled(v)) && r.earnings == earnings + Credit(v);
          assert r.player == t.hand && r.house == hp.hand;
          WinnerMeaning(t.hand, hp.hand);
        } else {
          assert r.status == Failed(hp.stop.failure) && r.earnings == earnings;
        }
      } else {
        assert r.status == Failed(t.stop.failure) && r.earnings == earnings;
      }
    }
  }

  /** After the deal, the house plays whenever the player had no natural, a bust
      included, and stands on 17 or more; the player drew only below 21. */
  lemma PlayTurnRules(earnings: int, bet: int, p: seq<Card>, h: seq<Card>, d: seq<Card>, actions: seq<Decision>)
    requires HandScore(p) < BlackjackValue
    ensures var r := Play(earnings, bet, p, h, d, actions);
      && (r.status.Done? ==> r.status.outcome.Settled? && HandScore(r.house) >= DealerMinimum)
      && (forall m :: |h| <= m < |r.house| ==> HandScore(r.house[..m]) < DealerMinimum)
      && (forall m :: |p| <= m < |r.player| ==> HandScore(r.player[..m]) < BlackjackValue)
  {
    var t := PlayerPlays(p, d, actions);
    PlayerPlaysShape(p, d, actions);
    assert t.hand[..|p|] == p;
    if !t.stop.Halted? {
      HousePlaysShape(h, t.deck);
    }
  }

  /** After a valid bet and a full deal, the round is the play on the dealt hands. */
  lemma RoundIsPlay(earnings: int, deck: seq<Card>, bets: seq<BetLine>, actions: seq<Decision>)
    requires earnings > 0 && FirstValidBet(earnings, bets) < |bets| && |deck| >= 4
    ensures var bet := bets[FirstValidBet(earnings, bets)].n;
      Round(earnings, deck, bets, actions)
        == Play(earnings - bet, bet, [deck[0], deck[2]], [deck[1], deck[3]], deck[4..], actions)
  {
    assert Deal(deck) == Dealt(true, [deck[0], deck[2]], [deck[1], deck[3]], deck[4..]);
  }

  /** playRound with no earnings left only clears the hands. */
  lemma NoEarningsNoRound(earnings: int, deck: seq<Card>, bets: seq<BetLine>, actions: seq<Decision>)
    requires earnings <= 0
    ensures Round(earnings, deck, bets, actions) == RoundEnd(NoRound, earnings, [], [], deck)
  {
  }

  /** With earnings from 1 to 9 no bet is ever accepted, since the minimum is 10:
      placeBet asks until the input ends, and nothing changes. */
  lemma PoorPlayerCannotBet(earnings: int, deck: seq<Card>, bets: seq<BetLine>, actions: seq<Decision>)
    requires 0 < earnings < BetAmount
    ensures Round(earnings, deck, bets, actions) == RoundEnd(Failed(InputExhausted), earnings, [], [], deck)
  {
    assert FirstValidBet(earnings, bets) == |bets|;
  }

  /** The bet lies in 10..earnings and is taken once, when placed; what comes back is
      the natural payout, determineWinner's credit, or nothing if the round fails. */
  lemma BetEscrow(earnings: int, deck: seq<Card>, bets: seq<BetLine>, actions: seq<Decision>)
    requires earnings > 0 && FirstValidBet(earnings, bets) < |bets|
    ensures var r, bet := Round(earnings, deck, bets, actions), bets[FirstValidBet(earnings, bets)].n;
      && BetAmount <= bet <= earnings
      && (r.status.Failed? ==> r.earnings == earnings - bet)
      && (r.status == Done(Blackjack) ==> r.earnings == earnings - bet + 3 * bet / 2)
      && (r.status.Done? && r.status.outcome.Settled? ==>
            r.earnings == earnings - bet + Credit(r.status.outcome.verdict))
      && r.status != NoRound
  {
    var dealt := Deal(deck);
    if dealt.ok {
      RoundIsPlay(earnings, deck, bets, actions);
      TwoCardsNeverBust(deck[0], deck[2]);
      PlaySettles(earnings - bets[FirstValidBet(earnings, bets)].n, bets[FirstValidBet(earnings, bets)].n,
        dealt.player, dealt.house, dealt.deck, actions);
    }
  }

  /** Earnings that start at 0 or more stay so. */
  lemma EarningsStayNonNegative(earnings: int, deck: seq<Card>, bets: seq<BetLine>, actions: seq<Decision>)
    requires earnings >= 0
    ensures Round(earnings, deck, bets, actions).earnings >= 0
  {
    if earnings > 0 && FirstValidBet(earnings, bets) < |bets| {
      BetEscrow(earnings, deck, bets, actions);
    }
  }

  /** The payouts after the turns ignore the bet: a win returns 20 and a tie 10, so
      with a bet above 20 even a win leaves the player poorer than before. */
  lemma FixedPayouts(earnings: int, deck: seq<Card>, bets: seq<BetLine>, actions: seq<Decision>)
    requires earnings > 0 && FirstValidBet(earnings, bets) < |bets|
    ensures var r, bet := Round(earnings, deck, bets, actions), bets[FirstValidBet(earnings, bets)].n;
      && (r.status == Done(Settled(HouseBust)) || r.status == Done(Settled(PlayerHigher)) ==>
            r.earnings == earnings - bet + 2 * BetAmount)
      && (r.status == Done(Settled(Tie)) ==> r.earnings == earnings - bet + BetAmount)
      && (r.status.Done? && r.status.outcome.Settled? && bet > 2 * BetAmount ==> r.earnings < earnings)
  {
    BetEscrow(earnings, deck, bets, actions);
  }

  /** The deal alternates player, house, player, house from the front of the deck. */
  lemma DealOrder(earnings: int, deck: seq<Card>, bets: seq<BetLine>, actions: seq<Decision>)
    requires earnings > 0 && FirstValidBet(earnings, bets) < |bets| && |deck| >= 4
    ensures var r := Round(earnings, deck, bets, actions);
      && |r.player| >= 2 && r.player[..2] == [deck[0], deck[2]]
      && |r.house| >= 2 && r.house[..2] == [deck[1], deck[3]]
  {
    var bet := bets[FirstValidBet(earnings, bets)].n;
    RoundIsPlay(earnings, deck, bets, actions);
    PlayMovesCards(earnings - bet, bet, [deck[0], deck[2]], [deck[1], deck[3]], deck[4..], actions);
  }

  /** A natural on the first two cards pays 1.5 times the bet (rounded down) on top of
      the earnings left after the bet, and skips both turns; nothing else does. */
  lemma NaturalSkipsTurns(earnings: int, deck: seq<Card>, bets: seq<BetLine>, actions: seq<Decision>)
    requires earnings > 0 && FirstValidBet(earnings, bets) < |bets| && |deck| >= 4
    ensures var r, bet := Round(earnings, deck, bets, actions), bets[FirstValidBet(earnings, bets)].n;
      && (r.status == Done(Blackjack) <==> HandScore([deck[0], deck[2]]) == BlackjackValue)
      && (r.status == Done(Blackjack) ==>
            && r.earnings == earnings - bet + 3 * bet / 2 && r.earnings > earnings
            && r.player == [deck[0], deck[2]] && r.house == [deck[1], deck[3]] && r.deck == deck[4..])
  {
    var bet := bets[FirstValidBet(earnings, bets)].n;
    RoundIsPlay(earnings, deck, bets, actions);
    TwoCardsNeverBust(deck[0], deck[2]);
    PlaySettles(earnings - bet, bet, [deck[0], deck[2]], [deck[1], deck[3]], deck[4..], actions);
  }

  /** Without a natural, the player draws only while below 21, and the house plays
      whatever the player did, a bust included, ending on 17 or more. */
  lemma TurnsAfterTheDeal(earnings: int, deck: seq<Card>, bets: seq<BetLine>, actions: seq<Decision>)
    requires earnings > 0 && FirstValidBet(earnings, bets) < |bets| && |deck| >= 4
    ensures var r := Round(earnings, deck, bets, actions);
      && (r.status.Done? && r.status.outcome.Settled? ==> HandScore(r.house) >= DealerMinimum)
      && (forall m :: 2 <= m < |r.house| ==> HandScore(r.house[..m]) < DealerMinimum)
      && (forall m :: 2 <= m < |r.player| ==> HandScore(r.player[..m]) < BlackjackValue)
  {
    var bet := bets[FirstValidBet(earnings, bets)].n;
    RoundIsPlay(earnings, deck, bets, actions);
    TwoCardsNeverBust(deck[0], deck[2]);
    if HandScore([deck[0], deck[2]]) != BlackjackValue {
      PlayTurnRules(earnings - bet, bet, [deck[0], deck[2]], [deck[1], deck[3]], deck[4..], actions);
    }
  }

  /** A deal from fewer than four cards fails, and puts every card left into the hands. */
  lemma ShortDealKeepsCards(deck: seq<Card>)
    requires |deck| < 4
    ensures var dealt := Deal(deck);
      && !dealt.ok && dealt.deck == []
      && multiset(dealt.player) + multiset(dealt.house) == multiset(deck)
  {
    if |deck| == 3 {
      assert deck == [deck[0], deck[1], deck[2]];
      ThreeCardsDealt(deck[0], deck[1], deck[2]);
    } else if |deck| == 2 {
      assert deck == [deck[0], deck[1]];
      TwoCardsDealt(deck[0], deck[1]);
    } else if |deck| == 1 {
      assert deck == [deck[0]];
    }
  }

  /** Three cards dealt alternately: the first and third to the player. */
  lemma ThreeCardsDealt(a: Card, b: Card, c: Card)
    ensures Deal([a, b, c]) == Dealt(false, [a, c], [b], [])
    ensures multiset([a, c]) + multiset([b]) == multiset([a, b, c])
  {
  }

  /** Two cards dealt alternately: one to each hand. */
  lemma TwoCardsDealt(a: Card, b: Card)
    ensures Deal([a, b]) == Dealt(false, [a], [b], [])
    ensures multiset([a]) + multiset([b]) == multiset([a, b])
  {
  }

  /** Dealing alternately from the front of four or more cards keeps every card. */
  lemma DealTakesFour(deck: seq<Card>)
    requires |deck| >= 4
    ensures multiset([deck[0], deck[2]]) + multiset([deck[1], deck[3]]) + multiset(deck[4..]) == multiset(deck)
  {
    assert deck == [deck[0], deck[1], deck[2], deck[3]] + deck[4..];
  }

  /** The last m cards of what follows the first k are the last m cards. */
  lemma SuffixOfDrop(deck: seq<Card>, k: nat, m: nat)
    requires k <= |deck| && m <= |deck| - k
    ensures deck[k..][|deck| - k - m..] == deck[|deck| - m..]
  {
  }

  /** The play after a full deal keeps every card of the deck in the hands or the
      deck left. */
  lemma DealtPlayKeepsCards(earnings: int, bet: int, deck: seq<Card>, actions: seq<Decision>)
    requires |deck| >= 4
    ensures var q := Play(earnings, bet, [deck[0], deck[2]], [deck[1], deck[3]], deck[4..], actions);
      multiset(q.player) + multiset(q.house) + multiset(q.deck) == multiset(deck)
  {
    DealTakesFour(deck);
    PlayConservesCards(earnings, bet, [deck[0], deck[2]], [deck[1], deck[3]], deck[4..], actions);
  }

  /** s is what is left at the end of t once a front part is taken. */
  predicate IsSuffix(s: seq<Card>, t: seq<Card>)
  {
    |s| <= |t| && s == t[|t| - |s|..]
  }

  /** The play after a full deal leaves a suffix of what followed the four dealt cards. */
  lemma DealtPlayLeavesSuffix(earnings: int, bet: int, deck: seq<Card>, actions: seq<Decision>)
    requires |deck| >= 4
    ensures var q := Play(earnings, bet, [deck[0], deck[2]], [deck[1], deck[3]], deck[4..], actions);
      |q.deck| <= |deck| - 4 && IsSuffix(q.deck, deck)
  {
    var d := deck[4..];
    var q := Play(earnings, bet, [deck[0], deck[2]], [deck[1], deck[3]], d, actions);
    PlayMovesCards(earnings, bet, [deck[0], deck[2]], [deck[1], deck[3]], d, actions);
    var m := |q.deck|;
    assert q.deck == d[|d| - m..];
    SuffixOfDrop(deck, 4, m);
    assert d[|d| - m..] == deck[4..][|deck| - 4 - m..];
  }

  /** A round that deals all four cards keeps every card in the hands or the deck. */
  lemma DealtRoundKeepsCards(earnings: int, deck: seq<Card>, bets: seq<BetLine>, actions: seq<Decision>)
    requires earnings > 0 && FirstValidBet(earnings, bets) < |bets| && |deck| >= 4
    ensures var r := Round(earnings, deck, bets, actions);
      multiset(r.player) + multiset(r.house) + multiset(r.deck) == multiset(deck)
  {
    var bet := bets[FirstValidBet(earnings, bets)].n;
    DealtPlayKeepsCards(earnings - bet, bet, deck, actions);
    RoundIsPlay(earnings, deck, bets, actions);
  }

  /** A round that deals all four cards leaves a suffix of the deck after them. */
  lemma DealtRoundLeavesSuffix(earnings: int, deck: seq<Card>, bets: seq<BetLine>, actions: seq<Decision>)
    requires earnings > 0 && FirstValidBet(earnings, bets) < |bets| && |deck| >= 4
    ensures var r := Round(earnings, deck, bets, actions);
      |r.deck| <= |deck| - 4 && IsSuffix(r.deck, deck)
  {
    var bet := bets[FirstValidBet(earnings, bets)].n;
    DealtPlayLeavesSuffix(earnings - bet, bet, deck, actions);
    RoundIsPlay(earnings, deck, bets, actions);
  }

  /** No card is lost or made: the hands and the deck hold the cards the deck held,
      the deck left is what remains after its front was dealt, and a round that
      completes deals at least four cards. */
  lemma CardsConserved(earnings: int, deck: seq<Card>, bets: seq<BetLine>, actions: seq<Decision>)
    ensures var r := Round(earnings, deck, bets, actions);
      && multiset(r.player) + multiset(r.house) + multiset(r.deck) == multiset(deck)
      && |r.deck| <= |deck| && r.deck == deck[|deck| - |r.deck|..]
      && (r.status.Done? ==> |r.deck| <= |deck| - 4)
  {
    if earnings > 0 && FirstValidBet(earnings, bets) < |bets| {
      if |deck| >= 4 {
        DealtRoundKeepsCards(earnings, deck, bets, actions);
        DealtRoundLeavesSuffix(earnings, deck, bets, actions);
      } else {
        ShortDealKeepsCards(deck);
      }
    }
  }

  /** The first round plays the deck as built, never shuffled: the player always
      starts with the Two and Four of clubs and the house with the Three and Five. */
  lemma FirstRoundUnshuffled(bets: seq<BetLine>, actions: seq<Decision>)
    requires FirstValidBet(InitialEarnings, bets) < |bets|
    ensures var r := Round(InitialEarnings, NewDeckOrder(), bets, actions);
      && |r.player| >= 2 && |r.house| >= 2
      && r.player[..2] == [Card(Clubs, Two), Card(Clubs, Four)]
      && r.house[..2] == [Card(Clubs, Three), Card(Clubs, Five)]
  {
    var d := NewDeckOrder();
    DealOrder(InitialEarnings, d, bets, actions);
    assert d[0] == Card(Clubs, Two) && d[1] == Card(Clubs, Three);
    assert d[2] == Card(Clubs, Four) && d[3] == Card(Clubs, Five);
  }
}
