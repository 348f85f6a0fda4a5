/** The variant of src/Main.java. One static deck serves every round: it is
    never shuffled and never refilled, and cards are drawn from its end. The bet
    must lie in 1..balance and is settled as a net change of the balance after
    the round; a bust leaves the balance as it was. */
module MainBlackjack {
  import opened Common
  import opened StringCards
  import FisherYates
  import AceRule

  const BlackjackValue := AceRule.BlackjackValue
  /** The house draws while its score is below this. */
  const HouseStandsAt := 17

  class Hand {
    var cards: seq<Card>

    constructor ()
      ensures cards == []
    {
      cards := [];
    }

    method AddCard(card: Card)
      modifies this
      ensures cards == old(cards) + [card]
    {
      cards := cards + [card];
    }

    /** getHandValue: every Ace at 11, then 10 off per Ace while above 21. */
    method GetHandValue() returns (value: int)
      ensures value == HandScore(cards)
    {
      value := 0;
      var numAces := 0;
      for i := 0 to |cards|
        invariant value == RawTotal(cards[..i])
        invariant numAces == AceCount(cards[..i])
      {
        AddOne(cards[..i], cards[i]);
        assert cards[..i + 1] == cards[..i] + [cards[i]];
        var rank := cards[i].rank;
        if rank == Ace {
          value := value + 11;
          numAces := numAces + 1;
        } else if rank == King || rank == Queen || rank == Jack {
          value := value + 10;
        } else {
          value := value + FaceValue(rank);
        }
      }
      assert cards[..|cards|] == cards;
      ghost var raw, aces := value, numAces;
      while value > BlackjackValue && numAces > 0
        invariant 0 <= numAces <= aces
        invariant value == raw - 10 * (aces - numAces)
        invariant numAces < aces ==> value + 10 > BlackjackValue
      {
        value := value - 10;
        numAces := numAces - 1;
      }
      AceRule.DowngradesUnique(raw, aces, aces - numAces);
    }
  }

  class Deck {
    var cards: seq<Card>

    /** Deck(): for each suit, for each rank, one card. */
    constructor ()
      ensures cards == NewDeckOrder()
    {
      var built: seq<Card> := [];
      var s := 0;
      while s < 4
        invariant 0 <= s <= 4
        invariant built == NewDeckOrder()[..13 * s]
      {
        var r := 0;
        while r < 13
          invariant 0 <= r <= 13
          invariant built == NewDeckOrder()[..13 * s + r]
        {
          assert (13 * s + r) / 13 == s && (13 * s + r) % 13 == r;
          assert NewDeckOrder()[..13 * s + r + 1] == NewDeckOrder()[..13 * s + r] + [Card(SuitAt(s), RankAt(r))];
          built := built + [Card(SuitAt(s), RankAt(r))];
          r := r + 1;
        }
        s := s + 1;
      }
      cards := built;
    }

    /** shuffle: for i from the last index down to 1, swap i with the drawn j in 0..i. */
    method Shuffle(js: seq<int>)
      requires FisherYates.ValidDraws(|cards|, js)
      modifies this
      ensures cards == FisherYates.Shuffled(old(cards), js)
      ensures multiset(cards) == multiset(old(cards))
    {
      ghost var s0 := cards;
      var i := |cards| - 1;
      ghost var k := 0;
      while i > 0
        invariant FisherYates.ValidDraws(|s0|, js)
        invariant |cards| == |s0| && i + k == |s0| - 1 && (i >= 0 || |s0| == 0)
        invariant k <= |js|
        invariant cards == FisherYates.SwapsUpTo(s0, js, k)
      {
        var j := js[|cards| - 1 - i];
        ghost var pre := cards;
        var temp := cards[i];
        cards := cards[i := cards[j]];
        cards := cards[j := temp];
        FisherYates.NextPass(s0, js, k, pre, cards);
        i := i - 1;
        k := k + 1;
      }
      assert k == |js|;
    }

    /** drawCard: fails on an empty deck, otherwise removes and returns the last card. */
    method DrawCard() returns (card: Option<Card>)
      modifies this
      ensures card.None? <==> old(cards) == []
      ensures card.None? ==> cards == old(cards)
      ensures card.Some? ==> old(cards) == cards + [card.value]
    {
      if cards == [] {
        return None;
      }
      card := Some(cards[|cards| - 1]);
      cards := cards[..|cards| - 1];
    }
  }

  class Player {
    const name: string
    const pinCode: string
    var balance: int

    constructor (name: string, pinCode: string, balance: int)
      ensures this.name == name && this.pinCode == pinCode && this.balance == balance
    {
      this.name := name;
      this.pinCode := pinCode;
      this.balance := balance;
    }

    method SetBalance(balance: int)
      modifies this
      ensures this.balance == balance
    {
      this.balance := balance;
    }
  }

  // ----- Betting -----

  /** Index of the first bet in the input that getPlayerBet accepts, or |bets| if none is. */
  function FirstValidBet(balance: int, bets: seq<int>): (k: nat)
    ensures k <= |bets|
    ensures k < |bets| ==> 0 < bets[k] <= balance
    ensures forall m :: 0 <= m < k ==> !(0 < bets[m] <= balance)
  {
    if bets == [] then 0
    else if 0 < bets[0] <= balance then 0
    else 1 + FirstValidBet(balance, bets[1..])
  }

  /** getPlayerBet: reads bets until one lies in 1..balance; None when the input runs out. */
  method GetPlayerBet(balance: int, bets: seq<int>) returns (bet: Option<int>)
    ensures bet.Some? <==> FirstValidBet(balance, bets) < |bets|
    ensures bet.Some? ==> bet.value == bets[FirstValidBet(balance, bets)]
    ensures bet.Some? ==> 0 < bet.value <= balance
  {
    var i := 0;
    while true
      invariant 0 <= i <= |bets|
      invariant forall m :: 0 <= m < i ==> !(0 < bets[m] <= balance)
      decreases |bets| - i
    {
      if i == |bets| {
        return None;
      }
      var betAmount := bets[i];
      if betAmount > 0 && betAmount <= balance {
        return Some(betAmount);
      }
      i := i + 1;
    }
  }

  // ----- One round, as values -----

  /** The hit-or-stand loop: Hit draws one card and ends the turn on a bust, Stand
      ends it, any other answer draws nothing. Reaching 21 does not end it. */
  function PlayerPlays(hand: seq<Card>, deck: seq<Card>, actions: seq<Decision>): Turn<Card>
    decreases |actions|
  {
    if actions == [] then Turn(Halted(InputExhausted), hand, deck)
    else if actions[0] == Hit then
      if deck == [] then Turn(Halted(DeckEmpty), hand, deck)
      else
        var c, rest := deck[|deck| - 1], deck[..|deck| - 1];
        if HandScore(hand + [c]) > BlackjackValue then Turn(Busted, hand + [c], rest)
        else PlayerPlays(hand + [c], rest, actions[1..])
    else if actions[0] == Stand then Turn(Stood, hand, deck)
    else PlayerPlays(hand, deck, actions[1..])
  }

  /** The house loop: draw while the score is below 17. */
  function HousePlays(hand: seq<Card>, deck: seq<Card>): Turn<Card>
    decreases |deck|
  {
    if HandScore(hand) >= HouseStandsAt then Turn(Stood, hand, deck)
    else if deck == [] then Turn(Halted(DeckEmpty), hand, deck)
    else HousePlays(hand + [deck[|deck| - 1]], deck[..|deck| - 1])
  }

  /** Taking the last card of deck into hand moves one card and loses none. */
  lemma DrawLast(hand: seq<Card>, deck: seq<Card>)
    requires deck != []
    ensures var c, rest := deck[|deck| - 1], deck[..|deck| - 1];
      multiset(hand + [c]) + multiset(rest) == multiset(hand) + multiset(deck)
  {
    assert deck == deck[..|deck| - 1] + [deck[|deck| - 1]];
  }

  /** The player's turn only adds cards to the hand, only takes them from the end
      of the deck, and moves them without losing or making any; it busts exactly
      on the last card. */
  lemma {:induction false} PlayerPlaysShape(hand: seq<Card>, deck: seq<Card>, actions: seq<Decision>)
    ensures var t := PlayerPlays(hand, deck, actions);
      && |hand| <= |t.hand| && t.hand[..|hand|] == hand
      && |t.deck| <= |deck| && t.deck == deck[..|t.deck|]
      && (t.stop == Busted ==> |hand| < |t.hand| && HandScore(t.hand) > BlackjackValue)
      && (t.stop != Busted && |hand| < |t.hand| ==> HandScore(t.hand) <= BlackjackValue)
      && (t.stop == Halted(DeckEmpty) ==> t.deck == [])
      && multiset(t.hand) + multiset(t.deck) == multiset(hand) + multiset(deck)
    decreases |actions|
  {
    PlayerPlaysKeepsCards(hand, deck, actions);
    if actions != [] {
      if actions[0] == Hit && deck != [] {
        var c, rest := deck[|deck| - 1], deck[..|deck| - 1];
        if HandScore(hand + [c]) <= BlackjackValue {
          PlayerPlaysShape(hand + [c], rest, actions[1..]);
          var t := PlayerPlays(hand + [c], rest, actions[1..]);
          assert t.hand[..|hand|] == (t.hand[..|hand| + 1])[..|hand|];
          assert t.deck == rest[..|t.deck|] == deck[..|t.deck|];
        }
      } else if actions[0] != Stand && actions[0] != Hit {
        PlayerPlaysShape(hand, deck, actions[1..]);
      }
    }
  }

  /** Every hand the player's turn went on from after a hit is 21 or below: only the
      last card drawn can bust. */
  lemma {:induction false} PlayerPlaysSafeHits(hand: seq<Card>, deck: seq<Card>, actions: seq<Decision>)
    ensures var t := PlayerPlays(hand, deck, actions);
      forall m :: |hand| < m < |t.hand| ==> HandScore(t.hand[..m]) <= BlackjackValue
    decreases |actions|
  {
    if actions != [] {
      if actions[0] == Hit && deck != [] {
        var c, rest := deck[|deck| - 1], deck[..|deck| - 1];
        if HandScore(hand + [c]) <= BlackjackValue {
          PlayerPlaysShape(hand + [c], rest, actions[1..]);
          PlayerPlaysSafeHits(hand + [c], rest, actions[1..]);
          var t := PlayerPlays(hand + [c], rest, actions[1..]);
          assert PlayerPlays(hand, deck, actions) == t;
          assert t.hand[..|hand| + 1] == hand + [c];
        }
      } else if actions[0] != Stand && actions[0] != Hit {
        PlayerPlaysSafeHits(hand, deck, actions[1..]);
        assert PlayerPlays(hand, deck, actions) == PlayerPlays(hand, deck, actions[1..]);
      }
    }
  }

  /** The house turn only adds cards, taken from the end of the deck; it stops at
      17 or more, or with an empty deck, and every hand it drew on was below 17. */
  lemma {:induction false} HousePlaysShape(hand: seq<Card>, deck: seq<Card>)
    ensures var t := HousePlays(hand, deck);
      && |hand| <= |t.hand| && t.hand[..|hand|] == hand
      && |t.deck| <= |deck| && t.deck == deck[..|t.deck|]
      && (t.stop == Stood || t.stop == Halted(DeckEmpty))
      && (t.stop == Stood ==> HandScore(t.hand) >= HouseStandsAt)
      && (t.stop == Halted(DeckEmpty) ==> t.deck == [])
      && (forall m :: |hand| <= m < |t.hand| ==> HandScore(t.hand[..m]) < HouseStandsAt)
    decreases |deck|
  {
    if HandScore(hand) < HouseStandsAt && deck != [] {
      var c, rest := deck[|deck| - 1], deck[..|deck| - 1];
      HousePlaysShape(hand + [c], rest);
      var t := HousePlays(hand + [c], rest);
      assert t.hand[..|hand|] == (t.hand[..|hand| + 1])[..|hand|];
      assert t.deck == rest[..|t.deck|] == deck[..|t.deck|];
      forall m | |hand| <= m < |t.hand|
        ensures HandScore(t.hand[..m]) < HouseStandsAt
      {
        if m == |hand| {
          assert t.hand[..m] == hand;
        }
      }
    }
  }

  /** The player's turn moves cards from the deck to the hand without losing or
      making any. */
  lemma {:induction false} PlayerPlaysKeepsCards(hand: seq<Card>, deck: seq<Card>, actions: seq<Decision>)
    ensures var t := PlayerPlays(hand, deck, actions);
      multiset(t.hand) + multiset(t.deck) == multiset(hand) + multiset(deck)
    decreases |actions|
  {
    if actions != [] {
      if actions[0] == Hit && deck != [] {
        var c, rest := deck[|deck| - 1], deck[..|deck| - 1];
        DrawLast(hand, deck);
        if HandScore(hand + [c]) <= BlackjackValue {
          PlayerPlaysKeepsCards(hand + [c], rest, actions[1..]);
        }
      } else if actions[0] != Stand && actions[0] != Hit {
        PlayerPlaysKeepsCards(hand, deck, actions[1..]);
      }
    }
  }

  /** The house turn moves cards from the deck to the hand without losing or making any. */
  lemma {:induction false} HousePlaysKeepsCards(hand: seq<Card>, deck: seq<Card>)
    ensures var t := HousePlays(hand, deck);
      multiset(t.hand) + multiset(t.deck) == multiset(hand) + multiset(deck)
    decreases |deck|
  {
    if HandScore(hand) < HouseStandsAt && deck != [] {
      var c, rest := deck[|deck| - 1], deck[..|deck| - 1];
      DrawLast(hand, deck);
      HousePlaysKeepsCards(hand + [c], rest);
    }
  }

  /** The result of a round that reaches settlement, or that ends early. */
  datatype Outcome = Blackjack | Bust | HouseBust | PlayerHigher | HouseHigher | Tie

  datatype Status = Done(outcome: Outcome) | Failed(failure: Failure)

  /** What a round leaves behind: its status, the balance, the static deck, and the two hands. */
  datatype RoundEnd = RoundEnd(status: Status, balance: int, deck: seq<Card>, player: seq<Card>, house: seq<Card>)

  /** The comparison after the house turn. */
  function Settle(player: seq<Card>, house: seq<Card>): Outcome
  {
    if HandScore(house) > BlackjackValue then HouseBust
    else if HandScore(player) > HandScore(house) then PlayerHigher
    else if HandScore(player) < HandScore(house) then HouseHigher
    else Tie
  }

  /** The change of balance for each way a round can end; (int)(bet * 1.5) is 3 * bet / 2 for bet > 0. */
  function NetChange(o: Outcome, bet: int): int
  {
    match o
    case Blackjack => 3 * bet / 2
    case Bust => 0
    case HouseBust => bet
    case PlayerHigher => bet
    case HouseHigher => -bet
    case Tie => 0
  }

  /** The round after the deal. */
  function Play(balance: int, bet: int, player: seq<Card>, house: seq<Card>, deck: seq<Card>, actions: seq<Decision>): RoundEnd
  {
    if HandScore(player) == BlackjackValue then
      RoundEnd(Done(Blackjack), balance + NetChange(Blackjack, bet), deck, player, house)
    else
      var t := PlayerPlays(player, deck, actions);
      if t.stop.Halted? then RoundEnd(Failed(t.stop.failure), balance, t.deck, t.hand, house)
      else if t.stop == Busted then RoundEnd(Done(Bust), balance + NetChange(Bust, bet), t.deck, t.hand, house)
      else
        var h := HousePlays(house, t.deck);
        if h.stop.Halted? then RoundEnd(Failed(h.stop.failure), balance, h.deck, t.hand, h.hand)
        else
          var o := Settle(t.hand, h.hand);
          RoundEnd(Done(o), balance + NetChange(o, bet), h.deck, t.hand, h.hand)
  }

  /** playGame for one round: bet, deal player-house-player-house from the end of
      the deck, then play. A failed deal empties the deck (hands are then dropped). */
  function Round(balance: int, deck: seq<Card>, bets: seq<int>, actions: seq<Decision>): RoundEnd
  {
    var k := FirstValidBet(balance, bets);
    if k == |bets| then RoundEnd(Failed(InputExhausted), balance, deck, [], [])
    else if |deck| < 4 then RoundEnd(Failed(DeckEmpty), balance, [], [], [])
    else
      var n := |deck|;
      Play(balance, bets[k], [deck[n - 1], deck[n - 3]], [deck[n - 2], deck[n - 4]], deck[..n - 4], actions)
  }

  /** Round after a valid bet and a full deal is Play on the dealt hands. */
  lemma RoundIsPlay(balance: int, deck: seq<Card>, bets: seq<int>, actions: seq<Decision>)
    requires FirstValidBet(balance, bets) < |bets| && |deck| >= 4
    ensures var n := |deck|;
      && Round(balance, deck, bets, actions)
         == Play(balance, bets[FirstValidBet(balance, bets)], [deck[n - 1], deck[n - 3]], [deck[n - 2], deck[n - 4]], deck[..n - 4], actions)
      && HandScore([deck[n - 1], deck[n - 3]]) <= BlackjackValue
  {
    var n := |deck|;
    TwoCardsNeverBust(deck[n - 1], deck[n - 3]);
  }

  /** Four cards drawn one by one from the end of d0 are its last four, last first,
      and what is left is the rest of d0. */
  lemma DrawnFromEnd(d0: seq<Card>, d1: seq<Card>, d2: seq<Card>, d3: seq<Card>, d4: seq<Card>,
                     c1: Card, c2: Card, c3: Card, c4: Card)
    requires d0 == d1 + [c1] && d1 == d2 + [c2] && d2 == d3 + [c3] && d3 == d4 + [c4]
    ensures var n := |d0|;
      && n >= 4 && d4 == d0[..n - 4]
      && c1 == d0[n - 1] && c2 == d0[n - 2] && c3 == d0[n - 3] && c4 == d0[n - 4]
  {
    assert d0 == d4 + [c4, c3, c2, c1];
  }

  // ----- One round, on the objects -----

  /** The hit-or-stand loop of playGame on the player's hand and the static deck. */
  method PlayerTurn(playerHand: Hand, deck: Deck, actions: seq<Decision>) returns (stop: Stop)
    modifies playerHand, deck
    ensures var t := PlayerPlays(old(playerHand.cards), old(deck.cards), actions);
      stop == t.stop && playerHand.cards == t.hand && deck.cards == t.deck
  {
    ghost var t := PlayerPlays(playerHand.cards, deck.cards, actions);
    var k := 0;
    while true
      invariant 0 <= k <= |actions|
      invariant PlayerPlays(playerHand.cards, deck.cards, actions[k..]) == t
      decreases |actions| - k
    {
      if k == |actions| {
        assert actions[k..] == [];
        return Halted(InputExhausted);
      }
      var action := actions[k];
      if action == Hit {
        ghost var before := deck.cards;
        var card := deck.DrawCard();
        if card.None? {
          return Halted(DeckEmpty);
        }
        assert before[|before| - 1] == card.value && before[..|before| - 1] == deck.cards;
        playerHand.AddCard(card.value);
        var playerValue := playerHand.GetHandValue();
        if playerValue > BlackjackValue {
          return Busted;
        }
      } else if action == Stand {
        return Stood;
      }
      assert actions[k..][1..] == actions[k + 1..];
      k := k + 1;
    }
  }

  /** The house loop of playGame: draw from the static deck while below 17. */
  method HouseTurn(houseHand: Hand, deck: Deck) returns (stop: Stop)
    modifies houseHand, deck
    ensures var h := HousePlays(old(houseHand.cards), old(deck.cards));
      stop == h.stop && houseHand.cards == h.hand && deck.cards == h.deck
  {
    ghost var h := HousePlays(houseHand.cards, deck.cards);
    var houseValue := houseHand.GetHandValue();
    while houseValue < HouseStandsAt
      invariant HousePlays(houseHand.cards, deck.cards) == h
      invariant houseValue == HandScore(houseHand.cards)
      decreases |deck.cards|
    {
      ghost var before := deck.cards;
      var card := deck.DrawCard();
      if card.None? {
        return Halted(DeckEmpty);
      }
      assert before[|before| - 1] == card.value && before[..|before| - 1] == deck.cards;
      houseHand.AddCard(card.value);
      houseValue := houseHand.GetHandValue();
    }
    return Stood;
  }

  /** The comparison that ends playGame, and the balance update that goes with it. */
  method SettleBet(player: Player, betAmount: int, playerHand: Hand, houseHand: Hand) returns (outcome: Outcome)
    modifies player
    ensures outcome == Settle(playerHand.cards, houseHand.cards)
    ensures player.balance == old(player.balance) + NetChange(outcome, betAmount)
  {
    var houseValue := houseHand.GetHandValue();
    var playerValue := playerHand.GetHandValue();
    ghost var settled := Settle(playerHand.cards, houseHand.cards);
    if houseValue > BlackjackValue {
      player.SetBalance(player.balance + betAmount);
      outcome := HouseBust;
    } else if playerValue > houseValue {
      player.SetBalance(player.balance + betAmount);
      outcome := PlayerHigher;
    } else if playerValue < houseValue {
      player.SetBalance(player.balance - betAmount);
      outcome := HouseHigher;
    } else {
      outcome := Tie;
    }
    assert outcome == settled;
  }

  /** playGame after the deal: the natural check, the two turns and the settlement. */
  method PlayDealt(player: Player, deck: Deck, playerHand: Hand, houseHand: Hand, betAmount: int, actions: seq<Decision>)
    returns (status: Status)
    requires playerHand != houseHand
    modifies player, deck, playerHand, houseHand
    ensures var r := Play(old(player.balance), betAmount, old(playerHand.cards), old(houseHand.cards), old(deck.cards), actions);
      && status == r.status && player.balance == r.balance && deck.cards == r.deck
      && playerHand.cards == r.player && houseHand.cards == r.house
  {
    var playerValue := playerHand.GetHandValue();
    if playerValue == BlackjackValue {
      player.SetBalance(player.balance + betAmount * 3 / 2);
      return Done(Blackjack);
    }

    var playerStop := PlayerTurn(playerHand, deck, actions);
    if playerStop.Halted? {
      return Failed(playerStop.failure);
    } else if playerStop == Busted {
      return Done(Bust);
    }

    var houseStop := HouseTurn(houseHand, deck);
    if houseStop.Halted? {
      return Failed(houseStop.failure);
    }

    var outcome := SettleBet(player, betAmount, playerHand, houseHand);
    status := Done(outcome);
  }

  /** The deal of playGame: player, house, player, house, each card drawn from the end
      of the static deck into two fresh hands; a draw from an empty deck fails the deal. */
  method DealHands(deck: Deck) returns (dealt: bool, playerHand: Hand, houseHand: Hand)
    modifies deck
    ensures fresh(playerHand) && fresh(houseHand) && playerHand != houseHand
    ensures var d := old(deck.cards); var n := |d|;
      && (dealt <==> n >= 4)
      && (!dealt ==> deck.cards == [])
      && (dealt ==> playerHand.cards == [d[n - 1], d[n - 3]] && houseHand.cards == [d[n - 2], d[n - 4]]
                    && deck.cards == d[..n - 4])
  {
    ghost var d0 := deck.cards;
    playerHand := new Hand();
    houseHand := new Hand();
    dealt := false;
    var c1 := deck.DrawCard();
    if c1.None? {
      return;
    }
    ghost var d1 := deck.cards;
    playerHand.AddCard(c1.value);
    var c2 := deck.DrawCard();
    if c2.None? {
      assert |d0| < 4;
      return;
    }
    ghost var d2 := deck.cards;
    houseHand.AddCard(c2.value);
    var c3 := deck.DrawCard();
    if c3.None? {
      assert |d0| < 4;
      return;
    }
    ghost var d3 := deck.cards;
    playerHand.AddCard(c3.value);
    var c4 := deck.DrawCard();
    if c4.None? {
      assert |d0| < 4;
      return;
    }
    houseHand.AddCard(c4.value);
    dealt := true;
    DrawnFromEnd(d0, d1, d2, d3, deck.cards, c1.value, c2.value, c3.value, c4.value);
  }

  /** playGame, for one round: bet, deal, then play. */
  method PlayGame(player: Player, deck: Deck, bets: seq<int>, actions: seq<Decision>) returns (status: Status)
    modifies player, deck
    ensures var r := Round(old(player.balance), old(deck.cards), bets, actions);
      status == r.status && player.balance == r.balance && deck.cards == r.deck
  {
    var betOption := GetPlayerBet(player.balance, bets);
    if betOption.None? {
      return Failed(InputExhausted);
    }
    var betAmount := betOption.value;
    ghost var d0 := deck.cards;
    var dealt, playerHand, houseHand := DealHands(deck);
    if !dealt {
      return Failed(DeckEmpty);
    }
    RoundIsPlay(player.balance, d0, bets, actions);
    status := PlayDealt(player, deck, playerHand, houseHand, betAmount, actions);
  }

  // ----- Rounds carried over on the static deck -----

  /** One round the user asked for: the bet lines and hit-or-stand answers it reads. */
  datatype RoundInput = RoundInput(bets: seq<int>, actions: seq<Decision>)

  /** How a run of rounds ends: the rounds completed, the balance and the static deck. */
  datatype SessionEnd = SessionEnd(played: nat, balance: int, deck: seq<Card>)

  /** endRound answered "play again" before each of inputs: rounds follow one another on
      the same deck and balance until one fails (the exception ends the program) or the
      inputs end. */
  function Session(balance: int, deck: seq<Card>, inputs: seq<RoundInput>): SessionEnd
    decreases |inputs|
  {
    if inputs == [] then SessionEnd(0, balance, deck)
    else
      var r := Round(balance, deck, inputs[0].bets, inputs[0].actions);
      if r.status.Failed? then SessionEnd(0, r.balance, r.deck)
      else
        var s := Session(r.balance, r.deck, inputs[1..]);
        SessionEnd(s.played + 1, s.balance, s.deck)
  }

  /** The playGame-endRound chain as a loop over the rounds asked for. */
  method PlaySession(player: Player, deck: Deck, inputs: seq<RoundInput>) returns (played: nat)
    modifies player, deck
    ensures var s := Session(old(player.balance), old(deck.cards), inputs);
      played == s.played && player.balance == s.balance && deck.cards == s.deck
  {
    ghost var s := Session(player.balance, deck.cards, inputs);
    played := 0;
    var i := 0;
    while i < |inputs|
      invariant 0 <= i <= |inputs|
      invariant var rest := Session(player.balance, deck.cards, inputs[i..]);
        s == SessionEnd(played + rest.played, rest.balance, rest.deck)
      decreases |inputs| - i
    {
      var status := PlayGame(player, deck, inputs[i].bets, inputs[i].actions);
      if status.Failed? {
        return;
      }
      assert inputs[i..][1..] == inputs[i + 1..];
      played := played + 1;
      i := i + 1;
    }
    assert inputs[i..] == [];
  }
}
