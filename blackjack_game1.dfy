/** The variant of src/test/BlackjackGame1.java. Every round builds a fresh deck,
    shuffles it and draws from its front. The bet is not checked at all; it is
    settled as a net change of the balance, a natural paying even money, a double
    natural and a bust being settled before any other card is drawn. */
module BlackjackGame1 {
  import opened Common
  import opened StringCards
  import FisherYates
  import AceRule

  const BlackjackValue := AceRule.BlackjackValue
  /** The dealer draws while its score is below this. */
  const DealerStandsAt := 17

  class Deck {
    var cards: seq<Card>

    /** Deck(): for each suit, for each rank, one card. */
    constructor ()
      ensures cards == NewDeckOrder()
    {
      var built: seq<Card> := [];
      var s := 0;
      while s < 4
        invariant 0 <= s <= 4
        invariant built == NewDeckOrder()[..13 * s]
      {
        var r := 0;
        while r < 13
          invariant 0 <= r <= 13
          invariant built == NewDeckOrder()[..13 * s + r]
        {
          assert (13 * s + r) / 13 == s && (13 * s + r) % 13 == r;
          assert NewDeckOrder()[..13 * s + r + 1] == NewDeckOrder()[..13 * s + r] + [Card(SuitAt(s), RankAt(r))];
          built := built + [Card(SuitAt(s), RankAt(r))];
          r := r + 1;
        }
        s := s + 1;
      }
      cards := built;
    }

    /** shuffle: for i from the last index down to 1, swap i with the drawn j in 0..i. */
    method Shuffle(js: seq<int>)
      requires FisherYates.ValidDraws(|cards|, js)
      modifies this
      ensures cards == FisherYates.Shuffled(old(cards), js)
      ensures multiset(cards) == multiset(old(cards))
    {
      ghost var s0 := cards;
      var i := |cards| - 1;
      ghost var k := 0;
      while i > 0
        invariant FisherYates.ValidDraws(|s0|, js)
        invariant |cards| == |s0| && i + k == |s0| - 1 && (i >= 0 || |s0| == 0)
        invariant k <= |js|
        invariant cards == FisherYates.SwapsUpTo(s0, js, k)
      {
        var j := js[|cards| - 1 - i];
        ghost var pre := cards;
        var temp := cards[i];
        cards := cards[i := cards[j]];
        cards := cards[j := temp];
        FisherYates.NextPass(s0, js, k, pre, cards);
        i := i - 1;
        k := k + 1;
      }
      assert k == |js|;
    }

    /** drawCard: fails on an empty deck, otherwise removes and returns the first card. */
    method DrawCard() returns (card: Option<Card>)
      modifies this
      ensures card.None? <==> old(cards) == []
      ensures card.None? ==> cards == old(cards)
      ensures card.Some? ==> old(cards) == [card.value] + cards
    {
      if cards == [] {
        return None;
      }
      card := Some(cards[0]);
      cards := cards[1..];
    }
  }

  class Hand {
    var cards: seq<Card>

    constructor ()
      ensures cards == []
    {
      cards := [];
    }

    method AddCard(card: Card)
      modifies this
      ensures cards == old(cards) + [card]
    {
      cards := cards + [card];
    }

    /** getHandValue: every Ace at 11, then 10 off per Ace while above 21. */
    method GetHandValue() returns (value: int)
      ensures value == HandScore(cards)
    {
      value := 0;
      var aceCount := 0;
      for i := 0 to |cards|
        invariant value == RawTotal(cards[..i])
        invariant aceCount == AceCount(cards[..i])
      {
        AddOne(cards[..i], cards[i]);
        assert cards[..i + 1] == cards[..i] + [cards[i]];
        var rank := cards[i].rank;
        if rank == Ace {
          value := value + 11;
          aceCount := aceCount + 1;
        } else if rank == King || rank == Queen || rank == Jack {
          value := value + 10;
        } else {
          value := value + FaceValue(rank);
        }
      }
      assert cards[..|cards|] == cards;
      ghost var raw, aces := value, aceCount;
      while value > BlackjackValue && aceCount > 0
        invariant 0 <= aceCount <= aces
        invariant value == raw - 10 * (aces - aceCount)
        invariant aceCount < aces ==> value + 10 > BlackjackValue
      {
        value := value - 10;
        aceCount := aceCount - 1;
      }
      AceRule.DowngradesUnique(raw, aces, aces - aceCount);
    }
  }

  class Player {
    const name: string
    var balance: int

    constructor (name: string, balance: int)
      ensures this.name == name && this.balance == balance
    {
      this.name := name;
      this.balance := balance;
    }

    /** updateBalance: adds amount, of either sign, to the balance. */
    method UpdateBalance(amount: int)
      modifies this
      ensures balance == old(balance) + amount
    {
      balance := balance + amount;
    }
  }

  // ----- One round, as values -----

  /** The hit-or-stand loop, drawing from the front: Hit draws one card and ends
      the turn on a bust, Stand ends it, any other answer draws nothing. */
  function PlayerPlays(hand: seq<Card>, deck: seq<Card>, actions: seq<Decision>): Turn<Card>
    decreases |actions|
  {
    if actions == [] then Turn(Halted(InputExhausted), hand, deck)
    else if actions[0] == Hit then
      if deck == [] then Turn(Halted(DeckEmpty), hand, deck)
      else if HandScore(hand + [deck[0]]) > BlackjackValue then Turn(Busted, hand + [deck[0]], deck[1..])
      else PlayerPlays(hand + [deck[0]], deck[1..], actions[1..])
    else if actions[0] == Stand then Turn(Stood, hand, deck)
    else PlayerPlays(hand, deck, actions[1..])
  }

  /** The dealer loop: draw from the front while the score is below 17. */
  function DealerPlays(hand: seq<Card>, deck: seq<Card>): Turn<Card>
    decreases |deck|
  {
    if HandScore(hand) >= DealerStandsAt then Turn(Stood, hand, deck)
    else if deck == [] then Turn(Halted(DeckEmpty), hand, deck)
    else DealerPlays(hand + [deck[0]], deck[1..])
  }

  /** The player's turn only adds cards to the hand, taken from the front of the
      deck, and loses none; it busts exactly on its last card. */
  lemma {:induction false} PlayerPlaysShape(hand: seq<Card>, deck: seq<Card>, actions: seq<Decision>)
    ensures var t := PlayerPlays(hand, deck, actions);
      && |hand| <= |t.hand| && t.hand[..|hand|] == hand
      && t.hand + t.deck == hand + deck
      && (t.stop == Busted ==> |hand| < |t.hand| && HandScore(t.hand) > BlackjackValue)
      && (t.stop != Busted && |hand| < |t.hand| ==> HandScore(t.hand) <= BlackjackValue)
    decreases |actions|
  {
    if actions != [] {
      if actions[0] == Hit && deck != [] {
        var c := deck[0];
        assert (hand + [c]) + deck[1..] == hand + deck;
        if HandScore(hand + [c]) <= BlackjackValue {
          PlayerPlaysShape(hand + [c], deck[1..], actions[1..]);
          var t := PlayerPlays(hand + [c], deck[1..], actions[1..]);
          assert t.hand[..|hand|] == (t.hand[..|hand| + 1])[..|hand|];
        }
      } else if actions[0] != Stand && actions[0] != Hit {
        PlayerPlaysShape(hand, deck, actions[1..]);
      }
    }
  }

  /** The dealer's turn only adds cards, taken from the front of the deck; it stops
      at 17 or more, or with an empty deck, and it drew on hands below 17 only. */
  lemma {:induction false} DealerPlaysShape(hand: seq<Card>, deck: seq<Card>)
    ensures var t := DealerPlays(hand, deck);
      && |hand| <= |t.hand| && t.hand[..|hand|] == hand
      && t.hand + t.deck == hand + deck
      && (t.stop == Stood || t.stop == Halted(DeckEmpty))
      && (t.stop == Stood ==> HandScore(t.hand) >= DealerStandsAt)
      && (forall m :: |hand| <= m < |t.hand| ==> HandScore(t.hand[..m]) < DealerStandsAt)
    decreases |deck|
  {
    if HandScore(hand) < DealerStandsAt && deck != [] {
      var c := deck[0];
      assert (hand + [c]) + deck[1..] == hand + deck;
      DealerPlaysShape(hand + [c], deck[1..]);
      var t := DealerPlays(hand + [c], deck[1..]);
      assert t.hand[..|hand|] == (t.hand[..|hand| + 1])[..|hand|];
      forall m | |hand| <= m < |t.hand|
        ensures HandScore(t.hand[..m]) < DealerStandsAt
      {
        if m == |hand| {
          assert t.hand[..m] == hand;
        }
      }
    }
  }

  /** How a round of this variant can end. */
  datatype Outcome =
    | DoubleNatural   // both start with 21: a tie
    | Natural         // only the player starts with 21
    | Bust            // a hit took the player over 21
    | DealerBust
    | Push            // equal scores
    | DealerHigher
    | PlayerHigher

  datatype Status = Done(outcome: Outcome) | Failed(failure: Failure)

  /** What a round leaves behind: its status, the balance, the two hands and the deck. */
  datatype RoundEnd = RoundEnd(status: Status, balance: int, player: seq<Card>, dealer: seq<Card>, deck: seq<Card>)

  /** The comparison after the dealer's turn, in the order the source tests it. */
  function Settle(player: seq<Card>, dealer: seq<Card>): Outcome
  {
    if HandScore(dealer) > BlackjackValue then DealerBust
    else if HandScore(dealer) == HandScore(player) then Push
    else if HandScore(dealer) > HandScore(player) then DealerHigher
    else PlayerHigher
  }

  /** The updateBalance amount for each outcome; a tie calls nothing. */
  function NetChange(o: Outcome, bet: int): int
  {
    match o
    case DoubleNatural => 0
    case Natural => bet
    case Bust => -bet
    case DealerBust => bet
    case Push => 0
    case DealerHigher => -bet
    case PlayerHigher => bet
  }

  /** The round after the deal. */
  function Play(balance: int, bet: int, player: seq<Card>, dealer: seq<Card>, deck: seq<Card>, actions: seq<Decision>): RoundEnd
  {
    if HandScore(player) == BlackjackValue && HandScore(dealer) == BlackjackValue then
      RoundEnd(Done(DoubleNatural), balance + NetChange(DoubleNatural, bet), player, dealer, deck)
    else if HandScore(player) == BlackjackValue then
      RoundEnd(Done(Natural), balance + NetChange(Natural, bet), player, dealer, deck)
    else
      var t := PlayerPlays(player, deck, actions);
      if t.stop.Halted? then RoundEnd(Failed(t.stop.failure), balance, t.hand, dealer, t.deck)
      else if t.stop == Busted then RoundEnd(Done(Bust), balance + NetChange(Bust, bet), t.hand, dealer, t.deck)
      else
        var h := DealerPlays(dealer, t.deck);
        if h.stop.Halted? then RoundEnd(Failed(h.stop.failure), balance, t.hand, h.hand, h.deck)
        else
          var o := Settle(t.hand, h.hand);
          RoundEnd(Done(o), balance + NetChange(o, bet), t.hand, h.hand, h.deck)
  }

  /** playGame on the deck as shuffled: deal two cards to the player, then two to the
      dealer, from the front, then play. A deck too short to deal fails. */
  function Round(balance: int, deck: seq<Card>, bet: int, actions: seq<Decision>): RoundEnd
  {
    if |deck| < 4 then RoundEnd(Failed(DeckEmpty), balance, [], [], [])
    else Play(balance, bet, deck[..2], deck[2..4], deck[4..], actions)
  }

  // ----- One round, on the objects -----

  /** The hit-or-stand loop of playGame on the player's hand and the round's deck. */
  method PlayerTurn(playerHand: Hand, deck: Deck, actions: seq<Decision>) returns (stop: Stop)
    modifies playerHand, deck
    ensures var t := PlayerPlays(old(playerHand.cards), old(deck.cards), actions);
      stop == t.stop && playerHand.cards == t.hand && deck.cards == t.deck
  {
    ghost var t := PlayerPlays(playerHand.cards, deck.cards, actions);
    var k := 0;
    while true
      invariant 0 <= k <= |actions|
      invariant PlayerPlays(playerHand.cards, deck.cards, actions[k..]) == t
      decreases |actions| - k
    {
      if k == |actions| {
        assert actions[k..] == [];
        return Halted(InputExhausted);
      }
      var choice := actions[k];
      if choice == Hit {
        ghost var before := deck.cards;
        var card := deck.DrawCard();
        if card.None? {
          return Halted(DeckEmpty);
        }
        assert before[0] == card.value && before[1..] == deck.cards;
        playerHand.AddCard(card.value);
        var value := playerHand.GetHandValue();
        if value > BlackjackValue {
          return Busted;
        }
      } else if choice == Stand {
        return Stood;
      }
      assert actions[k..][1..] == actions[k + 1..];
      k := k + 1;
    }
  }

  /** The dealer loop of playGame: draw from the front while below 17. */
  method DealerTurn(dealerHand: Hand, deck: Deck) returns (stop: Stop)
    modifies dealerHand, deck
    ensures var h := DealerPlays(old(dealerHand.cards), old(deck.cards));
      stop == h.stop && dealerHand.cards == h.hand && deck.cards == h.deck
  {
    ghost var h := DealerPlays(dealerHand.cards, deck.cards);
    var value := dealerHand.GetHandValue();
    while value < DealerStandsAt
      invariant DealerPlays(dealerHand.cards, deck.cards) == h
      invariant value == HandScore(dealerHand.cards)
      decreases |deck.cards|
    {
      ghost var before := deck.cards;
      var card := deck.DrawCard();
      if card.None? {
        return Halted(DeckEmpty);
      }
      assert before[0] == card.value && before[1..] == deck.cards;
      dealerHand.AddCard(card.value);
      value := dealerHand.GetHandValue();
    }
    return Stood;
  }

  /** The comparison that ends playGame, and the balance update that goes with it. */
  method SettleBet(player: Player, bet: int, playerHand: Hand, dealerHand: Hand) returns (outcome: Outcome)
    modifies player
    ensures outcome == Settle(playerHand.cards, dealerHand.cards)
    ensures player.balance == old(player.balance) + NetChange(outcome, bet)
  {
    var dealerValue := dealerHand.GetHandValue();
    var playerValue := playerHand.GetHandValue();
    if dealerValue > BlackjackValue {
      player.UpdateBalance(bet);
      outcome := DealerBust;
    } else if dealerValue == playerValue {
      outcome := Push;
    } else if dealerValue > playerValue {
      player.UpdateBalance(-bet);
      outcome := DealerHigher;
    } else {
      player.UpdateBalance(bet);
      outcome := PlayerHigher;
    }
  }

  /** playGame after the deal: the natural checks, the two turns and the settlement. */
  method PlayDealt(player: Player, deck: Deck, playerHand: Hand, dealerHand: Hand, bet: int, actions: seq<Decision>)
    returns (status: Status)
    requires playerHand != dealerHand
    modifies player, deck, playerHand, dealerHand
    ensures var r := Play(old(player.balance), bet, old(playerHand.cards), old(dealerHand.cards), old(deck.cards), actions);
      status == r.status && player.balance == r.balance
      && playerHand.cards == r.player && dealerHand.cards == r.dealer && deck.cards == r.deck
  {
    var playerValue := playerHand.GetHandValue();
    var dealerValue := dealerHand.GetHandValue();
    if playerValue == BlackjackValue && dealerValue == BlackjackValue {
      return Done(DoubleNatural);
    }
    if playerValue == BlackjackValue {
      player.UpdateBalance(bet);
      return Done(Natural);
    }

    var playerStop := PlayerTurn(playerHand, deck, actions);
    if playerStop.Halted? {
      return Failed(playerStop.failure);
    } else if playerStop == Busted {
      player.UpdateBalance(-bet);
      return Done(Bust);
    }

    var dealerStop := DealerTurn(dealerHand, deck);
    if dealerStop.Halted? {
      return Failed(dealerStop.failure);
    }

    var outcome := SettleBet(player, bet, playerHand, dealerHand);
    status := Done(outcome);
  }

  /** playGame from the shuffled deck on: two fresh hands, the deal player, player,
      dealer, dealer from the front, then play. */
  method DealAndPlay(player: Player, deck: Deck, bet: int, actions: seq<Decision>) returns (status: Status)
    modifies player, deck
    ensures var r := Round(old(player.balance), old(deck.cards), bet, actions);
      status == r.status && player.balance == r.balance && deck.cards == r.deck
  {
    ghost var d0 := deck.cards;
    var playerHand := new Hand();
    var dealerHand := new Hand();
    var c1 := deck.DrawCard();
    if c1.None? {
      return Failed(DeckEmpty);
    }
    assert d0 == [c1.value] + deck.cards;
    playerHand.AddCard(c1.value);
    var c2 := deck.DrawCard();
    if c2.None? {
      return Failed(DeckEmpty);
    }
    assert d0 == [c1.value, c2.value] + deck.cards;
    playerHand.AddCard(c2.value);
    var c3 := deck.DrawCard();
    if c3.None? {
      return Failed(DeckEmpty);
    }
    assert d0 == [c1.value, c2.value, c3.value] + deck.cards;
    dealerHand.AddCard(c3.value);
    var c4 := deck.DrawCard();
    if c4.None? {
      return Failed(DeckEmpty);
    }
    assert d0 == [c1.value, c2.value, c3.value, c4.value] + deck.cards;
    dealerHand.AddCard(c4.value);

    assert playerHand.cards == d0[..2] && dealerHand.cards == d0[2..4] && deck.cards == d0[4..];
    status := PlayDealt(player, deck, playerHand, dealerHand, bet, actions);
  }

  /** playGame: a fresh deck, shuffled by the draws js, and the round on it. */
  method PlayGame(player: Player, js: seq<int>, bet: int, actions: seq<Decision>) returns (status: Status)
    requires FisherYates.ValidDraws(52, js)
    modifies player
    ensures var r := Round(old(player.balance), FisherYates.Shuffled(NewDeckOrder(), js), bet, actions);
      status == r.status && player.balance == r.balance
  {
    var deck := new Deck();
    deck.Shuffle(js);
    status := DealAndPlay(player, deck, bet, actions);
  }
}
