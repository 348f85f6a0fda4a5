/** The variant of src/MainGame.java. One deck is built when the game starts, in
    enum order, and is shuffled only after each round; it is never refilled, and
    cards are dealt from its front. The bet, 10 or more and at most the earnings,
    is taken from the earnings when it is placed; a natural pays 1.5 times the
    bet back, and every other win or tie pays back a fixed 20 or 10. */
module MainGame {
  import opened Common
  import AceRule

  const InitialEarnings := 100
  /** The minimum bet, and the unit every payout after the turns is counted in. */
  const BetAmount := 10
  const BlackjackValue := AceRule.BlackjackValue
  /** The house draws while its score is below this. */
  const DealerMinimum := 17

  datatype Suit = Clubs | Diamonds | Hearts | Spades

  /** The enum Card.Value, in its declaration order. */
  datatype Value = Two | Three | Four | Five | Six | Seven | Eight | Nine | Ten | Jack | Queen | King | Ace

  datatype Card = Card(suit: Suit, value: Value)

  /** getNumericValue: the number each enum constant is declared with. */
  function NumericValue(v: Value): int
  {
    match v
    case Two => 2
    case Three => 3
    case Four => 4
    case Five => 5
    case Six => 6
    case Seven => 7
    case Eight => 8
    case Nine => 9
    case Ten => 10
    case Jack => 10
    case Queen => 10
    case King => 10
    case Ace => 11
  }

  /** Every value counts 2 to 11: the pictures 10, the Ace 11 and nothing else 11. */
  lemma NumericValueRange(v: Value)
    ensures 2 <= NumericValue(v) <= 11
    ensures NumericValue(v) == 11 <==> v == Ace
    ensures v == Jack || v == Queen || v == King ==> NumericValue(v) == 10
  {
  }

  function CardValue(c: Card): int { NumericValue(c.value) }

  function AceFlag(c: Card): int { if c.value == Ace then 1 else 0 }

  function RawTotal(hand: seq<Card>): int { SumOf(hand, CardValue) }

  function AceCount(hand: seq<Card>): nat
  {
    SumOfNonNegative(hand, AceFlag);
    SumOf(hand, AceFlag)
  }

  /** calculateHandValue, for the player and the house alike. */
  function HandScore(hand: seq<Card>): int
  {
    AceRule.Score(RawTotal(hand), AceCount(hand))
  }

  /** One more card adds its numeric value to the raw total and its flag to the Ace count. */
  lemma ScoreOfOneMore(hand: seq<Card>, c: Card)
    ensures RawTotal(hand + [c]) == RawTotal(hand) + CardValue(c)
    ensures AceCount(hand + [c]) == AceCount(hand) + AceFlag(c)
  {
    SumOfSnoc(hand, c, CardValue);
    SumOfSnoc(hand, c, AceFlag);
  }

  /** A two-card hand never busts: two Aces count 12. */
  lemma TwoCardsNeverBust(c0: Card, c1: Card)
    ensures HandScore([c0, c1]) <= BlackjackValue
  {
    ScoreOfOneMore([], c0);
    ScoreOfOneMore([c0], c1);
    NumericValueRange(c0.value);
    NumericValueRange(c1.value);
    assert [] + [c0] == [c0] && [c0] + [c1] == [c0, c1];
    assert RawTotal([]) == 0 && AceCount([]) == 0;
  }

  // ----- The deck's enum order -----

  function SuitAt(i: int): Suit
    requires 0 <= i < 4
  {
    if i == 0 then Clubs else if i == 1 then Diamonds else if i == 2 then Hearts else Spades
  }

  function SuitIndex(s: Suit): (i: int)
    ensures 0 <= i < 4 && SuitAt(i) == s
  {
    match s
    case Clubs => 0
    case Diamonds => 1
    case Hearts => 2
    case Spades => 3
  }

  function ValueAt(j: int): Value
    requires 0 <= j < 13
  {
    match j
    case 0 => Two
    case 1 => Three
    case 2 => Four
    case 3 => Five
    case 4 => Six
    case 5 => Seven
    case 6 => Eight
    case 7 => Nine
    case 8 => Ten
    case 9 => Jack
    case 10 => Queen
    case 11 => King
    case _ => Ace
  }

  function ValueIndex(v: Value): (j: int)
    ensures 0 <= j < 13 && ValueAt(j) == v
  {
    match v
    case Two => 0
    case Three => 1
    case Four => 2
    case Five => 3
    case Six => 4
    case Seven => 5
    case Eight => 6
    case Nine => 7
    case Ten => 8
    case Jack => 9
    case Queen => 10
    case King => 11
    case Ace => 12
  }

  /** The order Deck() adds the cards in: suits in enum order, values in enum order. */
  function NewDeckOrder(): (d: seq<Card>)
    ensures |d| == 52
  {
    seq(52, k requires 0 <= k < 52 => Card(SuitAt(k / 13), ValueAt(k % 13)))
  }

  lemma SuitAtIndex(i: int)
    requires 0 <= i < 4
    ensures SuitIndex(SuitAt(i)) == i
  {
  }

  lemma ValueAtIndex(j: int)
    requires 0 <= j < 13
    ensures ValueIndex(ValueAt(j)) == j
  {
  }

  /** A new deck holds each of the 52 (suit, value) pairs, each exactly once. */
  lemma NewDeckComplete()
    ensures forall c: Card :: c in NewDeckOrder()
    ensures forall i, j :: 0 <= i < j < 52 ==> NewDeckOrder()[i] != NewDeckOrder()[j]
  {
    var d := NewDeckOrder();
    forall c: Card ensures c in d {
      var k := 13 * SuitIndex(c.suit) + ValueIndex(c.value);
      assert k / 13 == SuitIndex(c.suit) && k % 13 == ValueIndex(c.value);
      assert d[k] == c;
    }
    forall i, j | 0 <= i < j < 52 ensures d[i] != d[j] {
      SuitAtIndex(i / 13);
      SuitAtIndex(j / 13);
      ValueAtIndex(i % 13);
      ValueAtIndex(j % 13);
    }
  }

  // ----- The objects -----

  class Player {
    const name: string
    var earnings: int
    var hand: seq<Card>

    /** Player(name): no earnings and an empty hand. */
    constructor (name: string)
      ensures this.name == name && earnings == 0 && hand == []
    {
      this.name := name;
      earnings := 0;
      hand := [];
    }

    method SetEarnings(earnings: int)
      modifies this
      ensures this.earnings == earnings && hand == old(hand)
    {
      this.earnings := earnings;
    }

    method ClearHand()
      modifies this
      ensures hand == [] && earnings == old(earnings)
    {
      hand := [];
    }

    method AddCardToHand(card: Card)
      modifies this
      ensures hand == old(hand) + [card] && earnings == old(earnings)
    {
      hand := hand + [card];
    }

    /** calculateHandValue: every card at its numeric value, then 10 off per Ace
        while above 21. */
    method CalculateHandValue() returns (sum: int)
      ensures sum == HandScore(hand)
    {
      sum := 0;
      var numAces := 0;
      for i := 0 to |hand|
        invariant sum == RawTotal(hand[..i])
        invariant numAces == AceCount(hand[..i])
      {
        ScoreOfOneMore(hand[..i], hand[i]);
        assert hand[..i + 1] == hand[..i] + [hand[i]];
        if hand[i].value == Ace {
          numAces := numAces + 1;
        }
        sum := sum + NumericValue(hand[i].value);
      }
      assert hand[..|hand|] == hand;
      ghost var raw, aces := sum, numAces;
      while sum > BlackjackValue && numAces > 0
        invariant 0 <= numAces <= aces
        invariant sum == raw - 10 * (aces - numAces)
        invariant numAces < aces ==> sum + 10 > BlackjackValue
      {
        sum := sum - 10;
        numAces := numAces - 1;
      }
      AceRule.DowngradesUnique(raw, aces, aces - numAces);
    }
  }

  class House {
    var hand: seq<Card>

    constructor ()
      ensures hand == []
    {
      hand := [];
    }

    method ClearHand()
      modifies this
      ensures hand == []
    {
      hand := [];
    }

    method AddCardToHand(card: Card)
      modifies this
      ensures hand == old(hand) + [card]
    {
      hand := hand + [card];
    }

    /** calculateHandValue: the same loops as the player's. */
    method CalculateHandValue() returns (sum: int)
      ensures sum == HandScore(hand)
    {
      sum := 0;
      var numAces := 0;
      for i := 0 to |hand|
        invariant sum == RawTotal(hand[..i])
        invariant numAces == AceCount(hand[..i])
      {
        ScoreOfOneMore(hand[..i], hand[i]);
        assert hand[..i + 1] == hand[..i] + [hand[i]];
        if hand[i].value == Ace {
          numAces := numAces + 1;
        }
        sum := sum + NumericValue(hand[i].value);
      }
      assert hand[..|hand|] == hand;
      ghost var raw, aces := sum, numAces;
      while sum > BlackjackValue && numAces > 0
        invariant 0 <= numAces <= aces
        invariant sum == raw - 10 * (aces - numAces)
        invariant numAces < aces ==> sum + 10 > BlackjackValue
      {
        sum := sum - 10;
        numAces := numAces - 1;
      }
      AceRule.DowngradesUnique(raw, aces, aces - numAces);
    }
  }

  class Deck {
    var cards: seq<Card>

    /** Deck(): for each suit, for each value, one card. */
    constructor ()
      ensures cards == NewDeckOrder()
    {
      var built: seq<Card> := [];
      var s := 0;
      while s < 4
        invariant 0 <= s <= 4
        invariant built == NewDeckOrder()[..13 * s]
      {
        var v := 0;
        while v < 13
          invariant 0 <= v <= 13
          invariant built == NewDeckOrder()[..13 * s + v]
        {
          assert (13 * s + v) / 13 == s && (13 * s + v) % 13 == v;
          assert NewDeckOrder()[..13 * s + v + 1] == NewDeckOrder()[..13 * s + v] + [Card(SuitAt(s), ValueAt(v))];
          built := built + [Card(SuitAt(s), ValueAt(v))];
          v := v + 1;
        }
        s := s + 1;
      }
      cards := built;
    }

    /** shuffle: the library shuffle, as whatever reordering of the cards it picks. */
    method Shuffle(order: seq<Card>)
      requires multiset(order) == multiset(cards)
      modifies this
      ensures cards == order
    {
      cards := order;
    }

    /** dealCard: fails on an empty deck, otherwise removes and returns the first card. */
    method DealCard() returns (card: Option<Card>)
      modifies this
      ensures card.None? <==> old(cards) == []
      ensures card.None? ==> cards == old(cards)
      ensures card.Some? ==> old(cards) == [card.value] + cards
    {
      if cards == [] {
        return None;
      }
      card := Some(cards[0]);
      cards := cards[1..];
    }
  }

  // ----- One round, as values -----

  /** One line typed at the bet prompt: a number, or text Integer.parseInt rejects. */
  datatype BetLine = Number(n: int) | NotNumber

  /** Index of the first line placeBet accepts, or |bets| if none is. */
  function FirstValidBet(earnings: int, bets: seq<BetLine>): (k: nat)
    ensures k <= |bets|
    ensures k < |bets| ==> bets[k].Number? && BetAmount <= bets[k].n <= earnings
    ensures forall m :: 0 <= m < k ==> !(bets[m].Number? && BetAmount <= bets[m].n <= earnings)
  {
    if bets == [] then 0
    else if bets[0].Number? && BetAmount <= bets[0].n <= earnings then 0
    else 1 + FirstValidBet(earnings, bets[1..])
  }

  /** The cards dealInitialCards hands out, alternately player and house from the
      front, and the deck it leaves; ok is false when the deck ran out on the way. */
  datatype Dealt = Dealt(ok: bool, player: seq<Card>, house: seq<Card>, deck: seq<Card>)

  function Deal(deck: seq<Card>): Dealt
  {
    if |deck| >= 4 then Dealt(true, [deck[0], deck[2]], [deck[1], deck[3]], deck[4..])
    else if |deck| == 3 then Dealt(false, [deck[0], deck[2]], [deck[1]], [])
    else if |deck| == 2 then Dealt(false, [deck[0]], [deck[1]], [])
    else if |deck| == 1 then Dealt(false, [deck[0]], [], [])
    else Dealt(false, [], [], [])
  }

  /** The hit-or-stay loop: Hit draws one card from the front and ends the turn on a
      bust or on exactly 21, Stay ends it, any other answer draws nothing. */
  function PlayerPlays(hand: seq<Card>, deck: seq<Card>, actions: seq<Decision>): Turn<Card>
    decreases |actions|
  {
    if actions == [] then Turn(Halted(InputExhausted), hand, deck)
    else if actions[0] == Hit then
      if deck == [] then Turn(Halted(DeckEmpty), hand, deck)
      else if HandScore(hand + [deck[0]]) > BlackjackValue then Turn(Busted, hand + [deck[0]], deck[1..])
      else if HandScore(hand + [deck[0]]) == BlackjackValue then Turn(Stood, hand + [deck[0]], deck[1..])
      else PlayerPlays(hand + [deck[0]], deck[1..], actions[1..])
    else if actions[0] == Stand then Turn(Stood, hand, deck)
    else PlayerPlays(hand, deck, actions[1..])
  }

  /** The house loop: draw from the front while the score is below 17. */
  function HousePlays(hand: seq<Card>, deck: seq<Card>): Turn<Card>
    decreases |deck|
  {
    if HandScore(hand) >= DealerMinimum then Turn(Stood, hand, deck)
    else if deck == [] then Turn(Halted(DeckEmpty), hand, deck)
    else HousePlays(hand + [deck[0]], deck[1..])
  }

  /** determineWinner's verdict, tested in its order: the player's bust first. */
  datatype Verdict = PlayerBust | HouseBust | PlayerHigher | HouseHigher | Tie

  function Winner(player: seq<Card>, house: seq<Card>): Verdict
  {
    if HandScore(player) > BlackjackValue then PlayerBust
    else if HandScore(house) > BlackjackValue then HouseBust
    else if HandScore(player) > HandScore(house) then PlayerHigher
    else if HandScore(player) < HandScore(house) then HouseHigher
    else Tie
  }

  /** What determineWinner pays back: fixed amounts, whatever the bet was. */
  function Credit(v: Verdict): int
  {
    match v
    case PlayerBust => 0
    case HouseBust => 2 * BetAmount
    case PlayerHigher => 2 * BetAmount
    case HouseHigher => 0
    case Tie => BetAmount
  }

  datatype Outcome = Blackjack | Settled(verdict: Verdict)

  /** NoRound: earnings of 0 or less, so playRound only cleared the hands. */
  datatype Status = NoRound | Done(outcome: Outcome) | Failed(failure: Failure)

  /** What a round leaves behind in the game: status, earnings, both hands, the deck. */
  datatype RoundEnd = RoundEnd(status: Status, earnings: int, player: seq<Card>, house: seq<Card>, deck: seq<Card>)

  /** The round after the deal, the bet already taken from the earnings. */
  function Play(earnings: int, bet: int, player: seq<Card>, house: seq<Card>, deck: seq<Card>, actions: seq<Decision>): RoundEnd
  {
    if HandScore(player) == BlackjackValue then
      RoundEnd(Done(Blackjack), earnings + 3 * bet / 2, player, house, deck)
    else
      var t := PlayerPlays(player, deck, actions);
      if t.stop.Halted? then RoundEnd(Failed(t.stop.failure), earnings, t.hand, house, t.deck)
      else
        var h := HousePlays(house, t.deck);
        if h.stop.Halted? then RoundEnd(Failed(h.stop.failure), earnings, t.hand, h.hand, h.deck)
        else
          var v := Winner(t.hand, h.hand);
          RoundEnd(Done(Settled(v)), earnings + Credit(v), t.hand, h.hand, h.deck)
  }

  /** playRound: clear both hands; stop if there are no earnings; take the bet; deal;
      then play. */
  function Round(earnings: int, deck: seq<Card>, bets: seq<BetLine>, actions: seq<Decision>): RoundEnd
  {
    if earnings <= 0 then RoundEnd(NoRound, earnings, [], [], deck)
    else
      var k := FirstValidBet(earnings, bets);
      if k == |bets| then RoundEnd(Failed(InputExhausted), earnings, [], [], deck)
      else
        var bet := bets[k].n;
        var dealt := Deal(deck);
        if !dealt.ok then RoundEnd(Failed(DeckEmpty), earnings - bet, dealt.player, dealt.house, dealt.deck)
        else Play(earnings - bet, bet, dealt.player, dealt.house, dealt.deck, actions)
  }

  /** A card taken from the front of s[k..] is s[k], and what is left is s[k + 1..]. */
  lemma TakeFront(x: Card, rest: seq<Card>, s: seq<Card>, k: nat)
    requires k < |s| && [x] + rest == s[k..]
    ensures x == s[k] && rest == s[k + 1..]
  {
    assert ([x] + rest)[0] == x;
    assert ([x] + rest)[1..] == rest;
  }

  // ----- The game object -----

  class Game {
    const player: Player
    const house: House
    const deck: Deck

    /** Game() followed by the start of start(): a new deck in enum order, an empty
        house hand, and the named player with the initial earnings. */
    constructor (playerName: string)
      ensures fresh(player) && fresh(house) && fresh(deck)
      ensures player.name == playerName && player.earnings == InitialEarnings && player.hand == []
      ensures house.hand == [] && deck.cards == NewDeckOrder()
    {
      house := new House();
      deck := new Deck();
      var p := new Player(playerName);
      p.SetEarnings(InitialEarnings);
      player := p;
    }

    /** placeBet: read lines until one is a number from 10 to the earnings, then take
        it from the earnings. */
    method PlaceBet(bets: seq<BetLine>) returns (bet: Option<int>)
      modifies player
      ensures var k := FirstValidBet(old(player.earnings), bets);
        && (bet.Some? <==> k < |bets|)
        && (bet.Some? ==> bet.value == bets[k].n && player.earnings == old(player.earnings) - bet.value)
        && (bet.None? ==> player.earnings == old(player.earnings))
      ensures player.hand == old(player.hand)
    {
      var i := 0;
      while true
        invariant 0 <= i <= |bets|
        invariant forall m :: 0 <= m < i ==> !(bets[m].Number? && BetAmount <= bets[m].n <= player.earnings)
        decreases |bets| - i
      {
        if i == |bets| {
          return None;
        }
        var input := bets[i];
        if input.Number? && input.n >= BetAmount && input.n <= player.earnings {
          player.SetEarnings(player.earnings - input.n);
          return Some(input.n);
        }
        i := i + 1;
      }
    }

    /** player.addCardToHand(deck.dealCard()): the front card of the deck moves to the
        player's hand; on an empty deck dealCard throws and nothing moves. */
    method DealToPlayer() returns (ok: bool)
      modifies player, deck
      ensures ok <==> old(deck.cards) != []
      ensures ok ==> player.hand == old(player.hand) + [old(deck.cards)[0]] && deck.cards == old(deck.cards)[1..]
      ensures !ok ==> player.hand == old(player.hand) && deck.cards == old(deck.cards)
      ensures player.earnings == old(player.earnings)
    {
      var c := deck.DealCard();
      if c.None? {
        return false;
      }
      TakeFront(c.value, deck.cards, old(deck.cards), 0);
      player.AddCardToHand(c.value);
      return true;
    }

    /** house.addCardToHand(deck.dealCard()): the same for the house's hand. */
    method DealToHouse() returns (ok: bool)
      modifies house, deck
      ensures ok <==> old(deck.cards) != []
      ensures ok ==> house.hand == old(house.hand) + [old(deck.cards)[0]] && deck.cards == old(deck.cards)[1..]
      ensures !ok ==> house.hand == old(house.hand) && deck.cards == old(deck.cards)
    {
      var c := deck.DealCard();
      if c.None? {
        return false;
      }
      TakeFront(c.value, deck.cards, old(deck.cards), 0);
      house.AddCardToHand(c.value);
      return true;
    }

    /** dealInitialCards: twice, one card to the player, then one to the house. */
    method DealInitialCards() returns (ok: bool)
      modifies player, house, deck
      ensures var dealt := Deal(old(deck.cards));
        && ok == dealt.ok && deck.cards == dealt.deck
        && player.hand == old(player.hand) + dealt.player && house.hand == old(house.hand) + dealt.house
      ensures player.earnings == old(player.earnings)
    {
      ghost var d0, p0, h0 := deck.cards, player.hand, house.hand;
      for i := 0 to 2
        invariant |d0| >= 2 * i && deck.cards == d0[2 * i..]
        invariant player.hand == p0 + (if i == 0 then [] else [d0[0]]) + (if i == 2 then [d0[2]] else [])
        invariant house.hand == h0 + (if i == 0 then [] else [d0[1]]) + (if i == 2 then [d0[3]] else [])
        invariant player.earnings == old(player.earnings)
      {
        ok := DealToPlayer();
        if !ok {
          assert |d0| == 2 * i;
          return;
        }
        ok := DealToHouse();
        if !ok {
          assert |d0| == 2 * i + 1;
          return;
        }
      }
      return true;
    }

    /** playerTurn: the hit-or-stay loop on the player's hand and the deck. */
    method PlayerTurn(actions: seq<Decision>) returns (stop: Stop)
      modifies player, deck
      ensures var t := PlayerPlays(old(player.hand), old(deck.cards), actions);
        stop == t.stop && player.hand == t.hand && deck.cards == t.deck
      ensures player.earnings == old(player.earnings)
    {
      ghost var t := PlayerPlays(player.hand, deck.cards, actions);
      var k := 0;
      while true
        invariant 0 <= k <= |actions|
        invariant PlayerPlays(player.hand, deck.cards, actions[k..]) == t
        invariant player.earnings == old(player.earnings)
        decreases |actions| - k
      {
        if k == |actions| {
          assert actions[k..] == [];
          return Halted(InputExhausted);
        }
        var choice := actions[k];
        if choice == Hit {
          ghost var before := deck.cards;
          var card := deck.DealCard();
          if card.None? {
            return Halted(DeckEmpty);
          }
          assert before[0] == card.value && before[1..] == deck.cards;
          player.AddCardToHand(card.value);
          var handValue := player.CalculateHandValue();
          if handValue > BlackjackValue {
            return Busted;
          } else if handValue == BlackjackValue {
            return Stood;
          }
        } else if choice == Stand {
          return Stood;
        }
        assert actions[k..][1..] == actions[k + 1..];
        k := k + 1;
      }
    }

    /** houseTurn: draw from the front while the house is below 17. */
    method HouseTurn() returns (stop: Stop)
      modifies house, deck
      ensures var h := HousePlays(old(house.hand), old(deck.cards));
        stop == h.stop && house.hand == h.hand && deck.cards == h.deck
    {
      ghost var h := HousePlays(house.hand, deck.cards);
      var value := house.CalculateHandValue();
      while value < DealerMinimum
        invariant HousePlays(house.hand, deck.cards) == h
        invariant value == HandScore(house.hand)
        decreases |deck.cards|
      {
        ghost var before := deck.cards;
        var card := deck.DealCard();
        if card.None? {
          return Halted(DeckEmpty);
        }
        assert before[0] == card.value && before[1..] == deck.cards;
        house.AddCardToHand(card.value);
        value := house.CalculateHandValue();
      }
      return Stood;
    }

    /** determineWinner: compare the hands and pay back the fixed amount. */
    method DetermineWinner() returns (verdict: Verdict)
      modifies player
      ensures verdict == Winner(player.hand, house.hand)
      ensures player.earnings == old(player.earnings) + Credit(verdict) && player.hand == old(player.hand)
    {
      var playerHandValue := player.CalculateHandValue();
      var houseHandValue := house.CalculateHandValue();
      if playerHandValue > BlackjackValue {
        verdict := PlayerBust;
      } else if houseHandValue > BlackjackValue {
        player.SetEarnings(player.earnings + 2 * BetAmount);
        verdict := HouseBust;
      } else if playerHandValue > houseHandValue {
        player.SetEarnings(player.earnings + 2 * BetAmount);
        verdict := PlayerHigher;
      } else if playerHandValue < houseHandValue {
        verdict := HouseHigher;
      } else {
        player.SetEarnings(player.earnings + BetAmount);
        verdict := Tie;
      }
    }

    /** playRound after the deal: the natural check, the two turns and the verdict. */
    method PlayDealt(bet: int, actions: seq<Decision>) returns (status: Status)
      modifies player, house, deck
      ensures var r := Play(old(player.earnings), bet, old(player.hand), old(house.hand), old(deck.cards), actions);
        && status == r.status && player.earnings == r.earnings
        && player.hand == r.player && house.hand == r.house && deck.cards == r.deck
    {
      var value := player.CalculateHandValue();
      if value == BlackjackValue {
        player.SetEarnings(player.earnings + bet * 3 / 2);
        return Done(Blackjack);
      }
      var playerStop := PlayerTurn(actions);
      if playerStop.Halted? {
        return Failed(playerStop.failure);
      }
      var houseStop := HouseTurn();
      if houseStop.Halted? {
        return Failed(houseStop.failure);
      }
      var verdict := DetermineWinner();
      status := Done(Settled(verdict));
    }

    /** playRound. */
    method PlayRound(bets: seq<BetLine>, actions: seq<Decision>) returns (status: Status)
      modifies player, house, deck
      ensures var r := Round(old(player.earnings), old(deck.cards), bets, actions);
        && status == r.status && player.earnings == r.earnings
        && player.hand == r.player && house.hand == r.house && deck.cards == r.deck
    {
      player.ClearHand();
      house.ClearHand();
      if player.earnings <= 0 {
        return NoRound;
      }
      ghost var e0, d0 := player.earnings, deck.cards;
      var bet := PlaceBet(bets);
      if bet.None? {
        return Failed(InputExhausted);
      }
      ghost var dealt := Deal(d0);
      var ok := DealInitialCards();
      assert player.hand == dealt.player && house.hand == dealt.house && deck.cards == dealt.deck;
      if !ok {
        return Failed(DeckEmpty);
      }
      assert Round(e0, d0, bets, actions) == Play(e0 - bet.value, bet.value, dealt.player, dealt.house, dealt.deck, actions);
      status := PlayDealt(bet.value, actions);
    }
  }
}
