# Blackjack, three variants, in Dafny

The repository holds three independent console Blackjack programs. Each has its own
cards, deck, hands, player and round controller:

- `src/Main.java`: one static deck serves every round and is never shuffled or refilled.
  Cards are drawn from the end of the deck. A bet lies in 1..balance and is settled
  as a net change of the balance. A player bust changes nothing.
- `src/test/BlackjackGame1.java`: every round builds a fresh deck and shuffles it with
  an in-place Fisher–Yates loop. Cards are drawn from the front. Both naturals make a
  tie, and a natural alone pays the bet once. A bust loses the bet, and after the
  dealer's turn the comparison runs dealer bust, equal, dealer higher, player wins.
  The bet is read as any int and is not validated.
- `src/MainGame.java`: one deck is built in enum order when the game starts, and the
  library shuffle runs only after each round. Cards are dealt from the front. The bet
  (10..earnings) is taken from the earnings when placed. A natural pays 1.5 times the
  bet, but determineWinner pays fixed amounts whatever the bet was: 20 for a win, 10
  for a tie. The house plays even after the player busts.

Each variant is one module (`MainBlackjack`, `BlackjackGame1`, `MainGame`) with a
companion module of round-level lemmas (`...Rules`). Shared pieces live in separate
modules:

- `Common`: Option, the parsed hit/stand answer, failures, turn results, and a
  generic sum with its permutation lemma.
- `AceRule`: the Ace rule in closed form. Every Ace starts at 11, and the loop takes
  10 off per Ace while the total is above 21. The score is raw − 10·k, where k is the
  least count that brings the total to 21 or below, or every Ace if none does.
- `FisherYates`: the swap loop driven by an oracle of drawn indices.
- `StringCards`: the string-ranked card that `Main.java` and `BlackjackGame1.java`
  define identically.

The objects the source mutates are classes over `seq` fields whose methods carry
`modifies` clauses:

- hands;
- decks (build, shuffle, draw with an empty check);
- players (balance or earnings);
- MainGame's `Game`.

Each loop method (hand value, bet input, hit-or-stand, house draw) is proved against
a specification function. Each round method on the objects is proved equal, field by
field, to a function `Round` of the inputs: status, balance and deck for Main's
`PlayGame` and BlackjackGame1's `DealAndPlay`, status and balance for
BlackjackGame1's `PlayGame`, and status, earnings, both hands and deck for MainGame's
`PlayRound`. The `PlayDealt` methods, which play a round after the deal, agree with
`Play` on every field. The input a round reads is a scripted sequence of
bets and answers: Hit, Stand or anything else. A draw from an empty deck (the
source throws) and input that runs out (the Scanner throws) end a round as `Failed`,
with the state reached at that point. The rules modules prove what each round does
to the money, the hands and the cards.

## Model

| member | source | states |
|---|---|---|
| AceRule.Downgrades | src/Main.java:54-57 | the number of Aces the loop downgrades is the least count that brings the total to 21 or below, or every Ace if none does |
| AceRule.Score | src/Main.java:54-59 | the score lies between raw − 10·aces and raw, busts exactly when even every Ace at 1 busts, and is 21 or below unless all Aces were downgraded |
| AceRule.DowngradesUnique | src/Main.java:54-57 | any count at which the downgrade loop can stop is the one Downgrades names |
| StringCards.CardPointsRange | src/Main.java:42-52 | a card adds 2 to 11 to the raw total, and 11 exactly when it is an Ace |
| StringCards.FaceValue | src/Main.java:50 | a numeral rank counts its own number |
| StringCards.CardPoints | src/Main.java:43-51 | an Ace adds 11 to the raw total, any other card its face value |
| StringCards.HandScore | src/Main.java:38-60 | the hand's score is the Ace rule applied to the raw total and the number of Aces |
| StringCards.NoAcesScoreIsSum | src/Main.java:38-52 | without Aces the score is the plain sum of the card values |
| StringCards.HandScoreOrderFree | src/Main.java:42-57 | the score depends only on which cards are in the hand, not their order |
| StringCards.AddOne | src/Main.java:42-52 | one more card adds its value to the raw total and its flag to the Ace count |
| StringCards.TwoCardsNeverBust | src/Main.java:38-60 | a two-card hand scores 21 or below |
| StringCards.ScoreNotMonotone | src/Main.java:38-60 | adding a card can lower the score: Ace-5 scores 16 and Ace-5-9 scores 15 |
| StringCards.AceExamples | src/Main.java:38-60 | Ace-9 scores 20 and Ace-Ace-9 scores 21 |
| StringCards.SuitIndex | src/Main.java:72 | every suit sits at one index of the suits array |
| StringCards.RankIndex | src/Main.java:73 | every rank sits at one index of the ranks array |
| StringCards.NewDeckOrder | src/Main.java:75-79 | the nested loops add 52 cards |
| StringCards.NewDeckComplete | src/Main.java:70-80 | a fresh deck holds every (suit, rank) pair, and no two positions hold the same card |
| StringCards.PermutedDeckDistinct | src/test/BlackjackGame1.java:29-49 | any reordering of the fresh deck has 52 cards, all different, every card among them |
| FisherYates.Swap | src/Main.java:85-87 | the swap exchanges positions i and j, keeps every other position and the multiset |
| FisherYates.SwapsUpTo | src/test/BlackjackGame1.java:43-48 | the first k passes of the swap loop, from the last index down, keep the length and the multiset |
| FisherYates.NextPass | src/Main.java:82-89 | one more pass of the loop body, swapping position i with the drawn j, is the next step of the shuffle |
| FisherYates.Shuffled | src/Main.java:82-89 | whatever indices are drawn in 0..i, the full shuffle is a permutation of the deck |
| MainBlackjack.Hand.constructor | src/Main.java:30-32 | a new hand is empty |
| MainBlackjack.Hand.AddCard | src/Main.java:34-36 | the card is appended |
| MainBlackjack.Hand.GetHandValue | src/Main.java:38-60 | the accumulator loop and the downgrade loop return the Ace-rule score of the hand |
| MainBlackjack.Deck.constructor | src/Main.java:70-80 | the new deck is the 52 cards in suits-then-ranks order |
| MainBlackjack.Deck.Shuffle | src/Main.java:82-89 | the deck becomes the oracle's shuffle of itself, a permutation of the old deck |
| MainBlackjack.Deck.DrawCard | src/Main.java:91-96 | fails exactly on an empty deck, leaving it; otherwise returns the last card and leaves the prefix |
| MainBlackjack.Player.constructor | src/Main.java:104-108 | name, pin code and balance are those given |
| MainBlackjack.Player.SetBalance | src/Main.java:122-124 | the balance becomes the value given |
| MainBlackjack.FirstValidBet | src/Main.java:306-316 | the first bet read that lies in 1..balance, every earlier one rejected |
| MainBlackjack.GetPlayerBet | src/Main.java:306-316 | returns a bet exactly when one in the input lies in 1..balance, and then it is the first such bet |
| MainBlackjack.DrawLast | src/Main.java:91-96 | moving the last card of the deck into a hand loses no card |
| MainBlackjack.PlayerPlays | src/Main.java:244-260 | the hit-or-stand loop: a hit draws the last card and ends the turn on a bust, a stand ends it, any other answer is asked again, an empty deck or input fails |
| MainBlackjack.HousePlays | src/Main.java:262-265 | the house draws the last card while its score is below 17, and fails on an empty deck |
| MainBlackjack.Settle | src/Main.java:269-280 | house bust first, then player higher, house higher, else a tie |
| MainBlackjack.NetChange | src/Main.java:237-280 | the balance change per outcome: natural +⌊1.5·bet⌋, player bust 0, house bust or player higher +bet, house higher −bet, tie 0 |
| MainBlackjack.Play | src/Main.java:237-280 | after the deal: the natural fast path, else the player's turn, and only after a stand the house's turn and the settlement |
| MainBlackjack.Round | src/Main.java:221-283 | a round: the first valid bet, the four-card deal from the end, then the play |
| MainBlackjack.Session | src/Main.java:285-304 | rounds follow one another on the same deck and balance, one per round asked for, until a round fails or none is left |
| MainBlackjack.PlayerPlaysKeepsCards | src/Main.java:244-260 | the hand and the deck after the hit loop hold the cards they held before |
| MainBlackjack.HousePlaysKeepsCards | src/Main.java:262-265 | the hand and the deck after the house loop hold the cards they held before |
| MainBlackjack.RoundIsPlay | src/Main.java:225-233 | after a valid bet and a full deal, the round is the play on the dealt hands, whose player hand is not bust |
| MainBlackjack.DrawnFromEnd | src/Main.java:230-233 | four draws from the end of the deck take its last four cards, last first, and leave the rest |
| MainBlackjack.PlayerPlaysShape | src/Main.java:244-260 | the hit loop only appends cards taken from the end of the deck, loses none, and busts exactly on its last card |
| MainBlackjack.PlayerPlaysSafeHits | src/Main.java:244-260 | every hand the hit loop went on from after a hit is 21 or below; only the last card drawn can bust |
| MainBlackjack.HousePlaysShape | src/Main.java:262-265 | the house loop only appends cards from the end of the deck, stops on 17 or more or an empty deck, and drew only below 17 |
| MainBlackjack.PlayerTurn | src/Main.java:244-260 | the hit-or-stand loop on the objects ends as the player-turn function does, with its hand and deck |
| MainBlackjack.HouseTurn | src/Main.java:262-265 | the house loop on the objects ends as the house-turn function does |
| MainBlackjack.SettleBet | src/Main.java:269-280 | the outcome is the comparison in source order, and the balance moves by that outcome's net change |
| MainBlackjack.PlayDealt | src/Main.java:237-280 | after the deal, status, balance, both hands and deck are those of the round function after the deal |
| MainBlackjack.DealHands | src/Main.java:227-233 | the deal succeeds exactly when the deck holds four cards; then the player gets the last and third-last, the house the second- and fourth-last, and the rest stays; otherwise the deck ends empty |
| MainBlackjack.PlayGame | src/Main.java:221-283 | one round on the objects yields the status, balance and deck of Round |
| MainBlackjack.PlaySession | src/Main.java:285-304 | rounds asked for one after another on the same deck and balance yield the count played, balance and deck of Session |
| MainBlackjackRules.PlayMovesCards | src/Main.java:244-265 | after the deal, hands only grow and the deck only loses cards from its end |
| MainBlackjackRules.PlayConservesCards | src/Main.java:244-265 | after the deal, hands and deck hold the same cards as before |
| MainBlackjackRules.SettleMeaning | src/Main.java:269-280 | for a player at 21 or below, each outcome of the comparison matches the scores: house bust exactly above 21, higher, lower or equal |
| MainBlackjackRules.PlaySettles | src/Main.java:237-280 | after the deal, the balance change per outcome, and the scores each outcome was decided on |
| MainBlackjackRules.PlayHouseRule | src/Main.java:262-265 | the house draws only after a stand, only below 17, and stands on 17 or more |
| MainBlackjackRules.DealSplit | src/Main.java:230-233 | the four dealt cards and the deck left are the deck before |
| MainBlackjackRules.DealOrder | src/Main.java:230-233 | the last four cards go player, house, player, house |
| MainBlackjackRules.NaturalFastPath | src/Main.java:237-242 | the round is a Blackjack exactly when the first two cards score 21, and then the balance rises by ⌊1.5·bet⌋ with no card drawn |
| MainBlackjackRules.Settlement | src/Main.java:237-280 | balance per outcome: natural +⌊1.5·bet⌋, bust 0, house bust or higher +bet, lower −bet, tie 0, failure 0 |
| MainBlackjackRules.BalanceStaysNonNegative | src/Main.java:306-316 | since the bet is at most the balance, a non-negative balance stays non-negative |
| MainBlackjackRules.BrokePlayerCannotBet | src/Main.java:306-316 | with a balance of 0 or less no bet is accepted and nothing changes |
| MainBlackjackRules.HouseStandsOnSeventeen | src/Main.java:262-265 | after a natural or a bust the house keeps its two cards; otherwise it ends on 17 or more and drew only below 17 |
| MainBlackjackRules.DealtRoundKeepsCards | src/Main.java:221-265 | after a full deal, the hands and the deck left hold the cards of the deck before |
| MainBlackjackRules.DealtRoundLeavesPrefix | src/Main.java:221-265 | after a full deal, the deck left is a prefix of the deck without its last four cards |
| MainBlackjackRules.CardsConserved | src/Main.java:221-283 | the deck left is a prefix of the deck, no card is lost, a short deck fails the deal, and a finished round uses at least four cards |
| MainBlackjackRules.SessionBounded | src/Main.java:285-304 | over rounds played in a row, each completed round uses four cards or more, and the balance stays non-negative |
| MainBlackjackRules.FreshDeckLastsThirteenRounds | src/Main.java:129 | the static deck, never refilled, lasts at most 13 completed rounds |
| BlackjackGame1.Deck.constructor | src/test/BlackjackGame1.java:29-39 | the new deck is the 52 cards in suits-then-ranks order |
| BlackjackGame1.Deck.Shuffle | src/test/BlackjackGame1.java:41-49 | the deck becomes the oracle's shuffle of itself, a permutation of the old deck |
| BlackjackGame1.Deck.DrawCard | src/test/BlackjackGame1.java:51-56 | fails exactly on an empty deck; otherwise returns the first card and leaves the rest |
| BlackjackGame1.Hand.constructor | src/test/BlackjackGame1.java:62-64 | a new hand is empty |
| BlackjackGame1.Hand.AddCard | src/test/BlackjackGame1.java:66-68 | the card is appended |
| BlackjackGame1.Hand.GetHandValue | src/test/BlackjackGame1.java:74-95 | the loops return the Ace-rule score of the hand |
| BlackjackGame1.Player.constructor | src/test/BlackjackGame1.java:110-113 | name and balance are those given |
| BlackjackGame1.Player.UpdateBalance | src/test/BlackjackGame1.java:123-125 | the balance grows by exactly the amount, of either sign |
| BlackjackGame1.PlayerPlays | src/test/BlackjackGame1.java:253-274 | the hit-or-stand loop: a hit draws the front card and ends the turn on a bust, a stand ends it, any other answer is asked again, an empty deck or input fails |
| BlackjackGame1.DealerPlays | src/test/BlackjackGame1.java:276-278 | the dealer draws the front card while its score is below 17, and fails on an empty deck |
| BlackjackGame1.Settle | src/test/BlackjackGame1.java:284-302 | dealer bust first, then equal scores, then dealer higher, else the player wins |
| BlackjackGame1.NetChange | src/test/BlackjackGame1.java:239-302 | the balance change per outcome: both naturals 0, natural +bet, bust −bet, dealer bust +bet, tie 0, dealer higher −bet, player higher +bet |
| BlackjackGame1.Play | src/test/BlackjackGame1.java:239-302 | after the deal: the two natural checks, else the player's turn, and only after a stand the dealer's turn and the settlement |
| BlackjackGame1.Round | src/test/BlackjackGame1.java:218-302 | a round on a given deck: the four-card deal from the front, then the play |
| BlackjackGame1.PlayerPlaysShape | src/test/BlackjackGame1.java:253-274 | the hit loop only moves cards from the front of the deck to the hand, and busts exactly on its last card |
| BlackjackGame1.DealerPlaysShape | src/test/BlackjackGame1.java:276-278 | the dealer loop only moves cards from the front, stops on 17 or more or an empty deck, and drew only below 17 |
| BlackjackGame1.PlayerTurn | src/test/BlackjackGame1.java:253-274 | the hit-or-stand loop on the objects ends as the player-turn function does |
| BlackjackGame1.DealerTurn | src/test/BlackjackGame1.java:276-278 | the dealer loop on the objects ends as the dealer-turn function does |
| BlackjackGame1.SettleBet | src/test/BlackjackGame1.java:284-302 | the outcome is the comparison in source order, and the balance moves by its amount |
| BlackjackGame1.PlayDealt | src/test/BlackjackGame1.java:239-302 | after the deal, status, balance, both hands and deck are those of the round function after the deal |
| BlackjackGame1.DealAndPlay | src/test/BlackjackGame1.java:218-302 | on a given deck, the round on the objects yields the status, balance and deck of Round |
| BlackjackGame1.PlayGame | src/test/BlackjackGame1.java:214-303 | a fresh deck shuffled by the drawn indices, then the round, yields Round on that shuffle |
| BlackjackGame1Rules.PlayMovesCards | src/test/BlackjackGame1.java:253-278 | after the deal, hands only grow and no card is lost |
| BlackjackGame1Rules.SettleMeaning | src/test/BlackjackGame1.java:284-302 | for a player at 21 or below, each outcome of the comparison matches the scores: dealer bust exactly above 21, equal, dealer higher, player higher |
| BlackjackGame1Rules.PlaySettles | src/test/BlackjackGame1.java:239-302 | after the deal, the balance change per outcome, and the scores each outcome was decided on |
| BlackjackGame1Rules.PlayDealerRule | src/test/BlackjackGame1.java:276-278 | the dealer draws only after a stand, only below 17, and stands on 17 or more |
| BlackjackGame1Rules.DealOrder | src/test/BlackjackGame1.java:225-229 | the player gets the first two cards and the dealer the next two |
| BlackjackGame1Rules.Naturals | src/test/BlackjackGame1.java:239-251 | both naturals tie with no change, a natural alone wins the bet once, neither draws a card, and only those rounds end that way |
| BlackjackGame1Rules.Settlement | src/test/BlackjackGame1.java:256-302 | bust −bet with the dealer untouched; then dealer bust +bet, equal 0, dealer higher −bet, otherwise +bet |
| BlackjackGame1Rules.DealerStandsOnSeventeen | src/test/BlackjackGame1.java:276-278 | when the round reaches the comparison the dealer has 17 or more, and drew only below 17 |
| BlackjackGame1Rules.RoundKeepsCards | src/test/BlackjackGame1.java:225-278 | the hands and the deck left hold the cards of the deck |
| BlackjackGame1Rules.NoCardTwice | src/test/BlackjackGame1.java:214-229 | with the fresh shuffled deck the deal succeeds and the round ends with all 52 cards, none twice |
| MainGame.NumericValueRange | src/MainGame.java:99-111 | each value counts 2 to 11, 11 exactly for the Ace, 10 for the pictures |
| MainGame.NumericValue | src/MainGame.java:99-111 | each enum value carries its count: Two to Ten their number, Jack, Queen and King 10, Ace 11 |
| MainGame.HandScore | src/MainGame.java:38-55 | the hand's score is the Ace rule applied to the raw total and the number of Aces |
| MainGame.ScoreOfOneMore | src/MainGame.java:42-47 | one more card adds its numeric value to the raw total and its flag to the Ace count |
| MainGame.TwoCardsNeverBust | src/MainGame.java:38-55 | a two-card hand scores 21 or below |
| MainGame.SuitIndex | src/MainGame.java:98 | every suit sits at one position of the enum |
| MainGame.ValueIndex | src/MainGame.java:99-100 | every value sits at one position of the enum |
| MainGame.NewDeckOrder | src/MainGame.java:143-147 | the nested loops add 52 cards |
| MainGame.NewDeckComplete | src/MainGame.java:139-148 | a new deck holds every (suit, value) pair, no two positions the same card |
| MainGame.Player.constructor | src/MainGame.java:8-12 | a new player has the name, no earnings and an empty hand |
| MainGame.Player.SetEarnings | src/MainGame.java:22-24 | the earnings become the value given, and the hand is kept |
| MainGame.Player.ClearHand | src/MainGame.java:30-32 | the hand becomes empty, and the earnings are kept |
| MainGame.Player.AddCardToHand | src/MainGame.java:34-36 | the card is appended, and the earnings are kept |
| MainGame.Player.CalculateHandValue | src/MainGame.java:38-55 | the loops return the Ace-rule score of the hand |
| MainGame.House.constructor | src/MainGame.java:61-63 | a new house hand is empty |
| MainGame.House.ClearHand | src/MainGame.java:69-71 | the hand becomes empty |
| MainGame.House.AddCardToHand | src/MainGame.java:73-75 | the card is appended |
| MainGame.House.CalculateHandValue | src/MainGame.java:77-94 | the loops return the same Ace-rule score as the player's |
| MainGame.Deck.constructor | src/MainGame.java:139-148 | the new deck is the 52 cards in enum order |
| MainGame.Deck.Shuffle | src/MainGame.java:150-152 | the deck becomes the reordering picked, which holds the same cards |
| MainGame.Deck.DealCard | src/MainGame.java:154-159 | fails exactly on an empty deck; otherwise returns the first card and leaves the rest |
| MainGame.FirstValidBet | src/MainGame.java:231-250 | the first line that is a number from 10 to the earnings, every earlier line rejected |
| MainGame.Game.constructor | src/MainGame.java:177-189 | fresh player, house and deck; the deck in enum order, empty hands, earnings of 100 |
| MainGame.Game.PlaceBet | src/MainGame.java:231-254 | returns a bet exactly when a line is accepted, the first such, and takes it from the earnings once |
| MainGame.Game.DealToPlayer | src/MainGame.java:258 | on a non-empty deck the front card moves to the player's hand; on an empty deck the deal fails and nothing moves |
| MainGame.Game.DealToHouse | src/MainGame.java:259 | on a non-empty deck the front card moves to the house's hand; on an empty deck the deal fails and nothing moves |
| MainGame.Game.DealInitialCards | src/MainGame.java:256-264 | deals player, house, player, house from the front, failing where the deck runs out |
| MainGame.Deal | src/MainGame.java:256-260 | the deal on values: player, house, player, house from the front, stopping where the deck runs out |
| MainGame.Game.PlayerTurn | src/MainGame.java:266-292 | the hit-or-stay loop on the objects ends as the player-turn function does |
| MainGame.Game.HouseTurn | src/MainGame.java:294-303 | the house loop on the objects ends as the house-turn function does |
| MainGame.PlayerPlays | src/MainGame.java:266-292 | the hit-or-stay loop: a hit draws the front card and ends the turn on a bust or on exactly 21, a stay ends it, any other answer is asked again, an empty deck or input fails |
| MainGame.HousePlays | src/MainGame.java:294-303 | the house draws the front card while its score is below 17, and fails on an empty deck |
| MainGame.Winner | src/MainGame.java:305-326 | player bust first, then house bust, player higher, house higher, else a tie |
| MainGame.Credit | src/MainGame.java:305-326 | a win credits 20, a tie 10, a loss nothing |
| MainGame.Play | src/MainGame.java:219-226 | after the deal: the natural pays +⌊1.5·bet⌋, else the player's turn, the house's turn even after a player bust, and the verdict's credit |
| MainGame.Round | src/MainGame.java:206-229 | a round: both hands cleared, no round without earnings, the first valid bet taken, the deal, then the play |
| MainGame.Game.DetermineWinner | src/MainGame.java:305-326 | the verdict is the comparison in source order, and the earnings grow by its fixed credit |
| MainGame.Game.PlayDealt | src/MainGame.java:219-226 | after the deal, status, earnings, hands and deck are those of the round function after the deal |
| MainGame.Game.PlayRound | src/MainGame.java:206-229 | one round on the objects yields the status, earnings, hands and deck of Round |
| MainGameRules.PlayerPlaysShape | src/MainGame.java:266-292 | the hit loop only moves cards from the front, busts exactly on its last card, and hit only on hands below 21 |
| MainGameRules.HousePlaysShape | src/MainGame.java:294-303 | the house loop only moves cards from the front, stops on 17 or more or an empty deck, and drew only below 17 |
| MainGameRules.PlayMovesCards | src/MainGame.java:219-226 | after the deal, hands only grow and the deck left is a suffix |
| MainGameRules.PlayConservesCards | src/MainGame.java:219-226 | after the deal, hands and deck hold the same cards as before |
| MainGameRules.WinnerMeaning | src/MainGame.java:305-326 | player bust exactly when the player is above 21, and each other verdict matches the scores it was decided on |
| MainGameRules.RoundIsPlay | src/MainGame.java:216-226 | after a valid bet and a full deal, the round is the play on the dealt hands with the bet taken from the earnings |
| MainGameRules.DropDealt | src/MainGame.java:154-159 | when a turn moves cards from the front of the deck to the end of a hand, the deck left is a suffix |
| MainGameRules.PlaySettles | src/MainGame.java:219-326 | after the deal, a natural exactly when the first two score 21 with +⌊1.5·bet⌋, otherwise the verdict's credit and the scores it was decided on |
| MainGameRules.PlayTurnRules | src/MainGame.java:223-224 | without a natural the house always plays and ends on 17 or more; the player hit only below 21 |
| MainGameRules.NoEarningsNoRound | src/MainGame.java:206-214 | with earnings of 0 or less the round only empties both hands |
| MainGameRules.PoorPlayerCannotBet | src/MainGame.java:231-250 | with earnings from 1 to 9 no bet is accepted and nothing changes |
| MainGameRules.BetEscrow | src/MainGame.java:231-254 | the bet lies in 10..earnings and is taken once; what comes back is the natural payout, the credit, or nothing |
| MainGameRules.EarningsStayNonNegative | src/MainGame.java:206-226 | earnings that start at 0 or more stay so |
| MainGameRules.FixedPayouts | src/MainGame.java:305-326 | a win pays 20 and a tie 10 whatever the bet, so a settled round with a bet above 20 leaves the player poorer |
| MainGameRules.DealOrder | src/MainGame.java:256-260 | the first four cards go player, house, player, house |
| MainGameRules.NaturalSkipsTurns | src/MainGame.java:219-221 | a natural on the first two cards, and only that, pays +⌊1.5·bet⌋ after the debit and draws nothing |
| MainGameRules.TurnsAfterTheDeal | src/MainGame.java:223-224 | the house plays even after a player bust and ends on 17 or more; the player drew only below 21 |
| MainGameRules.ShortDealKeepsCards | src/MainGame.java:256-260 | a deal from fewer than four cards fails and leaves every card in a hand |
| MainGameRules.DealTakesFour | src/MainGame.java:256-260 | dealing four cards alternately keeps every card |
| MainGameRules.DealtPlayKeepsCards | src/MainGame.java:219-226 | the play after a full deal keeps every card of the deck in a hand or the deck left |
| MainGameRules.DealtPlayLeavesSuffix | src/MainGame.java:219-226 | the play after a full deal leaves a suffix of the cards after the four dealt |
| MainGameRules.DealtRoundKeepsCards | src/MainGame.java:206-229 | a round that deals all four cards keeps every card in a hand or the deck |
| MainGameRules.DealtRoundLeavesSuffix | src/MainGame.java:206-229 | a round that deals all four cards leaves a suffix of the deck after them |
| MainGameRules.CardsConserved | src/MainGame.java:206-229 | no card is lost, the deck left is a suffix, and a finished round uses at least four cards |
| MainGameRules.FirstRoundUnshuffled | src/MainGame.java:181-196 | the first round deals from the unshuffled deck: the player gets the Two and Four of clubs, the house the Three and Five |

## Left out

- Console output: prompts, messages, `displayHands`, `formatHand` and `toString`. Input comes as scripted sequences of bets and parsed answers.
- File persistence and logging: `loadPlayerData`, `savePlayerData`, `saveGameRecord`, the timestamp, and the `loadPlayer`/`savePlayer`/`createNewPlayer` stubs. All of these are file-system plumbing.
- The credential flows of each `main` (returning-player prompts, pin checks, re-entry) are not modelled. Neither is MainGame's `getPlayerName`.
- `Math.random` and `Random.nextInt` become a sequence of drawn indices in 0..i. `Collections.shuffle` becomes whatever permutation of the deck is passed in.
- `(int)(bet * 1.5)` in double arithmetic is written as `3 * bet / 2`. The two are equal for bets up to 1,431,655,765; beyond that the Java cast saturates at the largest `int`.
- Java's 32-bit `int` overflow is not modelled. Balances, earnings and bets are unbounded integers.
- `Integer.parseInt` and `Scanner.nextInt` exceptions are not modelled. Main's bets are already integers, and MainGame's non-numbers are rejected lines.
- Main's `endRound` prompt to add money at a zero balance is not modelled. The prompt adds no money, and `PlaySession` takes the rounds the user asked for.
- MainGame's `start` loop and `askToPlayAgain` are not modelled. The shuffle between rounds is covered only by `MainGame.Deck.Shuffle`, and a round is modelled one at a time.
- BlackjackGame1's `main` play-again loop is not modelled. Each round uses a fresh deck, so nothing carries over except the balance.
- When Main's deal throws part-way, and when BlackjackGame1's deck is shorter than four cards, the round ends with empty hands in the model. The source's hands are locals of the round and are lost with the exception.
- That a fresh 52-card deck in BlackjackGame1 can never run out during a round is not proved. The model keeps the empty-deck failure path instead.
- The hand score is not monotone in the cards added, so no such property is claimed. `StringCards.ScoreNotMonotone` proves the counterexample.
