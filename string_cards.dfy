/** The Card of src/Main.java and src/test/BlackjackGame1.java (the two classes
    are identical): a suit symbol and a rank string, scored by rank, and the
    52-card order both Deck constructors build. */
module StringCards {
  import opened Common
  import AceRule

  /** The suit symbols, in the order of the constructors' suits array. */
  datatype Suit = Spades | Hearts | Diamonds | Clubs

  /** The rank strings "A", "2" .. "10", "J", "Q", "K". */
  datatype Rank = Ace | Two | Three | Four | Five | Six | Seven | Eight | Nine | Ten | Jack | Queen | King

  datatype Card = Card(suit: Suit, rank: Rank)

  /** Integer.parseInt of a numeral rank; only numeral ranks reach it. */
  function FaceValue(r: Rank): int
    requires r != Ace && r != Jack && r != Queen && r != King
  {
    match r
    case Two => 2
    case Three => 3
    case Four => 4
    case Five => 5
    case Six => 6
    case Seven => 7
    case Eight => 8
    case Nine => 9
    case Ten => 10
  }

  /** What one card adds to the raw total: an Ace 11, a picture 10, a numeral its face. */
  function CardPoints(c: Card): int
  {
    if c.rank == Ace then 11
    else if c.rank == King || c.rank == Queen || c.rank == Jack then 10
    else FaceValue(c.rank)
  }

  function AceFlag(c: Card): int { if c.rank == Ace then 1 else 0 }

  /** The sum of the card values with every Ace at 11. */
  function RawTotal(cards: seq<Card>): int { SumOf(cards, CardPoints) }

  function AceCount(cards: seq<Card>): (n: nat)
  {
    SumOfNonNegative(cards, AceFlag);
    SumOf(cards, AceFlag)
  }

  /** Hand.getHandValue: the Ace rule applied to the raw total. */
  function HandScore(cards: seq<Card>): int
  {
    AceRule.Score(RawTotal(cards), AceCount(cards))
  }

  /** Each card is worth 2 to 11, and 11 exactly when it is an Ace. */
  lemma CardPointsRange(c: Card)
    ensures 2 <= CardPoints(c) <= 11
    ensures CardPoints(c) == 11 <==> c.rank == Ace
  {
  }

  /** Without Aces the score is the plain sum: pictures 10, numerals their face. */
  lemma NoAcesScoreIsSum(cards: seq<Card>)
    requires AceCount(cards) == 0
    ensures HandScore(cards) == RawTotal(cards)
  {
  }

  /** The score ignores the order in which the cards were dealt. */
  lemma HandScoreOrderFree(a: seq<Card>, b: seq<Card>)
    requires multiset(a) == multiset(b)
    ensures HandScore(a) == HandScore(b)
  {
    SumOfPermutation(a, b, CardPoints);
    SumOfPermutation(a, b, AceFlag);
  }

  /** Appending one card adds its value to the raw total and its flag to the Ace count. */
  lemma AddOne(cards: seq<Card>, c: Card)
    ensures RawTotal(cards + [c]) == RawTotal(cards) + CardPoints(c)
    ensures AceCount(cards + [c]) == AceCount(cards) + AceFlag(c)
  {
    assert (cards + [c])[..|cards|] == cards;
  }

  /** A two-card hand never busts: two Aces count 12. */
  lemma TwoCardsNeverBust(c0: Card, c1: Card)
    ensures HandScore([c0, c1]) <= AceRule.BlackjackValue
  {
    AddOne([c0], c1);
    AddOne([], c0);
    assert [c0] == [] + [c0];
    CardPointsRange(c0);
    CardPointsRange(c1);
    assert RawTotal([]) == 0 && AceCount([]) == 0;
    assert [c0] + [c1] == [c0, c1];
    assert RawTotal([c0, c1]) == CardPoints(c0) + CardPoints(c1);
    assert AceCount([c0, c1]) == AceFlag(c0) + AceFlag(c1);
  }

  /** Adding a card can lower the score: Ace and 5 score 16, then a 9 makes 15. */
  lemma ScoreNotMonotone()
    ensures HandScore([Card(Spades, Ace), Card(Hearts, Five)]) == 16
    ensures HandScore([Card(Spades, Ace), Card(Hearts, Five), Card(Clubs, Nine)]) == 15
  {
    var a, f, n := Card(Spades, Ace), Card(Hearts, Five), Card(Clubs, Nine);
    assert RawTotal([]) == 0 && AceCount([]) == 0;
    AddOne([], a);
    assert [] + [a] == [a];
    AddOne([a], f);
    assert [a] + [f] == [a, f];
    AddOne([a, f], n);
    assert [a, f] + [n] == [a, f, n];
    assert RawTotal([a, f]) == 16 && AceCount([a, f]) == 1;
    assert RawTotal([a, f, n]) == 25 && AceCount([a, f, n]) == 1;
  }

  /** The examples of the Ace rule: Ace and 9 score 20, Ace, Ace and 9 score 21. */
  lemma AceExamples()
    ensures HandScore([Card(Spades, Ace), Card(Hearts, Nine)]) == 20
    ensures HandScore([Card(Spades, Ace), Card(Hearts, Ace), Card(Clubs, Nine)]) == 21
  {
    var a, b, n := Card(Spades, Ace), Card(Hearts, Ace), Card(Clubs, Nine);
    assert RawTotal([]) == 0 && AceCount([]) == 0;
    AddOne([], a);
    assert [] + [a] == [a];
    AddOne([a], n);
    assert [a] + [n] == [a, n];
    assert RawTotal([a, n]) == 20 && AceCount([a, n]) == 1;
    AddOne([a], b);
    assert [a] + [b] == [a, b];
    AddOne([a, b], n);
    assert [a, b] + [n] == [a, b, n];
    assert RawTotal([a, b, n]) == 31 && AceCount([a, b, n]) == 2;
  }

  // ----- The canonical 52-card order -----

  /** The i-th entry of the constructors' suits array. */
  function SuitAt(i: int): Suit
    requires 0 <= i < 4
  {
    if i == 0 then Spades else if i == 1 then Hearts else if i == 2 then Diamonds else Clubs
  }

  function SuitIndex(s: Suit): (i: int)
    ensures 0 <= i < 4 && SuitAt(i) == s
  {
    match s
    case Spades => 0
    case Hearts => 1
    case Diamonds => 2
    case Clubs => 3
  }

  /** The j-th entry of the constructors' ranks array "A", "2" .. "10", "J", "Q", "K". */
  function RankAt(j: int): Rank
    requires 0 <= j < 13
  {
    match j
    case 0 => Ace
    case 1 => Two
    case 2 => Three
    case 3 => Four
    case 4 => Five
    case 5 => Six
    case 6 => Seven
    case 7 => Eight
    case 8 => Nine
    case 9 => Ten
    case 10 => Jack
    case 11 => Queen
    case _ => King
  }

  function RankIndex(r: Rank): (j: int)
    ensures 0 <= j < 13 && RankAt(j) == r
  {
    match r
    case Ace => 0
    case Two => 1
    case Three => 2
    case Four => 3
    case Five => 4
    case Six => 5
    case Seven => 6
    case Eight => 7
    case Nine => 8
    case Ten => 9
    case Jack => 10
    case Queen => 11
    case King => 12
  }

  /** The order the nested suit-then-rank loops of Deck() add the cards in. */
  function NewDeckOrder(): (d: seq<Card>)
    ensures |d| == 52
  {
    seq(52, k requires 0 <= k < 52 => Card(SuitAt(k / 13), RankAt(k % 13)))
  }

  /** A fresh deck holds each of the 52 (suit, rank) pairs, each exactly once. */
  lemma NewDeckComplete()
    ensures forall c: Card :: c in NewDeckOrder()
    ensures forall i, j :: 0 <= i < j < 52 ==> NewDeckOrder()[i] != NewDeckOrder()[j]
  {
    var d := NewDeckOrder();
    forall c: Card ensures c in d {
      var k := 13 * SuitIndex(c.suit) + RankIndex(c.rank);
      assert k / 13 == SuitIndex(c.suit) && k % 13 == RankIndex(c.rank);
      assert d[k] == c;
    }
    forall i, j | 0 <= i < j < 52 ensures d[i] != d[j] {
      SuitAtIndex(i / 13);
      SuitAtIndex(j / 13);
      RankAtIndex(i % 13);
      RankAtIndex(j % 13);
    }
  }

  lemma SuitAtIndex(i: int)
    requires 0 <= i < 4
    ensures SuitIndex(SuitAt(i)) == i
  {
  }

  lemma RankAtIndex(j: int)
    requires 0 <= j < 13
    ensures RankIndex(RankAt(j)) == j
  {
  }

  /** A sequence with no card twice. */
  predicate Distinct(s: seq<Card>)
  {
    forall i, j :: 0 <= i < j < |s| ==> s[i] != s[j]
  }

  /** A permutation of the fresh deck has 52 cards, all different, every card among them. */
  lemma PermutedDeckDistinct(s: seq<Card>)
    requires multiset(s) == multiset(NewDeckOrder())
    ensures |s| == 52 && Distinct(s)
    ensures forall c: Card :: c in s
  {
    NewDeckComplete();
    var d := NewDeckOrder();
    assert |s| == |multiset(s)| == |multiset(d)| == 52;
    forall c: Card ensures c in s {
      assert c in d;
      assert c in multiset(s);
    }
    forall i, j | 0 <= i < j < |s| ensures s[i] != s[j] {
      if s[i] == s[j] {
        TwiceCounted(s, i, j);
        DistinctCountedOnce(d, s[i]);
      }
    }
  }

  lemma TwiceCounted(s: seq<Card>, i: int, j: int)
    requires 0 <= i < j < |s| && s[i] == s[j]
    ensures multiset(s)[s[i]] >= 2
  {
    assert s == s[..i] + [s[i]] + s[i + 1..j] + [s[j]] + s[j + 1..];
  }

  lemma {:induction false} DistinctCountedOnce(s: seq<Card>, c: Card)
    requires Distinct(s)
    ensures multiset(s)[c] <= 1
    decreases |s|
  {
    if s != [] {
      var s' := s[..|s| - 1];
      assert s == s' + [s[|s| - 1]];
      DistinctCountedOnce(s', c);
      if c == s[|s| - 1] {
        assert c !in s';
      }
    }
  }
}
