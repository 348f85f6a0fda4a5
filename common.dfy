/** Pieces shared by the three Blackjack variants: an Option type, the parsed
    hit-or-stand answer, the two ways a round can die, how a turn ends, and
    card-sequence sums. */
module Common {

  datatype Option<T> = None | Some(value: T)

  /** One already-parsed answer to the hit-or-stand prompt. The line is H or S in
      either case for Hit and Stand, every other line is Other; the variants parse
      differently: src/Main.java upper-cases the line, src/MainGame.java compares it
      ignoring case, and src/test/BlackjackGame1.java trims it first, so there an
      answer padded with blanks is a Hit or a Stand too. */
  datatype Decision = Hit | Stand | Other

  /** Why a round stops without a result: a draw from an empty deck throws,
      and so does reading a line once the scripted input is used up. */
  datatype Failure = DeckEmpty | InputExhausted

  /** Why a hit-or-stand or house-draw loop ended. */
  datatype Stop = Stood | Busted | Halted(failure: Failure)

  /** The end of such a loop: why it stopped, the hand it built and the deck it left. */
  datatype Turn<C> = Turn(stop: Stop, hand: seq<C>, deck: seq<C>)

  function Min(a: int, b: int): int { if a <= b then a else b }

  /** f summed over s, taking the last element last (the way a hand is scanned). */
  function SumOf<C>(s: seq<C>, f: C -> int): int
  {
    if s == [] then 0 else SumOf(s[..|s| - 1], f) + f(s[|s| - 1])
  }

  lemma {:induction false} SumOfAppend<C>(a: seq<C>, b: seq<C>, f: C -> int)
    ensures SumOf(a + b, f) == SumOf(a, f) + SumOf(b, f)
  {
    if b == [] {
      assert a + b == a;
    } else {
      assert (a + b)[..|a + b| - 1] == a + b[..|b| - 1];
      SumOfAppend(a, b[..|b| - 1], f);
    }
  }

  /** Appending one element adds its term. */
  lemma SumOfSnoc<C>(s: seq<C>, x: C, f: C -> int)
    ensures SumOf(s + [x], f) == SumOf(s, f) + f(x)
  {
    assert (s + [x])[..|s|] == s;
  }

  /** Taking out the element at i leaves the rest of the sum. */
  lemma SumOfRemove<C>(b: seq<C>, i: nat, f: C -> int)
    requires i < |b|
    ensures SumOf(b, f) == SumOf(b[..i] + b[i + 1..], f) + f(b[i])
  {
    var l, r := b[..i], b[i + 1..];
    calc {
      SumOf(b, f);
    == { assert b[..i + 1] == l + [b[i]]; assert b == b[..i + 1] + r; }
      SumOf(l + [b[i]] + r, f);
    == { SumOfAppend(l + [b[i]], r, f); SumOfSnoc(l, b[i], f); }
      SumOf(l, f) + f(b[i]) + SumOf(r, f);
    == { SumOfAppend(l, r, f); }
      SumOf(l + r, f) + f(b[i]);
    }
  }

  /** Taking out the element at i takes one copy of it out of the multiset. */
  lemma MultisetRemoveAt<C>(s: seq<C>, i: nat)
    requires i < |s|
    ensures multiset(s[..i] + s[i + 1..]) == multiset(s) - multiset{s[i]}
  {
    assert s[..i + 1] == s[..i] + [s[i]];
    assert s == s[..i + 1] + s[i + 1..];
  }

  /** Taking the last element of a and one equal element of b out of two
      sequences with the same elements leaves the same elements. */
  lemma RemoveMatching<C>(a: seq<C>, b: seq<C>, i: nat)
    requires multiset(a) == multiset(b) && a != [] && i < |b| && b[i] == a[|a| - 1]
    ensures multiset(a[..|a| - 1]) == multiset(b[..i] + b[i + 1..])
  {
    MultisetRemoveAt(a, |a| - 1);
    assert a[..|a| - 1] + a[|a|..] == a[..|a| - 1];
    MultisetRemoveAt(b, i);
  }

  /** A sum over a sequence does not depend on the order of its elements. */
  lemma {:induction false} SumOfPermutation<C>(a: seq<C>, b: seq<C>, f: C -> int)
    requires multiset(a) == multiset(b)
    ensures SumOf(a, f) == SumOf(b, f)
    decreases |a|
  {
    if a == [] {
      assert |multiset(b)| == 0;
      assert b == [];
    } else {
      var x := a[|a| - 1];
      assert x in multiset(b) by { assert x in a; }
      var i :| 0 <= i < |b| && b[i] == x;
      RemoveMatching(a, b, i);
      SumOfPermutation(a[..|a| - 1], b[..i] + b[i + 1..], f);
      SumOfRemove(b, i, f);
    }
  }

  /** A sum of non-negative terms is non-negative. */
  lemma {:induction false} SumOfNonNegative<C>(s: seq<C>, f: C -> int)
    requires forall k :: 0 <= k < |s| ==> f(s[k]) >= 0
    ensures SumOf(s, f) >= 0
    decreases |s|
  {
    if s != [] {
      SumOfNonNegative(s[..|s| - 1], f);
    }
  }

  /** Cards moved in two steps, first from d to a leaving x, then from x to b leaving
      c, are the cards of p, h and d, with h the start of b. */
  lemma MovedTwice<C>(a: seq<C>, b: seq<C>, c: seq<C>, x: seq<C>, p: seq<C>, h: seq<C>, d: seq<C>)
    requires multiset(a) + multiset(x) == multiset(p) + multiset(d)
    requires multiset(b) + multiset(c) == multiset(h) + multiset(x)
    ensures multiset(a) + multiset(b) + multiset(c) == multiset(p) + multiset(h) + multiset(d)
  {
    calc {
      multiset(a) + multiset(b) + multiset(c);
      multiset(a) + (multiset(h) + multiset(x));
      (multiset(a) + multiset(x)) + multiset(h);
    }
  }
}
