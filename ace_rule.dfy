/** The Ace rule every variant scores hands with: each Ace first counts 11, then
    10 comes off per Ace, one Ace at a time, while the total is above 21.
    This module states that loop in closed form, on the raw total (every Ace at
    11) and the number of Aces. */
module AceRule {
  import opened Common

  /** Blackjack: the best score, and the score above which a hand is bust. */
  const BlackjackValue := 21

  /** How many Aces the downgrade loop turns from 11 into 1: the least count that
      brings the total to 21 or below, or every Ace when no count is enough. */
  function Downgrades(raw: int, aces: nat): (k: nat)
    ensures k <= aces
    ensures raw - 10 * k <= BlackjackValue || k == aces
    ensures 0 < k ==> raw - 10 * (k - 1) > BlackjackValue
  {
    if raw <= BlackjackValue then 0 else Min(aces, (raw - 12) / 10)
  }

  /** The score of a hand with raw total raw and aces Aces. */
  function Score(raw: int, aces: nat): (s: int)
    ensures raw - 10 * aces <= s <= raw
    ensures s > BlackjackValue <==> raw - 10 * aces > BlackjackValue
    ensures s <= BlackjackValue || s == raw - 10 * aces
  {
    raw - 10 * Downgrades(raw, aces)
  }

  /** The downgrade loop can stop at one count only: the one Downgrades names. */
  lemma DowngradesUnique(raw: int, aces: nat, k: nat)
    requires k <= aces
    requires raw - 10 * k <= BlackjackValue || k == aces
    requires 0 < k ==> raw - 10 * (k - 1) > BlackjackValue
    ensures k == Downgrades(raw, aces)
  {
  }
}
