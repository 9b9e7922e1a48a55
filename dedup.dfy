/**
 * Duplicate-avoiding selection of a single item (facts.py:113-116, 142-145, 312-315,
 * 348-350): fetch once, and while the id is already in the history and fewer than five
 * retries were made, fetch again. The fetcher is an oracle: `fetch(k)` is what the
 * k-th call (0-based) returns, an item and its id.
 */
module Dedup {

  const RetryBudget: nat := 5

  /**
   * The index of the fetch the loop keeps when it has got as far as fetch `k`: the
   * first fresh one from `k` on, or the last one allowed.
   */
  function Chosen<T>(sent: seq<string>, fetch: nat -> (T, string), k: nat): (c: nat)
    requires k <= RetryBudget
    ensures k <= c <= RetryBudget
    ensures fetch(c).1 !in sent || c == RetryBudget
    ensures forall j :: k <= j < c ==> fetch(j).1 in sent
    decreases RetryBudget - k
  {
    if fetch(k).1 !in sent || k == RetryBudget then k else Chosen(sent, fetch, k + 1)
  }

  /**
   * The retry loop. It makes at most six fetches, stops at the first id not in the
   * history, and when every fetch collides keeps the sixth result instead of failing.
   */
  method SelectUnique<T>(sent: seq<string>, fetch: nat -> (T, string))
    returns (item: T, id: string, fetches: nat)
    ensures 1 <= fetches <= RetryBudget + 1
    ensures fetches - 1 == Chosen(sent, fetch, 0)
    ensures (item, id) == fetch(fetches - 1)
    ensures id !in sent || fetches == RetryBudget + 1
    ensures forall j :: 0 <= j < fetches - 1 ==> fetch(j).1 in sent
  {
    item, id := fetch(0).0, fetch(0).1;
    var retry := 0;
    while id in sent && retry < RetryBudget
      invariant retry <= RetryBudget
      invariant (item, id) == fetch(retry)
      invariant Chosen(sent, fetch, retry) == Chosen(sent, fetch, 0)
    {
      item, id := fetch(retry + 1).0, fetch(retry + 1).1;
      retry := retry + 1;
    }
    fetches := retry + 1;
  }

  /** With history {A, B} and fetches A, B, C, the third fetch (C) is kept. */
  lemma ThirdFetchWins<T>(sent: seq<string>, fetch: nat -> (T, string))
    requires fetch(0).1 in sent && fetch(1).1 in sent && fetch(2).1 !in sent
    ensures Chosen(sent, fetch, 0) == 2
  {
  }

  /** When all six fetches collide the sixth is kept, twice-sent rather than nothing sent. */
  lemma AllCollideKeepsLast<T>(sent: seq<string>, fetch: nat -> (T, string))
    requires forall j :: 0 <= j <= RetryBudget ==> fetch(j).1 in sent
    ensures Chosen(sent, fetch, 0) == RetryBudget
  {
  }
}
