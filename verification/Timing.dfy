/** Timestamps in microseconds and the capped exponential delays built on them. */
module Timing {

  /** Microseconds in a second, the resolution of every timestamp. */
  const SECOND := 1_000_000

  function Min(a: nat, b: nat): nat {
    if a <= b then a else b
  }

  function Pow2(n: nat): nat {
    if n == 0 then 1 else 2 * Pow2(n - 1)
  }

  /** Seconds to wait after the `n`-th try: `min(cap, 2 ** min(n, exponent))`. */
  function Backoff(n: nat, cap: nat, exponent: nat): nat {
    Min(cap, Pow2(Min(n, exponent)))
  }

  lemma BackoffIsBounded(n: nat, cap: nat, exponent: nat)
    requires n >= 1 && exponent >= 1 && cap >= 2
    ensures 2 <= Backoff(n, cap, exponent) <= cap
  {
    PowerOfPositive(Min(n, exponent));
  }

  lemma {:induction false} PowerOfPositive(n: nat)
    requires n >= 1
    ensures Pow2(n) >= 2
  {
    if n > 1 { PowerOfPositive(n - 1); }
  }

  /** Seconds waited over the first `n` delays together. */
  function Waited(n: nat, cap: nat, exponent: nat): nat {
    if n == 0 then 0 else Waited(n - 1, cap, exponent) + Backoff(n, cap, exponent)
  }

  lemma {:induction false} WaitedGrows(m: nat, n: nat, cap: nat, exponent: nat)
    requires m <= n
    ensures Waited(m, cap, exponent) <= Waited(n, cap, exponent)
    decreases n
  {
    if m < n { WaitedGrows(m, n - 1, cap, exponent); }
  }

  lemma Powers()
    ensures Pow2(1) == 2 && Pow2(2) == 4 && Pow2(3) == 8 && Pow2(4) == 16 && Pow2(5) == 32
    ensures Pow2(6) == 64 && Pow2(7) == 128 && Pow2(8) == 256 && Pow2(9) == 512
  {
  }

  lemma AtCap(n: nat, cap: nat, exponent: nat)
    requires n >= exponent && Pow2(exponent) >= cap
    ensures n > 0 ==> Waited(n, cap, exponent) == Waited(n - 1, cap, exponent) + cap
  {
    assert Min(n, exponent) == exponent;
  }

  lemma OneMoreTime(k: nat, cap: nat)
    requires k > 0
    ensures k * cap == (k - 1) * cap + cap
  {
  }

  /** Delays reach the cap and stay there, so waiting grows by `cap` from then on. */
  lemma {:induction false} WaitedAtCap(n: nat, k: nat, cap: nat, exponent: nat)
    requires n + 1 >= exponent && Pow2(exponent) >= cap
    ensures Waited(n + k, cap, exponent) == Waited(n, cap, exponent) + k * cap
  {
    if k > 0 {
      WaitedAtCap(n, k - 1, cap, exponent);
      AtCap(n + k, cap, exponent);
      OneMoreTime(k, cap);
    }
  }

  /** Speech claims (60 s, exponent 6): whoever waited no more than 600 s waited at most 13 times. */
  lemma SpeechTriesBounded(n: nat)
    ensures Waited(n, 60, 6) <= 600 <==> n <= 13
  {
    Powers();
    assert Waited(3, 60, 6) == 14;
    assert Waited(5, 60, 6) == 62;
    WaitedAtCap(5, 8, 60, 6);
    WaitedAtCap(5, 9, 60, 6);
    if n <= 13 { WaitedGrows(n, 13, 60, 6); } else { WaitedGrows(14, n, 60, 6); }
  }

  /** Relay posts (300 s, exponent 9): whoever waited no more than 3600 s waited at most 18 times. */
  lemma RelayTriesBounded(n: nat)
    ensures Waited(n, 300, 9) <= 3600 <==> n <= 18
  {
    Powers();
    assert Waited(3, 300, 9) == 14;
    assert Waited(6, 300, 9) == 126;
    assert Waited(8, 300, 9) == 510;
    WaitedAtCap(8, 10, 300, 9);
    WaitedAtCap(8, 11, 300, 9);
    if n <= 18 { WaitedGrows(n, 18, 300, 9); } else { WaitedGrows(19, n, 300, 9); }
  }
}
