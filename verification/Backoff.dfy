// The capped exponential reconnect delay, in milliseconds.

module Backoff {
  const RECONNECT_BACKOFF_START: nat := 200
  const RECONNECT_BACKOFF_MAX: nat := 30_000

  function Min(a: nat, b: nat): nat {
    if a < b then a else b
  }

  function Next(current: nat): nat {
    Min(current * 2, RECONNECT_BACKOFF_MAX)
  }

  function Pow2(k: nat): nat {
    if k == 0 then 1 else 2 * Pow2(k - 1)
  }

  /** The delay used by the next sleep when `k` sleeps have passed since the last successful drain. */
  function After(k: nat): nat {
    Min(RECONNECT_BACKOFF_START * Pow2(k), RECONNECT_BACKOFF_MAX)
  }

  lemma AfterStep(k: nat)
    ensures After(0) == RECONNECT_BACKOFF_START
    ensures Next(After(k)) == After(k + 1)
  {
  }

  lemma {:induction false} AfterBounds(k: nat)
    ensures RECONNECT_BACKOFF_START <= After(k) <= RECONNECT_BACKOFF_MAX
    ensures After(k) <= After(k + 1)
    ensures After(k) == RECONNECT_BACKOFF_MAX <==> 8 <= k
  {
    if k == 0 {
      assert Pow2(0) == 1 && Pow2(1) == 2;
    } else {
      AfterBounds(k - 1);
      if k == 8 {
        assert Pow2(8) == 256 by {
          assert Pow2(1) == 2;
          assert Pow2(3) == 8;
          assert Pow2(5) == 32;
          assert Pow2(7) == 128;
        }
      }
    }
  }
}
