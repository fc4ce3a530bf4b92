/**
 The halving thresholds of the background refresh (pkceflow.go:327-347) and the
 capped exponential delay of the persistence retry (persistence.go:65-74): each
 loop is proved equal to a closed form, whose order properties follow.
*/
module StageTimes {
  import opened Basics
  import opened Tokens

  const MIN_REFRESH_INTERVAL: nat := 10 * SECOND
  const MIN_PERSISTENCE_RETRY_INTERVAL: nat := SECOND
  const MAX_PERSISTENCE_RETRY_INTERVAL: nat := 60 * SECOND

  /** The original lifetime of the token; 0 when the timestamps define none. */
  function Lifetime(state: TokenState): nat {
    if state.expiresAt == 0 || state.lastAuthAt == 0 || state.expiresAt <= state.lastAuthAt then 0
    else state.expiresAt - state.lastAuthAt
  }

  /** What is left of `life` after `n` halvings. */
  function Halved(life: nat, n: nat): (left: nat)
    ensures left <= life
  {
    if n == 0 then life else Halved(life, n - 1) / 2
  }

  /** The threshold of a one-based stage: what the halvings leave before expiry, as long
      as that is at least one unit. */
  function StageTime(state: TokenState, stage: nat): (due: Option<Time>) {
    var left := Halved(Lifetime(state), stage);
    if stage == 0 || left == 0 then None else Some(state.expiresAt - left)
  }

  /** The source's loop: halve the lifetime once per stage and give up when
      nothing is left. */
  method RefreshStageTime(state: TokenState, stage: nat) returns (due: Time, ok: bool)
    ensures ok <==> StageTime(state, stage).Some?
    ensures ok ==> due == StageTime(state, stage).value
  {
    if stage == 0 || state.expiresAt == 0 || state.lastAuthAt == 0 {
      return 0, false;
    }
    var lifetime := state.expiresAt - state.lastAuthAt;
    if lifetime <= 0 {
      return 0, false;
    }
    var remaining: nat := lifetime;
    var halvings := 0;
    while halvings < stage
      invariant 0 <= halvings <= stage
      invariant remaining == Halved(lifetime, halvings) && remaining > 0
    {
      remaining := remaining / 2;
      halvings := halvings + 1;
      if remaining <= 0 {
        HalvingShrinks(lifetime, halvings, stage);
        return 0, false;
      }
    }
    due := state.expiresAt - remaining;
    ok := due < state.expiresAt;
  }

  /** Every further halving leaves at most half as much. */
  lemma {:induction false} HalvingShrinks(life: nat, m: nat, n: nat)
    requires m <= n
    ensures Halved(life, n) <= Halved(life, m)
    ensures m < n ==> 2 * Halved(life, n) <= Halved(life, m)
    decreases n
  {
    if m < n {
      HalvingShrinks(life, m, n - 1);
    }
  }

  /** Due times lie between the midpoint of the lifetime and the expiry, and grow
      strictly with the stage. */
  lemma StageTimesIncrease(state: TokenState, m: nat, n: nat)
    requires 1 <= m < n
    requires StageTime(state, n).Some?
    ensures StageTime(state, m).Some?
    ensures StageTime(state, m).value < StageTime(state, n).value < state.expiresAt
    ensures 2 * StageTime(state, m).value >= state.lastAuthAt + state.expiresAt
  {
    HalvingShrinks(Lifetime(state), m, n);
    MidpointBound(state, m);
  }

  lemma MidpointBound(state: TokenState, stage: nat)
    requires StageTime(state, stage).Some?
    ensures 2 * StageTime(state, stage).value >= state.lastAuthAt + state.expiresAt
    ensures StageTime(state, stage).value < state.expiresAt
  {
    HalvingShrinks(Lifetime(state), 0, stage);
  }

  /** The first halving may as well be done ahead. */
  lemma {:induction false} HalvedFirst(life: nat, n: nat)
    requires n > 0
    ensures Halved(life, n) == Halved(life / 2, n - 1)
  {
    if n > 1 {
      HalvedFirst(life, n - 1);
    }
  }

  lemma {:induction false} HalvingsLeft(life: nat, stage: nat)
    requires life > 0
    ensures Halved(life, stage) > 0 <==> stage <= FloorLog2(life)
    decreases stage
  {
    if stage > 0 {
      HalvedFirst(life, stage);
      if life == 1 {
        HalvingShrinks(0, 0, stage - 1);
      } else {
        HalvingsLeft(life / 2, stage - 1);
      }
    }
  }

  /** A stage exists exactly up to the whole logarithm of the lifetime. */
  lemma StageExistsIff(state: TokenState, stage: nat)
    requires stage >= 1
    ensures StageTime(state, stage).Some?
            <==> Lifetime(state) > 0 && stage <= FloorLog2(Lifetime(state))
  {
    if Lifetime(state) > 0 {
      HalvingsLeft(Lifetime(state), stage);
    } else {
      HalvingShrinks(0, 0, stage);
    }
  }

  // ----- repeated halving is one division ---------------------------------------

  lemma {:induction false} MulAtLeast(d: nat, k: int)
    requires k >= 1
    ensures d * k >= d
    decreases k
  {
    if k > 1 {
      MulAtLeast(d, k - 1);
      assert d * k == d * (k - 1) + d;
    }
  }

  lemma MulMonotone(d: nat, p: int, q: int)
    requires p < q
    ensures d * p + d <= d * q
  {
    MulAtLeast(d, q - p);
    assert d * (q - p) == d * q - d * p;
  }

  /** A quotient is pinned down by its bounds. */
  lemma QuotientUnique(n: nat, d: nat, p: int, q: int)
    requires d > 0
    requires d * p <= n < d * p + d
    requires d * q <= n < d * q + d
    ensures p == q
  {
    if p < q {
      MulMonotone(d, p, q);
    } else if q < p {
      MulMonotone(d, q, p);
    }
  }

  lemma DivisionBounds(n: nat, d: nat)
    requires d > 0
    ensures d * (n / d) <= n < d * (n / d) + d
  {}

  /** Halving before a division is dividing by twice as much. */
  lemma HalvedQuotient(n: nat, d: nat)
    requires d > 0
    ensures (n / 2) / d == n / (2 * d)
  {
    var q := (n / 2) / d;
    DivisionBounds(n / 2, d);
    DivisionBounds(n, 2 * d);
    assert (2 * d) * q == 2 * (d * q);
    QuotientUnique(n, 2 * d, q, n / (2 * d));
  }

  /** Repeated halving is the floor of one division by a power of two. */
  lemma {:induction false} HalvedIsQuotient(life: nat, n: nat)
    ensures Halved(life, n) == life / Pow2(n)
    decreases n
  {
    if n > 0 {
      HalvedFirst(life, n);
      HalvedIsQuotient(life / 2, n - 1);
      HalvedQuotient(life, Pow2(n - 1));
    }
  }

  /** The due time in closed form. */
  lemma StageTimeClosedForm(state: TokenState, stage: nat)
    requires StageTime(state, stage).Some?
    ensures StageTime(state, stage).value == state.expiresAt - Lifetime(state) / Pow2(stage)
  {
    HalvedIsQuotient(Lifetime(state), stage);
  }

  // ----- persistence retry delay ------------------------------------------------

  function RetryDelay(failures: nat): (delay: nat)
    ensures MIN_PERSISTENCE_RETRY_INTERVAL <= delay <= MAX_PERSISTENCE_RETRY_INTERVAL
  {
    if failures == 0 then SECOND else Min(Pow2(failures - 1), 60) * SECOND
  }

  /** The source's doubling loop. It never forms a value above one minute and
      takes at most six turns, the last of which returns the cap. */
  method PersistenceRetryDelay(failures: nat) returns (delay: nat, ghost turns: nat)
    ensures delay == RetryDelay(failures)
    ensures turns <= 6
  {
    delay := MIN_PERSISTENCE_RETRY_INTERVAL;
    turns := 0;
    var attempt := 1;
    while attempt < failures
      invariant 1 <= attempt <= Max(failures, 1)
      invariant turns == attempt - 1 <= 5
      invariant delay == Pow2(attempt - 1) * SECOND && Pow2(attempt - 1) <= 32
      invariant turns == 5 ==> Pow2(attempt - 1) == 32
    {
      assert Pow2(attempt) == 2 * Pow2(attempt - 1);
      turns := turns + 1;
      if delay >= MAX_PERSISTENCE_RETRY_INTERVAL / 2 {
        Pow2Grows(attempt, failures - 1);
        assert Pow2(failures - 1) >= 60;
        return MAX_PERSISTENCE_RETRY_INTERVAL, turns;
      }
      delay := delay * 2;
      attempt := attempt + 1;
      SixPowers(attempt - 1);
    }
  }

  lemma SixPowers(n: nat)
    ensures n == 5 ==> Pow2(n) == 32
    ensures n <= 4 ==> Pow2(n) <= 16
    ensures n >= 5 ==> Pow2(n) >= 32
  {
    assert Pow2(5) == 32 by {
      assert Pow2(2) == 4;
      assert Pow2(3) == 8;
      assert Pow2(4) == 16;
    }
    assert Pow2(4) == 16;
    if n <= 4 { Pow2Grows(n, 4); } else { Pow2Grows(5, n); }
  }

  /** One, two, four, eight, sixteen, thirty-two, and then sixty seconds. */
  lemma RetryDelayIs(failures: nat)
    requires failures >= 1
    ensures RetryDelay(failures) == if failures <= 6 then Pow2(failures - 1) * 1_000_000_000
                                    else 60_000_000_000
  {
    SixPowers(failures - 1);
    if failures > 6 {
      Pow2Grows(6, failures - 1);
      assert Pow2(6) == 2 * Pow2(5);
      SixPowers(5);
    }
  }

  lemma RetryDelayMonotone(m: nat, n: nat)
    requires m <= n
    ensures RetryDelay(m) <= RetryDelay(n)
  {
    if m > 0 {
      Pow2Grows(m - 1, n - 1);
    }
  }
}
