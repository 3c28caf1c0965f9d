/** Job ids are handed out by a 16-bit counter that skips zero. */
module RcmJobIds {
  const LAST_ID: nat := 0xFFFF

  function NextId(c: nat): nat {
    if c == LAST_ID then 1 else c + 1
  }

  /** The counter after n advances. */
  function IdAfter(c: nat, n: nat): nat {
    if n == 0 then c else NextId(IdAfter(c, n - 1))
  }

  lemma {:induction false} IdAfterClosed(c: nat, n: nat)
    requires c <= LAST_ID && n >= 1
    ensures IdAfter(c, n) == (c + n - 1) % LAST_ID + 1
  {
    if n > 1 {
      IdAfterClosed(c, n - 1);
      var x := c + n - 2;
      var q, r := x / LAST_ID, x % LAST_ID;
      if r + 1 == LAST_ID {
        assert x + 1 == (q + 1) * LAST_ID;
        assert (x + 1) % LAST_ID == 0;
      } else {
        assert x + 1 == q * LAST_ID + (r + 1);
        assert (x + 1) % LAST_ID == r + 1;
      }
    }
  }

  /** From any value, 65535 advances visit every id. */
  lemma EveryIdVisited(c: nat, id: nat) returns (n: nat)
    requires c <= LAST_ID && 1 <= id <= LAST_ID
    ensures 1 <= n <= LAST_ID && IdAfter(c, n) == id
  {
    n := if id > c then id - c else id - c + LAST_ID;
    IdAfterClosed(c, n);
    if c + n == id {
    } else {
      assert c + n - 1 == LAST_ID + (id - 1);
    }
  }

  /** No id comes round again before the counter has passed all the others. */
  lemma NoEarlyRepeat(c: nat, n: nat)
    requires 1 <= c <= LAST_ID && 1 <= n < LAST_ID
    ensures IdAfter(c, n) != c
  {
    IdAfterClosed(c, n);
    if c + n - 1 < LAST_ID {
      assert (c + n - 1) % LAST_ID == c + n - 1;
    } else {
      assert c + n - 1 == LAST_ID + (c + n - 1 - LAST_ID);
      assert (c + n - 1) % LAST_ID == c + n - 1 - LAST_ID;
    }
  }

  lemma {:induction false} IdAfterSum(c: nat, m: nat, n: nat)
    ensures IdAfter(IdAfter(c, m), n) == IdAfter(c, m + n)
  {
    if n > 0 {
      IdAfterSum(c, m, n - 1);
    }
  }

  /** THEOREM. The same id at two counts means a whole cycle in between. */
  lemma RepeatTakesACycle(a: nat, b: nat)
    requires 1 <= a < b && IdAfter(LAST_ID, a) == IdAfter(LAST_ID, b)
    ensures b - a >= LAST_ID
  {
    if b - a < LAST_ID {
      var c := IdAfter(LAST_ID, a);
      IdAfterClosed(LAST_ID, a);
      IdAfterSum(LAST_ID, a, b - a);
      NoEarlyRepeat(c, b - a);
    }
  }
}
