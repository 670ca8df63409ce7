/** Copies along a chain of ancestors. Position 0 is a response, positions 1, 2, ...
    are its ancestors, nearest first; sees(k, i) says that k had already been able
    to see i's saved chain when k inherited. Every saved chain carries what it
    inherited, so copies multiply. */
module Multiplicity {

  function Weight(sees: (nat, nat) -> bool, k: nat, i: nat): nat {
    if sees(k, i) then 1 else 0
  }

  /** How many copies of what position i submitted reach position 0. */
  function Copies(sees: (nat, nat) -> bool, i: nat): nat
    decreases i, 1, 0
  {
    if i == 0 then 1 else CopiesVia(sees, i, i)
  }

  /** The copies that reach i's viewers among the first n positions. */
  function CopiesVia(sees: (nat, nat) -> bool, i: nat, n: nat): nat
    requires n <= i
    decreases i, 0, n
  {
    if n == 0 then 0
    else CopiesVia(sees, i, n - 1) + Weight(sees, n - 1, i) * Copies(sees, n - 1)
  }

  /** What position k inherits from positions i, ..., n - 1. */
  function Inherited(sees: (nat, nat) -> bool, total: nat -> nat, k: nat, i: nat, n: nat): nat
    requires i <= n
    decreases n - i
  {
    if i == n then 0 else Weight(sees, k, i) * total(i) + Inherited(sees, total, k, i + 1, n)
  }

  /** The law of one response: its own submissions plus what it inherits. It is
      only needed where some copy can still be handed on. */
  ghost predicate Lawful(sees: (nat, nat) -> bool, own: nat -> nat, total: nat -> nat, n: nat) {
    forall k: nat :: k < n && (k == 0 || Copies(sees, k) > 0) ==>
      total(k) == own(k) + Inherited(sees, total, k, k + 1, n)
  }

  function Submitted(sees: (nat, nat) -> bool, own: nat -> nat, n: nat): nat {
    if n == 0 then 0 else Submitted(sees, own, n - 1) + Copies(sees, n - 1) * own(n - 1)
  }

  /** Contributions of positions i, ..., n - 1 with the copies handed on by the
      first m positions. */
  function Open(sees: (nat, nat) -> bool, total: nat -> nat, m: nat, i: nat, n: nat): nat
    requires m <= i <= n
    decreases n - i
  {
    if i == n then 0 else CopiesVia(sees, i, m) * total(i) + Open(sees, total, m, i + 1, n)
  }

  lemma HandOn(a: nat, w: nat, c: nat, t: nat, o: nat, r: nat)
    ensures (a + w * c) * t + (o + c * r) == (a * t + o) + c * (w * t + r)
  {
    assert (a + w * c) * t == a * t + (w * c) * t;
    assert (w * c) * t == c * (w * t);
    assert c * (w * t + r) == c * (w * t) + c * r;
  }

  lemma {:induction false} OpenStep(sees: (nat, nat) -> bool, total: nat -> nat, m: nat, i: nat, n: nat)
    requires m < i <= n
    ensures Open(sees, total, m + 1, i, n)
        == Open(sees, total, m, i, n) + Copies(sees, m) * Inherited(sees, total, m, i, n)
    decreases n - i
  {
    hide Copies, Weight;
    if i < n {
      OpenStep(sees, total, m, i + 1, n);
      HandOn(CopiesVia(sees, i, m), Weight(sees, m, i), Copies(sees, m), total(i),
             Open(sees, total, m, i + 1, n), Inherited(sees, total, m, i + 1, n));
      assert CopiesVia(sees, i, m + 1) == CopiesVia(sees, i, m) + Weight(sees, m, i) * Copies(sees, m);
    } else {
      assert Copies(sees, m) * 0 == 0;
    }
  }

  lemma {:induction false} OpenNothing(sees: (nat, nat) -> bool, total: nat -> nat, i: nat, n: nat)
    requires i <= n
    ensures Open(sees, total, 0, i, n) == 0
    decreases n - i
  {
    if i < n {
      OpenNothing(sees, total, i + 1, n);
    }
  }

  lemma Replace(c: nat, t: nat, o: nat, r: nat)
    requires c == 0 || t == o + r
    ensures c * t == c * o + c * r
  {
    if c != 0 {
      assert c * (o + r) == c * o + c * r;
    }
  }

  /** Unfolding the laws of the first m positions. */
  lemma {:induction false} Unfolded(sees: (nat, nat) -> bool, own: nat -> nat, total: nat -> nat, m: nat, n: nat)
    requires 1 <= m <= n
    requires Lawful(sees, own, total, n)
    ensures total(0) == Submitted(sees, own, m) + Open(sees, total, m, m, n)
  {
    hide CopiesVia, Inherited;
    var k := m - 1;
    OpenStep(sees, total, k, m, n);
    Replace(Copies(sees, k), total(k), own(k), Inherited(sees, total, k, m, n));
    if m == 1 {
      OpenNothing(sees, total, 1, n);
      assert Submitted(sees, own, 0) == 0;
      assert Copies(sees, 0) == 1;
    } else {
      Unfolded(sees, own, total, k, n);
      assert CopiesVia(sees, k, k) == Copies(sees, k);
    }
  }

  /** What position 0 ends up with: every submission, times its copies. */
  lemma {:induction false} TotalIsSubmitted(sees: (nat, nat) -> bool, own: nat -> nat, total: nat -> nat, n: nat)
    requires n >= 1 && Lawful(sees, own, total, n)
    ensures total(0) == Submitted(sees, own, n)
  {
    Unfolded(sees, own, total, n, n);
  }

  // ---- Doubling ----

  function Pow2(n: nat): (r: nat)
    ensures r >= 1
  {
    if n == 0 then 1 else 2 * Pow2(n - 1)
  }

  function Doubled(i: nat): nat {
    if i == 0 then 1 else Pow2(i - 1)
  }

  ghost predicate AllSee(sees: (nat, nat) -> bool, n: nat) {
    forall k: nat, i: nat :: k < i < n ==> sees(k, i)
  }

  /** With doubled copies before i, the viewers among the first m positions hand on
      the full sum exactly when all of them see i. */
  lemma {:induction false} ViaDoubled(sees: (nat, nat) -> bool, i: nat, m: nat)
    requires m <= i
    requires forall k: nat :: k < m ==> Copies(sees, k) == Doubled(k)
    ensures var full := if m == 0 then 0 else Pow2(m - 1);
      && CopiesVia(sees, i, m) <= full
      && (CopiesVia(sees, i, m) == full <==> forall k: nat :: k < m ==> sees(k, i))
  {
    if m > 0 {
      ViaDoubled(sees, i, m - 1);
      assert Copies(sees, m - 1) == Doubled(m - 1);
      if sees(m - 1, i) {
        assert 1 * Copies(sees, m - 1) == Copies(sees, m - 1);
      } else {
        assert 0 * Copies(sees, m - 1) == 0;
      }
      assert m >= 2 ==> Pow2(m - 1) == Pow2(m - 2) + Doubled(m - 1);
    }
  }

  ghost predicate Doubling(sees: (nat, nat) -> bool, n: nat) {
    forall d: nat :: 1 <= d < n ==> Copies(sees, d) == Pow2(d - 1)
  }

  /** A submission d links back arrives exactly 2^(d-1) times, for every d, exactly
      when everyone saw everyone behind them. */
  lemma {:induction false} DoublingExactlyWhenAllSee(sees: (nat, nat) -> bool, n: nat)
    ensures Doubling(sees, n) <==> AllSee(sees, n)
  {
    if n >= 2 {
      var i := n - 1;
      DoublingExactlyWhenAllSee(sees, i);
      assert Doubling(sees, n) <==> Doubling(sees, i) && Copies(sees, i) == Pow2(i - 1);
      assert AllSee(sees, n) <==> AllSee(sees, i) && forall k: nat :: k < i ==> sees(k, i);
      if Doubling(sees, i) {
        forall k: nat | k < i ensures Copies(sees, k) == Doubled(k) {}
        ViaDoubled(sees, i, i);
      }
    }
  }

  /** In any case there are at most that many. */
  lemma {:induction false} AtMostDoubled(sees: (nat, nat) -> bool, d: nat)
    requires d >= 1
    ensures Copies(sees, d) <= Pow2(d - 1)
  {
    ViaAtMost(sees, d, d);
  }

  lemma {:induction false} ViaAtMost(sees: (nat, nat) -> bool, i: nat, m: nat)
    requires m <= i
    ensures CopiesVia(sees, i, m) <= if m == 0 then 0 else Pow2(m - 1)
    decreases i, m
  {
    if m > 0 {
      ViaAtMost(sees, i, m - 1);
      if m > 1 {
        ViaAtMost(sees, m - 1, m - 1);
      }
      assert Copies(sees, m - 1) <= Doubled(m - 1);
      assert Weight(sees, m - 1, i) * Copies(sees, m - 1) <= Doubled(m - 1);
    }
  }
}
