/** The initial rate of an address: a halved series over its closings, scaled by the cooperative ratio.
    Floating-point numbers are modelled as exact reals. */
module InitialRate {
  import opened Machine
  import opened RatingSums

  function Pow2(n: nat): (p: nat)
    ensures p > 0
  {
    if n == 0 then 1 else 2 * Pow2(n - 1)
  }

  lemma {:induction false} Pow2Split(a: nat, b: nat)
    ensures Pow2(a + b) == Pow2(a) * Pow2(b)
  {
    if b > 0 {
      Pow2Split(a, b - 1);
    }
  }

  lemma Pow2Double(k: nat, p: nat)
    requires Pow2(k) == p
    ensures Pow2(k + k) == p * p
  {
    Pow2Split(k, k);
  }

  lemma Pow2Of64()
    ensures Pow2(64) == U64
  {
    Pow2Double(4, 0x10);
    Pow2Double(8, 0x100);
    Pow2Double(16, 0x1_0000);
    Pow2Double(32, 0x1_0000_0000);
  }

  /** `uint(2) << (n - 1)` on a 64-bit machine. */
  function Shift(n: nat): nat {
    Wrap64(Pow2(n))
  }

  /** The shift is a power of two below 64 closings, and zero from there on. */
  lemma ShiftValue(n: nat)
    ensures Shift(n) == if n < 64 then Pow2(n) else 0
  {
    Pow2Of64();
    if n < 64 {
      Pow2Split(n, 64 - n);
      SmallFactor(Pow2(n), Pow2(63 - n));
    } else {
      Pow2Split(64, n - 64);
      WrapMultiple(Pow2(n - 64));
    }
  }

  lemma SmallFactor(p: nat, q: nat)
    requires p > 0 && q > 0
    ensures p < p * (2 * q)
  {
    assert p * (2 * q) == p + p * (2 * q - 1);
    assert p * (2 * q - 1) >= p * 1 by { MulMonotone(p, 1, 2 * q - 1); }
  }

  lemma MulMonotone(p: nat, x: nat, y: nat)
    requires x <= y
    ensures p * x <= p * y
  {
  }

  lemma WrapMultiple(k: nat)
    ensures Wrap64(U64 * k) == 0
  {
  }

  /** The series the rate sums: amount/2^i for i < n. */
  ghost function Halvings(amount: real, n: nat): real {
    if n == 0 then 0.0 else Halvings(amount, n - 1) + amount / Pow2(n - 1) as real
  }

  /** The code's expression for it, with p standing for the shifted two. */
  function Series(amount: real, p: nat): real
    requires p > 0
  {
    2.0 * amount - 2.0 * amount / p as real
  }

  /** The shift expression of the code is the sum of the series. */
  lemma {:induction false} ClosedForm(amount: real, n: nat)
    ensures Halvings(amount, n) == Series(amount, Pow2(n))
  {
    if n > 0 {
      ClosedForm(amount, n - 1);
      var p := Pow2(n - 1) as real;
      assert Pow2(n) as real == 2.0 * p;
      HalfStep(amount, p);
    }
  }

  lemma HalfStep(amount: real, p: real)
    requires p > 0.0
    ensures 2.0 * amount / p - amount / p == 2.0 * amount / (2.0 * p)
  {
    assert 2.0 * amount / p == 2.0 * (amount / p);
    assert 2.0 * amount / (2.0 * p) == amount / p;
  }

  /** Multiplication by the cooperative ratio. */
  function Scale(series: real, nCoop: real, n: nat): real
    requires n > 0
  {
    series * nCoop / n as real
  }

  /** The rate before truncation, as a function of the total cost, the cooperative closings and their number. */
  ghost function RateOf(amount: real, coop: nat, n: nat): real
    requires n > 0
  {
    Scale(Halvings(amount, n), coop as real, n)
  }

  ghost function RateExact(events: seq<Closing>): real
    requires events != []
  {
    RateOf(Sum(Cost, events) as real, Sum(Coop, events), |events|)
  }

  lemma {:induction false} HalvingsMonotone(x: real, y: real, n: nat)
    requires x <= y
    ensures Halvings(x, n) <= Halvings(y, n)
  {
    if n > 0 {
      HalvingsMonotone(x, y, n - 1);
      DivMonotone(x, y, Pow2(n - 1) as real);
    }
  }

  lemma DivMonotone(x: real, y: real, p: real)
    requires x <= y && p > 0.0
    ensures x / p <= y / p
  {
    assert y / p - x / p == (y - x) / p;
  }

  lemma ProductMonotone(a: real, b: real, c: real, d: real)
    requires 0.0 <= a <= b && 0.0 <= c <= d
    ensures 0.0 <= a * c <= b * d
  {
    assert a * c <= b * c <= b * d;
  }

  lemma {:induction false} HalvingsNonNegative(x: real, n: nat)
    requires x >= 0.0
    ensures Halvings(x, n) >= 0.0
  {
    if n > 0 {
      HalvingsNonNegative(x, n - 1);
    }
  }

  /** The rate grows with the amount and with the number of cooperative closings. */
  lemma RateMonotone(x: real, y: real, c: nat, d: nat, n: nat)
    requires 0.0 <= x <= y && c <= d && n > 0
    ensures 0.0 <= RateOf(x, c, n) <= RateOf(y, d, n)
  {
    HalvingsNonNegative(x, n);
    HalvingsMonotone(x, y, n);
    ProductMonotone(Halvings(x, n), Halvings(y, n), c as real, d as real);
    DivMonotone(0.0, Halvings(x, n) * c as real, n as real);
    DivMonotone(Halvings(x, n) * c as real, Halvings(y, n) * d as real, n as real);
  }

  lemma FullRatio(h: real, n: nat)
    requires n > 0
    ensures Scale(h, n as real, n) == h
  {
  }

  lemma RateWithin(amount: real, coop: nat, n: nat)
    requires amount >= 0.0 && coop <= n && n > 0
    ensures 0.0 <= RateOf(amount, coop, n) <= 2.0 * amount
  {
    RateMonotone(amount, amount, coop, n, n);
    FullRatio(Halvings(amount, n), n);
    HalvingsAtMostDouble(amount, n);
  }

  lemma HalvingsAtMostDouble(amount: real, n: nat)
    requires amount >= 0.0
    ensures Halvings(amount, n) <= 2.0 * amount
  {
    ClosedForm(amount, n);
    DivMonotone(0.0, 2.0 * amount, Pow2(n) as real);
  }

  /** The rate lies between zero and twice the total cost. */
  lemma RateRange(events: seq<Closing>)
    requires events != []
    ensures 0.0 <= RateExact(events) <= 2.0 * Sum(Cost, events) as real
  {
    CoopAtMostLength(events);
    RateWithin(Sum(Cost, events) as real, Sum(Coop, events), |events|);
  }

  lemma SumUpdate(m: Measure, es: seq<Closing>, j: nat, e: Closing)
    requires j < |es|
    ensures Sum(m, es[j := e]) == Sum(m, es) - Value(m, es[j]) + Value(m, e)
  {
    SumRemove(m, es, j);
    SumRemove(m, es[j := e], j);
    assert es[j := e][..j] + es[j := e][j + 1..] == es[..j] + es[j + 1..];
  }

  /** Raising one closing's cost, or making it cooperative, never lowers the rate. */
  lemma RateRespectsClosing(events: seq<Closing>, j: nat, e: Closing)
    requires j < |events|
    requires e.cost >= events[j].cost && (events[j].coop ==> e.coop)
    ensures RateExact(events) <= RateExact(events[j := e])
  {
    SumUpdate(Cost, events, j, e);
    SumUpdate(Coop, events, j, e);
    RateMonotone(Sum(Cost, events) as real, Sum(Cost, events[j := e]) as real,
                 Sum(Coop, events), Sum(Coop, events[j := e]), |events|);
  }

  /** Conversion of a float to uint64: truncation in range, the platform's own value otherwise. */
  function ToUint64(x: real, platform: nat): nat {
    if 0.0 <= x < U64 as real then x.Floor else platform
  }

  /** The initial rate. From 64 closings on the shift is zero and the division yields no finite float. */
  ghost function InitialRateOf(events: seq<Closing>, platform: nat): nat {
    if events == [] then 0
    else if |events| < 64 then ToUint64(RateExact(events), platform)
    else platform
  }

  /** Two closings, written out: one and a half times their cost, times the cooperative ratio, rounded down. */
  lemma TwoClosingsRate(e: Closing, f: Closing, platform: nat)
    requires 3 * (e.cost + f.cost) < 2 * U64
    ensures var coops := (if e.coop then 1 else 0) + (if f.coop then 1 else 0);
            var rate := InitialRateOf([e, f], platform) as real;
            rate <= 0.75 * (e.cost + f.cost) as real * coops as real < rate + 1.0
  {
    var n := e.cost + f.cost;
    assert [e, f] == [] + [e] + [f];
    SumAppend(Cost, [], e);
    SumAppend(Cost, [] + [e], f);
    SumAppend(Coop, [], e);
    SumAppend(Coop, [] + [e], f);
    assert Sum(Cost, [e, f]) == n && Sum(Coop, [e, f]) == (if e.coop then 1 else 0) + (if f.coop then 1 else 0);
    assert Pow2(1) == 2 && Pow2(0) == 1;
    assert Halvings(n as real, 1) == n as real;
    assert Halvings(n as real, 2) == 1.5 * n as real;
    assert 1.5 * n as real < U64 as real;
  }

  /** The accumulating loop: total cost and number of cooperative closings. */
  method Accumulate(events: seq<Closing>) returns (amount: real, nCoop: real)
    ensures amount == Sum(Cost, events) as real && nCoop == Sum(Coop, events) as real
  {
    amount, nCoop := 0.0, 0.0;
    for i := 0 to |events|
      invariant amount == Sum(Cost, events[..i]) as real
      invariant nCoop == Sum(Coop, events[..i]) as real
    {
      assert events[..i + 1] == events[..i] + [events[i]];
      SumAppend(Cost, events[..i], events[i]);
      SumAppend(Coop, events[..i], events[i]);
      amount := amount + events[i].cost as real;
      if events[i].coop {
        nCoop := nCoop + 1.0;
      }
    }
    assert events[..|events|] == events;
  }

  method GetInitialRate(events: seq<Closing>, platform: nat) returns (rate: nat)
    ensures rate == InitialRateOf(events, platform)
  {
    if |events| == 0 {
      return 0;
    }
    var amount, nCoop := Accumulate(events);
    var shift := Shift(|events|);
    ShiftValue(|events|);
    if shift == 0 {
      return platform;
    }
    ClosedForm(amount, |events|);
    rate := ToUint64(Scale(Series(amount, shift), nCoop, |events|), platform);
  }

  /** The initial rate does not see the order of an address's closings. */
  lemma InitialRateUnordered(xs: seq<Closing>, ys: seq<Closing>, platform: nat)
    requires multiset(xs) == multiset(ys)
    ensures InitialRateOf(xs, platform) == InitialRateOf(ys, platform)
  {
    SumPermutation(Cost, xs, ys);
    SumPermutation(Coop, xs, ys);
    assert |xs| == |multiset(xs)| == |multiset(ys)| == |ys|;
  }
}
