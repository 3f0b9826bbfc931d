/** Finite sums: over a set of addresses, and over a list of closings. */
module RatingSums {
  import opened Machine

  /** An Ethereum address in hexadecimal form. */
  datatype Address = Address(hex: string)

  /** One row of the closings query: agent, client, type and SUM(cost). */
  datatype Closing = Closing(agent: Address, client: Address, coop: bool, cost: nat)

  /** A Go map read: a missing key yields zero. */
  function Read(m: map<Address, nat>, a: Address): nat {
    if a in m then m[a] else 0
  }

  ghost function Total(s: set<Address>, m: map<Address, nat>): nat {
    if s == {} then 0 else
      var a :| a in s;
      Read(m, a) + Total(s - {a}, m)
  }

  lemma {:induction false} TotalSplit(s: set<Address>, m: map<Address, nat>, a: Address)
    requires a in s
    ensures Total(s, m) == Read(m, a) + Total(s - {a}, m)
    decreases s
  {
    var b :| b in s && Total(s, m) == Read(m, b) + Total(s - {b}, m);
    if a != b {
      TotalSplit(s - {b}, m, a);
      TotalSplit(s - {a}, m, b);
      assert s - {a} - {b} == s - {b} - {a};
    }
  }

  /** The sum is additive in the map: what is added pointwise is added to the total. */
  lemma {:induction false} TotalAdditive(s: set<Address>, m: map<Address, nat>,
                                         n: map<Address, nat>, p: map<Address, nat>)
    requires forall a :: a in s ==> Read(p, a) == Read(m, a) + Read(n, a)
    ensures Total(s, p) == Total(s, m) + Total(s, n)
    decreases s
  {
    if s != {} {
      var a :| a in s;
      TotalSplit(s, m, a);
      TotalSplit(s, n, a);
      TotalSplit(s, p, a);
      TotalAdditive(s - {a}, m, n, p);
    }
  }

  lemma {:induction false} TotalMonotone(s: set<Address>, m: map<Address, nat>, n: map<Address, nat>)
    requires forall a :: a in s ==> Read(m, a) <= Read(n, a)
    ensures Total(s, m) <= Total(s, n)
    decreases s
  {
    if s != {} {
      var a :| a in s;
      TotalSplit(s, m, a);
      TotalSplit(s, n, a);
      TotalMonotone(s - {a}, m, n);
    }
  }

  /** Two maps that differ at one key only. */
  lemma {:induction false} TotalSingle(s: set<Address>, x: Address, v: nat)
    ensures Total(s, map[x := v]) == if x in s then v else 0
    decreases s
  {
    var m := map[x := v];
    if s != {} {
      var a :| a in s;
      TotalSplit(s, m, a);
      TotalSingle(s - {a}, x, v);
    }
  }

  /** Adding v at x and u at y, where x and y may be the same key, adds both to the total. */
  lemma TotalPlusTwo(s: set<Address>, m: map<Address, nat>, p: map<Address, nat>,
                     x: Address, y: Address, v: nat, u: nat)
    requires x in s && y in s
    requires forall a :: a in s ==> Read(p, a) == Read(m, a) + Read(map[x := v], a) + Read(map[y := u], a)
    ensures Total(s, p) == Total(s, m) + v + u
  {
    var mid := map a | a in s :: Read(m, a) + Read(map[x := v], a);
    TotalAdditive(s, m, map[x := v], mid);
    TotalAdditive(s, mid, map[y := u], p);
    TotalSingle(s, x, v);
    TotalSingle(s, y, u);
  }

  lemma {:induction false} TotalConst(s: set<Address>, m: map<Address, nat>, c: nat)
    requires forall a :: a in s ==> Read(m, a) == c
    ensures Total(s, m) == c * |s|
    decreases s
  {
    if s != {} {
      var a :| a in s;
      TotalSplit(s, m, a);
      TotalConst(s - {a}, m, c);
    }
  }

  lemma ReadAtMostTotal(s: set<Address>, m: map<Address, nat>, a: Address)
    requires a in s
    ensures Read(m, a) <= Total(s, m)
  {
    TotalSplit(s, m, a);
  }

  // ---- sums over lists of closings ----

  /** What a rating computation adds up over a list of closings. */
  datatype Measure =
    | Cost                                              // the closing's cost
    | Coop                                              // one for a cooperative closing
    | Inflow(owner: Address, shares: map<Address, nat>)  // the share the closing's other end sends to owner
    | Outflow(owner: Address, shares: map<Address, nat>) // the share owner sends to the other end

  /** The far end of a closing as the rank loop picks it: the agent, unless that is the owner itself. */
  function OtherEnd(owner: Address, e: Closing): Address {
    if owner == e.agent then e.client else e.agent
  }

  function Value(m: Measure, e: Closing): nat {
    match m
    case Cost => e.cost
    case Coop => if e.coop then 1 else 0
    case Inflow(owner, shares) => Read(shares, OtherEnd(owner, e))
    case Outflow(owner, shares) => Read(shares, owner)
  }

  function Sum(m: Measure, es: seq<Closing>): nat {
    if es == [] then 0 else Sum(m, es[..|es| - 1]) + Value(m, es[|es| - 1])
  }

  /** The sum of the first i values as a uint64 accumulator holds it: wrapped at every addition. */
  function WrapSum(m: Measure, es: seq<Closing>, i: nat): nat
    requires i <= |es|
  {
    if i == 0 then 0 else Wrap64(WrapSum(m, es, i - 1) + Value(m, es[i - 1]))
  }

  /** Wrapping at every addition is wrapping once at the end. */
  lemma {:induction false} WrapSumIsWrapped(m: Measure, es: seq<Closing>, i: nat)
    requires i <= |es|
    ensures WrapSum(m, es, i) == Wrap64(Sum(m, es[..i]))
  {
    if i > 0 {
      WrapSumIsWrapped(m, es, i - 1);
      WrapAdd(Sum(m, es[..i - 1]), Value(m, es[i - 1]));
      assert es[..i] == es[..i - 1] + [es[i - 1]];
      SumAppend(m, es[..i - 1], es[i - 1]);
    }
  }

  lemma WrapAdd(x: nat, y: nat)
    ensures Wrap64(Wrap64(x) + y) == Wrap64(x + y)
  {
  }

  lemma SumAppend(m: Measure, es: seq<Closing>, e: Closing)
    ensures Sum(m, es + [e]) == Sum(m, es) + Value(m, e)
  {
    assert (es + [e])[..|es|] == es;
  }

  lemma {:induction false} SumRemove(m: Measure, es: seq<Closing>, j: nat)
    requires j < |es|
    ensures Sum(m, es) == Sum(m, es[..j] + es[j + 1..]) + Value(m, es[j])
  {
    var n := |es| - 1;
    if j == n {
      assert es[..j] + es[j + 1..] == es[..n];
    } else {
      SumRemove(m, es[..n], j);
      assert es[..n][..j] + es[..n][j + 1..] == (es[..j] + es[j + 1..])[..n - 1];
      assert (es[..j] + es[j + 1..])[n - 1] == es[n];
    }
  }

  lemma {:induction false} SumPrefixMonotone(m: Measure, es: seq<Closing>, j: nat)
    requires j <= |es|
    ensures Sum(m, es[..j]) <= Sum(m, es)
  {
    if j < |es| {
      var n := |es| - 1;
      SumPrefixMonotone(m, es[..n], j);
      assert es[..n][..j] == es[..j];
    } else {
      assert es[..j] == es;
    }
  }

  lemma MultisetRemove<T>(ys: seq<T>, j: nat)
    requires j < |ys|
    ensures multiset(ys) == multiset(ys[..j] + ys[j + 1..]) + multiset{ys[j]}
  {
    assert ys == ys[..j] + [ys[j]] + ys[j + 1..];
  }

  /** A permutation of a non-empty list has its last element somewhere, and stays one without it. */
  lemma PermutationRest<T>(xs: seq<T>, ys: seq<T>) returns (j: nat)
    requires multiset(xs) == multiset(ys) && xs != []
    ensures j < |ys| && ys[j] == xs[|xs| - 1]
    ensures multiset(xs[..|xs| - 1]) == multiset(ys[..j] + ys[j + 1..])
  {
    var n := |xs| - 1;
    var x := xs[n];
    assert x in multiset(xs) && x in multiset(ys);
    j :| 0 <= j < |ys| && ys[j] == x;
    MultisetRemove(ys, j);
    assert xs == xs[..n] + [x];
    assert multiset(xs) == multiset(xs[..n]) + multiset{x};
    assert multiset(xs[..n]) == multiset(xs) - multiset{x};
    assert multiset(ys[..j] + ys[j + 1..]) == multiset(ys) - multiset{x};
  }

  /** A sum does not see the order of the list. */
  lemma {:induction false} SumPermutation(m: Measure, xs: seq<Closing>, ys: seq<Closing>)
    requires multiset(xs) == multiset(ys)
    ensures Sum(m, xs) == Sum(m, ys)
    decreases |xs|
  {
    if xs == [] {
      assert |multiset(ys)| == 0;
    } else {
      var j := PermutationRest(xs, ys);
      SumRemove(m, ys, j);
      SumPermutation(m, xs[..|xs| - 1], ys[..j] + ys[j + 1..]);
    }
  }

  lemma {:induction false} CoopAtMostLength(es: seq<Closing>)
    ensures Sum(Coop, es) <= |es|
  {
    if es != [] {
      CoopAtMostLength(es[..|es| - 1]);
    }
  }

  lemma {:induction false} OutflowProduct(owner: Address, shares: map<Address, nat>, es: seq<Closing>)
    ensures Sum(Outflow(owner, shares), es) == |es| * Read(shares, owner)
  {
    if es != [] {
      OutflowProduct(owner, shares, es[..|es| - 1]);
      assert |es| * Read(shares, owner) == (|es| - 1) * Read(shares, owner) + Read(shares, owner);
    }
  }
}
