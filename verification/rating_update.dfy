/** Recomputing the ratings table, and its independence of the order of the closings query. */
module RatingUpdate {
  import opened Machine
  import opened RatingSums
  import opened InitialRate
  import opened Rating

  /** Dangling addresses, those listed once, get no initial rating. */
  ghost function InitialRatings(events: seq<Closing>, platform: nat): map<Address, nat> {
    map a | a in Addresses(events) && Degree(events, a) > 1 :: InitialRateOf(Links(events, a), platform)
  }

  /** What the ratings table holds after an update. */
  ghost function FinalRatings(events: seq<Closing>, steps: nat, platform: nat): map<Address, nat> {
    Iterate(events, steps, InitialRatings(events, platform))
  }

  /** The addresses that get an initial rating are those at two or more ends of closings. */
  lemma RatedAddresses(events: seq<Closing>, platform: nat, a: Address)
    ensures a in InitialRatings(events, platform) <==> Ends(events, a) >= 2
  {
    DegreeIsEnds(events, a);
    LinksProperties(events, a);
  }

  method RateAddresses(byAddr: map<Address, seq<Closing>>, platform: nat, ghost events: seq<Closing>)
    returns (rating: RatingMap)
    requires IsGrouped(byAddr, events)
    ensures fresh(rating) && rating.vals == InitialRatings(events, platform)
  {
    rating := new RatingMap();
    var rest := byAddr.Keys;
    while rest != {}
      invariant fresh(rating) && rest <= byAddr.Keys
      invariant rating.vals.Keys <= byAddr.Keys - rest
      invariant forall a :: a in byAddr.Keys - rest ==>
                  && (a in rating.vals <==> Degree(events, a) > 1)
                  && (a in rating.vals ==> rating.vals[a] == InitialRateOf(Links(events, a), platform))
      decreases rest
    {
      var addr :| addr in rest;
      rest := rest - {addr};
      assert ListAt(byAddr, addr) == Links(events, addr);
      if |byAddr[addr]| <= 1 {
        continue;
      }
      var rate := GetInitialRate(byAddr[addr], platform);
      rating.vals := rating.vals[addr := rate];
    }
  }

  /** The ratings table. */
  class RatingsTable {
    var rows: map<Address, nat>

    constructor ()
      ensures rows == map[]
    {
      rows := map[];
    }

    /** Group, rate, iterate, then replace every row of the table. */
    method UpdateRatings(events: seq<Closing>, rankSteps: nat, platform: nat)
      modifies this
      ensures rows == FinalRatings(events, rankSteps, platform)
    {
      var byAddr := GroupByAddress(events);
      var rating := RateAddresses(byAddr, platform, events);
      var result := RankLoop(byAddr, rating, rankSteps, events);
      rows := result.vals;
    }
  }

  // ---- independence of the order of the events ----

  lemma {:induction false} LinksCount(events: seq<Closing>, a: Address, e: Closing)
    ensures var c := multiset(events)[e];
            multiset(Links(events, a))[e] == (if e.agent == a then c else 0) + (if e.client == a then c else 0)
  {
    if events != [] {
      var n := |events| - 1;
      LinksCount(events[..n], a, e);
      assert events == events[..n] + [events[n]];
      WithEndsCount(Links(events[..n], a), events[n], a, e);
    }
  }

  lemma WithEndsCount(ls: seq<Closing>, x: Closing, a: Address, e: Closing)
    ensures multiset(WithEnds(ls, x, a))[e] == multiset(ls)[e]
              + (if x == e && x.agent == a then 1 else 0) + (if x == e && x.client == a then 1 else 0)
  {
  }

  lemma LinksUnordered(xs: seq<Closing>, ys: seq<Closing>, a: Address)
    requires multiset(xs) == multiset(ys)
    ensures multiset(Links(xs, a)) == multiset(Links(ys, a))
    ensures Degree(xs, a) == Degree(ys, a)
  {
    forall e ensures multiset(Links(xs, a))[e] == multiset(Links(ys, a))[e] {
      LinksCount(xs, a, e);
      LinksCount(ys, a, e);
    }
    assert Degree(xs, a) == |multiset(Links(xs, a))|;
    assert Degree(ys, a) == |multiset(Links(ys, a))|;
  }

  lemma AddressesUnordered(xs: seq<Closing>, ys: seq<Closing>)
    requires multiset(xs) == multiset(ys)
    ensures Addresses(xs) == Addresses(ys)
  {
    forall a ensures a in Addresses(xs) <==> a in Addresses(ys) {
      LinksProperties(xs, a);
      LinksProperties(ys, a);
      LinksUnordered(xs, ys, a);
    }
  }

  lemma InitialUnordered(xs: seq<Closing>, ys: seq<Closing>, platform: nat)
    requires multiset(xs) == multiset(ys)
    ensures InitialRatings(xs, platform) == InitialRatings(ys, platform)
  {
    AddressesUnordered(xs, ys);
    forall a ensures Degree(xs, a) == Degree(ys, a)
                  && InitialRateOf(Links(xs, a), platform) == InitialRateOf(Links(ys, a), platform)
    {
      LinksUnordered(xs, ys, a);
      InitialRateUnordered(Links(xs, a), Links(ys, a), platform);
    }
  }

  lemma SharesUnordered(xs: seq<Closing>, ys: seq<Closing>, from: map<Address, nat>)
    requires multiset(xs) == multiset(ys)
    ensures Shares(xs, from) == Shares(ys, from)
  {
    AddressesUnordered(xs, ys);
    forall b ensures Degree(xs, b) == Degree(ys, b) {
      LinksUnordered(xs, ys, b);
    }
  }

  lemma CollectedUnordered(xs: seq<Closing>, ys: seq<Closing>, from: map<Address, nat>, a: Address)
    requires multiset(xs) == multiset(ys)
    ensures CollectedWrapping(xs, from, a) == CollectedWrapping(ys, from, a)
  {
    SharesUnordered(xs, ys, from);
    LinksUnordered(xs, ys, a);
    WrapSumUnordered(Inflow(a, Shares(xs, from)), Links(xs, a), Links(ys, a));
  }

  lemma WrapSumUnordered(m: Measure, xs: seq<Closing>, ys: seq<Closing>)
    requires multiset(xs) == multiset(ys)
    ensures WrapSum(m, xs, |xs|) == WrapSum(m, ys, |ys|)
  {
    SumPermutation(m, xs, ys);
    WrapSumIsWrapped(m, xs, |xs|);
    WrapSumIsWrapped(m, ys, |ys|);
    assert xs[..|xs|] == xs && ys[..|ys|] == ys;
  }

  lemma StepUnordered(xs: seq<Closing>, ys: seq<Closing>, from: map<Address, nat>)
    requires multiset(xs) == multiset(ys)
    ensures Step(xs, from) == Step(ys, from)
  {
    AddressesUnordered(xs, ys);
    forall a ensures CollectedWrapping(xs, from, a) == CollectedWrapping(ys, from, a) {
      CollectedUnordered(xs, ys, from, a);
    }
  }

  lemma {:induction false} RepeatAgrees<T(!new)>(f: T -> T, g: T -> T, k: nat, x: T)
    requires forall y :: f(y) == g(y)
    ensures Repeat(f, k, x) == Repeat(g, k, x)
  {
    if k > 0 {
      RepeatAgrees(f, g, k - 1, f(x));
    }
  }

  /** An address's initial rating is the rate of its closings: any list that has every closing of the query as
      often as the address is one of its ends. */
  lemma RatedByClosings(events: seq<Closing>, platform: nat, a: Address, own: seq<Closing>)
    requires a in InitialRatings(events, platform)
    requires forall e :: multiset(own)[e] ==
               (if e.agent == a then multiset(events)[e] else 0) + (if e.client == a then multiset(events)[e] else 0)
    ensures InitialRatings(events, platform)[a] == InitialRateOf(own, platform)
  {
    forall e ensures multiset(own)[e] == multiset(Links(events, a))[e] {
      LinksCount(events, a, e);
    }
    assert multiset(own) == multiset(Links(events, a));
    InitialRateUnordered(own, Links(events, a), platform);
  }

  /** The unordered result of the closings query: any permutation gives the same ratings table. */
  lemma RatingsUnordered(xs: seq<Closing>, ys: seq<Closing>, steps: nat, platform: nat)
    requires multiset(xs) == multiset(ys)
    ensures InitialRatings(xs, platform) == InitialRatings(ys, platform)
    ensures FinalRatings(xs, steps, platform) == FinalRatings(ys, steps, platform)
  {
    InitialUnordered(xs, ys, platform);
    forall m ensures StepOf(xs)(m) == StepOf(ys)(m) {
      StepUnordered(xs, ys, m);
    }
    RepeatAgrees(StepOf(xs), StepOf(ys), steps, InitialRatings(xs, platform));
  }
}
