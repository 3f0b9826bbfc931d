/** Account rating: an integer PageRank over the multigraph of channel closings. */
module Rating {
  import opened Machine
  import opened RatingSums

  // ---- the multigraph of closings ----

  function Addresses(events: seq<Closing>): set<Address> {
    (set e | e in events :: e.agent) + (set e | e in events :: e.client)
  }

  /** A closing is listed under its agent, then under its client: a self-deal twice under one address. */
  function WithEnds(ls: seq<Closing>, e: Closing, a: Address): seq<Closing> {
    var first := if e.agent == a then ls + [e] else ls;
    if e.client == a then first + [e] else first
  }

  /** The adjacency list of an address, in event order. */
  function Links(events: seq<Closing>, a: Address): seq<Closing> {
    if events == [] then [] else WithEnds(Links(events[..|events| - 1], a), events[|events| - 1], a)
  }

  function Degree(events: seq<Closing>, a: Address): nat {
    |Links(events, a)|
  }

  function ListAt(m: map<Address, seq<Closing>>, a: Address): seq<Closing> {
    if a in m then m[a] else []
  }

  ghost predicate IsGrouped(byAddr: map<Address, seq<Closing>>, events: seq<Closing>) {
    && byAddr.Keys == Addresses(events)
    && forall a :: ListAt(byAddr, a) == Links(events, a)
  }

  lemma AddressesStep(events: seq<Closing>)
    requires events != []
    ensures var e := events[|events| - 1];
            Addresses(events) == Addresses(events[..|events| - 1]) + {e.agent, e.client}
  {
    var n := |events| - 1;
    assert events == events[..n] + [events[n]];
  }

  lemma {:induction false} LinksProperties(events: seq<Closing>, a: Address)
    ensures a in Addresses(events) <==> Degree(events, a) > 0
    ensures forall e :: e in Links(events, a) ==> e in events && (e.agent == a || e.client == a)
  {
    if events != [] {
      LinksProperties(events[..|events| - 1], a);
      AddressesStep(events);
    }
  }

  function Appended(byAddr: map<Address, seq<Closing>>, a: Address, e: Closing): map<Address, seq<Closing>> {
    byAddr[a := ListAt(byAddr, a) + [e]]
  }

  lemma ListAppended(byAddr: map<Address, seq<Closing>>, e: Closing, a: Address)
    ensures ListAt(Appended(Appended(byAddr, e.agent, e), e.client, e), a) == WithEnds(ListAt(byAddr, a), e, a)
  {
  }

  lemma LinksAppend(events: seq<Closing>, e: Closing, a: Address)
    ensures Links(events + [e], a) == WithEnds(Links(events, a), e, a)
  {
    assert (events + [e])[..|events|] == events;
  }

  lemma AddressesAppend(events: seq<Closing>, e: Closing)
    ensures Addresses(events + [e]) == Addresses(events) + {e.agent, e.client}
  {
    AddressesStep(events + [e]);
    assert (events + [e])[..|events|] == events;
  }

  lemma GroupStep(byAddr: map<Address, seq<Closing>>, events: seq<Closing>, e: Closing)
    requires IsGrouped(byAddr, events)
    ensures IsGrouped(Appended(Appended(byAddr, e.agent, e), e.client, e), events + [e])
  {
    AddressesAppend(events, e);
    forall a
      ensures ListAt(Appended(Appended(byAddr, e.agent, e), e.client, e), a) == Links(events + [e], a)
    {
      ListAppended(byAddr, e, a);
      LinksAppend(events, e, a);
      assert ListAt(byAddr, a) == Links(events, a);
    }
  }

  method GroupByAddress(events: seq<Closing>) returns (byAddr: map<Address, seq<Closing>>)
    ensures IsGrouped(byAddr, events)
  {
    byAddr := map[];
    for i := 0 to |events|
      invariant IsGrouped(byAddr, events[..i])
    {
      var e := events[i];
      GroupStep(byAddr, events[..i], e);
      byAddr := byAddr[e.agent := ListAt(byAddr, e.agent) + [e]];
      byAddr := byAddr[e.client := ListAt(byAddr, e.client) + [e]];
      assert events[..i + 1] == events[..i] + [e];
    }
    assert events[..|events|] == events;
  }

  // ---- one rank step ----

  /** Division at an address; an address without links is never divided for (DivisorsPositive). */
  function Quotient(x: nat, d: nat): nat {
    if d == 0 then 0 else x / d
  }

  function Residue(x: nat, d: nat): nat {
    if d == 0 then x else x % d
  }

  lemma DivMod(x: nat, d: nat)
    ensures x == d * Quotient(x, d) + Residue(x, d)
  {
  }

  /** What an address sends along each of its links. */
  function Shares(events: seq<Closing>, from: map<Address, nat>): map<Address, nat> {
    map b | b in Addresses(events) :: Quotient(Read(from, b), Degree(events, b))
  }

  /** What an address collects: the shares of the far ends of its links. */
  function Collected(events: seq<Closing>, from: map<Address, nat>, a: Address): nat {
    Sum(Inflow(a, Shares(events, from)), Links(events, a))
  }

  /** The same in wrapping uint64 arithmetic. */
  function CollectedWrapping(events: seq<Closing>, from: map<Address, nat>, a: Address): nat {
    WrapSum(Inflow(a, Shares(events, from)), Links(events, a), Degree(events, a))
  }

  /** One step over the integers. */
  function ExactStep(events: seq<Closing>, from: map<Address, nat>): map<Address, nat> {
    map a | a in Addresses(events) :: Collected(events, from, a)
  }

  /** One step as the machine computes it. */
  function Step(events: seq<Closing>, from: map<Address, nat>): map<Address, nat> {
    map a | a in Addresses(events) :: CollectedWrapping(events, from, a)
  }

  function Repeat<T>(f: T -> T, k: nat, x: T): T {
    if k == 0 then x else Repeat(f, k - 1, f(x))
  }

  function StepOf(events: seq<Closing>): map<Address, nat> -> map<Address, nat> {
    from => Step(events, from)
  }

  /** The rank loop's meaning: the step applied k times. */
  function Iterate(events: seq<Closing>, steps: nat, initial: map<Address, nat>): map<Address, nat> {
    Repeat(StepOf(events), steps, initial)
  }

  lemma {:induction false} RepeatOnce<T>(f: T -> T, k: nat, x: T)
    ensures Repeat(f, k + 1, x) == f(Repeat(f, k, x))
  {
    if k > 0 {
      RepeatOnce(f, k - 1, f(x));
    }
  }

  /** No step keeps the ratings, and each further one applies the step once more. */
  lemma IterateSteps(events: seq<Closing>, k: nat, initial: map<Address, nat>)
    ensures Iterate(events, 0, initial) == initial
    ensures Iterate(events, k + 1, initial) == Step(events, Iterate(events, k, initial))
  {
    RepeatOnce(StepOf(events), k, initial);
  }

  // ---- double counting ----

  /** The mass crossing the edges: each closing carries the share of either end. */
  ghost function EdgeFlow(events: seq<Closing>, w: map<Address, nat>): nat {
    if events == [] then 0 else
      var e := events[|events| - 1];
      EdgeFlow(events[..|events| - 1], w) + Read(w, e.agent) + Read(w, e.client)
  }

  function InflowMap(s: set<Address>, events: seq<Closing>, w: map<Address, nat>): map<Address, nat> {
    map a | a in s :: Sum(Inflow(a, w), Links(events, a))
  }

  function OutflowMap(s: set<Address>, events: seq<Closing>, w: map<Address, nat>): map<Address, nat> {
    map b | b in s :: Sum(Outflow(b, w), Links(events, b))
  }

  lemma SumWithEnds(m: Measure, ls: seq<Closing>, e: Closing, a: Address)
    ensures Sum(m, WithEnds(ls, e, a)) == Sum(m, ls)
              + (if e.agent == a then Value(m, e) else 0) + (if e.client == a then Value(m, e) else 0)
  {
    SumAppend(m, ls, e);
    SumAppend(m, ls + [e], e);
  }

  lemma {:induction false} InflowTotal(s: set<Address>, events: seq<Closing>, w: map<Address, nat>)
    requires Addresses(events) <= s
    ensures Total(s, InflowMap(s, events, w)) == EdgeFlow(events, w)
  {
    if events == [] {
      TotalConst(s, InflowMap(s, events, w), 0);
    } else {
      var e, rest := events[|events| - 1], events[..|events| - 1];
      AddressesStep(events);
      InflowTotal(s, rest, w);
      var atAgent := map[e.agent := Read(w, e.client)];
      var atClient := map[e.client := Read(w, e.agent)];
      forall a | a in s
        ensures Read(InflowMap(s, events, w), a)
             == Read(InflowMap(s, rest, w), a) + Read(atAgent, a) + Read(atClient, a)
      {
        SumWithEnds(Inflow(a, w), Links(rest, a), e, a);
      }
      TotalPlusTwo(s, InflowMap(s, rest, w), InflowMap(s, events, w), e.agent, e.client,
                   Read(w, e.client), Read(w, e.agent));
    }
  }

  lemma {:induction false} OutflowTotal(s: set<Address>, events: seq<Closing>, w: map<Address, nat>)
    requires Addresses(events) <= s
    ensures Total(s, OutflowMap(s, events, w)) == EdgeFlow(events, w)
  {
    if events == [] {
      TotalConst(s, OutflowMap(s, events, w), 0);
    } else {
      var e, rest := events[|events| - 1], events[..|events| - 1];
      AddressesStep(events);
      OutflowTotal(s, rest, w);
      var atAgent := map[e.agent := Read(w, e.agent)];
      var atClient := map[e.client := Read(w, e.client)];
      forall b | b in s
        ensures Read(OutflowMap(s, events, w), b)
             == Read(OutflowMap(s, rest, w), b) + Read(atAgent, b) + Read(atClient, b)
      {
        SumWithEnds(Outflow(b, w), Links(rest, b), e, b);
      }
      TotalPlusTwo(s, OutflowMap(s, rest, w), OutflowMap(s, events, w), e.agent, e.client,
                   Read(w, e.agent), Read(w, e.client));
    }
  }

  /** What integer division loses at an address. */
  function Residues(events: seq<Closing>, from: map<Address, nat>): map<Address, nat> {
    map b | b in Addresses(events) :: Residue(Read(from, b), Degree(events, b))
  }

  /** An address's rating is what it sends plus its residue. */
  lemma SentPlusResidue(events: seq<Closing>, from: map<Address, nat>, b: Address)
    requires b in Addresses(events)
    ensures Read(from, b) == Sum(Outflow(b, Shares(events, from)), Links(events, b))
                             + Read(Residues(events, from), b)
  {
    OutflowProduct(b, Shares(events, from), Links(events, b));
    DivMod(Read(from, b), Degree(events, b));
  }

  /** Conservation law: a rank step keeps the total mass but for the residues of the divisions. */
  lemma MassConserved(events: seq<Closing>, from: map<Address, nat>)
    ensures var s := Addresses(events);
            Total(s, ExactStep(events, from)) + Total(s, Residues(events, from)) == Total(s, from)
  {
    var s := Addresses(events);
    var w := Shares(events, from);
    assert ExactStep(events, from) == InflowMap(s, events, w);
    InflowTotal(s, events, w);
    OutflowTotal(s, events, w);
    forall b | b in s
      ensures Read(from, b) == Read(OutflowMap(s, events, w), b) + Read(Residues(events, from), b)
    {
      SentPlusResidue(events, from, b);
    }
    TotalAdditive(s, OutflowMap(s, events, w), Residues(events, from), from);
  }

  function DegreeMap(s: set<Address>, events: seq<Closing>): map<Address, nat> {
    map b | b in s :: Degree(events, b)
  }

  function Ones(s: set<Address>): map<Address, nat> {
    map b | b in s :: 1
  }

  /** Handshake: the adjacency lists hold every closing twice. */
  lemma DegreeTotal(events: seq<Closing>)
    ensures var s := Addresses(events);
            Total(s, DegreeMap(s, events)) == 2 * |events|
  {
    var s := Addresses(events);
    var ones := Ones(s);
    forall b | b in s ensures OutflowMap(s, events, ones)[b] == DegreeMap(s, events)[b] {
      OutflowProduct(b, ones, Links(events, b));
    }
    assert OutflowMap(s, events, ones) == DegreeMap(s, events);
    OutflowTotal(s, events, ones);
    OnesFlow(events, ones);
  }

  lemma {:induction false} OnesFlow(events: seq<Closing>, ones: map<Address, nat>)
    requires forall a :: a in Addresses(events) ==> Read(ones, a) == 1
    ensures EdgeFlow(events, ones) == 2 * |events|
  {
    if events != [] {
      AddressesStep(events);
      OnesFlow(events[..|events| - 1], ones);
    }
  }

  /** A step loses at most one unit per list entry beyond an address's first. */
  lemma ResidueBound(events: seq<Closing>, from: map<Address, nat>)
    ensures Total(Addresses(events), Residues(events, from)) + |Addresses(events)| <= 2 * |events|
  {
    var s := Addresses(events);
    var degrees := DegreeMap(s, events);
    var ones := Ones(s);
    var below := map b | b in s :: Residues(events, from)[b] + 1;
    TotalAdditive(s, Residues(events, from), ones, below);
    TotalConst(s, ones, 1);
    forall b | b in s ensures Read(below, b) <= Read(degrees, b) {
      LinksProperties(events, b);
    }
    TotalMonotone(s, below, degrees);
    DegreeTotal(events);
  }

  /** Every divisor met in a rank step is positive. */
  lemma DivisorsPositive(events: seq<Closing>, a: Address, e: Closing)
    requires e in Links(events, a)
    ensures OtherEnd(a, e) in Addresses(events) && Degree(events, OtherEnd(a, e)) > 0
  {
    LinksProperties(events, a);
    LinksProperties(events, OtherEnd(a, e));
  }

  /** While the total fits, no partial sum of any address overflows. */
  lemma NoPartialOverflow(events: seq<Closing>, from: map<Address, nat>, a: Address, j: nat)
    requires Total(Addresses(events), from) < U64
    requires a in Addresses(events) && j <= Degree(events, a)
    ensures Sum(Inflow(a, Shares(events, from)), Links(events, a)[..j]) < U64
  {
    MassConserved(events, from);
    ReadAtMostTotal(Addresses(events), ExactStep(events, from), a);
    SumPrefixMonotone(Inflow(a, Shares(events, from)), Links(events, a), j);
  }

  /** While the total fits, the machine's step is the exact one. */
  lemma MachineStepExact(events: seq<Closing>, from: map<Address, nat>)
    requires Total(Addresses(events), from) < U64
    ensures Step(events, from) == ExactStep(events, from)
  {
    MassConserved(events, from);
    forall a | a in Addresses(events)
      ensures Step(events, from)[a] == ExactStep(events, from)[a]
    {
      var ls := Links(events, a);
      WrapSumIsWrapped(Inflow(a, Shares(events, from)), ls, |ls|);
      assert ls[..|ls|] == ls;
      ReadAtMostTotal(Addresses(events), ExactStep(events, from), a);
    }
  }

  /** The most a single step can lose: one unit per list entry beyond each address's first. */
  function StepLoss(events: seq<Closing>): int {
    2 * |events| - |Addresses(events)|
  }

  /** If the mass of `from` fits a uint64, that of `to` is the same less at most k times d. */
  ghost predicate MassKept(s: set<Address>, from: map<Address, nat>, to: map<Address, nat>, k: nat, d: int) {
    Total(s, from) < U64 ==> Total(s, to) <= Total(s, from) <= Total(s, to) + k * d
  }

  lemma MassChain(s: set<Address>, a: map<Address, nat>, b: map<Address, nat>, c: map<Address, nat>,
                  k: nat, d: int)
    requires MassKept(s, a, b, 1, d) && MassKept(s, b, c, k, d)
    ensures MassKept(s, a, c, k + 1, d)
  {
    assert (k + 1) * d == k * d + d;
  }

  lemma {:induction false} RepeatKeepsMass(f: map<Address, nat> -> map<Address, nat>, s: set<Address>, d: int,
                                           k: nat, m: map<Address, nat>)
    requires forall x :: MassKept(s, x, f(x), 1, d)
    ensures MassKept(s, m, Repeat(f, k, m), k, d)
    decreases k
  {
    if k > 0 {
      RepeatKeepsMass(f, s, d, k - 1, f(m));
      MassChain(s, m, f(m), Repeat(f, k - 1, f(m)), k - 1, d);
    }
  }

  lemma MassOneStep(events: seq<Closing>, from: map<Address, nat>)
    ensures MassKept(Addresses(events), from, Step(events, from), 1, StepLoss(events))
  {
    if Total(Addresses(events), from) < U64 {
      MachineStepExact(events, from);
      MassConserved(events, from);
      ResidueBound(events, from);
    }
  }

  /** After any number of steps the machine's total lies within the rounding loss of the initial one. */
  lemma MassAfterSteps(events: seq<Closing>, steps: nat, initial: map<Address, nat>)
    ensures MassKept(Addresses(events), initial, Iterate(events, steps, initial), steps, StepLoss(events))
  {
    var f := StepOf(events);
    var s := Addresses(events);
    forall x ensures MassKept(s, x, f(x), 1, StepLoss(events)) {
      MassOneStep(events, x);
    }
    RepeatKeepsMass(f, s, StepLoss(events), steps, initial);
  }

  function ExactStepOf(events: seq<Closing>): map<Address, nat> -> map<Address, nat> {
    from => ExactStep(events, from)
  }

  lemma {:induction false} RepeatExact(f: map<Address, nat> -> map<Address, nat>,
                                       g: map<Address, nat> -> map<Address, nat>,
                                       s: set<Address>, k: nat, m: map<Address, nat>)
    requires forall x :: Total(s, x) < U64 ==> f(x) == g(x) && Total(s, f(x)) <= Total(s, x)
    requires Total(s, m) < U64
    ensures Repeat(f, k, m) == Repeat(g, k, m)
    decreases k
  {
    if k > 0 {
      RepeatExact(f, g, s, k - 1, f(m));
    }
  }

  /** If the initial total fits a uint64, no step of the whole run ever wraps: the machine iterates the exact step. */
  lemma RunNeverWraps(events: seq<Closing>, steps: nat, initial: map<Address, nat>)
    requires Total(Addresses(events), initial) < U64
    ensures Iterate(events, steps, initial) == Repeat(ExactStepOf(events), steps, initial)
  {
    var s := Addresses(events);
    var f, g := StepOf(events), ExactStepOf(events);
    forall x | Total(s, x) < U64 ensures f(x) == g(x) && Total(s, f(x)) <= Total(s, x) {
      MachineStepExact(events, x);
      MassConserved(events, x);
    }
    RepeatExact(f, g, s, steps, initial);
  }

  // ---- the step over pairs of addresses ----

  /** How many closings two addresses are the ends of; a self-deal has its address twice at either end. */
  function Meetings(events: seq<Closing>, a: Address, b: Address): nat {
    if events == [] then 0 else
      var e := events[|events| - 1];
      Meetings(events[..|events| - 1], a, b)
        + (if e.agent == a && e.client == b then 1 else 0) + (if e.client == a && e.agent == b then 1 else 0)
  }

  /** How many ends of closings an address is. */
  function Ends(events: seq<Closing>, b: Address): nat {
    if events == [] then 0 else
      var e := events[|events| - 1];
      Ends(events[..|events| - 1], b) + (if e.agent == b then 1 else 0) + (if e.client == b then 1 else 0)
  }

  /** The rank equation: every address b shares its rating out among its ends, and a gets a share for every
      closing it has with b. */
  function RankTerms(s: set<Address>, events: seq<Closing>, from: map<Address, nat>, a: Address): map<Address, nat> {
    map b | b in s :: Meetings(events, a, b) * if Ends(events, b) == 0 then 0 else Read(from, b) / Ends(events, b)
  }

  lemma {:induction false} DegreeIsEnds(events: seq<Closing>, b: Address)
    ensures Degree(events, b) == Ends(events, b)
  {
    if events != [] {
      DegreeIsEnds(events[..|events| - 1], b);
    }
  }

  function MeetingTerms(s: set<Address>, events: seq<Closing>, w: map<Address, nat>, a: Address): map<Address, nat> {
    map b | b in s :: Meetings(events, a, b) * Read(w, b)
  }

  lemma OneMoreMeeting(n: nat, i: nat, j: nat, share: nat)
    ensures (n + i + j) * share == n * share + i * share + j * share
  {
  }

  lemma MeetingTermAt(events: seq<Closing>, w: map<Address, nat>, a: Address, b: Address)
    requires events != []
    ensures var e, rest := events[|events| - 1], events[..|events| - 1];
            Meetings(events, a, b) * Read(w, b) == Meetings(rest, a, b) * Read(w, b)
              + (if e.agent == a && e.client == b then Read(w, b) else 0)
              + (if e.client == a && e.agent == b then Read(w, b) else 0)
  {
    var e, rest := events[|events| - 1], events[..|events| - 1];
    OneMoreMeeting(Meetings(rest, a, b), if e.agent == a && e.client == b then 1 else 0,
                   if e.client == a && e.agent == b then 1 else 0, Read(w, b));
  }

  lemma MeetingTermsStep(s: set<Address>, events: seq<Closing>, w: map<Address, nat>, a: Address)
    requires events != [] && Addresses(events) <= s
    ensures var e, rest := events[|events| - 1], events[..|events| - 1];
            Total(s, MeetingTerms(s, events, w, a)) == Total(s, MeetingTerms(s, rest, w, a))
              + (if e.agent == a then Read(w, e.client) else 0) + (if e.client == a then Read(w, e.agent) else 0)
  {
    var e, rest := events[|events| - 1], events[..|events| - 1];
    AddressesStep(events);
    var v := if e.agent == a then Read(w, e.client) else 0;
    var u := if e.client == a then Read(w, e.agent) else 0;
    var m, p := MeetingTerms(s, rest, w, a), MeetingTerms(s, events, w, a);
    forall b | b in s ensures Read(p, b) == Read(m, b) + Read(map[e.client := v], b) + Read(map[e.agent := u], b) {
      MeetingTermAt(events, w, a, b);
      assert m[b] == Meetings(rest, a, b) * Read(w, b);
    }
    TotalPlusTwo(s, m, p, e.client, e.agent, v, u);
  }

  /** What an address collects along its links is what it gets from every address it met. */
  lemma {:induction false} InflowByMeetings(s: set<Address>, events: seq<Closing>, w: map<Address, nat>, a: Address)
    requires Addresses(events) <= s
    ensures Sum(Inflow(a, w), Links(events, a)) == Total(s, MeetingTerms(s, events, w, a))
  {
    if events == [] {
      TotalConst(s, MeetingTerms(s, events, w, a), 0);
    } else {
      AddressesStep(events);
      InflowByMeetings(s, events[..|events| - 1], w, a);
      MeetingTermsStep(s, events, w, a);
      SumWithEnds(Inflow(a, w), Links(events[..|events| - 1], a), events[|events| - 1], a);
    }
  }

  /** The machine's step is the rank equation, wrapped: for every address, the sum over all addresses of the
      closings both are ends of times the share the other gives to each of its ends. */
  lemma StepIsRankEquation(events: seq<Closing>, from: map<Address, nat>, a: Address)
    requires a in Addresses(events)
    ensures a in Step(events, from)
    ensures Step(events, from)[a] == Wrap64(Total(Addresses(events), RankTerms(Addresses(events), events, from, a)))
  {
    var s := Addresses(events);
    var w, ls := Shares(events, from), Links(events, a);
    WrapSumIsWrapped(Inflow(a, w), ls, |ls|);
    assert ls[..|ls|] == ls;
    InflowByMeetings(s, events, w, a);
    forall b | b in s ensures MeetingTerms(s, events, w, a)[b] == RankTerms(s, events, from, a)[b] {
      DegreeIsEnds(events, b);
    }
    assert MeetingTerms(s, events, w, a) == RankTerms(s, events, from, a);
  }

  // ---- the rank loop with swapped buffers ----

  /** A Go map held by reference. */
  class RatingMap {
    var vals: map<Address, nat>

    constructor ()
      ensures vals == map[]
    {
      vals := map[];
    }
  }

  /** A link the loop can follow: the divisor is positive and the quotient is the share the step means. */
  ghost predicate Follows(byAddr: map<Address, seq<Closing>>, from: map<Address, nat>, addr: Address,
                          m: Measure, e: Closing) {
    var others := |ListAt(byAddr, OtherEnd(addr, e))|;
    others > 0 && Value(m, e) == Read(from, OtherEnd(addr, e)) / others
  }

  lemma LinksFollow(byAddr: map<Address, seq<Closing>>, from: map<Address, nat>, addr: Address,
                    events: seq<Closing>)
    requires IsGrouped(byAddr, events)
    ensures forall e :: e in Links(events, addr) ==>
              Follows(byAddr, from, addr, Inflow(addr, Shares(events, from)), e)
  {
    forall e | e in Links(events, addr)
      ensures Follows(byAddr, from, addr, Inflow(addr, Shares(events, from)), e)
    {
      DivisorsPositive(events, addr, e);
      assert ListAt(byAddr, OtherEnd(addr, e)) == Links(events, OtherEnd(addr, e));
    }
  }

  /** One address of the inner loop: the wrapping sum of the quotients along its links. */
  method Collect(byAddr: map<Address, seq<Closing>>, from: map<Address, nat>, addr: Address,
                 links: seq<Closing>, ghost m: Measure) returns (sum: nat)
    requires forall e :: e in links ==> Follows(byAddr, from, addr, m, e)
    ensures sum == WrapSum(m, links, |links|)
  {
    sum := 0;
    for i := 0 to |links|
      invariant sum == WrapSum(m, links, i)
    {
      var linkedTo := links[i].agent;
      if addr == linkedTo {
        linkedTo := links[i].client;
      }
      assert Follows(byAddr, from, addr, m, links[i]);
      sum := Wrap64(sum + Read(from, linkedTo) / |ListAt(byAddr, linkedTo)|);
    }
  }

  /** One pass over the addresses, in whatever order the map yields them. */
  method RankStep(byAddr: map<Address, seq<Closing>>, from: RatingMap, to: RatingMap,
                  ghost events: seq<Closing>)
    requires IsGrouped(byAddr, events)
    requires from != to && to.vals.Keys <= byAddr.Keys
    modifies to
    ensures to.vals == Step(events, from.vals)
  {
    var rest := byAddr.Keys;
    while rest != {}
      invariant rest <= byAddr.Keys && to.vals.Keys <= byAddr.Keys
      invariant forall a :: a in byAddr.Keys - rest ==>
                  a in to.vals && to.vals[a] == CollectedWrapping(events, from.vals, a)
      decreases rest
    {
      var addr :| addr in rest;
      LinksFollow(byAddr, from.vals, addr, events);
      assert ListAt(byAddr, addr) == Links(events, addr);
      var addrRating := Collect(byAddr, from.vals, addr, byAddr[addr],
                                Inflow(addr, Shares(events, from.vals)));
      to.vals := to.vals[addr := addrRating];
      rest := rest - {addr};
    }
  }

  /** The two buffers are swapped by reference and the result aliases one of them. */
  method RankLoop(byAddr: map<Address, seq<Closing>>, initial: RatingMap, rankSteps: nat,
                  ghost events: seq<Closing>) returns (rating: RatingMap)
    requires IsGrouped(byAddr, events)
    requires initial.vals.Keys <= byAddr.Keys
    modifies initial
    ensures rating.vals == Iterate(events, rankSteps, old(initial.vals))
  {
    rating := initial;
    var from := rating;
    var to := new RatingMap();
    for step := 0 to rankSteps
      invariant from != to && rating == from
      invariant from == initial || fresh(from)
      invariant to == initial || fresh(to)
      invariant to.vals.Keys <= byAddr.Keys && from.vals.Keys <= byAddr.Keys
      invariant Iterate(events, rankSteps - step, from.vals)
             == Iterate(events, rankSteps, old(initial.vals))
    {
      RankStep(byAddr, from, to, events);
      rating := to;
      from, to := to, from;
    }
  }
}
