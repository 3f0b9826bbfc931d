/** The blockchain monitor: a forward cursor, a backward cursor and the rounds that move them. */
module Scan {
  import opened Machine

  // ---- settings, ranges, state ----

  /** The monitor's settings: eth.min.confirmations, eth.event.blocklimit, eth.event.offeringsfreshblocks. */
  datatype Settings = Settings(confirmations: nat, limit: nat, freshBlocks: nat)

  /** A block range of a filter query, both ends included. */
  datatype Range = Range(first: nat, last: nat)

  /** The stored cursors (zero means unset) and the ranges whose jobs were committed. */
  datatype State = State(cursor: nat, back: nat, up: nat, forward: seq<Range>, backward: seq<Range>)

  /** One round: the chain head, whether any account is in use, whether the round ran without an error. */
  datatype Round = Round(head: nat, inUse: bool, ok: bool)

  function SafeSub(a: nat, b: nat): nat {
    if a > b then a - b else 0
  }

  function Min(a: nat, b: nat): nat {
    if a < b then a else b
  }

  /** The newest block with enough confirmations. */
  function Confirmed(s: Settings, head: nat): nat {
    SafeSub(head, s.confirmations)
  }

  /** The block scanning continues after; an unset cursor means one limit below the newest confirmed block. */
  function Start(s: Settings, head: nat, cursor: nat): nat {
    if cursor == 0 then SafeSub(Confirmed(s, head), s.limit) else cursor
  }

  function ForwardRange(s: Settings, head: nat, cursor: nat): Range {
    var first := Wrap64(Start(s, head, cursor) + 1);
    Range(first, if s.limit == 0 then Confirmed(s, head) else Min(Confirmed(s, head), first + s.limit))
  }

  method RangeOfInterest(s: Settings, head: nat, cursor: nat) returns (first: nat, last: nat)
    ensures Range(first, last) == ForwardRange(s, head, cursor)
  {
    first := cursor;
    if first == 0 {
      first := SafeSub(SafeSub(head, s.confirmations), s.limit);
    }
    first := Wrap64(first + 1);
    last := SafeSub(head, s.confirmations);
    if s.limit != 0 && last > first && last - first > s.limit {
      last := first + s.limit;
    }
  }

  /** The upper end, exclusive, of what the backward search still has to see. */
  function Top(s: Settings, up: nat, back: nat): nat {
    if back == 0 then Wrap64(Confirmed(s, up) + 1) else back
  }

  /** The oldest block that is not fresh any more. */
  function Low(s: Settings, up: nat): nat {
    SafeSub(up, s.freshBlocks)
  }

  /** The next range below the top, stretched to the end of the window when it would cross it; (0, 0) if none. */
  function BackwardRange(s: Settings, up: nat, back: nat): Range {
    var top, low := Top(s, up, back), Low(s, up);
    if top <= low + 1 || s.limit == 0 then Range(0, 0)
    else if top <= low + s.limit then Range(SafeSub(low, s.confirmations), top - 1)
    else Range(SafeSub(top, s.limit + 1), top - 1)
  }

  method OfferingsRangeOfInterest(s: Settings, up: nat, back: nat) returns (from: nat, last: nat)
    ensures Range(from, last) == BackwardRange(s, up, back)
  {
    var lastFrom := back;
    if lastFrom == 0 {
      lastFrom := Wrap64(SafeSub(up, s.confirmations) + 1);
    }
    from := SafeSub(SafeSub(lastFrom, s.limit), 1);
    last := SafeSub(lastFrom, 1);
    if last <= SafeSub(up, s.freshBlocks) {
      return 0, 0;
    }
    if from < SafeSub(up, s.freshBlocks) {
      from := SafeSub(SafeSub(up, s.freshBlocks), s.confirmations);
    }
    if last <= from {
      return 0, 0;
    }
  }

  // ---- rounds ----

  /** An agent's round: nothing unless the range holds at least two blocks; jobs and cursor commit together. */
  function AgentRound(s: Settings, st: State, r: Round): State {
    var range := ForwardRange(s, r.head, st.cursor);
    if range.first >= range.last || !r.inUse || !r.ok then st
    else st.(cursor := range.last, forward := st.forward + [range])
  }

  /** The start block of the backward search is recorded once, outside the round's transaction. */
  function UpBlock(st: State, head: nat): nat {
    if st.up == 0 then head else st.up
  }

  function IfNonEmpty(r: Range): seq<Range> {
    if r.first <= r.last then [r] else []
  }

  /** A client's round: the forward and the backward range, one transaction for jobs and both cursors. */
  function ClientRound(s: Settings, st: State, r: Round): State {
    if !r.inUse then st else
      var up := UpBlock(st, r.head);
      var fwd, bwd := ForwardRange(s, r.head, st.cursor), BackwardRange(s, up, st.back);
      if !r.ok then st.(up := up)
      else State(fwd.last, bwd.first, up, st.forward + IfNonEmpty(fwd), st.backward + IfNonEmpty(bwd))
  }

  /** The monitor of either role, with its stored cursors. */
  class Monitor {
    const settings: Settings
    const isAgent: bool
    var lastProcessed: nat
    var lastBackSearch: nat
    var startBlock: nat
    var forwardRanges: seq<Range>
    var backwardRanges: seq<Range>

    constructor (settings: Settings, isAgent: bool)
      ensures this.settings == settings && this.isAgent == isAgent
      ensures View() == State(0, 0, 0, [], [])
    {
      this.settings, this.isAgent := settings, isAgent;
      lastProcessed, lastBackSearch, startBlock := 0, 0, 0;
      forwardRanges, backwardRanges := [], [];
    }

    function View(): State
      reads this
    {
      State(lastProcessed, lastBackSearch, startBlock, forwardRanges, backwardRanges)
    }

    method RunAgent(r: Round)
      modifies this
      ensures View() == AgentRound(settings, old(View()), r)
    {
      var from, to := RangeOfInterest(settings, r.head, lastProcessed);
      assert Range(from, to) == ForwardRange(settings, r.head, lastProcessed);
      if from >= to || !r.inUse {
        return;
      }
      if !r.ok {
        return;
      }
      forwardRanges := forwardRanges + [Range(from, to)];
      lastProcessed := to;
    }

    method RunClient(r: Round)
      modifies this
      ensures View() == ClientRound(settings, old(View()), r)
    {
      var from, to := RangeOfInterest(settings, r.head, lastProcessed);
      assert Range(from, to) == ForwardRange(settings, r.head, lastProcessed);
      if !r.inUse {
        return;
      }
      var fwd, bwd := [], [];
      if from <= to {
        fwd := [Range(from, to)];
      }
      var upBlock := r.head;
      if startBlock == 0 {
        startBlock := r.head;
      } else {
        upBlock := startBlock;
      }
      var offeringsFrom, offeringsTo := OfferingsRangeOfInterest(settings, upBlock, lastBackSearch);
      assert Range(offeringsFrom, offeringsTo) == BackwardRange(settings, upBlock, lastBackSearch);
      if offeringsFrom <= offeringsTo {
        bwd := [Range(offeringsFrom, offeringsTo)];
      }
      if |fwd| + |bwd| == 0 || !r.ok {
        return;
      }
      forwardRanges := forwardRanges + fwd;
      backwardRanges := backwardRanges + bwd;
      lastProcessed := to;
      lastBackSearch := offeringsFrom;
    }

    method RunRound(r: Round)
      modifies this
      ensures View() == Next(settings, isAgent, old(View()), r)
    {
      if isAgent {
        RunAgent(r);
      } else {
        RunClient(r);
      }
    }
  }

  function Next(s: Settings, isAgent: bool, st: State, r: Round): State {
    if isAgent then AgentRound(s, st, r) else ClientRound(s, st, r)
  }

  function Run(s: Settings, isAgent: bool, st: State, rounds: seq<Round>): State {
    if rounds == [] then st
    else Next(s, isAgent, Run(s, isAgent, st, rounds[..|rounds| - 1]), rounds[|rounds| - 1])
  }

  /** A round that fails, or finds no account in use, commits no range and moves no cursor; a client's failed round
      may still record the start block. */
  lemma FailedRoundCommitsNothing(s: Settings, isAgent: bool, st: State, r: Round)
    requires !r.ok || !r.inUse
    ensures var st' := Next(s, isAgent, st, r);
            && st'.forward == st.forward && st'.backward == st.backward
            && st'.cursor == st.cursor && st'.back == st.back
            && (isAgent || !r.inUse || st.up != 0 ==> st'.up == st.up)
            && (!isAgent && r.inUse && st.up == 0 ==> st'.up == r.head)
  {
  }

  // ---- forward scan ----

  /** The blocks lo, lo + 1, ..., hi. */
  function Interval(lo: nat, hi: nat): seq<nat>
    decreases hi
  {
    if hi < lo then [] else if hi == 0 then [0] else Interval(lo, hi - 1) + [hi]
  }

  /** All blocks of a list of ranges, in the order they are scanned. */
  function Blocks(ranges: seq<Range>): seq<nat> {
    if ranges == [] then [] else
      var r := ranges[|ranges| - 1];
      Blocks(ranges[..|ranges| - 1]) + Interval(r.first, r.last)
  }

  /** The block the forward scan started after. */
  function Base(st: State): nat {
    if st.forward == [] then st.cursor else SafeSub(st.forward[0].first, 1)
  }

  /** Everything after the base and up to the cursor was scanned, once and in order, below the confirmed head. */
  ghost predicate ForwardInv(s: Settings, st: State, head: nat) {
    && Blocks(st.forward) == Interval(Base(st) + 1, st.cursor)
    && Base(st) <= st.cursor <= Confirmed(s, head)
    && (st.cursor == 0 ==> st.forward == [])
    && forall r :: r in st.forward ==>
         && 0 < r.first <= r.last <= Confirmed(s, head)
         && (s.limit > 0 ==> r.last - r.first <= s.limit)
  }

  /** Heads never go back, and stay below the last representable block. */
  ghost predicate Advancing(rounds: seq<Round>) {
    && (forall i, j :: 0 <= i <= j < |rounds| ==> rounds[i].head <= rounds[j].head)
    && forall r :: r in rounds ==> r.head + 1 < U64
  }

  lemma {:induction false} IntervalSplit(lo: nat, mid: nat, hi: nat)
    requires lo <= mid + 1 && mid <= hi
    ensures Interval(lo, hi) == Interval(lo, mid) + Interval(mid + 1, hi)
    decreases hi
  {
    if mid == hi {
      assert Interval(mid + 1, hi) == [];
    } else {
      IntervalSplit(lo, mid, hi - 1);
    }
  }

  lemma BlocksAppend(ranges: seq<Range>, r: Range)
    ensures Blocks(ranges + [r]) == Blocks(ranges) + Interval(r.first, r.last)
  {
    assert (ranges + [r])[..|ranges|] == ranges;
  }

  /** Committing a non-empty forward range keeps the invariant. */
  lemma CommitForward(s: Settings, st: State, head: nat, st': State)
    requires ForwardInv(s, st, head) && head + 1 < U64
    requires var range := ForwardRange(s, head, st.cursor);
             range.first <= range.last && st'.cursor == range.last && st'.forward == st.forward + [range]
    ensures ForwardInv(s, st', head) && st.cursor <= st'.cursor
  {
    var range := ForwardRange(s, head, st.cursor);
    assert range.first == Start(s, head, st.cursor) + 1;
    BlocksAppend(st.forward, range);
    if st.forward == [] {
      assert Blocks([]) == [] && st'.forward == [range];
      if st.cursor == 0 {
        assert Base(st') == range.first - 1;
      }
      assert Blocks(st'.forward) == Interval(range.first, range.last);
    } else {
      assert st'.forward[0] == st.forward[0];
      IntervalSplit(Base(st) + 1, st.cursor, range.last);
    }
  }

  /** A client round with an empty forward range moves the cursor to where it is, or sets an unset one. */
  lemma CommitNothingForward(s: Settings, st: State, head: nat, st': State)
    requires ForwardInv(s, st, head) && head + 1 < U64
    requires var range := ForwardRange(s, head, st.cursor);
             range.first > range.last && st'.cursor == range.last && st'.forward == st.forward
    ensures ForwardInv(s, st', head) && st.cursor <= st'.cursor
    ensures st.cursor != 0 ==> st'.cursor == st.cursor
  {
  }

  lemma HeadMoves(s: Settings, st: State, h: nat, head: nat)
    requires ForwardInv(s, st, h) && h <= head
    ensures ForwardInv(s, st, head)
  {
  }

  lemma ForwardStep(s: Settings, isAgent: bool, st: State, r: Round)
    requires ForwardInv(s, st, r.head) && r.head + 1 < U64
    ensures ForwardInv(s, Next(s, isAgent, st, r), r.head)
    ensures st.cursor <= Next(s, isAgent, st, r).cursor
  {
    var range := ForwardRange(s, r.head, st.cursor);
    var st' := Next(s, isAgent, st, r);
    if st'.forward != st.forward {
      CommitForward(s, st, r.head, st');
    } else if !isAgent && r.inUse && r.ok {
      CommitNothingForward(s, st, r.head, st');
    }
  }

  /** Forward scan without gap or overlap, for agent and client, over every run with constant settings. */
  lemma {:induction false} ForwardScan(s: Settings, isAgent: bool, rounds: seq<Round>, head: nat)
    requires Advancing(rounds)
    requires rounds != [] ==> head >= rounds[|rounds| - 1].head
    ensures ForwardInv(s, Run(s, isAgent, State(0, 0, 0, [], []), rounds), head)
  {
    var init := State(0, 0, 0, [], []);
    if rounds == [] {
      assert Interval(1, 0) == [];
    } else {
      var n := |rounds| - 1;
      ForwardScan(s, isAgent, rounds[..n], rounds[n].head);
      ForwardStep(s, isAgent, Run(s, isAgent, init, rounds[..n]), rounds[n]);
      HeadMoves(s, Run(s, isAgent, init, rounds), rounds[n].head, head);
    }
  }

  /** Over every run, no committed forward range and no set cursor goes above head - confirmations. */
  lemma ForwardScanConfirmed(s: Settings, isAgent: bool, rounds: seq<Round>, head: nat)
    requires Advancing(rounds)
    requires rounds != [] ==> head >= rounds[|rounds| - 1].head
    ensures var st := Run(s, isAgent, State(0, 0, 0, [], []), rounds);
            && (forall r :: r in st.forward ==> 0 < r.first <= r.last && r.last + s.confirmations <= head)
            && (st.cursor != 0 ==> st.cursor + s.confirmations <= head)
  {
    ForwardScan(s, isAgent, rounds, head);
  }

  /** The forward range in plain arithmetic: after the cursor, or after the block one limit below the newest with
      enough confirmations if the cursor is unset; up to that newest block, but at most a limit further. */
  lemma ForwardRangeBounds(s: Settings, head: nat, cursor: nat)
    requires head + 1 < U64 && cursor + 1 < U64
    ensures var r := ForwardRange(s, head, cursor);
            var top := if head >= s.confirmations then head - s.confirmations else 0;
            && (cursor != 0 ==> r.first == cursor + 1)
            && (cursor == 0 && top >= s.limit ==> r.first == top - s.limit + 1)
            && (cursor == 0 && top < s.limit ==> r.first == 1)
            && (s.limit == 0 || top <= r.first + s.limit ==> r.last == top)
            && (s.limit > 0 && top > r.first + s.limit ==> r.last == r.first + s.limit)
  {
  }

  /** How often a block occurs in a list of blocks. */
  function Count(xs: seq<nat>, b: nat): nat {
    if xs == [] then 0 else Count(xs[..|xs| - 1], b) + if xs[|xs| - 1] == b then 1 else 0
  }

  /** An interval holds each of its blocks once, and no other. */
  lemma {:induction false} IntervalCount(lo: nat, hi: nat, b: nat)
    ensures Count(Interval(lo, hi), b) == if lo <= b <= hi then 1 else 0
    decreases hi
  {
    if lo <= hi && hi > 0 {
      IntervalCount(lo, hi - 1, b);
    }
  }

  /** So every block after the base and up to the cursor was scanned exactly once, and no other block was. */
  lemma ScannedExactlyOnce(s: Settings, st: State, head: nat, b: nat)
    requires ForwardInv(s, st, head)
    ensures Count(Blocks(st.forward), b) == if Base(st) < b <= st.cursor then 1 else 0
  {
    IntervalCount(Base(st) + 1, st.cursor, b);
  }

  /** An agent's committed round happens exactly when two confirmed blocks are waiting after the start. */
  lemma AgentAdvances(s: Settings, st: State, r: Round)
    requires r.head + 1 < U64 && r.inUse && r.ok && st.cursor <= Confirmed(s, r.head)
    ensures var gap := Confirmed(s, r.head) - Start(s, r.head, st.cursor);
            var st' := AgentRound(s, st, r);
            && (gap <= 1 ==> st' == st)
            && (gap > 1 ==> && Start(s, r.head, st.cursor) < st'.cursor
                            && 0 <= Confirmed(s, r.head) - st'.cursor < gap)
    ensures st.cursor == 0 ==>
              (AgentRound(s, st, r) != st <==> s.limit >= 2 && Confirmed(s, r.head) >= 2)
  {
    var range := ForwardRange(s, r.head, st.cursor);
    assert range.first == Start(s, r.head, st.cursor) + 1;
  }

  /** With a block limit below two an agent whose cursor is unset never scans a block. */
  lemma {:induction false} AgentNeverStarts(s: Settings, rounds: seq<Round>)
    requires s.limit < 2 && Advancing(rounds)
    ensures Run(s, true, State(0, 0, 0, [], []), rounds) == State(0, 0, 0, [], [])
  {
    if rounds != [] {
      AgentNeverStarts(s, rounds[..|rounds| - 1]);
    }
  }

  // ---- backward scan ----

  /** A range that was really searched; the empty result is stored, and queried, as (0, 0). */
  predicate Searched(r: Range) {
    r.first < r.last
  }

  lemma BackwardDescends(s: Settings, up: nat, back: nat)
    requires up + 1 < U64
    ensures var r := BackwardRange(s, up, back);
            r.first == 0 || r.first < Top(s, up, back)
  {
  }

  /** The ranges of one pass: from the given stored block until the stored block is zero again. */
  function Pass(s: Settings, up: nat, back: nat): seq<Range>
    requires up + 1 < U64
    decreases Top(s, up, back)
  {
    var r := BackwardRange(s, up, back);
    BackwardDescends(s, up, back);
    if r.first == 0 then [r] else [r] + Pass(s, up, r.first)
  }

  /** The blocks of a descending list of ranges, in ascending order. */
  function BlocksDown(ranges: seq<Range>): seq<nat> {
    if ranges == [] then []
    else BlocksDown(ranges[1..]) + if Searched(ranges[0]) then Interval(ranges[0].first, ranges[0].last) else []
  }

  /** The lowest block a pass searches, or the top if it searches none. */
  function Bottom(s: Settings, up: nat, back: nat): nat
    requires up + 1 < U64
    decreases Top(s, up, back)
  {
    var r := BackwardRange(s, up, back);
    BackwardDescends(s, up, back);
    if !Searched(r) then Top(s, up, back)
    else if r.first == 0 then 0
    else Bottom(s, up, r.first)
  }

  lemma {:induction false} PassBlocks(s: Settings, up: nat, back: nat)
    requires up + 1 < U64 && s.limit >= 1
    ensures var top := Top(s, up, back);
            && Bottom(s, up, back) <= top
            && BlocksDown(Pass(s, up, back)) == Interval(Bottom(s, up, back), top - 1)
    decreases Top(s, up, back)
  {
    var r := BackwardRange(s, up, back);
    var top := Top(s, up, back);
    BackwardDescends(s, up, back);
    if !Searched(r) {
      assert Pass(s, up, back) == [r];
    } else if r.first == 0 {
      assert Pass(s, up, back) == [r];
    } else {
      var rest := Pass(s, up, r.first);
      PassBlocks(s, up, r.first);
      assert ([r] + rest)[1..] == rest;
      IntervalSplit(Bottom(s, up, r.first), r.first - 1, top - 1);
    }
  }

  /** With a positive limit a pass reaches the end of the window, unless the window is empty from the start. */
  lemma {:induction false} BottomReachesWindow(s: Settings, up: nat, back: nat)
    requires up + 1 < U64 && s.limit >= 1
    ensures Top(s, up, back) > Low(s, up) + 1 ==> Bottom(s, up, back) <= Low(s, up) + 1
    ensures Top(s, up, back) <= Low(s, up) + 1 ==> Bottom(s, up, back) == Top(s, up, back)
    decreases Top(s, up, back)
  {
    var r := BackwardRange(s, up, back);
    BackwardDescends(s, up, back);
    if Searched(r) && r.first != 0 {
      BottomReachesWindow(s, up, r.first);
    }
  }

  /** Backward scan: one pass searches every block of the freshness window, and every block it searches, once. */
  lemma BackwardScan(s: Settings, up: nat, b: nat)
    requires up + 1 < U64 && s.limit >= 1
    ensures Count(BlocksDown(Pass(s, up, 0)), b)
         == if Bottom(s, up, 0) <= b <= Confirmed(s, up) then 1 else 0
    ensures Low(s, up) < b <= Confirmed(s, up) ==> Bottom(s, up, 0) <= b
  {
    PassBlocks(s, up, 0);
    BottomReachesWindow(s, up, 0);
    IntervalCount(Bottom(s, up, 0), Confirmed(s, up), b);
  }

  /** The pass in plain arithmetic: it searches no block without enough confirmations, and every fresh block
      that has them, once. */
  lemma BackwardScanConfirmed(s: Settings, up: nat, b: nat)
    requires up + 1 < U64 && s.limit >= 1
    ensures b + s.confirmations > up ==> Count(BlocksDown(Pass(s, up, 0)), b) == 0
    ensures 0 < b && b + s.confirmations <= up && b + s.freshBlocks > up ==>
              Count(BlocksDown(Pass(s, up, 0)), b) == 1
  {
    BackwardScan(s, up, b);
  }

  /** One range of a pass in plain arithmetic: a limit's worth of blocks below the stored one, and the end of the
      window, one number of confirmations below the oldest fresh block, once that is near. */
  lemma BackwardRangeBounds(s: Settings, up: nat, back: nat)
    requires up + 1 < U64 && 0 < back && s.limit >= 1
    ensures var r := BackwardRange(s, up, back);
            var low := if up >= s.freshBlocks then up - s.freshBlocks else 0;
            && (back > low + s.limit ==> r == Range(if back > s.limit then back - s.limit - 1 else 0, back - 1))
            && (low + 1 < back <= low + s.limit ==>
                  r == Range(if low > s.confirmations then low - s.confirmations else 0, back - 1))
            && (back <= low + 1 ==> r == Range(0, 0))
  {
  }

  /** No range of a pass is larger than the limit, the confirmations and one block together. */
  lemma {:induction false} BackwardRangeSize(s: Settings, up: nat, back: nat)
    requires up + 1 < U64
    ensures forall r :: r in Pass(s, up, back) ==> r.last - r.first < s.limit + s.confirmations + 1
    ensures Pass(s, up, back)[|Pass(s, up, back)| - 1].first == 0
    decreases Top(s, up, back)
  {
    var r := BackwardRange(s, up, back);
    BackwardDescends(s, up, back);
    if r.first != 0 {
      BackwardRangeSize(s, up, r.first);
    }
  }

  /** With a zero limit a pass searches nothing: the window is covered only if it is empty. */
  lemma ZeroLimitSearchesNothing(s: Settings, up: nat)
    requires up + 1 < U64 && s.limit == 0
    ensures Pass(s, up, 0) == [Range(0, 0)] && BlocksDown(Pass(s, up, 0)) == []
    ensures (forall b :: Low(s, up) < b <= Confirmed(s, up) ==> b in BlocksDown(Pass(s, up, 0)))
       <==> Confirmed(s, up) <= Low(s, up)
  {
    assert BlocksDown([Range(0, 0)]) == [];
    if Confirmed(s, up) > Low(s, up) {
      assert Confirmed(s, up) !in BlocksDown(Pass(s, up, 0));
    }
  }

  // ---- the client's rounds run the passes ----

  function RunFrom(s: Settings, isAgent: bool, st: State, rounds: seq<Round>): State
    decreases |rounds|
  {
    if rounds == [] then st else RunFrom(s, isAgent, Next(s, isAgent, st, rounds[0]), rounds[1..])
  }

  function CommittedRounds(rounds: seq<Round>): nat {
    if rounds == [] then 0
    else (if rounds[0].inUse && rounds[0].ok then 1 else 0) + CommittedRounds(rounds[1..])
  }

  /** Whatever rounds fail in between, the committed ones search the pass range by range. */
  lemma {:induction false} RoundsRunThePass(s: Settings, st: State, rounds: seq<Round>)
    requires 0 < st.up && st.up + 1 < U64
    requires CommittedRounds(rounds) <= |Pass(s, st.up, st.back)|
    ensures var pass, k := Pass(s, st.up, st.back), CommittedRounds(rounds);
            var st' := RunFrom(s, false, st, rounds);
            && st'.up == st.up
            && st'.backward == st.backward + pass[..k]
            && (k == 0 ==> st'.back == st.back)
            && (k == |pass| ==> st'.back == 0)
    decreases |rounds|
  {
    var pass := Pass(s, st.up, st.back);
    if rounds == [] {
    } else {
      var next := Next(s, false, st, rounds[0]);
      if rounds[0].inUse && rounds[0].ok {
        var r := BackwardRange(s, st.up, st.back);
        assert pass[0] == r && next.back == r.first && next.backward == st.backward + [r];
        var k := CommittedRounds(rounds[1..]);
        if r.first != 0 {
          assert pass[1..] == Pass(s, st.up, r.first);
        }
        RoundsRunThePass(s, next, rounds[1..]);
        assert pass[..k + 1] == [r] + pass[1..][..k];
      } else {
        RoundsRunThePass(s, next, rounds[1..]);
      }
    }
  }

  /** A round changes nothing while no account is in use; the first one that finds an account fixes the start block. */
  lemma FirstRoundStarts(s: Settings, st: State, r: Round)
    requires st.up == 0
    ensures !r.inUse ==> Next(s, false, st, r) == st
    ensures r.inUse ==> Next(s, false, st, r) == Next(s, false, st.(up := r.head), r)
  {
  }

  /** A fresh client searches the pass of the head it met first, range by range. */
  lemma {:induction false} FreshClientRunsThePass(s: Settings, rounds: seq<Round>, first: nat)
    requires first < |rounds| && rounds[first].inUse && forall i :: 0 <= i < first ==> !rounds[i].inUse
    requires 0 < rounds[first].head && rounds[first].head + 1 < U64
    requires CommittedRounds(rounds) <= |Pass(s, rounds[first].head, 0)|
    ensures var st := RunFrom(s, false, State(0, 0, 0, [], []), rounds);
            var pass, k := Pass(s, rounds[first].head, 0), CommittedRounds(rounds);
            && st.up == rounds[first].head
            && st.backward == pass[..k]
            && (k == |pass| ==> st.back == 0)
    decreases first
  {
    var init := State(0, 0, 0, [], []);
    FirstRoundStarts(s, init, rounds[0]);
    if first == 0 {
      var started := init.(up := rounds[0].head);
      assert RunFrom(s, false, init, rounds) == RunFrom(s, false, started, rounds);
      RoundsRunThePass(s, started, rounds);
    } else {
      FreshClientRunsThePass(s, rounds[1..], first - 1);
    }
  }

  /** A pass again and again. */
  function Repeated(pass: seq<Range>, n: nat): seq<Range> {
    if n == 0 then [] else pass + Repeated(pass, n - 1)
  }

  /** The rounds up to the one that commits for the k-th time. */
  lemma {:induction false} SplitRounds(rounds: seq<Round>, k: nat) returns (m: nat)
    requires k <= CommittedRounds(rounds)
    ensures m <= |rounds| && CommittedRounds(rounds[..m]) == k
    ensures CommittedRounds(rounds[m..]) == CommittedRounds(rounds) - k
  {
    if k == 0 {
      m := 0;
    } else {
      var here := if rounds[0].inUse && rounds[0].ok then 1 else 0;
      m := SplitRounds(rounds[1..], k - here);
      assert rounds[..m + 1] == [rounds[0]] + rounds[1..][..m];
      assert rounds[m + 1..] == rounds[1..][m..];
      m := m + 1;
    }
  }

  lemma {:induction false} RunFromSplit(s: Settings, st: State, rounds: seq<Round>, m: nat)
    requires m <= |rounds|
    ensures RunFrom(s, false, st, rounds) == RunFrom(s, false, RunFrom(s, false, st, rounds[..m]), rounds[m..])
    decreases m
  {
    if m == 0 {
      assert rounds[..0] == [] && rounds[0..] == rounds;
    } else {
      RunFromSplit(s, Next(s, false, st, rounds[0]), rounds[1..], m - 1);
      assert rounds[..m][1..] == rounds[1..][..m - 1];
      assert rounds[1..][m - 1..] == rounds[m..];
    }
  }

  lemma OneWholePass(s: Settings, st: State, rounds: seq<Round>)
    requires 0 < st.up && st.up + 1 < U64 && st.back == 0
    requires CommittedRounds(rounds) == |Pass(s, st.up, 0)|
    ensures var st' := RunFrom(s, false, st, rounds);
            st'.up == st.up && st'.back == 0 && st'.backward == st.backward + Pass(s, st.up, 0)
  {
    RoundsRunThePass(s, st, rounds);
    assert Pass(s, st.up, 0)[..|Pass(s, st.up, 0)|] == Pass(s, st.up, 0);
  }

  lemma OneMore(n: nat, size: nat)
    requires n > 0
    ensures size <= n * size && n * size - size == (n - 1) * size
  {
  }

  /** Pass after pass: with a start block recorded, the committed rounds search the same pass over and over. */
  lemma {:induction false} RoundsRepeatThePass(s: Settings, st: State, rounds: seq<Round>, n: nat)
    requires 0 < st.up && st.up + 1 < U64 && st.back == 0
    requires CommittedRounds(rounds) == n * |Pass(s, st.up, 0)|
    ensures var st' := RunFrom(s, false, st, rounds);
            st'.up == st.up && st'.back == 0
            && st'.backward == st.backward + Repeated(Pass(s, st.up, 0), n)
    decreases n
  {
    var pass := Pass(s, st.up, 0);
    if n == 0 {
      RoundsRunThePass(s, st, rounds);
    } else {
      OneMore(n, |pass|);
      var m := SplitRounds(rounds, |pass|);
      RunFromSplit(s, st, rounds, m);
      OneWholePass(s, st, rounds[..m]);
      var st1 := RunFrom(s, false, st, rounds[..m]);
      RoundsRepeatThePass(s, st1, rounds[m..], n - 1);
    }
  }

  // ---- the queries of one round ----

  predicate Contains(r: Range, b: nat) {
    r.first <= b <= r.last
  }

  /** The two searches of a fresh client's first round meet in a block, for which one log is found twice,
      exactly if the confirmed head is a fresh block and the limit is positive; they then share that head. */
  lemma FirstRoundOverlapsIff(s: Settings, head: nat)
    requires head + 1 < U64
    ensures var fwd, bwd := ForwardRange(s, head, 0), BackwardRange(s, head, 0);
            && ((exists b :: Contains(fwd, b) && Contains(bwd, b))
                <==> s.limit >= 1 && Confirmed(s, head) > Low(s, head))
            && (s.limit >= 1 && Confirmed(s, head) > Low(s, head) ==>
                  Contains(fwd, Confirmed(s, head)) && Contains(bwd, Confirmed(s, head)))
  {
    var fwd, bwd := ForwardRange(s, head, 0), BackwardRange(s, head, 0);
    if s.limit >= 1 && Confirmed(s, head) > Low(s, head) {
      assert Contains(fwd, Confirmed(s, head)) && Contains(bwd, Confirmed(s, head));
    }
  }
}
