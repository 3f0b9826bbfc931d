/** The agent's billing round: five checks over the channels, each a row filter followed by requests. */
module AgentBilling {
  import opened Machine
  import opened Service

  /** A channel joined with its offering, its account and its aggregated sessions. Times are seconds; a missing
      time or limit is SQL's NULL; the inactivity limit is a bigint whose interval or sum may be out of range. */
  datatype Row = Row(
    channel: ChannelId, service: ServiceStatus, chainPending: bool, inUse: bool, unitsBased: bool,
    setup: nat, unitPrice: nat, maxUnit: Option<nat>, interval: nat, maxLag: nat,
    maxInactive: nat, inactivityOverflows: bool, maxSuspended: nat,
    deposit: nat, receipt: nat, used: nat, lastUsage: Option<int>, changed: Option<int>)

  /** The billing interval is positive by a constraint of its column; the unit price may be zero. */
  predicate ValidRow(r: Row) {
    r.interval > 0
  }

  datatype Check = UnitsUsed | Inactivity | Unsuspend | SuspendedTooLong | BillingLag

  predicate Billed(r: Row) {
    !r.chainPending && r.inUse
  }

  /** GREATEST ignores NULLs. */
  function Latest(a: Option<int>, b: Option<int>): Option<int> {
    if a.None? then b else if b.None? then a else Some(if a.value > b.value then a.value else b.value)
  }

  /** Intervals used, a numeric division, less intervals paid for, a truncating one. */
  function LagOf(r: Row): real
    requires ValidRow(r) && r.unitPrice > 0
  {
    r.used as real / r.interval as real - TruncDiv(r.receipt - r.setup, r.unitPrice) as real
  }

  /** The WHERE clause of a check's query. */
  predicate Selected(c: Check, r: Row) {
    Billed(r) &&
    match c
    case UnitsUsed => (r.service.Pending? || r.service.Active?) && r.unitsBased
    case Inactivity => r.service.Pending? || r.service.Active? || r.service.Suspended?
    case Unsuspend => r.service.Suspended?
    case SuspendedTooLong => r.service.Suspended?
    case BillingLag => r.service.Pending? || r.service.Active?
  }

  /** The query has no value for the row: a lag query divides by a zero unit price, the inactivity query adds
      an interval that is out of range. */
  predicate Undefined(c: Check, r: Row) {
    Selected(c, r) && match c
      case Unsuspend => r.unitPrice == 0
      case BillingLag => r.unitPrice == 0
      case Inactivity => r.inactivityOverflows
      case _ => false
  }

  predicate Computes(c: Check, r: Row) {
    ValidRow(r) && !Undefined(c, r)
  }

  /** The query fails on some row. */
  predicate Fails(c: Check, rows: seq<Row>) {
    exists r :: r in rows && Undefined(c, r)
  }

  /** The WHERE and HAVING clauses of a check's query. */
  predicate Matches(c: Check, r: Row, now: int)
    requires Computes(c, r)
  {
    Selected(c, r) &&
    match c
    case UnitsUsed =>
      r.setup + r.used * r.unitPrice >= r.deposit || (r.maxUnit.Some? && r.used >= r.maxUnit.value)
    case Inactivity => var last := Latest(r.lastUsage, r.changed); last.Some? && last.value + r.maxInactive < now
    case Unsuspend => LagOf(r) <= r.maxLag as real
    case SuspendedTooLong => r.changed.Some? && r.changed.value + r.maxSuspended < now
    case BillingLag => LagOf(r) > r.maxLag as real
  }

  function RequestOf(c: Check): Request {
    match c
    case UnitsUsed => Terminate
    case Inactivity => Terminate
    case Unsuspend => Activate
    case SuspendedTooLong => Terminate
    case BillingLag => Suspend
  }

  /** When each check ran its query, and the channels whose rows a failing query may still deliver: the code
      does not look for an error behind the rows. */
  datatype Clock = Clock(units: int, inactivity: int, unsuspend: int, suspended: int, lags: int,
                         delivered: Check -> set<ChannelId>)

  function At(c: Check, t: Clock): int {
    match c
    case UnitsUsed => t.units
    case Inactivity => t.inactivity
    case Unsuspend => t.unsuspend
    case SuspendedTooLong => t.suspended
    case BillingLag => t.lags
  }

  /** The check's query returns the row. */
  predicate Returned(c: Check, rows: seq<Row>, r: Row, t: Clock)
    requires ValidRow(r)
  {
    !Undefined(c, r) && Matches(c, r, At(c, t)) && (Fails(c, rows) ==> r.channel in t.delivered(c))
  }

  /** The query fails before its first row, and the round with it. */
  predicate Breaks(c: Check, rows: seq<Row>, t: Clock)
    requires forall r :: r in rows ==> ValidRow(r)
  {
    Fails(c, rows) && forall r :: r in rows ==> !Returned(c, rows, r, t)
  }

  /** One check seen from one channel. */
  function CheckEffect(c: Check, rows: seq<Row>, r: Row, t: Clock, active: seq<Kind>): seq<Kind>
    requires ValidRow(r)
  {
    if Returned(c, rows, r, t) then Effect(r.service, active, RequestOf(c), true) else active
  }

  /** The rows of distinct channels, with the statuses the processor will find. */
  ghost predicate RowsOf(rows: seq<Row>, channels: map<ChannelId, ServiceStatus>) {
    && (forall r :: r in rows ==> ValidRow(r) && r.channel in channels && channels[r.channel] == r.service)
    && forall i, j :: 0 <= i < j < |rows| ==> rows[i].channel != rows[j].channel
  }

  ghost predicate ValidRows(rows: seq<Row>) {
    forall r :: r in rows ==> ValidRow(r)
  }

  /** The round seen from one of its channels: the checks in their order, up to the first that breaks. */
  ghost function RoundEffect(rows: seq<Row>, r: Row, t: Clock, active: seq<Kind>): seq<Kind>
    requires r in rows && ValidRows(rows)
  {
    var a1 := CheckEffect(UnitsUsed, rows, r, t, active);
    if Breaks(Inactivity, rows, t) then a1 else
      var a2 := CheckEffect(Inactivity, rows, r, t, a1);
      if Breaks(Unsuspend, rows, t) then a2 else
        var a3 := CheckEffect(Unsuspend, rows, r, t, a2);
        var a4 := CheckEffect(SuspendedTooLong, rows, r, t, a3);
        CheckEffect(BillingLag, rows, r, t, a4)
  }

  function ChannelsOf(rows: seq<Row>): set<ChannelId> {
    set r | r in rows :: r.channel
  }

  /** The channels outside a set keep their active jobs. */
  ghost predicate OthersKept(before: seq<Job>, after: seq<Job>, chs: set<ChannelId>) {
    forall ch :: ch !in chs ==> ActiveOf(after, ch) == ActiveOf(before, ch)
  }

  /** The first i rows were served by a check, and nothing else happened. */
  ghost predicate Served(before: seq<Job>, after: seq<Job>, rows: seq<Row>, i: nat, c: Check, t: Clock)
    requires i <= |rows| && ValidRows(rows)
  {
    && OthersKept(before, after, ChannelsOf(rows[..i]))
    && forall r :: r in rows[..i] ==>
         ActiveOf(after, r.channel) == CheckEffect(c, rows, r, t, ActiveOf(before, r.channel))
  }

  /** Serving the next row touches none of the channels served before it. */
  lemma ServeNext(before: seq<Job>, mid: seq<Job>, after: seq<Job>, rows: seq<Row>, i: nat, c: Check, t: Clock)
    requires i < |rows| && ValidRows(rows)
    requires forall j, k :: 0 <= j < k < |rows| ==> rows[j].channel != rows[k].channel
    requires Served(before, mid, rows, i, c, t)
    requires OthersKept(mid, after, {rows[i].channel})
    requires ActiveOf(after, rows[i].channel) == CheckEffect(c, rows, rows[i], t, ActiveOf(mid, rows[i].channel))
    ensures Served(before, after, rows, i + 1, c, t)
  {
    var r := rows[i];
    assert rows[..i + 1] == rows[..i] + [r];
    assert r.channel !in ChannelsOf(rows[..i]);
    assert ChannelsOf(rows[..i + 1]) == ChannelsOf(rows[..i]) + {r.channel};
  }

  /** One check: its query, then a request for every row it returns; a refused request is only logged. A query
      that fails before its first row breaks the round: the deferred close of the missing rows panics. */
  method ProcessEachChannel(p: Processor, rows: seq<Row>, c: Check, t: Clock) returns (ok: bool)
    requires RowsOf(rows, p.channels)
    modifies p`jobs
    ensures ok <==> !Breaks(c, rows, t)
    ensures forall r :: r in rows ==>
      ActiveOf(p.jobs, r.channel) == CheckEffect(c, rows, r, t, ActiveOf(old(p.jobs), r.channel))
    ensures OthersKept(old(p.jobs), p.jobs, ChannelsOf(rows))
  {
    if Breaks(c, rows, t) {
      return false;
    }
    for i := 0 to |rows|
      invariant Served(old(p.jobs), p.jobs, rows, i, c, t)
    {
      ghost var mid := p.jobs;
      if Returned(c, rows, rows[i], t) {
        var _ := p.AlterServiceStatus(rows[i].channel, RequestOf(c), true);
      }
      ServeNext(old(p.jobs), mid, p.jobs, rows, i, c, t);
    }
    assert rows[..|rows|] == rows;
    return true;
  }

  /** The round over the rows of all channels: it ends at the first check that breaks. */
  method ProcessRound(p: Processor, rows: seq<Row>, t: Clock) returns (ok: bool)
    requires RowsOf(rows, p.channels)
    modifies p`jobs
    ensures ok <==> !Breaks(Inactivity, rows, t) && !Breaks(Unsuspend, rows, t) && !Breaks(BillingLag, rows, t)
    ensures forall r :: r in rows ==>
      ActiveOf(p.jobs, r.channel) == RoundEffect(rows, r, t, ActiveOf(old(p.jobs), r.channel))
    ensures OthersKept(old(p.jobs), p.jobs, ChannelsOf(rows))
  {
    ok := ProcessEachChannel(p, rows, UnitsUsed, t);
    ok := ProcessEachChannel(p, rows, Inactivity, t);
    if !ok {
      return;
    }
    ok := ProcessEachChannel(p, rows, Unsuspend, t);
    if !ok {
      return;
    }
    ok := ProcessEachChannel(p, rows, SuspendedTooLong, t);
    ok := ProcessEachChannel(p, rows, BillingLag, t);
  }

  // ---- what a round means for a channel ----

  /** The channel is returned by a terminating check that the round reaches. */
  ghost predicate MustTerminate(rows: seq<Row>, r: Row, t: Clock)
    requires r in rows && ValidRows(rows)
  {
    || Returned(UnitsUsed, rows, r, t)
    || Returned(Inactivity, rows, r, t)
    || (Returned(SuspendedTooLong, rows, r, t) && !Breaks(Inactivity, rows, t) && !Breaks(Unsuspend, rows, t))
  }

  /** Termination wins: whatever jobs the channel had, after the round it has an active terminate job; the job
      that was there stays with the others, a new one is the only one. */
  lemma TerminationWins(rows: seq<Row>, r: Row, t: Clock, active: seq<Kind>)
    requires r in rows && ValidRows(rows) && MustTerminate(rows, r, t)
    ensures PreTerminate(true) in RoundEffect(rows, r, t, active)
    ensures PreTerminate(true) in active ==> RoundEffect(rows, r, t, active) == active
    ensures PreTerminate(true) !in active ==> RoundEffect(rows, r, t, active) == [PreTerminate(true)]
  {
  }

  /** A channel that need not be terminated is never given a terminate job by the round. */
  lemma NoTerminationOtherwise(rows: seq<Row>, r: Row, t: Clock, active: seq<Kind>)
    requires r in rows && ValidRows(rows) && !MustTerminate(rows, r, t) && PreTerminate(true) !in active
    ensures PreTerminate(true) !in RoundEffect(rows, r, t, active)
    ensures active != [] ==> RoundEffect(rows, r, t, active) == active
  {
  }

  /** The check's query is defined for every row and returns this one. */
  predicate SafelyMatches(c: Check, rows: seq<Row>, r: Row, t: Clock)
    requires r in rows && ValidRow(r)
  {
    !Fails(c, rows) && Matches(c, r, At(c, t))
  }

  /** The same round, with every failing query failing before its first row. */
  function WorstCase(t: Clock): Clock {
    t.(delivered := _ => {})
  }

  /** The exact condition, for every row of every round: whatever jobs the channel had and whatever a failing
      query delivers, termination wins exactly if the channel matches the first terminating check, or the second
      while no inactivity limit in the round is out of range, or the third while moreover no billed suspended
      channel of the round has a zero unit price. */
  lemma TerminationIff(rows: seq<Row>, r: Row, t: Clock)
    requires r in rows && ValidRows(rows)
    ensures (forall active, delivered :: PreTerminate(true) in RoundEffect(rows, r, t.(delivered := delivered), active))
       <==> || SafelyMatches(UnitsUsed, rows, r, t)
            || SafelyMatches(Inactivity, rows, r, t)
            || (SafelyMatches(SuspendedTooLong, rows, r, t) && !Fails(Inactivity, rows) && !Fails(Unsuspend, rows))
  {
    var sure := || SafelyMatches(UnitsUsed, rows, r, t)
                || SafelyMatches(Inactivity, rows, r, t)
                || (SafelyMatches(SuspendedTooLong, rows, r, t) && !Fails(Inactivity, rows) && !Fails(Unsuspend, rows));
    NeverFails(rows);
    if sure {
      forall active, delivered
        ensures PreTerminate(true) in RoundEffect(rows, r, t.(delivered := delivered), active)
      {
        TerminationWins(rows, r, t.(delivered := delivered), active);
      }
    } else {
      var worst := t.(delivered := WorstCase(t).delivered);
      assert !MustTerminate(rows, r, worst);
      NoTerminationOtherwise(rows, r, worst, []);
      assert PreTerminate(true) !in RoundEffect(rows, r, t.(delivered := WorstCase(t).delivered), []);
    }
  }

  /** The outcome of a round in which no query fails, for a channel without active jobs, written out on its row:
      used up, idle or suspended for too long, it is terminated; suspended, it is activated when it lags no more
      than allowed; active, it is suspended when it lags more. */
  lemma RoundOutcome(rows: seq<Row>, r: Row, t: Clock)
    requires r in rows && ValidRows(rows)
    requires !Fails(Inactivity, rows) && !Fails(Unsuspend, rows) && !Fails(BillingLag, rows)
    requires r.unitPrice > 0
    ensures var usedUp := r.unitsBased && (r.service.Pending? || r.service.Active?)
                          && (r.setup + r.used * r.unitPrice >= r.deposit
                              || (r.maxUnit.Some? && r.used >= r.maxUnit.value));
            var idle := (r.service.Pending? || r.service.Active? || r.service.Suspended?)
                        && (r.lastUsage.Some? || r.changed.Some?)
                        && (r.lastUsage.Some? ==> r.lastUsage.value + r.maxInactive < t.inactivity)
                        && (r.changed.Some? ==> r.changed.value + r.maxInactive < t.inactivity);
            var tooLong := r.service.Suspended? && r.changed.Some? && r.changed.value + r.maxSuspended < t.suspended;
            var lag := r.used as real / r.interval as real - TruncDiv(r.receipt - r.setup, r.unitPrice) as real;
            RoundEffect(rows, r, t, []) ==
            if r.chainPending || !r.inUse then []
            else if usedUp || idle || tooLong then [PreTerminate(true)]
            else if r.service.Suspended? && lag <= r.maxLag as real then [PreUnsuspend(true)]
            else if r.service.Active? && lag > r.maxLag as real then [PreSuspend(true)]
            else []
  {
    NeverFails(rows);
  }

  lemma NeverFails(rows: seq<Row>)
    ensures !Fails(UnitsUsed, rows) && !Fails(SuspendedTooLong, rows)
  {
  }

  /** What makes the queries fail, read out. */
  lemma FailsMeaning(rows: seq<Row>)
    ensures Fails(Inactivity, rows) <==>
            exists z :: z in rows && Selected(Inactivity, z) && z.inactivityOverflows
    ensures Fails(Unsuspend, rows) <==>
            exists z :: z in rows && Billed(z) && z.service.Suspended? && z.unitPrice == 0
  {
    if z :| z in rows && Selected(Inactivity, z) && z.inactivityOverflows {
      assert Undefined(Inactivity, z);
    }
    if z :| z in rows && Billed(z) && z.service.Suspended? && z.unitPrice == 0 {
      assert Undefined(Unsuspend, z);
    }
  }

  /** A channel suspended long ago is left alone because another suspended channel is free of charge. */
  lemma ZeroPriceExample(free: Row, late: Row, t: Clock)
    requires ValidRow(free) && ValidRow(late) && !Undefined(Inactivity, late) && !Undefined(Inactivity, free)
    requires Billed(free) && free.service.Suspended? && free.unitPrice == 0
    requires Matches(SuspendedTooLong, late, t.suspended) && !Matches(Inactivity, late, t.inactivity)
    ensures RoundEffect([free, late], late, WorstCase(t), []) == []
  {
    assert free in [free, late] && Undefined(Unsuspend, free);
  }

  /** A round never leaves two active jobs where there was at most one. */
  lemma RoundKeepsOneActive(rows: seq<Row>, r: Row, t: Clock, active: seq<Kind>)
    requires r in rows && ValidRows(rows) && |active| <= 1
    ensures |RoundEffect(rows, r, t, active)| <= 1
  {
  }
}
