/** A channel's sessions: the calls of the service adapter and the usage they record. */
module Sessions {
  import opened Machine
  import opened Service
  import Lifecycle

  /** The hardcoded unit size. */
  const MEBIBYTE: int := 1024 * 1024

  datatype Session = Session(units: nat, lastUsage: int, stopped: bool)

  /** How the adapter reports: since its last report, or since the start of the session. */
  datatype Product = Product(server: bool, incremental: bool)

  datatype Reply = Ok | NonActiveChannel | SessionNotFound

  /** The latest session that is not stopped; sessions are kept in the order they started. */
  function Current(sessions: seq<Session>): (at: Option<nat>)
    ensures at.Some? ==> at.value < |sessions| && !sessions[at.value].stopped
    ensures forall i :: (if at.Some? then at.value else -1) < i < |sessions| ==> sessions[i].stopped
  {
    if sessions == [] then None
    else if !sessions[|sessions| - 1].stopped then Some(|sessions| - 1)
    else Current(sessions[..|sessions| - 1])
  }

  /** The calls, with the channel's status and the time when they are served. */
  datatype Call =
    | Start(now: int)
    | Report(status: ServiceStatus, units: nat, now: int)
    | Stop(status: ServiceStatus, now: int)

  function Answered(prod: Product, sessions: seq<Session>, c: Call): Reply {
    if !c.Report? then Ok
    else if prod.server && c.status != Active then NonActiveChannel
    else if Current(sessions).None? then SessionNotFound
    else Ok
  }

  /** The usage a report leaves: whole mebibytes, added or overwritten; an empty report is only a sign of life. */
  function Usage(prod: Product, was: nat, units: nat): nat {
    if units == 0 then was
    else if prod.incremental then Wrap64(was + units / MEBIBYTE)
    else units / MEBIBYTE
  }

  function Next(prod: Product, sessions: seq<Session>, c: Call): seq<Session> {
    match c
    case Start(now) => sessions + [Session(0, now, false)]
    case Report(_, units, now) =>
      if Answered(prod, sessions, c) != Ok then sessions
      else var i := Current(sessions).value; sessions[i := Session(Usage(prod, sessions[i].units, units), now, false)]
    case Stop(status, now) =>
      if status == Terminated || Current(sessions).None? then sessions
      else var i := Current(sessions).value; sessions[i := Session(sessions[i].units, now, true)]
  }

  /** The handler of the adapter's calls, for one channel. */
  class Handler {
    var sessions: seq<Session>

    constructor ()
      ensures sessions == []
    {
      sessions := [];
    }

    /** Asks for the completion of an activation; agents only. */
    method ServiceReady(status: ServiceStatus) returns (completion: Option<ServiceStatus>)
      ensures completion == Lifecycle.ReadyCompletion(status)
    {
      completion := None;
      if status == Activating {
        completion := Some(Active);
      }
    }

    method StartSession(prod: Product, status: ServiceStatus, now: int) returns (completion: Option<ServiceStatus>)
      modifies this
      ensures sessions == Next(prod, old(sessions), Start(now))
      ensures completion == Lifecycle.ReadyCompletion(status)
    {
      completion := None;
      sessions := sessions + [Session(0, now, false)];
      if status == Activating {
        completion := Some(Active);
      }
    }

    method UpdateSession(prod: Product, status: ServiceStatus, units: nat, now: int) returns (reply: Reply)
      requires FitsU64(units)
      modifies this
      ensures reply == Answered(prod, old(sessions), Report(status, units, now))
      ensures sessions == Next(prod, old(sessions), Report(status, units, now))
    {
      if prod.server && status != Active {
        return NonActiveChannel;
      }
      var at := Current(sessions);
      if at.None? {
        return SessionNotFound;
      }
      var sess := sessions[at.value];
      if units != 0 {
        var u := units / MEBIBYTE;
        if prod.incremental {
          sess := sess.(units := Wrap64(sess.units + u));
        } else {
          sess := sess.(units := u);
        }
      }
      sessions := sessions[at.value := sess.(lastUsage := now)];
      return Ok;
    }

    /** A terminated channel's call does nothing, not even stop the session. */
    method StopSession(prod: Product, status: ServiceStatus, now: int) returns (completion: Option<ServiceStatus>)
      modifies this
      ensures sessions == Next(prod, old(sessions), Stop(status, now))
      ensures completion == Lifecycle.StopCompletion(status)
    {
      if status == Terminated {
        return None;
      }
      completion := Some(Suspended);
      if status == Terminating {
        completion := Some(Terminated);
      }
      var at := Current(sessions);
      if at.Some? {
        sessions := sessions[at.value := sessions[at.value].(lastUsage := now, stopped := true)];
      }
    }
  }

  // ---- runs ----

  function Run(prod: Product, sessions: seq<Session>, calls: seq<Call>): seq<Session>
    decreases |calls|
  {
    if calls == [] then sessions else Run(prod, Next(prod, sessions, calls[0]), calls[1..])
  }

  /** A stopped session is final: no later call changes it. */
  lemma {:induction false} StoppedIsFinal(prod: Product, sessions: seq<Session>, calls: seq<Call>, i: nat)
    requires i < |sessions| && sessions[i].stopped
    ensures i < |Run(prod, sessions, calls)| && Run(prod, sessions, calls)[i] == sessions[i]
    decreases |calls|
  {
    if calls != [] {
      StoppedIsFinal(prod, Next(prod, sessions, calls[0]), calls[1..], i);
    }
  }

  /** The channel's usage, as the billing queries sum it. */
  function TotalUnits(sessions: seq<Session>): nat {
    if sessions == [] then 0
    else TotalUnits(sessions[..|sessions| - 1]) + sessions[|sessions| - 1].units
  }

  predicate Recorded(prod: Product, sessions: seq<Session>, c: Call) {
    c.Report? && c.units != 0 && Answered(prod, sessions, c) == Ok
  }

  /** The bytes of the accepted reports of a run, and how many these are. */
  function Bytes(prod: Product, sessions: seq<Session>, calls: seq<Call>): nat
    decreases |calls|
  {
    if calls == [] then 0
    else (if Recorded(prod, sessions, calls[0]) then calls[0].units else 0)
         + Bytes(prod, Next(prod, sessions, calls[0]), calls[1..])
  }

  function Reports(prod: Product, sessions: seq<Session>, calls: seq<Call>): nat
    decreases |calls|
  {
    if calls == [] then 0
    else (if Recorded(prod, sessions, calls[0]) then 1 else 0)
         + Reports(prod, Next(prod, sessions, calls[0]), calls[1..])
  }

  /** The whole mebibytes of each accepted report, summed. */
  function Mebibytes(prod: Product, sessions: seq<Session>, calls: seq<Call>): nat
    decreases |calls|
  {
    if calls == [] then 0
    else (if Recorded(prod, sessions, calls[0]) then calls[0].units / MEBIBYTE else 0)
         + Mebibytes(prod, Next(prod, sessions, calls[0]), calls[1..])
  }

  lemma {:induction false} TotalReplace(sessions: seq<Session>, i: nat, s: Session)
    requires i < |sessions|
    ensures TotalUnits(sessions[i := s]) == TotalUnits(sessions) - sessions[i].units + s.units
  {
    var n := |sessions| - 1;
    if i == n {
      assert sessions[i := s][..n] == sessions[..n];
    } else {
      TotalReplace(sessions[..n], i, s);
      assert sessions[i := s][..n] == sessions[..n][i := s];
    }
  }

  lemma {:induction false} TotalAtLeast(sessions: seq<Session>, i: nat)
    requires i < |sessions|
    ensures sessions[i].units <= TotalUnits(sessions)
  {
    if i < |sessions| - 1 {
      TotalAtLeast(sessions[..|sessions| - 1], i);
    }
  }

  /** One call moves the total by the whole mebibytes of a recorded report, or by less when a counter wraps. */
  lemma TotalStep(prod: Product, sessions: seq<Session>, c: Call)
    requires prod.incremental
    ensures var more := if Recorded(prod, sessions, c) then c.units / MEBIBYTE else 0;
            var after := TotalUnits(Next(prod, sessions, c));
            after <= TotalUnits(sessions) + more
            && (FitsU64(TotalUnits(sessions) + more) ==> after == TotalUnits(sessions) + more)
  {
    if c.Start? {
      assert Next(prod, sessions, c)[..|sessions|] == sessions;
    } else if Current(sessions).Some? {
      var i := Current(sessions).value;
      TotalAtLeast(sessions, i);
      TotalReplace(sessions, i, Next(prod, sessions, c)[i]);
    }
  }

  lemma {:induction false} TotalOfRun(prod: Product, sessions: seq<Session>, calls: seq<Call>)
    requires prod.incremental
    ensures var most := TotalUnits(sessions) + Mebibytes(prod, sessions, calls);
            var end := TotalUnits(Run(prod, sessions, calls));
            end <= most && (FitsU64(most) ==> end == most)
    decreases |calls|
  {
    if calls != [] {
      TotalStep(prod, sessions, calls[0]);
      TotalOfRun(prod, Next(prod, sessions, calls[0]), calls[1..]);
    }
  }

  /** Rounding each report down loses less than a unit a report. */
  lemma {:induction false} RoundingLoss(prod: Product, sessions: seq<Session>, calls: seq<Call>)
    ensures var whole := Mebibytes(prod, sessions, calls) * MEBIBYTE;
            whole <= Bytes(prod, sessions, calls) <= whole + Reports(prod, sessions, calls) * (MEBIBYTE - 1)
    decreases |calls|
  {
    if calls != [] {
      RoundingLoss(prod, Next(prod, sessions, calls[0]), calls[1..]);
    }
  }

  /** Incremental reports never over-bill, whatever is started, stopped, refused or wrapped in between; and
      while the usage fits a counter, n reports lose less than n units. */
  lemma NeverOverBills(prod: Product, calls: seq<Call>)
    requires prod.incremental
    ensures var used, bytes := TotalUnits(Run(prod, [], calls)), Bytes(prod, [], calls);
            var n := Reports(prod, [], calls);
            used <= bytes / MEBIBYTE
            && (FitsU64(bytes / MEBIBYTE) ==> bytes / MEBIBYTE - used < if n == 0 then 1 else n)
  {
    TotalOfRun(prod, [], calls);
    RoundingLoss(prod, [], calls);
  }

  // ---- what a call does ----

  function OpenSessions(sessions: seq<Session>): nat {
    if sessions == [] then 0
    else OpenSessions(sessions[..|sessions| - 1]) + if sessions[|sessions| - 1].stopped then 0 else 1
  }

  lemma {:induction false} OpenReplace(sessions: seq<Session>, i: nat, s: Session)
    requires i < |sessions|
    ensures OpenSessions(sessions[i := s]) == OpenSessions(sessions)
              - (if sessions[i].stopped then 0 else 1) + (if s.stopped then 0 else 1)
  {
    var n := |sessions| - 1;
    if i == n {
      assert sessions[i := s][..n] == sessions[..n];
    } else {
      OpenReplace(sessions[..n], i, s);
      assert sessions[i := s][..n] == sessions[..n][i := s];
    }
  }

  lemma {:induction false} OpenIsCurrent(sessions: seq<Session>)
    ensures OpenSessions(sessions) > 0 <==> Current(sessions).Some?
  {
    if sessions != [] {
      OpenIsCurrent(sessions[..|sessions| - 1]);
    }
  }

  lemma OpenAppend(sessions: seq<Session>, s: Session)
    ensures OpenSessions(sessions + [s]) == OpenSessions(sessions) + if s.stopped then 0 else 1
  {
    assert (sessions + [s])[..|sessions|] == sessions;
  }

  lemma StartOpens(prod: Product, sessions: seq<Session>, now: int)
    ensures Next(prod, sessions, Start(now)) == sessions + [Session(0, now, false)]
    ensures OpenSessions(Next(prod, sessions, Start(now))) == OpenSessions(sessions) + 1
  {
    OpenAppend(sessions, Session(0, now, false));
  }

  lemma ReportOpensNone(prod: Product, sessions: seq<Session>, status: ServiceStatus, units: nat, now: int)
    ensures OpenSessions(Next(prod, sessions, Report(status, units, now))) == OpenSessions(sessions)
  {
    var c := Report(status, units, now);
    if Answered(prod, sessions, c) == Ok {
      var i := Current(sessions).value;
      OpenReplace(sessions, i, Session(Usage(prod, sessions[i].units, units), now, false));
    }
  }

  /** A stop ends one session while any is open and the channel is not terminated. */
  lemma StopEndsOne(prod: Product, sessions: seq<Session>, status: ServiceStatus, now: int)
    ensures OpenSessions(Next(prod, sessions, Stop(status, now)))
         == if status == Terminated || OpenSessions(sessions) == 0 then OpenSessions(sessions)
            else OpenSessions(sessions) - 1
  {
    OpenIsCurrent(sessions);
    if status != Terminated && Current(sessions).Some? {
      var i := Current(sessions).value;
      OpenReplace(sessions, i, Session(sessions[i].units, now, true));
    }
  }

  /** A report is refused for a server whose channel is not active, and without an open session; else it updates the
      latest open session: its time, and unless it is empty its usage, in whole units of 1024 * 1024. */
  lemma ReportOutcome(prod: Product, sessions: seq<Session>, status: ServiceStatus, units: nat, now: int)
    ensures var c := Report(status, units, now);
            && (Answered(prod, sessions, c) == NonActiveChannel <==> prod.server && status != Active)
            && (Answered(prod, sessions, c) == SessionNotFound <==>
                  !(prod.server && status != Active) && forall k :: 0 <= k < |sessions| ==> sessions[k].stopped)
            && (Answered(prod, sessions, c) != Ok ==> Next(prod, sessions, c) == sessions)
  {
  }

  lemma ReportUpdatesLatest(prod: Product, sessions: seq<Session>, status: ServiceStatus, units: nat, now: int, i: nat)
    requires i < |sessions| && !sessions[i].stopped && forall k :: i < k < |sessions| ==> sessions[k].stopped
    requires !prod.server || status == Active
    ensures var was := sessions[i].units;
            Next(prod, sessions, Report(status, units, now)) ==
            sessions[i := Session(if units == 0 then was
                                  else if prod.incremental then (was + units / 1048576) % 0x1_0000_0000_0000_0000
                                  else units / 1048576, now, false)]
  {
    assert Current(sessions) == Some(i);
  }

  /** A stop ends the latest open session at that time, with its usage, and leaves all others alone. */
  lemma StopEndsLatest(prod: Product, sessions: seq<Session>, status: ServiceStatus, now: int, i: nat)
    requires i < |sessions| && !sessions[i].stopped && status != Terminated
    requires forall k :: i < k < |sessions| ==> sessions[k].stopped
    ensures Next(prod, sessions, Stop(status, now)) == sessions[i := Session(sessions[i].units, now, true)]
  {
    assert Current(sessions) == Some(i);
  }

  /** Reports to one session: what the calls leave of them. */
  predicate ReportsOnly(calls: seq<Call>) {
    forall i :: 0 <= i < |calls| ==> calls[i].Report? && calls[i].status == Active && calls[i].units > 0
  }

  /** A product that reports totals is billed its last report, in whole mebibytes, whatever it reported before. */
  lemma {:induction false} LastTotalCounts(prod: Product, s: Session, calls: seq<Call>)
    requires !prod.incremental && !s.stopped && ReportsOnly(calls)
    ensures var run := Run(prod, [s], calls);
            |run| == 1 && !run[0].stopped
            && run[0].units == if calls == [] then s.units else calls[|calls| - 1].units / 1048576
    decreases |calls|
  {
    if calls != [] {
      assert Current([s]) == Some(0);
      var s' := Next(prod, [s], calls[0])[0];
      assert Next(prod, [s], calls[0]) == [s'];
      assert ReportsOnly(calls[1..]);
      LastTotalCounts(prod, s', calls[1..]);
    }
  }
}
