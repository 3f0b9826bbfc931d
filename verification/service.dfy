/** Requests to change a channel's service status: which jobs the processor queues and which it refuses. */
module Service {
  import opened Jobs
  import opened Machine

  type ChannelId = nat

  datatype ServiceStatus = Pending | Activating | Active | Suspending | Suspended | Terminating | Terminated

  /** Job types; the agent's and the client's types of one request are different types. */
  datatype Kind =
    | PreSuspend(agent: bool)
    | PreUnsuspend(agent: bool)
    | PreTerminate(agent: bool)
    | OtherKind(name: string)

  datatype Job = Job(channel: ChannelId, kind: Kind, status: JobStatus)

  datatype Request = Suspend | Activate | Terminate

  datatype Reply = Queued | NoChannel | BadServiceStatus | ActiveJobsExist | SameJobExists | DuplicatedJob

  // ---- the tables of the processor ----

  const ACTIVATE_TRANSITIONS := {Pending, Suspended}
  const SUSPEND_TRANSITIONS := {ServiceStatus.Active}
  const TERMINATE_TRANSITIONS := {Pending, ServiceStatus.Active, Suspended}

  function Transitions(r: Request): set<ServiceStatus> {
    match r
    case Suspend => SUSPEND_TRANSITIONS
    case Activate => ACTIVATE_TRANSITIONS
    case Terminate => TERMINATE_TRANSITIONS
  }

  function KindOf(r: Request, agent: bool): Kind {
    match r
    case Suspend => PreSuspend(agent)
    case Activate => PreUnsuspend(agent)
    case Terminate => PreTerminate(agent)
  }

  /** The kinds of a channel's active jobs, in table order. */
  function ActiveOf(jobs: seq<Job>, ch: ChannelId): seq<Kind> {
    if jobs == [] then [] else
      var j := jobs[|jobs| - 1];
      ActiveOf(jobs[..|jobs| - 1], ch) + if j.channel == ch && j.status.Active? then [j.kind] else []
  }

  /** What a request does to a channel's active jobs: only a terminate request cancels, the others need none. */
  function Answer(service: ServiceStatus, active: seq<Kind>, r: Request, agent: bool): Reply {
    if service !in Transitions(r) then BadServiceStatus
    else if r.Terminate? && PreTerminate(agent) in active then SameJobExists
    else if !r.Terminate? && active != [] then ActiveJobsExist
    else Queued
  }

  function Effect(service: ServiceStatus, active: seq<Kind>, r: Request, agent: bool): seq<Kind> {
    if Answer(service, active, r, agent) == Queued then [KindOf(r, agent)] else active
  }

  /** What each request needs, and what becomes of the channel's active jobs. */
  lemma RequestOutcome(service: ServiceStatus, active: seq<Kind>, agent: bool)
    ensures Effect(service, active, Suspend, agent)
         == if service == ServiceStatus.Active && active == [] then [PreSuspend(agent)] else active
    ensures Effect(service, active, Activate, agent)
         == if (service == Pending || service == Suspended) && active == [] then [PreUnsuspend(agent)] else active
    ensures Effect(service, active, Terminate, agent)
         == if (service == Pending || service == ServiceStatus.Active || service == Suspended)
               && PreTerminate(agent) !in active then [PreTerminate(agent)] else active
  {
  }

  /** The reply names the first guard that refuses. */
  lemma ReplyOutcome(service: ServiceStatus, active: seq<Kind>, agent: bool)
    ensures Answer(service, active, Suspend, agent)
         == if service != ServiceStatus.Active then BadServiceStatus
            else if active != [] then ActiveJobsExist else Queued
    ensures Answer(service, active, Activate, agent)
         == if service != Pending && service != Suspended then BadServiceStatus
            else if active != [] then ActiveJobsExist else Queued
    ensures Answer(service, active, Terminate, agent)
         == if service != Pending && service != ServiceStatus.Active && service != Suspended then BadServiceStatus
            else if PreTerminate(agent) in active then SameJobExists else Queued
  {
  }

  lemma ActiveAppend(jobs: seq<Job>, j: Job, ch: ChannelId)
    ensures ActiveOf(jobs + [j], ch)
         == ActiveOf(jobs, ch) + if j.channel == ch && j.status.Active? then [j.kind] else []
  {
    assert (jobs + [j])[..|jobs|] == jobs;
  }

  lemma {:induction false} ActiveMember(jobs: seq<Job>, ch: ChannelId, k: Kind)
    ensures k in ActiveOf(jobs, ch) <==>
            exists i :: 0 <= i < |jobs| && jobs[i].channel == ch && jobs[i].status.Active? && jobs[i].kind == k
  {
    if jobs != [] {
      var n := |jobs| - 1;
      ActiveMember(jobs[..n], ch, k);
      if k in ActiveOf(jobs[..n], ch) {
        var i :| 0 <= i < n && jobs[..n][i].channel == ch && jobs[..n][i].status.Active? && jobs[..n][i].kind == k;
        assert jobs[i] == jobs[..n][i];
      }
      if i :| 0 <= i < n && jobs[i].channel == ch && jobs[i].status.Active? && jobs[i].kind == k {
        assert jobs[..n][i] == jobs[i];
      }
    }
  }

  lemma ActiveEmpty(jobs: seq<Job>, ch: ChannelId)
    ensures ActiveOf(jobs, ch) == [] <==>
            forall i :: 0 <= i < |jobs| && jobs[i].channel == ch ==> !jobs[i].status.Active?
  {
    if ActiveOf(jobs, ch) == [] {
      forall i | 0 <= i < |jobs| && jobs[i].channel == ch ensures !jobs[i].status.Active? {
        ActiveMember(jobs, ch, jobs[i].kind);
      }
    } else {
      ActiveMember(jobs, ch, ActiveOf(jobs, ch)[0]);
    }
  }

  function CanceledRows(jobs: seq<Job>, ch: ChannelId): seq<Job> {
    seq(|jobs|, i requires 0 <= i < |jobs| =>
      if jobs[i].channel == ch && jobs[i].status.Active? then jobs[i].(status := JobStatus.Canceled) else jobs[i])
  }

  lemma {:induction false} ActiveCanceled(jobs: seq<Job>, ch: ChannelId, other: ChannelId)
    ensures ActiveOf(CanceledRows(jobs, ch), other) == if other == ch then [] else ActiveOf(jobs, other)
  {
    if jobs != [] {
      var n := |jobs| - 1;
      ActiveCanceled(jobs[..n], ch, other);
      assert CanceledRows(jobs, ch)[..n] == CanceledRows(jobs[..n], ch);
    }
  }

  // ---- the processor ----

  class Processor {
    const duplicated: set<Kind>  // types whose configuration switches the duplicate check off
    var channels: map<ChannelId, ServiceStatus>
    var jobs: seq<Job>

    constructor (duplicated: set<Kind>, channels: map<ChannelId, ServiceStatus>, jobs: seq<Job>)
      ensures this.duplicated == duplicated && this.channels == channels && this.jobs == jobs
    {
      this.duplicated, this.channels, this.jobs := duplicated, channels, jobs;
    }

    /** Is there an active job of the channel, of one type or of any? */
    method JobExists(ch: ChannelId, kind: Option<Kind>) returns (found: bool)
      ensures kind.None? ==> (found <==> ActiveOf(jobs, ch) != [])
      ensures kind.Some? ==> (found <==> kind.value in ActiveOf(jobs, ch))
    {
      if kind.Some? {
        ActiveMember(jobs, ch, kind.value);
        found := exists i :: 0 <= i < |jobs| && jobs[i].channel == ch && jobs[i].status.Active?
                             && jobs[i].kind == kind.value;
      } else {
        ActiveEmpty(jobs, ch);
        found := exists i :: 0 <= i < |jobs| && jobs[i].channel == ch && jobs[i].status.Active?;
      }
    }

    /** The transaction: guard, check, cancel, add. The queue's own duplicate check reads committed rows,
        and never gets to refuse. */
    method AlterServiceStatus(ch: ChannelId, r: Request, agent: bool) returns (reply: Reply)
      modifies this`jobs
      ensures reply == if ch in channels then Answer(channels[ch], ActiveOf(old(jobs), ch), r, agent) else NoChannel
      ensures ch in channels ==> ActiveOf(jobs, ch) == Effect(channels[ch], ActiveOf(old(jobs), ch), r, agent)
      ensures forall other :: other != ch ==> ActiveOf(jobs, other) == ActiveOf(old(jobs), other)
      ensures reply != Queued ==> jobs == old(jobs)
    {
      if ch !in channels {
        return NoChannel;
      }
      if channels[ch] !in Transitions(r) {
        return BadServiceStatus;
      }
      var found := JobExists(ch, if r.Terminate? then Some(KindOf(r, agent)) else None);
      if found {
        return if r.Terminate? then SameJobExists else ActiveJobsExist;
      }
      var table := jobs;
      if r.Terminate? {
        table := CanceledRows(jobs, ch);
      }
      var duplicate := JobExists(ch, Some(KindOf(r, agent)));
      if KindOf(r, agent) !in duplicated && duplicate {
        return DuplicatedJob;
      }
      forall other ensures ActiveOf(table + [Job(ch, KindOf(r, agent), JobStatus.Active)], other)
                        == if other == ch then [KindOf(r, agent)] else ActiveOf(jobs, other)
      {
        ActiveCanceled(jobs, ch, other);
        ActiveAppend(table, Job(ch, KindOf(r, agent), JobStatus.Active), other);
      }
      jobs := table + [Job(ch, KindOf(r, agent), JobStatus.Active)];
      return Queued;
    }
  }

  // ---- runs of requests ----

  /** A request on the channel, while its service status is whatever the workers made it. */
  datatype Call = Call(service: ServiceStatus, r: Request, agent: bool)

  function Run(active: seq<Kind>, calls: seq<Call>): seq<Kind>
    decreases |calls|
  {
    if calls == [] then active
    else Run(Effect(calls[0].service, active, calls[0].r, calls[0].agent), calls[1..])
  }

  /** From at most one active job on, no sequence of requests gives a channel two. */
  lemma {:induction false} AtMostOneActive(active: seq<Kind>, calls: seq<Call>)
    requires |active| <= 1
    ensures |Run(active, calls)| <= 1
    decreases |calls|
  {
    if calls != [] {
      AtMostOneActive(Effect(calls[0].service, active, calls[0].r, calls[0].agent), calls[1..]);
    }
  }

  /** A queued terminate job survives every further request of its role, and is then alone or was there before. */
  lemma {:induction false} TerminateStays(active: seq<Kind>, calls: seq<Call>, agent: bool)
    requires PreTerminate(agent) in active
    requires forall i :: 0 <= i < |calls| ==> calls[i].agent == agent
    ensures Run(active, calls) == active
    decreases |calls|
  {
    if calls != [] {
      TerminateStays(active, calls[1..], agent);
    }
  }
}
