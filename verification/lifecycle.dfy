/** The service status of one channel: every writer of it, and when a terminated service stays terminated. */
module Lifecycle {
  import opened Machine
  import opened Service

  /** What a job of the channel does with the service status.
      A completion carries the status a session call asked for; the created job is the client's reaction to the
      creation of the channel and the endpoint job the setup of the service that follows; the others leave
      the status alone. */
  datatype Task =
    | SuspendJob
    | UnsuspendJob
    | TerminateJob
    | CompleteJob(to: ServiceStatus)
    | EndpointJob
    | CreatedJob
    | OtherJob

  /** The controller's role, whether the offering asks to be paid before it serves, and whether the queue's
      configuration lets completion jobs repeat. */
  datatype Env = Env(agent: bool, prepaid: bool, setupPrice: nat, duplicated: bool)

  /** The status a handler leaves. */
  function StatusAfter(env: Env, t: Task, was: ServiceStatus): ServiceStatus {
    match t
    case SuspendJob => if env.agent && was != Active then Suspended else Suspending
    case UnsuspendJob => Activating
    case TerminateJob => if was == Active then Terminating else Terminated
    case CompleteJob(to) => to
    case EndpointJob => if !env.agent then Suspended
                     else if env.prepaid || env.setupPrice > 0 then Suspending else Activating
    case CreatedJob => was
    case OtherJob => was
  }

  /** What the start of a controller makes of the status it finds. */
  function Recovered(was: ServiceStatus): (r: ServiceStatus)
    ensures r.Pending? || r.Suspended? || r.Terminated?
    ensures r.Terminated? <==> was.Terminating? || was.Terminated?
    ensures r.Pending? <==> was.Pending?
  {
    match was
    case Activating => Suspended
    case Active => Suspended
    case Suspending => Suspended
    case Terminating => Terminated
    case _ => was
  }

  // ---- the code ----

  /** The processing step a session call asks for. */
  function ReadyCompletion(was: ServiceStatus): Option<ServiceStatus> {
    if was == Activating then Some(Active) else None
  }

  function StopCompletion(was: ServiceStatus): Option<ServiceStatus> {
    if was == Terminated then None else if was == Terminating then Some(Terminated) else Some(Suspended)
  }

  /** A channel's record as the handlers read, change and save it. */
  class ChannelRecord {
    var serviceStatus: ServiceStatus

    constructor (serviceStatus: ServiceStatus)
      ensures this.serviceStatus == serviceStatus
    {
      this.serviceStatus := serviceStatus;
    }

    /** The agent's three service jobs share one update, switched by the job's type. */
    method AgentUpdateServiceStatus(env: Env, jobType: Task)
      requires env.agent && (jobType.SuspendJob? || jobType.UnsuspendJob? || jobType.TerminateJob?)
      modifies this
      ensures serviceStatus == StatusAfter(env, jobType, old(serviceStatus))
    {
      var channelIsActive := serviceStatus == Active;
      match jobType {
        case SuspendJob => serviceStatus := if channelIsActive then Suspending else Suspended;
        case TerminateJob => serviceStatus := if channelIsActive then Terminating else Terminated;
        case UnsuspendJob => serviceStatus := Activating;
      }
    }

    method AgentPreEndpointMsgCreate(env: Env)
      requires env.agent
      modifies this
      ensures serviceStatus == StatusAfter(env, EndpointJob, old(serviceStatus))
    {
      if env.prepaid || env.setupPrice > 0 {
        serviceStatus := Suspending;
      } else {
        serviceStatus := Activating;
      }
    }

    method ClientPreServiceTerminate(env: Env)
      requires !env.agent
      modifies this
      ensures serviceStatus == StatusAfter(env, TerminateJob, old(serviceStatus))
    {
      if serviceStatus == Active {
        serviceStatus := Terminating;
      } else {
        serviceStatus := Terminated;
      }
    }

    method ClientPreServiceSuspend(env: Env)
      requires !env.agent
      modifies this
      ensures serviceStatus == StatusAfter(env, SuspendJob, old(serviceStatus))
    {
      serviceStatus := Suspending;
    }

    method ClientPreServiceUnsuspend(env: Env)
      requires !env.agent
      modifies this
      ensures serviceStatus == StatusAfter(env, UnsuspendJob, old(serviceStatus))
    {
      serviceStatus := Activating;
    }

    method ClientEndpointGet(env: Env)
      requires !env.agent
      modifies this
      ensures serviceStatus == StatusAfter(env, EndpointJob, old(serviceStatus))
    {
      serviceStatus := Suspended;
    }

    method CompleteServiceTransition(env: Env, data: ServiceStatus)
      modifies this
      ensures serviceStatus == StatusAfter(env, CompleteJob(data), old(serviceStatus))
    {
      serviceStatus := data;
    }

    /** The table of handlers: what the job a worker picked does to the record. */
    method Handle(env: Env, task: Task)
      modifies this
      ensures serviceStatus == StatusAfter(env, task, old(serviceStatus))
    {
      match task {
        case CompleteJob(to) => CompleteServiceTransition(env, to);
        case CreatedJob =>
        case OtherJob =>
        case EndpointJob =>
          if env.agent {
            AgentPreEndpointMsgCreate(env);
          } else {
            ClientEndpointGet(env);
          }
        case SuspendJob =>
          if env.agent {
            AgentUpdateServiceStatus(env, task);
          } else {
            ClientPreServiceSuspend(env);
          }
        case UnsuspendJob =>
          if env.agent {
            AgentUpdateServiceStatus(env, task);
          } else {
            ClientPreServiceUnsuspend(env);
          }
        case TerminateJob =>
          if env.agent {
            AgentUpdateServiceStatus(env, task);
          } else {
            ClientPreServiceTerminate(env);
          }
      }
    }
  }

  /** The channels table at the start of a controller. */
  class ChannelsTable {
    var statuses: map<ChannelId, ServiceStatus>

    constructor (statuses: map<ChannelId, ServiceStatus>)
      ensures this.statuses == statuses
    {
      this.statuses := statuses;
    }

    /** UPDATE channels SET service_status = to WHERE service_status IN from */
    method Update(to: ServiceStatus, from: set<ServiceStatus>)
      modifies this
      ensures statuses.Keys == old(statuses.Keys)
      ensures forall c :: c in statuses ==> statuses[c] == if old(statuses)[c] in from then to else old(statuses)[c]
    {
      statuses := map c | c in statuses :: if statuses[c] in from then to else statuses[c];
    }

    /** Two bulk updates, one after the other. */
    method RecoverServiceStatuses()
      modifies this
      ensures statuses.Keys == old(statuses.Keys)
      ensures forall c :: c in statuses ==> statuses[c] == Recovered(old(statuses)[c])
    {
      Update(Suspended, {Activating, Active, Suspending});
      Update(Terminated, {Terminating});
    }
  }

  // ---- the state machine ----

  /** The job a worker is busy with: was its row canceled meanwhile, and did the handler commit already? */
  datatype Running = Running(task: Task, live: bool, wrote: bool)

  datatype State = State(
    status: ServiceStatus,
    waiting: multiset<Task>,      // active jobs no worker is busy with
    running: Option<Running>,     // jobs of one channel share a worker
    calls: multiset<Task>,        // completions session calls decided on and have not added yet
    announced: bool)              // the client saw the channel's creation on the blockchain

  datatype Action =
    | Requests(r: Request)   // a processor request
    | Ready                  // a session call that may complete an activation reads the channel
    | Stops                  // a session is stopped: the call reads the channel
    | Adds(task: Task)       // ... and adds its job
    | Announced              // the client's monitor meets the creation event
    | Another                // some other job of the channel is added
    | Starts(task: Task)     // a worker picks a job
    | Writes                 // its handler commits
    | Finishes(again: bool)  // the worker re-reads the job's row, and saves it for a retry or as done or failed
    | Restarts               // the controller dies and comes back

  /** The active rows of the jobs table. */
  function Rows(s: State): multiset<Task> {
    s.waiting + if s.running.Some? && s.running.value.live then multiset{s.running.value.task} else multiset{}
  }

  predicate Refused(s: State, r: Request) {
    || s.status !in Transitions(r)
    || (if r.Terminate? then TerminateJob in Rows(s) else Rows(s) != multiset{})
  }

  function TaskOf(r: Request): Task {
    match r
    case Suspend => SuspendJob
    case Activate => UnsuspendJob
    case Terminate => TerminateJob
  }

  predicate HasCompletion(rows: multiset<Task>) {
    exists to: ServiceStatus :: CompleteJob(to) in rows
  }

  function Decided(s: State, to: Option<ServiceStatus>): State {
    if to.None? then s else s.(calls := s.calls + multiset{CompleteJob(to.value)})
  }

  /** A terminate request cancels the channel's rows; the handler of a running one goes on. */
  function Requested(s: State, r: Request): State {
    if Refused(s, r) then s
    else if r.Terminate? then
      s.(waiting := multiset{TerminateJob},
         running := if s.running.None? then None else Some(s.running.value.(live := false)))
    else s.(waiting := s.waiting + multiset{TaskOf(r)})
  }

  function Written(env: Env, s: State, r: Running): State {
    var s' := s.(status := StatusAfter(env, r.task, s.status), running := Some(r.(wrote := true)));
    if r.task.CreatedJob? && !env.agent && EndpointJob !in Rows(s)
    then s'.(waiting := s.waiting + multiset{EndpointJob}) else s'
  }

  /** One committed transaction, handler or session access; an action that cannot happen changes nothing. */
  function Next(env: Env, s: State, a: Action): State {
    match a
    case Requests(r) => Requested(s, r)
    case Ready => Decided(s, ReadyCompletion(s.status))
    case Stops => Decided(s, StopCompletion(s.status))
    case Adds(t) =>
      if t !in s.calls then s
      else if !env.duplicated && HasCompletion(Rows(s)) then s.(calls := s.calls - multiset{t})
      else s.(calls := s.calls - multiset{t}, waiting := s.waiting + multiset{t})
    case Announced =>
      if env.agent || s.announced then s
      else s.(announced := true, waiting := s.waiting + multiset{CreatedJob})
    case Another => s.(waiting := s.waiting + multiset{OtherJob})
    case Starts(t) =>
      if s.running.Some? || t !in s.waiting then s
      else s.(waiting := s.waiting - multiset{t}, running := Some(Running(t, true, false)))
    case Writes =>
      if s.running.None? || s.running.value.wrote then s else Written(env, s, s.running.value)
    case Finishes(again) =>
      if s.running.None? then s
      else
        var r := s.running.value;
        s.(running := None, waiting := s.waiting + if again && r.live then multiset{r.task} else multiset{})
    case Restarts =>
      State(Recovered(s.status), Rows(s), None, multiset{}, s.announced)
  }

  function Run(env: Env, s: State, actions: seq<Action>): State
    decreases |actions|
  {
    if actions == [] then s else Run(env, Next(env, s, actions[0]), actions[1..])
  }

  lemma RunCons(env: Env, s: State, a: Action, actions: seq<Action>)
    ensures Run(env, s, [a] + actions) == Run(env, Next(env, s, a), actions)
  {
    assert ([a] + actions)[1..] == actions;
  }

  // ---- requests, as the processor serves them ----

  function JobKind(env: Env, t: Task): Kind {
    match t
    case SuspendJob => PreSuspend(env.agent)
    case UnsuspendJob => PreUnsuspend(env.agent)
    case TerminateJob => PreTerminate(env.agent)
    case CompleteJob(_) => OtherKind("completeServiceTransition")
    case EndpointJob => OtherKind(if env.agent then "agentPreEndpointMsgCreate" else "clientEndpointGet")
    case CreatedJob => OtherKind(if env.agent then "agentAfterChannelCreate" else "clientAfterChannelCreate")
    case OtherJob => OtherKind("")
  }

  /** The kinds of some rows, in some order. */
  ghost predicate KindsOf(env: Env, rows: multiset<Task>, active: seq<Kind>) {
    && (forall t :: t in rows ==> JobKind(env, t) in active)
    && (forall k :: k in active ==> exists t :: t in rows && JobKind(env, t) == k)
  }

  lemma KindsMeaning(env: Env, rows: multiset<Task>, active: seq<Kind>)
    requires KindsOf(env, rows, active)
    ensures rows == multiset{} <==> active == []
    ensures TerminateJob in rows <==> PreTerminate(env.agent) in active
  {
    if active != [] {
      assert active[0] in active;
    }
    if rows != multiset{} {
      var t :| t in rows;
      assert JobKind(env, t) in active;
    }
    if TerminateJob in rows {
      assert JobKind(env, TerminateJob) == PreTerminate(env.agent);
    }
  }

  lemma RowsRequested(s: State, r: Request)
    requires !Refused(s, r)
    ensures Rows(Requested(s, r)) == multiset{TaskOf(r)}
  {
    if !r.Terminate? {
      assert |Rows(s)| == |s.waiting| + |Rows(s) - s.waiting|;
      assert s.waiting == multiset{};
    }
  }

  lemma SingleKind(env: Env, r: Request)
    ensures KindsOf(env, multiset{TaskOf(r)}, [KindOf(r, env.agent)])
  {
    assert JobKind(env, TaskOf(r)) == KindOf(r, env.agent);
  }

  lemma RefusedLikeProcessor(env: Env, s: State, r: Request, active: seq<Kind>)
    requires KindsOf(env, Rows(s), active)
    ensures Refused(s, r) <==> Answer(s.status, active, r, env.agent) != Queued
  {
    KindsMeaning(env, Rows(s), active);
  }

  /** A request changes the rows as the processor's transaction changes the table. */
  lemma RequestsFollowProcessor(env: Env, s: State, r: Request, active: seq<Kind>)
    requires KindsOf(env, Rows(s), active)
    ensures KindsOf(env, Rows(Next(env, s, Requests(r))), Service.Effect(s.status, active, r, env.agent))
  {
    RefusedLikeProcessor(env, s, r, active);
    if !Refused(s, r) {
      RowsRequested(s, r);
      SingleKind(env, r);
    }
  }

  // ---- terminated for good ----

  /** A job that keeps a terminated service terminated, whatever follows from it. */
  predicate Harmless(env: Env, t: Task) {
    t.TerminateJob? || t == CompleteJob(Terminated) || t.OtherJob? || (t.CreatedJob? && env.agent)
  }

  /** Can a job with such a row still change something? A canceled one whose handler committed cannot. */
  predicate Spent(r: Running) {
    !r.live && r.wrote
  }

  ghost predicate AllHarmless(env: Env, tasks: multiset<Task>) {
    forall t :: t in tasks ==> Harmless(env, t)
  }

  /** Nothing that is queued, running or on its way writes another status, and the setup is behind. */
  ghost predicate Quiet(env: Env, s: State) {
    && AllHarmless(env, s.waiting)
    && AllHarmless(env, s.calls)
    && (s.running.Some? ==> Spent(s.running.value) || Harmless(env, s.running.value.task))
    && (env.agent || s.announced)
  }

  lemma HarmlessMore(env: Env, tasks: multiset<Task>, t: Task)
    requires AllHarmless(env, tasks) && Harmless(env, t)
    ensures AllHarmless(env, tasks + multiset{t})
  {
  }

  lemma HarmlessRows(env: Env, s: State)
    requires Quiet(env, s)
    ensures AllHarmless(env, Rows(s))
  {
    if s.running.Some? && s.running.value.live {
      HarmlessMore(env, s.waiting, s.running.value.task);
    }
  }

  /** Requests and session calls find nothing to do. */
  lemma TerminatedRefuses(env: Env, s: State, a: Action)
    requires s.status == Terminated && (a.Requests? || a.Ready? || a.Stops?)
    ensures Next(env, s, a) == s
  {
  }

  lemma QuietWrite(env: Env, s: State)
    requires s.status == Terminated && Quiet(env, s)
    ensures Next(env, s, Writes).status == Terminated && Quiet(env, Next(env, s, Writes))
  {
  }

  lemma QuietFinish(env: Env, s: State, again: bool)
    requires s.status == Terminated && Quiet(env, s)
    ensures Next(env, s, Finishes(again)).status == Terminated && Quiet(env, Next(env, s, Finishes(again)))
  {
    if s.running.Some? && s.running.value.live {
      HarmlessMore(env, s.waiting, s.running.value.task);
    }
  }

  lemma QuietStart(env: Env, s: State, t: Task)
    requires s.status == Terminated && Quiet(env, s)
    ensures Next(env, s, Starts(t)).status == Terminated && Quiet(env, Next(env, s, Starts(t)))
  {
  }

  lemma QuietAdds(env: Env, s: State, t: Task)
    requires s.status == Terminated && Quiet(env, s)
    ensures Next(env, s, Adds(t)).status == Terminated && Quiet(env, Next(env, s, Adds(t)))
  {
    if t in s.calls {
      HarmlessMore(env, s.waiting, t);
      assert AllHarmless(env, s.calls - multiset{t});
    }
  }

  lemma QuietStep(env: Env, s: State, a: Action)
    requires s.status == Terminated && Quiet(env, s)
    ensures Next(env, s, a).status == Terminated && Quiet(env, Next(env, s, a))
  {
    if a.Requests? || a.Ready? || a.Stops? {
      TerminatedRefuses(env, s, a);
    } else if a.Adds? {
      QuietAdds(env, s, a.task);
    } else if a.Starts? {
      QuietStart(env, s, a.task);
    } else if a.Writes? {
      QuietWrite(env, s);
    } else if a.Finishes? {
      QuietFinish(env, s, a.again);
    } else if a.Another? {
      HarmlessMore(env, s.waiting, OtherJob);
    } else {
      HarmlessRows(env, s);
    }
  }

  /** Quiescent termination is absorbing, over every run of requests, session calls, jobs and restarts. */
  lemma {:induction false} QuietForever(env: Env, s: State, actions: seq<Action>)
    requires s.status == Terminated && Quiet(env, s)
    ensures Run(env, s, actions).status == Terminated && Quiet(env, Run(env, s, actions))
    decreases |actions|
  {
    if actions != [] {
      QuietStep(env, s, actions[0]);
      QuietForever(env, Next(env, s, actions[0]), actions[1..]);
    }
  }

  // ---- and otherwise not ----

  lemma WriterWaiting(env: Env, s: State, t: Task) returns (run: seq<Action>)
    requires s.status == Terminated && s.running.None? && t in s.waiting
    requires !Harmless(env, t) && !t.CreatedJob?
    ensures Run(env, s, run).status != Terminated
  {
    var s1 := Next(env, s, Starts(t));
    run := [Writes] + [];
    RunCons(env, s1, Writes, []);
    RunCons(env, s, Starts(t), run);
    run := [Starts(t)] + run;
  }

  /** Once it commits, the created job leaves the endpoint job behind. */
  lemma CreatedRunning(env: Env, s: State) returns (run: seq<Action>)
    requires s.status == Terminated && !env.agent
    requires s.running.Some? && s.running.value.task.CreatedJob? && !s.running.value.wrote
    ensures Run(env, s, run).status != Terminated
  {
    var s1 := Next(env, s, Writes);
    var s2 := Next(env, s1, Finishes(false));
    assert EndpointJob in s2.waiting;
    run := WriterWaiting(env, s2, EndpointJob);
    RunCons(env, s1, Finishes(false), run);
    run := [Finishes(false)] + run;
    RunCons(env, s, Writes, run);
    run := [Writes] + run;
  }

  lemma HarmfulWaiting(env: Env, s: State, t: Task) returns (run: seq<Action>)
    requires s.status == Terminated && s.running.None? && t in s.waiting && !Harmless(env, t)
    ensures Run(env, s, run).status != Terminated
  {
    if t.CreatedJob? {
      run := CreatedRunning(env, Next(env, s, Starts(t)));
      RunCons(env, s, Starts(t), run);
      run := [Starts(t)] + run;
    } else {
      run := WriterWaiting(env, s, t);
    }
  }

  lemma HarmfulCall(env: Env, s: State, t: Task) returns (run: seq<Action>)
    requires s.status == Terminated && s.running.None? && t in s.calls && !Harmless(env, t)
    requires !HasCompletion(s.waiting)
    ensures Run(env, s, run).status != Terminated
  {
    assert Rows(s) == s.waiting;
    var s1 := Next(env, s, Adds(t));
    run := HarmfulWaiting(env, s1, t);
    RunCons(env, s, Adds(t), run);
    run := [Adds(t)] + run;
  }

  /** The workers can clear the way for a completion a session call has yet to add. */
  lemma {:induction false} Drained(env: Env, s: State, t: Task) returns (run: seq<Action>)
    requires s.status == Terminated && s.running.None? && t in s.calls && !Harmless(env, t)
    requires forall w :: w in s.waiting ==> Harmless(env, w)
    ensures Run(env, s, run).status != Terminated
    decreases |s.waiting|
  {
    if to: ServiceStatus :| CompleteJob(to) in s.waiting {
      var c := CompleteJob(to);
      var s1 := Next(env, s, Starts(c));
      var s2 := Next(env, s1, Finishes(false));
      assert s2.waiting == s.waiting - multiset{c};
      run := Drained(env, s2, t);
      RunCons(env, s1, Finishes(false), run);
      RunCons(env, s, Starts(c), [Finishes(false)] + run);
      run := [Starts(c)] + ([Finishes(false)] + run);
    } else {
      run := HarmfulCall(env, s, t);
    }
  }

  lemma RunningUnquiet(env: Env, s: State) returns (run: seq<Action>)
    requires s.status == Terminated && s.running.Some?
    requires !Spent(s.running.value) && !Harmless(env, s.running.value.task)
    ensures Run(env, s, run).status != Terminated
  {
    if s.running.value.live {
      run := HarmfulWaiting(env, Next(env, s, Restarts), s.running.value.task);
      RunCons(env, s, Restarts, run);
      run := [Restarts] + run;
    } else if s.running.value.task.CreatedJob? {
      run := CreatedRunning(env, s);
    } else {
      run := [Writes] + [];
      RunCons(env, s, Writes, []);
    }
  }

  lemma UnannouncedUnquiet(env: Env, s: State) returns (run: seq<Action>)
    requires s.status == Terminated && !env.agent && !s.announced
    ensures Run(env, s, run).status != Terminated
  {
    var s1 := Next(env, s, Restarts);
    run := HarmfulWaiting(env, Next(env, s1, Announced), CreatedJob);
    RunCons(env, s1, Announced, run);
    run := [Announced] + run;
    RunCons(env, s, Restarts, run);
    run := [Restarts] + run;
  }

  /** From a state that is not quiet some run takes the service out of termination. */
  lemma Unquiet(env: Env, s: State) returns (run: seq<Action>)
    requires s.status == Terminated && !Quiet(env, s)
    ensures Run(env, s, run).status != Terminated
  {
    if s.running.Some? && !Spent(s.running.value) && !Harmless(env, s.running.value.task) {
      run := RunningUnquiet(env, s);
    } else if !env.agent && !s.announced {
      run := UnannouncedUnquiet(env, s);
    } else {
      var s1 := Next(env, s, Finishes(false));
      if t :| t in s.waiting && !Harmless(env, t) {
        run := HarmfulWaiting(env, s1, t);
      } else {
        var t :| t in s.calls && !Harmless(env, t);
        run := Drained(env, s1, t);
      }
      RunCons(env, s, Finishes(false), run);
      run := [Finishes(false)] + run;
    }
  }

  /** A terminated service stays terminated in every run exactly when it is quiet now. */
  lemma TerminatedForeverIff(env: Env, s: State)
    requires s.status == Terminated
    ensures (forall run: seq<Action> :: Run(env, s, run).status == Terminated) <==> Quiet(env, s)
  {
    if Quiet(env, s) {
      forall run: seq<Action> ensures Run(env, s, run).status == Terminated {
        QuietForever(env, s, run);
      }
    } else {
      var run := Unquiet(env, s);
    }
  }

  lemma TerminateCommits(env: Env, s: State, t: Task) returns (run: seq<Action>)
    requires s.status != Active && s.running.None? && TerminateJob in s.waiting
    requires t != TerminateJob && t in s.waiting && !Harmless(env, t)
    ensures Run(env, s, run).status == Terminated && !Quiet(env, Run(env, s, run))
  {
    var s1 := Next(env, s, Starts(TerminateJob));
    assert t in s1.waiting;
    run := [Writes] + [];
    RunCons(env, s1, Writes, []);
    RunCons(env, s, Starts(TerminateJob), run);
    run := [Starts(TerminateJob)] + run;
  }

  /** A session stopped while a terminate job is queued: the completion the call adds is still there when the
      service is terminated, and overwrites the termination in some run. */
  lemma StopOverwritesTermination(env: Env, s: State) returns (run: seq<Action>)
    requires s.status !in {Active, Terminating, Terminated} && s.running.None? && TerminateJob in s.waiting
    requires env.duplicated || !HasCompletion(s.waiting)
    ensures Run(env, s, run).status == Terminated && !Quiet(env, Run(env, s, run))
  {
    var stop := CompleteJob(Suspended);
    var s1 := Next(env, s, Stops);
    run := TerminateCommits(env, Next(env, s1, Adds(stop)), stop);
    RunCons(env, s1, Adds(stop), run);
    run := [Adds(stop)] + run;
    RunCons(env, s, Stops, run);
    run := [Stops] + run;
  }

  /** A restart settles the service: what was on its way or running is suspended, what was terminating is
      terminated; a running job waits again unless it was canceled, and the calls in hand are lost. */
  lemma RestartSettles(env: Env, s: State)
    ensures var s' := Next(env, s, Restarts);
            && (s.status == Activating || s.status == Active || s.status == Suspending ==> s'.status == Suspended)
            && (s.status == Terminating ==> s'.status == Terminated)
            && (s.status == Pending || s.status == Suspended || s.status == Terminated ==> s'.status == s.status)
            && s'.running.None? && s'.calls == multiset{} && s'.announced == s.announced
            && (s.running.Some? && s.running.value.live ==>
                  s'.waiting == s.waiting + multiset{s.running.value.task})
            && (s.running.None? || !s.running.value.live ==> s'.waiting == s.waiting)
  {
  }

  // ---- what the jobs are for: whole transitions ----

  /** The worker is free, and a completion would not be refused as a duplicate. */
  predicate Free(env: Env, s: State) {
    s.running.None? && (env.duplicated || !HasCompletion(s.waiting))
  }

  /** A job is run. */
  function Works(t: Task): seq<Action> {
    [Starts(t), Writes, Finishes(false)]
  }

  /** A session call reads the channel, and its job, if it decided on one, is added and run. */
  function Calls(a: Action, t: Task): seq<Action> {
    [a, Adds(t)] + Works(t)
  }

  lemma RunSplit(env: Env, s: State, xs: seq<Action>, ys: seq<Action>)
    ensures Run(env, s, xs + ys) == Run(env, Run(env, s, xs), ys)
    decreases |xs|
  {
    if xs == [] {
      assert [] + ys == ys;
    } else {
      assert xs + ys == [xs[0]] + (xs[1..] + ys);
      RunCons(env, s, xs[0], xs[1..] + ys);
      RunSplit(env, Next(env, s, xs[0]), xs[1..], ys);
    }
  }

  lemma RunThree(env: Env, s: State, a: Action, b: Action, c: Action)
    ensures Run(env, s, [a, b, c]) == Next(env, Next(env, Next(env, s, a), b), c)
  {
    assert [a, b, c] == [a] + ([b] + ([c] + []));
    RunCons(env, s, a, [b] + ([c] + []));
    RunCons(env, Next(env, s, a), b, [c] + []);
    RunCons(env, Next(env, Next(env, s, a), b), c, []);
  }

  lemma StepsOnce(env: Env, s: State, t: Task)
    requires s.running.None? && t in s.waiting && !t.CreatedJob?
    ensures Next(env, Next(env, Next(env, s, Starts(t)), Writes), Finishes(false))
         == s.(status := StatusAfter(env, t, s.status), waiting := s.waiting - multiset{t})
  {
    var s1 := s.(waiting := s.waiting - multiset{t}, running := Some(Running(t, true, false)));
    assert Next(env, s, Starts(t)) == s1;
    var s2 := s1.(status := StatusAfter(env, t, s.status), running := Some(Running(t, true, true)));
    assert Next(env, s1, Writes) == s2;
  }

  /** A job that is run once leaves the status of its handler and nothing of itself. */
  lemma WorksOnce(env: Env, s: State, t: Task)
    requires s.running.None? && t in s.waiting && !t.CreatedJob?
    ensures Run(env, s, Works(t)) == s.(status := StatusAfter(env, t, s.status), waiting := s.waiting - multiset{t})
  {
    RunThree(env, s, Starts(t), Writes, Finishes(false));
    StepsOnce(env, s, t);
  }

  /** ... and the run goes on from there. */
  lemma AfterWorks(env: Env, s: State, t: Task, rest: seq<Action>) returns (s1: State)
    requires Free(env, s) && t in s.waiting && !t.CreatedJob?
    ensures s1 == s.(status := StatusAfter(env, t, s.status), waiting := s.waiting - multiset{t}) && Free(env, s1)
    ensures Run(env, s, Works(t)) == s1 && Run(env, s, Works(t) + rest) == Run(env, s1, rest)
  {
    WorksOnce(env, s, t);
    RunSplit(env, s, Works(t), rest);
    s1 := s.(status := StatusAfter(env, t, s.status), waiting := s.waiting - multiset{t});
    assert forall to: ServiceStatus :: CompleteJob(to) in s1.waiting ==> CompleteJob(to) in s.waiting;
  }

  lemma CallAdds(env: Env, s: State, a: Action, to: ServiceStatus)
    requires Free(env, s) && (a.Ready? || a.Stops?)
    requires Next(env, s, a) == s.(calls := s.calls + multiset{CompleteJob(to)})
    ensures Run(env, s, [a, Adds(CompleteJob(to))]) == s.(waiting := s.waiting + multiset{CompleteJob(to)})
  {
    var t := CompleteJob(to);
    var s1 := Next(env, s, a);
    assert Rows(s1) == s.waiting;
    assert s1.calls - multiset{t} == s.calls;
    RunCons(env, s, a, [Adds(t)]);
    RunCons(env, s1, Adds(t), []);
    assert [a, Adds(t)] == [a] + [Adds(t)] && [Adds(t)] == [Adds(t)] + [];
  }

  /** A session call that decides on a completion brings it about. */
  lemma CallCompletes(env: Env, s: State, a: Action, to: ServiceStatus)
    requires Free(env, s) && (a.Ready? || a.Stops?)
    requires Next(env, s, a) == s.(calls := s.calls + multiset{CompleteJob(to)})
    ensures Run(env, s, Calls(a, CompleteJob(to))) == s.(status := to)
  {
    var t := CompleteJob(to);
    CallAdds(env, s, a, to);
    RunSplit(env, s, [a, Adds(t)], Works(t));
    WorksOnce(env, s.(waiting := s.waiting + multiset{t}), t);
    assert s.waiting + multiset{t} - multiset{t} == s.waiting;
  }

  /** From suspended: the unsuspend job, and the service reporting ready, make it active. */
  lemma UnsuspendEndsActive(env: Env, s: State)
    requires s.status == Suspended && Free(env, s) && UnsuspendJob in s.waiting
    ensures Run(env, s, Works(UnsuspendJob)).status == Activating
    ensures Run(env, s, Works(UnsuspendJob) + Calls(Ready, CompleteJob(Active))).status == Active
  {
    var s1 := AfterWorks(env, s, UnsuspendJob, Calls(Ready, CompleteJob(Active)));
    CallCompletes(env, s1, Ready, Active);
  }

  /** From active: the suspend job, and the end of the session, make it suspended. */
  lemma SuspendEndsSuspended(env: Env, s: State)
    requires s.status == Active && Free(env, s) && SuspendJob in s.waiting
    ensures Run(env, s, Works(SuspendJob)).status == Suspending
    ensures Run(env, s, Works(SuspendJob) + Calls(Stops, CompleteJob(Suspended))).status == Suspended
  {
    var s1 := AfterWorks(env, s, SuspendJob, Calls(Stops, CompleteJob(Suspended)));
    CallCompletes(env, s1, Stops, Suspended);
  }

  /** From active: the terminate job, and the end of the session, make it terminated. */
  lemma TerminateEndsTerminated(env: Env, s: State)
    requires s.status == Active && Free(env, s) && TerminateJob in s.waiting
    ensures Run(env, s, Works(TerminateJob)).status == Terminating
    ensures Run(env, s, Works(TerminateJob) + Calls(Stops, CompleteJob(Terminated))).status == Terminated
  {
    var s1 := AfterWorks(env, s, TerminateJob, Calls(Stops, CompleteJob(Terminated)));
    CallCompletes(env, s1, Stops, Terminated);
  }

  /** A service that is not active has no session to wait for: it is terminated at once, and suspended at once
      by the agent; the client's job leaves it suspending. */
  lemma InactiveNeedsNoSession(env: Env, s: State)
    requires s.status != Active && s.running.None?
    ensures TerminateJob in s.waiting ==> Run(env, s, Works(TerminateJob)).status == Terminated
    ensures SuspendJob in s.waiting ==>
              Run(env, s, Works(SuspendJob)).status == if env.agent then Suspended else Suspending
  {
    if TerminateJob in s.waiting {
      WorksOnce(env, s, TerminateJob);
    }
    if SuspendJob in s.waiting {
      WorksOnce(env, s, SuspendJob);
    }
  }

  /** The end of the setup: the service becomes active when it reports ready exactly if the agent does not ask to
      be paid before. */
  lemma SetupEndsActiveIff(env: Env, s: State)
    requires Free(env, s) && EndpointJob in s.waiting
    requires CompleteJob(Active) !in s.calls && CompleteJob(Active) !in s.waiting
    ensures Run(env, s, Works(EndpointJob) + Calls(Ready, CompleteJob(Active))).status == Active
            <==> env.agent && !env.prepaid && env.setupPrice == 0
  {
    var s1 := AfterWorks(env, s, EndpointJob, Calls(Ready, CompleteJob(Active)));
    if env.agent && !env.prepaid && env.setupPrice == 0 {
      CallCompletes(env, s1, Ready, Active);
    } else {
      NothingDecided(env, s1);
    }
  }

  /** Else it is suspended: the client's at once, the agent's once a session ends. */
  lemma SetupEndsSuspended(env: Env, s: State)
    requires Free(env, s) && EndpointJob in s.waiting
    ensures Run(env, s, Works(EndpointJob)).status == Suspended <==> !env.agent
    ensures Run(env, s, Works(EndpointJob) + Calls(Stops, CompleteJob(Suspended))).status == Suspended
  {
    var s1 := AfterWorks(env, s, EndpointJob, Calls(Stops, CompleteJob(Suspended)));
    CallCompletes(env, s1, Stops, Suspended);
  }

  /** A service that is not activating is not completed by its report. */
  lemma NothingDecided(env: Env, s: State)
    requires s.status != Activating && s.status != Active && s.running.None? && CompleteJob(Active) !in s.calls
    requires Next(env, s, Ready) == s && CompleteJob(Active) !in s.waiting
    ensures Run(env, s, Calls(Ready, CompleteJob(Active))).status == s.status
  {
    var t := CompleteJob(Active);
    RunCons(env, s, Ready, [Adds(t)] + Works(t));
    RunCons(env, s, Adds(t), Works(t));
    assert Calls(Ready, t) == [Ready] + ([Adds(t)] + Works(t));
    RunThree(env, s, Starts(t), Writes, Finishes(false));
  }
}
