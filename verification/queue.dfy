/** The job queue: a collector and sharded workers over a persistent table, as a step relation. */
module Queue {
  import opened Jobs

  type Id = nat

  /** A row of the jobs table. */
  datatype Job = Job(kind: string, related: string, status: JobStatus, tries: nat, notBefore: nat)

  datatype TypeConfig = TypeConfig(tryLimit: nat, tryPeriod: nat)

  /** The hash of a related id is not interpreted. */
  datatype Config = Config(workers: nat, bufLen: nat, common: TypeConfig, types: map<string, TypeConfig>,
                           handlers: set<string>, hash: string -> nat)

  ghost predicate ValidConfig(c: Config) {
    && c.workers > 0
    && c.common.tryLimit < 0x100
    && forall k :: k in c.types ==> c.types[k].tryLimit < 0x100
  }

  function TypeConfigOf(c: Config, kind: string): TypeConfig {
    if kind in c.types then c.types[kind] else c.common
  }

  /** What a worker is doing, with its own copy of the row it read. */
  datatype Worker =
    | Idle
    | Running(id: Id, job: Job)  // inside the handler
    | Handled(id: Id, job: Job)  // handler returned, copy updated, row not re-read yet
    | Ready(id: Id, job: Job)    // about to save the copy
    | Stopped                    // no handler for a type

  /** A row to be saved as active for the user. */
  datatype Copy = Copy(id: Id, job: Job)

  /** The table, the collector's rows in hand, worker buffers and workers; calls and errors are history. */
  datatype State = State(
    jobs: map<Id, Job>,
    now: nat,
    collected: seq<Id>,
    buffers: seq<seq<Id>>,
    workers: seq<Worker>,
    pending: set<Copy>,      // rows read for the user and not saved yet
    calls: map<Id, nat>,
    errors: map<Id, nat>
  )

  datatype Action =
    | Add(id: Id, kind: string, related: string, notBefore: nat)
    | Cancel(related: string)    // cancelJobs
    | UserReads(id: Id)          // the user asks to reactivate a job: its row is read and checked
    | UserSaves(copy: Copy)      // ... and saved as active
    | Tick(to: nat)
    | Collect(ids: seq<Id>)      // one collect query
    | Push                       // the collector passes its next row to a worker
    | Deliver(w: nat)            // a worker takes the next id from its buffer
    | Return(w: nat, ok: bool)   // its handler returns
    | Reread(w: nat)             // it re-reads a job that is still active
    | Save(w: nat)               // it saves its copy

  function Shard(c: Config, related: string): nat
    requires c.workers > 0
  {
    c.hash(related) % c.workers
  }

  predicate Holds(w: Worker, id: Id) {
    !w.Idle? && !w.Stopped? && w.id == id
  }

  function Times(m: map<Id, nat>, id: Id): nat {
    if id in m then m[id] else 0
  }

  // ---- the handler's outcome ----

  /** The effect of a handler's result on the worker's copy; the try counter is a uint8. */
  function AfterHandler(t: TypeConfig, j: Job, ok: bool, now: nat): Job {
    if ok then j.(status := Done) else
      var tries := if t.tryLimit != 0 then (j.tries + 1) % 0x100 else j.tries;
      if tries >= t.tryLimit && t.tryLimit != 0 then j.(tries := tries, status := Failed)
      else j.(tries := tries, notBefore := now + t.tryPeriod)
  }

  /** A worker's copy of a row, edited in place. */
  class JobRecord {
    const kind: string
    const related: string
    var status: JobStatus
    var tryCount: nat
    var notBefore: nat

    constructor (j: Job)
      ensures View() == j
    {
      kind, related, status, tryCount, notBefore := j.kind, j.related, j.status, j.tries, j.notBefore;
    }

    function View(): Job
      reads this
    {
      Job(kind, related, status, tryCount, notBefore)
    }

    method ProcessJob(t: TypeConfig, handlerOk: bool, now: nat)
      modifies this
      ensures View() == AfterHandler(t, old(View()), handlerOk, now)
      ensures handlerOk ==> status == Done && tryCount == old(tryCount) && notBefore == old(notBefore)
      ensures !handlerOk && t.tryLimit == 0 ==>
                status == old(status) && tryCount == old(tryCount) && notBefore == now + t.tryPeriod
      ensures !handlerOk && t.tryLimit > 0 ==> tryCount == (old(tryCount) + 1) % 256
      ensures !handlerOk && t.tryLimit > 0 && tryCount >= t.tryLimit ==>
                status == Failed && notBefore == old(notBefore)
      ensures !handlerOk && t.tryLimit > 0 && tryCount < t.tryLimit ==>
                status == old(status) && notBefore == now + t.tryPeriod
    {
      if handlerOk {
        status := Done;
        return;
      }
      if t.tryLimit != 0 {
        tryCount := (tryCount + 1) % 0x100;
      }
      if tryCount >= t.tryLimit && t.tryLimit != 0 {
        status := Failed;
      } else {
        notBefore := now + t.tryPeriod;
      }
    }
  }

  // ---- steps ----

  /** Rows a collect query may return: active, due, one per related id. */
  predicate Collectable(s: State, ids: seq<Id>) {
    && (forall i :: 0 <= i < |ids| ==>
          ids[i] in s.jobs && s.jobs[ids[i]].status.Active? && s.jobs[ids[i]].notBefore <= s.now)
    && forall i, j :: 0 <= i < j < |ids| && ids[i] in s.jobs && ids[j] in s.jobs ==>
         s.jobs[ids[i]].related != s.jobs[ids[j]].related
  }

  predicate WellFormed(c: Config, s: State) {
    && c.workers > 0 && |s.buffers| == c.workers && |s.workers| == c.workers
    && forall i :: 0 <= i < |s.collected| ==> s.collected[i] in s.jobs
  }

  /** A full buffer blocks the collector; an unbuffered worker must be waiting. */
  predicate HasRoom(c: Config, s: State, w: nat)
    requires WellFormed(c, s) && w < c.workers
  {
    |s.buffers[w]| < c.bufLen || (c.bufLen == 0 && s.buffers[w] == [] && s.workers[w].Idle?)
  }

  predicate Enabled(c: Config, s: State, a: Action)
    requires WellFormed(c, s)
  {
    match a
    case Add(id, _, _, _) => id !in s.jobs
    case Cancel(_) => true
    case UserReads(id) => id in s.jobs && (s.jobs[id].status.Failed? || s.jobs[id].status.Canceled?)
    case UserSaves(copy) => copy in s.pending
    case Tick(to) => to >= s.now
    case Collect(ids) => s.collected == [] && Collectable(s, ids)
    case Push => s.collected != [] && HasRoom(c, s, Shard(c, s.jobs[s.collected[0]].related))
    case Deliver(w) => w < c.workers && s.workers[w].Idle? && s.buffers[w] != [] && s.buffers[w][0] in s.jobs
    case Return(w, _) => w < c.workers && s.workers[w].Running?
    case Reread(w) => w < c.workers && s.workers[w].Handled? && s.workers[w].id in s.jobs
    case Save(w) => w < c.workers && s.workers[w].Ready?
  }

  /** The effect of an action; a disabled action changes nothing. */
  function Next(c: Config, s: State, a: Action): State
    requires WellFormed(c, s)
  {
    if !Enabled(c, s, a) then s else
      match a
      case Add(id, kind, related, notBefore) =>
        s.(jobs := s.jobs[id := Job(kind, related, Active, 0, notBefore)],
           calls := s.calls[id := 0], errors := s.errors[id := 0])
      case Cancel(related) =>
        s.(jobs := map id | id in s.jobs ::
          if s.jobs[id].related == related && s.jobs[id].status.Active?
          then s.jobs[id].(status := Canceled) else s.jobs[id])
      case UserReads(id) => s.(pending := s.pending + {Copy(id, s.jobs[id].(status := Active, tries := 0))})
      case UserSaves(copy) => s.(jobs := s.jobs[copy.id := copy.job], pending := s.pending - {copy})
      case Tick(to) => s.(now := to)
      case Collect(ids) => s.(collected := ids)
      case Push =>
        var w := Shard(c, s.jobs[s.collected[0]].related);
        s.(buffers := s.buffers[w := s.buffers[w] + [s.collected[0]]], collected := s.collected[1..])
      case Deliver(w) =>
        var id := s.buffers[w][0];
        var taken := s.(buffers := s.buffers[w := s.buffers[w][1..]]);
        if !s.jobs[id].status.Active? || s.now < s.jobs[id].notBefore then taken
        else if s.jobs[id].kind !in c.handlers then taken.(workers := s.workers[w := Stopped])
        else taken.(workers := s.workers[w := Running(id, s.jobs[id])],
                    calls := s.calls[id := Times(s.calls, id) + 1])
      case Return(w, ok) =>
        var id := s.workers[w].id;
        var job := AfterHandler(TypeConfigOf(c, s.workers[w].job.kind), s.workers[w].job, ok, s.now);
        s.(workers := s.workers[w := if job.status.Active? then Handled(id, job) else Ready(id, job)],
           errors := if ok then s.errors else s.errors[id := Times(s.errors, id) + 1])
      case Reread(w) =>
        var id, job := s.workers[w].id, s.workers[w].job;
        s.(workers := s.workers[w := Ready(id, if s.jobs[id].status.Canceled? then job.(status := Canceled) else job)])
      case Save(w) =>
        s.(jobs := s.jobs[s.workers[w].id := s.workers[w].job], workers := s.workers[w := Idle])
  }

  function Init(c: Config): State {
    State(map[], 0, [], seq(c.workers, _ => []), seq(c.workers, _ => Idle), {}, map[], map[])
  }

  // ---- the structural invariant ----

  /** Ids in a buffer and at a worker belong to the worker's shard. */
  ghost predicate BufferSharded(c: Config, s: State, w: nat)
    requires WellFormed(c, s) && w < c.workers
  {
    forall i :: 0 <= i < |s.buffers[w]| ==>
      s.buffers[w][i] in s.jobs && Shard(c, s.jobs[s.buffers[w][i]].related) == w
  }

  /** A job at a worker is in its shard, active or canceled in the table, and has not changed identity. */
  ghost predicate WorkerSharded(c: Config, s: State, w: nat)
    requires WellFormed(c, s) && w < c.workers
  {
    var k := s.workers[w];
    k.Idle? || k.Stopped? || (
      && k.id in s.jobs
      && Shard(c, s.jobs[k.id].related) == w
      && k.job.related == s.jobs[k.id].related && k.job.kind == s.jobs[k.id].kind
      && (s.jobs[k.id].status.Active? || s.jobs[k.id].status.Canceled?)
      && (k.Running? ==> k.job.status.Active?)
      && (k.Handled? ==> k.job.status.Active?))
  }

  /** A copy read for the user has not changed identity. */
  ghost predicate ReadsKnown(s: State) {
    forall x :: x in s.pending ==>
      && x.id in s.jobs && x.job.status.Active?
      && x.job.related == s.jobs[x.id].related && x.job.kind == s.jobs[x.id].kind
  }

  ghost predicate Inv(c: Config, s: State) {
    && WellFormed(c, s)
    && ReadsKnown(s)
    && forall w :: 0 <= w < c.workers ==> BufferSharded(c, s, w) && WorkerSharded(c, s, w)
  }

  lemma InvInit(c: Config)
    requires c.workers > 0
    ensures Inv(c, Init(c))
  {
  }

  /** No step forgets a job or changes what it is related to. */
  lemma IdentityKept(c: Config, s: State, a: Action, id: Id)
    requires Inv(c, s) && id in s.jobs
    ensures var s' := Next(c, s, a);
            id in s'.jobs && s'.jobs[id].related == s.jobs[id].related && s'.jobs[id].kind == s.jobs[id].kind
  {
    if a.Save? && Enabled(c, s, a) {
      assert WorkerSharded(c, s, a.w);
    }
  }

  lemma BufferStep(c: Config, s: State, a: Action, w: nat)
    requires Inv(c, s) && w < c.workers && WellFormed(c, Next(c, s, a))
    ensures BufferSharded(c, Next(c, s, a), w)
  {
    var s' := Next(c, s, a);
    assert BufferSharded(c, s, w);
    forall i | 0 <= i < |s'.buffers[w]|
      ensures s'.buffers[w][i] in s'.jobs && Shard(c, s'.jobs[s'.buffers[w][i]].related) == w
    {
      var id := s'.buffers[w][i];
      assert id in s.jobs && Shard(c, s.jobs[id].related) == w by {
        if i < |s.buffers[w]| && s'.buffers[w][i] == s.buffers[w][i] {
        } else if a.Deliver? {
          assert s'.buffers[w][i] == s.buffers[w][i + 1];
        }
      }
      IdentityKept(c, s, a, id);
    }
  }

  /** The only worker that can hold a job is the one of its shard. */
  lemma OneHolder(c: Config, s: State, w: nat, id: Id)
    requires Inv(c, s) && w < c.workers && Holds(s.workers[w], id)
    ensures id in s.jobs && w == Shard(c, s.jobs[id].related)
  {
    assert WorkerSharded(c, s, w);
  }

  /** What happens in the table to a job that some worker holds, unless that worker saves it. */
  lemma HeldRowKept(c: Config, s: State, a: Action, w: nat)
    requires Inv(c, s) && w < c.workers && !s.workers[w].Idle? && !s.workers[w].Stopped? && a != Save(w)
    ensures var id := s.workers[w].id; var s' := Next(c, s, a);
            id in s'.jobs && (s'.jobs[id].status.Active? || s'.jobs[id].status.Canceled?)
  {
    var id := s.workers[w].id;
    assert WorkerSharded(c, s, w);
    if a.Save? && Enabled(c, s, a) && s.workers[a.w].id == id {
      OneHolder(c, s, w, id);
      OneHolder(c, s, a.w, id);
    }
  }

  lemma WorkerStep(c: Config, s: State, a: Action, w: nat)
    requires Inv(c, s) && w < c.workers && WellFormed(c, Next(c, s, a))
    ensures WorkerSharded(c, Next(c, s, a), w)
  {
    var s' := Next(c, s, a);
    assert WorkerSharded(c, s, w) && BufferSharded(c, s, w);
    if !Enabled(c, s, a) || s'.workers[w].Idle? || s'.workers[w].Stopped? {
    } else if a == Deliver(w) && s'.workers[w] != s.workers[w] {
      var id := s.buffers[w][0];
      assert id in s.jobs && Shard(c, s.jobs[id].related) == w;
    } else {
      HeldRowKept(c, s, a, w);
      IdentityKept(c, s, a, s.workers[w].id);
    }
  }

  lemma WellFormedStep(c: Config, s: State, a: Action)
    requires Inv(c, s)
    ensures WellFormed(c, Next(c, s, a))
  {
    var s' := Next(c, s, a);
    forall i | 0 <= i < |s'.collected| ensures s'.collected[i] in s'.jobs {
      IdentityKept(c, s, a, s'.collected[i]);
    }
  }

  lemma ReadsStep(c: Config, s: State, a: Action)
    requires Inv(c, s)
    ensures ReadsKnown(Next(c, s, a))
  {
    var s' := Next(c, s, a);
    forall x | x in s'.pending
      ensures x.id in s'.jobs && x.job.status.Active?
              && x.job.related == s'.jobs[x.id].related && x.job.kind == s'.jobs[x.id].kind
    {
      if x in s.pending {
        IdentityKept(c, s, a, x.id);
      }
    }
  }

  lemma InvStep(c: Config, s: State, a: Action)
    requires Inv(c, s)
    ensures Inv(c, Next(c, s, a))
  {
    WellFormedStep(c, s, a);
    ReadsStep(c, s, a);
    forall w | 0 <= w < c.workers
      ensures BufferSharded(c, Next(c, s, a), w) && WorkerSharded(c, Next(c, s, a), w)
    {
      BufferStep(c, s, a, w);
      WorkerStep(c, s, a, w);
    }
  }

  /** All interleavings: any list of actions, where a disabled one changes nothing. */
  ghost function Run(c: Config, s: State, actions: seq<Action>): State
    requires Inv(c, s)
    decreases |actions|
  {
    if actions == [] then s else
      InvStep(c, s, actions[0]);
      Run(c, Next(c, s, actions[0]), actions[1..])
  }

  lemma {:induction false} InvRun(c: Config, s: State, actions: seq<Action>)
    requires Inv(c, s)
    ensures Inv(c, Run(c, s, actions))
    decreases |actions|
  {
    if actions != [] {
      InvStep(c, s, actions[0]);
      InvRun(c, Next(c, s, actions[0]), actions[1..]);
    }
  }

  // ---- mutual exclusion ----

  predicate AtWork(s: State, w: nat, id: Id) {
    w < |s.workers| && Holds(s.workers[w], id)
  }

  ghost function Reached(c: Config, actions: seq<Action>): State
    requires c.workers > 0
  {
    InvInit(c);
    Run(c, Init(c), actions)
  }

  /** In every reachable state two different workers never hold jobs of one related id. */
  lemma MutualExclusion(c: Config, actions: seq<Action>, v: nat, w: nat, i: Id, j: Id)
    requires c.workers > 0
    requires var s := Reached(c, actions); AtWork(s, v, i) && AtWork(s, w, j) && v != w
    ensures var s := Reached(c, actions);
            i in s.jobs && j in s.jobs && s.jobs[i].related != s.jobs[j].related
  {
    InvInit(c);
    InvRun(c, Init(c), actions);
    var s := Reached(c, actions);
    OneHolder(c, s, v, i);
    OneHolder(c, s, w, j);
  }

  // ---- finished and canceled jobs ----

  /** The user's request to reactivate the job has read its row and not saved it yet. */
  ghost predicate UserPending(s: State, id: Id) {
    exists x :: x in s.pending && x.id == id
  }

  /** The job is not active, and nobody is about to save an active copy of it. */
  ghost predicate Retired(c: Config, s: State, id: Id) {
    && id in s.jobs && !s.jobs[id].status.Active? && !UserPending(s, id)
    && forall w: nat :: AtWork(s, w, id) && s.workers[w].Ready? ==> !s.workers[w].job.status.Active?
  }

  lemma NotPendingStep(c: Config, s: State, a: Action, id: Id)
    requires Inv(c, s) && !UserPending(s, id)
    requires a != UserReads(id) || !Enabled(c, s, a)
    ensures !UserPending(Next(c, s, a), id)
  {
  }

  lemma RetiredStep(c: Config, s: State, a: Action, id: Id)
    requires Inv(c, s) && Retired(c, s, id)
    requires a != UserReads(id) || !Enabled(c, s, a)
    ensures Retired(c, Next(c, s, a), id)
    ensures Times(Next(c, s, a).calls, id) == Times(s.calls, id)
  {
    var s' := Next(c, s, a);
    NotPendingStep(c, s, a, id);
    if Enabled(c, s, a) {
      if a.Save? {
        assert AtWork(s, a.w, s.workers[a.w].id);
      }
      forall w: nat | AtWork(s', w, id) && s'.workers[w].Ready?
        ensures !s'.workers[w].job.status.Active?
      {
        assert WorkerSharded(c, s, w);
        if s'.workers[w] == s.workers[w] {
          assert AtWork(s, w, id);
        }
      }
    }
  }

  /** However often its id is collected into buffers, a retired job's handler never starts again. */
  lemma {:induction false} RetiredForever(c: Config, s: State, actions: seq<Action>, id: Id)
    requires Inv(c, s) && Retired(c, s, id) && UserReads(id) !in actions
    ensures Retired(c, Run(c, s, actions), id)
    ensures Times(Run(c, s, actions).calls, id) == Times(s.calls, id)
    decreases |actions|
  {
    if actions != [] {
      RetiredStep(c, s, actions[0], id);
      InvStep(c, s, actions[0]);
      RetiredForever(c, Next(c, s, actions[0]), actions[1..], id);
    }
  }

  /** A job saved as done or failed is retired, whatever the workers hold, unless the user's save is due. */
  lemma FinishedIsRetired(c: Config, s: State, id: Id)
    requires Inv(c, s) && id in s.jobs && (s.jobs[id].status.Done? || s.jobs[id].status.Failed?)
    ensures forall w: nat :: !AtWork(s, w, id)
    ensures Retired(c, s, id) <==> !UserPending(s, id)
  {
    forall w: nat ensures !AtWork(s, w, id) {
      if w < c.workers {
        assert WorkerSharded(c, s, w);
      }
    }
  }

  lemma DoneStep(c: Config, s: State, a: Action, id: Id)
    requires Inv(c, s) && id in s.jobs && s.jobs[id].status.Done? && !UserPending(s, id)
    ensures var s' := Next(c, s, a);
            id in s'.jobs && s'.jobs[id].status.Done? && !UserPending(s', id)
            && Times(s'.calls, id) == Times(s.calls, id)
  {
    FinishedIsRetired(c, s, id);
    RetiredStep(c, s, a, id);
    if a.Save? && Enabled(c, s, a) {
      assert WorkerSharded(c, s, a.w);
    }
  }

  lemma {:induction false} DoneForever(c: Config, s: State, actions: seq<Action>, id: Id)
    requires Inv(c, s) && id in s.jobs && s.jobs[id].status.Done? && !UserPending(s, id)
    ensures var s' := Run(c, s, actions);
            id in s'.jobs && s'.jobs[id].status.Done? && Times(s'.calls, id) == Times(s.calls, id)
    decreases |actions|
  {
    if actions != [] {
      DoneStep(c, s, actions[0], id);
      InvStep(c, s, actions[0]);
      DoneForever(c, Next(c, s, actions[0]), actions[1..], id);
    }
  }

  /** A done job stays done, and is not called again, in every run exactly if the user did not read it, failed
      or canceled, before it was done and saves it only now; it cannot be reactivated after. */
  lemma DoneForeverIff(c: Config, s: State, id: Id)
    requires Inv(c, s) && id in s.jobs && s.jobs[id].status.Done?
    ensures (forall actions :: var s' := Run(c, s, actions);
               id in s'.jobs && s'.jobs[id].status.Done? && Times(s'.calls, id) == Times(s.calls, id))
       <==> !UserPending(s, id)
  {
    if x :| x in s.pending && x.id == id {
      RunCons(c, s, UserSaves(x), []);
      assert [UserSaves(x)] + [] == [UserSaves(x)];
      var s' := Run(c, s, [UserSaves(x)]);
      assert !s'.jobs[id].status.Done?;
    } else {
      forall actions
        ensures var s' := Run(c, s, actions);
                id in s'.jobs && s'.jobs[id].status.Done? && Times(s'.calls, id) == Times(s.calls, id)
      {
        DoneForever(c, s, actions, id);
      }
    }
  }

  predicate IsActive(s: State, id: Id) {
    id in s.jobs && s.jobs[id].status.Active?
  }

  /** Some worker has re-read the job as active and is about to save it so. */
  ghost predicate StaleSavePending(s: State, id: Id) {
    exists w: nat :: AtWork(s, w, id) && s.workers[w].Ready? && s.workers[w].job.status.Active?
  }

  /** A cancel is never undone by a retry if it commits before the post-handler re-read, and it can be undone if
      it commits between the re-read and the save, or between the reads and saves of a reactivation. */
  lemma CancelHoldsIff(c: Config, s: State, id: Id)
    requires Inv(c, s) && id in s.jobs && s.jobs[id].status.Canceled?
    ensures (forall actions :: UserReads(id) !in actions ==> !IsActive(Run(c, s, actions), id))
       <==> !StaleSavePending(s, id) && !UserPending(s, id)
  {
    if StaleSavePending(s, id) {
      var w: nat :| AtWork(s, w, id) && s.workers[w].Ready? && s.workers[w].job.status.Active?;
      var actions := [Save(w)];
      assert IsActive(Next(c, s, Save(w)), id);
      assert Run(c, s, actions) == Next(c, s, Save(w));
      assert UserReads(id) !in actions;
    } else if x :| x in s.pending && x.id == id {
      var actions := [UserSaves(x)];
      assert Run(c, s, actions) == Next(c, s, UserSaves(x));
      assert UserReads(id) !in actions;
    } else {
      forall actions | UserReads(id) !in actions ensures !IsActive(Run(c, s, actions), id) {
        RetiredForever(c, s, actions, id);
      }
    }
  }

  /** No other job of the same type and related id is active. */
  ghost predicate Alone(s: State, id: Id, kind: string, related: string) {
    forall k :: k in s.jobs && k != id && s.jobs[k].kind == kind && s.jobs[k].related == related ==>
      !s.jobs[k].status.Active?
  }

  /** Every job of the run is added while no active job of its type and related id is in the table. */
  ghost predicate CheckedAdds(c: Config, s: State, actions: seq<Action>)
    requires Inv(c, s)
    decreases |actions|
  {
    if actions == [] then true else
      var a := actions[0];
      InvStep(c, s, a);
      (a.Add? ==> Alone(s, a.id, a.kind, a.related)) && CheckedAdds(c, Next(c, s, a), actions[1..])
  }

  /** The two jobs are active, and of one type and one related id. */
  predicate ActiveTwins(s: State, id: Id, twin: Id) {
    IsActive(s, id) && IsActive(s, twin) && id != twin
    && s.jobs[id].related == s.jobs[twin].related && s.jobs[id].kind == s.jobs[twin].kind
  }

  lemma RunCons(c: Config, s: State, a: Action, actions: seq<Action>)
    requires Inv(c, s)
    ensures Inv(c, Next(c, s, a)) && Run(c, s, [a] + actions) == Run(c, Next(c, s, a), actions)
    ensures CheckedAdds(c, s, [a] + actions) <==>
            (a.Add? ==> Alone(s, a.id, a.kind, a.related)) && CheckedAdds(c, Next(c, s, a), actions)
  {
    InvStep(c, s, a);
    assert ([a] + actions)[1..] == actions;
  }

  /** The last three steps of a stale save: the cancel, a second job of the pair, the save. */
  lemma SaveRevives(c: Config, s: State, w: nat, id: Id, twin: Id) returns (actions: seq<Action>)
    requires Inv(c, s) && AtWork(s, w, id) && s.workers[w].Ready? && s.workers[w].job.status.Active?
    requires IsActive(s, id) && twin !in s.jobs && Alone(s, id, s.jobs[id].kind, s.jobs[id].related)
    ensures UserReads(id) !in actions && CheckedAdds(c, s, actions)
    ensures ActiveTwins(Run(c, s, actions), id, twin)
  {
    assert WorkerSharded(c, s, w);
    var j := s.jobs[id];
    var cancel, add := Cancel(j.related), Add(twin, j.kind, j.related, 0);
    var s1 := Next(c, s, cancel);
    RunCons(c, s, cancel, [add, Save(w)]);
    var s2 := Next(c, s1, add);
    RunCons(c, s1, add, [Save(w)]);
    RunCons(c, s2, Save(w), []);
    assert s2.workers[w] == s.workers[w];
    actions := [cancel] + [add, Save(w)];
    assert [add, Save(w)] == [add] + [Save(w)] && [Save(w)] == [Save(w)] + [];
  }

  /** From the handler's error on. */
  lemma ErrorRevives(c: Config, s: State, w: nat, id: Id, twin: Id) returns (actions: seq<Action>)
    requires Inv(c, s) && w < c.workers && s.workers[w].Running? && s.workers[w].id == id
    requires IsActive(s, id) && twin !in s.jobs && Alone(s, id, s.jobs[id].kind, s.jobs[id].related)
    requires var j := s.workers[w].job; AfterHandler(TypeConfigOf(c, j.kind), j, false, s.now).status.Active?
    ensures UserReads(id) !in actions && CheckedAdds(c, s, actions)
    ensures ActiveTwins(Run(c, s, actions), id, twin)
  {
    var s1 := Next(c, s, Return(w, false));
    RunCons(c, s, Return(w, false), []);
    var s2 := Next(c, s1, Reread(w));
    RunCons(c, s1, Reread(w), []);
    actions := SaveRevives(c, s2, w, id, twin);
    RunCons(c, s1, Reread(w), actions);
    actions := [Reread(w)] + actions;
    RunCons(c, s, Return(w, false), actions);
    actions := [Return(w, false)] + actions;
  }

  /** From a lone due job on. */
  lemma CollectedRuns(c: Config, s: State, id: Id, twin: Id) returns (actions: seq<Action>)
    requires Inv(c, s) && c.bufLen > 0 && IsActive(s, id) && s.jobs[id].notBefore <= s.now && twin !in s.jobs
    requires Alone(s, id, s.jobs[id].kind, s.jobs[id].related)
    requires s.collected == [] && s.jobs[id].kind in c.handlers
    requires var w := Shard(c, s.jobs[id].related); s.workers[w].Idle? && s.buffers[w] == []
    requires AfterHandler(TypeConfigOf(c, s.jobs[id].kind), s.jobs[id], false, s.now).status.Active?
    ensures UserReads(id) !in actions && CheckedAdds(c, s, actions)
    ensures ActiveTwins(Run(c, s, actions), id, twin)
  {
    var w := Shard(c, s.jobs[id].related);
    var s1 := Next(c, s, Collect([id]));
    RunCons(c, s, Collect([id]), []);
    var s2 := Next(c, s1, Push);
    RunCons(c, s1, Push, []);
    assert s2.buffers[w] == [id];
    var s3 := Next(c, s2, Deliver(w));
    RunCons(c, s2, Deliver(w), []);
    actions := ErrorRevives(c, s3, w, id, twin);
    RunCons(c, s2, Deliver(w), actions);
    actions := [Deliver(w)] + actions;
    RunCons(c, s1, Push, actions);
    actions := [Push] + actions;
    RunCons(c, s, Collect([id]), actions);
    actions := [Collect([id])] + actions;
  }

  /** Two active jobs of one type and related id, although each was added while no such job was active:
      a save that overtakes a cancel brings the first one back. */
  lemma StaleSaveExample(c: Config, kind: string, related: string) returns (actions: seq<Action>)
    requires c.workers > 0 && c.bufLen > 0 && kind in c.handlers && TryLimit(c, kind) != 1
    ensures Inv(c, Init(c)) && UserReads(0) !in actions && CheckedAdds(c, Init(c), actions)
    ensures ActiveTwins(Reached(c, actions), 0, 1)
  {
    InvInit(c);
    var add := Add(0, kind, related, 0);
    RunCons(c, Init(c), add, []);
    actions := CollectedRuns(c, Next(c, Init(c), add), 0, 1);
    RunCons(c, Init(c), add, actions);
    actions := [add] + actions;
  }

  // ---- retries ----

  function TryLimit(c: Config, kind: string): nat {
    TypeConfigOf(c, kind).tryLimit
  }

  /** Handler calls and errors of a row at rest: its counter is the number of errors, and it failed on the last. */
  ghost predicate RestingCounts(j: Job, limit: nat, calls: nat, errors: nat) {
    && j.tries == errors <= limit
    && (j.status.Failed? <==> errors == limit)
    && calls == errors + if j.status.Done? then 1 else 0
  }

  /** The same for a copy at a worker: a running call has no error yet. */
  ghost predicate WorkingCounts(k: Worker, limit: nat, calls: nat, errors: nat)
    requires !k.Idle? && !k.Stopped?
  {
    if k.Running? then k.job.tries == errors < limit && calls == errors + 1
    else RestingCounts(k.job, limit, calls, errors)
  }

  /** For a limited type: the counts agree with the row, or with the copy at the worker of its shard. */
  ghost predicate Counted(c: Config, s: State, id: Id)
    requires WellFormed(c, s)
  {
    id in s.jobs && TryLimit(c, s.jobs[id].kind) > 0 ==>
      var j, k := s.jobs[id], s.workers[Shard(c, s.jobs[id].related)];
      var limit, calls, errors := TryLimit(c, j.kind), Times(s.calls, id), Times(s.errors, id);
      if Holds(k, id) then WorkingCounts(k, limit, calls, errors) else RestingCounts(j, limit, calls, errors)
  }

  lemma HandlerCounts(t: TypeConfig, j: Job, ok: bool, now: nat, calls: nat, errors: nat)
    requires 0 < t.tryLimit < 0x100 && j.status.Active? && j.tries == errors < t.tryLimit && calls == errors + 1
    ensures RestingCounts(AfterHandler(t, j, ok, now), t.tryLimit, calls, if ok then errors else errors + 1)
  {
  }

  lemma CountedDeliver(c: Config, s: State, v: nat, id: Id)
    requires Inv(c, s) && Counted(c, s, id) && id in s.jobs
    ensures WellFormed(c, Next(c, s, Deliver(v))) && Counted(c, Next(c, s, Deliver(v)), id)
  {
    if Enabled(c, s, Deliver(v)) {
      assert BufferSharded(c, s, v);
      var front := s.buffers[v][0];
      assert front in s.jobs && Shard(c, s.jobs[front].related) == v;
    }
  }

  lemma CountedReturn(c: Config, s: State, v: nat, ok: bool, id: Id)
    requires ValidConfig(c) && Inv(c, s) && Counted(c, s, id) && id in s.jobs
    ensures WellFormed(c, Next(c, s, Return(v, ok))) && Counted(c, Next(c, s, Return(v, ok)), id)
  {
    if Enabled(c, s, Return(v, ok)) {
      OneHolder(c, s, v, s.workers[v].id);
      assert WorkerSharded(c, s, v);
      if s.workers[v].id == id && TryLimit(c, s.jobs[id].kind) > 0 {
        HandlerCounts(TypeConfigOf(c, s.workers[v].job.kind), s.workers[v].job, ok, s.now,
                      Times(s.calls, id), Times(s.errors, id));
      }
    }
  }

  lemma CountedSave(c: Config, s: State, v: nat, id: Id)
    requires Inv(c, s) && Counted(c, s, id) && id in s.jobs
    requires WellFormed(c, Next(c, s, Save(v)))
    ensures Counted(c, Next(c, s, Save(v)), id)
  {
    if Enabled(c, s, Save(v)) {
      OneHolder(c, s, v, s.workers[v].id);
      assert WorkerSharded(c, s, v);
    }
  }

  lemma CountedReread(c: Config, s: State, v: nat, id: Id)
    requires Inv(c, s) && Counted(c, s, id) && id in s.jobs
    ensures WellFormed(c, Next(c, s, Reread(v))) && Counted(c, Next(c, s, Reread(v)), id)
  {
    if Enabled(c, s, Reread(v)) {
      assert WorkerSharded(c, s, v);
    }
  }

  lemma CountedAdd(c: Config, s: State, a: Action, id: Id)
    requires a.Add? && Inv(c, s) && WellFormed(c, Next(c, s, a)) && Counted(c, s, id)
    ensures Counted(c, Next(c, s, a), id)
  {
    if id !in s.jobs {
      NewJobAtNoWorker(c, s, id);
    }
  }

  lemma CountedStep(c: Config, s: State, a: Action, id: Id)
    requires ValidConfig(c) && Inv(c, s) && Inv(c, Next(c, s, a)) && Counted(c, s, id) && !UserPending(s, id)
    ensures Counted(c, Next(c, s, a), id)
  {
    if a.Add? {
      CountedAdd(c, s, a, id);
    } else if id in s.jobs {
      match a
      case Deliver(v) => CountedDeliver(c, s, v, id);
      case Return(v, ok) => CountedReturn(c, s, v, ok, id);
      case Reread(v) => CountedReread(c, s, v, id);
      case Save(v) => CountedSave(c, s, v, id);
      case _ =>
    } else if a.Save? && Enabled(c, s, a) {
      assert WorkerSharded(c, s, a.w);
    }
  }

  lemma NewJobAtNoWorker(c: Config, s: State, id: Id)
    requires Inv(c, s) && id !in s.jobs
    ensures forall w :: 0 <= w < c.workers ==> !Holds(s.workers[w], id)
  {
    forall w | 0 <= w < c.workers ensures !Holds(s.workers[w], id) {
      assert WorkerSharded(c, s, w);
    }
  }

  lemma {:induction false} CountedRun(c: Config, s: State, actions: seq<Action>, id: Id)
    requires ValidConfig(c) && Inv(c, s) && Counted(c, s, id)
    requires !UserPending(s, id) && UserReads(id) !in actions
    ensures Inv(c, Run(c, s, actions)) && Counted(c, Run(c, s, actions), id)
    decreases |actions|
  {
    if actions != [] {
      InvStep(c, s, actions[0]);
      CountedStep(c, s, actions[0], id);
      NotPendingStep(c, s, actions[0], id);
      CountedRun(c, Next(c, s, actions[0]), actions[1..], id);
    }
  }

  /** Retry bound: a job of a type limited to N tries has its handler called at most N times,
      and, once no worker holds it, it is failed exactly after N errors. */
  lemma RetryBound(c: Config, actions: seq<Action>, id: Id)
    requires ValidConfig(c) && UserReads(id) !in actions
    requires var s := Reached(c, actions);
             id in s.jobs && TryLimit(c, s.jobs[id].kind) > 0
    ensures var s := Reached(c, actions);
            var limit := TryLimit(c, s.jobs[id].kind);
            && Times(s.calls, id) <= limit
            && ((forall w: nat :: !AtWork(s, w, id)) ==>
                  (s.jobs[id].status.Failed? <==> Times(s.errors, id) == limit))
  {
    InvInit(c);
    CountedRun(c, Init(c), actions, id);
    var s := Reached(c, actions);
    var w := Shard(c, s.jobs[id].related);
    if !Holds(s.workers[w], id) {
      assert RestingCounts(s.jobs[id], TryLimit(c, s.jobs[id].kind), Times(s.calls, id), Times(s.errors, id));
    } else {
      assert AtWork(s, w, id);
    }
  }

  // ---- when a failed job runs again ----

  /** Nobody will run the job before it is due: its row, or the copy a worker is about to save, is not active or
      not due yet. */
  ghost predicate Deferred(c: Config, s: State, id: Id, due: nat)
    requires WellFormed(c, s)
  {
    && id in s.jobs && !UserPending(s, id)
    && var k := s.workers[Shard(c, s.jobs[id].related)];
       var j := if Holds(k, id) then k.job else s.jobs[id];
       (Holds(k, id) ==> !k.Running?) && (j.status.Active? ==> j.notBefore >= due)
  }

  lemma DeferredDeliver(c: Config, s: State, v: nat, id: Id, due: nat)
    requires Inv(c, s) && Deferred(c, s, id, due) && s.now < due
    ensures var s' := Next(c, s, Deliver(v));
            WellFormed(c, s') && Deferred(c, s', id, due) && Times(s'.calls, id) == Times(s.calls, id)
  {
    if Enabled(c, s, Deliver(v)) {
      assert BufferSharded(c, s, v);
      var front := s.buffers[v][0];
      assert front in s.jobs && Shard(c, s.jobs[front].related) == v;
    }
  }

  lemma DeferredWork(c: Config, s: State, a: Action, id: Id, due: nat)
    requires Inv(c, s) && Deferred(c, s, id, due) && (a.Return? || a.Reread? || a.Save?)
    requires WellFormed(c, Next(c, s, a))
    ensures var s' := Next(c, s, a); Deferred(c, s', id, due) && Times(s'.calls, id) == Times(s.calls, id)
  {
    if Enabled(c, s, a) {
      assert WorkerSharded(c, s, a.w);
      OneHolder(c, s, a.w, s.workers[a.w].id);
    }
  }

  lemma DeferredStep(c: Config, s: State, a: Action, id: Id, due: nat)
    requires Inv(c, s) && Inv(c, Next(c, s, a)) && Deferred(c, s, id, due) && s.now < due && a != UserReads(id)
    ensures var s' := Next(c, s, a); Deferred(c, s', id, due) && Times(s'.calls, id) == Times(s.calls, id)
  {
    NotPendingStep(c, s, a, id);
    match a
    case Deliver(v) => DeferredDeliver(c, s, v, id, due);
    case Return(_, _) => DeferredWork(c, s, a, id, due);
    case Reread(_) => DeferredWork(c, s, a, id, due);
    case Save(_) => DeferredWork(c, s, a, id, due);
    case _ =>
  }

  lemma {:induction false} ClockGrows(c: Config, s: State, actions: seq<Action>)
    requires Inv(c, s)
    ensures s.now <= Run(c, s, actions).now
    decreases |actions|
  {
    if actions != [] {
      InvStep(c, s, actions[0]);
      ClockGrows(c, Next(c, s, actions[0]), actions[1..]);
    }
  }

  lemma {:induction false} DeferredRun(c: Config, s: State, actions: seq<Action>, id: Id, due: nat)
    requires Inv(c, s) && Deferred(c, s, id, due) && UserReads(id) !in actions
    requires Run(c, s, actions).now < due
    ensures Inv(c, Run(c, s, actions)) && Deferred(c, Run(c, s, actions), id, due)
    ensures Times(Run(c, s, actions).calls, id) == Times(s.calls, id)
    decreases |actions|
  {
    ClockGrows(c, s, actions);
    if actions != [] {
      InvStep(c, s, actions[0]);
      DeferredStep(c, s, actions[0], id, due);
      DeferredRun(c, Next(c, s, actions[0]), actions[1..], id, due);
    }
  }

  /** A job whose handler failed and that stays active is not called again, in any run without a reactivation,
      before the try period of its type has passed since. */
  lemma RetryWaits(c: Config, s: State, w: nat, id: Id, actions: seq<Action>)
    requires Inv(c, s) && w < c.workers && s.workers[w].Running? && s.workers[w].id == id
    requires Next(c, s, Return(w, false)).workers[w].job.status.Active?
    requires !UserPending(s, id) && UserReads(id) !in actions
    ensures Inv(c, Next(c, s, Return(w, false)))
    ensures var s1 := Next(c, s, Return(w, false));
            var kind := s.workers[w].job.kind;
            var period := if kind in c.types then c.types[kind].tryPeriod else c.common.tryPeriod;
            var s' := Run(c, s1, actions);
            Times(s'.calls, id) != Times(s1.calls, id) ==> s'.now >= s.now + period
  {
    var s1 := Next(c, s, Return(w, false));
    InvStep(c, s, Return(w, false));
    var kind := s.workers[w].job.kind;
    var period := if kind in c.types then c.types[kind].tryPeriod else c.common.tryPeriod;
    OneHolder(c, s, w, id);
    assert WorkerSharded(c, s, w);
    assert Deferred(c, s1, id, s.now + period);
    if Run(c, s1, actions).now < s.now + period {
      DeferredRun(c, s1, actions, id, s.now + period);
    }
  }

  /** How often a job waits: with the collector, and in the buffer of its shard. */
  function Copies(c: Config, s: State, id: Id): nat
    requires WellFormed(c, s) && id in s.jobs
  {
    multiset(s.collected)[id] + multiset(s.buffers[Shard(c, s.jobs[id].related)])[id]
  }

  lemma TailCounts(ids: seq<Id>, id: Id)
    requires ids != []
    ensures multiset(ids[1..])[id] == multiset(ids)[id] - if ids[0] == id then 1 else 0
  {
    assert ids == [ids[0]] + ids[1..];
  }

  lemma AppendCounts(ids: seq<Id>, last: Id, id: Id)
    ensures multiset(ids + [last])[id] == multiset(ids)[id] + if last == id then 1 else 0
  {
  }

  lemma CopiesPush(c: Config, s: State, id: Id)
    requires Inv(c, s) && id in s.jobs
    ensures WellFormed(c, Next(c, s, Push)) && id in Next(c, s, Push).jobs
    ensures Copies(c, Next(c, s, Push), id) <= Copies(c, s, id)
  {
    WellFormedStep(c, s, Push);
    if Enabled(c, s, Push) {
      TailCounts(s.collected, id);
      AppendCounts(s.buffers[Shard(c, s.jobs[s.collected[0]].related)], s.collected[0], id);
    }
  }

  lemma CopiesDeliver(c: Config, s: State, v: nat, id: Id)
    requires Inv(c, s) && id in s.jobs
    ensures WellFormed(c, Next(c, s, Deliver(v))) && id in Next(c, s, Deliver(v)).jobs
    ensures Copies(c, Next(c, s, Deliver(v)), id) <= Copies(c, s, id)
  {
    WellFormedStep(c, s, Deliver(v));
    if Enabled(c, s, Deliver(v)) {
      TailCounts(s.buffers[v], id);
      assert Next(c, s, Deliver(v)).buffers == s.buffers[v := s.buffers[v][1..]];
    }
  }

  /** No worker has the job: the only one that could is the one of its shard. */
  predicate AtRest(c: Config, s: State, id: Id)
    requires WellFormed(c, s)
  {
    id in s.jobs && !Holds(s.workers[Shard(c, s.jobs[id].related)], id)
  }

  lemma CopiesStep(c: Config, s: State, a: Action, id: Id, due: nat)
    requires Inv(c, s) && WellFormed(c, Next(c, s, a)) && Deferred(c, s, id, due) && s.now < due
    requires AtRest(c, s, id)
    ensures id in Next(c, s, a).jobs && Copies(c, Next(c, s, a), id) <= Copies(c, s, id)
  {
    IdentityKept(c, s, a, id);
    match a
    case Push => CopiesPush(c, s, id);
    case Deliver(v) => CopiesDeliver(c, s, v, id);
    case Collect(ids) =>
      if Enabled(c, s, a) {
        assert id !in ids;
      }
    case _ =>
  }

  lemma AtRestStep(c: Config, s: State, a: Action, id: Id, due: nat)
    requires Inv(c, s) && WellFormed(c, Next(c, s, a)) && Deferred(c, s, id, due) && s.now < due && AtRest(c, s, id)
    ensures AtRest(c, Next(c, s, a), id)
  {
    IdentityKept(c, s, a, id);
  }

  /** The collector does not pick a job that is not due: before that, the copies of its id that wait for a worker
      only get fewer. */
  lemma {:induction false} NotCollectedBeforeDue(c: Config, s: State, actions: seq<Action>, id: Id, due: nat)
    requires Inv(c, s) && Deferred(c, s, id, due) && UserReads(id) !in actions
    requires AtRest(c, s, id)
    requires Run(c, s, actions).now < due
    ensures Inv(c, Run(c, s, actions)) && id in Run(c, s, actions).jobs
    ensures Copies(c, Run(c, s, actions), id) <= Copies(c, s, id)
    decreases |actions|
  {
    ClockGrows(c, s, actions);
    if actions != [] {
      InvStep(c, s, actions[0]);
      CopiesStep(c, s, actions[0], id, due);
      AtRestStep(c, s, actions[0], id, due);
      DeferredStep(c, s, actions[0], id, due);
      NotCollectedBeforeDue(c, Next(c, s, actions[0]), actions[1..], id, due);
    }
  }
}
