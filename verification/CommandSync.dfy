/** The publication protocol of bot/app/command_sync.py as a step relation. Each
    event is the code between two awaits; cancellation and timeouts may land at
    any await, and a task inside `tree.sync()` may ignore cancellation. */
module CommandSync {
  import opened Wrappers

  type Task = nat
  type Caller = nat
  type Drainer = nat

  /** How far `_publish_global_commands` has come. `Guild` is everything after
      the global part. */
  datatype Phase = Created | WaitingFor(predecessors: set<Task>) | Syncing | Guild | Finished(cancelled: bool)

  datatype TaskState = TaskState(generation: nat, phase: Phase, cancelPending: bool)

  /** An activation of `disconnect` or `_cancel_global_command_sync` at an await. */
  datatype Drain =
    | Pausing(targets: set<Task>)
    | Awaiting(targets: set<Task>, running: set<Task>, active: Option<Task>)

  datatype State = State(
    generation: nat,
    closed: bool,
    current: Option<Task>,
    currentGeneration: Option<nat>,
    retired: set<Task>,
    ready: map<Caller, nat>,
    tasks: map<Task, TaskState>,
    drains: map<Drainer, Drain>,
    // Bookkeeping for what is proved: the publications created since a READY
    // caller of the current generation has been present, and whether cancel_all
    // ran before the shutdown flag was set.
    spawned: nat,
    haltedOpen: bool)

  datatype Event =
    | EnterReady(caller: Caller)
    | SyncForReady(generation: nat, created: Task)
    | LeaveReady(caller: Caller)
    | Shutdown
    | Disconnect(drainer: Drainer)
    | BeginDrain(drainer: Drainer)
    | CancelAll(drainer: Drainer)
    | EndDrain(drainer: Drainer)
    | AbandonDrain(drainer: Drainer)
    | RunTask(task: Task)
    | WakeTask(task: Task)
    | SyncReturns(task: Task)
    | GuildReturns(task: Task)
    | DeliverCancel(task: Task)
    | IgnoreCancel(task: Task)
    | DoneCallback(task: Task)

  const INITIAL := State(0, false, None, None, {}, map[], map[], map[], 0, false)

  // ----- the steps

  predicate Unfinished(s: State, t: Task) {
    t in s.tasks && !s.tasks[t].phase.Finished?
  }

  function UnfinishedOf(s: State, ts: set<Task>): set<Task> {
    set t | t in ts && Unfinished(s, t)
  }

  /** No task is created, no caller comes or goes, and neither generation nor flags change. */
  predicate Frame(s: State, r: State) {
    r.tasks.Keys == s.tasks.Keys && r.generation == s.generation && r.ready == s.ready && r.spawned == s.spawned && r.closed == s.closed && r.haltedOpen == s.haltedOpen
  }

  function Cancel(s: State, ts: set<Task>): (r: State)
    ensures Frame(s, r)
  {
    s.(tasks := map t | t in s.tasks ::
         if t in ts && !s.tasks[t].phase.Finished? then s.tasks[t].(cancelPending := true) else s.tasks[t])
  }

  function Move(s: State, t: Task, phase: Phase): (r: State)
    requires t in s.tasks
    ensures Frame(s, r)
  {
    s.(tasks := s.tasks[t := s.tasks[t].(phase := phase)])
  }

  predicate CohortPresent(s: State) {
    exists c :: c in s.ready && s.ready[c] == s.generation
  }

  /** `_release_completed_command_sync`. */
  function Release(s: State): (r: State)
    ensures Frame(s, r)
  {
    if s.current.Some? && !Unfinished(s, s.current.value)
       && (if s.currentGeneration.Some?
           then !exists c :: c in s.ready && s.ready[c] == s.currentGeneration.value
           else s.ready == map[])
    then s.(current := None, currentGeneration := None)
    else s
  }

  /** The retirement of a predecessor generation inside `sync_for_ready`. */
  function Retire(s: State, generation: nat): (r: State)
    ensures Frame(s, r)
  {
    if s.current.Some? && s.currentGeneration != Some(generation) then
      var t := s.current.value;
      var cancelled := if Unfinished(s, t) then Cancel(s, {t}).(retired := s.retired + {t}) else s;
      cancelled.(current := None, currentGeneration := None)
    else s
  }

  /** `sync_for_ready` up to its await: join the publication of this generation,
      or create it. */
  function Publish(s: State, generation: nat, created: Task): State {
    if s.closed || generation != s.generation then s
    else
      var r := Retire(s, generation);
      if r.current.Some? then r
      else r.(current := Some(created), currentGeneration := Some(generation),
              tasks := r.tasks[created := TaskState(generation, Created, false)],
              spawned := r.spawned + 1)
  }

  /** The decision right before `tree.sync()`: the global call happens only for
      the current generation of an application that is not shutting down. */
  function Decide(s: State, t: Task): (r: State)
    requires t in s.tasks
    ensures Frame(s, r)
  {
    if !s.closed && s.tasks[t].generation == s.generation then Move(s, t, Syncing) else Move(s, t, Guild)
  }

  function Run(s: State, t: Task): (r: State)
    requires t in s.tasks
    ensures Frame(s, r)
  {
    var predecessors := UnfinishedOf(s, s.retired - {t});
    if predecessors != {} then Move(s, t, WaitingFor(predecessors)) else Decide(s, t)
  }

  function Wake(s: State, t: Task): (r: State)
    requires t in s.tasks && s.tasks[t].phase.WaitingFor?
    ensures Frame(s, r)
  {
    var waited := s.tasks[t].phase.predecessors;
    var pending := UnfinishedOf(s, waited);
    var s' := s.(retired := s.retired - (waited - pending));
    if pending != {} then Move(s', t, Guild) else Decide(s', t)
  }

  /** The end of `_cancel_global_command_sync`. */
  function Drained(s: State, targets: set<Task>, running: set<Task>, active: Option<Task>): (r: State)
    ensures Frame(s, r)
  {
    var pending := UnfinishedOf(s, running);
    var s' := s.(retired := s.retired - (targets - pending) + pending);
    if active.Some? && active.value in targets && s.current == active
    then s'.(current := None, currentGeneration := None)
    else s'
  }

  /** The start of `_cancel_global_command_sync`; without running targets it does
      not await. */
  function StartDrain(s: State, d: Drainer, targets: set<Task>): (r: State)
    ensures Frame(s, r)
  {
    var running := UnfinishedOf(s, targets);
    var s' := Cancel(s, running);
    if running == {} then Drained(s', targets, running, s.current).(drains := s.drains - {d})
    else s'.(drains := s.drains[d := Awaiting(targets, running, s.current)])
  }

  /** A task past its decision swallows its cancellation. */
  function Ignore(s: State, t: Task): (r: State)
    ensures Frame(s, r)
  {
    if Unfinished(s, t) && (s.tasks[t].phase.Syncing? || s.tasks[t].phase.Guild?) then
      s.(tasks := s.tasks[t := s.tasks[t].(cancelPending := false)])
    else s
  }

  function Known(s: State): set<Task> {
    s.retired + (if s.current.Some? then {s.current.value} else {})
  }

  /** An event that is not possible in a state leaves it unchanged. */
  function Step(s: State, e: Event): State {
    match e
    case EnterReady(c) => s.(ready := s.ready[c := s.generation])
    case SyncForReady(generation, created) => if created in s.tasks then s else Publish(s, generation, created)
    case LeaveReady(c) => Release(s.(ready := s.ready - {c}))
    case Shutdown => s.(closed := true)
    case Disconnect(d) =>
      if d in s.drains then s
      else s.(generation := s.generation + 1, drains := s.drains[d := Pausing(Known(s))])
    case BeginDrain(d) =>
      if d in s.drains && s.drains[d].Pausing? then StartDrain(s, d, s.drains[d].targets) else s
    case CancelAll(d) =>
      if d in s.drains then s else StartDrain(s.(haltedOpen := s.haltedOpen || !s.closed), d, Known(s))
    case EndDrain(d) =>
      if d in s.drains && s.drains[d].Awaiting? then
        Drained(s, s.drains[d].targets, s.drains[d].running, s.drains[d].active).(drains := s.drains - {d})
      else s
    case AbandonDrain(d) => s.(drains := s.drains - {d})
    case RunTask(t) =>
      if t in s.tasks && s.tasks[t].phase.Created? && !s.tasks[t].cancelPending then Run(s, t) else s
    case WakeTask(t) =>
      if t in s.tasks && s.tasks[t].phase.WaitingFor? && !s.tasks[t].cancelPending then Wake(s, t) else s
    case SyncReturns(t) => if t in s.tasks && s.tasks[t].phase.Syncing? then Move(s, t, Guild) else s
    case GuildReturns(t) => if t in s.tasks && s.tasks[t].phase.Guild? then Move(s, t, Finished(false)) else s
    case DeliverCancel(t) =>
      if Unfinished(s, t) && s.tasks[t].cancelPending then Move(s, t, Finished(true)) else s
    case IgnoreCancel(t) => Ignore(s, t)
    case DoneCallback(t) =>
      if t in s.tasks && s.tasks[t].phase.Finished? then
        var s' := s.(retired := s.retired - {t});
        if s.current == Some(t) then Release(s') else s'
      else s
  }

  /** A step; a cohort that has ended starts counting again. */
  function Next(s: State, e: Event): State {
    var s' := Step(s, e);
    if CohortPresent(s') then s' else s'.(spawned := 0)
  }

  function RunAll(events: seq<Event>): State {
    if events == [] then INITIAL else Next(RunAll(events[..|events| - 1]), events[|events| - 1])
  }

  // ----- the invariant

  /** A task that has not passed its first decision and was cancelled will never
      pass it: the pending cancellation is thrown at its next step. */
  predicate Stopped(ts: TaskState) {
    ts.phase.Created? || ts.phase.WaitingFor? ==> ts.cancelPending
  }

  ghost predicate Bookkeeping(s: State) {
    && s.retired <= s.tasks.Keys
    && (s.current.Some? ==> s.current.value in s.tasks
                            && s.currentGeneration == Some(s.tasks[s.current.value].generation))
    && (s.current.None? ==> s.currentGeneration.None?)
    && (forall t: Task :: t in s.tasks ==> s.tasks[t].generation <= s.generation)
    && (forall c: Caller :: c in s.ready ==> s.ready[c] <= s.generation)
  }

  /** Every unfinished task is current or retired, and retired tasks are stopped. */
  ghost predicate Tracked(s: State) {
    && (forall t: Task :: Unfinished(s, t) ==> s.current == Some(t) || t in s.retired)
    && (forall t: Task :: t in s.retired && t in s.tasks ==> Stopped(s.tasks[t]))
  }

  /** A task that may still decide to sync after its wait. */
  predicate MayWake(s: State, t: Task) {
    t in s.tasks && s.tasks[t].phase.WaitingFor? && !s.tasks[t].cancelPending
  }

  predicate InSync(s: State, t: Task) {
    t in s.tasks && s.tasks[t].phase.Syncing?
  }

  /** Such a task waits for every other unfinished task, and at most one task is
      inside `tree.sync()`. */
  ghost predicate Exclusive(s: State) {
    && (forall t: Task, u: Task :: MayWake(s, t) && Unfinished(s, u) && u != t ==> u in s.tasks[t].phase.predecessors)
    && (forall t: Task, u: Task :: InSync(s, t) && InSync(s, u) ==> t == u)
  }

  ghost predicate DrainOk(s: State, d: Drain) {
    && d.targets <= s.tasks.Keys
    && (d.Awaiting? ==>
          && d.running <= d.targets
          && (forall t: Task :: t in d.targets && Unfinished(s, t) ==> t in d.running)
          && (forall t: Task :: t in d.running ==> Stopped(s.tasks[t])))
  }

  ghost predicate DrainsOk(s: State) {
    forall d: Drainer :: d in s.drains ==> DrainOk(s, s.drains[d])
  }

  /** The tasks a drain aims at belong to earlier generations. */
  ghost predicate Aimed(s: State, targets: set<Task>) {
    forall t: Task :: t in targets && t in s.tasks ==> s.tasks[t].generation < s.generation
  }

  /** Unless cancel_all ran before shutdown: in an open application drains aim at
      earlier generations only, and an unbroken cohort of the current generation
      has created at most one publication, which stays cached. */
  ghost predicate CohortOk(s: State) {
    s.haltedOpen || (
      && (s.closed || forall d: Drainer :: d in s.drains ==> Aimed(s, s.drains[d].targets))
      && s.spawned <= 1
      && (s.spawned == 1 ==> s.closed || s.currentGeneration == Some(s.generation)))
  }

  ghost predicate Core(s: State) {
    Bookkeeping(s) && Tracked(s) && Exclusive(s) && DrainsOk(s)
  }

  /** What every step keeps about existing tasks. */
  ghost predicate Evolves(s: State, s': State) {
    forall t: Task :: t in s.tasks ==>
      && t in s'.tasks && s'.tasks[t].generation == s.tasks[t].generation
      && (Unfinished(s', t) ==> Unfinished(s, t))
      && (Stopped(s.tasks[t]) ==> Stopped(s'.tasks[t]))
  }

  lemma DrainsEvolve(s: State, s': State)
    requires DrainsOk(s) && Evolves(s, s')
    requires forall d: Drainer :: d in s'.drains ==>
      (d in s.drains && s'.drains[d] == s.drains[d]) || DrainOk(s', s'.drains[d])
    ensures DrainsOk(s')
  {
    forall d: Drainer | d in s'.drains ensures DrainOk(s', s'.drains[d]) {
      if d in s.drains && s'.drains[d] == s.drains[d] {
        var dr := s.drains[d];
        assert DrainOk(s, dr);
        forall t: Task | t in dr.targets ensures t in s'.tasks && (Unfinished(s', t) ==> Unfinished(s, t)) {}
      }
    }
  }

  lemma ExclusiveShrinks(s: State, s': State)
    requires Exclusive(s)
    requires forall t: Task :: InSync(s', t) ==> InSync(s, t)
    requires forall t: Task :: Unfinished(s', t) ==> Unfinished(s, t)
    requires forall t: Task :: MayWake(s', t) ==> MayWake(s, t) && s'.tasks[t].phase == s.tasks[t].phase
    ensures Exclusive(s')
  {
    forall t: Task, u: Task | InSync(s', t) && InSync(s', u) ensures t == u {
      assert InSync(s, t) && InSync(s, u);
    }
  }

  // ----- each building block keeps the core invariant

  lemma CancelCore(s: State, ts: set<Task>)
    requires Core(s)
    ensures Core(Cancel(s, ts)) && Evolves(s, Cancel(s, ts))
    ensures forall t: Task :: Unfinished(Cancel(s, ts), t) <==> Unfinished(s, t)
    ensures forall t: Task :: t in ts && t in s.tasks ==> Stopped(Cancel(s, ts).tasks[t])
  {
    var s' := Cancel(s, ts);
    assert forall t: Task :: MayWake(s', t) ==> MayWake(s, t);
    assert forall t: Task :: InSync(s', t) <==> InSync(s, t);
    DrainsEvolve(s, s');
  }

  lemma ReleaseCore(s: State)
    requires Core(s)
    ensures Core(Release(s)) && Evolves(s, Release(s))
  {
    DrainsEvolve(s, Release(s));
    ExclusiveShrinks(s, Release(s));
  }

  lemma RetireCore(s: State, generation: nat)
    requires Core(s)
    ensures Core(Retire(s, generation)) && Evolves(s, Retire(s, generation))
  {
    if s.current.Some? && s.currentGeneration != Some(generation) && Unfinished(s, s.current.value) {
      CancelCore(s, {s.current.value});
    }
    DrainsEvolve(s, Retire(s, generation));
    ExclusiveShrinks(s, Retire(s, generation));
  }

  lemma PublishCore(s: State, generation: nat, created: Task)
    requires Core(s) && created !in s.tasks
    ensures Core(Publish(s, generation, created)) && Evolves(s, Publish(s, generation, created))
  {
    if !s.closed && generation == s.generation {
      RetireCore(s, generation);
      var r, s' := Retire(s, generation), Publish(s, generation, created);
      if r.current.None? {
        assert forall t: Task :: MayWake(s', t) ==> MayWake(r, t);
        assert forall t: Task :: InSync(s', t) ==> InSync(r, t);
        assert forall t: Task :: Unfinished(s', t) && t != created ==> Unfinished(r, t);
        DrainsEvolve(r, s');
      }
    }
  }

  /** A task that is not stopped is the current one, so all others that are
      unfinished are retired. */
  lemma OthersRetired(s: State, t: Task)
    requires Core(s) && t in s.tasks && !Stopped(s.tasks[t])
    ensures s.current == Some(t) && t !in s.retired
    ensures forall u: Task :: Unfinished(s, u) && u != t ==> u in s.retired
  {
  }

  /** Entering `tree.sync()` is safe once every other task has finished. */
  lemma DecideCore(s: State, t: Task)
    requires Core(s) && t in s.tasks && !s.tasks[t].phase.Finished?
    requires forall u: Task :: Unfinished(s, u) ==> u == t
    ensures Core(Decide(s, t)) && Evolves(s, Decide(s, t))
  {
    var s' := Decide(s, t);
    forall u: Task | InSync(s', u) || MayWake(s', u) ensures u == t {
      assert u != t ==> s'.tasks[u] == s.tasks[u] && Unfinished(s, u);
    }
    DrainsEvolve(s, s');
  }

  /** Moving on without `tree.sync()` is always safe. */
  lemma MoveCore(s: State, t: Task, phase: Phase)
    requires Core(s) && t in s.tasks && !s.tasks[t].phase.Finished?
    requires phase.Guild? || phase.Finished?
    ensures Core(Move(s, t, phase)) && Evolves(s, Move(s, t, phase))
  {
    var s' := Move(s, t, phase);
    assert forall u: Task :: InSync(s', u) ==> InSync(s, u);
    assert forall u: Task :: MayWake(s', u) ==> MayWake(s, u);
    assert forall u: Task :: Unfinished(s', u) ==> Unfinished(s, u);
    DrainsEvolve(s, s');
  }

  lemma RunCore(s: State, t: Task)
    requires Core(s) && t in s.tasks && s.tasks[t].phase.Created? && !s.tasks[t].cancelPending
    ensures Core(Run(s, t)) && Evolves(s, Run(s, t))
  {
    OthersRetired(s, t);
    var predecessors := UnfinishedOf(s, s.retired - {t});
    if predecessors == {} {
      assert forall u: Task :: Unfinished(s, u) && u != t ==> u in predecessors;
      DecideCore(s, t);
    } else {
      var s' := Run(s, t);
      assert forall u: Task :: MayWake(s', u) && u != t ==> MayWake(s, u);
      assert forall u: Task :: InSync(s', u) ==> InSync(s, u);
      assert forall u: Task :: !MayWake(s, u);
      DrainsEvolve(s, s');
    }
  }

  /** Forgetting finished retired tasks. */
  lemma ForgetCore(s: State, gone: set<Task>)
    requires Core(s) && forall t: Task :: t in gone ==> !Unfinished(s, t)
    ensures Core(s.(retired := s.retired - gone)) && Evolves(s, s.(retired := s.retired - gone))
  {
    DrainsEvolve(s, s.(retired := s.retired - gone));
    ExclusiveShrinks(s, s.(retired := s.retired - gone));
  }

  lemma WakeCore(s: State, t: Task)
    requires Core(s) && MayWake(s, t)
    ensures Core(Wake(s, t)) && Evolves(s, Wake(s, t))
  {
    var waited := s.tasks[t].phase.predecessors;
    var pending := UnfinishedOf(s, waited);
    ForgetCore(s, waited - pending);
    var s' := s.(retired := s.retired - (waited - pending));
    if pending != {} {
      MoveCore(s', t, Guild);
    } else {
      assert forall u: Task :: Unfinished(s, u) && u != t ==> u in pending;
      DecideCore(s', t);
    }
  }

  lemma DrainedCore(s: State, targets: set<Task>, running: set<Task>, active: Option<Task>)
    requires Core(s) && DrainOk(s, Awaiting(targets, running, active))
    ensures Core(Drained(s, targets, running, active)) && Evolves(s, Drained(s, targets, running, active))
  {
    var s' := Drained(s, targets, running, active);
    assert s'.tasks == s.tasks && s'.drains == s.drains;
    DrainsEvolve(s, s');
    ExclusiveShrinks(s, s');
  }

  lemma AddDrain(s: State, d: Drainer, drain: Drain)
    requires Core(s) && DrainOk(s, drain)
    ensures Core(s.(drains := s.drains[d := drain])) && Evolves(s, s.(drains := s.drains[d := drain]))
  {
    DrainsEvolve(s, s.(drains := s.drains[d := drain]));
    ExclusiveShrinks(s, s.(drains := s.drains[d := drain]));
  }

  lemma StartDrainCore(s: State, d: Drainer, targets: set<Task>)
    requires Core(s) && targets <= s.tasks.Keys
    ensures Core(StartDrain(s, d, targets)) && Evolves(s, StartDrain(s, d, targets))
  {
    var running := UnfinishedOf(s, targets);
    CancelCore(s, running);
    var s' := Cancel(s, running);
    assert DrainOk(s', Awaiting(targets, running, s.current));
    if running == {} {
      DrainedCore(s', targets, running, s.current);
      DropDrain(Drained(s', targets, running, s.current), d);
      assert s'.drains == s.drains;
    } else {
      AddDrain(s', d, Awaiting(targets, running, s.current));
    }
  }

  lemma DropDrain(s: State, d: Drainer)
    requires Core(s)
    ensures Core(s.(drains := s.drains - {d})) && Evolves(s, s.(drains := s.drains - {d}))
  {
    DrainsEvolve(s, s.(drains := s.drains - {d}));
    ExclusiveShrinks(s, s.(drains := s.drains - {d}));
  }

  // ----- every step, every run

  predicate ReadyEvent(e: Event) {
    e.EnterReady? || e.SyncForReady? || e.LeaveReady? || e.Shutdown? || e.Disconnect?
  }

  predicate DrainEvent(e: Event) {
    e.BeginDrain? || e.CancelAll? || e.EndDrain? || e.AbandonDrain?
  }

  lemma ReadyStepCore(s: State, e: Event)
    requires Core(s) && ReadyEvent(e)
    ensures Core(Step(s, e))
  {
    match e
    case SyncForReady(generation, created) => if created !in s.tasks { PublishCore(s, generation, created); }
    case LeaveReady(c) =>
      SameTasks(s, s.(ready := s.ready - {c}));
      ReleaseCore(s.(ready := s.ready - {c}));
    case _ => SameTasks(s, Step(s, e));
  }

  lemma DrainStepCore(s: State, e: Event)
    requires Core(s) && DrainEvent(e)
    ensures Core(Step(s, e))
  {
    match e
    case BeginDrain(d) => if d in s.drains && s.drains[d].Pausing? { StartDrainCore(s, d, s.drains[d].targets); }
    case CancelAll(d) =>
      if d !in s.drains {
        var s' := s.(haltedOpen := s.haltedOpen || !s.closed);
        SameTasks(s, s');
        StartDrainCore(s', d, Known(s));
      }
    case EndDrain(d) =>
      if d in s.drains && s.drains[d].Awaiting? {
        var dr := s.drains[d];
        DrainedCore(s, dr.targets, dr.running, dr.active);
        DropDrain(Drained(s, dr.targets, dr.running, dr.active), d);
      }
    case AbandonDrain(d) => DropDrain(s, d);
  }

  lemma TaskStepCore(s: State, e: Event)
    requires Core(s) && !ReadyEvent(e) && !DrainEvent(e)
    ensures Core(Step(s, e)) && Evolves(s, Step(s, e))
  {
    match e
    case RunTask(t) => if t in s.tasks && s.tasks[t].phase.Created? && !s.tasks[t].cancelPending { RunCore(s, t); }
    case WakeTask(t) => if MayWake(s, t) { WakeCore(s, t); }
    case SyncReturns(t) => if InSync(s, t) { MoveCore(s, t, Guild); }
    case GuildReturns(t) => if t in s.tasks && s.tasks[t].phase.Guild? { MoveCore(s, t, Finished(false)); }
    case DeliverCancel(t) => if Unfinished(s, t) { MoveCore(s, t, Finished(true)); }
    case IgnoreCancel(t) => IgnoreCore(s, t);
    case DoneCallback(t) =>
      if t in s.tasks && s.tasks[t].phase.Finished? {
        ForgetCore(s, {t});
        ReleaseCore(s.(retired := s.retired - {t}));
      }
  }

  lemma IgnoreFacts(s: State, t: Task)
    ensures var s' := Ignore(s, t);
      && (forall u: Task :: Unfinished(s', u) <==> Unfinished(s, u))
      && (forall u: Task :: InSync(s', u) <==> InSync(s, u))
      && (forall u: Task :: MayWake(s', u) ==> MayWake(s, u) && s'.tasks[u].phase == s.tasks[u].phase)
      && (forall u: Task :: u in s.tasks ==> u in s'.tasks && s'.tasks[u].generation == s.tasks[u].generation
                                             && (Stopped(s.tasks[u]) ==> Stopped(s'.tasks[u])))
  {
  }

  lemma IgnoreCore(s: State, t: Task)
    requires Core(s)
    ensures Core(Ignore(s, t)) && Evolves(s, Ignore(s, t))
  {
    IgnoreFacts(s, t);
    ExclusiveShrinks(s, Ignore(s, t));
    DrainsEvolve(s, Ignore(s, t));
  }

  lemma StepCore(s: State, e: Event)
    requires Core(s)
    ensures Core(Step(s, e))
  {
    if ReadyEvent(e) {
      ReadyStepCore(s, e);
    } else if DrainEvent(e) {
      DrainStepCore(s, e);
    } else {
      TaskStepCore(s, e);
    }
  }

  /** Changes outside the tasks keep the core invariant. */
  lemma SameTasks(s: State, s': State)
    requires Core(s) && s'.tasks == s.tasks && s'.retired == s.retired
    requires s'.current == s.current && s'.currentGeneration == s.currentGeneration
    requires s.generation <= s'.generation
    requires forall c: Caller :: c in s'.ready ==> s'.ready[c] <= s'.generation
    requires forall d: Drainer :: d in s'.drains ==>
      (d in s.drains && s'.drains[d] == s.drains[d]) || s'.drains[d] == Pausing(Known(s))
    ensures Core(s')
  {
    ExclusiveShrinks(s, s');
    DrainsEvolve(s, s');
  }

  lemma PublishCohort(s: State, generation: nat, created: Task)
    requires Core(s) && CohortOk(s) && created !in s.tasks
    ensures CohortOk(Publish(s, generation, created))
  {
    var s' := Publish(s, generation, created);
    assert s'.drains == s.drains;
    if !s.closed && !s.haltedOpen {
      forall d: Drainer | d in s'.drains ensures Aimed(s', s'.drains[d].targets) {
        assert Aimed(s, s.drains[d].targets) && DrainOk(s, s.drains[d]);
      }
    }
  }

  lemma ReleaseCohort(s: State)
    requires Core(s) && CohortOk(s)
    ensures CohortPresent(Release(s)) ==> CohortOk(Release(s))
    ensures CohortOk(Release(s).(spawned := 0))
  {
    if !s.closed && !s.haltedOpen {
      forall d: Drainer | d in s.drains ensures Aimed(Release(s), s.drains[d].targets) {
        assert Aimed(s, s.drains[d].targets);
      }
    }
  }

  /** A step that leaves cohort, generation and the publications' generations. */
  lemma SameCohort(s: State, s': State)
    requires CohortOk(s) && Evolves(s, s') && DrainsOk(s)
    requires s'.generation == s.generation && s'.spawned == s.spawned
    requires (s.closed ==> s'.closed) && (s.haltedOpen ==> s'.haltedOpen)
    requires s'.currentGeneration == s.currentGeneration || s'.closed || s'.haltedOpen || s.spawned != 1
             || s.currentGeneration != Some(s.generation)
    requires s'.closed || s'.haltedOpen || forall d: Drainer :: d in s'.drains ==>
      d in s.drains && s'.drains[d].targets == s.drains[d].targets
    ensures CohortOk(s')
  {
    if !s'.closed && !s'.haltedOpen {
      forall d: Drainer | d in s'.drains ensures Aimed(s', s'.drains[d].targets) {
        assert Aimed(s, s.drains[d].targets) && DrainOk(s, s.drains[d]);
      }
    }
  }

  lemma ReadyStepCohort(s: State, e: Event)
    requires Core(s) && CohortOk(s) && ReadyEvent(e)
    ensures CohortPresent(Step(s, e)) ==> CohortOk(Step(s, e))
    ensures CohortOk(Step(s, e).(spawned := 0))
  {
    var s' := Step(s, e);
    match e
    case SyncForReady(generation, created) => if created !in s.tasks { PublishCohort(s, generation, created); }
    case LeaveReady(c) =>
      SameTasks(s, s.(ready := s.ready - {c}));
      SameCohort(s, s.(ready := s.ready - {c}));
      ReleaseCohort(s.(ready := s.ready - {c}));
    case Disconnect(d) =>
      if d !in s.drains {
        assert !CohortPresent(s');
        forall x: Drainer | x in s'.drains ensures Aimed(s', s'.drains[x].targets) {
        }
      }
    case _ => SameCohort(s, s');
  }

  /** The cached publication of an open cohort is never among the targets. */
  lemma DrainedCohort(s: State, targets: set<Task>, running: set<Task>, active: Option<Task>)
    requires Core(s) && CohortOk(s)
    requires s.closed || s.haltedOpen || Aimed(s, targets)
    ensures CohortOk(Drained(s, targets, running, active))
  {
    var s' := Drained(s, targets, running, active);
    if !s.closed && !s.haltedOpen {
      forall d: Drainer | d in s'.drains ensures Aimed(s', s'.drains[d].targets) {
        assert Aimed(s, s.drains[d].targets);
      }
    }
  }

  lemma CancelCohort(s: State, ts: set<Task>)
    requires Core(s) && CohortOk(s)
    ensures CohortOk(Cancel(s, ts))
    ensures forall targets :: Aimed(s, targets) ==> Aimed(Cancel(s, ts), targets)
  {
    CancelCore(s, ts);
    SameCohort(s, Cancel(s, ts));
  }

  lemma FewerDrains(s: State, d: Drainer)
    requires CohortOk(s)
    ensures CohortOk(s.(drains := s.drains - {d}))
  {
    if !s.closed && !s.haltedOpen {
      forall x: Drainer | x in s.drains && x != d ensures Aimed(s.(drains := s.drains - {d}), s.drains[x].targets) {
        assert Aimed(s, s.drains[x].targets);
      }
    }
  }

  lemma StartDrainCohort(s: State, d: Drainer, targets: set<Task>)
    requires Core(s) && CohortOk(s) && targets <= s.tasks.Keys
    requires s.closed || s.haltedOpen || Aimed(s, targets)
    ensures CohortOk(StartDrain(s, d, targets))
  {
    var running := UnfinishedOf(s, targets);
    var s' := Cancel(s, running);
    CancelCore(s, running);
    CancelCohort(s, running);
    if running == {} {
      DrainedCohort(s', targets, running, s.current);
      FewerDrains(Drained(s', targets, running, s.current), d);
    } else if !s.closed && !s.haltedOpen {
      var s'' := StartDrain(s, d, targets);
      forall x: Drainer | x in s''.drains ensures Aimed(s'', s''.drains[x].targets) {
        assert x != d ==> Aimed(s', s'.drains[x].targets);
      }
    }
  }

  lemma DrainStepCohort(s: State, e: Event)
    requires Core(s) && CohortOk(s) && DrainEvent(e)
    ensures CohortOk(Step(s, e))
  {
    match e
    case BeginDrain(d) =>
      if d in s.drains && s.drains[d].Pausing? {
        assert DrainOk(s, s.drains[d]);
        StartDrainCohort(s, d, s.drains[d].targets);
      }
    case CancelAll(d) =>
      if d !in s.drains {
        var s' := s.(haltedOpen := s.haltedOpen || !s.closed);
        SameTasks(s, s');
        StartDrainCohort(s', d, Known(s));
      }
    case EndDrain(d) =>
      if d in s.drains && s.drains[d].Awaiting? {
        var dr := s.drains[d];
        DrainedCohort(s, dr.targets, dr.running, dr.active);
        FewerDrains(Drained(s, dr.targets, dr.running, dr.active), d);
      }
    case AbandonDrain(d) => FewerDrains(s, d);
  }

  lemma CallbackCohort(s: State, t: Task)
    requires Core(s) && CohortOk(s) && t in s.tasks && s.tasks[t].phase.Finished?
    ensures CohortPresent(Step(s, DoneCallback(t))) ==> CohortOk(Step(s, DoneCallback(t)))
    ensures CohortOk(Step(s, DoneCallback(t)).(spawned := 0))
  {
    var s' := s.(retired := s.retired - {t});
    ForgetCore(s, {t});
    SameCohort(s, s');
    ReleaseCohort(s');
  }

  lemma TaskStepCohort(s: State, e: Event)
    requires Core(s) && CohortOk(s) && !ReadyEvent(e) && !DrainEvent(e)
    ensures CohortPresent(Step(s, e)) ==> CohortOk(Step(s, e))
    ensures CohortOk(Step(s, e).(spawned := 0))
  {
    TaskStepCore(s, e);
    if e.DoneCallback? && e.task in s.tasks && s.tasks[e.task].phase.Finished? {
      CallbackCohort(s, e.task);
    } else {
      TaskFrame(s, e);
      SameCohort(s, Step(s, e));
    }
  }

  lemma TaskFrame(s: State, e: Event)
    requires !ReadyEvent(e) && !DrainEvent(e)
    requires e.DoneCallback? ==> e.task !in s.tasks || !s.tasks[e.task].phase.Finished?
    ensures var s' := Step(s, e);
      && s'.generation == s.generation && s'.spawned == s.spawned && s'.closed == s.closed
      && s'.haltedOpen == s.haltedOpen && s'.currentGeneration == s.currentGeneration && s'.drains == s.drains
  {
  }

  lemma StepCohort(s: State, e: Event)
    requires Core(s) && CohortOk(s)
    ensures CohortOk(Next(s, e))
  {
    if ReadyEvent(e) {
      ReadyStepCohort(s, e);
    } else if DrainEvent(e) {
      DrainStepCohort(s, e);
    } else {
      TaskStepCohort(s, e);
    }
  }

  lemma {:induction false} RunInv(events: seq<Event>)
    ensures Core(RunAll(events)) && CohortOk(RunAll(events))
  {
    if events != [] {
      var s, e := RunAll(events[..|events| - 1]), events[|events| - 1];
      RunInv(events[..|events| - 1]);
      StepCore(s, e);
      StepCohort(s, e);
      assert Exclusive(Next(s, e)) by { ExclusiveShrinks(Step(s, e), Next(s, e)); }
      DrainsEvolve(Step(s, e), Next(s, e));
    }
  }

  /** In every interleaving at most one task is inside the global `tree.sync()`,
      and every unfinished publication is the current one or retired. */
  lemma AtMostOneGlobalSync(events: seq<Event>, t: Task, u: Task)
    ensures InSync(RunAll(events), t) && InSync(RunAll(events), u) ==> t == u
    ensures Unfinished(RunAll(events), t) ==>
      RunAll(events).current == Some(t) || t in RunAll(events).retired
  {
    RunInv(events);
  }

  /** A task enters `tree.sync()` only in an open application, while its own
      generation is current, and when every other publication has finished. */
  lemma SyncStartsCurrent(events: seq<Event>, e: Event, t: Task)
    requires !InSync(RunAll(events), t) && InSync(Next(RunAll(events), e), t)
    ensures var s := RunAll(events);
      && !s.closed && t in s.tasks && s.tasks[t].generation == s.generation
      && forall u: Task :: Unfinished(s, u) ==> u == t
  {
    RunInv(events);
    OnlyDecisionsSync(RunAll(events), e, t);
  }

  lemma OnlyDecisionsSync(s: State, e: Event, t: Task)
    requires Core(s) && !InSync(s, t) && InSync(Step(s, e), t)
    ensures !s.closed && t in s.tasks && s.tasks[t].generation == s.generation
    ensures forall u: Task :: Unfinished(s, u) ==> u == t
  {
    if ReadyEvent(e) || DrainEvent(e) {
      NoSyncElsewhere(s, e, t);
    } else {
      assert e == RunTask(t) || e == WakeTask(t);
      OthersRetired(s, t);
      var awaited := if e.RunTask? then UnfinishedOf(s, s.retired - {t}) else UnfinishedOf(s, s.tasks[t].phase.predecessors);
      assert awaited == {};
      forall u: Task | Unfinished(s, u) ensures u == t {
        assert u != t ==> u in awaited;
      }
    }
  }

  lemma NoSyncElsewhere(s: State, e: Event, t: Task)
    requires ReadyEvent(e) || DrainEvent(e)
    ensures InSync(Step(s, e), t) ==> InSync(s, t)
  {
  }

  /** A publication is at its decision and nothing stands against the global call: it
      begins or wakes uncancelled, for the current generation of an open application, and
      every other publication has finished. */
  ghost predicate FreeToSync(s: State, e: Event, t: Task) {
    && t in s.tasks && !s.tasks[t].cancelPending
    && ((e == RunTask(t) && s.tasks[t].phase.Created?) || (e == WakeTask(t) && s.tasks[t].phase.WaitingFor?))
    && !s.closed && s.tasks[t].generation == s.generation
    && forall u: Task :: Unfinished(s, u) ==> u == t
  }

  /** Exactly then it enters the call, over every run. */
  lemma SyncStartsIff(events: seq<Event>, e: Event, t: Task)
    requires !InSync(RunAll(events), t)
    ensures InSync(Next(RunAll(events), e), t) <==> FreeToSync(RunAll(events), e, t)
  {
    RunInv(events);
    NoneAwaitsItself(events);
    SyncsIffFree(RunAll(events), e, t);
    assert Next(RunAll(events), e).tasks == Step(RunAll(events), e).tasks;
  }

  lemma SyncsIffFree(s: State, e: Event, t: Task)
    requires Core(s) && NotAwaitingThemselves(s) && !InSync(s, t)
    ensures InSync(Step(s, e), t) <==> FreeToSync(s, e, t)
  {
    if FreeToSync(s, e, t) {
      FreeSyncs(s, e, t);
    } else if InSync(Step(s, e), t) {
      OnlyDecisionsSync(s, e, t);
      if ReadyEvent(e) || DrainEvent(e) {
        NoSyncElsewhere(s, e, t);
      }
    }
  }

  lemma FreeSyncs(s: State, e: Event, t: Task)
    requires Core(s) && NotAwaitingThemselves(s) && FreeToSync(s, e, t)
    ensures InSync(Step(s, e), t)
  {
    OthersRetired(s, t);
    if e.RunTask? {
      assert UnfinishedOf(s, s.retired - {t}) == {};
    } else {
      assert UnfinishedOf(s, s.tasks[t].phase.predecessors) == {};
    }
  }

  ghost predicate NotAwaitingThemselves(s: State) {
    forall t: Task :: t in s.tasks && s.tasks[t].phase.WaitingFor? ==> t !in s.tasks[t].phase.predecessors
  }

  lemma AwaitStep(s: State, e: Event)
    requires NotAwaitingThemselves(s)
    ensures NotAwaitingThemselves(Step(s, e))
  {
    if ReadyEvent(e) || DrainEvent(e) {
      AwaitElsewhere(s, e);
    }
  }

  lemma AwaitElsewhere(s: State, e: Event)
    requires NotAwaitingThemselves(s) && (ReadyEvent(e) || DrainEvent(e))
    ensures NotAwaitingThemselves(Step(s, e))
  {
  }

  lemma {:induction false} NoneAwaitsItself(events: seq<Event>)
    ensures NotAwaitingThemselves(RunAll(events))
  {
    if events != [] {
      NoneAwaitsItself(events[..|events| - 1]);
      AwaitStep(RunAll(events[..|events| - 1]), events[|events| - 1]);
    }
  }

  /** A step starts the cancellation of exactly these publications: one of an older
      generation that a current READY finds cached, and the unfinished targets of a drain
      that begins. */
  lemma CancelledIff(s: State, e: Event, t: Task)
    requires Unfinished(s, t) && !s.tasks[t].cancelPending
    ensures t in Next(s, e).tasks
    ensures Next(s, e).tasks[t].cancelPending <==>
      || (e.SyncForReady? && e.created !in s.tasks && !s.closed && e.generation == s.generation
          && s.current == Some(t) && s.currentGeneration != Some(e.generation))
      || (e.BeginDrain? && e.drainer in s.drains && s.drains[e.drainer].Pausing? && t in s.drains[e.drainer].targets)
      || (e.CancelAll? && e.drainer !in s.drains && (s.current == Some(t) || t in s.retired))
  {
    if !ReadyEvent(e) && !DrainEvent(e) {
      TasksCancelNone(s, e, t);
    } else if DrainEvent(e) {
      DrainCancels(s, e, t);
    }
  }

  lemma TasksCancelNone(s: State, e: Event, t: Task)
    requires t in s.tasks && !s.tasks[t].cancelPending && !ReadyEvent(e) && !DrainEvent(e)
    ensures t in Step(s, e).tasks && !Step(s, e).tasks[t].cancelPending
  {
  }

  lemma DrainCancels(s: State, e: Event, t: Task)
    requires Unfinished(s, t) && !s.tasks[t].cancelPending && DrainEvent(e)
    ensures t in Step(s, e).tasks
    ensures Step(s, e).tasks[t].cancelPending <==>
      || (e.BeginDrain? && e.drainer in s.drains && s.drains[e.drainer].Pausing? && t in s.drains[e.drainer].targets)
      || (e.CancelAll? && e.drainer !in s.drains && (s.current == Some(t) || t in s.retired))
  {
  }

  ghost predicate CurrentUncancelled(s: State) {
    s.closed || s.haltedOpen ||
    forall t: Task :: Unfinished(s, t) && s.tasks[t].generation == s.generation ==> !s.tasks[t].cancelPending
  }

  lemma UncancelledStep(s: State, e: Event)
    requires Core(s) && CohortOk(s) && CurrentUncancelled(s)
    ensures CurrentUncancelled(Next(s, e))
  {
    var s' := Next(s, e);
    StepFlags(s, e);
    StepKeepsFlags(s, e);
    if !s'.closed && !s'.haltedOpen {
      forall t: Task | Unfinished(s', t) && s'.tasks[t].generation == s'.generation ensures !s'.tasks[t].cancelPending {
        TaskBefore(s, e, t);
        if t in s.tasks {
          CancelledIff(s, e, t);
          if e.BeginDrain? && e.drainer in s.drains {
            assert Aimed(s, s.drains[e.drainer].targets);
          }
        }
      }
    }
  }

  lemma StepKeepsFlags(s: State, e: Event)
    ensures s.closed ==> Next(s, e).closed
    ensures s.haltedOpen || (e.CancelAll? && e.drainer !in s.drains && !s.closed) ==> Next(s, e).haltedOpen
  {
  }

  /** A publication of the present generation after a step was there before it, as
      unfinished and of the same generation, or is created by it without a cancellation. */
  lemma TaskBefore(s: State, e: Event, t: Task)
    requires Core(s) && t in Next(s, e).tasks && Unfinished(Next(s, e), t)
    requires Next(s, e).tasks[t].generation == Next(s, e).generation
    ensures t in s.tasks ==> Unfinished(s, t) && s.tasks[t].generation == s.generation
    ensures t !in s.tasks ==> !Next(s, e).tasks[t].cancelPending
  {
    if ReadyEvent(e) {
      if e.SyncForReady? {
        assert Retire(s, e.generation).tasks.Keys == s.tasks.Keys;
      }
      TaskBeforeReady(s, e, t);
    } else if DrainEvent(e) {
      TaskBeforeDrain(s, e, t);
    } else {
      TaskStepCore(s, e);
      OthersCreateNone(s, e);
      OthersKeepGeneration(s, e);
    }
  }

  lemma TaskBeforeReady(s: State, e: Event, t: Task)
    requires Bookkeeping(s) && ReadyEvent(e) && t in Step(s, e).tasks && Unfinished(Step(s, e), t)
    requires Step(s, e).tasks[t].generation == Step(s, e).generation
    ensures t in s.tasks ==> Unfinished(s, t) && s.tasks[t].generation == s.generation
    ensures t !in s.tasks ==> !Step(s, e).tasks[t].cancelPending
  {
  }

  lemma TaskBeforeDrain(s: State, e: Event, t: Task)
    requires DrainEvent(e) && t in Step(s, e).tasks && Unfinished(Step(s, e), t)
    requires Step(s, e).tasks[t].generation == Step(s, e).generation
    ensures t in s.tasks && Unfinished(s, t) && s.tasks[t].generation == s.generation
  {
    OthersCreateNone(s, e);
    OthersKeepGeneration(s, e);
  }

  lemma OthersKeepGeneration(s: State, e: Event)
    requires !e.Disconnect?
    ensures Step(s, e).generation == s.generation && Next(s, e).generation == s.generation
    ensures e.LeaveReady? || e.EnterReady? || Next(s, e).ready == s.ready
  {
  }

  lemma {:induction false} RunUncancelled(events: seq<Event>)
    ensures CurrentUncancelled(RunAll(events))
  {
    if events != [] {
      RunInv(events[..|events| - 1]);
      RunUncancelled(events[..|events| - 1]);
      UncancelledStep(RunAll(events[..|events| - 1]), events[|events| - 1]);
    }
  }

  /** When cancel_all comes after shutdown, no publication of the current generation is
      ever cancelled in an open application. */
  lemma CurrentIsNeverCancelled(events: seq<Event>, t: Task)
    requires HaltsAfterShutdown(events) && Shutdown !in events
    requires var s := RunAll(events); Unfinished(s, t) && s.tasks[t].generation == s.generation
    ensures !RunAll(events).tasks[t].cancelPending
  {
    OrderedShutdown(events);
    RunUncancelled(events);
  }

  /** So it enters the call as soon as it is scheduled with the others finished. */
  lemma CurrentPublicationSyncs(events: seq<Event>, t: Task)
    requires HaltsAfterShutdown(events) && Shutdown !in events
    requires var s := RunAll(events);
      t in s.tasks && s.tasks[t].generation == s.generation && forall u: Task :: Unfinished(s, u) ==> u == t
    ensures var s := RunAll(events);
      && (s.tasks[t].phase.Created? ==> InSync(Next(s, RunTask(t)), t))
      && (s.tasks[t].phase.WaitingFor? ==> InSync(Next(s, WakeTask(t)), t))
  {
    var s := RunAll(events);
    OrderedShutdown(events);
    if s.tasks[t].phase.Created? {
      CurrentIsNeverCancelled(events, t);
      SyncStartsIff(events, RunTask(t), t);
    } else if s.tasks[t].phase.WaitingFor? {
      CurrentIsNeverCancelled(events, t);
      SyncStartsIff(events, WakeTask(t), t);
    }
  }

  function Others(s: State, t: Task): set<Task> {
    set u | u in s.tasks && Unfinished(s, u) && u != t
  }

  /** A publication that begins waits for all others that still run; woken while one of
      them runs, it leaves the global call out. */
  lemma WaitsForAllOthers(events: seq<Event>, t: Task)
    requires t in RunAll(events).tasks && !RunAll(events).tasks[t].cancelPending && Others(RunAll(events), t) != {}
    ensures var s := RunAll(events);
      && (s.tasks[t].phase.Created? ==> Next(s, RunTask(t)).tasks[t].phase == WaitingFor(Others(s, t)))
      && (s.tasks[t].phase.WaitingFor? ==> Next(s, WakeTask(t)).tasks[t].phase == Guild)
  {
    var s := RunAll(events);
    RunInv(events);
    NoneAwaitsItself(events);
    if s.tasks[t].phase.Created? {
      OthersRetired(s, t);
      assert UnfinishedOf(s, s.retired - {t}) == Others(s, t);
    } else if s.tasks[t].phase.WaitingFor? {
      OthersRetired(s, t);
      AwaitsOthers(s, t);
    }
  }

  lemma AwaitsOthers(s: State, t: Task)
    requires Core(s) && NotAwaitingThemselves(s) && MayWake(s, t)
    ensures UnfinishedOf(s, s.tasks[t].phase.predecessors) == Others(s, t)
  {
  }

  /** The call returns to the guild part, and that to the end of the publication. */
  lemma PublicationEnds(events: seq<Event>, t: Task)
    requires InSync(RunAll(events), t)
    ensures RunAll(events + [SyncReturns(t)]).tasks[t].phase == Guild
    ensures !Unfinished(RunAll(events + [SyncReturns(t), GuildReturns(t)]), t)
  {
    RunSnoc(events, SyncReturns(t));
    RunSnoc(events + [SyncReturns(t)], GuildReturns(t));
    assert events + [SyncReturns(t), GuildReturns(t)] == events + [SyncReturns(t)] + [GuildReturns(t)];
  }

  lemma RunSnoc(events: seq<Event>, e: Event)
    ensures RunAll(events + [e]) == Next(RunAll(events), e)
  {
    assert (events + [e])[..|events|] == events;
  }

  /** A READY event creates a publication exactly when the application is open, its
      generation is current and none of that generation is cached; open and current, it
      always has one of its generation to wait for. */
  lemma ReadyPublishesIff(events: seq<Event>, generation: nat, created: Task)
    requires created !in RunAll(events).tasks
    ensures var s := RunAll(events); var s' := Next(s, SyncForReady(generation, created));
      && (created in s'.tasks <==> !s.closed && generation == s.generation && s.currentGeneration != Some(generation))
      && (created in s'.tasks ==> s'.current == Some(created) && s'.tasks[created] == TaskState(generation, Created, false))
      && (!s.closed && generation == s.generation ==>
            s'.current.Some? && s'.current.value in s'.tasks && s'.tasks[s'.current.value].generation == generation)
  {
    RunInv(events);
  }

  /** The first READY after the start publishes. */
  lemma FirstReadySyncs(c: Caller, t: Task)
    ensures InSync(RunAll([EnterReady(c), SyncForReady(0, t), RunTask(t)]), t)
  {
    var events := [EnterReady(c), SyncForReady(0, t)];
    RunSnoc([], EnterReady(c));
    RunSnoc([EnterReady(c)], SyncForReady(0, t));
    assert [] + [EnterReady(c)] == [EnterReady(c)] && [EnterReady(c)] + [SyncForReady(0, t)] == events;
    assert RunAll([]) == INITIAL;
    RunSnoc(events, RunTask(t));
    assert events + [RunTask(t)] == [EnterReady(c), SyncForReady(0, t), RunTask(t)];
    SyncStartsIff(events, RunTask(t), t);
    forall u: Task | Unfinished(RunAll(events), u) ensures u == t {
    }
  }

  /** From just after `i` to `j` the caller neither leaves nor enters again, and the gateway
      stays connected. */
  ghost predicate Stays(events: seq<Event>, i: nat, j: nat, c: Caller)
    requires i < j <= |events|
  {
    forall k :: i < k < j ==> events[k] != LeaveReady(c) && events[k] != EnterReady(c) && !events[k].Disconnect?
  }

  /** A caller that has entered counts for the current generation until it leaves, enters
      again, or the gateway disconnects. */
  lemma {:induction false} EnteredIsPresent(events: seq<Event>, i: nat, j: nat, c: Caller)
    requires i < j <= |events| && events[i] == EnterReady(c)
    requires Stays(events, i, j, c)
    ensures var s := RunAll(events[..j]); c in s.ready && s.ready[c] == s.generation
    ensures CohortPresent(RunAll(events[..j]))
    decreases j
  {
    assert events[..j] == events[..j - 1] + [events[j - 1]];
    RunSnoc(events[..j - 1], events[j - 1]);
    if i + 1 < j {
      EnteredIsPresent(events, i, j - 1, c);
      StaysReady(RunAll(events[..j - 1]), events[j - 1], c);
    }
  }

  lemma StaysReady(s: State, e: Event, c: Caller)
    requires c in s.ready && e != LeaveReady(c) && e != EnterReady(c) && !e.Disconnect?
    ensures var s' := Next(s, e); c in s'.ready && s'.ready[c] == s.ready[c] && s'.generation == s.generation
  {
    OthersKeepGeneration(s, e);
  }

  /** So from a READY caller's entry until it leaves or the gateway disconnects its cohort is
      unbroken, and at most one publication is created, however many callers join it. */
  lemma PresentSince(events: seq<Event>, i: nat, j: nat, c: Caller)
    requires i < j <= |events| && events[i] == EnterReady(c)
    requires Stays(events, i, j, c)
    ensures Unbroken(events, i + 1, j)
  {
    forall k | i + 1 <= k <= j ensures CohortPresent(RunAll(events[..k])) {
      EnteredIsPresent(events, i, k, c);
    }
  }

  /** A finished publication stays cached for its cohort: when a caller leaves, it is
      forgotten exactly if no other caller of its generation is left. */
  lemma ForgottenIffCohortGone(events: seq<Event>, c: Caller)
    requires var s := RunAll(events); s.current.Some? && !Unfinished(s, s.current.value)
    ensures RunAll(events).current.value in RunAll(events).tasks
    ensures var s := RunAll(events);
      Next(s, LeaveReady(c)).current.None? <==>
      forall other :: other in s.ready && other != c ==> s.ready[other] != s.tasks[s.current.value].generation
  {
    RunInv(events);
    ForgottenIff(RunAll(events), c);
  }

  lemma ForgottenIff(s: State, c: Caller)
    requires Bookkeeping(s) && s.current.Some? && !Unfinished(s, s.current.value)
    ensures Step(s, LeaveReady(c)).current.None? <==>
      forall other :: other in s.ready && other != c ==> s.ready[other] != s.tasks[s.current.value].generation
  {
    var ready := s.ready - {c};
    assert forall other :: other in s.ready && other != c ==> other in ready && ready[other] == s.ready[other];
  }

  /** When its callback runs, it is forgotten exactly if no caller of its generation is
      present any more. */
  lemma DoneForgetsIff(events: seq<Event>, t: Task)
    requires var s := RunAll(events); s.current == Some(t) && t in s.tasks && s.tasks[t].phase.Finished?
    ensures var s := RunAll(events);
      Next(s, DoneCallback(t)).current.None? <==>
      forall c :: c in s.ready ==> s.ready[c] != s.tasks[t].generation
    ensures t !in Next(RunAll(events), DoneCallback(t)).retired
  {
    RunInv(events);
  }

  /** A drain that ends leaves a target retired exactly if it still runs, forgets the
      publication cached at its start if that was a target, and changes nothing else. */
  lemma DrainSettles(events: seq<Event>, d: Drainer, t: Task)
    requires var s := RunAll(events); d in s.drains && s.drains[d].Awaiting?
    ensures var s := RunAll(events); var s' := Next(s, EndDrain(d));
      && (t in s'.retired <==> if t in s.drains[d].targets then Unfinished(s, t) else t in s.retired)
      && (s'.current == if s.current.Some? && s.current == s.drains[d].active && s.current.value in s.drains[d].targets
                        then None else s.current)
  {
    RunInv(events);
    assert DrainOk(RunAll(events), RunAll(events).drains[d]);
  }

  /** cancel_all comes after the shutdown flag, as `lifecycle.close` orders them. */
  ghost predicate HaltsAfterShutdown(events: seq<Event>) {
    forall i :: 0 <= i < |events| && events[i].CancelAll? ==> Shutdown in events[..i]
  }

  lemma StepFlags(s: State, e: Event)
    ensures Next(s, e).closed <==> s.closed || e.Shutdown?
    ensures Next(s, e).haltedOpen ==> s.haltedOpen || (e.CancelAll? && !s.closed)
  {
  }

  lemma {:induction false} OrderedShutdown(events: seq<Event>)
    requires HaltsAfterShutdown(events)
    ensures RunAll(events).closed <==> Shutdown in events
    ensures !RunAll(events).haltedOpen
  {
    if events != [] {
      var front, e := events[..|events| - 1], events[|events| - 1];
      forall i | 0 <= i < |front| && front[i].CancelAll? ensures Shutdown in front[..i] {
        assert events[i].CancelAll? && events[..i] == front[..i];
      }
      OrderedShutdown(front);
      StepFlags(RunAll(front), e);
      assert events == front + [e];
    }
  }

  /** Only `sync_for_ready` creates a task, one at a time. */
  lemma StepCreates(s: State, e: Event)
    ensures var s' := Step(s, e);
      || (s'.tasks.Keys == s.tasks.Keys && s'.spawned == s.spawned)
      || (exists t: Task :: t !in s.tasks && s'.tasks.Keys == s.tasks.Keys + {t} && s'.spawned == s.spawned + 1)
  {
    if e.SyncForReady? {
      var t := e.created;
      if t !in s.tasks && Step(s, e).spawned != s.spawned {
        assert Retire(s, e.generation).tasks.Keys == s.tasks.Keys;
        assert Step(s, e).tasks.Keys == s.tasks.Keys + {t};
      } else {
        assert Step(s, e).tasks.Keys == s.tasks.Keys;
      }
    } else {
      OthersCreateNone(s, e);
    }
  }

  lemma OthersCreateNone(s: State, e: Event)
    requires !e.SyncForReady?
    ensures Step(s, e).tasks.Keys == s.tasks.Keys && Step(s, e).spawned == s.spawned
  {
  }

  /** A READY caller of the current generation is present at every moment from
      `i` to `j`. */
  ghost predicate Unbroken(events: seq<Event>, i: nat, j: nat)
    requires i <= j <= |events|
  {
    forall k :: i <= k <= j ==> CohortPresent(RunAll(events[..k]))
  }

  /** The publications created from moment `i` to moment `j`. */
  ghost function CreatedIn(events: seq<Event>, i: nat, j: nat): set<Task>
    requires i <= j <= |events|
  {
    RunAll(events[..j]).tasks.Keys - RunAll(events[..i]).tasks.Keys
  }

  lemma {:induction false} CohortCounts(events: seq<Event>, i: nat, j: nat)
    requires i <= j <= |events| && Unbroken(events, i, j)
    ensures RunAll(events[..i]).tasks.Keys <= RunAll(events[..j]).tasks.Keys
    ensures |RunAll(events[..j]).tasks.Keys - RunAll(events[..i]).tasks.Keys| <= RunAll(events[..j]).spawned
    decreases j
  {
    if i < j {
      CohortCounts(events, i, j - 1);
      assert events[..j][..j - 1] == events[..j - 1];
      var s, s' := RunAll(events[..j - 1]), RunAll(events[..j]);
      assert s' == Next(s, events[j - 1]);
      StepCreates(s, events[j - 1]);
      OneMore(RunAll(events[..i]).tasks.Keys, s.tasks.Keys, s'.tasks.Keys, s.spawned, s'.spawned);
    }
  }

  lemma OneMore(before: set<Task>, keys: set<Task>, keys': set<Task>, count: nat, count': nat)
    requires before <= keys && |keys - before| <= count
    requires (keys' == keys && count' == count)
             || (exists t: Task :: t !in keys && keys' == keys + {t} && count' == count + 1)
    ensures before <= keys' && |keys' - before| <= count'
  {
    if keys' != keys {
      var t: Task :| t !in keys && keys' == keys + {t};
      assert keys' - before == (keys - before) + {t};
    }
  }

  /** While READY callers of one generation keep overlapping, at most one
      publication task is created, over every interleaving. */
  lemma CohortPublishesOnce(events: seq<Event>, i: nat, j: nat)
    requires i <= j <= |events| && Unbroken(events, i, j) && HaltsAfterShutdown(events)
    ensures |CreatedIn(events, i, j)| <= 1
  {
    CohortCounts(events, i, j);
    RunInv(events[..j]);
    forall k | 0 <= k < j && events[..j][k].CancelAll? ensures Shutdown in events[..j][..k] {
      assert events[k].CancelAll? && events[..j][..k] == events[..k];
    }
    OrderedShutdown(events[..j]);
  }

  // ----- the code that takes these steps

  /** `DiscordCommandSync` with the event loop's view of its tasks. Each method is
      the code between two awaits and takes one step of the relation. */
  class DiscordCommandSync {
    var generation: nat
    var closed: bool
    var current: Option<Task>
    var currentGeneration: Option<nat>
    var retired: set<Task>
    var ready: map<Caller, nat>
    var tasks: map<Task, TaskState>
    var drains: map<Drainer, Drain>
    ghost var spawned: nat
    ghost var haltedOpen: bool

    constructor ()
      ensures View() == INITIAL
    {
      generation, closed, current, currentGeneration := 0, false, None, None;
      retired, ready, tasks, drains, spawned, haltedOpen := {}, map[], map[], map[], 0, false;
    }

    ghost function View(): State
      reads this
    {
      State(generation, closed, current, currentGeneration, retired, ready, tasks, drains, spawned, haltedOpen)
    }

    ghost method Settle(before: State, e: Event)
      requires View().(spawned := 0, haltedOpen := false) == Step(before, e).(spawned := 0, haltedOpen := false)
      modifies `spawned, `haltedOpen
      ensures View() == Next(before, e)
    {
      spawned, haltedOpen := Next(before, e).spawned, Next(before, e).haltedOpen;
    }

    method CancelTasks(targets: set<Task>)
      modifies `tasks
      ensures View() == Cancel(old(View()), targets)
    {
      var rest := targets;
      while rest != {}
        invariant rest <= targets
        invariant tasks == Cancel(old(View()), targets - rest).tasks
        decreases rest
      {
        var t :| t in rest;
        if t in tasks && !tasks[t].phase.Finished? {
          tasks := tasks[t := tasks[t].(cancelPending := true)];
        }
        rest := rest - {t};
      }
      assert targets - rest == targets;
    }

    method ReleaseCompleted()
      modifies `current, `currentGeneration
      ensures View() == Release(old(View()))
    {
      var active := if currentGeneration.Some?
        then exists c :: c in ready && ready[c] == currentGeneration.value
        else ready != map[];
      if current.Some? && !(current.value in tasks && !tasks[current.value].phase.Finished?) && !active {
        current, currentGeneration := None, None;
      }
    }

    method EnterReadyCohort(caller: Caller) returns (gatewayGeneration: nat)
      modifies this
      ensures View() == Next(old(View()), EnterReady(caller)) && gatewayGeneration == generation
    {
      ready := ready[caller := generation];
      Settle(old(View()), EnterReady(caller));
      return generation;
    }

    method LeaveReadyCohort(caller: Caller)
      modifies this
      ensures View() == Next(old(View()), LeaveReady(caller))
    {
      ready := ready - {caller};
      ReleaseCompleted();
      Settle(old(View()), LeaveReady(caller));
    }

    /** The loop of `sync_for_ready` up to the await on the joined task. */
    method SyncReady(gatewayGeneration: nat, created: Task) returns (joined: Option<Task>)
      requires created !in tasks
      modifies this
      ensures View() == Next(old(View()), SyncForReady(gatewayGeneration, created))
      ensures joined.Some? <==> !old(closed) && gatewayGeneration == generation
      ensures joined.Some? ==> joined == current && currentGeneration == Some(gatewayGeneration)
    {
      joined := None;
      while !closed && gatewayGeneration == generation
        invariant generation == old(generation) && closed == old(closed) && drains == old(drains) && ready == old(ready)
        invariant created !in tasks && joined.None?
        invariant View() == old(View()) ||
          (current.None? && !closed && gatewayGeneration == generation
           && View() == Retire(old(View()), gatewayGeneration) && currentGeneration.None?)
        decreases if current.Some? then 1 else 0
      {
        var task := current;
        if task.Some? && currentGeneration != Some(gatewayGeneration) {
          if task.value in tasks && !tasks[task.value].phase.Finished? {
            CancelTasks({task.value});
            retired := retired + {task.value};
          }
          current, currentGeneration := None, None;
          continue;
        }
        if task.None? {
          tasks := tasks[created := TaskState(gatewayGeneration, Created, false)];
          current, currentGeneration := Some(created), Some(gatewayGeneration);
          task := current;
        }
        joined := task;
        break;
      }
      Settle(old(View()), SyncForReady(gatewayGeneration, created));
    }

    /** `disconnect` up to `pause_sync`. */
    method BeginDisconnect(d: Drainer)
      requires d !in drains
      modifies this
      ensures View() == Next(old(View()), Disconnect(d))
    {
      generation := generation + 1;
      var targets := retired;
      if current.Some? {
        targets := targets + {current.value};
      }
      assert targets == Known(old(View()));
      drains := drains[d := Pausing(targets)];
      Settle(old(View()), Disconnect(d));
    }

    /** `_cancel_global_command_sync` up to its wait. */
    method StartCancelling(d: Drainer, targets: set<Task>)
      modifies `tasks, `drains, `retired, `current, `currentGeneration
      ensures View() == StartDrain(old(View()), d, targets)
    {
      var active := current;
      var running := set t | t in targets && t in tasks && !tasks[t].phase.Finished?;
      assert running == UnfinishedOf(old(View()), targets);
      CancelTasks(running);
      if running != {} {
        drains := drains[d := Awaiting(targets, running, active)];
      } else {
        FinishCancelling(targets, running, active);
        drains := drains - {d};
      }
    }

    /** The rest of `_cancel_global_command_sync`, after the bounded wait. */
    method FinishCancelling(targets: set<Task>, running: set<Task>, active: Option<Task>)
      modifies `retired, `current, `currentGeneration
      ensures View() == Drained(old(View()), targets, running, active)
    {
      var pending := set t | t in running && t in tasks && !tasks[t].phase.Finished?;
      retired := retired - (targets - pending);
      retired := retired + pending;
      if active.Some? && active.value in targets && current == active {
        current, currentGeneration := None, None;
      }
    }

    method ResumeDisconnect(d: Drainer)
      requires d in drains && drains[d].Pausing?
      modifies this
      ensures View() == Next(old(View()), BeginDrain(d))
    {
      StartCancelling(d, drains[d].targets);
      Settle(old(View()), BeginDrain(d));
    }

    method CancelEverything(d: Drainer)
      requires d !in drains
      modifies this
      ensures View() == Next(old(View()), CancelAll(d))
    {
      haltedOpen := haltedOpen || !closed;
      var targets := retired + (if current.Some? then {current.value} else {});
      assert targets == Known(old(View()));
      StartCancelling(d, targets);
      Settle(old(View()), CancelAll(d));
    }

    method EndCancelling(d: Drainer)
      requires d in drains && drains[d].Awaiting?
      modifies this
      ensures View() == Next(old(View()), EndDrain(d))
    {
      FinishCancelling(drains[d].targets, drains[d].running, drains[d].active);
      drains := drains - {d};
      Settle(old(View()), EndDrain(d));
    }

    method Enter(t: Task, phase: Phase)
      requires t in tasks
      modifies `tasks
      ensures View() == Move(old(View()), t, phase)
    {
      tasks := tasks[t := tasks[t].(phase := phase)];
    }

    /** The decision of `_publish_global_commands` whether to call `tree.sync()`. */
    method DecideSync(t: Task)
      requires t in tasks
      modifies `tasks
      ensures View() == Decide(old(View()), t)
    {
      if !closed && tasks[t].generation == generation {
        Enter(t, Syncing);
      } else {
        Enter(t, Guild);
      }
    }

    /** `_publish_global_commands` from its start to its first await. */
    method StartPublication(t: Task)
      requires t in tasks && tasks[t].phase.Created? && !tasks[t].cancelPending
      modifies this
      ensures View() == Next(old(View()), RunTask(t))
    {
      var predecessors := set u | u in retired && u != t && u in tasks && !tasks[u].phase.Finished?;
      assert predecessors == UnfinishedOf(View(), retired - {t});
      if predecessors != {} {
        Enter(t, WaitingFor(predecessors));
      } else {
        DecideSync(t);
      }
      Settle(old(View()), RunTask(t));
    }

    /** `_publish_global_commands` when its wait for predecessors ends. */
    method ResumePublication(t: Task)
      requires t in tasks && tasks[t].phase.WaitingFor? && !tasks[t].cancelPending
      modifies this
      ensures View() == Next(old(View()), WakeTask(t))
    {
      var waited := tasks[t].phase.predecessors;
      var pending := set u | u in waited && u in tasks && !tasks[u].phase.Finished?;
      retired := retired - (waited - pending);
      if pending != {} {
        Enter(t, Guild);
      } else {
        DecideSync(t);
      }
      Settle(old(View()), WakeTask(t));
    }

    method OnDone(t: Task)
      requires t in tasks && tasks[t].phase.Finished?
      modifies this
      ensures View() == Next(old(View()), DoneCallback(t))
    {
      retired := retired - {t};
      if current == Some(t) {
        ReleaseCompleted();
      }
      Settle(old(View()), DoneCallback(t));
    }
  }
}