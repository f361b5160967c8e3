/** The registry of active operations (bot/app/cancellation.py): registrations, and
    stops that rescan until nothing they aim at is left. */
module StopScopes {
  import opened Sequences

  type Task = nat
  type StopEvent = nat

  /** `root` is empty until the conversation root is known. */
  datatype Operation = Operation(
    user: string,
    root: string,
    channel: string,
    task: Task,
    cancelOnStop: bool,
    stop: StopEvent,
    provisional: bool)

  /** An item of the dictionary, which keeps the order of insertion. */
  datatype Entry = Entry(id: nat, operation: Operation)

  /** What a stop aims at; `root` is empty when the caller gave none. */
  datatype Scope = Everything | OfUser(user: string, root: string, channel: string, all: bool)

  predicate Targets(scope: Scope, current: Task, o: Operation) {
    && o.task != current
    && (scope.OfUser? ==>
         && o.user == scope.user
         && (scope.all
             || (if scope.root != ""
                 then o.root == scope.root || (o.provisional && o.channel == scope.channel)
                 else o.channel == scope.channel)))
  }

  function Targeted(entries: seq<Entry>, scope: Scope, current: Task): seq<Operation> {
    if entries == [] then []
    else (if Targets(scope, current, entries[0].operation) then [entries[0].operation] else [])
         + Targeted(entries[1..], scope, current)
  }

  /** The registry holds nothing that the stop aims at. */
  predicate Clear(entries: seq<Entry>, scope: Scope, current: Task) {
    forall i :: 0 <= i < |entries| ==> !Targets(scope, current, entries[i].operation)
  }

  lemma {:induction false} TargetedMeans(entries: seq<Entry>, scope: Scope, current: Task)
    ensures forall o :: o in Targeted(entries, scope, current) ==> Targets(scope, current, o)
    ensures forall i :: 0 <= i < |entries| && Targets(scope, current, entries[i].operation) ==>
      entries[i].operation in Targeted(entries, scope, current)
    ensures Targeted(entries, scope, current) == [] <==> Clear(entries, scope, current)
  {
    if entries != [] {
      var rest := entries[1..];
      TargetedMeans(rest, scope, current);
      assert forall i :: 0 < i < |entries| ==> entries[i] == rest[i - 1];
    }
  }

  function Tasks(ops: seq<Operation>): set<Task> {
    set o | o in ops :: o.task
  }

  function Stops(ops: seq<Operation>): set<StopEvent> {
    set o | o in ops :: o.stop
  }

  function Cancellable(ops: seq<Operation>): set<Task> {
    set o | o in ops && o.cancelOnStop :: o.task
  }

  /** How a response is told apart when the stopped ones are counted. */
  datatype Response = Rooted(root: string, channel: string) | Unrooted(task: Task, channel: string)

  /** The root of a task's last bound registration, empty when it has none. */
  function RootOf(ops: seq<Operation>, task: Task): string {
    if ops == [] then ""
    else
      var last := ops[|ops| - 1];
      if !last.provisional && last.task == task then last.root else RootOf(ops[..|ops| - 1], task)
  }

  function ResponseOf(ops: seq<Operation>, o: Operation): Response {
    if RootOf(ops, o.task) != "" then Rooted(RootOf(ops, o.task), o.channel)
    else if o.root != "" then Rooted(o.root, o.channel)
    else Unrooted(o.task, o.channel)
  }

  function Responses(ops: seq<Operation>): set<Response> {
    set o | o in ops :: ResponseOf(ops, o)
  }

  // ----- the rounds of a stop

  /** What happens elsewhere while a call is suspended: the registry may change at will,
      tasks finish and stop events are set. */
  datatype Change = Change(operations: seq<Entry>, finished: set<Task>, stopped: set<StopEvent>)

  /** One round of a stop: the wait for the tasks and then the wait for the lock. */
  datatype Pause = Pause(wait: Change, lock: Change)

  /** The registry that round `k` scans. */
  function RegistryAt(start: seq<Entry>, pauses: seq<Pause>, k: nat): seq<Entry>
    requires k <= |pauses|
  {
    if k == 0 then start else pauses[k - 1].lock.operations
  }

  /** What the first `n` scans found, and the responses they stand for. */
  function SeenIn(start: seq<Entry>, pauses: seq<Pause>, scope: Scope, current: Task, n: nat): set<Operation>
    requires n <= |pauses| + 1
  {
    if n == 0 then {}
    else SeenIn(start, pauses, scope, current, n - 1)
         + Elems(Targeted(RegistryAt(start, pauses, n - 1), scope, current))
  }

  function CountedIn(start: seq<Entry>, pauses: seq<Pause>, scope: Scope, current: Task, n: nat): set<Response>
    requires n <= |pauses| + 1
  {
    if n == 0 then {}
    else CountedIn(start, pauses, scope, current, n - 1)
         + Responses(Targeted(RegistryAt(start, pauses, n - 1), scope, current))
  }

  function CancellableIn(seen: set<Operation>): set<Task> {
    set o | o in seen && o.cancelOnStop :: o.task
  }

  /** After `n` complete rounds: each found something, and all it found was stopped and
      has finished. */
  ghost predicate SoFar(start: seq<Entry>, pauses: seq<Pause>, scope: Scope, current: Task, n: nat,
                        done: set<Task>, stopped: set<StopEvent>) {
    && n <= |pauses|
    && (forall k :: 0 <= k < n ==> !Clear(RegistryAt(start, pauses, k), scope, current))
    && forall o :: o in SeenIn(start, pauses, scope, current, n) ==> Targets(scope, current, o) && o.stop in stopped && o.task in done
  }

  /** The responses and cancellations of `n` rounds, added to what was cancelled before. */
  ghost predicate Tally(start: seq<Entry>, pauses: seq<Pause>, scope: Scope, current: Task, n: nat,
                        responses: set<Response>, before: set<Task>, cancelled: set<Task>) {
    && n <= |pauses| + 1
    && responses == CountedIn(start, pauses, scope, current, n)
    && cancelled == before + CancellableIn(SeenIn(start, pauses, scope, current, n))
  }

  lemma NextTally(start: seq<Entry>, pauses: seq<Pause>, scope: Scope, current: Task, n: nat,
                  responses: set<Response>, before: set<Task>, cancelled: set<Task>)
    requires n <= |pauses| && Tally(start, pauses, scope, current, n, responses, before, cancelled)
    ensures var owned := Targeted(RegistryAt(start, pauses, n), scope, current);
      Tally(start, pauses, scope, current, n + 1, responses + Responses(owned), before, cancelled + Cancellable(owned))
  {
    var owned := Targeted(RegistryAt(start, pauses, n), scope, current);
    assert CancellableIn(SeenIn(start, pauses, scope, current, n + 1))
        == CancellableIn(SeenIn(start, pauses, scope, current, n)) + Cancellable(owned);
  }

  lemma NextSeen(start: seq<Entry>, pauses: seq<Pause>, scope: Scope, current: Task, n: nat, o: Operation)
    requires n <= |pauses| && o in SeenIn(start, pauses, scope, current, n + 1)
    ensures o in SeenIn(start, pauses, scope, current, n)
      || o in Targeted(RegistryAt(start, pauses, n), scope, current)
  {
  }

  lemma NextStopped(start: seq<Entry>, pauses: seq<Pause>, scope: Scope, current: Task, n: nat,
                    done: set<Task>, stopped: set<StopEvent>, nowStopped: set<StopEvent>, o: Operation)
    requires SoFar(start, pauses, scope, current, n, done, stopped)
    requires stopped + Stops(Targeted(RegistryAt(start, pauses, n), scope, current)) <= nowStopped
    requires o in SeenIn(start, pauses, scope, current, n + 1)
    ensures Targets(scope, current, o) && o.stop in nowStopped
    ensures o.task in done + Tasks(Targeted(RegistryAt(start, pauses, n), scope, current))
  {
    var owned := Targeted(RegistryAt(start, pauses, n), scope, current);
    TargetedMeans(RegistryAt(start, pauses, n), scope, current);
    NextSeen(start, pauses, scope, current, n, o);
    if o in owned {
      assert o.stop in Stops(owned) && o.task in Tasks(owned);
    }
  }

  lemma RoundGoesOn(start: seq<Entry>, pauses: seq<Pause>, scope: Scope, current: Task, n: nat,
                    done: set<Task>, stopped: set<StopEvent>, nowDone: set<Task>, nowStopped: set<StopEvent>)
    requires SoFar(start, pauses, scope, current, n, done, stopped) && n < |pauses|
    requires var owned := Targeted(RegistryAt(start, pauses, n), scope, current);
      owned != [] && done + Tasks(owned) <= nowDone && stopped + Stops(owned) <= nowStopped
    ensures SoFar(start, pauses, scope, current, n + 1, nowDone, nowStopped)
  {
    TargetedMeans(RegistryAt(start, pauses, n), scope, current);
    forall o | o in SeenIn(start, pauses, scope, current, n + 1)
      ensures Targets(scope, current, o) && o.stop in nowStopped && o.task in nowDone
    {
      NextStopped(start, pauses, scope, current, n, done, stopped, nowStopped, o);
    }
  }

  lemma RoundEnds(start: seq<Entry>, pauses: seq<Pause>, scope: Scope, current: Task, n: nat,
                  done: set<Task>, stopped: set<StopEvent>, registry: seq<Entry>, nowDone: set<Task>, nowStopped: set<StopEvent>)
    requires SoFar(start, pauses, scope, current, n, done, stopped)
    requires var owned := Targeted(RegistryAt(start, pauses, n), scope, current);
      owned != [] && stopped + Stops(owned) <= nowStopped && (n == |pauses| || !(Tasks(owned) <= nowDone))
    ensures Drained(start, pauses, scope, current, n + 1, false, registry, nowDone, nowStopped)
  {
    var owned := Targeted(RegistryAt(start, pauses, n), scope, current);
    TargetedMeans(RegistryAt(start, pauses, n), scope, current);
    forall o | o in SeenIn(start, pauses, scope, current, n + 1) ensures Targets(scope, current, o) && o.stop in nowStopped {
      NextStopped(start, pauses, scope, current, n, done, stopped, nowStopped, o);
    }
    if !(Tasks(owned) <= nowDone) {
      var task :| task in Tasks(owned) && task !in nowDone;
    }
  }

  lemma CleanNow(start: seq<Entry>, pauses: seq<Pause>, scope: Scope, current: Task, n: nat,
                 done: set<Task>, stopped: set<StopEvent>)
    requires SoFar(start, pauses, scope, current, n, done, stopped)
    requires Targeted(RegistryAt(start, pauses, n), scope, current) == []
    ensures Drained(start, pauses, scope, current, n, true, RegistryAt(start, pauses, n), done, stopped)
  {
    TargetedMeans(RegistryAt(start, pauses, n), scope, current);
  }

  /** What a stop of `n` rounds promises about the registry, tasks and events it leaves. */
  ghost predicate Drained(start: seq<Entry>, pauses: seq<Pause>, scope: Scope, current: Task, n: nat,
                          clean: bool, registry: seq<Entry>, done: set<Task>, stopped: set<StopEvent>) {
    && n <= |pauses| + 1
    && (clean ==>
         && n <= |pauses| && registry == RegistryAt(start, pauses, n) && Clear(registry, scope, current)
         && forall o :: o in SeenIn(start, pauses, scope, current, n) ==> o.task in done)
    && (!clean ==>
         n > 0 && (n == |pauses| + 1
                   || exists o :: o in Targeted(RegistryAt(start, pauses, n - 1), scope, current) && o.task !in done))
    && (forall k :: 0 <= k < n ==> !Clear(RegistryAt(start, pauses, k), scope, current))
    && forall o :: o in SeenIn(start, pauses, scope, current, n) ==> Targets(scope, current, o) && o.stop in stopped
  }

  /** The registry holds such an operation, and the stop aims at it. */
  predicate Finds(entries: seq<Entry>, scope: Scope, current: Task, o: Operation) {
    Targets(scope, current, o) && exists i :: 0 <= i < |entries| && entries[i].operation == o
  }

  lemma TargetedIff(entries: seq<Entry>, scope: Scope, current: Task, o: Operation)
    ensures o in Targeted(entries, scope, current) <==> Finds(entries, scope, current, o)
  {
    TargetedMeans(entries, scope, current);
    TargetedFrom(entries, scope, current);
  }

  /** What `n` scans saw is exactly what they found in the registry within the scope. */
  lemma {:induction false} SeenIff(start: seq<Entry>, pauses: seq<Pause>, scope: Scope, current: Task, n: nat, o: Operation)
    requires n <= |pauses| + 1
    ensures o in SeenIn(start, pauses, scope, current, n) <==>
      exists k: nat :: k < n && Finds(RegistryAt(start, pauses, k), scope, current, o)
  {
    if n > 0 {
      SeenIff(start, pauses, scope, current, n - 1, o);
      TargetedIff(RegistryAt(start, pauses, n - 1), scope, current, o);
    }
  }

  /** The task of such an operation is cancelled if it may be, and only such a task is. */
  lemma CancelledIff(start: seq<Entry>, pauses: seq<Pause>, scope: Scope, current: Task, n: nat, task: Task)
    requires n <= |pauses| + 1
    ensures task in CancellableIn(SeenIn(start, pauses, scope, current, n)) <==>
      exists o :: o in SeenIn(start, pauses, scope, current, n) && o.task == task && o.cancelOnStop
  {
  }

  /** What a scope reaches: nothing of the caller's own task, everything else of a user, of
      one channel, or of one conversation with what is not bound yet in its channel. */
  lemma ScopeMeans(current: Task, o: Operation, user: string, root: string, channel: string)
    requires o.task != current
    ensures Targets(Everything, current, o) && (Targets(OfUser(user, root, channel, true), current, o) <==> o.user == user)
    ensures root == "" ==> (Targets(OfUser(user, root, channel, false), current, o) <==> o.user == user && o.channel == channel)
    ensures root != "" ==> (Targets(OfUser(user, root, channel, false), current, o) <==>
              o.user == user && (o.root == root || (o.provisional && o.channel == channel)))
    ensures forall scope :: !Targets(scope, o.task, o)
  {
  }

  /** A task that every scan saw only with `cancel_on_stop=False` is drained and never
      cancelled by the stop. */
  lemma NotCancelledIfNeverCancellable(start: seq<Entry>, pauses: seq<Pause>, scope: Scope, current: Task, n: nat, task: Task)
    requires n <= |pauses| + 1
    requires forall k, i :: 0 <= k < n && 0 <= i < |RegistryAt(start, pauses, k)| ==>
      var o := RegistryAt(start, pauses, k)[i].operation; o.task == task ==> !o.cancelOnStop
    ensures task !in CancellableIn(SeenIn(start, pauses, scope, current, n))
  {
    if n > 0 {
      NotCancelledIfNeverCancellable(start, pauses, scope, current, n - 1, task);
      TargetedFrom(RegistryAt(start, pauses, n - 1), scope, current);
    }
  }

  lemma {:induction false} TargetedFrom(entries: seq<Entry>, scope: Scope, current: Task)
    ensures forall o :: o in Targeted(entries, scope, current) ==> exists i :: 0 <= i < |entries| && entries[i].operation == o
  {
    if entries != [] {
      TargetedFrom(entries[1..], scope, current);
      assert forall i :: 0 <= i < |entries[1..]| ==> entries[1..][i] == entries[i + 1];
    }
  }

  /** A stop reports no response exactly when its first scan found nothing. */
  lemma NothingMatchedIffClear(start: seq<Entry>, pauses: seq<Pause>, scope: Scope, current: Task, n: nat,
                               clean: bool, registry: seq<Entry>, done: set<Task>, stopped: set<StopEvent>)
    requires Drained(start, pauses, scope, current, n, clean, registry, done, stopped)
    ensures CountedIn(start, pauses, scope, current, n) == {} <==> Clear(start, scope, current)
    ensures Clear(start, scope, current) ==> clean && registry == start
  {
    assert RegistryAt(start, pauses, 0) == start;
    if n > 0 {
      FirstRoundCounts(start, pauses, scope, current, n);
    }
  }

  lemma {:induction false} FirstRoundCounts(start: seq<Entry>, pauses: seq<Pause>, scope: Scope, current: Task, n: nat)
    requires 0 < n <= |pauses| + 1
    ensures Responses(Targeted(start, scope, current)) <= CountedIn(start, pauses, scope, current, n)
    ensures !Clear(start, scope, current) ==> CountedIn(start, pauses, scope, current, n) != {}
  {
    if n > 1 {
      FirstRoundCounts(start, pauses, scope, current, n - 1);
    } else {
      TargetedMeans(start, scope, current);
      var owned := Targeted(start, scope, current);
      if owned != [] {
        assert ResponseOf(owned, owned[0]) in Responses(owned);
      }
    }
  }

  // ----- binding

  function Bind(o: Operation, task: Task, root: string): Operation {
    if o.task == task && o.provisional then o.(root := root, provisional := false) else o
  }

  function Bound(entries: seq<Entry>, task: Task, root: string): seq<Entry> {
    seq(|entries|, i requires 0 <= i < |entries| => entries[i].(operation := Bind(entries[i].operation, task, root)))
  }

  /** Once a turn is bound, a stop that names another root no longer reaches it. */
  lemma BoundIsNotMatchedByOtherRoot(entries: seq<Entry>, task: Task, root: string, scope: Scope, current: Task, i: nat)
    requires i < |entries| && entries[i].operation.task == task && entries[i].operation.provisional
    requires scope.OfUser? && !scope.all && scope.root != ""
    ensures var o := Bound(entries, task, root)[i].operation;
      Targets(scope, current, o) <==> task != current && o.user == scope.user && root == scope.root
  {
  }

  /** The same turn before it is bound is reached through its channel. */
  lemma ProvisionalIsMatchedByChannel(scope: Scope, current: Task, o: Operation)
    requires o.provisional && o.root == "" && scope.OfUser? && !scope.all
    ensures Targets(scope, current, o) <==> o.task != current && o.user == scope.user && o.channel == scope.channel
  {
  }

  // ----- counting responses

  lemma {:induction false} RootOfBound(ops: seq<Operation>, task: Task, root: string)
    requires forall o :: o in ops && !o.provisional && o.task == task ==> o.root == root
    ensures RootOf(ops, task) == if exists o :: o in ops && !o.provisional && o.task == task then root else ""
  {
    if ops != [] {
      var init, last := ops[..|ops| - 1], ops[|ops| - 1];
      assert ops == init + [last];
      RootOfBound(init, task, root);
    }
  }

  /** All registrations of one root in one channel, with the provisional ones of the same
      tasks, count as one response. */
  lemma OneResponseCountsOnce(ops: seq<Operation>, root: string, channel: string)
    requires ops != [] && root != ""
    requires forall o :: o in ops ==> o.channel == channel && (!o.provisional ==> o.root == root)
    requires forall o :: o in ops && o.provisional ==> exists b :: b in ops && !b.provisional && b.task == o.task
    ensures Responses(ops) == {Rooted(root, channel)}
  {
    forall o | o in ops ensures ResponseOf(ops, o) == Rooted(root, channel) {
      RootOfBound(ops, o.task, root);
    }
    assert ops[0] in ops;
    assert ResponseOf(ops, ops[0]) in Responses(ops);
  }

  /** Bound registrations of different roots count apart when no task mixes roots. */
  lemma DifferentRootsCountApart(ops: seq<Operation>, a: Operation, b: Operation)
    requires a in ops && b in ops && !a.provisional && !b.provisional && a.root != b.root
    requires forall x, y :: x in ops && y in ops && !x.provisional && !y.provisional && x.task == y.task ==> x.root == y.root
    ensures ResponseOf(ops, a) != ResponseOf(ops, b)
  {
    RootOfBound(ops, a.task, a.root);
    RootOfBound(ops, b.task, b.root);
  }
}

module Cancellation {
  import opened StopScopes

  class ActiveOperationRegistry {
    var operations: seq<Entry>
    var done: set<Task>
    var stopped: set<StopEvent>
    var cancelled: set<Task>

    constructor ()
      ensures operations == [] && done == {} && stopped == {} && cancelled == {}
    {
      operations, done, stopped, cancelled := [], {}, {}, {};
    }

    /** An id that is not in the dictionary goes to its end. */
    method Register(id: nat, o: Operation)
      requires forall i :: 0 <= i < |operations| ==> operations[i].id != id
      modifies this`operations
      ensures operations == old(operations) + [Entry(id, o)]
    {
      operations := operations + [Entry(id, o)];
    }

    /** The `finally` of both registrations. */
    method Unregister(id: nat)
      modifies this`operations
      ensures operations == Without(old(operations), id)
    {
      operations := Without(operations, id);
    }

    method BindCurrentProvisional(current: Task, root: string)
      modifies this`operations
      ensures operations == Bound(old(operations), current, root)
      ensures forall i :: 0 <= i < |operations| && operations[i].operation.task == current ==> !operations[i].operation.provisional
    {
      var was := operations;
      for i := 0 to |was|
        invariant |operations| == |was|
        invariant operations[..i] == Bound(was, current, root)[..i] && operations[i..] == was[i..]
      {
        var o := was[i].operation;
        if o.task == current && o.provisional {
          operations := operations[i := was[i].(operation := o.(root := root, provisional := false))];
        }
      }
    }

    method HasActiveForUser(current: Task, user: string) returns (active: bool)
      ensures active <==> exists i :: 0 <= i < |operations| && Targets(OfUser(user, "", "", true), current, operations[i].operation)
    {
      active := exists i :: 0 <= i < |operations| && operations[i].operation.user == user && operations[i].operation.task != current;
    }

    method Suspend(c: Change)
      modifies this
      ensures operations == c.operations && cancelled == old(cancelled)
      ensures done == old(done) + c.finished && stopped == old(stopped) + c.stopped
    {
      operations, done, stopped := c.operations, done + c.finished, stopped + c.stopped;
    }

    /** Sets the stop events and asks the cancellable tasks to end. */
    method Signal(owned: seq<Operation>)
      modifies this`stopped, this`cancelled
      ensures stopped == old(stopped) + Stops(owned) && cancelled == old(cancelled) + Cancellable(owned)
    {
      stopped := stopped + Stops(owned);
      cancelled := cancelled + Cancellable(owned);
    }

    /** Stops what a scan found and waits for it, unless the deadline has passed. */
    method Round(owned: seq<Operation>, pause: seq<Pause>) returns (finished: bool)
      requires |pause| <= 1
      modifies this
      ensures cancelled == old(cancelled) + Cancellable(owned)
      ensures old(done) <= done && old(stopped) + Stops(owned) <= stopped
      ensures finished ==> pause != [] && Tasks(owned) <= done && operations == pause[0].lock.operations
      ensures !finished ==> pause == [] || !(Tasks(owned) <= done)
    {
      Signal(owned);
      if pause == [] {
        return false;
      }
      Suspend(pause[0].wait);
      if !(Tasks(owned) <= done) {
        return false;
      }
      Suspend(pause[0].lock);
      return true;
    }

    /** The loop of both stops. `pauses` says what each round's waits bring; the deadline
        has passed when they run out. Clean means that at this moment the registry holds
        nothing the stop aims at and every task it ever saw has finished; either way each
        stop event is set, and only tasks with a cancellable registration were cancelled. */
    method Drain(scope: Scope, current: Task, pauses: seq<Pause>)
      returns (responses: set<Response>, clean: bool, n: nat)
      modifies this
      ensures Drained(old(operations), pauses, scope, current, n, clean, operations, done, stopped)
      ensures Tally(old(operations), pauses, scope, current, n, responses, old(cancelled), cancelled)
    {
      ghost var start := operations;
      responses, n := {}, 0;
      while true
        invariant SoFar(start, pauses, scope, current, n, done, stopped)
        invariant operations == RegistryAt(start, pauses, n)
        invariant Tally(start, pauses, scope, current, n, responses, old(cancelled), cancelled)
        decreases |pauses| - n
      {
        var owned := Targeted(operations, scope, current);
        if owned == [] {
          CleanNow(start, pauses, scope, current, n, done, stopped);
          return responses, true, n;
        }
        NextTally(start, pauses, scope, current, n, responses, old(cancelled), cancelled);
        responses := responses + Responses(owned);
        ghost var doneThen, stoppedThen := done, stopped;
        var finished := Round(owned, if n < |pauses| then [pauses[n]] else []);
        if !finished {
          RoundEnds(start, pauses, scope, current, n, doneThen, stoppedThen, operations, done, stopped);
          return responses, false, n + 1;
        }
        RoundGoesOn(start, pauses, scope, current, n, doneThen, stoppedThen, done, stopped);
        n := n + 1;
      }
    }

    /** `cancel`: how many responses it matched, and whether all of them are gone. */
    method Cancel(current: Task, user: string, root: string, channel: string, all: bool, pauses: seq<Pause>)
      returns (matched: nat, clean: bool, ghost n: nat)
      modifies this
      ensures var scope := OfUser(user, root, channel, all);
        && Drained(old(operations), pauses, scope, current, n, clean, operations, done, stopped)
        && matched == |CountedIn(old(operations), pauses, scope, current, n)|
        && cancelled == old(cancelled) + CancellableIn(SeenIn(old(operations), pauses, scope, current, n))
    {
      var responses;
      responses, clean, n := Drain(OfUser(user, root, channel, all), current, pauses);
      matched := |responses|;
    }

    /** `cancel_all`. */
    method CancelAll(current: Task, pauses: seq<Pause>) returns (clean: bool, ghost n: nat)
      modifies this
      ensures Drained(old(operations), pauses, Everything, current, n, clean, operations, done, stopped)
      ensures cancelled == old(cancelled) + CancellableIn(SeenIn(old(operations), pauses, Everything, current, n))
    {
      var responses;
      responses, clean, n := Drain(Everything, current, pauses);
    }
  }

  function Without(entries: seq<Entry>, id: nat): seq<Entry> {
    if entries == [] then []
    else (if entries[0].id == id then [] else [entries[0]]) + Without(entries[1..], id)
  }
}
