/** Counting admitted turns (bot/app/admission.py): the total, the count per user and
    the leases that have not been released. */
module AdmissionCounts {
  import opened Wrappers
  import opened MapSums

  datatype Rejection = UserLimit | GlobalLimit | ShuttingDown

  datatype Config = Config(maxActive: nat, maxActivePerUser: nat)

  datatype Lease = Lease(user: string, released: bool)

  /** `underflow` records that the "lease count underflow" error was raised. */
  datatype State = State(total: nat, byUser: map<string, nat>, leases: seq<Lease>, closed: bool, underflow: bool)

  datatype Event = Acquire(user: string) | Release(lease: nat) | Close

  const INITIAL := State(0, map[], [], false, false)

  /** Why `try_acquire` rejects, in the order of its checks. */
  function Rejects(c: Config, closed: bool, userActive: nat, total: nat): Option<Rejection> {
    if closed then Some(ShuttingDown)
    else if userActive >= c.maxActivePerUser then Some(UserLimit)
    else if total >= c.maxActive then Some(GlobalLimit)
    else None
  }

  function Less(byUser: map<string, nat>, user: string): map<string, nat> {
    if Count(byUser, user) <= 1 then byUser - {user} else byUser[user := byUser[user] - 1]
  }

  function Apply(c: Config, s: State, e: Event): State {
    match e
    case Acquire(user) =>
      if Rejects(c, s.closed, Count(s.byUser, user), s.total).Some? then s
      else s.(total := s.total + 1, byUser := s.byUser[user := Count(s.byUser, user) + 1],
              leases := s.leases + [Lease(user, false)])
    case Release(i) =>
      if i >= |s.leases| || s.leases[i].released then s
      else
        var marked := s.(leases := s.leases[i := s.leases[i].(released := true)]);
        if Count(s.byUser, s.leases[i].user) == 0 || s.total == 0 then marked.(underflow := true)
        else marked.(total := s.total - 1, byUser := Less(s.byUser, s.leases[i].user))
    case Close => s.(closed := true)
  }

  function Run(c: Config, log: seq<Event>): State {
    if log == [] then INITIAL else Apply(c, Run(c, log[..|log| - 1]), log[|log| - 1])
  }

  // ----- what the counts count

  /** Leases of a user that have not been released. */
  function Held(leases: seq<Lease>, user: string): nat {
    if leases == [] then 0
    else Held(leases[..|leases| - 1], user)
         + if !leases[|leases| - 1].released && leases[|leases| - 1].user == user then 1 else 0
  }

  /** All leases that have not been released. */
  function Unreleased(leases: seq<Lease>): nat {
    if leases == [] then 0
    else Unreleased(leases[..|leases| - 1]) + if leases[|leases| - 1].released then 0 else 1
  }

  lemma SumLess(m: map<string, nat>, k: string)
    requires Count(m, k) > 0
    ensures Sum(Less(m, k)) == Sum(m) - 1
  {
    if Count(m, k) == 1 {
      SumSplits(m, k);
    } else {
      SumPut(m, k, m[k] - 1);
    }
  }

  lemma {:induction false} ReleaseCounts(leases: seq<Lease>, i: nat, user: string)
    requires i < |leases| && !leases[i].released
    ensures var after := leases[i := leases[i].(released := true)];
      && Unreleased(after) == Unreleased(leases) - 1
      && Held(after, user) == Held(leases, user) - if leases[i].user == user then 1 else 0
    decreases |leases|
  {
    var after := leases[i := leases[i].(released := true)];
    var n := |leases| - 1;
    if i == n {
      assert after[..n] == leases[..n];
    } else {
      assert after[..n] == leases[..n][i := leases[i].(released := true)];
      ReleaseCounts(leases[..n], i, user);
    }
  }

  lemma AcquireCounts(leases: seq<Lease>, who: string, user: string)
    ensures Unreleased(leases + [Lease(who, false)]) == Unreleased(leases) + 1
    ensures Held(leases + [Lease(who, false)], user) == Held(leases, user) + if who == user then 1 else 0
  {
    assert (leases + [Lease(who, false)])[..|leases|] == leases;
  }

  // ----- every reachable state

  ghost predicate Inv(c: Config, s: State) {
    && !s.underflow
    && s.total == Unreleased(s.leases) == Sum(s.byUser)
    && (forall user {:trigger Held(s.leases, user)} {:trigger Count(s.byUser, user)} :: Count(s.byUser, user) == Held(s.leases, user))
    && (forall user :: user in s.byUser ==> 0 < s.byUser[user] <= c.maxActivePerUser)
    && s.total <= c.maxActive
  }

  lemma AcquireKeeps(c: Config, s: State, user: string)
    requires Inv(c, s)
    ensures Inv(c, Apply(c, s, Acquire(user)))
  {
    if Rejects(c, s.closed, Count(s.byUser, user), s.total).None? {
      SumPut(s.byUser, user, Count(s.byUser, user) + 1);
      forall u { AcquireCounts(s.leases, user, u); }
    }
  }

  lemma ReleaseKeeps(c: Config, s: State, i: nat)
    requires Inv(c, s)
    ensures Inv(c, Apply(c, s, Release(i)))
  {
    if i < |s.leases| && !s.leases[i].released {
      var user := s.leases[i].user;
      ReleaseCounts(s.leases, i, user);
      assert Count(s.byUser, user) == Held(s.leases, user);
      SumLess(s.byUser, user);
      forall u ensures Count(Less(s.byUser, user), u) == Held(s.leases[i := s.leases[i].(released := true)], u) {
        ReleaseCounts(s.leases, i, u);
        assert Count(s.byUser, u) == Held(s.leases, u);
      }
    }
  }

  lemma {:induction false} RunKeeps(c: Config, log: seq<Event>)
    ensures Inv(c, Run(c, log))
  {
    if log != [] {
      var s, e := Run(c, log[..|log| - 1]), log[|log| - 1];
      RunKeeps(c, log[..|log| - 1]);
      match e
      case Acquire(user) => AcquireKeeps(c, s, user);
      case Release(i) => ReleaseKeeps(c, s, i);
      case Close =>
    }
  }

  /** In every reachable state the total is the number of unreleased leases and the sum
      of the counts per user, each count is positive and its user's unreleased leases,
      both limits hold, and no release has underflowed. */
  lemma CountsAreLeases(c: Config, log: seq<Event>, user: string)
    ensures var s := Run(c, log);
      && s.total == Unreleased(s.leases) == Sum(s.byUser) <= c.maxActive
      && Count(s.byUser, user) == Held(s.leases, user) <= c.maxActivePerUser
      && (user in s.byUser <==> Held(s.leases, user) > 0)
      && !s.underflow
  {
    RunKeeps(c, log);
    assert Count(Run(c, log).byUser, user) == Held(Run(c, log).leases, user);
  }

  /** The underflow error is unreachable: an unreleased lease is always counted. */
  lemma ReleaseNeverUnderflows(c: Config, log: seq<Event>, i: nat)
    requires i < |Run(c, log).leases| && !Run(c, log).leases[i].released
    ensures var s := Run(c, log); var user := s.leases[i].user;
      && Count(s.byUser, user) > 0 && s.total > 0
      && Apply(c, s, Release(i)) == s.(leases := s.leases[i := s.leases[i].(released := true)],
                                       total := s.total - 1, byUser := Less(s.byUser, user))
  {
    RunKeeps(c, log);
    var s := Run(c, log);
    ReleaseCounts(s.leases, i, s.leases[i].user);
    assert Count(s.byUser, s.leases[i].user) == Held(s.leases, s.leases[i].user);
  }

  /** A turn is admitted exactly when the controller is open and neither the user's nor
      all unreleased leases are at their limit. */
  lemma AdmittedIffRoom(c: Config, log: seq<Event>, user: string)
    ensures var s := Run(c, log);
      |Apply(c, s, Acquire(user)).leases| == |s.leases| + 1
      <==> !s.closed && Held(s.leases, user) < c.maxActivePerUser && Unreleased(s.leases) < c.maxActive
  {
    CountsAreLeases(c, log, user);
  }

  /** After close nothing is granted any more, whatever follows. */
  lemma {:induction false} NothingAfterClose(c: Config, log: seq<Event>, more: seq<Event>)
    requires Run(c, log).closed
    ensures Run(c, log + more).closed && |Run(c, log + more).leases| == |Run(c, log).leases|
    ensures Run(c, log + more).total <= Run(c, log).total
    decreases |more|
  {
    if more == [] {
      assert log + more == log;
    } else {
      var init := more[..|more| - 1];
      assert (log + more)[..|log + more| - 1] == log + init;
      NothingAfterClose(c, log, init);
    }
  }

  lemma ReleaseTwiceIsOnce(c: Config, s: State, i: nat)
    ensures Apply(c, Apply(c, s, Release(i)), Release(i)) == Apply(c, s, Release(i))
  {
  }

  /** A lease once released stays released, and when all are the counts are empty. */
  lemma DrainedIsEmpty(c: Config, log: seq<Event>)
    requires forall i :: 0 <= i < |Run(c, log).leases| ==> Run(c, log).leases[i].released
    ensures Run(c, log).total == 0 && Run(c, log).byUser == map[]
  {
    RunKeeps(c, log);
    var s := Run(c, log);
    forall user ensures Held(s.leases, user) == 0 && Unreleased(s.leases) == 0 {
      NoneHeld(s.leases, user);
    }
    forall user ensures user !in s.byUser {
      assert Count(s.byUser, user) == Held(s.leases, user);
    }
  }

  lemma {:induction false} NoneHeld(leases: seq<Lease>, user: string)
    requires forall i :: 0 <= i < |leases| ==> leases[i].released
    ensures Held(leases, user) == 0 && Unreleased(leases) == 0
  {
    if leases != [] {
      NoneHeld(leases[..|leases| - 1], user);
    }
  }
}

/** `TurnAdmissionController` and its leases. */
module Admission {
  import opened Wrappers
  import opened MapSums
  import opened AdmissionCounts

  class TurnAdmissionLease {
    const user: string
    var released: bool

    constructor (user: string)
      ensures this.user == user && !released
    {
      this.user, released := user, false;
    }
  }

  class TurnAdmissionController {
    const config: Config
    var activeTotal: nat
    var activeByUser: map<string, nat>
    var closed: bool
    ghost var handed: seq<TurnAdmissionLease>
    ghost var log: seq<Event>

    ghost predicate Fields(s: State)
      reads this
    {
      activeTotal == s.total && activeByUser == s.byUser && closed == s.closed
    }

    /** Each lease handed out is the one of the history. */
    ghost predicate Leases(leases: seq<Lease>)
      reads this, handed
    {
      && |handed| == |leases|
      && (forall i :: 0 <= i < |handed| ==> Lease(handed[i].user, handed[i].released) == leases[i])
      && forall i, j :: 0 <= i < j < |handed| ==> handed[i] != handed[j]
    }

    ghost predicate Valid()
      reads this, handed
    {
      Fields(Run(config, log)) && Leases(Run(config, log).leases)
    }

    constructor (c: Config)
      ensures Valid() && config == c && log == [] && handed == []
    {
      config, activeTotal, activeByUser, closed, handed, log := c, 0, map[], false, [], [];
    }

    /** The constructor's checks. */
    static method Create(maxActive: int, maxActivePerUser: int) returns (r: Result<TurnAdmissionController, string>)
      ensures r.Success? <==> maxActive > 0 && maxActivePerUser > 0
      ensures r.Success? ==> fresh(r.value) && r.value.Valid() && r.value.config == Config(maxActive, maxActivePerUser)
    {
      if maxActive <= 0 {
        return Failure("max_active must be a positive integer");
      }
      if maxActivePerUser <= 0 {
        return Failure("max_active_per_user must be a positive integer");
      }
      var controller := new TurnAdmissionController(Config(maxActive, maxActivePerUser));
      r := Success(controller);
    }

    ghost method Note(e: Event)
      requires Valid()
      modifies this`log
      ensures log == old(log) + [e]
      ensures Run(config, log) == Apply(config, Run(config, old(log)), e)
    {
      log := log + [e];
      assert log[..|log| - 1] == old(log);
    }

    /** `try_acquire`: a lease or a reason, at once. */
    method TryAcquire(user: string) returns (lease: TurnAdmissionLease?, rejection: Option<Rejection>)
      requires Valid()
      modifies this
      ensures Valid() && log == old(log) + [Acquire(user)]
      ensures lease == null <==> rejection.Some?
      ensures rejection == Rejects(config, old(closed), Count(old(activeByUser), user), old(activeTotal))
      ensures lease != null ==> fresh(lease) && handed == old(handed) + [lease] && lease.user == user && !lease.released
      ensures lease == null ==> handed == old(handed)
    {
      Note(Acquire(user));
      if closed {
        return null, Some(ShuttingDown);
      }
      var userActive := if user in activeByUser then activeByUser[user] else 0;
      if userActive >= config.maxActivePerUser {
        return null, Some(UserLimit);
      }
      if activeTotal >= config.maxActive {
        return null, Some(GlobalLimit);
      }
      activeTotal := activeTotal + 1;
      activeByUser := activeByUser[user := userActive + 1];
      lease := new TurnAdmissionLease(user);
      handed := handed + [lease];
      rejection := None;
    }

    method CloseAdmission()
      requires Valid()
      modifies this
      ensures Valid() && log == old(log) + [Close] && closed
    {
      Note(Close);
      closed := true;
    }

    /** Takes one unit of a user away. */
    method Deduct(user: string)
      requires Count(activeByUser, user) > 0 && activeTotal > 0
      modifies this`activeByUser, this`activeTotal
      ensures activeByUser == Less(old(activeByUser), user) && activeTotal == old(activeTotal) - 1
    {
      if activeByUser[user] == 1 {
        activeByUser := activeByUser - {user};
      } else {
        activeByUser := activeByUser[user := activeByUser[user] - 1];
      }
      activeTotal := activeTotal - 1;
    }

    /** `_release`. A lease that is handed out and not released is counted, so its error
        branch is dead. */
    method ReleaseLease(lease: TurnAdmissionLease, ghost i: nat)
      requires Valid() && i < |handed| && handed[i] == lease
      modifies this`activeTotal, this`activeByUser, this`log, lease
      ensures Valid() && log == old(log) + [Release(i)]
      ensures lease.released
      ensures activeTotal == if old(lease.released) then old(activeTotal) else old(activeTotal) - 1
      ensures activeByUser == if old(lease.released) then old(activeByUser) else Less(old(activeByUser), lease.user)
    {
      ghost var s := Run(config, log);
      if lease.released {
        Note(Release(i));
        return;
      }
      ReleaseNeverUnderflows(config, log, i);
      Note(Release(i));
      lease.released := true;
      assert Leases(s.leases[i := s.leases[i].(released := true)]);
      var userActive := if lease.user in activeByUser then activeByUser[lease.user] else 0;
      if userActive <= 0 || activeTotal <= 0 {
        assert false;
      }
      Deduct(lease.user);
    }
  }
}
