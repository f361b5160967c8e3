/** Dashboard sign-in state (bot/app/dashboard_auth.py): challenges, logins in
    flight, sessions, and the fence that a deletion puts up against older challenges. */
module DashboardAuth {
  import opened Wrappers

  /** Seconds that a challenge and a fence last. */
  const LIFETIME := 300.0

  datatype Config = Config(seconds: real, maximum: nat)

  datatype Challenge = Challenge(secret: string, expires: real, generation: nat)

  datatype Session = Session(token: string, user: string, expires: real)

  datatype Fence = Fence(generation: nat, until: real)

  datatype AuthError = Unauthorized | BadRequest | Busy

  // ----- the state with its provenance

  /** A challenge and the position in the history at which it was issued. */
  datatype Issued = Issued(challenge: Challenge, born: nat)

  /** A session and the position at which its challenge was issued. */
  datatype Opened = Opened(session: Session, born: nat)

  datatype State = State(
    sessions: map<string, Opened>,
    challenges: map<string, Issued>,
    inflight: map<nat, Issued>,
    revoked: map<string, Fence>,
    generation: nat)

  /** One stretch of code between two awaits, with the clock reading it saw. `user` is
      none when the identity could not be established. */
  datatype Event =
    | Issue(now: real, cookie: string, secret: string)
    | Begin(now: real, cookie: string, secret: string, wellFormed: bool)
    | Finish(now: real, login: nat, user: Option<string>, cookie: string, token: string)
    | Delete(now: real, owner: string)
    | Logout(now: real, token: string)

  const INITIAL := State(map[], map[], map[], map[], 0)

  function Pruned(s: State, now: real): State {
    s.(revoked := map k | k in s.revoked && s.revoked[k].until > now :: s.revoked[k],
       sessions := map k | k in s.sessions && s.sessions[k].session.expires > now :: s.sessions[k],
       challenges := map k | k in s.challenges && s.challenges[k].challenge.expires > now :: s.challenges[k])
  }

  function Floor(revoked: map<string, Fence>, user: string): nat {
    if user in revoked then revoked[user].generation else 0
  }

  predicate Refuses(revoked: map<string, Fence>, user: string, c: Challenge, now: real) {
    c.expires <= now || c.generation < Floor(revoked, user)
  }

  /** The browser's previous session belongs to the user who signs in again. */
  predicate Replacing(s: State, cookie: string, user: string) {
    cookie in s.sessions && s.sessions[cookie].session.user == user
  }

  predicate Full(c: Config, s: State, cookie: string, user: string) {
    |s.sessions| - (if Replacing(s, cookie, user) then 1 else 0) >= c.maximum
  }

  /** What the second phase of a login does once the identity is known. */
  predicate Admits(c: Config, s: State, now: real, login: nat, user: string, cookie: string) {
    login in s.inflight && !Refuses(s.revoked, user, s.inflight[login].challenge, now) && !Full(c, s, cookie, user)
  }

  function Admitted(c: Config, s: State, e: Event): State
    requires e.Finish? && e.login in s.inflight && e.user.Some?
  {
    var kept := if Replacing(s, e.cookie, e.user.value) then s.sessions - {s.sessions[e.cookie].session.token} else s.sessions;
    var entry := Opened(Session(e.token, e.user.value, e.now + c.seconds), s.inflight[e.login].born);
    s.(sessions := kept[e.token := entry], inflight := s.inflight - {e.login})
  }

  function Apply(c: Config, s: State, at: nat, e: Event): State {
    match e
    case Issue(now, cookie, secret) =>
      var p := Pruned(s, now);
      if |p.challenges| >= c.maximum then p
      else p.(challenges := p.challenges[cookie := Issued(Challenge(secret, now + LIFETIME, p.generation), at)])
    case Begin(now, cookie, secret, wellFormed) =>
      var p := Pruned(s, now);
      if cookie !in p.challenges then p
      else
        var q := p.(challenges := p.challenges - {cookie});
        if p.challenges[cookie].challenge.secret != secret || !wellFormed then q
        else q.(inflight := q.inflight[at := p.challenges[cookie]])
    case Finish(now, login, user, cookie, token) =>
      if user.Some? && Admits(c, s, now, login, user.value, cookie) then Admitted(c, s, e)
      else s.(inflight := s.inflight - {login})
    case Delete(now, owner) =>
      s.(generation := s.generation + 1,
         revoked := s.revoked[owner := Fence(s.generation + 1, now + LIFETIME)],
         sessions := map k | k in s.sessions && s.sessions[k].session.user != owner :: s.sessions[k])
    case Logout(now, token) => s.(sessions := s.sessions - {token})
  }

  function Run(c: Config, log: seq<Event>): State {
    if log == [] then INITIAL
    else Apply(c, Run(c, log[..|log| - 1]), |log| - 1, log[|log| - 1])
  }

  // ----- the history

  predicate Monotonic(log: seq<Event>) {
    forall i, j :: 0 <= i <= j < |log| ==> log[i].now <= log[j].now
  }

  predicate Deletes(log: seq<Event>, i: nat, user: string) {
    i < |log| && log[i].Delete? && log[i].owner == user
  }

  /** The generation before step `i`. */
  function GenerationAt(log: seq<Event>, i: nat): nat
    requires i <= |log|
  {
    if i == 0 then 0 else GenerationAt(log, i - 1) + if log[i - 1].Delete? then 1 else 0
  }

  lemma {:induction false} GenerationGrows(log: seq<Event>, i: nat, j: nat)
    requires i <= j <= |log|
    ensures GenerationAt(log, i) <= GenerationAt(log, j)
    decreases j - i
  {
    if i < j {
      GenerationGrows(log, i, j - 1);
    }
  }

  lemma {:induction false} GenerationSnoc(log: seq<Event>, e: Event, i: nat)
    requires i <= |log|
    ensures GenerationAt(log + [e], i) == GenerationAt(log, i)
  {
    if i > 0 {
      GenerationSnoc(log, e, i - 1);
    }
  }

  /** A challenge is the one that was issued at its birth. */
  ghost predicate IssuedIn(log: seq<Event>, x: Issued) {
    && x.born < |log| && log[x.born].Issue?
    && x.challenge == Challenge(log[x.born].secret, log[x.born].now + LIFETIME, GenerationAt(log, x.born))
  }

  /** A session descends from a challenge issued after its user's latest deletion. */
  ghost predicate Descends(log: seq<Event>, x: Opened) {
    x.born < |log| && log[x.born].Issue? && forall j: nat :: Deletes(log, j, x.session.user) ==> j < x.born
  }

  /** The fence of a user covers every deletion; a fence that is gone has outlived them. */
  ghost predicate Fenced(log: seq<Event>, revoked: map<string, Fence>, user: string) {
    && (forall j: nat :: Deletes(log, j, user) ==>
         if user in revoked
         then GenerationAt(log, j) < revoked[user].generation && log[j].now + LIFETIME <= revoked[user].until
         else log[j].now + LIFETIME <= log[|log| - 1].now)
    && (user in revoked ==>
         exists j: nat :: Deletes(log, j, user) && revoked[user].generation == GenerationAt(log, j) + 1)
  }

  ghost predicate Inv(log: seq<Event>, s: State) {
    && s.generation == GenerationAt(log, |log|)
    && (forall k :: k in s.challenges ==> IssuedIn(log, s.challenges[k]))
    && (forall k :: k in s.inflight ==> IssuedIn(log, s.inflight[k]))
    && (forall k :: k in s.sessions ==> s.sessions[k].session.token == k && Descends(log, s.sessions[k]))
    && (forall user :: Fenced(log, s.revoked, user))
  }

  // ----- every step keeps the invariant

  lemma IssuedSnoc(log: seq<Event>, e: Event, x: Issued)
    requires IssuedIn(log, x)
    ensures IssuedIn(log + [e], x)
  {
    GenerationSnoc(log, e, x.born);
  }

  lemma DescendsSnoc(log: seq<Event>, e: Event, x: Opened)
    requires Descends(log, x) && !(e.Delete? && e.owner == x.session.user)
    ensures Descends(log + [e], x)
  {
    forall j: nat | Deletes(log + [e], j, x.session.user) ensures j < x.born {
      assert Deletes(log, j, x.session.user);
    }
  }

  /** Steps that delete nobody keep each fence, and pruning drops it only when its
      time is over. */
  lemma FencedSnoc(log: seq<Event>, e: Event, revoked: map<string, Fence>, after: map<string, Fence>, user: string)
    requires Monotonic(log + [e]) && Fenced(log, revoked, user) && !(e.Delete? && e.owner == user)
    requires if user in after then user in revoked && after[user] == revoked[user]
             else user !in revoked || revoked[user].until <= e.now
    ensures Fenced(log + [e], after, user)
  {
    forall j: nat | Deletes(log + [e], j, user)
      ensures if user in after
              then GenerationAt(log + [e], j) < after[user].generation && (log + [e])[j].now + LIFETIME <= after[user].until
              else (log + [e])[j].now + LIFETIME <= e.now
    {
      assert Deletes(log, j, user);
      GenerationSnoc(log, e, j);
      assert (log + [e])[|log| - 1].now <= (log + [e])[|log|].now;
    }
    if user in after {
      var j: nat :| Deletes(log, j, user) && revoked[user].generation == GenerationAt(log, j) + 1;
      GenerationSnoc(log, e, j);
      assert Deletes(log + [e], j, user);
    }
  }

  lemma FenceGoesUp(log: seq<Event>, e: Event, revoked: map<string, Fence>, generation: nat)
    requires Monotonic(log + [e]) && e.Delete? && generation == GenerationAt(log, |log|)
    ensures Fenced(log + [e], revoked[e.owner := Fence(generation + 1, e.now + LIFETIME)], e.owner)
  {
    var all := log + [e];
    forall j: nat | Deletes(all, j, e.owner)
      ensures GenerationAt(all, j) < generation + 1 && all[j].now + LIFETIME <= e.now + LIFETIME
    {
      GenerationSnoc(log, e, j);
      GenerationGrows(log, j, |log|);
      assert all[j].now <= all[|log|].now;
    }
    GenerationSnoc(log, e, |log|);
    assert Deletes(all, |log|, e.owner);
  }

  /** While a challenge lives, the fence refuses it exactly when its user was deleted
      after it was issued, however many fences have been pruned since. */
  lemma FenceIsExact(log: seq<Event>, now: real, revoked: map<string, Fence>, x: Issued, user: string)
    requires Monotonic(log) && (log != [] ==> log[|log| - 1].now <= now)
    requires Fenced(log, revoked, user) && IssuedIn(log, x)
    ensures Refuses(revoked, user, x.challenge, now)
      <==> x.challenge.expires <= now || exists j: nat :: x.born <= j && Deletes(log, j, user)
  {
    if x.challenge.expires > now {
      if user in revoked && x.challenge.generation < revoked[user].generation {
        var j: nat :| Deletes(log, j, user) && revoked[user].generation == GenerationAt(log, j) + 1;
        if j < x.born {
          GenerationGrows(log, j + 1, x.born);
        }
        assert x.born <= j;
      }
      forall j: nat | x.born <= j && Deletes(log, j, user)
        ensures Refuses(revoked, user, x.challenge, now)
      {
        assert log[x.born].now <= log[j].now;
        GenerationGrows(log, x.born, j);
      }
    }
  }

  lemma MonotonicSnoc(log: seq<Event>, e: Event)
    requires Monotonic(log + [e])
    ensures Monotonic(log) && (log != [] ==> log[|log| - 1].now <= e.now)
  {
    var all := log + [e];
    assert forall i :: 0 <= i < |log| ==> all[i] == log[i];
    if log != [] {
      assert all[|log| - 1].now <= all[|log|].now;
    }
  }

  /** A challenge that is not refused is younger than every deletion of its user. */
  lemma NotRefusedDescends(log: seq<Event>, e: Event, revoked: map<string, Fence>, x: Issued, session: Session)
    requires Monotonic(log + [e]) && !e.Delete?
    requires Fenced(log, revoked, session.user) && IssuedIn(log, x)
    requires !Refuses(revoked, session.user, x.challenge, e.now)
    ensures Descends(log + [e], Opened(session, x.born))
  {
    MonotonicSnoc(log, e);
    FenceIsExact(log, e.now, revoked, x, session.user);
    forall j: nat | Deletes(log + [e], j, session.user) ensures j < x.born {
      assert Deletes(log, j, session.user);
    }
  }

  lemma FencesKept(log: seq<Event>, s: State, e: Event, after: map<string, Fence>)
    requires Monotonic(log + [e]) && Inv(log, s)
    requires !e.Delete?
    requires after == s.revoked || after == Pruned(s, e.now).revoked
    ensures forall user :: Fenced(log + [e], after, user)
  {
    forall user ensures Fenced(log + [e], after, user) {
      FencedSnoc(log, e, s.revoked, after, user);
    }
  }

  lemma DeleteKeeps(c: Config, log: seq<Event>, s: State, e: Event)
    requires Monotonic(log + [e]) && Inv(log, s) && e.Delete?
    ensures Inv(log + [e], Apply(c, s, |log|, e))
  {
    var t := Apply(c, s, |log|, e);
    StoresKept(log, s, e);
    forall user ensures Fenced(log + [e], t.revoked, user) {
      if user == e.owner {
        FenceGoesUp(log, e, s.revoked, s.generation);
      } else {
        FencedSnoc(log, e, s.revoked, t.revoked, user);
      }
    }
    GenerationSnoc(log, e, |log|);
  }

  /** Whatever a step leaves in its place stays sound. */
  lemma StoresKept(log: seq<Event>, s: State, e: Event)
    requires Inv(log, s)
    ensures forall k :: k in s.challenges ==> IssuedIn(log + [e], s.challenges[k])
    ensures forall k :: k in s.inflight ==> IssuedIn(log + [e], s.inflight[k])
    ensures forall k :: k in s.sessions ==> !(e.Delete? && e.owner == s.sessions[k].session.user) ==>
      Descends(log + [e], s.sessions[k])
  {
    forall k | k in s.challenges ensures IssuedIn(log + [e], s.challenges[k]) {
      IssuedSnoc(log, e, s.challenges[k]);
    }
    forall k | k in s.inflight ensures IssuedIn(log + [e], s.inflight[k]) {
      IssuedSnoc(log, e, s.inflight[k]);
    }
    forall k | k in s.sessions && !(e.Delete? && e.owner == s.sessions[k].session.user)
      ensures Descends(log + [e], s.sessions[k])
    {
      DescendsSnoc(log, e, s.sessions[k]);
    }
  }

  lemma AdmittedSessions(c: Config, log: seq<Event>, s: State, e: Event)
    requires Monotonic(log + [e]) && Inv(log, s) && e.Finish? && e.user.Some?
    requires Admits(c, s, e.now, e.login, e.user.value, e.cookie)
    ensures var after := Admitted(c, s, e).sessions;
      forall k :: k in after ==> after[k].session.token == k && Descends(log + [e], after[k])
  {
    var x, session := s.inflight[e.login], Session(e.token, e.user.value, e.now + c.seconds);
    NotRefusedDescends(log, e, s.revoked, x, session);
    var after := Admitted(c, s, e).sessions;
    assert after[e.token] == Opened(session, x.born);
    forall k | k in after && k != e.token ensures after[k].session.token == k && Descends(log + [e], after[k]) {
      assert k in s.sessions && after[k] == s.sessions[k];
      DescendsSnoc(log, e, s.sessions[k]);
    }
  }

  lemma AdmittedKeeps(c: Config, log: seq<Event>, s: State, e: Event)
    requires Monotonic(log + [e]) && Inv(log, s) && e.Finish? && e.user.Some?
    requires Admits(c, s, e.now, e.login, e.user.value, e.cookie)
    ensures Inv(log + [e], Admitted(c, s, e))
  {
    AdmittedSessions(c, log, s, e);
    StoresKept(log, s, e);
    FencesKept(log, s, e, s.revoked);
    GenerationSnoc(log, e, |log|);
  }

  lemma TurnedAwayKeeps(log: seq<Event>, s: State, e: Event)
    requires Monotonic(log + [e]) && Inv(log, s) && e.Finish?
    ensures Inv(log + [e], s.(inflight := s.inflight - {e.login}))
  {
    StoresKept(log, s, e);
    FencesKept(log, s, e, s.revoked);
    GenerationSnoc(log, e, |log|);
  }

  lemma FinishKeeps(c: Config, log: seq<Event>, s: State, e: Event)
    requires Monotonic(log + [e]) && Inv(log, s) && e.Finish?
    ensures Inv(log + [e], Apply(c, s, |log|, e))
  {
    if e.user.Some? && Admits(c, s, e.now, e.login, e.user.value, e.cookie) {
      AdmittedKeeps(c, log, s, e);
    } else {
      TurnedAwayKeeps(log, s, e);
    }
  }

  lemma PrunedKeeps(log: seq<Event>, s: State, e: Event)
    requires Monotonic(log + [e]) && Inv(log, s) && (e.Issue? || e.Begin?)
    ensures Inv(log + [e], Pruned(s, e.now))
  {
    StoresKept(log, s, e);
    FencesKept(log, s, e, Pruned(s, e.now).revoked);
    GenerationSnoc(log, e, |log|);
  }

  lemma IssueKeeps(c: Config, log: seq<Event>, s: State, e: Event)
    requires Monotonic(log + [e]) && Inv(log, s) && e.Issue?
    ensures Inv(log + [e], Apply(c, s, |log|, e))
  {
    PrunedKeeps(log, s, e);
    GenerationSnoc(log, e, |log|);
    assert IssuedIn(log + [e], Issued(Challenge(e.secret, e.now + LIFETIME, s.generation), |log|));
  }

  lemma BeginKeeps(c: Config, log: seq<Event>, s: State, e: Event)
    requires Monotonic(log + [e]) && Inv(log, s) && e.Begin?
    ensures Inv(log + [e], Apply(c, s, |log|, e))
  {
    PrunedKeeps(log, s, e);
  }

  lemma LogoutKeeps(c: Config, log: seq<Event>, s: State, e: Event)
    requires Monotonic(log + [e]) && Inv(log, s) && e.Logout?
    ensures Inv(log + [e], Apply(c, s, |log|, e))
  {
    StoresKept(log, s, e);
    FencesKept(log, s, e, s.revoked);
    GenerationSnoc(log, e, |log|);
  }

  lemma StepKeeps(c: Config, log: seq<Event>, s: State, e: Event)
    requires Monotonic(log + [e]) && Inv(log, s)
    ensures Inv(log + [e], Apply(c, s, |log|, e))
  {
    match e
    case Issue(_, _, _) => IssueKeeps(c, log, s, e);
    case Begin(_, _, _, _) => BeginKeeps(c, log, s, e);
    case Finish(_, _, _, _, _) => FinishKeeps(c, log, s, e);
    case Delete(_, _) => DeleteKeeps(c, log, s, e);
    case Logout(_, _) => LogoutKeeps(c, log, s, e);
  }

  lemma {:induction false} RunKeeps(c: Config, log: seq<Event>)
    requires Monotonic(log)
    ensures Inv(log, Run(c, log))
  {
    if log != [] {
      var init := log[..|log| - 1];
      assert log == init + [log[|log| - 1]];
      RunKeeps(c, init);
      StepKeeps(c, init, Run(c, init), log[|log| - 1]);
    }
  }

  // ----- main results

  /** No session of a user descends from a challenge issued before any deletion of that
      user, over every run with a monotonic clock. */
  lemma NoSessionFromBeforeDeletion(c: Config, log: seq<Event>, token: string, deletion: nat)
    requires Monotonic(log) && token in Run(c, log).sessions
    requires Deletes(log, deletion, Run(c, log).sessions[token].session.user)
    ensures var born := Run(c, log).sessions[token].born; deletion < born < |log| && log[born].Issue?
  {
    RunKeeps(c, log);
  }

  /** A login in flight is refused at its end exactly when its challenge has expired or
      its user was deleted after the challenge was issued. */
  lemma RefusedIffDeletedSince(c: Config, log: seq<Event>, now: real, login: nat, user: string)
    requires Monotonic(log) && (log != [] ==> log[|log| - 1].now <= now)
    requires login in Run(c, log).inflight
    ensures var s := Run(c, log); var x := s.inflight[login];
      Refuses(s.revoked, user, x.challenge, now)
      <==> x.challenge.expires <= now || exists j: nat :: x.born <= j && Deletes(log, j, user)
  {
    RunKeeps(c, log);
    FenceIsExact(log, now, Run(c, log).revoked, Run(c, log).inflight[login], user);
  }

  // ----- what stays

  /** An event takes a session away: it is over, its user is deleted, it is logged out, or
      the same user's next sign-in in that browser replaces it. */
  predicate Takes(e: Event, k: string, x: Session) {
    || ((e.Issue? || e.Begin?) && x.expires <= e.now)
    || (e.Delete? && e.owner == x.user)
    || (e.Logout? && e.token == k)
    || (e.Finish? && (e.token == k || (e.cookie == k && e.user == Some(x.user))))
  }

  /** Nothing else does. */
  lemma SessionStays(c: Config, log: seq<Event>, e: Event, k: string)
    requires Monotonic(log) && k in Run(c, log).sessions && !Takes(e, k, Run(c, log).sessions[k].session)
    ensures var s := Run(c, log); var after := Apply(c, s, |log|, e);
      k in after.sessions && after.sessions[k] == s.sessions[k]
  {
    RunKeeps(c, log);
    StaysAfter(c, Run(c, log), |log|, e, k);
  }

  lemma StaysAfter(c: Config, s: State, at: nat, e: Event, k: string)
    requires forall t :: t in s.sessions ==> s.sessions[t].session.token == t
    requires k in s.sessions && !Takes(e, k, s.sessions[k].session)
    ensures k in Apply(c, s, at, e).sessions && Apply(c, s, at, e).sessions[k] == s.sessions[k]
  {
  }

  /** A challenge stays until it expires, is used, or is issued anew under its cookie. */
  lemma ChallengeStays(c: Config, s: State, at: nat, e: Event, k: string)
    requires k in s.challenges
    requires !((e.Issue? || e.Begin?) && (s.challenges[k].challenge.expires <= e.now || e.cookie == k))
    ensures k in Apply(c, s, at, e).challenges && Apply(c, s, at, e).challenges[k] == s.challenges[k]
  {
  }

  /** The expired are gone when a challenge is issued or a login begins. */
  lemma NothingExpiredStays(c: Config, s: State, at: nat, e: Event)
    requires e.Issue? || e.Begin?
    ensures var after := Apply(c, s, at, e);
      && (forall k :: k in after.sessions ==> after.sessions[k].session.expires > e.now)
      && (forall k :: k in after.challenges ==> after.challenges[k].challenge.expires > e.now)
  {
  }

  lemma FirstIssue(c: Config, now: real, cookie: string, secret: string)
    requires c.maximum > 0
    ensures Apply(c, INITIAL, 0, Issue(now, cookie, secret))
         == State(map[], map[cookie := Issued(Challenge(secret, now + LIFETIME, 0), 0)], map[], map[], 0)
  {
    assert Pruned(INITIAL, now) == INITIAL;
  }

  lemma FirstBegin(c: Config, now: real, cookie: string, x: Issued)
    requires now < x.challenge.expires
    ensures Apply(c, State(map[], map[cookie := x], map[], map[], 0), 1, Begin(now, cookie, x.challenge.secret, true))
         == State(map[], map[], map[1 := x], map[], 0)
  {
    var s := State(map[], map[cookie := x], map[], map[], 0);
    assert Pruned(s, now) == s;
    assert s.challenges - {cookie} == map[];
  }

  /** A browser that is given a challenge and answers it in time is signed in. */
  lemma FirstLogin(c: Config, issued: real, begun: real, finished: real, cookie: string, secret: string, user: string, token: string)
    requires c.maximum > 0 && issued <= begun <= finished < issued + LIFETIME
    ensures var log := [Issue(issued, cookie, secret)] + [Begin(begun, cookie, secret, true)]
                       + [Finish(finished, 1, Some(user), "", token)];
      var s := Run(c, log);
      token in s.sessions && s.sessions[token].session == Session(token, user, finished + c.seconds)
  {
    var first, second, third := Issue(issued, cookie, secret), Begin(begun, cookie, secret, true), Finish(finished, 1, Some(user), "", token);
    var x := Issued(Challenge(secret, issued + LIFETIME, 0), 0);
    RunSnoc(c, [], first);
    assert [] + [first] == [first];
    FirstIssue(c, issued, cookie, secret);
    RunSnoc(c, [first], second);
    FirstBegin(c, begun, cookie, x);
    RunSnoc(c, [first] + [second], third);
    FirstFinish(c, finished, user, token, x);
  }

  lemma FirstFinish(c: Config, now: real, user: string, token: string, x: Issued)
    requires c.maximum > 0 && now < x.challenge.expires
    ensures var s := Apply(c, State(map[], map[], map[1 := x], map[], 0), 2, Finish(now, 1, Some(user), "", token));
      token in s.sessions && s.sessions[token].session == Session(token, user, now + c.seconds)
  {
  }

  lemma {:induction false} SubsetCardinality<T>(a: set<T>, b: set<T>)
    requires a <= b
    ensures |a| <= |b|
  {
    if a != {} {
      var x :| x in a;
      SubsetCardinality(a - {x}, b - {x});
    }
  }

  lemma FewerKeys<K, V>(m: map<K, V>, n: map<K, V>)
    requires m.Keys <= n.Keys
    ensures |m| <= |n|
  {
    SubsetCardinality(m.Keys, n.Keys);
    assert |m.Keys| == |m| && |n.Keys| == |n|;
  }

  lemma PutCardinality<K, V>(m: map<K, V>, k: K, v: V)
    ensures |m[k := v]| <= |m| + 1
  {
    assert m[k := v].Keys == m.Keys + {k};
    assert |m[k := v].Keys| == |m[k := v]| && |m.Keys| == |m|;
  }

  lemma DropCardinality<K, V>(m: map<K, V>, k: K)
    ensures |m - {k}| == |m| - if k in m then 1 else 0
  {
    assert (m - {k}).Keys == m.Keys - {k};
    assert |(m - {k}).Keys| == |m - {k}| && |m.Keys| == |m|;
  }

  lemma StepBounded(c: Config, s: State, at: nat, e: Event)
    requires |s.sessions| <= c.maximum && |s.challenges| <= c.maximum
    requires forall k :: k in s.sessions ==> s.sessions[k].session.token == k
    ensures var t := Apply(c, s, at, e); |t.sessions| <= c.maximum && |t.challenges| <= c.maximum
  {
    var t := Apply(c, s, at, e);
    var p := Pruned(s, e.now);
    FewerKeys(p.sessions, s.sessions);
    FewerKeys(p.challenges, s.challenges);
    match e
    case Issue(now, cookie, secret) =>
      PutCardinality(p.challenges, cookie, Issued(Challenge(secret, now + LIFETIME, p.generation), at));
    case Begin(_, cookie, _, _) =>
      DropCardinality(p.challenges, cookie);
    case Finish(now, login, user, cookie, token) =>
      if user.Some? && Admits(c, s, now, login, user.value, cookie) {
        var entry := t.sessions[token];
        DropCardinality(s.sessions, cookie);
        PutCardinality(if Replacing(s, cookie, user.value) then s.sessions - {cookie} else s.sessions, token, entry);
      }
    case Delete(_, _) =>
      FewerKeys(t.sessions, s.sessions);
    case Logout(_, token) =>
      DropCardinality(s.sessions, token);
  }

  /** Sessions and challenges never exceed the maximum. */
  lemma {:induction false} Bounded(c: Config, log: seq<Event>)
    requires Monotonic(log)
    ensures |Run(c, log).sessions| <= c.maximum && |Run(c, log).challenges| <= c.maximum
  {
    if log != [] {
      var init := log[..|log| - 1];
      Bounded(c, init);
      RunKeeps(c, init);
      StepBounded(c, Run(c, init), |log| - 1, log[|log| - 1]);
    }
  }

  /** Deleting one user takes no session from another, and a login of another that
      would have been admitted still is. */
  lemma OthersUnaffected(c: Config, s: State, at: nat, now: real, deleted: string, user: string, login: nat, cookie: string)
    requires deleted != user
    ensures var t := Apply(c, s, at, Delete(now, deleted));
      && (forall k :: k in s.sessions && s.sessions[k].session.user == user ==> k in t.sessions && t.sessions[k] == s.sessions[k])
      && forall later :: Admits(c, s, later, login, user, cookie) ==> Admits(c, t, later, login, user, cookie)
  {
    FewerKeys(Apply(c, s, at, Delete(now, deleted)).sessions, s.sessions);
  }

  // ----- what the fields of the class hold

  /** The state without its positions. */
  datatype View = View(
    sessions: map<string, Session>,
    challenges: map<string, Challenge>,
    revoked: map<string, Fence>,
    generation: nat)

  function SessionsOf(m: map<string, Opened>): map<string, Session> {
    map k | k in m :: m[k].session
  }

  function ChallengesOf(m: map<string, Issued>): map<string, Challenge> {
    map k | k in m :: m[k].challenge
  }

  function ViewOf(s: State): View {
    View(SessionsOf(s.sessions), ChallengesOf(s.challenges), s.revoked, s.generation)
  }

  function PrunedView(v: View, now: real): View {
    v.(revoked := map k | k in v.revoked && v.revoked[k].until > now :: v.revoked[k],
       sessions := map k | k in v.sessions && v.sessions[k].expires > now :: v.sessions[k],
       challenges := map k | k in v.challenges && v.challenges[k].expires > now :: v.challenges[k])
  }

  lemma PrunedShows(s: State, now: real)
    ensures ViewOf(Pruned(s, now)) == PrunedView(ViewOf(s), now)
  {
  }

  lemma Sizes(s: State)
    ensures |SessionsOf(s.sessions)| == |s.sessions| && |ChallengesOf(s.challenges)| == |s.challenges|
  {
    assert SessionsOf(s.sessions).Keys == s.sessions.Keys;
    assert ChallengesOf(s.challenges).Keys == s.challenges.Keys;
    assert |SessionsOf(s.sessions).Keys| == |SessionsOf(s.sessions)| && |s.sessions.Keys| == |s.sessions|;
    assert |ChallengesOf(s.challenges).Keys| == |ChallengesOf(s.challenges)| && |s.challenges.Keys| == |s.challenges|;
  }

  function IssuedView(c: Config, v: View, now: real, cookie: string, secret: string): View {
    var p := PrunedView(v, now);
    if |p.challenges| >= c.maximum then p
    else p.(challenges := p.challenges[cookie := Challenge(secret, now + LIFETIME, p.generation)])
  }

  lemma PutShows(challenges: map<string, Issued>, cookie: string, x: Issued)
    ensures ChallengesOf(challenges[cookie := x]) == ChallengesOf(challenges)[cookie := x.challenge]
  {
  }

  lemma IssueShows(c: Config, s: State, at: nat, e: Event)
    requires e.Issue?
    ensures ViewOf(Apply(c, s, at, e)) == IssuedView(c, ViewOf(s), e.now, e.cookie, e.secret)
  {
    PrunedShows(s, e.now);
    Sizes(Pruned(s, e.now));
    PutShows(Pruned(s, e.now).challenges, e.cookie, Issued(Challenge(e.secret, e.now + LIFETIME, s.generation), at));
  }

  lemma BeginShows(c: Config, s: State, at: nat, e: Event)
    requires e.Begin?
    ensures var p := PrunedView(ViewOf(s), e.now);
      ViewOf(Apply(c, s, at, e)) == p.(challenges := p.challenges - {e.cookie})
  {
    PrunedShows(s, e.now);
    var challenges := Pruned(s, e.now).challenges;
    assert ChallengesOf(challenges - {e.cookie}) == ChallengesOf(challenges) - {e.cookie};
  }

  lemma AdmittedShows(c: Config, s: State, e: Event)
    requires e.Finish? && e.login in s.inflight && e.user.Some?
    ensures var v := ViewOf(s);
      var kept := if e.cookie in v.sessions && v.sessions[e.cookie].user == e.user.value
                  then v.sessions - {v.sessions[e.cookie].token} else v.sessions;
      ViewOf(Admitted(c, s, e)) == v.(sessions := kept[e.token := Session(e.token, e.user.value, e.now + c.seconds)])
  {
  }

  lemma DeleteShows(c: Config, s: State, at: nat, e: Event)
    requires e.Delete?
    ensures var v := ViewOf(s);
      ViewOf(Apply(c, s, at, e)) == View(
        map k | k in v.sessions && v.sessions[k].user != e.owner :: v.sessions[k], v.challenges,
        v.revoked[e.owner := Fence(v.generation + 1, e.now + LIFETIME)], v.generation + 1)
  {
  }

  lemma LogoutShows(c: Config, s: State, at: nat, e: Event)
    requires e.Logout?
    ensures ViewOf(Apply(c, s, at, e)) == ViewOf(s).(sessions := ViewOf(s).sessions - {e.token})
  {
  }

  lemma RunSnoc(c: Config, log: seq<Event>, e: Event)
    ensures Run(c, log + [e]) == Apply(c, Run(c, log), |log|, e)
  {
    assert (log + [e])[..|log|] == log;
  }

  /** The fields hold what the history says. */
  ghost predicate Holds(c: Config, log: seq<Event>, v: View) {
    Monotonic(log) && v == ViewOf(Run(c, log))
  }

  /** A login in flight and its challenge. */
  ghost predicate InFlight(c: Config, log: seq<Event>, login: nat, x: Issued) {
    login in Run(c, log).inflight && Run(c, log).inflight[login] == x
  }

  /** One more event, given what it does to the fields. */
  lemma StepHolds(c: Config, log: seq<Event>, v: View, e: Event, after: View)
    requires Holds(c, log, v) && Monotonic(log + [e]) && ViewOf(Apply(c, Run(c, log), |log|, e)) == after
    ensures Holds(c, log + [e], after)
  {
    RunSnoc(c, log, e);
  }

  lemma IssueHolds(c: Config, log: seq<Event>, v: View, now: real, cookie: string, secret: string)
    requires Holds(c, log, v) && Monotonic(log + [Issue(now, cookie, secret)])
    ensures Holds(c, log + [Issue(now, cookie, secret)], IssuedView(c, v, now, cookie, secret))
  {
    IssueShows(c, Run(c, log), |log|, Issue(now, cookie, secret));
    StepHolds(c, log, v, Issue(now, cookie, secret), IssuedView(c, v, now, cookie, secret));
  }

  lemma BeginHolds(c: Config, log: seq<Event>, v: View, e: Event)
    requires Holds(c, log, v) && Monotonic(log + [e]) && e.Begin?
    ensures Holds(c, log + [e], PrunedView(v, e.now).(challenges := PrunedView(v, e.now).challenges - {e.cookie}))
  {
    RunSnoc(c, log, e);
    BeginShows(c, Run(c, log), |log|, e);
  }

  /** A login that passes its first phase is in flight with the challenge it took. */
  lemma BeginTakesOff(c: Config, log: seq<Event>, v: View, e: Event)
    requires Holds(c, log, v) && e.Begin? && e.wellFormed
    requires var unexpired := PrunedView(v, e.now).challenges;
      e.cookie in unexpired && unexpired[e.cookie].secret == e.secret
    ensures exists x :: InFlight(c, log + [e], |log|, x) && x.challenge == PrunedView(v, e.now).challenges[e.cookie]
  {
    RunSnoc(c, log, e);
    PrunedShows(Run(c, log), e.now);
    var x := Pruned(Run(c, log), e.now).challenges[e.cookie];
    assert InFlight(c, log + [e], |log|, x);
  }

  function DeletedView(v: View, now: real, user: string): View {
    View(map k | k in v.sessions && v.sessions[k].user != user :: v.sessions[k], v.challenges,
         v.revoked[user := Fence(v.generation + 1, now + LIFETIME)], v.generation + 1)
  }

  lemma DeleteHolds(c: Config, log: seq<Event>, v: View, now: real, user: string)
    requires Holds(c, log, v) && Monotonic(log + [Delete(now, user)])
    ensures Holds(c, log + [Delete(now, user)], DeletedView(v, now, user))
  {
    DeleteShows(c, Run(c, log), |log|, Delete(now, user));
    StepHolds(c, log, v, Delete(now, user), DeletedView(v, now, user));
  }

  lemma LogoutHolds(c: Config, log: seq<Event>, v: View, now: real, token: string)
    requires Holds(c, log, v) && Monotonic(log + [Logout(now, token)])
    ensures Holds(c, log + [Logout(now, token)], v.(sessions := v.sessions - {token}))
  {
    RunSnoc(c, log, Logout(now, token));
    LogoutShows(c, Run(c, log), |log|, Logout(now, token));
  }

  predicate NoRoom(c: Config, sessions: map<string, Session>, cookie: string, user: string) {
    |sessions| - (if cookie in sessions && sessions[cookie].user == user then 1 else 0) >= c.maximum
  }

  function OpenedView(c: Config, v: View, now: real, user: string, cookie: string, token: string): View {
    var kept := if cookie in v.sessions && v.sessions[cookie].user == user
                then v.sessions - {v.sessions[cookie].token} else v.sessions;
    v.(sessions := kept[token := Session(token, user, now + c.seconds)])
  }

  /** Its challenge has expired, or its user was deleted since it was issued. */
  ghost predicate Outlived(log: seq<Event>, now: real, x: Issued, user: string) {
    x.challenge.expires <= now || exists j: nat :: x.born <= j && Deletes(log, j, user)
  }

  lemma NoRoomIsFull(c: Config, s: State, cookie: string, user: string)
    ensures NoRoom(c, ViewOf(s).sessions, cookie, user) <==> Full(c, s, cookie, user)
  {
    Sizes(s);
  }

  predicate Opens(c: Config, s: State, e: Event)
    requires e.Finish?
  {
    e.user.Some? && Admits(c, s, e.now, e.login, e.user.value, e.cookie)
  }

  lemma AdmittedApplies(c: Config, s: State, at: nat, e: Event)
    requires e.Finish? && Opens(c, s, e)
    ensures ViewOf(Apply(c, s, at, e)) == OpenedView(c, ViewOf(s), e.now, e.user.value, e.cookie, e.token)
  {
    AdmittedShows(c, s, e);
  }

  lemma RefusedApplies(c: Config, s: State, at: nat, e: Event)
    requires e.Finish? && !Opens(c, s, e)
    ensures ViewOf(Apply(c, s, at, e)) == ViewOf(s)
  {
  }

  lemma OpensShows(c: Config, s: State, e: Event, x: Issued)
    requires e.Finish? && e.login in s.inflight && s.inflight[e.login] == x
    ensures Opens(c, s, e) <==>
      && e.user.Some? && !Refuses(s.revoked, e.user.value, x.challenge, e.now)
      && !NoRoom(c, ViewOf(s).sessions, e.cookie, e.user.value)
  {
    if e.user.Some? {
      NoRoomIsFull(c, s, e.cookie, e.user.value);
    }
  }

  lemma FinishHolds(c: Config, log: seq<Event>, v: View, e: Event, x: Issued)
    requires Holds(c, log, v) && Monotonic(log + [e])
    requires e.Finish? && InFlight(c, log, e.login, x)
    ensures e.user.Some? ==> (Refuses(v.revoked, e.user.value, x.challenge, e.now) <==> Outlived(log, e.now, x, e.user.value))
    ensures Holds(c, log + [e],
      if e.user.Some? && !Refuses(v.revoked, e.user.value, x.challenge, e.now) && !NoRoom(c, v.sessions, e.cookie, e.user.value)
      then OpenedView(c, v, e.now, e.user.value, e.cookie, e.token) else v)
  {
    RunSnoc(c, log, e);
    var s := Run(c, log);
    OpensShows(c, s, e, x);
    if Opens(c, s, e) {
      AdmittedApplies(c, s, |log|, e);
    } else {
      RefusedApplies(c, s, |log|, e);
    }
    if e.user.Some? {
      MonotonicSnoc(log, e);
      RefusedIffDeletedSince(c, log, e.now, e.login, e.user.value);
    }
  }

  lemma HoldsSound(c: Config, log: seq<Event>, v: View, token: string)
    requires Holds(c, log, v)
    ensures |v.sessions| <= c.maximum && |v.challenges| <= c.maximum
    ensures token in v.sessions ==> exists born: nat ::
      born < |log| && log[born].Issue? && forall j: nat :: Deletes(log, j, v.sessions[token].user) ==> j < born
  {
    RunKeeps(c, log);
    Bounded(c, log);
    Sizes(Run(c, log));
    if token in v.sessions {
      assert Descends(log, Run(c, log).sessions[token]);
    }
  }

  // ----- the class

  class DashboardAuth {
    const config: Config
    var sessions: map<string, Session>
    var challenges: map<string, Challenge>
    var generation: nat
    var revoked: map<string, Fence>
    ghost var log: seq<Event>

    ghost function Fields(): View
      reads this
    {
      View(sessions, challenges, revoked, generation)
    }

    ghost predicate Valid()
      reads this
    {
      Holds(config, log, Fields())
    }

    constructor (c: Config)
      ensures Valid() && config == c && log == []
    {
      config, sessions, challenges, generation, revoked, log := c, map[], map[], 0, map[], [];
    }

    method Prune(now: real)
      modifies this
      ensures Fields() == PrunedView(old(Fields()), now) && log == old(log)
    {
      revoked := map k | k in revoked && revoked[k].until > now :: revoked[k];
      sessions := map k | k in sessions && sessions[k].expires > now :: sessions[k];
      challenges := map k | k in challenges && challenges[k].expires > now :: challenges[k];
    }

    method IssueChallenge(now: real, cookie: string, secret: string) returns (r: Result<string, AuthError>)
      requires Valid() && Monotonic(log + [Issue(now, cookie, secret)])
      modifies this
      ensures Valid() && log == old(log) + [Issue(now, cookie, secret)]
      ensures r == if |PrunedView(old(Fields()), now).challenges| < config.maximum then Success(secret) else Failure(Busy)
      ensures r.Success? ==> cookie in challenges && challenges[cookie] == Challenge(secret, now + LIFETIME, generation)
    {
      IssueHolds(config, log, Fields(), now, cookie, secret);
      Prune(now);
      log := log + [Issue(now, cookie, secret)];
      if |challenges| >= config.maximum {
        return Failure(Busy);
      }
      challenges := challenges[cookie := Challenge(secret, now + LIFETIME, generation)];
      r := Success(secret);
    }

    /** `login` up to its first await: the challenge is taken out whatever follows. */
    method BeginLogin(now: real, cookie: string, secret: string, wellFormed: bool) returns (r: Result<Challenge, AuthError>)
      requires Valid() && Monotonic(log + [Begin(now, cookie, secret, wellFormed)])
      modifies this
      ensures Valid() && log == old(log) + [Begin(now, cookie, secret, wellFormed)]
      ensures cookie !in challenges
      ensures var unexpired := PrunedView(old(Fields()), now).challenges;
        r == if cookie !in unexpired || unexpired[cookie].secret != secret then Failure(Unauthorized)
             else if !wellFormed then Failure(BadRequest)
             else Success(unexpired[cookie])
      ensures r.Success? ==> exists x :: InFlight(config, log, |old(log)|, x) && x.challenge == r.value
    {
      ghost var e := Begin(now, cookie, secret, wellFormed);
      BeginHolds(config, log, Fields(), e);
      Prune(now);
      log := log + [e];
      if cookie !in challenges {
        assert challenges - {cookie} == challenges;
        return Failure(Unauthorized);
      }
      var challenge := challenges[cookie];
      challenges := challenges - {cookie};
      if challenge.secret != secret {
        return Failure(Unauthorized);
      }
      if !wellFormed {
        return Failure(BadRequest);
      }
      BeginTakesOff(config, old(log), old(Fields()), e);
      r := Success(challenge);
    }

    method EndSession(now: real, token: string)
      requires Valid() && Monotonic(log + [Logout(now, token)])
      modifies this
      ensures Valid() && log == old(log) + [Logout(now, token)]
      ensures Fields() == old(Fields()).(sessions := old(sessions) - {token})
    {
      LogoutHolds(config, log, Fields(), now, token);
      log := log + [Logout(now, token)];
      sessions := sessions - {token};
    }

    method DeleteUser(now: real, user: string)
      requires Valid() && Monotonic(log + [Delete(now, user)])
      modifies this
      ensures Valid() && log == old(log) + [Delete(now, user)]
      ensures forall k :: k in sessions <==> k in old(sessions) && old(sessions)[k].user != user
      ensures forall k :: k in sessions ==> sessions[k] == old(sessions)[k]
      ensures challenges == old(challenges)
    {
      DeleteHolds(config, log, Fields(), now, user);
      log := log + [Delete(now, user)];
      generation := generation + 1;
      revoked := revoked[user := Fence(generation, now + LIFETIME)];
      sessions := map k | k in sessions && sessions[k].user != user :: sessions[k];
    }

    /** The browser's old slot is reclaimed only for the same user. */
    method OpenSession(now: real, user: string, cookie: string, token: string) returns (session: Session)
      modifies this`sessions
      ensures session == Session(token, user, now + config.seconds)
      ensures Fields() == OpenedView(config, old(Fields()), now, user, cookie, token)
    {
      if cookie in sessions && sessions[cookie].user == user {
        sessions := sessions - {sessions[cookie].token};
      }
      session := Session(token, user, now + config.seconds);
      sessions := sessions[token := session];
    }

    /** `login` after its last await. The session opens exactly when the identity is
        known, the challenge lives, nobody deleted the user since it was issued, and
        there is room beside the session it replaces. */
    method FinishLogin(now: real, ghost login: nat, ghost x: Issued, challenge: Challenge, user: Option<string>,
                       cookie: string, token: string) returns (r: Result<Session, AuthError>)
      requires Valid() && Monotonic(log + [Finish(now, login, user, cookie, token)])
      requires InFlight(config, log, login, x) && x.challenge == challenge
      modifies this
      ensures Valid() && log == old(log) + [Finish(now, login, user, cookie, token)]
      ensures r == if user.None? || Outlived(old(log), now, x, user.value) then Failure(Unauthorized)
                   else if NoRoom(config, old(sessions), cookie, user.value) then Failure(Busy)
                   else Success(Session(token, user.value, now + config.seconds))
      ensures Fields() == if r.Success? then OpenedView(config, old(Fields()), now, user.value, cookie, token) else old(Fields())
    {
      FinishHolds(config, log, Fields(), Finish(now, login, user, cookie, token), x);
      log := log + [Finish(now, login, user, cookie, token)];
      if user.None? {
        return Failure(Unauthorized);
      }
      var floor := if user.value in revoked then revoked[user.value].generation else 0;
      if challenge.expires <= now || challenge.generation < floor {
        return Failure(Unauthorized);
      }
      var replacing := cookie in sessions && sessions[cookie].user == user.value;
      if |sessions| - (if replacing then 1 else 0) >= config.maximum {
        return Failure(Busy);
      }
      var session := OpenSession(now, user.value, cookie, token);
      r := Success(session);
    }

    /** `valid`. What is live descends from a challenge issued after every deletion of
        its user. */
    method IsLive(now: real, session: Session) returns (live: bool)
      requires Valid()
      ensures live <==> session.expires > now && session.token in sessions && sessions[session.token] == session
      ensures live ==> exists born: nat ::
        born < |log| && log[born].Issue? && forall j: nat :: Deletes(log, j, session.user) ==> j < born
      ensures |sessions| <= config.maximum && |challenges| <= config.maximum
    {
      live := session.expires > now && session.token in sessions && sessions[session.token] == session;
      HoldsSound(config, log, Fields(), session.token);
    }
  }
}
