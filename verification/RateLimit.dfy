/** Sliding windows: deques pruned as time passes stand for the full history of
    admitted requests. */
module SlidingWindow {
  const WINDOW := 60.0

  /** An admitted request. */
  datatype Admission = Admission(key: string, at: real)

  ghost predicate Ascending(s: seq<real>) {
    forall i, j :: 0 <= i <= j < |s| ==> s[i] <= s[j]
  }

  /** The times within the trailing window, strictly later than `now - 60`. */
  function Recent(s: seq<real>, now: real): seq<real> {
    if s == [] then []
    else Recent(s[..|s| - 1], now) + if s[|s| - 1] > now - WINDOW then [s[|s| - 1]] else []
  }

  function Times(log: seq<Admission>, key: string): seq<real> {
    if log == [] then []
    else Times(log[..|log| - 1], key) + if log[|log| - 1].key == key then [log[|log| - 1].at] else []
  }

  function AllTimes(log: seq<Admission>): seq<real> {
    seq(|log|, i requires 0 <= i < |log| => log[i].at)
  }

  /** Any `n + 1` consecutive requests span at least a window. */
  ghost predicate Spaced(s: seq<real>, n: nat) {
    forall i, j :: 0 <= i && j == i + n < |s| ==> s[i] + WINDOW <= s[j]
  }

  // ----- what is recent

  lemma {:induction false} RecentSnoc(s: seq<real>, x: real, now: real)
    ensures Recent(s + [x], now) == Recent(s, now) + if x > now - WINDOW then [x] else []
  {
    assert (s + [x])[..|s|] == s;
  }

  lemma {:induction false} RecentLater(s: seq<real>, now: real, later: real)
    requires now <= later
    ensures Recent(Recent(s, now), later) == Recent(s, later)
  {
    if s != [] {
      var init, last := s[..|s| - 1], s[|s| - 1];
      RecentLater(init, now, later);
      if last > now - WINDOW {
        RecentSnoc(Recent(init, now), last, later);
      } else {
        assert Recent(init, now) + [] == Recent(init, now);
      }
    }
  }

  /** Two lists that agree on what is recent now agree at every later moment. */
  lemma AgreeLater(s: seq<real>, t: seq<real>, now: real, later: real)
    requires now <= later && Recent(s, now) == Recent(t, now)
    ensures Recent(s, later) == Recent(t, later)
  {
    RecentLater(s, now, later);
    RecentLater(t, now, later);
  }

  /** Of an ascending list the recent times are the last ones. */
  lemma {:induction false} RecentAreLast(s: seq<real>, now: real)
    requires Ascending(s)
    ensures |Recent(s, now)| <= |s|
    ensures forall i :: 0 <= i < |s| ==> (s[i] > now - WINDOW <==> i >= |s| - |Recent(s, now)|)
  {
    if s != [] {
      var init, last := s[..|s| - 1], s[|s| - 1];
      RecentAreLast(init, now);
      assert forall i :: 0 <= i < |init| ==> init[i] == s[i] && s[i] <= last;
      if last <= now - WINDOW {
        assert Recent(s, now) == Recent(init, now);
      }
    }
  }

  lemma {:induction false} RecentOfTail(s: seq<real>, now: real, start: nat)
    requires start <= |s| && forall i :: 0 <= i < |s| ==> (s[i] > now - WINDOW <==> i >= start)
    ensures Recent(s, now) == s[start..]
  {
    if start < |s| {
      var init := s[..|s| - 1];
      RecentOfTail(init, now, start);
      assert s[start..] == init[start..] + [s[|s| - 1]];
    } else if s != [] {
      RecentOfTail(s[..|s| - 1], now, |s| - 1);
    }
  }

  lemma {:induction false} RecentWithin(s: seq<real>, now: real)
    ensures forall x :: x in Recent(s, now) ==> x in s
  {
    if s != [] {
      RecentWithin(s[..|s| - 1], now);
    }
  }

  lemma RecentAscends(s: seq<real>, now: real)
    requires Ascending(s)
    ensures Ascending(Recent(s, now))
  {
    RecentAreLast(s, now);
    RecentOfTail(s, now, |s| - |Recent(s, now)|);
  }

  // ----- what spacing means for windows

  /** How many of the times lie in the half-open window `(end - 60, end]`. */
  function CountWindow(s: seq<real>, end: real): nat {
    if s == [] then 0
    else CountWindow(s[..|s| - 1], end) + if end - WINDOW < s[|s| - 1] <= end then 1 else 0
  }

  lemma {:induction false} CountIsRecent(s: seq<real>, end: real)
    requires Ascending(s) && (s != [] ==> s[|s| - 1] <= end)
    ensures CountWindow(s, end) == |Recent(s, end)|
  {
    if s != [] {
      assert forall i :: 0 <= i < |s| - 1 ==> s[i] <= s[|s| - 1];
      CountIsRecent(s[..|s| - 1], end);
    }
  }

  /** A window of sixty seconds that is open at one end holds at most `n` requests. */
  lemma {:induction false} WindowBounded(s: seq<real>, n: nat, end: real)
    requires Ascending(s) && Spaced(s, n)
    ensures CountWindow(s, end) <= n
  {
    if s != [] {
      var last := |s| - 1;
      if s[last] > end {
        var init := s[..last];
        forall i, j | 0 <= i && j == i + n < |init| ensures init[i] + WINDOW <= init[j] {
          assert s[i] + WINDOW <= s[j];
        }
        WindowBounded(init, n, end);
      } else {
        CountIsRecent(s, end);
        RecentAreLast(s, end);
        if n <= last {
          assert s[last - n] + WINDOW <= s[last];
        }
      }
    }
  }

  /** Two admitted requests with `n - 1` others between them are a window apart, so no
      window open at either end holds `n + 1`. */
  lemma SpanIsWindow(s: seq<real>, n: nat, i: nat, j: nat)
    requires Ascending(s) && Spaced(s, n)
    requires i + n <= j < |s|
    ensures s[i] + WINDOW <= s[j]
  {
    assert s[i] + WINDOW <= s[i + n];
  }

  /** Admitting a request when the trailing window has room keeps the spacing. */
  lemma AdmitKeepsSpacing(s: seq<real>, n: nat, now: real)
    requires Ascending(s) && Spaced(s, n) && n > 0
    requires (s != [] ==> s[|s| - 1] <= now) && |Recent(s, now)| < n
    ensures Ascending(s + [now]) && Spaced(s + [now], n)
  {
    RecentAreLast(s, now);
    var t := s + [now];
    forall i, j | 0 <= i && j == i + n < |t| ensures t[i] + WINDOW <= t[j] {
      if j == |s| {
        assert s[i] <= now - WINDOW;
      } else {
        assert s[i] + WINDOW <= s[j];
      }
    }
  }

  // ----- windows closed at both ends

  /** What the limiter admits: every request found room in its trailing window. */
  ghost predicate Admittable(s: seq<real>, n: nat) {
    Ascending(s) && forall k :: 0 <= k < |s| ==> HadRoom(s, n, k)
  }

  predicate HadRoom(s: seq<real>, n: nat, k: nat)
    requires k < |s|
  {
    |Recent(s[..k], s[k])| < n
  }

  lemma AdmittableInit(s: seq<real>, n: nat)
    requires Admittable(s, n) && s != []
    ensures Admittable(s[..|s| - 1], n)
  {
    var init := s[..|s| - 1];
    forall k | 0 <= k < |init| ensures HadRoom(init, n, k) {
      assert init[..k] == s[..k] && HadRoom(s, n, k);
    }
  }

  lemma {:induction false} AdmittableIsSpaced(s: seq<real>, n: nat)
    requires Admittable(s, n) && n > 0
    ensures Spaced(s, n)
  {
    if s != [] {
      var k := |s| - 1;
      AdmittableInit(s, n);
      AdmittableIsSpaced(s[..k], n);
      assert HadRoom(s, n, k);
      AdmitKeepsSpacing(s[..k], n, s[k]);
      assert s[..k] + [s[k]] == s;
    }
  }

  /** How many of the times lie in the closed window of this length. */
  function CountClosed(s: seq<real>, start: real, length: real): nat {
    if s == [] then 0
    else CountClosed(s[..|s| - 1], start, length) + if start <= s[|s| - 1] <= start + length then 1 else 0
  }

  /** Of an ascending list, those in a window stand side by side. */
  lemma {:induction false} ClosedRange(s: seq<real>, start: real, length: real) returns (i: nat)
    requires Ascending(s)
    ensures i + CountClosed(s, start, length) <= |s|
    ensures forall k :: 0 <= k < |s| ==> (start <= s[k] <= start + length <==> i <= k < i + CountClosed(s, start, length))
  {
    i := 0;
    if s != [] {
      var init, last := s[..|s| - 1], s[|s| - 1];
      assert forall k :: 0 <= k < |init| ==> init[k] == s[k] <= last;
      i := ClosedRange(init, start, length);
      if start <= last <= start + length {
        if CountClosed(init, start, length) == 0 {
          i := |init|;
        } else {
          assert start <= init[i] <= init[|init| - 1] <= start + length;
        }
      }
    }
  }

  /** A closed window shorter than the limiter's holds at most `n`, and one shorter than
      two of them at most twice that. */
  lemma ClosedBounded(s: seq<real>, n: nat, start: real, length: real)
    requires Ascending(s) && Spaced(s, n)
    ensures length < WINDOW ==> CountClosed(s, start, length) <= n
    ensures length < WINDOW + WINDOW ==> CountClosed(s, start, length) <= 2 * n
  {
    var i := ClosedRange(s, start, length);
    var m := CountClosed(s, start, length);
    if m > n {
      assert s[i] + WINDOW <= s[i + n];
    }
    if m > 2 * n {
      assert s[i + n] + WINDOW <= s[i + n + n];
    }
  }

  lemma {:induction false} AllCounted(s: seq<real>, start: real, length: real)
    requires forall k :: 0 <= k < |s| ==> start <= s[k] <= start + length
    ensures CountClosed(s, start, length) == |s|
  {
    if s != [] {
      AllCounted(s[..|s| - 1], start, length);
    }
  }

  /** Two bursts exactly a window apart. */
  function Bursts(n: nat): seq<real> {
    seq(n, _ => 0.0) + seq(n, _ => WINDOW)
  }

  lemma BurstsAdmitted(n: nat)
    ensures Admittable(Bursts(n), n)
  {
    var s := Bursts(n);
    forall k | 0 <= k < |s| ensures HadRoom(s, n, k) {
      var before := s[..k];
      RecentAreLast(before, s[k]);
      if k >= n && n > 0 {
        assert before[n - 1] == 0.0 && s[k] == WINDOW;
        assert n - 1 < |before| - |Recent(before, s[k])|;
      }
    }
  }

  /** A window of sixty seconds closed at both ends holds at most twice the limit, and two
      bursts sixty seconds apart, all of them admitted, fill it. */
  lemma ClosedWindowHoldsTwice(n: nat)
    requires n > 0
    ensures forall s, start: real :: Admittable(s, n) ==> CountClosed(s, start, WINDOW) <= 2 * n
    ensures Admittable(Bursts(n), n) && CountClosed(Bursts(n), 0.0, WINDOW) == 2 * n
  {
    forall s, start: real | Admittable(s, n) ensures CountClosed(s, start, WINDOW) <= 2 * n {
      AdmittableIsSpaced(s, n);
      ClosedBounded(s, n, start, WINDOW);
    }
    BurstsAdmitted(n);
    AllCounted(Bursts(n), 0.0, WINDOW);
  }

  /** Closed windows of a given length keep the limit in every history exactly when they
      are shorter than sixty seconds. */
  lemma ClosedWindowKeepsLimitIff(n: nat, length: real)
    requires n > 0
    ensures (forall s, start: real :: Admittable(s, n) ==> CountClosed(s, start, length) <= n) <==> length < WINDOW
  {
    if length < WINDOW {
      forall s, start: real | Admittable(s, n) ensures CountClosed(s, start, length) <= n {
        AdmittableIsSpaced(s, n);
        ClosedBounded(s, n, start, length);
      }
    } else {
      BurstsAdmitted(n);
      AllCounted(Bursts(n), 0.0, length);
    }
  }

  // ----- the pruned deques

  function Get(rates: map<string, seq<real>>, key: string): seq<real> {
    if key in rates then rates[key] else []
  }

  /** A deque holds what is recent among all the times of its key. */
  ghost predicate HoldsRecent(deque: seq<real>, times: seq<real>, now: real) {
    Ascending(deque) && Recent(deque, now) == Recent(times, now)
  }

  /** The deques stand for the log. */
  ghost predicate Stands(rates: map<string, seq<real>>, log: seq<Admission>, now: real) {
    forall key {:trigger HoldsRecent(Get(rates, key), Times(log, key), now)} ::
      HoldsRecent(Get(rates, key), Times(log, key), now)
  }

  ghost predicate LogOk(log: seq<Admission>, now: real) {
    && (forall i, j :: 0 <= i <= j < |log| ==> log[i].at <= log[j].at)
    && (log != [] ==> log[|log| - 1].at <= now)
  }

  ghost predicate Within(s: seq<real>, n: nat) {
    Ascending(s) && Spaced(s, n)
  }

  ghost predicate KeysWithin(log: seq<Admission>, n: nat) {
    forall key {:trigger Within(Times(log, key), n)} :: Within(Times(log, key), n)
  }

  lemma {:induction false} TimesBefore(log: seq<Admission>, key: string, now: real)
    requires LogOk(log, now)
    ensures forall x :: x in Times(log, key) ==> x <= now
    ensures Times(log, key) != [] ==> Times(log, key)[|Times(log, key)| - 1] <= now
  {
    if log != [] {
      assert log[|log| - 1].at <= now;
      TimesBefore(log[..|log| - 1], key, now);
    }
  }

  lemma TimesSnoc(log: seq<Admission>, a: Admission, key: string)
    ensures Times(log + [a], key) == if a.key == key then Times(log, key) + [a.at] else Times(log, key)
  {
    assert (log + [a])[..|log|] == log;
  }

  lemma StandsLater(rates: map<string, seq<real>>, log: seq<Admission>, now: real, later: real)
    requires Stands(rates, log, now) && now <= later
    ensures Stands(rates, log, later)
  {
    forall key ensures HoldsRecent(Get(rates, key), Times(log, key), later) {
      assert HoldsRecent(Get(rates, key), Times(log, key), now);
      AgreeLater(Get(rates, key), Times(log, key), now, later);
    }
  }

  function Dropped(rates: map<string, seq<real>>, now: real): map<string, seq<real>> {
    map k | k in rates && rates[k] != [] && rates[k][|rates[k]| - 1] > now - WINDOW :: rates[k]
  }

  lemma DroppedStands(rates: map<string, seq<real>>, log: seq<Admission>, now: real)
    requires Stands(rates, log, now)
    ensures Stands(Dropped(rates, now), log, now)
  {
    forall key ensures HoldsRecent(Get(Dropped(rates, now), key), Times(log, key), now) {
      assert HoldsRecent(Get(rates, key), Times(log, key), now);
      if key !in Dropped(rates, now) {
        RecentAreLast(Get(rates, key), now);
      }
    }
  }

  lemma RecentStands(deque: seq<real>, times: seq<real>, now: real)
    requires HoldsRecent(deque, times, now)
    ensures HoldsRecent(Recent(deque, now), times, now)
  {
    RecentAscends(deque, now);
    RecentLater(deque, now, now);
  }

  lemma AdmitHolds(deque: seq<real>, times: seq<real>, now: real)
    requires HoldsRecent(deque, times, now) && forall x :: x in times ==> x <= now
    ensures HoldsRecent(Recent(deque, now) + [now], times + [now], now)
  {
    RecentStands(deque, times, now);
    RecentSnoc(Recent(deque, now), now, now);
    RecentSnoc(times, now, now);
    RecentWithin(times, now);
    var recent := Recent(deque, now);
    assert forall i :: 0 <= i < |recent| ==> recent[i] in Recent(times, now);
  }

  lemma PutStands(rates: map<string, seq<real>>, log: seq<Admission>, now: real, key: string)
    requires Stands(rates, log, now)
    ensures Stands(rates[key := Recent(Get(rates, key), now)], log, now)
  {
    var put := rates[key := Recent(Get(rates, key), now)];
    forall k ensures HoldsRecent(Get(put, k), Times(log, k), now) {
      assert HoldsRecent(Get(rates, k), Times(log, k), now);
      if k == key {
        RecentStands(Get(rates, key), Times(log, key), now);
      }
    }
  }

  lemma AdmitStands(rates: map<string, seq<real>>, log: seq<Admission>, now: real, key: string)
    requires Stands(rates, log, now) && LogOk(log, now)
    ensures Stands(rates[key := Recent(Get(rates, key), now) + [now]], log + [Admission(key, now)], now)
  {
    var a := Admission(key, now);
    var put := rates[key := Recent(Get(rates, key), now) + [now]];
    TimesBefore(log, key, now);
    forall k ensures HoldsRecent(Get(put, k), Times(log + [a], k), now) {
      assert HoldsRecent(Get(rates, k), Times(log, k), now);
      TimesSnoc(log, a, k);
      if k == key {
        AdmitHolds(Get(rates, key), Times(log, key), now);
      }
    }
  }

  lemma AdmitKeepsWithin(log: seq<Admission>, n: nat, now: real, key: string)
    requires KeysWithin(log, n) && LogOk(log, now) && n > 0
    requires |Recent(Times(log, key), now)| < n
    ensures KeysWithin(log + [Admission(key, now)], n)
  {
    forall k ensures Within(Times(log + [Admission(key, now)], k), n) {
      assert Within(Times(log, k), n);
      TimesSnoc(log, Admission(key, now), k);
      if k == key {
        TimesBefore(log, key, now);
        AdmitKeepsSpacing(Times(log, key), n, now);
      }
    }
  }

  lemma AdmitKeepsAll(log: seq<Admission>, n: nat, now: real, key: string)
    requires Within(AllTimes(log), n) && LogOk(log, now) && n > 0
    requires |Recent(AllTimes(log), now)| < n
    ensures Within(AllTimes(log + [Admission(key, now)]), n)
  {
    AdmitKeepsSpacing(AllTimes(log), n, now);
    assert AllTimes(log + [Admission(key, now)]) == AllTimes(log) + [now];
  }

  // ----- what the limiter keeps

  /** Deques by key that stand for a log within its limit. */
  ghost predicate Keyed(rates: map<string, seq<real>>, log: seq<Admission>, n: nat, now: real) {
    LogOk(log, now) && Stands(rates, log, now) && KeysWithin(log, n)
  }

  /** One deque that stands for a log within its limit. */
  ghost predicate Shared(deque: seq<real>, log: seq<Admission>, n: nat, now: real) {
    LogOk(log, now) && HoldsRecent(deque, AllTimes(log), now) && Within(AllTimes(log), n)
  }

  lemma LogOkSnoc(log: seq<Admission>, now: real, key: string)
    requires LogOk(log, now)
    ensures LogOk(log + [Admission(key, now)], now)
  {
    var after := log + [Admission(key, now)];
    forall i, j | 0 <= i <= j < |after| ensures after[i].at <= after[j].at {
      if i < |log| && j == |log| {
        assert log[i].at <= log[|log| - 1].at;
      }
    }
  }

  /** Dropping stale keys at the next request. */
  lemma KeyedDropped(rates: map<string, seq<real>>, log: seq<Admission>, n: nat, now: real)
    requires Keyed(rates, log, n, now)
    ensures Keyed(Dropped(rates, now), log, n, now)
  {
    DroppedStands(rates, log, now);
  }

  lemma KeyedRecent(rates: map<string, seq<real>>, log: seq<Admission>, n: nat, now: real, key: string)
    requires Keyed(rates, log, n, now)
    ensures Ascending(Get(rates, key)) && Recent(Get(rates, key), now) == Recent(Times(log, key), now)
  {
    assert HoldsRecent(Get(rates, key), Times(log, key), now);
  }

  lemma KeyedRefused(rates: map<string, seq<real>>, log: seq<Admission>, n: nat, now: real, key: string)
    requires Keyed(rates, log, n, now)
    ensures Keyed(rates[key := Recent(Get(rates, key), now)], log, n, now)
  {
    PutStands(rates, log, now, key);
  }

  lemma KeyedAdmitted(rates: map<string, seq<real>>, log: seq<Admission>, n: nat, now: real, key: string)
    requires Keyed(rates, log, n, now) && |Recent(Get(rates, key), now)| < n
    ensures Keyed(rates[key := Recent(Get(rates, key), now) + [now]], log + [Admission(key, now)], n, now)
  {
    KeyedRecent(rates, log, n, now, key);
    LogOkSnoc(log, now, key);
    AdmitStands(rates, log, now, key);
    AdmitKeepsWithin(log, n, now, key);
  }

  lemma SharedPopped(deque: seq<real>, log: seq<Admission>, n: nat, now: real)
    requires Shared(deque, log, n, now)
    ensures Ascending(deque) && Recent(deque, now) == Recent(AllTimes(log), now)
    ensures Shared(Recent(deque, now), log, n, now)
  {
    RecentStands(deque, AllTimes(log), now);
  }

  lemma SharedAdmitted(deque: seq<real>, log: seq<Admission>, n: nat, now: real, key: string)
    requires Shared(deque, log, n, now) && deque == Recent(AllTimes(log), now) && |deque| < n
    ensures Shared(deque + [now], log + [Admission(key, now)], n, now)
  {
    LogOkSnoc(log, now, key);
    AdmitKeepsAll(log, n, now, key);
    forall x | x in AllTimes(log) ensures x <= now {
      var i :| 0 <= i < |log| && log[i].at == x;
      assert log[i].at <= log[|log| - 1].at;
    }
    RecentLater(AllTimes(log), now, now);
    AdmitHolds(deque, AllTimes(log), now);
    assert AllTimes(log + [Admission(key, now)]) == AllTimes(log) + [now];
  }

  lemma KeyedLater(rates: map<string, seq<real>>, log: seq<Admission>, n: nat, was: real, now: real)
    requires was <= now && Keyed(rates, log, n, was)
    ensures Keyed(rates, log, n, now)
  {
    StandsLater(rates, log, was, now);
  }

  lemma SharedLater(deque: seq<real>, log: seq<Admission>, n: nat, was: real, now: real)
    requires was <= now && Shared(deque, log, n, was)
    ensures Shared(deque, log, n, now)
  {
    AgreeLater(deque, AllTimes(log), was, now);
  }
}

/** The dashboard's limits (bot/app/dashboard.py). */
module RateLimit {
  import opened Wrappers
  import opened SlidingWindow

  const PER_USER := 120
  const PER_SOURCE := 60
  const ALL_SOURCES := 240

  function Source(peer: Option<string>): string {
    if peer.Some? then peer.value else "unknown"
  }

  /** The popleft loop. */
  method PopOld(deque: seq<real>, now: real) returns (recent: seq<real>)
    requires Ascending(deque)
    ensures recent == Recent(deque, now)
  {
    recent := deque;
    ghost var dropped: nat := 0;
    while recent != [] && recent[0] <= now - WINDOW
      invariant dropped <= |deque| && recent == deque[dropped..]
      invariant forall i :: 0 <= i < dropped ==> deque[i] <= now - WINDOW
      decreases |recent|
    {
      recent := recent[1..];
      dropped := dropped + 1;
    }
    forall i | dropped <= i < |deque| ensures deque[i] > now - WINDOW {
      assert recent[0] <= recent[i - dropped];
    }
    RecentOfTail(deque, now, dropped);
  }

  class DashboardLimiter {
    var rates: map<string, seq<real>>
    var unauthRates: map<string, seq<real>>
    var unauthGlobal: seq<real>
    ghost var clock: real
    ghost var signedIn: seq<Admission>
    ghost var signingIn: seq<Admission>

    /** What is kept stands for the full history, and the history keeps the limits. */
    ghost predicate Valid()
      reads this
    {
      && Keyed(rates, signedIn, PER_USER, clock)
      && Keyed(unauthRates, signingIn, PER_SOURCE, clock)
      && Shared(unauthGlobal, signingIn, ALL_SOURCES, clock)
    }

    constructor ()
      ensures Valid() && signedIn == [] && signingIn == []
    {
      rates, unauthRates, unauthGlobal, clock, signedIn, signingIn := map[], map[], [], 0.0, [], [];
    }

    /** The clock moves on between requests. */
    ghost method Tick(now: real)
      requires Valid() && clock <= now
      modifies this`clock
      ensures Valid() && clock == now
    {
      KeyedLater(rates, signedIn, PER_USER, clock, now);
      KeyedLater(unauthRates, signingIn, PER_SOURCE, clock, now);
      SharedLater(unauthGlobal, signingIn, ALL_SOURCES, clock, now);
      clock := now;
    }

    /** `_rate_limit` once the clock has been read. */
    method AdmitUser(user: string, now: real) returns (admitted: bool)
      requires Keyed(rates, signedIn, PER_USER, now)
      modifies this`rates, this`signedIn
      ensures Keyed(rates, signedIn, PER_USER, now)
      ensures admitted <==> |Recent(Times(old(signedIn), user), now)| < PER_USER
      ensures signedIn == if admitted then old(signedIn) + [Admission(user, now)] else old(signedIn)
    {
      KeyedDropped(rates, signedIn, PER_USER, now);
      rates := Dropped(rates, now);
      KeyedRecent(rates, signedIn, PER_USER, now, user);
      var recent := PopOld(if user in rates then rates[user] else [], now);
      if |recent| >= PER_USER {
        KeyedRefused(rates, signedIn, PER_USER, now, user);
        rates := rates[user := recent];
        return false;
      }
      KeyedAdmitted(rates, signedIn, PER_USER, now, user);
      rates := rates[user := recent + [now]];
      signedIn := signedIn + [Admission(user, now)];
      admitted := true;
    }

    /** `_rate_limit_unauthenticated` once the clock has been read. */
    method AdmitSource(source: string, now: real) returns (admitted: bool)
      requires Keyed(unauthRates, signingIn, PER_SOURCE, now) && Shared(unauthGlobal, signingIn, ALL_SOURCES, now)
      modifies this`unauthRates, this`unauthGlobal, this`signingIn
      ensures Keyed(unauthRates, signingIn, PER_SOURCE, now) && Shared(unauthGlobal, signingIn, ALL_SOURCES, now)
      ensures admitted <==>
        && |Recent(Times(old(signingIn), source), now)| < PER_SOURCE
        && |Recent(AllTimes(old(signingIn)), now)| < ALL_SOURCES
      ensures signingIn == if admitted then old(signingIn) + [Admission(source, now)] else old(signingIn)
    {
      KeyedDropped(unauthRates, signingIn, PER_SOURCE, now);
      unauthRates := Dropped(unauthRates, now);
      SharedPopped(unauthGlobal, signingIn, ALL_SOURCES, now);
      unauthGlobal := PopOld(unauthGlobal, now);
      KeyedRecent(unauthRates, signingIn, PER_SOURCE, now, source);
      var recent := PopOld(if source in unauthRates then unauthRates[source] else [], now);
      if |recent| >= PER_SOURCE || |unauthGlobal| >= ALL_SOURCES {
        // A deque already in the dictionary was pruned in place.
        if source in unauthRates {
          KeyedRefused(unauthRates, signingIn, PER_SOURCE, now, source);
          unauthRates := unauthRates[source := recent];
        }
        return false;
      }
      KeyedAdmitted(unauthRates, signingIn, PER_SOURCE, now, source);
      SharedAdmitted(unauthGlobal, signingIn, ALL_SOURCES, now, source);
      unauthRates := unauthRates[source := recent + [now]];
      unauthGlobal := unauthGlobal + [now];
      signingIn := signingIn + [Admission(source, now)];
      admitted := true;
    }

    /** `_rate_limit`: refused exactly when the user's own trailing window is full. */
    method RateLimit(user: string, now: real) returns (admitted: bool)
      requires Valid() && clock <= now
      modifies this
      ensures Valid() && clock == now
      ensures admitted <==> |Recent(Times(old(signedIn), user), now)| < PER_USER
      ensures signedIn == if admitted then old(signedIn) + [Admission(user, now)] else old(signedIn)
      ensures signingIn == old(signingIn)
    {
      Tick(now);
      admitted := AdmitUser(user, now);
    }

    /** `_rate_limit_unauthenticated`: refused exactly when the trailing window of the
        source or of all sources is full. */
    method RateLimitUnauthenticated(peer: Option<string>, now: real) returns (admitted: bool)
      requires Valid() && clock <= now
      modifies this
      ensures Valid() && clock == now
      ensures admitted <==>
        && |Recent(Times(old(signingIn), Source(peer)), now)| < PER_SOURCE
        && |Recent(AllTimes(old(signingIn)), now)| < ALL_SOURCES
      ensures signingIn == if admitted then old(signingIn) + [Admission(Source(peer), now)] else old(signingIn)
      ensures signedIn == old(signedIn)
    {
      Tick(now);
      admitted := AdmitSource(Source(peer), now);
    }

    /** Over every run, sixty seconds open at one end hold at most 120 requests of a
        user, 60 of a source and 240 of all sources. */
    lemma WindowsBounded(user: string, source: string, end: real)
      requires Valid()
      ensures CountWindow(Times(signedIn, user), end) <= PER_USER
      ensures CountWindow(Times(signingIn, source), end) <= PER_SOURCE
      ensures CountWindow(AllTimes(signingIn), end) <= ALL_SOURCES
    {
      assert Within(Times(signedIn, user), PER_USER);
      assert Within(Times(signingIn, source), PER_SOURCE);
      WindowBounded(Times(signedIn, user), PER_USER, end);
      WindowBounded(Times(signingIn, source), PER_SOURCE, end);
      WindowBounded(AllTimes(signingIn), ALL_SOURCES, end);
    }
  }
}
