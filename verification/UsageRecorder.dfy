/** The turn's usage recorder (bot/agent/turn.py): an append-only list of calls and a
    ledger that a locked, retried flush extends. */
module UsageLedger {
  import opened Wrappers
  import opened Sequences

  /** A call, told apart by identity. */
  type CallId = nat

  /** `writing` is the end of the write that holds the lock, `ledger` what the store
      has recorded. */
  datatype State = State(calls: seq<CallId>, persisted: nat, writing: Option<nat>, ledger: seq<CallId>)

  /** `End` is the store's answer: it records everything or raises, and a cancelled
      write counts as raised. */
  datatype Event = Append(call: CallId) | Absorb(found: seq<CallId>) | Begin | End(recorded: bool)

  const INITIAL := State([], 0, None, [])

  /** The calls that are not known yet. */
  function Missing(known: seq<CallId>, found: seq<CallId>): seq<CallId> {
    if found == [] then []
    else Missing(known, found[..|found| - 1]) + if found[|found| - 1] in known then [] else [found[|found| - 1]]
  }

  function Apply(stored: bool, s: State, e: Event): State {
    match e
    case Append(call) => s.(calls := s.calls + [call])
    case Absorb(found) => s.(calls := s.calls + Missing(s.calls, found))
    case Begin =>
      if s.writing.Some? || s.persisted >= |s.calls| then s
      else if !stored then s.(persisted := |s.calls|)
      else s.(writing := Some(|s.calls|))
    case End(recorded) =>
      if s.writing.None? then s
      else if !recorded || s.writing.value > |s.calls| || s.persisted > s.writing.value then s.(writing := None)
      else s.(writing := None, persisted := s.writing.value, ledger := s.ledger + s.calls[s.persisted..s.writing.value])
  }

  function Run(stored: bool, log: seq<Event>): State {
    if log == [] then INITIAL else Apply(stored, Run(stored, log[..|log| - 1]), log[|log| - 1])
  }

  /** The ledger is the part of the list that has been persisted; the end of a write in
      progress lies beyond it. */
  ghost predicate Inv(stored: bool, s: State) {
    && s.persisted <= |s.calls|
    && (s.writing.Some? ==> stored && s.persisted < s.writing.value <= |s.calls|)
    && s.ledger == if stored then s.calls[..s.persisted] else []
  }

  lemma StepKeeps(stored: bool, s: State, e: Event)
    requires Inv(stored, s)
    ensures Inv(stored, Apply(stored, s, e))
  {
    if e.End? && s.writing.Some? {
      assert s.calls[..s.writing.value] == s.calls[..s.persisted] + s.calls[s.persisted..s.writing.value];
    }
  }

  lemma {:induction false} RunKeeps(stored: bool, log: seq<Event>)
    ensures Inv(stored, Run(stored, log))
  {
    if log != [] {
      RunKeeps(stored, log[..|log| - 1]);
      StepKeeps(stored, Run(stored, log[..|log| - 1]), log[|log| - 1]);
    }
  }

  /** Nothing already in the list or the ledger is ever changed or reordered. */
  lemma {:induction false} OnlyGrows(stored: bool, log: seq<Event>, more: seq<Event>)
    ensures Run(stored, log).calls <= Run(stored, log + more).calls
    ensures Run(stored, log).ledger <= Run(stored, log + more).ledger
    decreases |more|
  {
    if more == [] {
      assert log + more == log;
    } else {
      var init := more[..|more| - 1];
      assert (log + more)[..|log + more| - 1] == log + init;
      OnlyGrows(stored, log, init);
    }
  }

  /** Whatever was appended or failed in between, one more flush that the store accepts
      records every call, each exactly as often and in the order in which it was made. */
  lemma FinalFlushRecordsAll(log: seq<Event>)
    requires Run(true, log).writing.None?
    ensures Run(true, log + [Begin] + [End(true)]).ledger == Run(true, log).calls
  {
    RunKeeps(true, log);
    var s := Run(true, log);
    assert (log + [Begin])[..|log|] == log;
    assert (log + [Begin] + [End(true)])[..|log| + 1] == log + [Begin];
    assert s.calls[..s.persisted] + s.calls[s.persisted..] == s.calls;
  }

  lemma {:induction false} MissingMeans(known: seq<CallId>, found: seq<CallId>)
    ensures forall x :: x in Missing(known, found) <==> x in found && x !in known
  {
    if found != [] {
      MissingMeans(known, found[..|found| - 1]);
    }
  }

  lemma NoDupConcat(a: seq<CallId>, b: seq<CallId>)
    requires NoDup(a) && forall x :: x in b ==> x !in a
    ensures NoDup(a + b) <==> NoDup(b)
  {
    if NoDup(a + b) {
      forall i, j | 0 <= i < j < |b| ensures b[i] != b[j] {
        assert (a + b)[|a| + i] != (a + b)[|a| + j];
      }
    }
    if NoDup(b) {
      var c := a + b;
      forall i, j | 0 <= i < j < |c| ensures c[i] != c[j] {
        if i < |a| <= j {
          assert b[j - |a|] in b;
        } else if |a| <= i {
          assert b[i - |a|] != b[j - |a|];
        }
      }
    }
  }

  /** The calls of a result that are not known yet do not repeat. */
  ghost predicate NewOnce(known: seq<CallId>, found: seq<CallId>) {
    forall i, j :: 0 <= i < j < |found| && found[i] !in known ==> found[i] != found[j]
  }

  /** Merging a runner's result duplicates a call exactly when the result itself holds
      two copies of a call that is not in the list yet. */
  lemma AbsorbKeepsDistinctIff(known: seq<CallId>, found: seq<CallId>)
    requires NoDup(known)
    ensures NoDup(known + Missing(known, found)) <==> NewOnce(known, found)
  {
    MissingMeans(known, found);
    NoDupConcat(known, Missing(known, found));
    MissingDistinct(known, found);
  }

  lemma NewOnceSnoc(known: seq<CallId>, init: seq<CallId>, last: CallId)
    ensures NewOnce(known, init + [last]) <==> NewOnce(known, init) && (last in known || last !in init)
  {
    var found := init + [last];
    if NewOnce(known, found) {
      forall i, j | 0 <= i < j < |init| && init[i] !in known ensures init[i] != init[j] {
        assert found[i] != found[j];
      }
      forall i | 0 <= i < |init| && last !in known ensures init[i] != last {
        if init[i] !in known {
          assert found[i] != found[|init|];
        }
      }
    }
  }

  lemma {:induction false} MissingDistinct(known: seq<CallId>, found: seq<CallId>)
    ensures NoDup(Missing(known, found)) <==> NewOnce(known, found)
  {
    if found != [] {
      var init, last := found[..|found| - 1], found[|found| - 1];
      MissingDistinct(known, init);
      MissingMeans(known, init);
      assert found == init + [last];
      NewOnceSnoc(known, init, last);
      if last !in known {
        NoDupLast(Missing(known, init), last);
      } else {
        assert Missing(known, found) == Missing(known, init);
      }
    }
  }

  lemma NoDupLast(m: seq<CallId>, x: CallId)
    ensures NoDup(m + [x]) <==> NoDup(m) && x !in m
  {
    if NoDup(m + [x]) {
      forall i, j | 0 <= i < j < |m| ensures m[i] != m[j] {
        assert (m + [x])[i] != (m + [x])[j];
      }
      forall i | 0 <= i < |m| ensures m[i] != x {
        assert (m + [x])[i] != (m + [x])[|m|];
      }
    }
  }
}

/** `_TurnUsageRecorder`, step by step between its awaits. */
module UsageRecorder {
  import opened Wrappers
  import opened Sequences
  import opened UsageLedger

  class TurnUsageRecorder {
    const stored: bool
    var calls: seq<CallId>
    var persistedCount: nat
    var writing: Option<nat>
    ghost var ledger: seq<CallId>
    ghost var log: seq<Event>

    ghost predicate Valid()
      reads this
    {
      State(calls, persistedCount, writing, ledger) == Run(stored, log) && Inv(stored, Run(stored, log))
    }

    constructor (stored: bool)
      ensures Valid() && log == [] && this.stored == stored
    {
      this.stored := stored;
      calls, persistedCount, writing, ledger, log := [], 0, None, [], [];
    }

    ghost method Note(e: Event)
      requires Valid()
      modifies this`log
      ensures log == old(log) + [e]
      ensures Run(stored, log) == Apply(stored, State(calls, persistedCount, writing, ledger), e)
      ensures Inv(stored, Run(stored, log))
    {
      StepKeeps(stored, Run(stored, log), e);
      log := log + [e];
      assert log[..|log| - 1] == old(log);
    }

    method Absorb(found: seq<CallId>)
      requires Valid()
      modifies this
      ensures Valid() && log == old(log) + [UsageLedger.Absorb(found)]
      ensures calls == old(calls) + Missing(old(calls), found)
    {
      var existing := Elems(calls);
      var grown := calls;
      for i := 0 to |found|
        invariant grown == calls + Missing(calls, found[..i])
      {
        assert found[..i + 1][..i] == found[..i];
        if found[i] !in existing {
          grown := grown + [found[i]];
        }
      }
      assert found[..|found|] == found;
      Note(UsageLedger.Absorb(found));
      calls := grown;
    }

    /** `record` up to its flush. */
    method Append(call: CallId)
      requires Valid()
      modifies this
      ensures Valid() && log == old(log) + [UsageLedger.Append(call)]
      ensures calls == old(calls) + [call]
    {
      Note(UsageLedger.Append(call));
      calls := calls + [call];
    }

    /** `flush` once it holds the lock, up to the write. */
    method BeginFlush() returns (pending: seq<CallId>)
      requires Valid() && writing.None?
      modifies this
      ensures Valid() && log == old(log) + [Begin]
      ensures calls == old(calls) && ledger == old(ledger)
      ensures writing.Some? <==> pending != []
      ensures stored ==> pending == calls[persistedCount..] && calls == ledger + pending
      ensures !stored ==> pending == [] && persistedCount == |calls|
    {
      pending := [];
      var end := |calls|;
      Note(Begin);
      if persistedCount >= end {
        return;
      }
      if !stored {
        persistedCount := end;
        return;
      }
      pending := calls[persistedCount..end];
      writing := Some(end);
    }

    /** `flush` after the write. */
    method EndFlush(recorded: bool)
      requires Valid() && writing.Some?
      modifies this
      ensures Valid() && log == old(log) + [End(recorded)]
      ensures writing.None? && calls == old(calls)
      ensures ledger == if recorded then calls[..old(writing).value] else old(ledger)
      ensures recorded ==> persistedCount == old(writing).value
    {
      ghost var pending := calls[persistedCount..writing.value];
      Note(End(recorded));
      if recorded {
        ledger := ledger + pending;
        persistedCount := writing.value;
      }
      writing := None;
    }
  }
}
