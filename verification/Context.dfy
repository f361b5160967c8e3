/** `ConversationContext.add_messages` of bot/agent/context.py and the advisory
    that must never be retained (bot/agent/core.py). */
module Context {
  import opened Wrappers
  import opened Transcript

  // ----- the stored history

  /** `messages[-max_history:]` as Python slices: zero keeps everything. */
  function LastSlice(ms: seq<Message>, maxHistory: int): seq<Message> {
    if maxHistory > 0 then (if |ms| > maxHistory then ms[|ms| - maxHistory..] else ms)
    else if -maxHistory <= |ms| then ms[-maxHistory..]
    else []
  }

  function DropResults(ms: seq<Message>): seq<Message> {
    if ms != [] && ms[0].role.Tool? then DropResults(ms[1..]) else ms
  }

  function Trim(ms: seq<Message>, maxHistory: int): seq<Message> {
    DropResults(if |ms| > maxHistory then LastSlice(ms, maxHistory) else ms)
  }

  class ConversationContext {
    var messages: seq<Message>
    const maxHistory: int

    constructor (messages: seq<Message>, maxHistory: int)
      ensures this.messages == messages && this.maxHistory == maxHistory
    {
      this.messages, this.maxHistory := messages, maxHistory;
    }

    method AddMessages(more: seq<Message>)
      modifies this
      ensures messages == Trim(old(messages) + more, maxHistory)
    {
      messages := messages + more;
      TrimMessages();
    }

    method TrimMessages()
      modifies this
      ensures messages == Trim(old(messages), maxHistory)
    {
      if |messages| > maxHistory {
        messages := LastSlice(messages, maxHistory);
      }
      while messages != [] && messages[0].role.Tool?
        invariant DropResults(messages) == Trim(old(messages), maxHistory)
        decreases |messages|
      {
        messages := messages[1..];
      }
    }
  }

  predicate IsSuffix(s: seq<Message>, ms: seq<Message>) {
    |s| <= |ms| && s == ms[|ms| - |s|..]
  }

  lemma SuffixTransitive(a: seq<Message>, b: seq<Message>, c: seq<Message>)
    requires IsSuffix(a, b) && IsSuffix(b, c)
    ensures IsSuffix(a, c)
  {
    assert c[|c| - |b|..][|b| - |a|..] == c[|c| - |a|..];
  }

  lemma {:induction false} DropResultsIsSuffix(ms: seq<Message>)
    ensures IsSuffix(DropResults(ms), ms)
    ensures DropResults(ms) != [] ==> !DropResults(ms)[0].role.Tool?
  {
    if ms != [] && ms[0].role.Tool? {
      DropResultsIsSuffix(ms[1..]);
      assert IsSuffix(ms[1..], ms);
      SuffixTransitive(DropResults(ms), ms[1..], ms);
    } else {
      assert ms[0..] == ms;
    }
  }

  /** Cutting a well-formed history anywhere and dropping the results at its front
      leaves a well-formed history: no result is orphaned. */
  lemma {:induction false} CutWellFormed(ms: seq<Message>, k: nat)
    requires WellFormed(ms) && k <= |ms|
    ensures WellFormed(DropResults(ms[k..]))
    decreases |ms|
  {
    if k == 0 {
      assert ms[k..] == ms;
    } else {
      var n := GroupSize(ms[0]);
      if n <= k {
        assert ms[k..] == ms[n..][k - n..];
        CutWellFormed(ms[n..], k - n);
      } else {
        forall i | k <= i < n ensures ms[i].role.Tool? {
          assert Answers(ms[1..n][i - 1], ms[0].calls[i - 1]);
        }
        DropLeading(ms[k..], n - k);
        assert ms[k..][n - k..] == ms[n..];
        NoLeading(ms[n..]);
      }
    }
  }

  lemma {:induction false} DropLeading(ms: seq<Message>, n: nat)
    requires n <= |ms| && forall i :: 0 <= i < n ==> ms[i].role.Tool?
    ensures DropResults(ms) == DropResults(ms[n..])
  {
    if n > 0 {
      DropLeading(ms[1..], n - 1);
      assert ms[1..][n - 1..] == ms[n..];
    } else {
      assert ms[0..] == ms;
    }
  }

  lemma NoLeading(ms: seq<Message>)
    requires WellFormed(ms)
    ensures DropResults(ms) == ms
  {
  }

  lemma SliceIsSuffix(ms: seq<Message>, maxHistory: int)
    ensures IsSuffix(LastSlice(ms, maxHistory), ms)
    ensures maxHistory > 0 ==> |LastSlice(ms, maxHistory)| <= maxHistory
  {
    assert ms[0..] == ms;
  }

  lemma SuffixWellFormed(s: seq<Message>, ms: seq<Message>)
    requires WellFormed(ms) && IsSuffix(s, ms)
    ensures WellFormed(DropResults(s)) && IsSuffix(DropResults(s), ms)
  {
    CutWellFormed(ms, |ms| - |s|);
    DropResultsIsSuffix(s);
    SuffixTransitive(DropResults(s), s, ms);
  }

  /** Trimming keeps a suffix within a positive limit, without an orphaned result. */
  lemma TrimKeepsForm(ms: seq<Message>, maxHistory: int)
    requires WellFormed(ms)
    ensures WellFormed(Trim(ms, maxHistory)) && IsSuffix(Trim(ms, maxHistory), ms)
    ensures maxHistory > 0 ==> |Trim(ms, maxHistory)| <= maxHistory
  {
    var slice := if |ms| > maxHistory then LastSlice(ms, maxHistory) else ms;
    SliceIsSuffix(ms, maxHistory);
    assert IsSuffix(ms, ms) by { assert ms[0..] == ms; }
    SuffixWellFormed(slice, ms);
    DropResultsIsSuffix(slice);
  }

  lemma {:induction false} DropResultsLongest(ms: seq<Message>, s: seq<Message>)
    requires IsSuffix(s, ms) && (s == [] || !s[0].role.Tool?)
    ensures |s| <= |DropResults(ms)|
  {
    assert ms[0..] == ms;
    if |s| < |ms| && ms[0].role.Tool? {
      assert ms[1..][|ms| - 1 - |s|..] == ms[|ms| - |s|..];
      DropResultsLongest(ms[1..], s);
    }
  }

  /** No suffix within the limit that starts with no result is longer: no more than
      needed is dropped. */
  lemma TrimKeepsLongest(ms: seq<Message>, maxHistory: int, s: seq<Message>)
    requires IsSuffix(s, ms) && |s| <= maxHistory && (s == [] || !s[0].role.Tool?)
    ensures |s| <= |Trim(ms, maxHistory)|
  {
    var slice := if |ms| > maxHistory then LastSlice(ms, maxHistory) else ms;
    if s != [] && |ms| > maxHistory {
      assert slice == ms[|ms| - maxHistory..];
      assert slice[maxHistory - |s|..] == ms[|ms| - |s|..];
    }
    if s != [] {
      DropResultsLongest(slice, s);
    }
  }

  /** The limit is kept for every history exactly when it is positive. */
  lemma LimitKeptIffPositive(maxHistory: int)
    ensures (forall ms :: WellFormed(ms) ==> |Trim(ms, maxHistory)| <= maxHistory) <==> maxHistory > 0
  {
    if maxHistory > 0 {
      forall ms | WellFormed(ms) ensures |Trim(ms, maxHistory)| <= maxHistory {
        TrimKeepsForm(ms, maxHistory);
      }
    } else {
      var ms := if maxHistory == 0 then [TextMessage(User, "")] else [];
      assert ms != [] ==> ms[0..] == ms && ms[1..] == [];
      assert WellFormed(ms) && |Trim(ms, maxHistory)| > maxHistory;
    }
  }

  // ----- the thread handoff advisory

  const ADVISORY_TAG := "<thread_handoff_advisory>"

  predicate IsAdvisory(p: Part) {
    p.Text? && ADVISORY_TAG <= PartChars(p)
  }

  function KeepParts(parts: seq<Part>): seq<Part> {
    if parts == [] then [] else
      (if IsAdvisory(parts[0]) then [] else [parts[0]]) + KeepParts(parts[1..])
  }

  function RetainOne(m: Message): Message {
    m.(parts := KeepParts(m.parts))
  }

  /** `_without_thread_handoff_advisory`. */
  function Retained(ms: seq<Message>): seq<Message> {
    seq(|ms|, i requires 0 <= i < |ms| => RetainOne(ms[i]))
  }

  lemma {:induction false} KeepPartsClean(parts: seq<Part>)
    ensures forall p :: p in KeepParts(parts) ==> !IsAdvisory(p)
    ensures (forall p :: p in parts ==> !IsAdvisory(p)) ==> KeepParts(parts) == parts
  {
    if parts != [] {
      KeepPartsClean(parts[1..]);
      assert parts == [parts[0]] + parts[1..];
    }
  }

  lemma {:induction false} KeepPartsTexts(parts: seq<Part>)
    ensures (forall p :: p in KeepParts(parts) ==> p.Text? ==> p.text.Some?) <==> forall p :: p in parts ==> p.Text? ==> p.text.Some?
  {
    if parts != [] {
      KeepPartsTexts(parts[1..]);
      assert parts == [parts[0]] + parts[1..];
    }
  }

  /** An advisory is a text, so stripping it neither mends nor spoils a message. */
  lemma RetainedWhole(ms: seq<Message>)
    ensures AllWhole(Retained(ms)) <==> AllWhole(ms)
  {
    forall i | 0 <= i < |ms| ensures Whole(Retained(ms)[i]) <==> Whole(ms[i]) {
      KeepPartsTexts(ms[i].parts);
      PartsWhole(ms[i]);
      PartsWhole(Retained(ms)[i]);
    }
    if AllWhole(Retained(ms)) {
      forall m | m in ms ensures Whole(m) {
        var i :| 0 <= i < |ms| && ms[i] == m;
        assert Retained(ms)[i] in Retained(ms);
      }
    }
  }

  lemma PartsWhole(m: Message)
    ensures Whole(m) <==>
      (forall p :: p in m.parts ==> p.Text? ==> p.text.Some?) && forall i :: 0 <= i < |m.calls| ==> m.calls[i].arguments.Some?
  {
  }

  predicate Clean(ms: seq<Message>) {
    forall i, p :: 0 <= i < |ms| && p in ms[i].parts ==> !IsAdvisory(p)
  }

  /** Retained messages carry no advisory, and differ from the originals in
      nothing else. */
  lemma RetainedClean(ms: seq<Message>)
    ensures Clean(Retained(ms))
    ensures Clean(ms) ==> Retained(ms) == ms
  {
    forall i, p | 0 <= i < |ms| && p in Retained(ms)[i].parts ensures !IsAdvisory(p) {
      KeepPartsClean(ms[i].parts);
    }
    if Clean(ms) {
      forall i | 0 <= i < |ms| ensures Retained(ms)[i] == ms[i] {
        KeepPartsClean(ms[i].parts);
      }
    }
  }

  /** Stripping is done with after one time. */
  lemma RetainedTwice(ms: seq<Message>)
    ensures Retained(Retained(ms)) == Retained(ms)
  {
    forall i | 0 <= i < |ms| ensures RetainOne(RetainOne(ms[i])) == RetainOne(ms[i]) {
      KeepPartsClean(ms[i].parts);
      KeepPartsClean(KeepParts(ms[i].parts));
    }
  }

  lemma RetainedConcat(a: seq<Message>, b: seq<Message>)
    ensures Retained(a + b) == Retained(a) + Retained(b)
  {
  }

  /** Content never decides the form of a transcript. */
  lemma {:induction false} RetainedWellFormed(ms: seq<Message>)
    ensures WellFormed(Retained(ms)) <==> WellFormed(ms)
    decreases |ms|
  {
    if ms != [] {
      var n := GroupSize(ms[0]);
      if n <= |ms| {
        assert Retained(ms)[n..] == Retained(ms[n..]);
        forall i | 0 <= i < n - 1
          ensures Retained(ms)[1..n][i].role == ms[1..n][i].role && Retained(ms)[1..n][i].callId == ms[1..n][i].callId
        {
        }
        RetainedWellFormed(ms[n..]);
      }
    }
  }

  /** `_append_thread_handoff_advisory`: the hint goes on the newest tool result. */
  method AppendAdvisory(ms: seq<Message>, advisory: string) returns (r: seq<Message>, done: bool)
    requires ADVISORY_TAG <= advisory
    ensures Retained(r) == Retained(ms) && OnlyToolBodies(ms, r)
    ensures done <==> exists i :: 0 <= i < |ms| && ms[i].role.Tool?
    ensures !done ==> r == ms
    ensures done ==> exists i :: 0 <= i < |ms| && ms[i].role.Tool?
                       && r == ms[i := ms[i].(parts := ms[i].parts + [Text(Some(advisory))])]
                       && forall j :: i < j < |ms| ==> !ms[j].role.Tool?
  {
    var index := |ms|;
    while index > 0
      invariant 0 <= index <= |ms| && forall j :: index <= j < |ms| ==> !ms[j].role.Tool?
    {
      index := index - 1;
      if ms[index].role.Tool? {
        r := ms[index := ms[index].(parts := ms[index].parts + [Text(Some(advisory))])];
        AdvisoryVanishes(ms, index, advisory);
        return r, true;
      }
    }
    return ms, false;
  }

  lemma AdvisoryVanishes(ms: seq<Message>, i: nat, advisory: string)
    requires i < |ms| && ADVISORY_TAG <= advisory
    ensures Retained(ms[i := ms[i].(parts := ms[i].parts + [Text(Some(advisory))])]) == Retained(ms)
  {
    var hint := Text(Some(advisory));
    assert PartChars(hint) == advisory && IsAdvisory(hint);
    KeepPartsSnoc(ms[i].parts, hint);
    assert KeepParts(ms[i].parts + [hint]) == KeepParts(ms[i].parts);
  }

  lemma {:induction false} KeepPartsSnoc(parts: seq<Part>, p: Part)
    ensures KeepParts(parts + [p]) == KeepParts(parts) + (if IsAdvisory(p) then [] else [p])
  {
    if parts != [] {
      assert (parts + [p])[1..] == parts[1..] + [p];
      KeepPartsSnoc(parts[1..], p);
      var head, tail := if IsAdvisory(parts[0]) then [] else [parts[0]], if IsAdvisory(p) then [] else [p];
      assert head + (KeepParts(parts[1..]) + tail) == (head + KeepParts(parts[1..])) + tail;
    }
  }
}
