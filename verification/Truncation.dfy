/** Sizes and cuts of bot/agent/compaction.py: token estimates, head/tail cuts,
    stubs, the per-iteration output budget and the last-resort truncation loop. */
module Truncation {
  import opened Wrappers
  import opened Iteration
  import opened Transcript

  const STUB_FLOOR_CHARS: nat := 96
  const ELIDE_KEEP_CHARS: nat := 2048
  const HARD_TRUNCATE_KEEP_CHARS: nat := 1024
  /** The longest tool name whose stub fits the floor. */
  const MAX_LABEL_CHARS: nat := 57

  /** `int(chars / 3.5)`. */
  function EstTokens(chars: nat): (tokens: nat)
    ensures 7 * tokens <= 2 * chars < 7 * (tokens + 1)
  {
    2 * chars / 7
  }

  function Max(a: int, b: int): int {
    if a < b then b else a
  }

  function Decimal(n: nat): (r: string)
    ensures 1 <= |r| <= Max(1, n)
    ensures n < 10 ==> |r| == 1
  {
    if n < 10 then [('0' as int + n) as char] else Decimal(n / 10) + [('0' as int + n % 10) as char]
  }

  /** `tool_name or 'tool'`. */
  function Label(name: Option<string>): string {
    if name.Some? && name.value != "" then name.value else "tool"
  }

  function Stub(name: Option<string>, chars: nat, reason: string): string {
    "[earlier " + Label(name) + " result " + reason + " - " + Decimal(Max(1, chars / 1024)) + " KB]"
  }

  function CutMarker(name: Option<string>, dropped: nat, reason: string): string {
    "\n[... " + Label(name) + " result " + reason + ": " + Decimal(Max(1, dropped / 1024)) + " KB cut from middle ...]\n"
  }

  function HeadTail(text: string, keep: int, name: Option<string>, reason: string): string {
    if |text| <= keep then text
    else if keep < STUB_FLOOR_CHARS then Stub(name, |text|, reason)
    else
      var half := keep / 2;
      text[..half] + CutMarker(name, |text| - 2 * half, reason) + text[|text| - half..]
  }

  /** A cut text keeps both of its ends, and between them says what went. */
  lemma HeadTailKeepsEnds(text: string, keep: int, name: Option<string>, reason: string)
    requires STUB_FLOOR_CHARS <= keep < |text|
    ensures var r, half := HeadTail(text, keep, name, reason), keep / 2;
      && 2 * half <= |r| && r[..half] == text[..half] && r[|r| - half..] == text[|text| - half..]
      && r[half..|r| - half] == "\n[... " + Label(name) + " result " + reason + ": "
                                + Decimal(Max(1, (|text| - 2 * half) / 1024)) + " KB cut from middle ...]\n"
  {
  }

  /** The number that a sequence of digits stands for. */
  function Number(digits: string): int {
    if digits == "" then 0 else 10 * Number(digits[..|digits| - 1]) + digits[|digits| - 1] as int - '0' as int
  }

  lemma {:induction false} DecimalReads(n: nat)
    ensures Number(Decimal(n)) == n
  {
    if n >= 10 {
      DecimalReads(n / 10);
      assert Decimal(n)[..|Decimal(n)| - 1] == Decimal(n / 10);
    }
  }

  /** `_tool_text`: the parts joined without a separator. */
  function ToolText(parts: seq<Part>): string {
    if parts == [] then "" else PartChars(parts[0]) + ToolText(parts[1..])
  }

  function JoinLines(parts: seq<Part>): string {
    if parts == [] then ""
    else if |parts| == 1 then PartChars(parts[0])
    else PartChars(parts[0]) + "\n" + JoinLines(parts[1..])
  }

  /** `serialize_message`: the text a message is charged for. */
  function Charged(m: Message): string {
    if m.raw != "" then m.raw
    else if m.role.Tool? then
      (if m.callId.Some? then m.callId.value else "")
      + (if m.toolName.Some? then m.toolName.value else "")
      + JoinLines(m.parts)
    else JoinLines(m.parts)
  }

  function ChargedChars(ms: seq<Message>): nat {
    if ms == [] then 0 else ChargedChars(ms[..|ms| - 1]) + |Charged(ms[|ms| - 1])|
  }

  function RequestTokens(system: string, head: seq<Message>, working: seq<Message>): nat {
    EstTokens(|system|) + EstTokens(ChargedChars(head) + ChargedChars(working))
  }

  // ----- the last-resort truncation

  const HARD_REASON := "hard-truncated"

  /** What one round makes of a tool body: the cut body, or a stub when the cut
      does not shrink it. */
  function Shrunk(text: string, name: Option<string>): string {
    var body := HeadTail(text, HARD_TRUNCATE_KEEP_CHARS, name, HARD_REASON);
    if |body| >= |text| then Stub(name, |text|, HARD_REASON) else body
  }

  lemma StubLength(name: Option<string>, chars: nat)
    requires chars < 2048
    ensures |Stub(name, chars, HARD_REASON)| == 39 + |Label(name)|
  {
    assert |HARD_REASON| == 14;
    assert |Decimal(Max(1, chars / 1024))| == 1;
  }

  lemma CutLength(name: Option<string>, text: string)
    requires |text| > HARD_TRUNCATE_KEEP_CHARS
    ensures |HeadTail(text, HARD_TRUNCATE_KEEP_CHARS, name, HARD_REASON)|
         == HARD_TRUNCATE_KEEP_CHARS + 55 + |Label(name)| + |Decimal(Max(1, (|text| - 1024) / 1024))|
  {
    assert |HARD_REASON| == 14;
  }

  /** Under a fitting name every round shrinks a body above the floor. */
  lemma FittingNameShrinks(name: Option<string>, text: string)
    requires |text| > STUB_FLOOR_CHARS && |Label(name)| <= MAX_LABEL_CHARS
    ensures |Shrunk(text, name)| < |text|
  {
    if |text| > HARD_TRUNCATE_KEEP_CHARS {
      CutLength(name, text);
    }
    if |text| < 2048 {
      StubLength(name, |text|);
    }
  }

  ghost predicate AlwaysShrinks(name: Option<string>) {
    forall text: string :: |text| > STUB_FLOOR_CHARS ==> |Shrunk(text, name)| < |text|
  }

  /** A round shrinks every body of a tool exactly when its name has at most 57
      characters: a longer name has a stub above the floor. */
  lemma ShrinksIffNameFits(name: Option<string>)
    ensures AlwaysShrinks(name) <==> |Label(name)| <= MAX_LABEL_CHARS
  {
    if |Label(name)| <= MAX_LABEL_CHARS {
      forall text: string | |text| > STUB_FLOOR_CHARS ensures |Shrunk(text, name)| < |text| {
        FittingNameShrinks(name, text);
      }
    } else {
      var text: string := seq(STUB_FLOOR_CHARS + 1, _ => 'x');
      StubLength(name, |text|);
      assert |Shrunk(text, name)| >= |text|;
    }
  }

  lemma {:induction false} DecimalGrows(a: nat, b: nat)
    requires a <= b
    ensures |Decimal(a)| <= |Decimal(b)|
  {
    if a >= 10 {
      DecimalGrows(a / 10, b / 10);
    }
  }

  /** The size in KB that the stub of a `kb` KB body is itself given. */
  function StubKb(chars: nat, kb: nat): nat {
    Max(1, (38 + chars + |Decimal(kb)|) / 1024)
  }

  /** Stubs of stubs settle on one size. */
  lemma {:induction false} SettledKb(chars: nat, from: nat) returns (kb: nat)
    requires 1 <= from <= StubKb(chars, from)
    ensures kb >= 1 && StubKb(chars, kb) == kb
    decreases 38 + chars + 1 - from
  {
    kb := StubKb(chars, from);
    DecimalGrows(from, kb);
    if kb > from {
      kb := SettledKb(chars, kb);
    }
  }

  /** Every longer name has a stub above the floor that a round replaces by itself. */
  lemma LongNameIsStuck(name: Option<string>) returns (text: string)
    requires |Label(name)| > MAX_LABEL_CHARS
    ensures |text| > STUB_FLOOR_CHARS && Shrunk(text, name) == text
  {
    var kb := SettledKb(|Label(name)|, 1);
    text := Stub(name, 1024 * kb, HARD_REASON);
    SettledStub(name, kb, text);
    if |text| > HARD_TRUNCATE_KEEP_CHARS {
      CutIsLonger(name, text, kb);
    }
  }

  lemma SettledStub(name: Option<string>, kb: nat, text: string)
    requires kb >= 1 && StubKb(|Label(name)|, kb) == kb && text == Stub(name, 1024 * kb, HARD_REASON)
    ensures |text| == 38 + |Label(name)| + |Decimal(kb)| && Stub(name, |text|, HARD_REASON) == text
  {
    assert |HARD_REASON| == 14;
    assert 1024 * kb / 1024 == kb;
    assert Max(1, |text| / 1024) == kb;
  }

  lemma CutIsLonger(name: Option<string>, text: string, kb: nat)
    requires |text| > HARD_TRUNCATE_KEEP_CHARS && kb == |text| / 1024 && |text| == 38 + |Label(name)| + |Decimal(kb)|
    ensures |HeadTail(text, HARD_TRUNCATE_KEEP_CHARS, name, HARD_REASON)| >= |text|
  {
    CutLength(name, text);
    DecimalGrows(kb / 10, Max(1, (|text| - 1024) / 1024));
  }

  /** The tool bodies that truncation may still cut. */
  predicate Truncatable(m: Message) {
    m.role.Tool? && |ToolText(m.parts)| > STUB_FLOOR_CHARS
  }

  predicate NamesFit(ms: seq<Message>) {
    forall m :: m in ms && m.role.Tool? ==> |Label(m.toolName)| <= MAX_LABEL_CHARS
  }

  function ToolChars(ms: seq<Message>): nat {
    if ms == [] then 0
    else ToolChars(ms[..|ms| - 1])
         + (if ms[|ms| - 1].role.Tool? then |ToolText(ms[|ms| - 1].parts)| else 0)
  }

  /** Replacing one tool body changes the sum by the difference of the bodies. */
  lemma {:induction false} ToolCharsUpdate(ms: seq<Message>, i: nat, m: Message)
    requires i < |ms| && ms[i].role.Tool? && m.role.Tool?
    ensures ToolChars(ms[i := m]) == ToolChars(ms) - |ToolText(ms[i].parts)| + |ToolText(m.parts)|
  {
    var n := |ms| - 1;
    if i == n {
      assert ms[i := m][..n] == ms[..n];
    } else {
      assert ms[i := m][..n] == ms[..n][i := m];
      ToolCharsUpdate(ms[..n], i, m);
    }
  }

  /** The first of the longest tool bodies above the floor, if there is one. */
  ghost predicate IsLargest(ms: seq<Message>, best: Option<nat>) {
    match best
    case None => forall i :: 0 <= i < |ms| ==> !Truncatable(ms[i])
    case Some(b) =>
      && b < |ms| && Truncatable(ms[b])
      && (forall i :: 0 <= i < |ms| && Truncatable(ms[i]) ==> |ToolText(ms[i].parts)| <= |ToolText(ms[b].parts)|)
      && (forall i :: 0 <= i < b && Truncatable(ms[i]) ==> |ToolText(ms[i].parts)| < |ToolText(ms[b].parts)|)
  }

  /** `_largest_truncatable_tool`. */
  method LargestTruncatable(ms: seq<Message>) returns (best: Option<nat>)
    ensures IsLargest(ms, best)
  {
    best := None;
    var bestLength := STUB_FLOOR_CHARS;
    for i := 0 to |ms|
      invariant best.None? ==> bestLength == STUB_FLOOR_CHARS && forall j :: 0 <= j < i ==> !Truncatable(ms[j])
      invariant best.Some? ==>
        && best.value < i && Truncatable(ms[best.value]) && bestLength == |ToolText(ms[best.value].parts)|
        && (forall j :: 0 <= j < i && Truncatable(ms[j]) ==> |ToolText(ms[j].parts)| <= bestLength)
        && (forall j :: 0 <= j < best.value && Truncatable(ms[j]) ==> |ToolText(ms[j].parts)| < bestLength)
    {
      if ms[i].role.Tool? {
        var length := |ToolText(ms[i].parts)|;
        if length > bestLength {
          best, bestLength := Some(i), length;
        }
      }
    }
  }

  /** The body that the next round cuts. */
  function Largest(ms: seq<Message>): (best: Option<nat>)
    ensures best.Some? ==> best.value < |ms| && Truncatable(ms[best.value])
  {
    if ms == [] then None
    else
      var n := |ms| - 1;
      var best := Largest(ms[..n]);
      if Truncatable(ms[n])
         && (best.None? || |ToolText(ms[n].parts)| > |ToolText(ms[best.value].parts)|) then Some(n)
      else best
  }

  lemma {:induction false} LargestIs(ms: seq<Message>)
    ensures IsLargest(ms, Largest(ms))
  {
    if ms != [] {
      var n := |ms| - 1;
      LargestIs(ms[..n]);
      assert forall i :: 0 <= i < n ==> ms[..n][i] == ms[i];
    }
  }

  lemma LargestUnique(ms: seq<Message>, a: Option<nat>, b: Option<nat>)
    requires IsLargest(ms, a) && IsLargest(ms, b)
    ensures a == b
  {
  }

  function CutBody(m: Message): Message {
    m.(parts := [Text(Some(Shrunk(ToolText(m.parts), m.toolName)))])
  }

  /** One round of the loop; nothing changes once no body is above the floor. */
  function Round(ms: seq<Message>): seq<Message> {
    match Largest(ms)
    case None => ms
    case Some(i) => ms[i := CutBody(ms[i])]
  }

  /** A round cuts the first of the longest bodies, to its ends where that shortens it and
      to a stub otherwise, and leaves everything else. */
  lemma RoundCuts(ms: seq<Message>, i: nat)
    requires IsLargest(ms, Some(i))
    ensures var r, text := Round(ms), ToolText(ms[i].parts);
      var cut := HeadTail(text, 1024, ms[i].toolName, "hard-truncated");
      && |r| == |ms| && (forall j :: 0 <= j < |ms| && j != i ==> r[j] == ms[j])
      && r[i] == ms[i].(parts := [Text(Some(if |cut| < |text| then cut else Stub(ms[i].toolName, |text|, "hard-truncated")))])
  {
    LargestIs(ms);
    LargestUnique(ms, Some(i), Largest(ms));
  }

  lemma NothingToCut(ms: seq<Message>)
    requires IsLargest(ms, None)
    ensures Round(ms) == ms
  {
    LargestIs(ms);
    LargestUnique(ms, None, Largest(ms));
  }

  function Rounds(ms: seq<Message>, n: nat): seq<Message> {
    Iterate(Round, ms, n)
  }

  lemma {:induction false} RoundsKeepBodies(ms: seq<Message>, n: nat)
    ensures OnlyToolBodies(ms, Rounds(ms, n))
    decreases n
  {
    if n > 0 {
      RoundsKeepBodies(Round(ms), n - 1);
      SameBodiesTrans(ms, Round(ms), Rounds(ms, n));
    }
  }

  lemma SameBodiesTrans(a: seq<Message>, b: seq<Message>, c: seq<Message>)
    requires OnlyToolBodies(a, b) && OnlyToolBodies(b, c)
    ensures OnlyToolBodies(a, c)
  {
  }

  lemma SameNames(a: seq<Message>, b: seq<Message>)
    requires OnlyToolBodies(a, b) && NamesFit(a)
    ensures NamesFit(b)
  {
    forall m | m in b && m.role.Tool? ensures |Label(m.toolName)| <= MAX_LABEL_CHARS {
      var i :| 0 <= i < |b| && b[i] == m;
      assert a[i] in a;
    }
  }

  lemma RoundWhole(ms: seq<Message>)
    requires AllWhole(ms)
    ensures AllWhole(Round(ms))
  {
    if Largest(ms).Some? {
      var i := Largest(ms).value;
      assert ms[i] in ms;
    }
  }

  /** What rounds make of a body is a text. */
  lemma {:induction false} RoundsWhole(ms: seq<Message>, n: nat)
    requires AllWhole(ms)
    ensures AllWhole(Rounds(ms, n))
    decreases n
  {
    if n > 0 {
      RoundWhole(ms);
      RoundsWhole(Round(ms), n - 1);
    }
  }

  /** The two ways the loop ends: under the trigger, or with no body left to cut. */
  predicate Ended(system: string, head: seq<Message>, ms: seq<Message>, trigger: int) {
    RequestTokens(system, head, ms) < trigger || Largest(ms).None?
  }

  ghost predicate FitsOrFloored(system: string, head: seq<Message>, ms: seq<Message>, trigger: int) {
    RequestTokens(system, head, ms) < trigger || forall i :: 0 <= i < |ms| ==> !Truncatable(ms[i])
  }

  /** The loop ends on this turn. */
  ghost predicate Halts(system: string, head: seq<Message>, ms: seq<Message>, trigger: int) {
    exists n: nat :: Ended(system, head, Rounds(ms, n), trigger)
  }

  /** `r` is the turn at which the loop ends. */
  ghost predicate TruncatedTo(system: string, head: seq<Message>, ms: seq<Message>, trigger: int, r: seq<Message>) {
    exists n: nat ::
      && r == Rounds(ms, n) && Ended(system, head, r, trigger)
      && forall k: nat :: k < n ==> !Ended(system, head, Rounds(ms, k), trigger)
  }

  /** Given names whose stub fits the floor, the sum of tool bodies falls in every round. */
  lemma RoundShrinks(ms: seq<Message>)
    requires NamesFit(ms) && Largest(ms).Some?
    ensures ToolChars(Round(ms)) < ToolChars(ms)
  {
    var i := Largest(ms).value;
    FittingNameShrinks(ms[i].toolName, ToolText(ms[i].parts));
    OneText(Shrunk(ToolText(ms[i].parts), ms[i].toolName));
    ToolCharsUpdate(ms, i, CutBody(ms[i]));
  }

  /** So the loop ends on every turn with such names, whatever the trigger. */
  lemma {:induction false} FittingNamesHalt(system: string, head: seq<Message>, ms: seq<Message>, trigger: int)
    requires NamesFit(ms)
    ensures Halts(system, head, ms, trigger)
    decreases ToolChars(ms)
  {
    if Ended(system, head, ms, trigger) {
      assert Rounds(ms, 0) == ms;
    } else {
      RoundShrinks(ms);
      SameNames(ms, Round(ms));
      FittingNamesHalt(system, head, Round(ms), trigger);
      var n: nat :| Ended(system, head, Rounds(Round(ms), n), trigger);
      assert Rounds(ms, n + 1) == Rounds(Round(ms), n);
    }
  }

  /** Under a longer name there is a turn over any trigger that is not above its size
      which a round maps to itself: the loop never ends on it. */
  lemma LongNameLoops(system: string, head: seq<Message>, name: Option<string>) returns (ms: seq<Message>)
    requires |Label(name)| > MAX_LABEL_CHARS
    ensures ms != [] && forall m :: m in ms ==> m.role.Tool? && m.toolName == name
    ensures Round(ms) == ms
    ensures forall trigger: int :: trigger <= RequestTokens(system, head, ms) ==> !Halts(system, head, ms, trigger)
  {
    var text := LongNameIsStuck(name);
    var m := Message(Tool, [Text(Some(text))], None, name, [], "");
    ms := [m];
    OneText(text);
    assert ms[..0] == [] && Largest(ms) == Some(0);
    assert ms[0 := CutBody(m)] == ms;
    forall trigger: int | trigger <= RequestTokens(system, head, ms) ensures !Halts(system, head, ms, trigger) {
      forall n: nat ensures !Ended(system, head, Rounds(ms, n), trigger) {
        IterateFixed(Round, ms, n);
      }
    }
  }

  predicate AllNamed(ms: seq<Message>, name: Option<string>) {
    forall m :: m in ms && m.role.Tool? ==> m.toolName == name
  }

  /** The loop ends on every request of a tool exactly when the tool's label has at most
      57 characters. */
  lemma HaltsIffNameFits(name: Option<string>)
    ensures (forall system, head, ms, trigger: int :: AllNamed(ms, name) ==> Halts(system, head, ms, trigger))
      <==> |Label(name)| <= MAX_LABEL_CHARS
  {
    if |Label(name)| <= MAX_LABEL_CHARS {
      forall system, head, ms, trigger: int | AllNamed(ms, name) ensures Halts(system, head, ms, trigger) {
        FittingNamesHalt(system, head, ms, trigger);
      }
    } else {
      var ms := LongNameLoops("", [], name);
      assert !Halts("", [], ms, RequestTokens("", [], ms)) && AllNamed(ms, name);
    }
  }

  /** `_hard_truncate`, on every turn on which the loop ends: it cuts the largest tool
      body until the request is under the trigger or no body is above the floor. */
  method HardTruncate(system: string, head: seq<Message>, working: seq<Message>, trigger: int)
    returns (r: seq<Message>)
    requires Halts(system, head, working, trigger)
    ensures TruncatedTo(system, head, working, trigger, r)
    ensures FitsOrFloored(system, head, r, trigger) && OnlyToolBodies(working, r)
  {
    r := working;
    ghost var end: nat :| Ended(system, head, Rounds(working, end), trigger);
    ghost var done: nat := 0;
    while RequestTokens(system, head, r) >= trigger
      invariant Truncating(system, head, working, trigger, end, done, r)
      decreases end - done
    {
      LargestIs(r);
      var index := LargestTruncatable(r);
      LargestUnique(r, index, Largest(r));
      if index.None? {
        break;
      }
      TruncatingNext(system, head, working, trigger, end, done, r);
      r := TruncateRound(r, index.value);
      done := done + 1;
    }
    TruncatingEnds(system, head, working, trigger, end, done, r);
  }

  /** After `done` rounds of a loop that will have ended by round `end`. */
  ghost predicate Truncating(system: string, head: seq<Message>, ms: seq<Message>, trigger: int, end: nat, done: nat,
                             r: seq<Message>) {
    && done <= end && r == Rounds(ms, done) && Ended(system, head, Rounds(ms, end), trigger)
    && forall k: nat :: k < done ==> !Ended(system, head, Rounds(ms, k), trigger)
  }

  lemma TruncatingNext(system: string, head: seq<Message>, ms: seq<Message>, trigger: int, end: nat, done: nat, r: seq<Message>)
    requires Truncating(system, head, ms, trigger, end, done, r) && !Ended(system, head, r, trigger)
    ensures Truncating(system, head, ms, trigger, end, done + 1, Round(r))
  {
    IterateSnoc(Round, ms, done);
  }

  lemma TruncatingEnds(system: string, head: seq<Message>, ms: seq<Message>, trigger: int, end: nat, done: nat, r: seq<Message>)
    requires Truncating(system, head, ms, trigger, end, done, r) && Ended(system, head, r, trigger)
    ensures TruncatedTo(system, head, ms, trigger, r) && FitsOrFloored(system, head, r, trigger) && OnlyToolBodies(ms, r)
  {
    LargestIs(r);
    RoundsKeepBodies(ms, done);
  }

  /** One round of the loop. */
  method TruncateRound(ms: seq<Message>, i: nat) returns (r: seq<Message>)
    requires i < |ms| && Truncatable(ms[i])
    ensures r == ms[i := CutBody(ms[i])]
  {
    var m := ms[i];
    var original := ToolText(m.parts);
    var body := HeadTail(original, HARD_TRUNCATE_KEEP_CHARS, m.toolName, HARD_REASON);
    if |body| >= |original| {
      body := Stub(m.toolName, |original|, HARD_REASON);
    }
    r := ms[i := m.(parts := [Text(Some(body))])];
  }

  lemma OneText(body: string)
    ensures ToolText([Text(Some(body))]) == body
  {
    assert ToolText([Text(Some(body))]) == body + ToolText([Text(Some(body))][1..]);
  }

  // ----- the per-iteration output budget

  const CLAMP_REASON := "truncated (per-iteration budget)"

  /** `clamp_tool_output` for a budget in characters. */
  function Clamp(budget: int, running: nat, result: string, name: string): (string, nat) {
    var remaining := budget - running;
    if |result| <= remaining then (result, running + |result|)
    else if remaining < STUB_FLOOR_CHARS then (Stub(Some(name), |result|, CLAMP_REASON), running)
    else
      var truncated := HeadTail(result, remaining, Some(name), CLAMP_REASON);
      (truncated, running + |truncated|)
  }

  /** The counter before the result at `k` of one iteration, clamped in call order. */
  function Spent(budget: int, results: seq<(string, string)>, k: nat): nat
    requires k <= |results|
  {
    if k == 0 then 0 else Clamp(budget, Spent(budget, results, k - 1), results[k - 1].1, results[k - 1].0).1
  }

  /** Whether the result at `k` is cut to a head and tail. */
  predicate CutAt(budget: int, results: seq<(string, string)>, k: nat)
    requires k < |results|
  {
    budget - Spent(budget, results, k) >= STUB_FLOOR_CHARS && |results[k].1| > budget - Spent(budget, results, k)
  }

  /** The marker of the cut at `k`. */
  function MarkerChars(budget: int, results: seq<(string, string)>, k: nat): nat
    requires k < |results| && CutAt(budget, results, k)
  {
    var half := (budget - Spent(budget, results, k)) / 2;
    |CutMarker(Some(results[k].0), |results[k].1| - 2 * half, CLAMP_REASON)|
  }

  /** The counter after the cut at `k`: it keeps an even part of the room that was left
      and adds its marker. */
  function Overshot(budget: int, results: seq<(string, string)>, k: nat): int
    requires k < |results| && CutAt(budget, results, k)
  {
    budget + MarkerChars(budget, results, k) - (budget - Spent(budget, results, k)) % 2
  }

  /** A cut takes the counter past the budget, by its marker less one for an odd room. */
  lemma CutOvershoots(budget: int, results: seq<(string, string)>, k: nat)
    requires k < |results| && CutAt(budget, results, k)
    ensures Spent(budget, results, k + 1) == Overshot(budget, results, k) > budget
  {
    assert MarkerChars(budget, results, k) >= 6;
  }

  lemma OthersFit(budget: int, results: seq<(string, string)>, k: nat)
    requires k < |results| && !CutAt(budget, results, k)
    ensures Spent(budget, results, k + 1) <= Max(Spent(budget, results, k), budget)
  {
  }

  /** The lengths of the first `k` results together. */
  function Lengths(results: seq<(string, string)>, k: nat): nat
    requires k <= |results|
  {
    if k == 0 then 0 else Lengths(results, k - 1) + |results[k - 1].1|
  }

  /** Results that fit the budget together stay whole and are all counted. */
  lemma {:induction false} FittingAreCounted(budget: int, results: seq<(string, string)>, k: nat)
    requires k <= |results| && Lengths(results, k) <= budget
    ensures Spent(budget, results, k) == Lengths(results, k)
  {
    if k > 0 {
      FittingAreCounted(budget, results, k - 1);
    }
  }

  lemma FittingStayWhole(budget: int, results: seq<(string, string)>, k: nat)
    requires k < |results| && Lengths(results, k + 1) <= budget
    ensures Clamp(budget, Spent(budget, results, k), results[k].1, results[k].0).0 == results[k].1
  {
    FittingAreCounted(budget, results, k);
  }

  /** The first that does not is cut to the room that is left if that holds a stub, and is
      a stub otherwise; behind a cut every result is a stub. */
  lemma FirstOverBudget(budget: int, results: seq<(string, string)>, k: nat)
    requires k < |results| && Lengths(results, k) <= budget < Lengths(results, k + 1)
    ensures var (name, text), room := results[k], budget - Lengths(results, k);
      Clamp(budget, Spent(budget, results, k), text, name).0 ==
        if room >= 96 then HeadTail(text, room, Some(name), "truncated (per-iteration budget)")
        else Stub(Some(name), |text|, "truncated (per-iteration budget)")
    ensures CutAt(budget, results, k) <==> budget - Lengths(results, k) >= 96
  {
    FittingAreCounted(budget, results, k);
  }

  lemma StubsBehindCut(budget: int, results: seq<(string, string)>, j: nat, k: nat)
    requires j < k < |results| && CutAt(budget, results, j)
    ensures Clamp(budget, Spent(budget, results, k), results[k].1, results[k].0).0
         == Stub(Some(results[k].0), |results[k].1|, "truncated (per-iteration budget)")
  {
    CutStays(budget, results, j, k);
  }

  function Counter(budget: int, results: seq<(string, string)>): nat -> nat {
    (k: nat) => if k <= |results| then Spent(budget, results, k) else 0
  }

  lemma {:induction false} StaysWithin(count: nat -> nat, bound: nat, n: nat)
    requires count(0) <= bound
    requires forall k: nat :: k < n ==> count(k + 1) <= Max(count(k), bound)
    ensures count(n) <= bound
    decreases n
  {
    if n > 0 {
      StaysWithin(count, bound, n - 1);
      assert count(n - 1 + 1) <= Max(count(n - 1), bound);
    }
  }

  lemma CounterFits(budget: int, results: seq<(string, string)>, k: nat)
    requires k < |results| && !CutAt(budget, results, k)
    ensures Counter(budget, results)(k + 1) <= Max(Counter(budget, results)(k), Max(0, budget))
  {
    OthersFit(budget, results, k);
  }

  lemma UncutFits(budget: int, results: seq<(string, string)>, n: nat)
    requires n <= |results| && forall k :: 0 <= k < n ==> !CutAt(budget, results, k)
    ensures Spent(budget, results, n) <= Max(0, budget)
  {
    forall k: nat | k < n
      ensures Counter(budget, results)(k + 1) <= Max(Counter(budget, results)(k), Max(0, budget))
    {
      CounterFits(budget, results, k);
    }
    StaysWithin(Counter(budget, results), Max(0, budget), n);
  }

  /** Past the budget nothing more is counted. */
  lemma PastAdds(budget: int, results: seq<(string, string)>, k: nat)
    requires k < |results| && Spent(budget, results, k) > budget
    ensures Spent(budget, results, k + 1) == Spent(budget, results, k)
  {
  }

  lemma {:induction false} Settles(count: nat -> nat, budget: int, m: nat, n: nat)
    requires m <= n && count(m) > budget
    requires forall k: nat :: m <= k < n && count(k) > budget ==> count(k + 1) == count(k)
    ensures count(n) == count(m)
    decreases n
  {
    if m < n {
      Settles(count, budget, m, n - 1);
      assert count(n - 1) > budget;
    }
  }

  lemma CounterSettles(budget: int, results: seq<(string, string)>, k: nat)
    requires k < |results| && Counter(budget, results)(k) > budget
    ensures Counter(budget, results)(k + 1) == Counter(budget, results)(k)
  {
    PastAdds(budget, results, k);
  }

  lemma PastStays(budget: int, results: seq<(string, string)>, m: nat, n: nat)
    requires m <= n <= |results| && Spent(budget, results, m) > budget
    ensures Spent(budget, results, n) == Spent(budget, results, m)
  {
    forall k: nat | m <= k < n && Counter(budget, results)(k) > budget
      ensures Counter(budget, results)(k + 1) == Counter(budget, results)(k)
    {
      CounterSettles(budget, results, k);
    }
    Settles(Counter(budget, results), budget, m, n);
  }

  /** A cut pushes the counter past the budget, where it stays. */
  lemma CutStays(budget: int, results: seq<(string, string)>, k: nat, n: nat)
    requires k < n <= |results| && CutAt(budget, results, k)
    ensures Spent(budget, results, n) == Spent(budget, results, k + 1) > budget
  {
    CutOvershoots(budget, results, k);
    PastStays(budget, results, k + 1, n);
  }

  /** At most one result of an iteration is cut to a head and tail. */
  lemma CutOnce(budget: int, results: seq<(string, string)>, j: nat, k: nat)
    requires j < k < |results| && CutAt(budget, results, j)
    ensures !CutAt(budget, results, k)
  {
    CutStays(budget, results, j, k);
  }

  lemma CutTotal(budget: int, results: seq<(string, string)>, k: nat)
    requires k < |results| && CutAt(budget, results, k)
    ensures Spent(budget, results, |results|) == Overshot(budget, results, k) > Max(0, budget)
  {
    CutOvershoots(budget, results, k);
    CutStays(budget, results, k, |results|);
  }

  /** The counter of one iteration passes its budget exactly when a result has been cut
      to a head and tail, and then by that cut's marker, less one for an odd room. */
  lemma ClampBudget(budget: int, results: seq<(string, string)>)
    ensures Spent(budget, results, |results|) > Max(0, budget) <==> exists k :: 0 <= k < |results| && CutAt(budget, results, k)
    ensures forall k :: 0 <= k < |results| && CutAt(budget, results, k) ==>
      Spent(budget, results, |results|) == Overshot(budget, results, k)
  {
    if k :| 0 <= k < |results| && CutAt(budget, results, k) {
      CutTotal(budget, results, k);
    } else {
      UncutFits(budget, results, |results|);
    }
    forall k | 0 <= k < |results| && CutAt(budget, results, k)
      ensures Spent(budget, results, |results|) == Overshot(budget, results, k)
    {
      CutTotal(budget, results, k);
    }
  }

  /** The text that the first `k` results of an iteration put into the turn. */
  function Appended(budget: int, results: seq<(string, string)>, k: nat): nat
    requires k <= |results|
  {
    if k == 0 then 0
    else
      Appended(budget, results, k - 1)
      + |Clamp(budget, Spent(budget, results, k - 1), results[k - 1].1, results[k - 1].0).0|
  }

  /** Whether the result at `k` is replaced by a stub. */
  predicate StubAt(budget: int, results: seq<(string, string)>, k: nat)
    requires k < |results|
  {
    var room := budget - Spent(budget, results, k);
    |results[k].1| > room && room < STUB_FLOOR_CHARS
  }

  /** The stubs among the first `k` results, which the counter leaves out. */
  function StubChars(budget: int, results: seq<(string, string)>, k: nat): nat
    requires k <= |results|
  {
    if k == 0 then 0
    else
      StubChars(budget, results, k - 1)
      + (if StubAt(budget, results, k - 1) then |Stub(Some(results[k - 1].0), |results[k - 1].1|, CLAMP_REASON)| else 0)
  }

  lemma {:induction false} AppendedSplits(budget: int, results: seq<(string, string)>, k: nat)
    requires k <= |results|
    ensures Appended(budget, results, k) == Spent(budget, results, k) + StubChars(budget, results, k)
  {
    if k > 0 {
      AppendedSplits(budget, results, k - 1);
    }
  }

  /** What an iteration appends is within its budget but for one marker and the stubs. */
  lemma AppendedBudget(budget: int, results: seq<(string, string)>)
    ensures var n := |results|;
      && ((forall k :: 0 <= k < n ==> !CutAt(budget, results, k)) ==>
            Appended(budget, results, n) <= Max(0, budget) + StubChars(budget, results, n))
      && forall k :: 0 <= k < n && CutAt(budget, results, k) ==>
           Appended(budget, results, n) <= budget + MarkerChars(budget, results, k) + StubChars(budget, results, n)
  {
    ClampBudget(budget, results);
    AppendedSplits(budget, results, |results|);
  }

  /** Results of ten characters, for a tool without a name. */
  function Tens(n: nat): seq<(string, string)> {
    seq(n, _ => ("", "0123456789"))
  }

  /** The stubs alone pass any bound: without a budget such results are never cut and
      never counted, and each still appends a stub. */
  lemma {:induction false} StubsUncounted(n: nat, k: nat)
    requires k <= n
    ensures Spent(0, Tens(n), k) == 0 && Appended(0, Tens(n), k) >= 50 * k
    ensures k < n ==> !CutAt(0, Tens(n), k)
    decreases k
  {
    if k > 0 {
      StubsUncounted(n, k - 1);
      assert |CLAMP_REASON| == 32;
      assert |Stub(Some(""), 10, CLAMP_REASON)| >= 50;
    }
  }
}
