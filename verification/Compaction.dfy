/** One compaction pass of bot/agent/compaction.py: strip stale notes, split the
    turn into iterations, keep a recent tail, replace or elide the rest. */
module Compaction {
  import opened Wrappers
  import opened Transcript
  import opened Truncation

  datatype Config = Config(triggerTokens: int, keepRecentIterations: int, keepRecentTokens: int)

  /** The fixed texts of notes and reminders. `restate` gives the text of the
      request reminder, none for a request without text. */
  datatype Texts = Texts(
    notePrefix: string,
    fallbackBody: string,
    noSummaryBody: string,
    reminderPrefix: string,
    restate: Message -> Option<string>)

  /** The source's texts: they differ in their second character, so no reminder
      looks like a note, and the two bodies start with a parenthesis. */
  ghost predicate Distinct(t: Texts) {
    && |t.notePrefix| >= 2 && |t.reminderPrefix| >= 2 && t.notePrefix[1] != t.reminderPrefix[1]
  }

  predicate StartsWith(m: Message, prefix: string) {
    m.role.User? && m.parts != [] && prefix <= PartChars(m.parts[0])
  }

  predicate IsRefreshNote(t: Texts, m: Message) {
    StartsWith(m, t.notePrefix + t.fallbackBody) || StartsWith(m, t.notePrefix + t.noSummaryBody)
  }

  predicate IsReminder(t: Texts, m: Message) {
    StartsWith(m, t.reminderPrefix)
  }

  predicate IsSummaryNote(t: Texts, m: Message) {
    StartsWith(m, t.notePrefix) && !IsRefreshNote(t, m)
  }

  /** The text of a message with one. */
  function TextOf(m: Message): string {
    if m.parts == [] then "" else PartChars(m.parts[0])
  }

  /** A message that the conversation loop itself appends. */
  predicate Ordinary(t: Texts, m: Message) {
    !StartsWith(m, t.notePrefix) && !IsReminder(t, m)
  }

  /** `note_message`; `checklist` is the rendered plan, empty without a live plan. */
  function Note(t: Texts, body: string, checklist: string): Message {
    TextMessage(User, t.notePrefix + body + checklist)
  }

  function Reminder(t: Texts, user: Message): seq<Message> {
    match t.restate(user)
    case None => []
    case Some(text) => [TextMessage(User, t.reminderPrefix + text)]
  }

  // ----- stripping

  predicate Stale(t: Texts, m: Message) {
    IsRefreshNote(t, m) || IsReminder(t, m)
  }

  function Strip(t: Texts, ms: seq<Message>): seq<Message> {
    if ms == [] then [] else
      (if Stale(t, ms[0]) then [] else [ms[0]]) + Strip(t, ms[1..])
  }

  lemma {:induction false} StripConcat(t: Texts, a: seq<Message>, b: seq<Message>)
    ensures Strip(t, a + b) == Strip(t, a) + Strip(t, b)
  {
    if a == [] {
      assert a + b == b;
    } else {
      assert (a + b)[1..] == a[1..] + b;
      StripConcat(t, a[1..], b);
    }
  }

  lemma {:induction false} StripNothing(t: Texts, ms: seq<Message>)
    requires forall m :: m in ms ==> !Stale(t, m)
    ensures Strip(t, ms) == ms
  {
    if ms != [] {
      StripNothing(t, ms[1..]);
    }
  }

  lemma {:induction false} StripElems(t: Texts, ms: seq<Message>)
    ensures forall m :: m in Strip(t, ms) <==> m in ms && !Stale(t, m)
  {
    if ms != [] {
      StripElems(t, ms[1..]);
      assert ms == [ms[0]] + ms[1..];
    }
  }

  /** Only user messages are stripped, so calls keep their results. */
  lemma {:induction false} StripWellFormed(t: Texts, ms: seq<Message>)
    requires WellFormed(ms)
    ensures WellFormed(Strip(t, ms))
    decreases |ms|
  {
    if ms != [] {
      var n := GroupSize(ms[0]);
      FirstGroup(ms);
      StripWellFormed(t, ms[n..]);
      StripConcat(t, ms[..n], ms[n..]);
      if ms[0].role.Assistant? {
        StripGroup(t, ms[..n]);
        GroupConcat(ms[..n], Strip(t, ms[n..]));
      } else {
        UserConcat(Strip(t, [ms[0]]), Strip(t, ms[n..]));
      }
    }
  }

  lemma FirstGroup(ms: seq<Message>)
    requires WellFormed(ms) && ms != []
    ensures var n := GroupSize(ms[0]);
      && n <= |ms| && ms == ms[..n] + ms[n..] && WellFormed(ms[n..]) && !ms[0].role.Tool?
      && (ms[0].role.Assistant? ==> AnswersAll(ms[..n][1..], ms[0].calls))
      && (ms[0].role.User? ==> ms[..n] == [ms[0]])
  {
    var n := GroupSize(ms[0]);
    GroupFits(ms);
    CutFront(ms, n);
  }

  lemma GroupFits(ms: seq<Message>)
    requires WellFormed(ms) && ms != []
    ensures var n := GroupSize(ms[0]);
      && n <= |ms| && WellFormed(ms[n..]) && !ms[0].role.Tool?
      && (ms[0].role.Assistant? ==> AnswersAll(ms[1..n], ms[0].calls))
  {
  }

  lemma CutFront(ms: seq<Message>, n: nat)
    requires 0 < n <= |ms|
    ensures ms == ms[..n] + ms[n..] && ms[..n][1..] == ms[1..n] && ms[..1] == [ms[0]]
  {
  }

  lemma StripGroup(t: Texts, group: seq<Message>)
    requires group != [] && group[0].role.Assistant? && AnswersAll(group[1..], group[0].calls)
    ensures Strip(t, group) == group
  {
    forall m | m in group ensures !Stale(t, m) {
      var i :| 0 <= i < |group| && group[i] == m;
      if i > 0 {
        assert Answers(group[1..][i - 1], group[0].calls[i - 1]);
      }
    }
    StripNothing(t, group);
  }

  lemma UserConcat(some: seq<Message>, rest: seq<Message>)
    requires |some| <= 1 && (some != [] ==> some[0].role.User?) && WellFormed(rest)
    ensures WellFormed(some + rest)
  {
    if some == [] {
      assert some + rest == rest;
    } else {
      assert (some + rest)[1..] == rest;
    }
  }

  lemma GroupConcat(group: seq<Message>, rest: seq<Message>)
    requires group != [] && group[0].role.Assistant? && |group| == GroupSize(group[0])
    requires AnswersAll(group[1..], group[0].calls) && WellFormed(rest)
    ensures WellFormed(group + rest)
  {
    assert (group + rest)[1..|group|] == group[1..];
    assert (group + rest)[|group|..] == rest;
  }

  // ----- iterations

  function Flatten(its: seq<seq<Message>>): seq<Message> {
    if its == [] then [] else Flatten(its[..|its| - 1]) + its[|its| - 1]
  }

  /** `split_iterations`: each assistant message starts a unit and takes what follows. */
  function Iterations(ms: seq<Message>): seq<seq<Message>> {
    if ms == [] then [] else
      var its := Iterations(ms[..|ms| - 1]);
      var m := ms[|ms| - 1];
      if m.role.Assistant? || its == [] then its + [[m]]
      else its[..|its| - 1] + [its[|its| - 1] + [m]]
  }

  method SplitIterations(ms: seq<Message>) returns (its: seq<seq<Message>>)
    ensures its == Iterations(ms)
  {
    its := [];
    for i := 0 to |ms|
      invariant its == Iterations(ms[..i])
    {
      var m := ms[i];
      assert ms[..i + 1][..i] == ms[..i];
      if m.role.Assistant? || its == [] {
        its := its + [[m]];
      } else {
        its := its[|its| - 1 := its[|its| - 1] + [m]];
      }
    }
    assert ms[..|ms|] == ms;
  }

  lemma FlattenSnoc(its: seq<seq<Message>>, it: seq<Message>)
    ensures Flatten(its + [it]) == Flatten(its) + it
  {
    assert (its + [it])[..|its|] == its;
  }

  lemma {:induction false} FlattenConcat(a: seq<seq<Message>>, b: seq<seq<Message>>)
    ensures Flatten(a + b) == Flatten(a) + Flatten(b)
    decreases |b|
  {
    if b == [] {
      assert a + b == a;
    } else {
      var n := |b| - 1;
      assert a + b == (a + b[..n]) + [b[n]];
      FlattenSnoc(a + b[..n], b[n]);
      FlattenConcat(a, b[..n]);
    }
  }

  /** Each unit has one message at least, and an assistant message exactly at its
      head; only the first unit may start with another message. */
  ghost predicate Units(its: seq<seq<Message>>) {
    && (forall i :: 0 <= i < |its| ==> its[i] != [] && (i > 0 ==> its[i][0].role.Assistant?))
    && (forall i, j :: 0 <= i < |its| && 0 < j < |its[i]| ==> !its[i][j].role.Assistant?)
  }

  lemma {:induction false} IterationsAreUnits(ms: seq<Message>)
    ensures Units(Iterations(ms))
  {
    if ms != [] {
      IterationsAreUnits(ms[..|ms| - 1]);
    }
  }

  lemma {:induction false} IterationsPartition(ms: seq<Message>)
    ensures Flatten(Iterations(ms)) == ms
  {
    if ms != [] {
      var front, m := ms[..|ms| - 1], ms[|ms| - 1];
      IterationsPartition(front);
      var its := Iterations(front);
      assert ms == front + [m];
      if m.role.Assistant? || its == [] {
        FlattenSnoc(its, [m]);
      } else {
        var n := |its| - 1;
        assert its == its[..n] + [its[n]];
        FlattenSnoc(its[..n], its[n]);
        FlattenSnoc(its[..n], its[n] + [m]);
      }
    }
  }

  lemma FlattenSplit(its: seq<seq<Message>>, k: nat)
    requires k <= |its|
    ensures Flatten(its[..k]) + Flatten(its[k..]) == Flatten(its)
  {
    assert its == its[..k] + its[k..];
    FlattenConcat(its[..k], its[k..]);
  }

  lemma UnitsCut(its: seq<seq<Message>>, k: nat)
    requires Units(its) && WellFormed(Flatten(its)) && k <= |its|
    ensures WellFormed(Flatten(its[..k])) && WellFormed(Flatten(its[k..]))
  {
    var a, b := Flatten(its[..k]), Flatten(its[k..]);
    FlattenSplit(its, k);
    if k == 0 {
      NothingFlat(its);
    } else {
      if k < |its| {
        FlattenHead(its[k..]);
      }
      WellFormedSplit(a, b);
    }
  }

  lemma NothingFlat(its: seq<seq<Message>>)
    ensures Flatten(its[..0]) == [] && its[0..] == its
  {
  }

  /** Cutting between units keeps both halves well formed. */
  lemma SplitWellFormed(ms: seq<Message>, k: nat)
    requires WellFormed(ms) && k <= |Iterations(ms)|
    ensures WellFormed(Flatten(Iterations(ms)[..k])) && WellFormed(Flatten(Iterations(ms)[k..]))
    ensures Flatten(Iterations(ms)[..k]) + Flatten(Iterations(ms)[k..]) == ms
  {
    IterationsPartition(ms);
    IterationsAreUnits(ms);
    FlattenSplit(Iterations(ms), k);
    UnitsCut(Iterations(ms), k);
  }

  lemma {:induction false} FlattenHead(its: seq<seq<Message>>)
    requires its != [] && its[0] != []
    ensures Flatten(its) != [] && Flatten(its)[0] == its[0][0]
  {
    var n := |its| - 1;
    if n > 0 {
      FlattenHead(its[..n]);
    } else {
      assert its[..0] == [];
    }
  }

  // ----- the kept tail

  function Cost(it: seq<Message>): nat {
    if it == [] then 0 else Cost(it[..|it| - 1]) + EstTokens(|Charged(it[|it| - 1])|)
  }

  /** What keeping the newest `k` units costs. */
  function TailCost(its: seq<seq<Message>>, k: nat): nat
    requires k <= |its|
  {
    if k == 0 then 0 else TailCost(its, k - 1) + Cost(its[|its| - k])
  }

  /** `k` is the number of units of the longest tail within the budget, or the
      floor if that is more. */
  ghost predicate LongestTail(its: seq<seq<Message>>, floor: nat, budget: int, k: nat) {
    var least := if floor < |its| then floor else |its|;
    && least <= k <= |its|
    && (k == least || TailCost(its, k) <= budget)
    && forall j :: k < j <= |its| ==> TailCost(its, j) > budget
  }

  lemma {:induction false} TailCostGrows(its: seq<seq<Message>>, j: nat, k: nat)
    requires j <= k <= |its|
    ensures TailCost(its, j) <= TailCost(its, k)
    decreases k
  {
    if j < k {
      TailCostGrows(its, j, k - 1);
    }
  }

  lemma LongestTailUnique(its: seq<seq<Message>>, floor: nat, budget: int, j: nat, k: nat)
    requires LongestTail(its, floor, budget, j) && LongestTail(its, floor, budget, k)
    ensures j == k
  {
  }

  /** `_keep_split`: the greedy walk from the newest unit is optimal. */
  method KeepSplit(config: Config, its: seq<seq<Message>>) returns (split: nat)
    ensures split <= |its|
    ensures LongestTail(its, Max(0, config.keepRecentIterations), config.keepRecentTokens, |its| - split)
  {
    var floor: nat := Max(0, config.keepRecentIterations);
    var budget := config.keepRecentTokens;
    var kept, spent := 0, 0;
    while kept < |its|
      invariant kept <= |its| && spent == TailCost(its, kept)
      invariant kept > floor ==> spent <= budget
    {
      var cost := Cost(its[|its| - kept - 1]);
      if kept >= floor && spent + cost > budget {
        forall j | kept < j <= |its| ensures TailCost(its, j) > budget {
          TailCostGrows(its, kept + 1, j);
        }
        return |its| - kept;
      }
      kept, spent := kept + 1, spent + cost;
    }
    return |its| - kept;
  }

  // ----- assembling the compacted turn

  /** `elide_prefix`. */
  function Elide(ms: seq<Message>): seq<Message> {
    if ms == [] then [] else Elide(ms[..|ms| - 1]) + [ElideOne(ms[|ms| - 1])]
  }

  function ElideOne(m: Message): Message {
    if m.role.Tool? then
      m.(parts := [Text(Some(HeadTail(ToolText(m.parts), ELIDE_KEEP_CHARS, m.toolName, "elided to save context")))])
    else m
  }

  lemma {:induction false} ElideKeeps(ms: seq<Message>)
    ensures OnlyToolBodies(ms, Elide(ms))
    ensures NamesFit(ms) ==> NamesFit(Elide(ms))
  {
    if ms != [] {
      ElideKeeps(ms[..|ms| - 1]);
      assert ms == ms[..|ms| - 1] + [ms[|ms| - 1]];
    }
  }

  function Middle(t: Texts, prefix: seq<Message>, checklist: string, summary: string): seq<Message> {
    if summary != "" then [Note(t, summary, checklist)]
    else Elide(prefix) + (if checklist != "" then [Note(t, t.fallbackBody, checklist)] else [])
  }

  predicate HadReminder(t: Texts, ms: seq<Message>) {
    exists m :: m in ms && IsReminder(t, m)
  }

  /** The working list that `_compact` builds when it summarizes away `split` units;
      an empty summary stands for a failed summarizer. */
  function Assemble(t: Texts, turn: seq<Message>, split: nat, checklist: string, summary: string): seq<Message>
    requires turn != [] && split <= |Iterations(Strip(t, turn[1..]))|
  {
    var body := Strip(t, turn[1..]);
    if split > 0 then
      [turn[0]] + Middle(t, Flatten(Iterations(body)[..split]), checklist, summary)
      + Flatten(Iterations(body)[split..]) + Reminder(t, turn[0])
    else
      [turn[0]] + body + (if checklist != "" then [Note(t, t.noSummaryBody, checklist)] else [])
      + (if HadReminder(t, turn[1..]) then Reminder(t, turn[0]) else [])
  }

  lemma AllUsers(ms: seq<Message>)
    requires |ms| <= 1 && forall m :: m in ms ==> m.role.User?
    ensures WellFormed(ms) && NamesFit(ms)
  {
  }

  lemma MiddleWellFormed(t: Texts, prefix: seq<Message>, checklist: string, summary: string)
    requires WellFormed(prefix)
    ensures WellFormed(Middle(t, prefix, checklist, summary))
  {
    if summary == "" {
      ElideKeeps(prefix);
      OnlyToolBodiesWellFormed(prefix, Elide(prefix));
      var note := if checklist != "" then [Note(t, t.fallbackBody, checklist)] else [];
      AllUsers(note);
      WellFormedConcat(Elide(prefix), note);
    }
  }

  /** On the summary, the elision and the no-summary path every call keeps exactly
      its results. */
  lemma AssembleWellFormed(t: Texts, turn: seq<Message>, split: nat, checklist: string, summary: string)
    requires turn != [] && turn[0].role.User? && WellFormed(turn)
    requires split <= |Iterations(Strip(t, turn[1..]))|
    ensures WellFormed(Assemble(t, turn, split, checklist, summary))
  {
    var body := Strip(t, turn[1..]);
    StripWellFormed(t, turn[1..]);
    SplitWellFormed(body, split);
    var reminder := Reminder(t, turn[0]);
    AllUsers([turn[0]]);
    AllUsers(reminder);
    if split > 0 {
      var middle, kept := Middle(t, Flatten(Iterations(body)[..split]), checklist, summary), Flatten(Iterations(body)[split..]);
      MiddleWellFormed(t, Flatten(Iterations(body)[..split]), checklist, summary);
      WellFormedConcat([turn[0]], middle);
      WellFormedConcat([turn[0]] + middle, kept);
      WellFormedConcat([turn[0]] + middle + kept, reminder);
    } else {
      var note := if checklist != "" then [Note(t, t.noSummaryBody, checklist)] else [];
      var last := if HadReminder(t, turn[1..]) then reminder else [];
      AllUsers(note);
      AllUsers(last);
      WellFormedConcat([turn[0]], body);
      WellFormedConcat([turn[0]] + body, note);
      WellFormedConcat([turn[0]] + body + note, last);
    }
  }

  lemma NamesFitConcat(a: seq<Message>, b: seq<Message>)
    ensures NamesFit(a + b) <==> NamesFit(a) && NamesFit(b)
  {
    forall m | m in a || m in b ensures m in a + b {
    }
  }

  predicate IsUserText(m: Message) {
    m.role.User? && |m.parts| == 1 && m.parts[0].Text? && m.parts[0].text.Some? && m.calls == []
  }

  /** A message of the turn, perhaps elided, or a text that the pass adds. */
  ghost predicate FromTurn(turn: seq<Message>, m: Message) {
    m in turn || IsUserText(m) || exists o :: o in turn && m == ElideOne(o)
  }

  ghost predicate AllFromTurn(turn: seq<Message>, ms: seq<Message>) {
    forall m :: m in ms ==> FromTurn(turn, m)
  }

  lemma FromTurnConcat(turn: seq<Message>, a: seq<Message>, b: seq<Message>)
    requires AllFromTurn(turn, a) && AllFromTurn(turn, b)
    ensures AllFromTurn(turn, a + b)
  {
  }

  lemma {:induction false} ElidedFrom(ms: seq<Message>)
    ensures forall m :: m in Elide(ms) ==> exists o :: o in ms && m == ElideOne(o)
  {
    if ms != [] {
      ElidedFrom(ms[..|ms| - 1]);
    }
  }

  lemma BodyFromTurn(t: Texts, turn: seq<Message>, split: nat)
    requires turn != [] && split <= |Iterations(Strip(t, turn[1..]))|
    ensures var its := Iterations(Strip(t, turn[1..]));
      && (forall m :: m in Strip(t, turn[1..]) ==> m in turn)
      && (forall m :: m in Flatten(its[..split]) ==> m in turn) && (forall m :: m in Flatten(its[split..]) ==> m in turn)
  {
    var body := Strip(t, turn[1..]);
    StripElems(t, turn[1..]);
    IterationsPartition(body);
    FlattenSplit(Iterations(body), split);
    forall m | m in body ensures m in turn {
      assert m in turn[1..];
    }
  }

  /** A pass adds only texts to what it takes from the turn. */
  lemma AssembleFromTurn(t: Texts, turn: seq<Message>, split: nat, checklist: string, summary: string)
    requires turn != [] && split <= |Iterations(Strip(t, turn[1..]))|
    ensures AllFromTurn(turn, Assemble(t, turn, split, checklist, summary))
  {
    var body := Strip(t, turn[1..]);
    var prefix, kept := Flatten(Iterations(body)[..split]), Flatten(Iterations(body)[split..]);
    BodyFromTurn(t, turn, split);
    ElidedFrom(prefix);
    if split > 0 {
      var middle := Middle(t, prefix, checklist, summary);
      assert AllFromTurn(turn, middle);
      FromTurnConcat(turn, [turn[0]], middle);
      FromTurnConcat(turn, [turn[0]] + middle, kept);
      FromTurnConcat(turn, [turn[0]] + middle + kept, Reminder(t, turn[0]));
    } else {
      var note := if checklist != "" then [Note(t, t.noSummaryBody, checklist)] else [];
      var last := if HadReminder(t, turn[1..]) then Reminder(t, turn[0]) else [];
      FromTurnConcat(turn, [turn[0]], body);
      FromTurnConcat(turn, [turn[0]] + body, note);
      FromTurnConcat(turn, [turn[0]] + body + note, last);
    }
  }

  lemma FromTurnKeeps(turn: seq<Message>, ms: seq<Message>)
    requires AllFromTurn(turn, ms)
    ensures NamesFit(turn) ==> NamesFit(ms)
    ensures AllWhole(turn) ==> AllWhole(ms)
  {
    forall m | m in ms
      ensures NamesFit(turn) && m.role.Tool? ==> |Label(m.toolName)| <= MAX_LABEL_CHARS
      ensures AllWhole(turn) ==> Whole(m)
    {
      if m !in turn && !IsUserText(m) {
        var o :| o in turn && m == ElideOne(o);
      }
    }
  }

  lemma AssembleKeeps(t: Texts, turn: seq<Message>, split: nat, checklist: string, summary: string)
    requires turn != [] && split <= |Iterations(Strip(t, turn[1..]))|
    ensures NamesFit(turn) ==> NamesFit(Assemble(t, turn, split, checklist, summary))
    ensures AllWhole(turn) ==> AllWhole(Assemble(t, turn, split, checklist, summary))
  {
    AssembleFromTurn(t, turn, split, checklist, summary);
    FromTurnKeeps(turn, Assemble(t, turn, split, checklist, summary));
  }

  /** `_compact` up to the hard truncation. */
  method BuildWorking(config: Config, t: Texts, turn: seq<Message>, checklist: string, summarize: seq<Message> -> string)
    returns (working: seq<Message>, split: nat)
    requires turn != []
    ensures Kept(config, t, turn, split) && working == Summarized(t, turn, split, checklist, summarize)
  {
    var user, prior := turn[0], turn[1..];
    var body := Strip(t, prior);
    var its := SplitIterations(body);
    split := KeepSplit(config, its);
    if split > 0 {
      var prefix := Flatten(its[..split]);
      var summary := summarize(prefix);
      working := [user] + Middle(t, prefix, checklist, summary) + Flatten(its[split..]) + Reminder(t, user);
    } else {
      working := [user] + body;
      working := working + if checklist != "" then [Note(t, t.noSummaryBody, checklist)] else [];
      working := working + if HadReminder(t, prior) then Reminder(t, user) else [];
    }
  }

  /** `r` is an assembled turn after some rounds of truncation. */
  ghost predicate Pass(t: Texts, turn: seq<Message>, split: nat, checklist: string, summary: string, r: seq<Message>)
    requires turn != []
  {
    && split <= |Iterations(Strip(t, turn[1..]))|
    && exists n: nat :: r == Rounds(Assemble(t, turn, split, checklist, summary), n)
  }

  lemma PassCuts(t: Texts, turn: seq<Message>, split: nat, checklist: string, summary: string, r: seq<Message>)
    requires turn != [] && Pass(t, turn, split, checklist, summary, r)
    ensures OnlyToolBodies(Assemble(t, turn, split, checklist, summary), r)
    ensures AllWhole(Assemble(t, turn, split, checklist, summary)) ==> AllWhole(r)
  {
    var working := Assemble(t, turn, split, checklist, summary);
    var n: nat :| r == Rounds(working, n);
    RoundsKeepBodies(working, n);
    if AllWhole(working) {
      RoundsWhole(working, n);
    }
  }

  /** Every pass keeps the first message and the form, brings in no tool, and leaves every
      text a text. */
  lemma PassKeepsForm(t: Texts, turn: seq<Message>, split: nat, checklist: string, summary: string, r: seq<Message>)
    requires turn != [] && turn[0].role.User? && Pass(t, turn, split, checklist, summary, r)
    ensures r != [] && r[0] == turn[0]
    ensures WellFormed(turn) ==> WellFormed(r)
    ensures NamesFit(turn) ==> NamesFit(r)
    ensures AllWhole(turn) ==> AllWhole(r)
  {
    var working := Assemble(t, turn, split, checklist, summary);
    PassCuts(t, turn, split, checklist, summary, r);
    AssembleKeeps(t, turn, split, checklist, summary);
    if WellFormed(turn) {
      AssembleWellFormed(t, turn, split, checklist, summary);
      OnlyToolBodiesWellFormed(working, r);
    }
    if NamesFit(turn) {
      SameNames(working, r);
    }
  }

  /** What `_compact` promises: the units kept whole are the longest recent tail, and
      only tool bodies are cut further, by the truncation loop. */
  ghost predicate Compacted(config: Config, t: Texts, turn: seq<Message>, head: seq<Message>, system: string,
                            checklist: string, summarize: seq<Message> -> string, split: nat, r: seq<Message>)
    requires turn != []
  {
    && Kept(config, t, turn, split)
    && TruncatedTo(system, head, Summarized(t, turn, split, checklist, summarize), config.triggerTokens, r)
  }

  /** The pass summarizes away all but the longest recent tail. */
  ghost predicate Kept(config: Config, t: Texts, turn: seq<Message>, split: nat)
    requires turn != []
  {
    var its := Iterations(Strip(t, turn[1..]));
    && split <= |its|
    && LongestTail(its, Max(0, config.keepRecentIterations), config.keepRecentTokens, |its| - split)
  }

  ghost function Summarized(t: Texts, turn: seq<Message>, split: nat, checklist: string, summarize: seq<Message> -> string)
      : seq<Message>
    requires turn != [] && split <= |Iterations(Strip(t, turn[1..]))|
  {
    Assemble(t, turn, split, checklist, summarize(Flatten(Iterations(Strip(t, turn[1..]))[..split])))
  }

  /** The truncation loop ends on what the pass assembles. */
  ghost predicate PassEnds(config: Config, t: Texts, turn: seq<Message>, head: seq<Message>, system: string,
                           checklist: string, summarize: seq<Message> -> string)
    requires turn != []
  {
    forall split: nat :: Kept(config, t, turn, split) ==>
      Halts(system, head, Summarized(t, turn, split, checklist, summarize), config.triggerTokens)
  }

  /** It does so on every turn whose tool labels fit, whatever the summarizer returns. */
  lemma FittingPassEnds(config: Config, t: Texts, turn: seq<Message>, head: seq<Message>, system: string,
                        checklist: string, summarize: seq<Message> -> string)
    requires turn != [] && NamesFit(turn)
    ensures PassEnds(config, t, turn, head, system, checklist, summarize)
  {
    forall split: nat | Kept(config, t, turn, split)
      ensures Halts(system, head, Summarized(t, turn, split, checklist, summarize), config.triggerTokens)
    {
      AssembleKeeps(t, turn, split, checklist, summarize(Flatten(Iterations(Strip(t, turn[1..]))[..split])));
      FittingNamesHalt(system, head, Summarized(t, turn, split, checklist, summarize), config.triggerTokens);
    }
  }

  // ----- what a pass makes of the turn, list by list

  /** In place: tool results keep a head and a tail of their text. */
  ghost predicate ElidedTo(ms: seq<Message>, elided: seq<Message>) {
    && |elided| == |ms|
    && forall i :: 0 <= i < |ms| ==>
         elided[i] == if ms[i].role.Tool?
           then ms[i].(parts := [Text(Some(HeadTail(ToolText(ms[i].parts), 2048, ms[i].toolName, "elided to save context")))])
           else ms[i]
  }

  /** The turn is rebuilt from its request, what replaces `prefix`, the messages of `kept`
      word for word, and the restated request. With older messages to replace that is one
      note of the summary of exactly these and the checklist, or, without a summary, their
      elided form and the checklist's own note. */
  ghost predicate Rebuilt(t: Texts, turn: seq<Message>, prefix: seq<Message>, kept: seq<Message>, checklist: string,
                          summarize: seq<Message> -> string, working: seq<Message>)
    requires turn != []
  {
    var restated := match t.restate(turn[0])
      case None => []
      case Some(text) => [TextMessage(User, t.reminderPrefix + text)];
    if prefix == [] then
      working == [turn[0]] + kept
                 + (if checklist == "" then [] else [TextMessage(User, t.notePrefix + t.noSummaryBody + checklist)])
                 + (if exists m :: m in turn[1..] && StartsWith(m, t.reminderPrefix) then restated else [])
    else if summarize(prefix) != "" then
      working == [turn[0], TextMessage(User, t.notePrefix + summarize(prefix) + checklist)] + kept + restated
    else
      exists elided :: ElidedTo(prefix, elided) &&
        working == [turn[0]] + elided
                   + (if checklist == "" then [] else [TextMessage(User, t.notePrefix + t.fallbackBody + checklist)])
                   + kept + restated
  }

  /** The older messages and the kept ones are the turn after its request, without its stale
      notes and reminders; kept is the longest tail of whole units. */
  ghost predicate Divides(config: Config, t: Texts, turn: seq<Message>, prefix: seq<Message>, kept: seq<Message>)
    requires turn != []
  {
    && prefix + kept == Strip(t, turn[1..])
    && exists its, k: nat ::
         && Units(its) && Flatten(its) == prefix + kept
         && LongestTail(its, Max(0, config.keepRecentIterations), config.keepRecentTokens, k)
         && kept == Flatten(its[|its| - k..]) && prefix == Flatten(its[..|its| - k])
  }

  lemma {:induction false} ElideIsElided(ms: seq<Message>)
    ensures ElidedTo(ms, Elide(ms))
  {
    if ms != [] {
      ElideIsElided(ms[..|ms| - 1]);
      assert ms == ms[..|ms| - 1] + [ms[|ms| - 1]];
    }
  }

  lemma KeptDivides(config: Config, t: Texts, turn: seq<Message>, split: nat)
    requires turn != [] && Kept(config, t, turn, split)
    ensures var its := Iterations(Strip(t, turn[1..])); Divides(config, t, turn, Flatten(its[..split]), Flatten(its[split..]))
  {
    var body := Strip(t, turn[1..]);
    var its, k := Iterations(body), |Iterations(body)| - split;
    PartsOfBody(body, split);
    IterationsPartition(body);
    IterationsAreUnits(body);
    assert LongestTail(its, Max(0, config.keepRecentIterations), config.keepRecentTokens, k);
    assert |its| - k == split;
  }

  /** What the pass computes is that. */
  lemma SummarizedIsRebuilt(config: Config, t: Texts, turn: seq<Message>, split: nat, checklist: string,
                            summarize: seq<Message> -> string)
    requires turn != [] && Kept(config, t, turn, split)
    ensures var its := Iterations(Strip(t, turn[1..]));
      && Divides(config, t, turn, Flatten(its[..split]), Flatten(its[split..]))
      && Rebuilt(t, turn, Flatten(its[..split]), Flatten(its[split..]), checklist, summarize,
                 Summarized(t, turn, split, checklist, summarize))
  {
    KeptDivides(config, t, turn, split);
    RebuiltBySplit(t, turn, split, checklist, summarize);
  }

  lemma RebuiltBySplit(t: Texts, turn: seq<Message>, split: nat, checklist: string, summarize: seq<Message> -> string)
    requires turn != [] && split <= |Iterations(Strip(t, turn[1..]))|
    ensures var its := Iterations(Strip(t, turn[1..]));
      Rebuilt(t, turn, Flatten(its[..split]), Flatten(its[split..]), checklist, summarize,
              Summarized(t, turn, split, checklist, summarize))
  {
    var body := Strip(t, turn[1..]);
    var its := Iterations(body);
    var prefix, kept := Flatten(its[..split]), Flatten(its[split..]);
    PartsOfBody(body, split);
    if split > 0 {
      RebuiltAround(t, turn, prefix, kept, checklist, summarize);
    } else {
      assert prefix == [] && kept == body;
      RebuiltBehind(t, turn, body, checklist, summarize);
    }
  }

  lemma RebuiltBehind(t: Texts, turn: seq<Message>, body: seq<Message>, checklist: string, summarize: seq<Message> -> string)
    requires turn != []
    ensures Rebuilt(t, turn, [], body, checklist, summarize,
                    [turn[0]] + body + (if checklist != "" then [Note(t, t.noSummaryBody, checklist)] else [])
                    + (if HadReminder(t, turn[1..]) then Reminder(t, turn[0]) else []))
  {
  }

  lemma RebuiltAround(t: Texts, turn: seq<Message>, prefix: seq<Message>, kept: seq<Message>, checklist: string,
                      summarize: seq<Message> -> string)
    requires turn != [] && prefix != []
    ensures Rebuilt(t, turn, prefix, kept, checklist, summarize,
                    [turn[0]] + Middle(t, prefix, checklist, summarize(prefix)) + kept + Reminder(t, turn[0]))
  {
    if summarize(prefix) != "" {
      Grouped([turn[0]], [Note(t, summarize(prefix), checklist)], [], kept, Reminder(t, turn[0]));
    } else {
      ElideIsElided(prefix);
      var note := if checklist != "" then [Note(t, t.fallbackBody, checklist)] else [];
      Grouped([turn[0]], Elide(prefix), note, kept, Reminder(t, turn[0]));
    }
  }

  lemma Grouped(a: seq<Message>, b: seq<Message>, c: seq<Message>, d: seq<Message>, e: seq<Message>)
    ensures a + (b + c) + d + e == a + b + c + d + e
  {
    assert a + (b + c) == a + b + c;
  }

  /** `_compact`, whenever its truncation ends; an empty turn comes back as it is. */
  method Compact(config: Config, t: Texts, turn: seq<Message>, head: seq<Message>, system: string,
                 checklist: string, summarize: seq<Message> -> string)
    returns (r: seq<Message>, split: nat)
    requires turn != [] ==> PassEnds(config, t, turn, head, system, checklist, summarize)
    ensures turn == [] ==> r == []
    ensures turn != [] ==> Compacted(config, t, turn, head, system, checklist, summarize, split, r)
    ensures turn != [] ==> exists prefix, kept, working ::
      && Divides(config, t, turn, prefix, kept) && Rebuilt(t, turn, prefix, kept, checklist, summarize, working)
      && TruncatedTo(system, head, working, config.triggerTokens, r)
    ensures turn != [] ==> FitsOrFloored(system, head, r, config.triggerTokens)
    ensures turn != [] && turn[0].role.User? ==> r != [] && r[0] == turn[0] && (WellFormed(turn) ==> WellFormed(r))
  {
    if turn == [] {
      return turn, 0;
    }
    var working;
    working, split := BuildWorking(config, t, turn, checklist, summarize);
    r := HardTruncate(system, head, working, config.triggerTokens);
    SummarizedIsRebuilt(config, t, turn, split, checklist, summarize);
    if turn[0].role.User? {
      PassKeepsForm(t, turn, split, checklist, summarize(Flatten(Iterations(Strip(t, turn[1..]))[..split])), r);
    }
  }

  // ----- notes and reminders over a whole turn

  function Count(p: Message -> bool, ms: seq<Message>): nat {
    if ms == [] then 0 else (if p(ms[0]) then 1 else 0) + Count(p, ms[1..])
  }

  lemma {:induction false} CountConcat(p: Message -> bool, a: seq<Message>, b: seq<Message>)
    ensures Count(p, a + b) == Count(p, a) + Count(p, b)
  {
    if a == [] {
      assert a + b == b;
    } else {
      assert (a + b)[1..] == a[1..] + b;
      CountConcat(p, a[1..], b);
    }
  }

  lemma {:induction false} CountNone(p: Message -> bool, ms: seq<Message>)
    requires forall m :: m in ms ==> !p(m)
    ensures Count(p, ms) == 0
  {
    if ms != [] {
      CountNone(p, ms[1..]);
    }
  }

  /** Cutting tool bodies changes no count of user messages. */
  lemma {:induction false} CountSameUsers(p: Message -> bool, a: seq<Message>, b: seq<Message>)
    requires OnlyToolBodies(a, b) && forall m :: p(m) ==> m.role.User?
    ensures Count(p, a) == Count(p, b)
  {
    if a != [] {
      forall i | 0 <= i < |a[1..]| ensures a[1..][i] == a[i + 1] && b[1..][i] == b[i + 1] {}
      CountSameUsers(p, a[1..], b[1..]);
    }
  }

  function Reminders(t: Texts): Message -> bool { m => IsReminder(t, m) }
  function Refreshes(t: Texts): Message -> bool { m => IsRefreshNote(t, m) }
  function Summaries(t: Texts): Message -> bool { m => IsSummaryNote(t, m) }

  /** After the triggering request there is at most one reminder and one refresh
      note, and a summary note only right at the start: notes do not pile up. */
  ghost predicate Tidy(t: Texts, turn: seq<Message>) {
    && turn != []
    && Count(Reminders(t), turn[1..]) <= 1
    && Count(Refreshes(t), turn[1..]) <= 1
    && (|turn| >= 2 ==> Count(Summaries(t), turn[2..]) == 0)
  }

  /** The summarizer does not return one of the reserved bodies. */
  predicate OrdinarySummary(t: Texts, checklist: string, summary: string) {
    !(t.fallbackBody <= summary + checklist) && !(t.noSummaryBody <= summary + checklist)
  }

  /** One change of the in-flight turn: the loop appends messages, or a pass compacts. */
  ghost predicate TurnStep(t: Texts, a: seq<Message>, b: seq<Message>) {
    || (exists more :: b == a + more && forall m :: m in more ==> Ordinary(t, m))
    || (a != [] && exists split: nat, checklist, summary ::
          OrdinarySummary(t, checklist, summary) && Pass(t, a, split, checklist, summary, b))
  }

  lemma {:induction false} StripCounts(t: Texts, ms: seq<Message>)
    requires Distinct(t)
    ensures Count(Reminders(t), Strip(t, ms)) == 0 && Count(Refreshes(t), Strip(t, ms)) == 0
    ensures Count(Summaries(t), Strip(t, ms)) == Count(Summaries(t), ms)
  {
    if ms != [] {
      StripCounts(t, ms[1..]);
      var first := if Stale(t, ms[0]) then [] else [ms[0]];
      CountConcat(Reminders(t), first, Strip(t, ms[1..]));
      CountConcat(Refreshes(t), first, Strip(t, ms[1..]));
      CountConcat(Summaries(t), first, Strip(t, ms[1..]));
      if IsReminder(t, ms[0]) {
        NotBoth(t, ms[0]);
      }
    }
  }

  lemma NotBoth(t: Texts, m: Message)
    requires Distinct(t) && IsReminder(t, m)
    ensures !StartsWith(m, t.notePrefix) && !IsRefreshNote(t, m)
  {
    var text := PartChars(m.parts[0]);
    assert text[1] == t.reminderPrefix[1];
    assert t.notePrefix <= t.notePrefix + t.fallbackBody && t.notePrefix <= t.notePrefix + t.noSummaryBody;
  }

  ghost predicate HeadOnly(t: Texts, ms: seq<Message>) {
    ms == [] || Count(Summaries(t), ms[1..]) == 0
  }

  lemma HeadOnlyConcat(t: Texts, a: seq<Message>, b: seq<Message>)
    requires HeadOnly(t, a) && Count(Summaries(t), b) == 0
    ensures HeadOnly(t, a + b)
  {
    if a == [] {
      assert a + b == b;
    } else {
      assert (a + b)[1..] == a[1..] + b;
      CountConcat(Summaries(t), a[1..], b);
    }
  }

  /** The stripped body has no stale message, and a summary note only at its head. */
  lemma BodyTidy(t: Texts, rest: seq<Message>)
    requires Distinct(t) && HeadOnly(t, rest)
    ensures HeadOnly(t, Strip(t, rest))
    ensures Count(Reminders(t), Strip(t, rest)) == 0 && Count(Refreshes(t), Strip(t, rest)) == 0
  {
    StripCounts(t, rest);
    if rest != [] {
      StripCounts(t, rest[1..]);
      if Stale(t, rest[0]) {
        assert Strip(t, rest) == Strip(t, rest[1..]);
      } else {
        assert Strip(t, rest)[1..] == Strip(t, rest[1..]);
      }
    }
  }

  /** The counts of what a pass adds. */
  lemma NoteCounts(t: Texts, body: string, checklist: string)
    requires Distinct(t)
    ensures var note := Note(t, body, checklist);
      && !IsReminder(t, note)
      && (t.fallbackBody <= body || t.noSummaryBody <= body ==> IsRefreshNote(t, note) && !IsSummaryNote(t, note))
      && (OrdinarySummary(t, checklist, body) ==> !IsRefreshNote(t, note))
  {
    var text := t.notePrefix + body + checklist;
    assert text == t.notePrefix + (body + checklist);
    assert text[1] == t.notePrefix[1];
    PrefixCancel(t.notePrefix, t.fallbackBody, body + checklist);
    PrefixCancel(t.notePrefix, t.noSummaryBody, body + checklist);
    if t.fallbackBody <= body { assert t.fallbackBody <= body + checklist; }
    if t.noSummaryBody <= body { assert t.noSummaryBody <= body + checklist; }
  }

  lemma PrefixCancel(p: string, a: string, b: string)
    ensures p + a <= p + b <==> a <= b
  {
    if a <= b {
      assert p + b == (p + a) + b[|a|..];
    }
    if p + a <= p + b {
      assert (p + a)[|p|..] == a && (p + b)[|p|..] == b;
      forall i | 0 <= i < |a| ensures a[i] == b[i] {
        assert (p + a)[|p| + i] == (p + b)[|p| + i];
      }
    }
  }

  lemma ReminderCounts(t: Texts, user: Message)
    requires Distinct(t)
    ensures Count(Reminders(t), Reminder(t, user)) <= 1
    ensures Count(Refreshes(t), Reminder(t, user)) == 0 && Count(Summaries(t), Reminder(t, user)) == 0
  {
    if Reminder(t, user) != [] {
      NotBoth(t, Reminder(t, user)[0]);
    }
  }

  lemma BodySplit(t: Texts, body: seq<Message>, split: nat)
    requires split <= |Iterations(body)| && HeadOnly(t, body)
    requires Count(Reminders(t), body) == 0 && Count(Refreshes(t), body) == 0
    ensures var prefix, kept := Flatten(Iterations(body)[..split]), Flatten(Iterations(body)[split..]);
      && HeadOnly(t, prefix) && (split > 0 ==> Count(Summaries(t), kept) == 0)
      && Count(Reminders(t), prefix) == 0 && Count(Refreshes(t), prefix) == 0
      && Count(Reminders(t), kept) == 0 && Count(Refreshes(t), kept) == 0
  {
    var prefix, kept := Flatten(Iterations(body)[..split]), Flatten(Iterations(body)[split..]);
    PartsOfBody(body, split);
    CountConcat(Reminders(t), prefix, kept);
    CountConcat(Refreshes(t), prefix, kept);
    if split > 0 {
      CountConcat(Summaries(t), prefix[1..], kept);
    }
  }

  lemma TailOfConcat(a: seq<Message>, b: seq<Message>)
    requires a != []
    ensures (a + b)[1..] == a[1..] + b
  {
  }

  lemma PartsOfBody(body: seq<Message>, split: nat)
    requires split <= |Iterations(body)|
    ensures var prefix, kept := Flatten(Iterations(body)[..split]), Flatten(Iterations(body)[split..]);
      && body == prefix + kept
      && (split == 0 ==> prefix == [])
      && (split > 0 ==> prefix != [] && body[1..] == prefix[1..] + kept)
  {
    var its := Iterations(body);
    IterationsPartition(body);
    FlattenSplit(its, split);
    if split > 0 {
      IterationsAreUnits(body);
      FlattenHead(its[..split]);
      TailOfConcat(Flatten(its[..split]), Flatten(its[split..]));
    } else {
      NothingFlat(its);
    }
  }

  lemma MiddleTidy(t: Texts, prefix: seq<Message>, checklist: string, summary: string)
    requires Distinct(t) && OrdinarySummary(t, checklist, summary) && HeadOnly(t, prefix)
    requires Count(Reminders(t), prefix) == 0 && Count(Refreshes(t), prefix) == 0
    ensures var middle := Middle(t, prefix, checklist, summary);
      HeadOnly(t, middle) && Count(Reminders(t), middle) == 0 && Count(Refreshes(t), middle) <= 1
  {
    NoteCounts(t, summary, checklist);
    NoteCounts(t, t.fallbackBody, checklist);
    if summary == "" {
      var elided := Elide(prefix);
      var note := if checklist != "" then [Note(t, t.fallbackBody, checklist)] else [];
      ElideKeeps(prefix);
      CountSameUsers(Reminders(t), prefix, elided);
      CountSameUsers(Refreshes(t), prefix, elided);
      if prefix != [] {
        CountSameUsers(Summaries(t), prefix[1..], elided[1..]);
      }
      CountConcat(Reminders(t), elided, note);
      CountConcat(Refreshes(t), elided, note);
      HeadOnlyConcat(t, elided, note);
    }
  }

  lemma JoinLists(user: Message, a: seq<Message>, b: seq<Message>, c: seq<Message>)
    ensures var all := [user] + a + b + c;
      && all[1..] == (a + b) + c
      && (|all| >= 2 ==> all[2..] == ((a + b) + c)[1..])
  {
    assert ([user] + a + b + c)[1..] == (a + b) + c;
  }

  lemma CountJoin(p: Message -> bool, a: seq<Message>, b: seq<Message>, c: seq<Message>)
    ensures Count(p, (a + b) + c) == Count(p, a) + Count(p, b) + Count(p, c)
  {
    CountConcat(p, a + b, c);
    CountConcat(p, a, b);
  }

  /** The turn after its first message, as three joined parts. */
  lemma JoinTidy(t: Texts, user: Message, a: seq<Message>, b: seq<Message>, c: seq<Message>)
    requires HeadOnly(t, a) && Count(Summaries(t), b) == 0 && Count(Summaries(t), c) == 0
    requires Count(Reminders(t), a) + Count(Reminders(t), b) + Count(Reminders(t), c) <= 1
    requires Count(Refreshes(t), a) + Count(Refreshes(t), b) + Count(Refreshes(t), c) <= 1
    ensures Tidy(t, [user] + a + b + c)
  {
    JoinLists(user, a, b, c);
    CountJoin(Reminders(t), a, b, c);
    CountJoin(Refreshes(t), a, b, c);
    HeadOnlyConcat(t, a, b);
    HeadOnlyConcat(t, a + b, c);
  }

  /** A pass leaves a tidy turn tidy, whatever the summarizer did. */
  lemma AssembleTidy(t: Texts, turn: seq<Message>, split: nat, checklist: string, summary: string)
    requires Distinct(t) && Tidy(t, turn) && OrdinarySummary(t, checklist, summary)
    requires split <= |Iterations(Strip(t, turn[1..]))|
    ensures Tidy(t, Assemble(t, turn, split, checklist, summary))
  {
    var body := Strip(t, turn[1..]);
    assert |turn| >= 2 ==> turn[1..][1..] == turn[2..];
    BodyTidy(t, turn[1..]);
    BodySplit(t, body, split);
    ReminderCounts(t, turn[0]);
    var reminder := Reminder(t, turn[0]);
    if split > 0 {
      var prefix, kept := Flatten(Iterations(body)[..split]), Flatten(Iterations(body)[split..]);
      MiddleTidy(t, prefix, checklist, summary);
      JoinTidy(t, turn[0], Middle(t, prefix, checklist, summary), kept, reminder);
    } else {
      NoteCounts(t, t.noSummaryBody, checklist);
      JoinTidy(t, turn[0], body, if checklist != "" then [Note(t, t.noSummaryBody, checklist)] else [],
               if HadReminder(t, turn[1..]) then reminder else []);
    }
  }

  lemma CutTidy(t: Texts, a: seq<Message>, b: seq<Message>)
    requires Tidy(t, a) && OnlyToolBodies(a, b)
    ensures Tidy(t, b)
  {
    CountSameUsers(Reminders(t), a[1..], b[1..]);
    CountSameUsers(Refreshes(t), a[1..], b[1..]);
    if |a| >= 2 {
      CountSameUsers(Summaries(t), a[2..], b[2..]);
    }
  }

  lemma AppendTidy(t: Texts, turn: seq<Message>, more: seq<Message>)
    requires Distinct(t) && Tidy(t, turn) && forall m :: m in more ==> Ordinary(t, m)
    ensures Tidy(t, turn + more)
  {
    forall m | m in more ensures !IsReminder(t, m) && !IsRefreshNote(t, m) && !IsSummaryNote(t, m) {
      assert t.notePrefix <= t.notePrefix + t.fallbackBody && t.notePrefix <= t.notePrefix + t.noSummaryBody;
    }
    CountNone(Reminders(t), more);
    CountNone(Refreshes(t), more);
    CountNone(Summaries(t), more);
    assert |turn| >= 2 ==> turn[1..][1..] == turn[2..];
    assert [turn[0]] + turn[1..] + more + [] == turn + more;
    JoinTidy(t, turn[0], turn[1..], more, []);
  }

  /** Over any interleaving of appends and passes a turn that began as one request
      holds at most one reminder and one refresh note, and at most one summary
      note, which stands right after the request. */
  lemma {:induction false} NotesRollForward(t: Texts, turns: seq<seq<Message>>)
    requires Distinct(t) && turns != [] && |turns[0]| == 1
    requires forall i :: 0 <= i < |turns| - 1 ==> TurnStep(t, turns[i], turns[i + 1])
    ensures Tidy(t, turns[|turns| - 1])
  {
    var n := |turns| - 1;
    if n > 0 {
      NotesRollForward(t, turns[..n]);
      var a, b := turns[n - 1], turns[n];
      assert TurnStep(t, a, b);
      if more :| b == a + more && forall m :: m in more ==> Ordinary(t, m) {
        AppendTidy(t, a, more);
      } else {
        var split: nat, checklist, summary :|
          OrdinarySummary(t, checklist, summary) && Pass(t, a, split, checklist, summary, b);
        AssembleTidy(t, a, split, checklist, summary);
        PassCuts(t, a, split, checklist, summary, b);
        CutTidy(t, Assemble(t, a, split, checklist, summary), b);
      }
    }
  }
}
