/** The ReAct loop of bot/agent/core.py: what it appends to the turn, at every
    point where the deadline can fire. */
module Conversation {
  import opened Wrappers
  import opened Sequences
  import opened Transcript
  import opened Context
  import C = Compaction
  import T = Truncation

  /** What a dispatched tool call did. A terminal handoff names the tools that may
      still run after it. */
  datatype ToolOutcome = ToolOutcome(text: string, handoff: Option<set<string>>, planChanged: bool, substantive: bool)

  /** `cutOff` says that the answer ended at its length limit, `assets` how many images it
      generated. */
  datatype Chat =
    | Answer(content: string, calls: seq<Call>, raw: string, cutOff: bool, assets: nat)
    | ChatFailed(overflow: bool)

  /** The awaits at which the deadline is checked in iteration `i`. */
  datatype Moment =
    | Polling(i: nat) | Thinking(i: nat) | Chatting(i: nat) | Emergency(i: nat) | Retrying(i: nat)
    | Accounting(i: nat) | Narrating(i: nat)
    | BeforeTool(i: nat, k: nat) | DuringTool(i: nat, k: nat) | PlanUpdate(i: nat, k: nat) | AfterTool(i: nat, k: nat)
    | AfterBatch(i: nat) | Compacting(i: nat) | Checkpointing(i: nat)

  /** Everything foreign: provider, tools, clock, steering input and compactor.
      `cut` is the handoff in force when the deadline cuts off a tool that runs
      without one. A compactor returns none below its trigger. `embed` says whether an
      embed is queued as the reply. */
  datatype World = World(
    external: nat -> seq<string>,
    chat: nat -> Chat,
    retry: nat -> Chat,
    tool: (nat, nat) -> ToolOutcome,
    cut: (nat, nat) -> Option<set<string>>,
    viewImage: nat -> Option<string>,
    embed: nat -> bool,
    expired: Moment -> bool,
    outputBudget: Option<int>,
    compact: (nat, seq<Message>) -> Option<seq<Message>>,
    emergency: (nat, seq<Message>) -> seq<Message>,
    advisory: string,
    adviseAfter: int,
    mayAdvise: bool,
    strip: string -> string,
    timeoutText: string,
    skippedText: string,
    handoffText: string,
    fallbackText: string)

  // ----- one batch of tool calls

  /** The terminal handoff in force before call `k`. */
  function HandoffAt(w: World, i: nat, calls: seq<Call>, k: nat): Option<set<string>>
    requires k <= |calls|
  {
    if k == 0 then None
    else
      var before := HandoffAt(w, i, calls, k - 1);
      if Runs(before, calls[k - 1]) && w.tool(i, k - 1).handoff.Some? then w.tool(i, k - 1).handoff else before
  }

  /** The handoff in force when the deadline fires at call `k`. */
  function CutHandoff(w: World, i: nat, k: nat): Option<set<string>> {
    if w.expired(BeforeTool(i, k)) then None else w.cut(i, k)
  }

  /** The handoff in force after a batch of which `done` calls were answered; `cutOff`
      says that the deadline fired at the next one. */
  function HandoffAfter(w: World, i: nat, calls: seq<Call>, done: nat, cutOff: bool): Option<set<string>>
    requires done <= |calls|
  {
    if cutOff then CutHandoff(w, i, done) else HandoffAt(w, i, calls, done)
  }

  /** A call runs unless a handoff is in force that does not allow it. */
  predicate Runs(handoff: Option<set<string>>, call: Call) {
    handoff.None? || call.name in handoff.value
  }

  /** What call `k` returns: its tool's text, or a refusal after a handoff. */
  function RawText(w: World, i: nat, calls: seq<Call>, k: nat): string
    requires k < |calls|
  {
    if Runs(HandoffAt(w, i, calls, k), calls[k]) then w.tool(i, k).text else w.skippedText
  }

  function RawResults(w: World, i: nat, calls: seq<Call>): seq<(string, string)> {
    seq(|calls|, k requires 0 <= k < |calls| => (calls[k].name, RawText(w, i, calls, k)))
  }

  /** The result message of call `k`, clamped to the budget of its iteration. */
  function ResultAt(w: World, i: nat, calls: seq<Call>, k: nat): (m: Message)
    requires k < |calls|
    ensures Answers(m, calls[k]) && m.toolName == Some(calls[k].name)
  {
    var raw := RawResults(w, i, calls);
    ToolResult(calls[k],
      if w.outputBudget.None? then raw[k].1
      else T.Clamp(w.outputBudget.value, T.Spent(w.outputBudget.value, raw, k), raw[k].1, raw[k].0).0)
  }

  function Results(w: World, i: nat, calls: seq<Call>, n: nat): (r: seq<Message>)
    requires n <= |calls|
    ensures |r| == n && forall k :: 0 <= k < n ==> Answers(r[k], calls[k]) && r[k].toolName == Some(calls[k].name)
  {
    if n == 0 then [] else Results(w, i, calls, n - 1) + [ResultAt(w, i, calls, n - 1)]
  }

  function Ids(calls: seq<Call>): seq<string> {
    seq(|calls|, k requires 0 <= k < |calls| => calls[k].id)
  }

  /** `_append_missing_timeout_tool_results`: a result for every call whose id was
      not answered before the timeout. */
  function Missing(w: World, calls: seq<Call>, answered: set<string>): seq<Message> {
    if calls == [] then []
    else (if calls[0].id in answered then [] else [ToolResult(calls[0], w.timeoutText)])
         + Missing(w, calls[1..], answered)
  }

  /** The results behind an assistant message when `done` calls were answered
      before the deadline. */
  function Repaired(w: World, i: nat, calls: seq<Call>, done: nat): seq<Message>
    requires done <= |calls|
  {
    Results(w, i, calls, done) + Missing(w, calls, Before(Ids(calls), done))
  }

  // ----- one result per call

  /** The calls that messages answer. */
  function ResultIds(ms: seq<Message>): seq<Option<string>> {
    seq(|ms|, i requires 0 <= i < |ms| => ms[i].callId)
  }

  function Somes(ids: seq<string>): seq<Option<string>> {
    seq(|ids|, i requires 0 <= i < |ids| => Some(ids[i]))
  }

  function Unanswered(ids: seq<string>, answered: set<string>): seq<string> {
    if ids == [] then []
    else (if ids[0] in answered then [] else [ids[0]]) + Unanswered(ids[1..], answered)
  }

  /** The ids that get a result when `done` calls were answered in time. */
  function RepairedIds(ids: seq<string>, done: nat): seq<string>
    requires done <= |ids|
  {
    ids[..done] + Unanswered(ids, Before(ids, done))
  }

  /** The distinct ids in the order of their first call. */
  function Firsts(ids: seq<string>): seq<string> {
    if ids == [] then []
    else Firsts(ids[..|ids| - 1])
         + (if ids[|ids| - 1] in ids[..|ids| - 1] then [] else [ids[|ids| - 1]])
  }

  lemma {:induction false} FirstsDistinct(ids: seq<string>)
    ensures NoDup(Firsts(ids)) && forall x :: x in Firsts(ids) <==> x in ids
    ensures NoDup(ids) ==> Firsts(ids) == ids
  {
    if ids != [] {
      var front, x := ids[..|ids| - 1], ids[|ids| - 1];
      FirstsDistinct(front);
      assert ids == front + [x];
      if x !in front {
        NoDupSnoc(Firsts(front), x);
      }
    }
  }

  lemma {:induction false} UnansweredAll(ids: seq<string>, answered: set<string>)
    requires forall x :: x in ids ==> x in answered
    ensures Unanswered(ids, answered) == []
  {
    if ids != [] {
      UnansweredAll(ids[1..], answered);
    }
  }

  lemma {:induction false} UnansweredNone(ids: seq<string>, answered: set<string>)
    requires forall x :: x in ids ==> x !in answered
    ensures Unanswered(ids, answered) == ids
  {
    if ids != [] {
      UnansweredNone(ids[1..], answered);
    }
  }

  lemma {:induction false} UnansweredConcat(a: seq<string>, b: seq<string>, answered: set<string>)
    ensures Unanswered(a + b, answered) == Unanswered(a, answered) + Unanswered(b, answered)
  {
    if a == [] {
      assert a + b == b;
    } else {
      assert (a + b)[1..] == a[1..] + b;
      UnansweredConcat(a[1..], b, answered);
    }
  }

  /** With distinct ids the repair completes the results to one per call, in order. */
  lemma RepairCompletes(ids: seq<string>, done: nat)
    requires done <= |ids| && NoDup(ids)
    ensures Unanswered(ids, Before(ids, done)) == ids[done..]
  {
    BeforeIsPrefix(ids, done);
    assert ids == ids[..done] + ids[done..];
    UnansweredAll(ids[..done], Before(ids, done));
    UnansweredNone(ids[done..], Before(ids, done));
    UnansweredConcat(ids[..done], ids[done..], Before(ids, done));
  }

  /** The ids of the results behind an assistant message. */
  lemma RepairedResultIds(w: World, i: nat, calls: seq<Call>, done: nat)
    requires done <= |calls|
    ensures ResultIds(Repaired(w, i, calls, done)) == Somes(RepairedIds(Ids(calls), done))
  {
    MissingIds(w, calls, Before(Ids(calls), done));
  }

  lemma SomesEqual(a: seq<string>, b: seq<string>)
    ensures Somes(a) == Somes(b) <==> a == b
  {
    if Somes(a) == Somes(b) {
      assert |Somes(a)| == |a| && |Somes(b)| == |b|;
      forall i | 0 <= i < |a| ensures a[i] == b[i] {
        assert Somes(a)[i] == Somes(b)[i];
      }
    }
  }

  lemma FirstsSelf(ids: seq<string>)
    requires NoDup(ids)
    ensures Firsts(ids) == ids
  {
    FirstsDistinct(ids);
  }

  lemma DistinctAreRepaired(ids: seq<string>, done: nat)
    requires NoDup(ids) && done <= |ids|
    ensures RepairedIds(ids, done) == Firsts(ids)
  {
    FirstsSelf(ids);
    RepairCompletes(ids, done);
  }

  lemma RepairedIdsIffDistinct(ids: seq<string>)
    ensures (forall done: nat :: done <= |ids| ==> RepairedIds(ids, done) == Firsts(ids)) <==> NoDup(ids)
  {
    if NoDup(ids) {
      forall done: nat | done <= |ids| ensures RepairedIds(ids, done) == Firsts(ids) {
        DistinctAreRepaired(ids, done);
      }
    } else {
      FirstsDistinct(ids);
      BeforeAll(ids);
      UnansweredAll(ids, Before(ids, |ids|));
      assert RepairedIds(ids, |ids|) == ids;
    }
  }

  /** At every point where the deadline can fire, the messages behind an assistant
      message answer each distinct call id exactly once in call order, if and only if
      its call ids are distinct. A repeated id is answered once per call by a batch
      that ends. */
  lemma OneResultPerIdIffDistinct(w: World, i: nat, calls: seq<Call>)
    ensures (forall done: nat :: done <= |calls| ==> ResultIds(Repaired(w, i, calls, done)) == Somes(Firsts(Ids(calls))))
      <==> NoDup(Ids(calls))
  {
    var ids := Ids(calls);
    RepairedIdsIffDistinct(ids);
    forall done: nat | done <= |calls|
      ensures ResultIds(Repaired(w, i, calls, done)) == Somes(Firsts(ids)) <==> RepairedIds(ids, done) == Firsts(ids)
    {
      RepairedResultIds(w, i, calls, done);
      SomesEqual(RepairedIds(ids, done), Firsts(ids));
    }
  }

  lemma {:induction false} MissingIds(w: World, calls: seq<Call>, answered: set<string>)
    ensures |Missing(w, calls, answered)| == |Unanswered(Ids(calls), answered)|
    ensures forall k :: 0 <= k < |Missing(w, calls, answered)| ==>
      && Missing(w, calls, answered)[k].role.Tool?
      && Missing(w, calls, answered)[k].callId == Some(Unanswered(Ids(calls), answered)[k])
  {
    if calls != [] {
      assert Ids(calls)[1..] == Ids(calls[1..]);
      MissingIds(w, calls[1..], answered);
    }
  }

  lemma {:induction false} MissingNone(w: World, calls: seq<Call>, answered: set<string>)
    requires forall k :: 0 <= k < |calls| ==> calls[k].id in answered
    ensures Missing(w, calls, answered) == []
  {
    if calls != [] {
      MissingNone(w, calls[1..], answered);
    }
  }

  /** A batch that answered every call has nothing to repair. */
  lemma CompleteBatch(w: World, i: nat, calls: seq<Call>)
    ensures Repaired(w, i, calls, |calls|) == Results(w, i, calls, |calls|)
  {
    BeforeAll(Ids(calls));
    forall k | 0 <= k < |calls| ensures calls[k].id in Before(Ids(calls), |calls|) {
      assert Ids(calls)[k] == calls[k].id;
    }
    MissingNone(w, calls, Before(Ids(calls), |calls|));
  }

  /** With distinct ids exactly the calls that did not run are repaired. */
  lemma MissingAnswers(w: World, calls: seq<Call>, done: nat)
    requires done <= |calls| && NoDup(Ids(calls))
    ensures AnswersAll(Missing(w, calls, Before(Ids(calls), done)), calls[done..])
  {
    MissingIds(w, calls, Before(Ids(calls), done));
    RepairCompletes(Ids(calls), done);
  }

  /** So a repaired batch answers all its calls. */
  lemma RepairedAnswers(w: World, i: nat, calls: seq<Call>, done: nat)
    requires done <= |calls| && (done == |calls| || NoDup(Ids(calls)))
    ensures AnswersAll(Repaired(w, i, calls, done), calls)
  {
    if done == |calls| {
      CompleteBatch(w, i, calls);
    } else {
      MissingAnswers(w, calls, done);
      JoinAnswers(Results(w, i, calls, done), Missing(w, calls, Before(Ids(calls), done)), calls, done);
    }
  }

  lemma JoinAnswers(a: seq<Message>, b: seq<Message>, calls: seq<Call>, done: nat)
    requires done <= |calls| && |a| == done && forall k :: 0 <= k < done ==> Answers(a[k], calls[k])
    requires AnswersAll(b, calls[done..])
    ensures AnswersAll(a + b, calls)
  {
    forall k | 0 <= k < |calls| ensures Answers((a + b)[k], calls[k]) {
      if k >= done {
        assert Answers(b[k - done], calls[done..][k - done]);
      }
    }
  }

  // ----- form

  function AssistantMessage(content: string, calls: seq<Call>, raw: string): Message {
    Message(Assistant, if content == "" then [] else [Text(Some(content))], None, None, calls, raw)
  }

  /** A turn: the triggering request first, every call with its results, whole messages,
      and, where a compactor is to work on it (`fit`), only tool labels on which its
      truncation ends. */
  predicate Sound(fit: bool, ms: seq<Message>) {
    ms != [] && ms[0].role.User? && WellFormed(ms) && AllWhole(ms) && (fit ==> T.NamesFit(ms))
  }

  /** The labels matter only to a runner with a compactor. */
  predicate Fit(w: World) {
    w.outputBudget.Some?
  }

  /** A compaction pass keeps such turns such turns. */
  ghost predicate KeepsForm(w: World) {
    forall i: nat, ms :: Sound(true, ms) ==>
      Sound(true, w.emergency(i, ms)) && (w.compact(i, ms).Some? ==> Sound(true, w.compact(i, ms).value))
  }

  /** `r` is what a pass of the compactor assembles from `ms`, with tool bodies cut. */
  ghost predicate ByCompactor(t: C.Texts, ms: seq<Message>, r: seq<Message>) {
    ms != [] && exists split: nat, checklist, summary :: C.Pass(t, ms, split, checklist, summary, r)
  }

  /** The passes are those of the compactor. */
  ghost predicate UsesCompactor(w: World, t: C.Texts) {
    forall i: nat, ms {:trigger w.emergency(i, ms)} {:trigger w.compact(i, ms)} :: Sound(true, ms) ==>
      ByCompactor(t, ms, w.emergency(i, ms)) && (w.compact(i, ms).Some? ==> ByCompactor(t, ms, w.compact(i, ms).value))
  }

  /** What `Compaction.Compact` returns is such a pass, and it returns on every such turn. */
  lemma CompactIsPass(config: C.Config, t: C.Texts, ms: seq<Message>, head: seq<Message>, system: string,
                      checklist: string, summarize: seq<Message> -> string, split: nat, r: seq<Message>)
    requires Sound(true, ms)
    ensures C.PassEnds(config, t, ms, head, system, checklist, summarize)
    ensures C.Compacted(config, t, ms, head, system, checklist, summarize, split, r) ==> ByCompactor(t, ms, r)
  {
    C.FittingPassEnds(config, t, ms, head, system, checklist, summarize);
    if C.Compacted(config, t, ms, head, system, checklist, summarize, split, r) {
      var working := C.Summarized(t, ms, split, checklist, summarize);
      var n: nat :| r == T.Rounds(working, n);
      assert C.Pass(t, ms, split, checklist, summarize(C.Flatten(C.Iterations(C.Strip(t, ms[1..]))[..split])), r);
    }
  }

  /** So the compactor of bot/agent/compaction.py keeps form. */
  lemma CompactorKeepsForm(w: World, t: C.Texts)
    requires UsesCompactor(w, t)
    ensures KeepsForm(w)
  {
    forall i: nat, ms | Sound(true, ms)
      ensures Sound(true, w.emergency(i, ms)) && (w.compact(i, ms).Some? ==> Sound(true, w.compact(i, ms).value))
    {
      ByCompactorSound(t, ms, w.emergency(i, ms));
      if w.compact(i, ms).Some? {
        ByCompactorSound(t, ms, w.compact(i, ms).value);
      }
    }
  }

  lemma ByCompactorSound(t: C.Texts, ms: seq<Message>, r: seq<Message>)
    requires Sound(true, ms) && ByCompactor(t, ms, r)
    ensures Sound(true, r)
  {
    var split: nat, checklist, summary :| C.Pass(t, ms, split, checklist, summary, r);
    C.PassKeepsForm(t, ms, split, checklist, summary, r);
  }

  predicate FitCalls(calls: seq<Call>) {
    forall k :: 0 <= k < |calls| ==> |T.Label(Some(calls[k].name))| <= T.MAX_LABEL_CHARS
  }

  /** The calls of a response have objects of arguments, which providers make of anything
      they are sent. */
  predicate ObjectCalls(calls: seq<Call>) {
    forall k :: 0 <= k < |calls| ==> calls[k].arguments.Some?
  }

  /** A response that repeats no call id and, for a compactor, names no tool beyond the
      length that truncation copes with. */
  ghost predicate GoodCalls(fit: bool, c: Chat) {
    c.Answer? ==> NoDup(Ids(c.calls)) && ObjectCalls(c.calls) && (fit ==> FitCalls(c.calls))
  }

  /** What a provider must do. */
  ghost predicate ProviderGood(w: World) {
    forall i: nat :: GoodCalls(Fit(w), w.chat(i)) && GoodCalls(Fit(w), w.retry(i))
  }

  lemma SoundAppend(fit: bool, ms: seq<Message>, more: seq<Message>)
    requires Sound(fit, ms) && WellFormed(more) && AllWhole(more) && (fit ==> T.NamesFit(more))
    ensures Sound(fit, ms + more)
  {
    AllWholeConcat(ms, more);
    WellFormedConcat(ms, more);
    C.NamesFitConcat(ms, more);
  }

  lemma SoundRetained(fit: bool, ms: seq<Message>)
    ensures Sound(fit, Retained(ms)) <==> Sound(fit, ms)
  {
    RetainedWellFormed(ms);
    RetainedWhole(ms);
    forall i | 0 <= i < |ms| ensures Retained(ms)[i].toolName == ms[i].toolName && Retained(ms)[i].role == ms[i].role {
    }
    if T.NamesFit(Retained(ms)) {
      forall m | m in ms && m.role.Tool? ensures |T.Label(m.toolName)| <= T.MAX_LABEL_CHARS {
        var i :| 0 <= i < |ms| && ms[i] == m;
        assert Retained(ms)[i] in Retained(ms);
      }
    }
  }

  lemma SoundIfRetainedEqual(fit: bool, a: seq<Message>, b: seq<Message>)
    requires Retained(a) == Retained(b)
    ensures Sound(fit, a) <==> Sound(fit, b)
  {
    SoundRetained(fit, a);
    SoundRetained(fit, b);
  }

  lemma GroupWellFormed(m: Message, results: seq<Message>)
    requires m.role.Assistant? && AnswersAll(results, m.calls)
    ensures WellFormed([m] + results)
  {
    var ms := [m] + results;
    assert ms[1..|m.calls| + 1] == results;
    assert ms[|m.calls| + 1..] == [];
  }

  lemma UserWellFormed(ms: seq<Message>)
    requires forall m :: m in ms ==> m.role.User?
    ensures WellFormed(ms) && T.NamesFit(ms)
  {
    if ms != [] {
      UserWellFormed(ms[1..]);
    }
  }

  /** The whole of what one tool-calling response adds: the assistant message, its
      results, and the images the tools asked to show. */
  function Grown(w: World, i: nat, start: seq<Message>, answer: Chat, done: nat, images: bool): seq<Message>
    requires answer.Answer? && done <= |answer.calls|
  {
    start + ([AssistantMessage(answer.content, answer.calls, answer.raw)] + Repaired(w, i, answer.calls, done))
    + (if images && w.viewImage(i).Some? then [TextMessage(User, w.viewImage(i).value)] else [])
  }

  /** The results carry the names of their calls. */
  lemma RepairedNames(w: World, i: nat, calls: seq<Call>, done: nat)
    requires done <= |calls| && FitCalls(calls)
    ensures T.NamesFit(Repaired(w, i, calls, done))
  {
    ResultNames(w, i, calls, done);
    MissingNames(w, calls, Before(Ids(calls), done));
    C.NamesFitConcat(Results(w, i, calls, done), Missing(w, calls, Before(Ids(calls), done)));
  }

  lemma ResultNames(w: World, i: nat, calls: seq<Call>, n: nat)
    requires n <= |calls| && FitCalls(calls)
    ensures T.NamesFit(Results(w, i, calls, n))
  {
    var results := Results(w, i, calls, n);
    forall m | m in results ensures |T.Label(m.toolName)| <= T.MAX_LABEL_CHARS {
      var k :| 0 <= k < n && results[k] == m;
    }
  }

  lemma {:induction false} MissingNames(w: World, calls: seq<Call>, answered: set<string>)
    requires FitCalls(calls)
    ensures T.NamesFit(Missing(w, calls, answered))
  {
    if calls != [] {
      MissingNames(w, calls[1..], answered);
      C.NamesFitConcat(if calls[0].id in answered then [] else [ToolResult(calls[0], w.timeoutText)],
                       Missing(w, calls[1..], answered));
    }
  }

  /** The results are whole messages. */
  lemma RepairedWhole(w: World, i: nat, calls: seq<Call>, done: nat)
    requires done <= |calls|
    ensures AllWhole(Repaired(w, i, calls, done))
  {
    ResultsWhole(w, i, calls, done);
    MissingWhole(w, calls, Before(Ids(calls), done));
    AllWholeConcat(Results(w, i, calls, done), Missing(w, calls, Before(Ids(calls), done)));
  }

  lemma {:induction false} ResultsWhole(w: World, i: nat, calls: seq<Call>, n: nat)
    requires n <= |calls|
    ensures AllWhole(Results(w, i, calls, n))
  {
    if n > 0 {
      var front, last := Results(w, i, calls, n - 1), ResultAt(w, i, calls, n - 1);
      ResultsWhole(w, i, calls, n - 1);
      ResultWhole(w, i, calls, n - 1);
      AllWholeConcat(front, [last]);
      assert Results(w, i, calls, n) == front + [last];
    }
  }

  lemma ResultWhole(w: World, i: nat, calls: seq<Call>, k: nat)
    requires k < |calls|
    ensures Whole(ResultAt(w, i, calls, k))
  {
  }

  lemma {:induction false} MissingWhole(w: World, calls: seq<Call>, answered: set<string>)
    ensures AllWhole(Missing(w, calls, answered))
  {
    if calls != [] {
      MissingWhole(w, calls[1..], answered);
      AllWholeConcat(if calls[0].id in answered then [] else [ToolResult(calls[0], w.timeoutText)],
                     Missing(w, calls[1..], answered));
    }
  }

  lemma GrownSound(w: World, i: nat, start: seq<Message>, answer: Chat, done: nat, images: bool)
    requires Sound(Fit(w), start) && answer.Answer? && done <= |answer.calls|
    requires done == |answer.calls| || NoDup(Ids(answer.calls))
    requires ObjectCalls(answer.calls) && (Fit(w) ==> FitCalls(answer.calls))
    ensures Sound(Fit(w), Grown(w, i, start, answer, done, images))
  {
    var m, repaired := AssistantMessage(answer.content, answer.calls, answer.raw), Repaired(w, i, answer.calls, done);
    RepairedAnswers(w, i, answer.calls, done);
    GroupWellFormed(m, repaired);
    RepairedWhole(w, i, answer.calls, done);
    AllWholeConcat([m], repaired);
    if Fit(w) {
      RepairedNames(w, i, answer.calls, done);
      C.NamesFitConcat([m], repaired);
    }
    var tail := if images && w.viewImage(i).Some? then [TextMessage(User, w.viewImage(i).value)] else [];
    UserWellFormed(tail);
    SoundAppend(Fit(w), start, [m] + repaired);
    SoundAppend(Fit(w), start + ([m] + repaired), tail);
  }

  // ----- which calls were answered

  function AnsweredIds(ms: seq<Message>): set<string> {
    set m | m in ms && m.role.Tool? && m.callId.Some? :: m.callId.value
  }

  lemma AnsweredConcat(a: seq<Message>, b: seq<Message>)
    ensures AnsweredIds(a + b) == AnsweredIds(a) + AnsweredIds(b)
  {
    forall m ensures m in a + b <==> m in a || m in b {
    }
    forall x | x in AnsweredIds(a) || x in AnsweredIds(b) ensures x in AnsweredIds(a + b) {
      var m :| (m in a || m in b) && m.role.Tool? && m.callId == Some(x);
      assert m in a + b;
    }
  }

  lemma AnsweredOne(m: Message)
    ensures AnsweredIds([m]) == if m.role.Tool? && m.callId.Some? then {m.callId.value} else {}
  {
    assert m in [m];
  }

  lemma {:induction false} AnswersIds(results: seq<Message>, calls: seq<Call>)
    requires |results| <= |calls| && forall k :: 0 <= k < |results| ==> Answers(results[k], calls[k])
    ensures AnsweredIds(results) == Before(Ids(calls), |results|)
  {
    if results != [] {
      var n := |results| - 1;
      AnswersIds(results[..n], calls);
      AnsweredOne(results[n]);
      AnsweredConcat(results[..n], [results[n]]);
      assert results == results[..n] + [results[n]];
    }
  }

  lemma AnsweredResults(w: World, i: nat, calls: seq<Call>, done: nat)
    requires done <= |calls|
    ensures AnsweredIds(Results(w, i, calls, done)) == Before(Ids(calls), done)
  {
    AnswersIds(Results(w, i, calls, done), calls);
  }

  /** What stands behind an unfinished batch. */
  lemma AnsweredBatch(w: World, i: nat, answer: Chat, done: nat)
    requires answer.Answer? && done <= |answer.calls|
    ensures AnsweredIds([AssistantMessage(answer.content, answer.calls, answer.raw)] + Results(w, i, answer.calls, done))
         == Before(Ids(answer.calls), done)
  {
    var m := AssistantMessage(answer.content, answer.calls, answer.raw);
    AnsweredOne(m);
    AnsweredResults(w, i, answer.calls, done);
    AnsweredConcat([m], Results(w, i, answer.calls, done));
  }

  /** The turn right after the loop over the calls, seen as the grown turn. */
  lemma GrownParts(w: World, i: nat, start: seq<Message>, answer: Chat, done: nat)
    requires answer.Answer? && done <= |answer.calls|
    ensures var m := AssistantMessage(answer.content, answer.calls, answer.raw);
      var after := start + [m] + Results(w, i, answer.calls, done);
      && |start| <= |after| && after[|start|..] == [m] + Results(w, i, answer.calls, done)
      && AnsweredIds(after[|start|..]) == Before(Ids(answer.calls), done)
      && Grown(w, i, start, answer, done, false) == after + Missing(w, answer.calls, Before(Ids(answer.calls), done))
      && (done == |answer.calls| ==> Grown(w, i, start, answer, done, false) == after)
  {
    var m := AssistantMessage(answer.content, answer.calls, answer.raw);
    var results, missing := Results(w, i, answer.calls, done), Missing(w, answer.calls, Before(Ids(answer.calls), done));
    JoinParts(start, [m], results, missing);
    AnsweredBatch(w, i, answer, done);
    if done == |answer.calls| {
      AllAnswered(answer.calls);
      MissingNone(w, answer.calls, Before(Ids(answer.calls), done));
    }
  }

  lemma JoinParts(a: seq<Message>, b: seq<Message>, c: seq<Message>, d: seq<Message>)
    ensures a + (b + (c + d)) + [] == a + b + c + d
    ensures (a + b + c)[|a|..] == b + c
    ensures a + b + c + [] == a + b + c
  {
  }

  lemma AnsweredSame(a: seq<Message>, b: seq<Message>)
    requires OnlyToolBodies(a, b)
    ensures AnsweredIds(a) == AnsweredIds(b)
  {
    forall x ensures x in AnsweredIds(a) <==> x in AnsweredIds(b) {
      if x in AnsweredIds(a) {
        var m :| m in a && m.role.Tool? && m.callId == Some(x);
        var k :| 0 <= k < |a| && a[k] == m;
        assert b[k] in b && b[k].role.Tool? && b[k].callId == Some(x);
      }
      if x in AnsweredIds(b) {
        var m :| m in b && m.role.Tool? && m.callId == Some(x);
        var k :| 0 <= k < |b| && b[k] == m;
        assert a[k] in a && a[k].role.Tool? && a[k].callId == Some(x);
      }
    }
  }

  lemma AllAnswered(calls: seq<Call>)
    ensures forall k :: 0 <= k < |calls| ==> calls[k].id in Before(Ids(calls), |calls|)
  {
    BeforeAll(Ids(calls));
    forall k | 0 <= k < |calls| ensures calls[k].id in Before(Ids(calls), |calls|) {
      assert Ids(calls)[k] == calls[k].id;
    }
  }

  // ----- what a run makes of its turn

  /** The deadline leaves these for the calls that were not answered. */
  ghost predicate Repairs(w: World, calls: seq<Call>, done: nat, repairs: seq<Message>)
    requires done <= |calls|
  {
    && ResultIds(repairs) == Somes(Unanswered(Ids(calls), Elems(Ids(calls)[..done])))
    && forall m :: m in repairs ==> exists c :: c in calls && m == ToolResult(c, w.timeoutText)
  }

  /** The messages of one response with calls: the assistant message, a result for each of
      the `done` calls that were answered, the repairs, and the images to show. */
  ghost predicate Batch(w: World, i: nat, answer: Chat, done: nat, images: bool, added: seq<Message>)
    requires answer.Answer? && done <= |answer.calls|
  {
    var content := if answer.content == "" then [] else [Text(Some(answer.content))];
    exists repairs :: Repairs(w, answer.calls, done, repairs) &&
      added == [Message(Assistant, content, None, None, answer.calls, answer.raw)]
               + Results(w, i, answer.calls, done) + repairs
               + (if images && w.viewImage(i).Some? then [TextMessage(User, w.viewImage(i).value)] else [])
  }

  /** A result holds the text of its tool, or the refusal behind a handoff, as the budget
      leaves it. */
  lemma ResultText(w: World, i: nat, calls: seq<Call>, k: nat)
    requires k < |calls|
    ensures var text := if Runs(HandoffAt(w, i, calls, k), calls[k]) then w.tool(i, k).text else w.skippedText;
      var raw := RawResults(w, i, calls);
      && raw[k] == (calls[k].name, text)
      && ResultAt(w, i, calls, k) == ToolResult(calls[k],
           if w.outputBudget.None? then text
           else T.Clamp(w.outputBudget.value, T.Spent(w.outputBudget.value, raw, k), text, calls[k].name).0)
  {
  }

  lemma {:induction false} ResultsInOrder(w: World, i: nat, calls: seq<Call>, n: nat, k: nat)
    requires k < n <= |calls|
    ensures Results(w, i, calls, n)[k] == ResultAt(w, i, calls, k)
  {
    var front, last := Results(w, i, calls, n - 1), ResultAt(w, i, calls, n - 1);
    assert |front| == n - 1 && Results(w, i, calls, n) == front + [last];
    if k < n - 1 {
      ResultsInOrder(w, i, calls, n - 1, k);
    }
  }

  /** No handoff is in force exactly while no call has given one. */
  lemma {:induction false} NoHandoffIff(w: World, i: nat, calls: seq<Call>, k: nat)
    requires k <= |calls|
    ensures HandoffAt(w, i, calls, k).None? <==> forall j: nat :: j < k ==> w.tool(i, j).handoff.None?
  {
    if k > 0 {
      NoHandoffIff(w, i, calls, k - 1);
    }
  }

  /** Call `j` runs and gives a handoff. */
  predicate Hands(w: World, i: nat, calls: seq<Call>, j: nat)
    requires j < |calls|
  {
    Runs(HandoffAt(w, i, calls, j), calls[j]) && w.tool(i, j).handoff.Some?
  }

  /** The handoff in force is that of the newest call that ran and gave one. */
  lemma {:induction false} HandoffIsNewest(w: World, i: nat, calls: seq<Call>, j: nat, k: nat)
    requires j < k <= |calls| && Hands(w, i, calls, j)
    requires forall l: nat :: j < l < k ==> !Hands(w, i, calls, l)
    ensures HandoffAt(w, i, calls, k) == w.tool(i, j).handoff
    decreases k
  {
    if j < k - 1 {
      HandoffIsNewest(w, i, calls, j, k - 1);
      assert !Hands(w, i, calls, k - 1);
    }
  }

  lemma {:induction false} MissingTexts(w: World, calls: seq<Call>, answered: set<string>)
    ensures forall m :: m in Missing(w, calls, answered) ==> exists c :: c in calls && m == ToolResult(c, w.timeoutText)
  {
    if calls != [] {
      MissingTexts(w, calls[1..], answered);
    }
  }

  lemma MissingRepairs(w: World, calls: seq<Call>, done: nat)
    requires done <= |calls|
    ensures Repairs(w, calls, done, Missing(w, calls, Before(Ids(calls), done)))
  {
    BeforeIsPrefix(Ids(calls), done);
    MissingTexts(w, calls, Before(Ids(calls), done));
    MissingIds(w, calls, Before(Ids(calls), done));
  }

  ghost predicate Grows(w: World, i: nat, base: seq<Message>, answer: Chat, done: nat, images: bool, grown: seq<Message>)
    requires answer.Answer? && done <= |answer.calls|
  {
    exists added :: Batch(w, i, answer, done, images, added) && grown == base + Retained(added)
  }

  /** The grown turn is the old turn and such messages. */
  lemma GrownGrows(w: World, i: nat, start: seq<Message>, answer: Chat, done: nat, images: bool)
    requires answer.Answer? && done <= |answer.calls|
    ensures Grows(w, i, Retained(start), answer, done, images, Retained(Grown(w, i, start, answer, done, images)))
  {
    var added := GrownBatch(w, i, start, answer, done, images);
    RetainedConcat(start, added);
  }

  lemma GrownBatch(w: World, i: nat, start: seq<Message>, answer: Chat, done: nat, images: bool) returns (added: seq<Message>)
    requires answer.Answer? && done <= |answer.calls|
    ensures Batch(w, i, answer, done, images, added) && Grown(w, i, start, answer, done, images) == start + added
  {
    var m := AssistantMessage(answer.content, answer.calls, answer.raw);
    var results, repairs := Results(w, i, answer.calls, done), Missing(w, answer.calls, Before(Ids(answer.calls), done));
    var shown := if images && w.viewImage(i).Some? then [TextMessage(User, w.viewImage(i).value)] else [];
    added := [m] + results + repairs + shown;
    MissingRepairs(w, answer.calls, done);
    JoinAdded(start, [m], results, repairs, shown);
  }

  lemma JoinAdded(a: seq<Message>, b: seq<Message>, c: seq<Message>, d: seq<Message>, e: seq<Message>)
    ensures a + (b + (c + d)) + e == a + (b + c + d + e)
  {
  }

  predicate Overflows(w: World, i: nat) {
    w.chat(i).ChatFailed? && w.chat(i).overflow && w.outputBudget.Some? && i > 0
  }

  /** The turn with the steering of an iteration, as it is retained. */
  function Joined(w: World, i: nat, before: seq<Message>): seq<Message> {
    before + Retained(Steering(w, w.external(i)))
  }

  /** The provider answered on `base`, which is the turn with the steering messages, or
      the emergency compaction of that behind an overflow. */
  ghost predicate Asked(w: World, i: nat, before: seq<Message>, answer: Chat, base: seq<Message>) {
    && !w.expired(Polling(i)) && !w.expired(Thinking(i)) && !w.expired(Chatting(i))
    && (|| (answer == w.chat(i) && base == Joined(w, i, before))
        || (answer == w.retry(i) && Overflows(w, i) && !w.expired(Emergency(i)) && !w.expired(Retrying(i))
            && base == Retained(w.emergency(i, Joined(w, i, before)))))
  }

  function CompactedTo(w: World, i: nat, grown: seq<Message>): seq<Message> {
    if w.outputBudget.Some? && w.compact(i, grown).Some? then Retained(w.compact(i, grown).value) else grown
  }

  /** An iteration after which the loop goes on, by the retained turns before it, when the
      provider answered, and after it. */
  datatype Round = Round(before: seq<Message>, base: seq<Message>, answer: Chat, after: seq<Message>)

  /** Its calls were all answered, none handed the turn off, and no deadline fired. */
  ghost predicate Continues(w: World, i: nat, base: seq<Message>, answer: Chat, after: seq<Message>) {
    && answer.Answer? && answer.calls != []
    && !w.expired(Narrating(i)) && !w.expired(AfterBatch(i)) && !w.expired(Checkpointing(i))
    && HandoffAt(w, i, answer.calls, |answer.calls|).None?
    && exists grown :: Grows(w, i, base, answer, |answer.calls|, true, grown) && after == CompactedTo(w, i, grown)
  }

  ghost predicate GoesOn(w: World, i: nat, r: Round) {
    Asked(w, i, r.before, r.answer, r.base) && !w.expired(Accounting(i)) && Continues(w, i, r.base, r.answer, r.after)
  }

  /** The text of a reply. */
  predicate ReplyText(w: World, i: nat, answer: Chat, assets: nat, text: string)
    requires answer.Answer?
  {
    && (answer.content != "" && !answer.cutOff ==> text == answer.content)
    && (answer.content != "" && answer.cutOff ==>
          text == answer.content + "\n\n" + "(Response was cut off due to length limits.)")
    && (answer.content == "" && answer.cutOff ==> text == "(Response was cut off due to length limits.)")
    && (answer.content == "" && !answer.cutOff && assets > 0 ==>
          text == if assets == 1 then "Generated image attached." else "Generated images attached.")
    && (answer.content == "" && !answer.cutOff && assets == 0 ==>
          text == if w.embed(i) then "" else "I'm not sure how to respond to that.")
  }

  /** `turn` is `mid`, but for a hint that is not retained, and a closing message. */
  ghost predicate Closed(turn: seq<Message>, mid: seq<Message>, last: Message) {
    turn != [] && Retained(turn[..|turn| - 1]) == mid && turn[|turn| - 1] == last
  }

  /** An answer without calls closes the turn with its own text. */
  ghost predicate Replies(w: World, i: nat, base: seq<Message>, answer: Chat, assets: nat, turn: seq<Message>) {
    && answer.Answer? && answer.calls == []
    && exists text ::
         && ReplyText(w, i, answer, assets, text)
         && Closed(turn, base, Message(Assistant, if text == "" then [] else [Text(Some(text))], None, None, [], answer.raw))
  }

  /** Where the deadline stops an iteration that has an answer with calls: `handed` says
      that a handoff is in force there. */
  ghost predicate StopsIn(w: World, i: nat, base: seq<Message>, answer: Chat, handed: bool, mid: seq<Message>) {
    answer.Answer? && answer.calls != [] && exists done: nat, cutOff, images, grown ::
      && done <= |answer.calls| && Grows(w, i, base, answer, done, images, grown)
      && (HandoffAfter(w, i, answer.calls, done, cutOff).Some? <==> handed)
      && (mid == grown || (mid == CompactedTo(w, i, grown) && !handed && done == |answer.calls|))
  }

  /** Where it stops one without. */
  ghost predicate StopsBefore(w: World, i: nat, before: seq<Message>, mid: seq<Message>) {
    || (w.expired(Polling(i)) && mid == before)
    || ((w.expired(Thinking(i)) || w.expired(Chatting(i))) && mid == Joined(w, i, before))
    || (Overflows(w, i) && w.expired(Emergency(i)) && mid == Joined(w, i, before))
    || (Overflows(w, i) && w.expired(Retrying(i)) && mid == Retained(w.emergency(i, Joined(w, i, before))))
    || (w.expired(Accounting(i)) && exists answer: Chat :: answer.Answer? && Asked(w, i, before, answer, mid))
  }

  ghost predicate Expires(w: World, i: nat) {
    exists m: Moment :: m.i == i && w.expired(m)
  }

  /** How the last iteration closes the turn, by its ending. */
  ghost predicate ReactEnds(w: World, i: nat, base: seq<Message>, answer: Chat, assets: nat, turn: seq<Message>, ending: Ending) {
    match ending
    case Completed => Replies(w, i, base, answer, assets, turn)
    case TimedOut => Expires(w, i) &&
      exists mid :: StopsIn(w, i, base, answer, false, mid) && Closed(turn, mid, TextMessage(Assistant, w.timeoutText))
    case HandedOff =>
      exists mid :: StopsIn(w, i, base, answer, true, mid) && Closed(turn, mid, TextMessage(Assistant, w.handoffText))
    case _ => false
  }

  ghost predicate Ends(w: World, i: nat, before: seq<Message>, assets: nat, turn: seq<Message>, ending: Ending) {
    || (ending.TimedOut? && Expires(w, i)
        && exists mid :: StopsBefore(w, i, before, mid) && Closed(turn, mid, TextMessage(Assistant, w.timeoutText)))
    || (ending.ProviderError? && exists base, answer: Chat :: Asked(w, i, before, answer, base) && answer.ChatFailed?)
    || exists base, answer: Chat :: Asked(w, i, before, answer, base) && answer.Answer? && !w.expired(Accounting(i))
         && ReactEnds(w, i, base, answer, assets + answer.assets, turn, ending)
  }

  /** How a run closes its turn after `n` rounds. */
  ghost predicate RunEnds(w: World, max: nat, before: seq<Message>, n: nat, assets: nat, turn: seq<Message>, ending: Ending) {
    if ending.MaxIterations? then n == max && Closed(turn, before, TextMessage(Assistant, w.fallbackText))
    else n < max && Ends(w, n, before, assets, turn, ending)
  }

  /** The images generated in the rounds. */
  function Assets(rounds: seq<Round>): nat {
    if rounds == [] then 0
    else Assets(rounds[..|rounds| - 1])
         + (if rounds[|rounds| - 1].answer.Answer? then rounds[|rounds| - 1].answer.assets else 0)
  }

  function LastTurn(start: seq<Message>, rounds: seq<Round>): seq<Message> {
    if rounds == [] then start else rounds[|rounds| - 1].after
  }

  /** Each round goes on from where the one before it ended. */
  ghost predicate Follows(w: World, start: seq<Message>, rounds: seq<Round>) {
    rounds != [] ==>
      var front, last := rounds[..|rounds| - 1], rounds[|rounds| - 1];
      Follows(w, start, front) && GoesOn(w, |front|, last) && last.before == LastTurn(start, front)
  }

  lemma OneMore(w: World, start: seq<Message>, rounds: seq<Round>, round: Round)
    requires Follows(w, start, rounds) && GoesOn(w, |rounds|, round) && round.before == LastTurn(start, rounds)
    ensures Follows(w, start, rounds + [round]) && LastTurn(start, rounds + [round]) == round.after
    ensures Assets(rounds + [round]) == Assets(rounds) + round.answer.assets
  {
    var all := rounds + [round];
    assert all[..|rounds|] == rounds;
  }

  // ----- the runner

  datatype Ending = Completed | TimedOut | MaxIterations | HandedOff | ProviderError

  /** `_final_text_for_response`. */
  function FinalText(w: World, i: nat, answer: Chat, assets: nat): string
    requires answer.Answer?
  {
    if answer.cutOff then
      (if answer.content != "" then answer.content + "\n\n" else "") + "(Response was cut off due to length limits.)"
    else if answer.content != "" then answer.content
    else if assets == 1 then "Generated image attached."
    else if assets > 1 then "Generated images attached."
    else if w.embed(i) then ""
    else "I'm not sure how to respond to that."
  }

  class ConversationRunner {
    const context: ConversationContext
    var turn: seq<Message>
    var handoff: Option<set<string>>
    var substantive: nat
    var advised: bool
    var overflowHandled: bool
    var assets: nat

    constructor (context: ConversationContext, request: Message)
      ensures this.context == context && turn == [request]
      ensures handoff.None? && substantive == 0 && !advised && !overflowHandled && assets == 0
    {
      this.context := context;
      turn, handoff, substantive, advised, overflowHandled, assets := [request], None, 0, false, false, 0;
    }

    /** One call: run it, unless a handoff is in force that does not allow it. A tool
        that the deadline cuts off may have installed a handoff already. */
    method RunCall(w: World, i: nat, calls: seq<Call>, k: nat) returns (timedOut: bool, text: string, planChanged: bool)
      requires k < |calls| && handoff == HandoffAt(w, i, calls, k)
      modifies `handoff, `substantive
      ensures timedOut ==> old(handoff).None? && handoff == CutHandoff(w, i, k) && Expires(w, i)
      ensures !timedOut ==> text == RawText(w, i, calls, k) && handoff == HandoffAt(w, i, calls, k + 1)
      ensures substantive == old(substantive)
        + if !timedOut && Runs(old(handoff), calls[k]) && w.tool(i, k).substantive then 1 else 0
    {
      text, planChanged := w.skippedText, false;
      if handoff.None? && w.expired(BeforeTool(i, k)) {
        return true, text, false;
      }
      if handoff.None? || calls[k].name in handoff.value {
        if handoff.None? && w.expired(DuringTool(i, k)) {
          handoff := w.cut(i, k);
          return true, text, false;
        }
        var outcome := w.tool(i, k);
        text, planChanged := outcome.text, outcome.planChanged;
        if outcome.handoff.Some? {
          handoff := outcome.handoff;
        }
        if outcome.substantive {
          substantive := substantive + 1;
        }
      }
      timedOut := false;
    }

    /** The output budget of one iteration as the loop keeps it. */
    ghost predicate Counts(w: World, i: nat, calls: seq<Call>, k: nat, spent: nat) {
      k <= |calls| && (w.outputBudget.Some? ==> spent == T.Spent(w.outputBudget.value, RawResults(w, i, calls), k))
    }

    method ResultMessage(w: World, i: nat, calls: seq<Call>, k: nat, text: string, spent: nat)
      returns (m: Message, spent': nat)
      requires k < |calls| && text == RawText(w, i, calls, k) && Counts(w, i, calls, k, spent)
      ensures m == ResultAt(w, i, calls, k) && Counts(w, i, calls, k + 1, spent')
    {
      var modelResult := text;
      spent' := spent;
      if w.outputBudget.Some? {
        var clamped := T.Clamp(w.outputBudget.value, spent, text, calls[k].name);
        modelResult, spent' := clamped.0, clamped.1;
      }
      m := ToolResult(calls[k], modelResult);
    }

    /** One call with its result message, up to the last look at the deadline. */
    method AnswerCall(w: World, i: nat, calls: seq<Call>, k: nat, spent: nat, ghost start: seq<Message>)
      returns (timedOut: bool, answered: bool, spent': nat)
      requires k < |calls| && turn == start + Results(w, i, calls, k)
      requires handoff == HandoffAt(w, i, calls, k) && Counts(w, i, calls, k, spent)
      modifies `turn, `handoff, `substantive
      ensures timedOut ==> Expires(w, i)
      ensures !answered ==> timedOut && turn == old(turn) && handoff == CutHandoff(w, i, k)
      ensures answered ==>
        && turn == start + Results(w, i, calls, k + 1) && handoff == HandoffAt(w, i, calls, k + 1)
        && Counts(w, i, calls, k + 1, spent')
    {
      spent' := spent;
      var text, planChanged;
      timedOut, text, planChanged := RunCall(w, i, calls, k);
      answered := !timedOut;
      if timedOut {
        return;
      }
      var result;
      result, spent' := ResultMessage(w, i, calls, k, text, spent);
      AppendResult(w, i, calls, k, start);
      turn := turn + [result];
      timedOut := (planChanged && w.expired(PlanUpdate(i, k))) || (handoff.None? && w.expired(AfterTool(i, k)));
    }

    /** The loop over the calls of one response. */
    method RunBatch(w: World, i: nat, calls: seq<Call>) returns (timedOut: bool, done: nat, ghost cutOff: bool)
      requires handoff.None?
      modifies `turn, `handoff, `substantive
      ensures done <= |calls| && turn == old(turn) + Results(w, i, calls, done)
      ensures handoff == HandoffAfter(w, i, calls, done, cutOff)
      ensures if timedOut then Expires(w, i) else done == |calls| && !cutOff
    {
      done, cutOff := 0, false;
      var spent: nat := 0;
      ghost var start := turn;
      assert start + [] == start;
      while done < |calls|
        invariant done <= |calls| && turn == start + Results(w, i, calls, done)
        invariant !cutOff && handoff == HandoffAt(w, i, calls, done) && Counts(w, i, calls, done, spent)
      {
        var answered;
        timedOut, answered, spent := AnswerCall(w, i, calls, done, spent, start);
        cutOff := !answered;
        if answered {
          done := done + 1;
        }
        if timedOut {
          return;
        }
      }
      timedOut := false;
    }

    lemma AppendResult(w: World, i: nat, calls: seq<Call>, k: nat, start: seq<Message>)
      requires k < |calls|
      ensures start + Results(w, i, calls, k) + [ResultAt(w, i, calls, k)] == start + Results(w, i, calls, k + 1)
    {
    }

    /** `_append_missing_timeout_tool_results`. */
    method AppendMissing(w: World, calls: seq<Call>, start: nat)
      requires start <= |turn|
      modifies `turn
      ensures turn == old(turn) + Missing(w, calls, AnsweredIds(old(turn)[start..]))
    {
      var answered := AnsweredIds(turn[start..]);
      ghost var was := turn;
      assert calls[0..] == calls;
      for k := 0 to |calls|
        invariant turn + Missing(w, calls[k..], answered) == was + Missing(w, calls, answered)
      {
        assert calls[k..][1..] == calls[k + 1..];
        if calls[k].id !in answered {
          turn := turn + [ToolResult(calls[k], w.timeoutText)];
        }
      }
      assert calls[|calls|..] == [];
    }

    /** The batch of one response, repaired when the deadline fires inside it. */
    method AnswerCalls(w: World, i: nat, answer: Chat) returns (timedOut: bool, done: nat, ghost cutOff: bool)
      requires answer.Answer? && handoff.None?
      modifies `turn, `handoff, `substantive
      ensures done <= |answer.calls|
      ensures if timedOut then Expires(w, i) else done == |answer.calls| && !cutOff && !w.expired(Narrating(i))
      ensures turn == Grown(w, i, old(turn), answer, done, false)
      ensures handoff == HandoffAfter(w, i, answer.calls, done, cutOff)
    {
      ghost var was := turn;
      var start := |turn|;
      var m := AssistantMessage(answer.content, answer.calls, answer.raw);
      turn := turn + [m];
      if w.expired(Narrating(i)) {
        timedOut, done, cutOff := true, 0, false;
        assert turn == was + [m] + Results(w, i, answer.calls, 0);
      } else {
        timedOut, done, cutOff := RunBatch(w, i, answer.calls);
      }
      GrownParts(w, i, was, answer, done);
      if timedOut {
        AppendMissing(w, answer.calls, start);
      }
    }

    /** `_maybe_append_thread_handoff_advisory`: once in a turn, as soon as enough tools ran. */
    method MaybeAdvise(w: World)
      requires ADVISORY_TAG <= w.advisory
      modifies `turn, `advised
      ensures Retained(turn) == Retained(old(turn)) && OnlyToolBodies(old(turn), turn)
      ensures advised <==> old(advised) || (w.mayAdvise && 0 < w.adviseAfter <= substantive && old(HasResult(turn)))
      ensures if advised && !old(advised) then HintedAt(old(turn), turn, w.advisory) else turn == old(turn)
    {
      if w.adviseAfter <= 0 || advised || substantive < w.adviseAfter || !w.mayAdvise {
        return;
      }
      turn, advised := AppendAdvisory(turn, w.advisory);
    }

    /** The end of `_handle_tool_response`: compaction never sees the advisory. */
    method MaybeCompact(w: World, i: nat) returns (compacted: bool)
      requires ADVISORY_TAG <= w.advisory
      modifies `turn
      ensures compacted <==> w.compact(i, Retained(old(turn))).Some?
      ensures Retained(turn) ==
        if compacted then Retained(w.compact(i, Retained(old(turn))).value) else Retained(old(turn))
    {
      var result := w.compact(i, Retained(turn));
      compacted := result.Some?;
      if compacted {
        turn := result.value;
        if advised {
          var done;
          turn, done := AppendAdvisory(turn, w.advisory);
        }
      }
    }

    /** `_handle_tool_response`. The ghost results say how far it came: `done` calls
        ran, and `images` and `compacted` whether those steps were reached. */
    method HandleToolResponse(w: World, i: nat, answer: Chat)
      returns (timedOut: bool, ghost done: nat, ghost cutOff: bool, ghost images: bool, ghost compacted: bool)
      requires answer.Answer? && handoff.None? && ADVISORY_TAG <= w.advisory
      modifies `turn, `handoff, `substantive, `advised
      ensures done <= |answer.calls|
      ensures if timedOut then Expires(w, i) else done == |answer.calls| && !cutOff && !w.expired(Narrating(i))
      ensures handoff == HandoffAfter(w, i, answer.calls, done, cutOff)
      ensures !timedOut && handoff.None? ==> images && !w.expired(AfterBatch(i))
      ensures !timedOut && handoff.None? ==>
        var grown := Retained(Grown(w, i, old(turn), answer, done, true));
        (compacted <==> w.outputBudget.Some? && w.compact(i, grown).Some?)
      ensures timedOut || handoff.Some? ==> !compacted
      ensures var grown := Retained(Grown(w, i, old(turn), answer, done, images));
        if compacted then w.outputBudget.Some? && !timedOut && w.compact(i, grown).Some? && Retained(turn) == Retained(w.compact(i, grown).value)
        else Retained(turn) == grown
      ensures images ==> done == |answer.calls|
    {
      var start := |turn|;
      ghost var was := turn;
      images, compacted := false, false;
      timedOut, done, cutOff := AnswerCalls(w, i, answer);
      if timedOut || handoff.Some? {
        return;
      }
      timedOut, images, compacted := FinishBatch(w, i, answer, start, was);
    }

    /** The hint and the requested images after a complete batch. */
    method ShowImages(w: World, i: nat, answer: Chat, start: nat, ghost was: seq<Message>)
      requires answer.Answer? && ADVISORY_TAG <= w.advisory && start == |was|
      requires turn == Grown(w, i, was, answer, |answer.calls|, false)
      modifies `turn, `advised
      ensures Retained(turn) == Retained(Grown(w, i, was, answer, |answer.calls|, true))
      ensures start <= |turn| && Missing(w, answer.calls, AnsweredIds(turn[start..])) == []
    {
      ghost var batch := turn;
      GrownParts(w, i, was, answer, |answer.calls|);
      MaybeAdvise(w);
      ghost var advisedTurn := turn;
      if w.viewImage(i).Some? {
        turn := turn + [TextMessage(User, w.viewImage(i).value)];
      }
      ImagesRetained(w, i, was, answer, batch, advisedTurn, turn);
      NothingMissing(w, i, was, answer, batch, advisedTurn, turn);
    }

    /** After a complete batch without a handoff. */
    method FinishBatch(w: World, i: nat, answer: Chat, start: nat, ghost was: seq<Message>)
      returns (timedOut: bool, ghost images: bool, ghost compacted: bool)
      requires answer.Answer? && ADVISORY_TAG <= w.advisory && start == |was|
      requires turn == Grown(w, i, was, answer, |answer.calls|, false)
      modifies `turn, `advised
      ensures images && handoff == old(handoff)
      ensures if timedOut then Expires(w, i) && !compacted else !w.expired(AfterBatch(i))
      ensures !timedOut ==>
        var grown := Retained(Grown(w, i, was, answer, |answer.calls|, true));
        (compacted <==> w.outputBudget.Some? && w.compact(i, grown).Some?)
      ensures var grown := Retained(Grown(w, i, was, answer, |answer.calls|, true));
        if compacted then w.outputBudget.Some? && !timedOut && w.compact(i, grown).Some? && Retained(turn) == Retained(w.compact(i, grown).value)
        else Retained(turn) == grown
    {
      images, compacted := true, false;
      ShowImages(w, i, answer, start, was);
      if w.expired(AfterBatch(i)) || (w.outputBudget.Some? && w.expired(Compacting(i))) {
        assert turn == turn + [];
        AppendMissing(w, answer.calls, start);
        return true, images, compacted;
      }
      timedOut := false;
      if w.outputBudget.Some? {
        compacted := MaybeCompact(w, i);
      }
    }

    lemma ImagesRetained(w: World, i: nat, was: seq<Message>, answer: Chat, batch: seq<Message>,
                         advisedTurn: seq<Message>, shown: seq<Message>)
      requires answer.Answer? && batch == Grown(w, i, was, answer, |answer.calls|, false)
      requires Retained(advisedTurn) == Retained(batch)
      requires shown == if w.viewImage(i).Some? then advisedTurn + [TextMessage(User, w.viewImage(i).value)] else advisedTurn
      ensures Retained(shown) == Retained(Grown(w, i, was, answer, |answer.calls|, true))
    {
      var tail := if w.viewImage(i).Some? then [TextMessage(User, w.viewImage(i).value)] else [];
      assert shown == advisedTurn + tail && batch + tail == Grown(w, i, was, answer, |answer.calls|, true);
      RetainedConcat(advisedTurn, tail);
      RetainedConcat(batch, tail);
    }

    /** At the late deadlines every call has its result, so nothing is appended. */
    lemma NothingMissing(w: World, i: nat, was: seq<Message>, answer: Chat, batch: seq<Message>,
                         advisedTurn: seq<Message>, shown: seq<Message>)
      requires answer.Answer? && batch == Grown(w, i, was, answer, |answer.calls|, false)
      requires OnlyToolBodies(batch, advisedTurn) && advisedTurn <= shown
      ensures Missing(w, answer.calls, AnsweredIds(shown[|was|..])) == []
    {
      var calls, n := answer.calls, |was|;
      GrownParts(w, i, was, answer, |calls|);
      LaterPart(batch, advisedTurn, shown, n);
      AnsweredSame(batch[n..], advisedTurn[n..]);
      AnsweredConcat(advisedTurn[n..], shown[|advisedTurn|..]);
      AllAnswered(calls);
      MissingNone(w, calls, AnsweredIds(shown[n..]));
    }

    lemma LaterPart(a: seq<Message>, b: seq<Message>, c: seq<Message>, n: nat)
      requires OnlyToolBodies(a, b) && b <= c && n <= |a|
      ensures OnlyToolBodies(a[n..], b[n..]) && c[n..] == b[n..] + c[|b|..]
    {
      assert c == b + c[|b|..];
    }

    // ----- the loop

    /** A sound turn stays sound, given a compactor that keeps form and a provider with
        good calls. */
    twostate predicate StaysSound(w: World)
      reads `turn
    {
      KeepsForm(w) && ProviderGood(w) && old(Sound(Fit(w), turn)) ==> Sound(Fit(w), turn)
    }

    lemma HandledSound(w: World, i: nat, start: seq<Message>, answer: Chat, done: nat, images: bool,
                       compacted: bool, after: seq<Message>)
      requires Sound(Fit(w), start) && KeepsForm(w) && answer.Answer? && GoodCalls(Fit(w), answer) && done <= |answer.calls|
      requires var grown := Retained(Grown(w, i, start, answer, done, images));
        if compacted then w.outputBudget.Some? && w.compact(i, grown).Some? && Retained(after) == Retained(w.compact(i, grown).value)
        else Retained(after) == grown
      ensures Sound(Fit(w), after)
    {
      var grown := Grown(w, i, start, answer, done, images);
      GrownSound(w, i, start, answer, done, images);
      SoundRetained(Fit(w), grown);
      if compacted {
        SoundIfRetainedEqual(true, after, w.compact(i, Retained(grown)).value);
      } else {
        SoundIfRetainedEqual(Fit(w), after, grown);
      }
    }

    /** Steering input joins the turn as user messages. */
    method AppendExternal(w: World, texts: seq<string>)
      modifies `turn
      ensures forall fit :: Sound(fit, old(turn)) ==> Sound(fit, turn)
      ensures turn == old(turn) + Steering(w, texts)
    {
      ghost var was := turn;
      assert texts[0..] == texts;
      for k := 0 to |texts|
        invariant turn + Steering(w, texts[k..]) == was + Steering(w, texts)
      {
        assert texts[k..][1..] == texts[k + 1..];
        if w.strip(texts[k]) != "" {
          turn := turn + [TextMessage(User, w.strip(texts[k]))];
        }
      }
      assert texts[|texts|..] == [];
      SteeringUsers(w, texts);
      SteeringWhole(w, texts);
      UserWellFormed(Steering(w, texts));
      assert turn == was + Steering(w, texts) by {
        assert turn + [] == turn;
      }
      forall fit | Sound(fit, was) ensures Sound(fit, turn) {
        SoundAppend(fit, was, Steering(w, texts));
      }
    }

    /** Whether the provider may be asked again after a failure: the context overflowed for
        the first time in this turn, and there are tool results to compact. */
    predicate MayRetry(w: World, i: nat)
      reads `turn, `overflowHandled
    {
      Overflows(w, i) && !overflowHandled && exists k :: 0 <= k < |turn| && turn[k].role.Tool?
    }

    /** The provider call, with one retry after an emergency compaction; none when the
        deadline fires. */
    method Ask(w: World, i: nat) returns (answer: Option<Chat>)
      modifies `turn, `overflowHandled
      ensures StaysSound(w)
      ensures var retries := !w.expired(Chatting(i)) && old(MayRetry(w, i));
        && (answer.None? <==> w.expired(Chatting(i)) || (retries && (w.expired(Emergency(i)) || w.expired(Retrying(i)))))
        && (answer.Some? ==> answer.value == if retries then w.retry(i) else w.chat(i))
        && turn == (if retries && !w.expired(Emergency(i)) then w.emergency(i, Retained(old(turn))) else old(turn))
        && (overflowHandled <==> old(overflowHandled) || retries)
    {
      if w.expired(Chatting(i)) {
        return None;
      }
      answer := Some(w.chat(i));
      if w.chat(i).ChatFailed? && w.chat(i).overflow && w.outputBudget.Some? && !overflowHandled
         && i > 0 && exists k :: 0 <= k < |turn| && turn[k].role.Tool?
      {
        overflowHandled := true;
        if w.expired(Emergency(i)) {
          return None;
        }
        SoundRetained(true, turn);
        turn := w.emergency(i, Retained(turn));
        if w.expired(Retrying(i)) {
          return None;
        }
        answer := Some(w.retry(i));
      }
    }

    method Finish(m: Message)
      requires m.role.Assistant? && m.calls == [] && Whole(m)
      modifies `turn, context
      ensures turn == old(turn) + [m]
      ensures context.messages == Trim(old(context.messages) + Retained(turn), context.maxHistory)
      ensures forall fit :: old(Sound(fit, turn)) ==> Sound(fit, turn)
    {
      GroupWellFormed(m, []);
      assert [m] + [] == [m];
      forall fit | Sound(fit, turn) ensures Sound(fit, turn + [m]) {
        SoundAppend(fit, turn, [m]);
      }
      turn := turn + [m];
      context.AddMessages(Retained(turn));
    }

    /** `finish_timeout`: a handoff in force wins over the timeout reply. */
    method FinishTimeout(w: World) returns (ending: Ending)
      modifies `turn, context
      ensures ending == if handoff.Some? then HandedOff else TimedOut
      ensures turn == old(turn) + [TextMessage(Assistant, if handoff.Some? then w.handoffText else w.timeoutText)]
      ensures context.messages == Trim(old(context.messages) + Retained(turn), context.maxHistory)
      ensures forall fit :: old(Sound(fit, turn)) ==> Sound(fit, turn)
    {
      if handoff.Some? {
        Finish(TextMessage(Assistant, w.handoffText));
        return HandedOff;
      }
      Finish(TextMessage(Assistant, w.timeoutText));
      return TimedOut;
    }

    lemma ClosedBy(mid: seq<Message>, m: Message)
      ensures Closed(mid + [m], Retained(mid), m)
    {
      assert (mid + [m])[..|mid|] == mid;
    }

    /** One iteration; none when the loop goes on. */
    method Iterate(w: World, i: nat) returns (ending: Option<Ending>, ghost round: Round)
      requires handoff.None? && ADVISORY_TAG <= w.advisory
      modifies this, context
      ensures ending.None? ==> handoff.None?
      ensures ending != Some(MaxIterations)
      ensures ending.None? || ending == Some(ProviderError) ==> context.messages == old(context.messages)
      ensures ending.Some? && ending != Some(ProviderError) ==>
        context.messages == Trim(old(context.messages) + Retained(turn), context.maxHistory)
      ensures StaysSound(w)
      ensures ending.None? ==>
        && GoesOn(w, i, round) && round.before == Retained(old(turn)) && round.after == Retained(turn)
        && assets == old(assets) + round.answer.assets
      ensures ending.Some? ==> Ends(w, i, Retained(old(turn)), old(assets), turn, ending.value)
    {
      ghost var before := Retained(turn);
      round := Round(before, before, w.chat(i), before);
      if w.expired(Polling(i)) {
        ending := StopEarly(w, i, before);
        return;
      }
      Joins(w, i, turn);
      AppendExternal(w, w.external(i));
      if w.expired(Thinking(i)) {
        ending := StopEarly(w, i, before);
        return;
      }
      var reply := Ask(w, i);
      if reply.None? {
        ending := StopEarly(w, i, before);
        return;
      }
      ghost var base := Retained(turn);
      assert Asked(w, i, before, reply.value, base);
      if reply.value.ChatFailed? {
        return Some(ProviderError), round;
      }
      assets := assets + reply.value.assets;
      if w.expired(Accounting(i)) {
        ending := StopEarly(w, i, before);
        return;
      }
      ending := React(w, i, reply.value);
      round := Round(before, base, reply.value, Retained(turn));
    }

    lemma Joins(w: World, i: nat, turn: seq<Message>)
      ensures Retained(turn + Steering(w, w.external(i))) == Joined(w, i, Retained(turn))
    {
      RetainedConcat(turn, Steering(w, w.external(i)));
    }

    /** The deadline fires before there is an answer to react to. */
    method StopEarly(w: World, i: nat, ghost before: seq<Message>) returns (ending: Option<Ending>)
      requires handoff.None? && StopsBefore(w, i, before, Retained(turn)) && Expires(w, i)
      modifies `turn, context
      ensures ending == Some(TimedOut) && forall assets :: Ends(w, i, before, assets, turn, TimedOut)
      ensures context.messages == Trim(old(context.messages) + Retained(turn), context.maxHistory)
      ensures forall fit :: old(Sound(fit, turn)) ==> Sound(fit, turn)
    {
      ClosedBy(turn, TextMessage(Assistant, w.timeoutText));
      var e := FinishTimeout(w);
      return Some(e);
    }

    /** What an iteration does with an answer. */
    method React(w: World, i: nat, answer: Chat) returns (ending: Option<Ending>)
      requires handoff.None? && ADVISORY_TAG <= w.advisory && answer.Answer?
      requires answer == w.chat(i) || answer == w.retry(i)
      modifies `turn, `handoff, `substantive, `advised, context
      ensures ending.None? ==> handoff.None? && context.messages == old(context.messages)
      ensures ending.Some? ==>
        && ending.value != ProviderError && ending.value != MaxIterations
        && context.messages == Trim(old(context.messages) + Retained(turn), context.maxHistory)
      ensures StaysSound(w)
      ensures if ending.None? then Continues(w, i, Retained(old(turn)), answer, Retained(turn))
              else ReactEnds(w, i, Retained(old(turn)), answer, assets, turn, ending.value)
    {
      if answer.calls == [] {
        var text := FinalText(w, i, answer, assets);
        assert ReplyText(w, i, answer, assets, text);
        ClosedBy(turn, AssistantMessage(text, [], answer.raw));
        Finish(AssistantMessage(text, [], answer.raw));
        return Some(Completed);
      }
      ending := ReactToCalls(w, i, answer);
    }

    /** What it does with one that has calls. */
    method ReactToCalls(w: World, i: nat, answer: Chat) returns (ending: Option<Ending>)
      requires handoff.None? && ADVISORY_TAG <= w.advisory && answer.Answer? && answer.calls != []
      requires answer == w.chat(i) || answer == w.retry(i)
      modifies `turn, `handoff, `substantive, `advised, context
      ensures ending.None? ==> handoff.None? && context.messages == old(context.messages)
      ensures ending.Some? ==>
        && ending.value != ProviderError && ending.value != MaxIterations
        && context.messages == Trim(old(context.messages) + Retained(turn), context.maxHistory)
      ensures StaysSound(w)
      ensures if ending.None? then Continues(w, i, Retained(old(turn)), answer, Retained(turn))
              else ReactEnds(w, i, Retained(old(turn)), answer, assets, turn, ending.value)
    {
      ghost var start := turn;
      var timedOut;
      ghost var done, cutOff, images, compacted;
      timedOut, done, cutOff, images, compacted := HandleToolResponse(w, i, answer);
      if KeepsForm(w) && ProviderGood(w) && Sound(Fit(w), start) {
        HandledSound(w, i, start, answer, done, images, compacted, turn);
      }
      HandledStops(w, i, start, answer, done, cutOff, images, compacted, Retained(turn));
      if timedOut || (handoff.None? && w.expired(Checkpointing(i))) {
        ending := StopIn(w, i, Retained(start), answer);
      } else if handoff.Some? {
        ClosedBy(turn, TextMessage(Assistant, w.handoffText));
        Finish(TextMessage(Assistant, w.handoffText));
        ending := Some(HandedOff);
      } else {
        ending := None;
      }
    }

    method StopIn(w: World, i: nat, ghost base: seq<Message>, answer: Chat) returns (ending: Option<Ending>)
      requires StopsIn(w, i, base, answer, handoff.Some?, Retained(turn)) && Expires(w, i)
      modifies `turn, context
      ensures ending.Some? && ending.value != ProviderError && ending.value != MaxIterations
      ensures ReactEnds(w, i, base, answer, assets, turn, ending.value)
      ensures context.messages == Trim(old(context.messages) + Retained(turn), context.maxHistory)
      ensures forall fit :: old(Sound(fit, turn)) ==> Sound(fit, turn)
    {
      ClosedBy(turn, TextMessage(Assistant, if handoff.Some? then w.handoffText else w.timeoutText));
      var e := FinishTimeout(w);
      return Some(e);
    }

    /** What handling a response leaves is a place where the deadline may stop the
        iteration, and where the loop may go on. */
    lemma HandledStops(w: World, i: nat, start: seq<Message>, answer: Chat, done: nat, cutOff: bool, images: bool,
                       compacted: bool, after: seq<Message>)
      requires answer.Answer? && answer.calls != [] && done <= |answer.calls|
      requires var grown := Retained(Grown(w, i, start, answer, done, images));
        if compacted then w.outputBudget.Some? && w.compact(i, grown).Some? && after == Retained(w.compact(i, grown).value)
        else after == grown
      requires compacted ==> done == |answer.calls| && HandoffAfter(w, i, answer.calls, done, cutOff).None?
      ensures StopsIn(w, i, Retained(start), answer, HandoffAfter(w, i, answer.calls, done, cutOff).Some?, after)
      ensures images && done == |answer.calls| && !cutOff && !w.expired(Narrating(i)) && !w.expired(AfterBatch(i))
        && !w.expired(Checkpointing(i)) && HandoffAfter(w, i, answer.calls, done, cutOff).None?
        && (compacted <==> w.outputBudget.Some? && w.compact(i, Retained(Grown(w, i, start, answer, done, images))).Some?)
        ==> Continues(w, i, Retained(start), answer, after)
    {
      GrownGrows(w, i, start, answer, done, images);
    }

    /** The turn is where the rounds so far have brought it. */
    ghost predicate At(w: World, start: seq<Message>, rounds: seq<Round>, counted: nat)
      reads `turn, `assets, `handoff
    {
      && Follows(w, start, rounds) && Retained(turn) == LastTurn(start, rounds)
      && handoff.None? && assets == counted + Assets(rounds)
    }

    /** One more iteration of a run. */
    method Advance(w: World, i: nat, ghost start: seq<Message>, ghost before: seq<Round>, ghost counted: nat)
      returns (ending: Option<Ending>, ghost rounds: seq<Round>)
      requires i == |before| && At(w, start, before, counted) && ADVISORY_TAG <= w.advisory
      modifies this, context
      ensures ending.None? ==> |rounds| == i + 1 && At(w, start, rounds, counted)
      ensures ending.Some? ==> rounds == before && Ends(w, i, LastTurn(start, before), counted + Assets(before), turn, ending.value)
      ensures ending != Some(MaxIterations)
      ensures ending.None? || ending == Some(ProviderError) ==> context.messages == old(context.messages)
      ensures ending.Some? && ending != Some(ProviderError) ==>
        context.messages == Trim(old(context.messages) + Retained(turn), context.maxHistory)
      ensures StaysSound(w)
    {
      ghost var round;
      ending, round := Iterate(w, i);
      rounds := before;
      if ending.None? {
        OneMore(w, start, before, round);
        rounds := before + [round];
      }
    }

    /** The loop of `run` with what closes the turn behind it. */
    method RunRounds(w: World, maxIterations: nat) returns (ending: Ending, ghost rounds: seq<Round>)
      requires handoff.None? && ADVISORY_TAG <= w.advisory
      modifies this, context
      ensures Follows(w, Retained(old(turn)), rounds)
      ensures RunEnds(w, maxIterations, LastTurn(Retained(old(turn)), rounds), |rounds|, old(assets) + Assets(rounds), turn, ending)
      ensures context.messages ==
        if ending.ProviderError? then old(context.messages) else Trim(old(context.messages) + Retained(turn), context.maxHistory)
      ensures StaysSound(w)
    {
      ghost var history, start, counted := context.messages, Retained(turn), assets;
      rounds := [];
      for i := 0 to maxIterations
        invariant |rounds| == i && At(w, start, rounds, counted) && context.messages == history
        invariant StaysSound(w)
      {
        var e;
        e, rounds := Advance(w, i, start, rounds, counted);
        if e.Some? {
          ending := e.value;
          return;
        }
      }
      FinishFallback(w, maxIterations, LastTurn(start, rounds));
      ending := MaxIterations;
    }

    /** `_finish_with_fallback` behind the last iteration. */
    method FinishFallback(w: World, maxIterations: nat, ghost before: seq<Message>)
      requires Retained(turn) == before
      modifies `turn, context
      ensures forall count :: RunEnds(w, maxIterations, before, maxIterations, count, turn, MaxIterations)
      ensures context.messages == Trim(old(context.messages) + Retained(turn), context.maxHistory)
      ensures forall fit :: old(Sound(fit, turn)) ==> Sound(fit, turn)
    {
      ClosedBy(turn, TextMessage(Assistant, w.fallbackText));
      Finish(TextMessage(Assistant, w.fallbackText));
    }

    /** `_ConversationRunner.run`. The turn grows round by round, and its closing message
        is what the ending says: a completed turn ends in the text of an answer without
        calls. Unless the provider failed, the stored history is the trimmed old history
        with the retained turn; a turn in form is stored in form, without the advisory
        and within a positive limit. */
    method Run(w: World, maxIterations: nat) returns (ending: Ending, ghost rounds: seq<Round>)
      requires handoff.None? && ADVISORY_TAG <= w.advisory
      modifies this, context
      ensures Follows(w, Retained(old(turn)), rounds)
      ensures RunEnds(w, maxIterations, LastTurn(Retained(old(turn)), rounds), |rounds|, old(assets) + Assets(rounds), turn, ending)
      ensures ending.ProviderError? ==> context.messages == old(context.messages)
      ensures !ending.ProviderError? ==>
        context.messages == Trim(old(context.messages) + Retained(turn), context.maxHistory)
      ensures StaysSound(w)
      ensures KeepsForm(w) && ProviderGood(w) && old(Sound(Fit(w), turn) && WellFormed(context.messages) && Clean(context.messages)) ==>
        && WellFormed(context.messages) && Clean(context.messages)
        && (context.maxHistory > 0 && !ending.ProviderError? ==> |context.messages| <= context.maxHistory)
    {
      ghost var history := context.messages;
      ending, rounds := RunRounds(w, maxIterations);
      Stored(Fit(w), history, turn, context.maxHistory);
    }
  }

  predicate HasResult(ms: seq<Message>) {
    exists k :: 0 <= k < |ms| && ms[k].role.Tool?
  }

  /** The newest tool result has the hint as one more part. */
  ghost predicate HintedAt(was: seq<Message>, now: seq<Message>, advisory: string) {
    exists i :: 0 <= i < |was| && was[i].role.Tool?
      && now == was[i := was[i].(parts := was[i].parts + [Text(Some(advisory))])]
      && forall j :: i < j < |was| ==> !was[j].role.Tool?
  }

  /** Steering texts that are not blank, stripped, as user messages in their order. */
  function Steering(w: World, texts: seq<string>): seq<Message> {
    if texts == [] then []
    else (if w.strip(texts[0]) == "" then [] else [TextMessage(User, w.strip(texts[0]))]) + Steering(w, texts[1..])
  }

  lemma SteeringOne(w: World, text: string)
    ensures Steering(w, [text]) == if w.strip(text) == "" then [] else [TextMessage(User, w.strip(text))]
  {
    assert [text][1..] == [];
  }

  lemma {:induction false} SteeringConcat(w: World, a: seq<string>, b: seq<string>)
    ensures Steering(w, a + b) == Steering(w, a) + Steering(w, b)
  {
    if a == [] {
      assert a + b == b;
    } else {
      assert (a + b)[1..] == a[1..] + b;
      SteeringConcat(w, a[1..], b);
    }
  }

  lemma {:induction false} SteeringWhole(w: World, texts: seq<string>)
    ensures AllWhole(Steering(w, texts))
  {
    if texts != [] {
      SteeringWhole(w, texts[1..]);
      AllWholeConcat(if w.strip(texts[0]) == "" then [] else [TextMessage(User, w.strip(texts[0]))], Steering(w, texts[1..]));
    }
  }

  lemma {:induction false} SteeringUsers(w: World, texts: seq<string>)
    ensures forall m :: m in Steering(w, texts) ==> m.role.User?
  {
    if texts != [] {
      SteeringUsers(w, texts[1..]);
    }
  }

  /** What storing a retained turn behind a history keeps. */
  lemma Stored(fit: bool, history: seq<Message>, turn: seq<Message>, maxHistory: int)
    ensures var stored := Trim(history + Retained(turn), maxHistory);
      && (WellFormed(history) && Sound(fit, turn) ==>
            WellFormed(stored) && (maxHistory > 0 ==> |stored| <= maxHistory))
      && (WellFormed(history) && Sound(fit, turn) && Clean(history) ==> Clean(stored))
  {
    if WellFormed(history) && Sound(fit, turn) {
      RetainedWellFormed(turn);
      WellFormedConcat(history, Retained(turn));
      TrimKeepsForm(history + Retained(turn), maxHistory);
      RetainedClean(turn);
    }
  }
}
