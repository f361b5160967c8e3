/** Durable coding tasks (bot/app/coding_tasks.py): a checkpoint pairs a transcript
    with the cursor of the task events it has taken in. */
module CodingCheckpoint {
  import opened Wrappers
  import opened Transcript
  import opened CheckpointCodec
  import C = Compaction
  import V = Conversation

  // ----- task events

  datatype EventKind = Steering | Recovered | OtherEvent

  datatype TaskEvent = TaskEvent(id: nat, kind: EventKind, message: string)

  /** The characters that `str.strip` removes. */
  predicate IsSpace(c: char) {
    var n := c as int;
    || 0x09 <= n <= 0x0D || 0x1C <= n <= 0x20 || n == 0x85 || n == 0xA0 || n == 0x1680
    || 0x2000 <= n <= 0x200A || n == 0x2028 || n == 0x2029 || n == 0x202F || n == 0x205F || n == 0x3000
  }

  function Strip(s: string): string {
    if s != "" && IsSpace(s[0]) then Strip(s[1..])
    else if s != "" && IsSpace(s[|s| - 1]) then Strip(s[..|s| - 1])
    else s
  }

  /** An event that has to reach the model. */
  predicate Instructs(e: TaskEvent) {
    Strip(e.message) != "" && !e.kind.OtherEvent?
  }

  function Instruction(e: TaskEvent): string {
    (if e.kind.Steering? then "Additional instruction from the user: " else "Recovery safety notice: ") + Strip(e.message)
  }

  /** `events(after_id)`. */
  function After(events: seq<TaskEvent>, cursor: nat): seq<TaskEvent> {
    if events == [] then [] else
      (if events[0].id > cursor then [events[0]] else []) + After(events[1..], cursor)
  }

  /** The instructions among some events. */
  function Instructing(events: seq<TaskEvent>): seq<TaskEvent> {
    if events == [] then [] else
      Instructing(events[..|events| - 1]) + (if Instructs(events[|events| - 1]) then [events[|events| - 1]] else [])
  }

  predicate Ascending(events: seq<TaskEvent>) {
    (forall i :: 0 <= i < |events| ==> events[i].id > 0)
    && forall i, j :: 0 <= i < j < |events| ==> events[i].id < events[j].id
  }

  function UpTo(events: seq<TaskEvent>, cursor: nat): seq<TaskEvent> {
    if events == [] then [] else
      (if events[0].id <= cursor then [events[0]] else []) + UpTo(events[1..], cursor)
  }

  /** The instructions that a transcript with this cursor must have taken in. */
  function Wanted(events: seq<TaskEvent>, cursor: nat): seq<TaskEvent> {
    Instructing(UpTo(events, cursor))
  }

  /** Some steering among the events has a text. */
  predicate Steered(events: seq<TaskEvent>) {
    exists i :: 0 <= i < |events| && Instructs(events[i]) && events[i].kind.Steering?
  }

  lemma InstructingSnoc(events: seq<TaskEvent>, i: nat)
    requires i < |events|
    ensures Instructing(events[..i + 1]) == Instructing(events[..i]) + (if Instructs(events[i]) then [events[i]] else [])
  {
    assert events[..i + 1][..i] == events[..i];
  }

  function Texts(events: seq<TaskEvent>): seq<string> {
    seq(|events|, i requires 0 <= i < |events| => Instruction(events[i]))
  }

  lemma TextsSnoc(events: seq<TaskEvent>, e: TaskEvent)
    ensures Texts(events + [e]) == Texts(events) + [Instruction(e)]
  {
  }

  lemma {:induction false} InstructingConcat(a: seq<TaskEvent>, b: seq<TaskEvent>)
    ensures Instructing(a + b) == Instructing(a) + Instructing(b)
    decreases |b|
  {
    if b == [] {
      assert a + b == a;
    } else {
      assert (a + b)[..|a + b| - 1] == a + b[..|b| - 1];
      InstructingConcat(a, b[..|b| - 1]);
    }
  }

  lemma {:induction false} UpToConcat(a: seq<TaskEvent>, b: seq<TaskEvent>, cursor: nat)
    ensures UpTo(a + b, cursor) == UpTo(a, cursor) + UpTo(b, cursor)
  {
    if a == [] {
      assert a + b == b;
    } else {
      assert (a + b)[1..] == a[1..] + b;
      UpToConcat(a[1..], b, cursor);
      var head := if a[0].id <= cursor then [a[0]] else [];
      assert head + (UpTo(a[1..], cursor) + UpTo(b, cursor)) == head + UpTo(a[1..], cursor) + UpTo(b, cursor);
    }
  }

  lemma {:induction false} AllUpTo(events: seq<TaskEvent>, cursor: nat)
    requires forall e :: e in events ==> e.id <= cursor
    ensures UpTo(events, cursor) == events && After(events, cursor) == []
  {
    if events != [] {
      AllUpTo(events[1..], cursor);
    }
  }

  lemma {:induction false} NoneUpTo(events: seq<TaskEvent>, cursor: nat)
    requires forall e :: e in events ==> e.id > cursor
    ensures UpTo(events, cursor) == [] && After(events, cursor) == events
  {
    if events != [] {
      NoneUpTo(events[1..], cursor);
    }
  }

  /** Later events have higher ids, so they never change what a cursor stands for. */
  lemma WantedStable(events: seq<TaskEvent>, later: seq<TaskEvent>, cursor: nat)
    requires forall e :: e in later ==> e.id > cursor
    ensures Wanted(events + later, cursor) == Wanted(events, cursor)
  {
    NoneUpTo(later, cursor);
    UpToConcat(events, later, cursor);
    assert UpTo(events, cursor) + [] == UpTo(events, cursor);
  }

  lemma {:induction false} CursorSplits(events: seq<TaskEvent>, cursor: nat)
    requires Ascending(events)
    ensures events == UpTo(events, cursor) + After(events, cursor)
  {
    if events != [] {
      if events[0].id > cursor {
        NoneUpTo(events, cursor);
      } else {
        CursorSplits(events[1..], cursor);
      }
    }
  }

  /** Reading after a cursor and moving it to the last event read takes in exactly
      the instructions in between. */
  lemma PollAdvances(events: seq<TaskEvent>, cursor: nat)
    requires Ascending(events)
    ensures var unread := After(events, cursor);
      unread != [] ==> Wanted(events, unread[|unread| - 1].id) == Wanted(events, cursor) + Instructing(unread)
  {
    var unread := After(events, cursor);
    CursorSplits(events, cursor);
    if unread != [] {
      var last := unread[|unread| - 1].id;
      assert unread[|unread| - 1] == events[|events| - 1];
      forall e | e in events ensures e.id <= last {
        var i :| 0 <= i < |events| && events[i] == e;
      }
      AllUpTo(events, last);
      InstructingConcat(UpTo(events, cursor), unread);
    }
  }

  // ----- the transcript and what it has taken in

  /** A transcript by provenance: an instruction, any other message, or a summary
      note together with the instructions of the prefix it replaced. */
  datatype Item = Instructed(event: TaskEvent) | Other(message: Message) | Summary(covered: seq<TaskEvent>)

  function TakenIn(items: seq<Item>): seq<TaskEvent> {
    if items == [] then [] else
      (match items[0]
       case Instructed(e) => [e]
       case Other(_) => []
       case Summary(covered) => covered)
      + TakenIn(items[1..])
  }

  lemma {:induction false} TakenInConcat(a: seq<Item>, b: seq<Item>)
    ensures TakenIn(a + b) == TakenIn(a) + TakenIn(b)
  {
    if a == [] {
      assert a + b == b;
    } else {
      assert (a + b)[1..] == a[1..] + b;
      TakenInConcat(a[1..], b);
    }
  }

  function Delivered(events: seq<TaskEvent>): seq<Item> {
    seq(|events|, i requires 0 <= i < |events| => Instructed(events[i]))
  }

  lemma {:induction false} DeliveredTakenIn(events: seq<TaskEvent>)
    ensures TakenIn(Delivered(events)) == events
  {
    if events != [] {
      assert Delivered(events)[1..] == Delivered(events[1..]);
      DeliveredTakenIn(events[1..]);
    }
  }

  // ----- the protocol

  /** A checkpoint; `set_checkpoint` replaces it atomically. */
  datatype Saved = Saved(items: seq<Item>, cursor: nat)

  /** A worker: its restored history and its turn, the cursor its closures share,
      what a read has returned, and what is on its way into the turn. */
  datatype Worker = Worker(history: seq<Item>, turn: seq<Item>, cursor: nat,
                           read: Option<seq<TaskEvent>>, pending: seq<TaskEvent>)

  /** `writes` are the checkpoints handed to the store; one that was detached by a
      timeout may commit at any later moment. */
  datatype State = State(events: seq<TaskEvent>, saved: Saved, worker: Option<Worker>, writes: seq<Saved>)

  datatype Step =
    | Append(event: TaskEvent)
    | Start(prompt: Message)
    | Read
    | Return
    | Deliver
    | Respond(messages: seq<Message>)
    | Compact(how: Rework)
    | Checkpoint
    | Commit(write: nat)
    | Crash

  const INITIAL := State([], Saved([], 0), None, [])

  function Others(messages: seq<Message>): seq<Item> {
    seq(|messages|, i requires 0 <= i < |messages| => Other(messages[i]))
  }

  /** What a step does to the running worker and the checkpoints it hands over. */
  function ApplyWorker(s: State, w: Worker, step: Step): State {
    match step
    case Read =>
      if w.read.None? && w.pending == [] then s.(worker := Some(w.(read := Some(After(s.events, w.cursor))))) else s
    case Return =>
      if w.read.None? then s
      else if w.read.value == [] then s.(worker := Some(w.(read := None)))
      else s.(worker := Some(w.(read := None, pending := Instructing(w.read.value),
                                cursor := w.read.value[|w.read.value| - 1].id)))
    case Deliver =>
      s.(worker := Some(w.(turn := w.turn + Delivered(w.pending), pending := [])))
    case Respond(messages) =>
      s.(worker := Some(w.(turn := w.turn + Others(messages))))
    case Compact(how) =>
      if w.turn != [] then s.(worker := Some(w.(turn := Reworked(w.turn, how)))) else s
    case Checkpoint =>
      // The loop reaches its checkpoint only after what was read has been delivered.
      if w.read.None? && w.pending == [] then s.(writes := s.writes + [Saved(w.history + w.turn, w.cursor)]) else s
    case _ => s
  }

  /** What a pass of the compactor does with a turn: which messages it drops, how many of
      the rest are its prefix, whether a summary replaces that, which messages it puts
      behind the prefix and at the end, and how all of them look afterwards. */
  datatype Rework = Rework(
    drop: seq<bool>, prefix: nat, summarized: bool, middle: seq<Message>, end: seq<Message>, shown: seq<Message>)

  /** Without the messages to be dropped, of which no instruction is one. */
  function Dropped(items: seq<Item>, drop: seq<bool>): seq<Item> {
    if items == [] || drop == [] then items
    else (if drop[0] && items[0].Other? then [] else [items[0]]) + Dropped(items[1..], drop[1..])
  }

  /** The same items, where ordinary messages have become these. */
  function Relabelled(items: seq<Item>, shown: seq<Message>): seq<Item> {
    if |shown| == |items| then
      seq(|items|, i requires 0 <= i < |items| => if items[i].Other? then Other(shown[i]) else items[i])
    else items
  }

  function Reworked(turn: seq<Item>, how: Rework): seq<Item>
    requires turn != []
  {
    Relabelled(Rearranged(turn, how), how.shown)
  }

  function Rearranged(turn: seq<Item>, how: Rework): seq<Item>
    requires turn != []
  {
    var body := Dropped(turn[1..], how.drop);
    var n := if how.prefix <= |body| then how.prefix else |body|;
    [turn[0]] + (if how.summarized then [Summary(TakenIn(body[..n]))] else body[..n]) + Others(how.middle) + body[n..]
    + Others(how.end)
  }

  function Apply(s: State, step: Step): State {
    match step
    case Append(e) =>
      if e.id > 0 && forall x :: x in s.events ==> x.id < e.id then s.(events := s.events + [e]) else s
    case Start(prompt) =>
      s.(worker := Some(Worker(s.saved.items, [Other(prompt)], s.saved.cursor, None, [])))
    case Crash => s.(worker := None)
    case Commit(i) => if i < |s.writes| then s.(saved := s.writes[i]) else s
    case _ => if s.worker.None? then s else ApplyWorker(s, s.worker.value, step)
  }

  function Run(steps: seq<Step>): State {
    if steps == [] then INITIAL else Apply(Run(steps[..|steps| - 1]), steps[|steps| - 1])
  }

  /** The cursor is 0 or names an event that was there to be read. */
  ghost predicate Reached(events: seq<TaskEvent>, cursor: nat) {
    cursor == 0 || exists e :: e in events && e.id == cursor
  }

  /** A saved pair of transcript and cursor agrees with the events. */
  ghost predicate Agrees(events: seq<TaskEvent>, saved: Saved) {
    TakenIn(saved.items) == Wanted(events, saved.cursor) && Reached(events, saved.cursor)
  }

  ghost predicate WorkerAgrees(events: seq<TaskEvent>, w: Worker) {
    && TakenIn(w.history) + TakenIn(w.turn) + w.pending == Wanted(events, w.cursor)
    && Reached(events, w.cursor)
    && (w.read.Some? ==> w.pending == [] && ReadEarlier(events, w.cursor, w.read.value))
  }

  /** What a read returned was all that followed the cursor at some earlier moment. */
  ghost predicate ReadEarlier(events: seq<TaskEvent>, cursor: nat, read: seq<TaskEvent>) {
    exists n: nat :: n <= |events| && Reached(events[..n], cursor) && read == After(events[..n], cursor)
  }

  ghost predicate Inv(s: State) {
    && Ascending(s.events)
    && Agrees(s.events, s.saved)
    && (s.worker.Some? ==> WorkerAgrees(s.events, s.worker.value))
    && forall i :: 0 <= i < |s.writes| ==> Agrees(s.events, s.writes[i])
  }

  lemma ReachedStaysBehind(events: seq<TaskEvent>, n: nat, cursor: nat)
    requires Ascending(events) && n <= |events| && Reached(events[..n], cursor)
    ensures forall e :: e in events[n..] ==> e.id > cursor
    ensures Reached(events, cursor)
    ensures Wanted(events, cursor) == Wanted(events[..n], cursor)
  {
    forall e | e in events[n..] ensures e.id > cursor {
      var j :| 0 <= j < |events[n..]| && events[n..][j] == e;
      if cursor != 0 {
        var x :| x in events[..n] && x.id == cursor;
        var i :| 0 <= i < n && events[..n][i] == x;
        assert events[i].id < events[n + j].id;
      }
    }
    assert events == events[..n] + events[n..];
    WantedStable(events[..n], events[n..], cursor);
  }

  lemma AscendingSnoc(events: seq<TaskEvent>, e: TaskEvent)
    requires Ascending(events) && e.id > 0 && forall x :: x in events ==> x.id < e.id
    ensures Ascending(events + [e])
  {
    forall i | 0 <= i < |events| ensures events[i].id < e.id {
      assert events[i] in events;
    }
  }

  lemma SavedSnoc(events: seq<TaskEvent>, e: TaskEvent, saved: Saved)
    requires Ascending(events + [e]) && Agrees(events, saved)
    ensures Agrees(events + [e], saved)
  {
    assert (events + [e])[..|events|] == events;
    ReachedStaysBehind(events + [e], |events|, saved.cursor);
  }

  lemma WorkerSnoc(events: seq<TaskEvent>, e: TaskEvent, w: Worker)
    requires Ascending(events + [e]) && WorkerAgrees(events, w)
    ensures WorkerAgrees(events + [e], w)
  {
    assert (events + [e])[..|events|] == events;
    ReachedStaysBehind(events + [e], |events|, w.cursor);
    if w.read.Some? {
      var n: nat :| n <= |events| && Reached(events[..n], w.cursor) && w.read.value == After(events[..n], w.cursor);
      assert (events + [e])[..n] == events[..n];
    }
  }

  lemma AppendKeeps(s: State, e: TaskEvent)
    requires Inv(s)
    ensures Inv(Apply(s, Append(e)))
  {
    if e.id > 0 && forall x :: x in s.events ==> x.id < e.id {
      AscendingSnoc(s.events, e);
      SavedSnoc(s.events, e, s.saved);
      forall i | 0 <= i < |s.writes| ensures Agrees(s.events + [e], s.writes[i]) {
        SavedSnoc(s.events, e, s.writes[i]);
      }
      if s.worker.Some? {
        WorkerSnoc(s.events, e, s.worker.value);
      }
    }
  }

  lemma {:induction false} LastUnread(events: seq<TaskEvent>, cursor: nat)
    requires Ascending(events) && After(events, cursor) != []
    ensures events != [] && After(events, cursor)[|After(events, cursor)| - 1] == events[|events| - 1]
  {
    CursorSplits(events, cursor);
  }

  lemma LastIsReached(events: seq<TaskEvent>, n: nat)
    requires 0 < n <= |events|
    ensures Reached(events[..n], events[n - 1].id)
  {
    assert events[..n][n - 1] == events[n - 1];
  }

  lemma ReadTakesInAt(events: seq<TaskEvent>, n: nat, cursor: nat)
    requires Ascending(events) && n <= |events| && Reached(events[..n], cursor) && After(events[..n], cursor) != []
    ensures var read := After(events[..n], cursor); var last := read[|read| - 1].id;
      Wanted(events, last) == Wanted(events, cursor) + Instructing(read) && Reached(events, last)
  {
    PollAdvances(events[..n], cursor);
    LastUnread(events[..n], cursor);
    LastIsReached(events, n);
    ReachedStaysBehind(events, n, cursor);
    ReachedStaysBehind(events, n, events[n - 1].id);
  }

  /** A read that returns late still takes in all that lies below its last event. */
  lemma ReadTakesIn(events: seq<TaskEvent>, cursor: nat, read: seq<TaskEvent>)
    requires Ascending(events) && read != [] && ReadEarlier(events, cursor, read)
    ensures var last := read[|read| - 1].id;
      Wanted(events, last) == Wanted(events, cursor) + Instructing(read) && Reached(events, last)
  {
    var n: nat :| n <= |events| && Reached(events[..n], cursor) && read == After(events[..n], cursor);
    ReadTakesInAt(events, n, cursor);
  }

  lemma ReturnKeeps(s: State)
    requires Inv(s) && s.worker.Some?
    ensures Inv(Apply(s, Return))
  {
    var w := s.worker.value;
    if w.read.Some? && w.read.value != [] {
      ReadTakesIn(s.events, w.cursor, w.read.value);
      assert TakenIn(w.history) + TakenIn(w.turn) + [] == TakenIn(w.history) + TakenIn(w.turn);
    }
  }

  lemma {:induction false} OthersTakeNothing(messages: seq<Message>)
    ensures TakenIn(Others(messages)) == []
  {
    if messages != [] {
      assert Others(messages)[1..] == Others(messages[1..]);
      OthersTakeNothing(messages[1..]);
    }
  }

  lemma {:induction false} DroppedTakesIn(items: seq<Item>, drop: seq<bool>)
    ensures TakenIn(Dropped(items, drop)) == TakenIn(items)
  {
    if items != [] && drop != [] {
      DroppedTakesIn(items[1..], drop[1..]);
      TakenInConcat(if drop[0] && items[0].Other? then [] else [items[0]], Dropped(items[1..], drop[1..]));
    }
  }

  lemma {:induction false} RelabelledTakesIn(items: seq<Item>, shown: seq<Message>)
    ensures TakenIn(Relabelled(items, shown)) == TakenIn(items)
  {
    if |shown| == |items| && items != [] {
      assert Relabelled(items, shown)[1..] == Relabelled(items[1..], shown[1..]);
      RelabelledTakesIn(items[1..], shown[1..]);
    }
  }

  lemma SummaryTakesIn(items: seq<Item>)
    ensures TakenIn([Summary(TakenIn(items))]) == TakenIn(items)
  {
    assert TakenIn([Summary(TakenIn(items))]) == TakenIn(items) + TakenIn([]);
  }

  lemma TakenInFive(a: seq<Item>, b: seq<Item>, c: seq<Item>, d: seq<Item>, e: seq<Item>)
    requires TakenIn(c) == [] && TakenIn(e) == []
    ensures TakenIn(a + b + c + d + e) == TakenIn(a) + TakenIn(b) + TakenIn(d)
  {
    TakenInConcat(a + b + c + d, e);
    TakenInConcat(a + b + c, d);
    TakenInConcat(a + b, c);
    TakenInConcat(a, b);
  }

  lemma FrontTakesIn(body: seq<Item>, n: nat, summarized: bool)
    requires n <= |body|
    ensures TakenIn(if summarized then [Summary(TakenIn(body[..n]))] else body[..n]) + TakenIn(body[n..]) == TakenIn(body)
  {
    SummaryTakesIn(body[..n]);
    assert body == body[..n] + body[n..];
    TakenInConcat(body[..n], body[n..]);
  }

  lemma RearrangedTakesIn(turn: seq<Item>, how: Rework)
    requires turn != []
    ensures TakenIn(Rearranged(turn, how)) == TakenIn([turn[0]]) + TakenIn(Dropped(turn[1..], how.drop))
  {
    var body := Dropped(turn[1..], how.drop);
    var n := if how.prefix <= |body| then how.prefix else |body|;
    var front := if how.summarized then [Summary(TakenIn(body[..n]))] else body[..n];
    OthersTakeNothing(how.middle);
    OthersTakeNothing(how.end);
    TakenInFive([turn[0]], front, Others(how.middle), body[n..], Others(how.end));
    FrontTakesIn(body, n, how.summarized);
    Associative(TakenIn([turn[0]]), TakenIn(front), TakenIn(body[n..]));
  }

  /** A pass loses no instruction and repeats none, whatever it drops, summarizes or cuts. */
  lemma ReworkedTakesIn(turn: seq<Item>, how: Rework)
    requires turn != []
    ensures TakenIn(Reworked(turn, how)) == TakenIn(turn)
  {
    RelabelledTakesIn(Rearranged(turn, how), how.shown);
    RearrangedTakesIn(turn, how);
    DroppedTakesIn(turn[1..], how.drop);
    assert turn == [turn[0]] + turn[1..];
    TakenInConcat([turn[0]], turn[1..]);
  }

  lemma Associative(a: seq<TaskEvent>, b: seq<TaskEvent>, c: seq<TaskEvent>)
    ensures a + (b + c) == a + b + c
  {
  }

  lemma TurnKeeps(s: State, w: Worker, turn: seq<Item>, pending: seq<TaskEvent>)
    requires Inv(s) && s.worker == Some(w)
    requires TakenIn(turn) + pending == TakenIn(w.turn) + w.pending && (w.pending == [] ==> pending == [])
    ensures Inv(s.(worker := Some(w.(turn := turn, pending := pending))))
  {
    Associative(TakenIn(w.history), TakenIn(turn), pending);
    Associative(TakenIn(w.history), TakenIn(w.turn), w.pending);
  }

  lemma DeliverKeeps(s: State)
    requires Inv(s) && s.worker.Some?
    ensures Inv(Apply(s, Deliver))
  {
    var w := s.worker.value;
    TakenInConcat(w.turn, Delivered(w.pending));
    DeliveredTakenIn(w.pending);
    assert TakenIn(w.turn) + w.pending + [] == TakenIn(w.turn) + w.pending;
    TurnKeeps(s, w, w.turn + Delivered(w.pending), []);
  }

  lemma RespondKeeps(s: State, messages: seq<Message>)
    requires Inv(s) && s.worker.Some?
    ensures Inv(Apply(s, Respond(messages)))
  {
    var w := s.worker.value;
    TakenInConcat(w.turn, Others(messages));
    OthersTakeNothing(messages);
    assert TakenIn(w.turn) + [] == TakenIn(w.turn);
    TurnKeeps(s, w, w.turn + Others(messages), w.pending);
  }

  lemma CompactKeeps(s: State, how: Rework)
    requires Inv(s) && s.worker.Some?
    ensures Inv(Apply(s, Compact(how)))
  {
    var w := s.worker.value;
    if w.turn != [] {
      ReworkedTakesIn(w.turn, how);
      TurnKeeps(s, w, Reworked(w.turn, how), w.pending);
    }
  }

  lemma ReadKeeps(s: State)
    requires Inv(s) && s.worker.Some?
    ensures Inv(Apply(s, Read))
  {
    assert s.events[..|s.events|] == s.events;
  }

  lemma CheckpointKeeps(s: State)
    requires Inv(s) && s.worker.Some?
    ensures Inv(Apply(s, Checkpoint))
  {
    var w := s.worker.value;
    if w.read.None? && w.pending == [] { NothingPending(s.events, w); }
  }

  lemma StartKeeps(s: State, prompt: Message)
    requires Inv(s)
    ensures Inv(Apply(s, Start(prompt)))
  {
    assert [Other(prompt)][1..] == [];
    assert TakenIn(s.saved.items) + [] + [] == TakenIn(s.saved.items);
  }

  lemma WorkerKeeps(s: State, step: Step)
    requires Inv(s) && s.worker.Some?
    requires !step.Append? && !step.Start? && !step.Commit? && !step.Crash?
    ensures Inv(Apply(s, step))
  {
    match step
    case Read => ReadKeeps(s);
    case Return => ReturnKeeps(s);
    case Deliver => DeliverKeeps(s);
    case Respond(messages) => RespondKeeps(s, messages);
    case Compact(how) => CompactKeeps(s, how);
    case Checkpoint => CheckpointKeeps(s);
  }

  lemma CommitKeeps(s: State, write: nat)
    requires Inv(s)
    ensures Inv(Apply(s, Commit(write)))
  {
  }

  lemma StepKeeps(s: State, step: Step)
    requires Inv(s)
    ensures Inv(Apply(s, step))
  {
    if step.Append? {
      AppendKeeps(s, step.event);
    } else if step.Start? {
      StartKeeps(s, step.prompt);
    } else if step.Commit? {
      CommitKeeps(s, step.write);
    } else if !step.Crash? && s.worker.Some? {
      WorkerKeeps(s, step);
    }
  }

  lemma {:induction false} RunKeeps(steps: seq<Step>)
    ensures Inv(Run(steps))
  {
    if steps != [] {
      RunKeeps(steps[..|steps| - 1]);
      StepKeeps(Run(steps[..|steps| - 1]), steps[|steps| - 1]);
    }
  }

  lemma {:induction false} WantedMeans(events: seq<TaskEvent>, cursor: nat)
    requires Ascending(events)
    ensures Ascending(Wanted(events, cursor))
    ensures forall e :: e in Wanted(events, cursor) <==> e in events && Instructs(e) && e.id <= cursor
  {
    CursorSplits(events, cursor);
    var read := UpTo(events, cursor);
    assert events[..|read|] == read;
    InstructingMeans(read);
    UpToMeans(events, cursor);
  }

  lemma {:induction false} UpToMeans(events: seq<TaskEvent>, cursor: nat)
    ensures forall e :: e in UpTo(events, cursor) <==> e in events && e.id <= cursor
  {
    if events != [] {
      UpToMeans(events[1..], cursor);
    }
  }

  lemma {:induction false} InstructingMeans(events: seq<TaskEvent>)
    requires Ascending(events)
    ensures Ascending(Instructing(events))
    ensures forall e :: e in Instructing(events) <==> e in events && Instructs(e)
  {
    if events != [] {
      var init, last := events[..|events| - 1], events[|events| - 1];
      InstructingMeans(init);
      assert events == init + [last];
      forall x | x in Instructing(init) ensures x.id < last.id {
        var i :| 0 <= i < |init| && events[i] == x;
      }
    }
  }

  /** At every moment of every run, over crashes, restarts and late writes, the saved
      transcript has taken in exactly the instructions up to its saved cursor, each
      once and in order. */
  lemma CheckpointIsExact(steps: seq<Step>)
    ensures var s := Run(steps); var taken := TakenIn(s.saved.items);
      && Ascending(taken)
      && forall e :: e in taken <==> e in s.events && Instructs(e) && e.id <= s.saved.cursor
  {
    RunKeeps(steps);
    WantedMeans(Run(steps).events, Run(steps).saved.cursor);
  }

  /** Once nothing follows the cursor, it stands for every instruction. */
  lemma {:induction false} CaughtUp(events: seq<TaskEvent>, cursor: nat)
    requires Ascending(events)
    ensures After(events, cursor) == [] ==> Wanted(events, cursor) == Instructing(events)
    ensures var unread := After(events, cursor);
      unread != [] ==> Wanted(events, unread[|unread| - 1].id) == Instructing(events)
  {
    var unread := After(events, cursor);
    CursorSplits(events, cursor);
    if unread == [] {
      assert UpTo(events, cursor) + [] == UpTo(events, cursor);
    } else {
      PollAdvances(events, cursor);
      InstructingConcat(UpTo(events, cursor), unread);
    }
  }

  /** A worker whose read has returned and been delivered, after no others began. */
  function Polled(s: State): State {
    Apply(Apply(Apply(s, Read), Return), Deliver)
  }

  lemma PolledKeeps(s: State)
    requires Inv(s)
    ensures Inv(Polled(s))
  {
    StepKeeps(s, Read);
    StepKeeps(Apply(s, Read), Return);
    StepKeeps(Apply(Apply(s, Read), Return), Deliver);
  }

  lemma PolledCursor(s: State)
    requires s.worker.Some? && s.worker.value.read.None? && s.worker.value.pending == []
    ensures var t := Polled(s); var unread := After(s.events, s.worker.value.cursor);
      && t.events == s.events && t.worker.Some? && t.worker.value.pending == []
      && t.worker.value.cursor == if unread == [] then s.worker.value.cursor else unread[|unread| - 1].id
  {
  }

  lemma NothingPending(events: seq<TaskEvent>, w: Worker)
    requires WorkerAgrees(events, w) && w.pending == []
    ensures TakenIn(w.history + w.turn) == Wanted(events, w.cursor)
  {
    TakenInConcat(w.history, w.turn);
    assert TakenIn(w.history) + TakenIn(w.turn) + [] == TakenIn(w.history) + TakenIn(w.turn);
  }

  lemma PollHolds(events: seq<TaskEvent>, cursor: nat, w: Worker)
    requires Ascending(events) && WorkerAgrees(events, w) && w.pending == []
    requires var unread := After(events, cursor); w.cursor == if unread == [] then cursor else unread[|unread| - 1].id
    ensures TakenIn(w.history + w.turn) == Instructing(events)
  {
    NothingPending(events, w);
    CaughtUp(events, cursor);
  }

  lemma PolledHolds(s: State)
    requires Inv(s) && s.worker.Some? && s.worker.value.read.None? && s.worker.value.pending == []
    ensures var t := Polled(s); t.worker.Some? && TakenIn(t.worker.value.history + t.worker.value.turn) == Instructing(s.events)
  {
    PolledKeeps(s);
    PolledCursor(s);
    var t := Polled(s);
    PollHolds(s.events, s.worker.value.cursor, t.worker.value);
  }

  /** A worker that resumes from any reachable checkpoint and polls once holds every
      instruction given so far exactly once: none is lost, none is repeated. */
  lemma ResumeCatchesUp(steps: seq<Step>, prompt: Message)
    ensures var s := Run(steps); var t := Polled(Apply(s, Start(prompt)));
      t.worker.Some? && TakenIn(t.worker.value.history + t.worker.value.turn) == Instructing(s.events)
  {
    RunKeeps(steps);
    StartKeeps(Run(steps), prompt);
    PolledHolds(Apply(Run(steps), Start(prompt)));
  }

  lemma RunSnoc(steps: seq<Step>, step: Step)
    ensures Run(steps + [step]) == Apply(Run(steps), step)
  {
    assert (steps + [step])[..|steps|] == steps;
  }

  /** A checkpoint that commits stores all that the worker holds, with its cursor, and the
      next worker begins with exactly that. */
  lemma CheckpointIsRestored(steps: seq<Step>, prompt: Message)
    requires var s := Run(steps); s.worker.Some? && s.worker.value.read.None? && s.worker.value.pending == []
    ensures var w, s := Run(steps).worker.value, Run(steps + [Checkpoint] + [Commit(|Run(steps).writes|)]);
      && s.saved == Saved(w.history + w.turn, w.cursor) && s.events == Run(steps).events
      && Apply(Apply(s, Crash), Start(prompt)).worker == Some(Worker(w.history + w.turn, [Other(prompt)], w.cursor, None, []))
  {
    RunSnoc(steps, Checkpoint);
    RunSnoc(steps + [Checkpoint], Commit(|Run(steps).writes|));
  }

  /** Whatever has happened before: once a worker has started, polled and committed its
      checkpoint, the saved transcript has taken in every instruction given so far. */
  lemma LifeSavesAll(steps: seq<Step>, prompt: Message)
    ensures var polled := steps + [Start(prompt)] + [Read] + [Return] + [Deliver];
      var s := Run(polled + [Checkpoint] + [Commit(|Run(polled).writes|)]);
      TakenIn(s.saved.items) == Instructing(Run(steps).events) && s.events == Run(steps).events
  {
    var started := steps + [Start(prompt)];
    var polled := started + [Read] + [Return] + [Deliver];
    RunSnoc(steps, Start(prompt));
    RunSnoc(started, Read);
    RunSnoc(started + [Read], Return);
    RunSnoc(started + [Read] + [Return], Deliver);
    PolledCursor(Run(started));
    PolledRests(Run(started));
    ResumeCatchesUp(steps, prompt);
    CheckpointIsRestored(polled, prompt);
  }

  lemma PolledRests(s: State)
    requires s.worker.Some? && s.worker.value.read.None?
    ensures Polled(s).worker.Some? && Polled(s).worker.value.read.None?
  {
  }

  /** An event with a new id is appended, and what the loop answers joins the turn. */
  lemma AppendAndRespond(s: State, e: TaskEvent, messages: seq<Message>)
    requires e.id > 0 && s.worker.Some? && forall x :: x in s.events ==> x.id < e.id
    ensures Apply(s, Append(e)) == s.(events := s.events + [e])
    ensures var w := Apply(s, Respond(messages)).worker;
      && w.Some? && |w.value.turn| == |s.worker.value.turn| + |messages| && s.worker.value.turn <= w.value.turn
      && forall i :: 0 <= i < |messages| ==> w.value.turn[|s.worker.value.turn| + i] == Other(messages[i])
  {
  }

  // ----- the closures of one run

  /** A stored checkpoint; `cursor` is none when no number was stored. */
  datatype Stored = Stored(messages: seq<MessageRecord>, cursor: Option<nat>)

  datatype Status = Queued | Running | OtherStatus

  function CursorOf(stored: Stored): nat {
    if stored.cursor.Some? then stored.cursor.value else 0
  }

  /** What a message is after a restart. */
  function Durable(m: Message): Message {
    Restored(Serialize(m))
  }

  /** The message that stands for an item, up to what a restart does to it. */
  ghost predicate Represents(t: C.Texts, item: Item, m: Message) {
    match item
    case Instructed(e) => m == TextMessage(User, Instruction(e))
    case Other(original) => Durable(m) == Durable(original)
    case Summary(_) => m == TextMessage(User, C.TextOf(m)) && !C.Stale(t, m)
  }

  ghost predicate Shows(t: C.Texts, items: seq<Item>, ms: seq<Message>) {
    |items| == |ms| && forall i :: 0 <= i < |items| ==> Represents(t, items[i], ms[i])
  }

  /** A stored checkpoint stands for a saved one of the protocol. */
  ghost predicate Stands(t: C.Texts, stored: Stored, saved: Saved) {
    CursorOf(stored) == saved.cursor && Shows(t, saved.items, RestoredAll(stored.messages))
  }

  lemma DurableRepresents(t: C.Texts, item: Item, m: Message)
    requires Represents(t, item, m)
    ensures Represents(t, item, Durable(m))
  {
    SecondRoundTripIsIdentity(Serialize(m));
    match item {
      case Instructed(e) => TextIsDurable(Instruction(e));
      case Summary(_) => TextIsDurable(C.TextOf(m));
      case _ =>
    }
  }

  lemma TextIsDurable(text: string)
    ensures Durable(TextMessage(User, text)) == TextMessage(User, text)
  {
    var m := TextMessage(User, text);
    RoundTripIffWhole(m);
    TextPartsAll(m.parts);
  }

  lemma ShownConcat(t: C.Texts, a: seq<Item>, b: seq<Item>, ms: seq<Message>, ns: seq<Message>)
    requires Shows(t, a, ms) && Shows(t, b, ns)
    ensures Shows(t, a + b, ms + ns)
  {
  }

  /** Storing and restoring shows the same items. */
  lemma StoredShows(t: C.Texts, items: seq<Item>, ms: seq<Message>)
    requires Shows(t, items, ms)
    ensures Shows(t, items, RestoredAll(SerializeAll(ms)))
  {
    forall i | 0 <= i < |items| ensures Represents(t, items[i], RestoredAll(SerializeAll(ms))[i]) {
      DurableRepresents(t, items[i], ms[i]);
    }
  }

  // ----- a pass of the compactor is a step of the protocol

  /** Reserved texts begin with a bracket, as the source's do. */
  predicate Bracketed(t: C.Texts) {
    t.notePrefix != "" && t.notePrefix[0] == '[' && t.reminderPrefix != "" && t.reminderPrefix[0] == '['
  }

  /** The items that are not ordinary messages stand for theirs. */
  ghost predicate Marks(t: C.Texts, items: seq<Item>, ms: seq<Message>) {
    |items| == |ms| && forall i :: 0 <= i < |items| && !items[i].Other? ==> Represents(t, items[i], ms[i])
  }

  lemma MarksConcat(t: C.Texts, a: seq<Item>, b: seq<Item>, ms: seq<Message>, ns: seq<Message>)
    requires Marks(t, a, ms) && Marks(t, b, ns)
    ensures Marks(t, a + b, ms + ns)
  {
  }

  lemma OthersMark(t: C.Texts, ms: seq<Message>)
    ensures Marks(t, Others(ms), ms)
  {
  }

  /** Instructions and summaries are user messages that no pass strips. */
  lemma MarkedStays(t: C.Texts, item: Item, m: Message)
    requires Bracketed(t) && !item.Other? && Represents(t, item, m)
    ensures m.role.User? && !C.Stale(t, m)
  {
    if item.Instructed? {
      assert Instruction(item.event)[0] == 'A' || Instruction(item.event)[0] == 'R';
      assert t.notePrefix <= t.notePrefix + t.fallbackBody && t.notePrefix <= t.notePrefix + t.noSummaryBody;
    }
  }

  function Stales(t: C.Texts, ms: seq<Message>): seq<bool> {
    seq(|ms|, i requires 0 <= i < |ms| => C.Stale(t, ms[i]))
  }

  lemma {:induction false} StripMarks(t: C.Texts, items: seq<Item>, ms: seq<Message>)
    requires Bracketed(t) && Marks(t, items, ms)
    ensures Marks(t, Dropped(items, Stales(t, ms)), C.Strip(t, ms))
  {
    if items != [] {
      if !items[0].Other? {
        MarkedStays(t, items[0], ms[0]);
      }
      assert Stales(t, ms)[1..] == Stales(t, ms[1..]);
      StripMarks(t, items[1..], ms[1..]);
      var stale := C.Stale(t, ms[0]);
      MarksConcat(t, if stale then [] else [items[0]], Dropped(items[1..], Stales(t, ms[1..])),
                  if stale then [] else [ms[0]], C.Strip(t, ms[1..]));
    }
  }

  /** Cutting tool bodies touches none of them. */
  lemma CutMarks(t: C.Texts, items: seq<Item>, a: seq<Message>, b: seq<Message>)
    requires Bracketed(t) && Marks(t, items, a) && OnlyToolBodies(a, b)
    ensures Marks(t, items, b)
  {
    forall i | 0 <= i < |items| && !items[i].Other? ensures Represents(t, items[i], b[i]) {
      MarkedStays(t, items[i], a[i]);
    }
  }

  lemma RelabelledShows(t: C.Texts, items: seq<Item>, ms: seq<Message>)
    requires Marks(t, items, ms)
    ensures Shows(t, Relabelled(items, ms), ms)
  {
  }

  /** How the pass with this split and summary reworks a turn. */
  function PassRework(t: C.Texts, turn: seq<Message>, split: nat, checklist: string, summary: string, r: seq<Message>): Rework
    requires turn != [] && split <= |C.Iterations(C.Strip(t, turn[1..]))|
  {
    var body := C.Strip(t, turn[1..]);
    var prefix := C.Flatten(C.Iterations(body)[..split]);
    if split > 0 then
      Rework(Stales(t, turn[1..]), |prefix|, summary != "",
             if summary == "" && checklist != "" then [C.Note(t, t.fallbackBody, checklist)] else [], C.Reminder(t, turn[0]), r)
    else
      Rework(Stales(t, turn[1..]), 0, false, [],
             (if checklist != "" then [C.Note(t, t.noSummaryBody, checklist)] else [])
             + (if C.HadReminder(t, turn[1..]) then C.Reminder(t, turn[0]) else []), r)
  }

  lemma MarksParts(t: C.Texts, items: seq<Item>, a: seq<Message>, b: seq<Message>)
    requires Marks(t, items, a + b)
    ensures |a| <= |items| && Marks(t, items[..|a|], a) && Marks(t, items[|a|..], b)
  {
    forall i | 0 <= i < |b| && !items[|a|..][i].Other? ensures Represents(t, items[|a|..][i], b[i]) {
      assert Represents(t, items[|a| + i], (a + b)[|a| + i]);
    }
    forall i | 0 <= i < |a| && !items[..|a|][i].Other? ensures Represents(t, items[..|a|][i], a[i]) {
      assert Represents(t, items[i], (a + b)[i]);
    }
  }

  /** The prefix of a pass: a summary takes its place, or its tool bodies are elided. */
  lemma MiddleMarks(t: C.Texts, items: seq<Item>, prefix: seq<Message>, checklist: string, summary: string)
    requires C.Distinct(t) && Bracketed(t) && C.OrdinarySummary(t, checklist, summary) && Marks(t, items, prefix)
    ensures Marks(t, (if summary != "" then [Summary(TakenIn(items))] else items)
                     + Others(if summary == "" && checklist != "" then [C.Note(t, t.fallbackBody, checklist)] else []),
                  C.Middle(t, prefix, checklist, summary))
  {
    if summary != "" {
      var note := C.Note(t, summary, checklist);
      C.NoteCounts(t, summary, checklist);
      assert C.TextOf(note) == t.notePrefix + summary + checklist;
      assert [Summary(TakenIn(items))] + Others([]) == [Summary(TakenIn(items))];
    } else {
      var note := if checklist != "" then [C.Note(t, t.fallbackBody, checklist)] else [];
      C.ElideKeeps(prefix);
      CutMarks(t, items, prefix, C.Elide(prefix));
      OthersMark(t, note);
      MarksConcat(t, items, Others(note), C.Elide(prefix), note);
    }
  }

  lemma AssembleMarks(t: C.Texts, items: seq<Item>, turn: seq<Message>, split: nat, checklist: string, summary: string, r: seq<Message>)
    requires C.Distinct(t) && Bracketed(t) && C.OrdinarySummary(t, checklist, summary)
    requires turn != [] && Marks(t, items, turn) && split <= |C.Iterations(C.Strip(t, turn[1..]))|
    ensures Marks(t, Rearranged(items, PassRework(t, turn, split, checklist, summary, r)),
                  C.Assemble(t, turn, split, checklist, summary))
  {
    var body, left := C.Strip(t, turn[1..]), Dropped(items[1..], Stales(t, turn[1..]));
    StripMarks(t, items[1..], turn[1..]);
    C.PartsOfBody(body, split);
    var prefix, kept := C.Flatten(C.Iterations(body)[..split]), C.Flatten(C.Iterations(body)[split..]);
    MarksParts(t, left, prefix, kept);
    var how := PassRework(t, turn, split, checklist, summary, r);
    OthersMark(t, how.end);
    if split > 0 {
      MiddleMarks(t, left[..|prefix|], prefix, checklist, summary);
      AssembleSplit(t, items, left, turn, prefix, kept, checklist, summary, how);
    } else {
      AssembleUnsplit(t, items, left, turn, body, checklist, how);
    }
  }

  lemma AssembleSplit(t: C.Texts, items: seq<Item>, left: seq<Item>, turn: seq<Message>, prefix: seq<Message>, kept: seq<Message>,
                      checklist: string, summary: string, how: Rework)
    requires turn != [] && Marks(t, items, turn) && |left| == |prefix| + |kept| && how.prefix == |prefix|
    requires left == Dropped(items[1..], how.drop) && Marks(t, left[|prefix|..], kept)
    requires how.summarized == (summary != "") && Marks(t, Others(how.end), how.end)
    requires Marks(t, (if how.summarized then [Summary(TakenIn(left[..|prefix|]))] else left[..|prefix|]) + Others(how.middle),
                   C.Middle(t, prefix, checklist, summary))
    ensures Marks(t, Rearranged(items, how), [turn[0]] + C.Middle(t, prefix, checklist, summary) + kept + how.end)
  {
    var front := if how.summarized then [Summary(TakenIn(left[..|prefix|]))] else left[..|prefix|];
    MarksFour(t, [items[0]], front + Others(how.middle), left[|prefix|..], Others(how.end),
              [turn[0]], C.Middle(t, prefix, checklist, summary), kept, how.end);
    JoinFive([items[0]], front, Others(how.middle), left[|prefix|..], Others(how.end));
  }

  lemma MarksFour(t: C.Texts, a: seq<Item>, b: seq<Item>, c: seq<Item>, d: seq<Item>,
                  ms: seq<Message>, ns: seq<Message>, os: seq<Message>, ps: seq<Message>)
    requires Marks(t, a, ms) && Marks(t, b, ns) && Marks(t, c, os) && Marks(t, d, ps)
    ensures Marks(t, a + b + c + d, ms + ns + os + ps)
  {
    MarksConcat(t, a, b, ms, ns);
    MarksConcat(t, a + b, c, ms + ns, os);
    MarksConcat(t, a + b + c, d, ms + ns + os, ps);
  }

  lemma JoinFive(a: seq<Item>, b: seq<Item>, c: seq<Item>, d: seq<Item>, e: seq<Item>)
    ensures a + b + c + d + e == a + (b + c) + d + e
  {
  }

  lemma AssembleUnsplit(t: C.Texts, items: seq<Item>, left: seq<Item>, turn: seq<Message>, body: seq<Message>, checklist: string, how: Rework)
    requires turn != [] && Marks(t, items, turn) && how.prefix == 0 && !how.summarized && how.middle == []
    requires left == Dropped(items[1..], how.drop) && Marks(t, left, body) && Marks(t, Others(how.end), how.end)
    requires how.end == (if checklist != "" then [C.Note(t, t.noSummaryBody, checklist)] else [])
                        + (if C.HadReminder(t, turn[1..]) then C.Reminder(t, turn[0]) else [])
    ensures Marks(t, Rearranged(items, how),
                  [turn[0]] + body + (if checklist != "" then [C.Note(t, t.noSummaryBody, checklist)] else [])
                  + (if C.HadReminder(t, turn[1..]) then C.Reminder(t, turn[0]) else []))
  {
    MarksConcat(t, [items[0]], left, [turn[0]], body);
    MarksConcat(t, [items[0]] + left, Others(how.end), [turn[0]] + body, how.end);
    assert Rearranged(items, how) == [items[0]] + left + Others(how.end);
    assert [turn[0]] + body + how.end
        == [turn[0]] + body + (if checklist != "" then [C.Note(t, t.noSummaryBody, checklist)] else [])
           + (if C.HadReminder(t, turn[1..]) then C.Reminder(t, turn[0]) else []);
  }

  /** Every pass of the compactor, on whichever path, is such a step: instructions stay as
      they are and in order, unless a summary has taken them in. */
  lemma PassIsStep(t: C.Texts, items: seq<Item>, turn: seq<Message>, split: nat, checklist: string, summary: string, r: seq<Message>)
    requires C.Distinct(t) && Bracketed(t) && C.OrdinarySummary(t, checklist, summary)
    requires turn != [] && Shows(t, items, turn) && C.Pass(t, turn, split, checklist, summary, r)
    ensures var how := PassRework(t, turn, split, checklist, summary, r);
      Shows(t, Reworked(items, how), r) && TakenIn(Reworked(items, how)) == TakenIn(items)
  {
    var how := PassRework(t, turn, split, checklist, summary, r);
    AssembleMarks(t, items, turn, split, checklist, summary, r);
    C.PassCuts(t, turn, split, checklist, summary, r);
    CutMarks(t, Rearranged(items, how), C.Assemble(t, turn, split, checklist, summary), r);
    RelabelledShows(t, Rearranged(items, how), r);
    ReworkedTakesIn(items, how);
  }

  // ----- how the loop takes a text in

  lemma {:induction false} StripShort(s: string)
    ensures |Strip(s)| <= |s|
    ensures Strip(s) != "" ==> !IsSpace(Strip(s)[0]) && !IsSpace(Strip(s)[|Strip(s)| - 1])
    decreases |s|
  {
    if s != "" && IsSpace(s[0]) {
      StripShort(s[1..]);
    } else if s != "" && IsSpace(s[|s| - 1]) {
      StripShort(s[..|s| - 1]);
    }
  }

  /** An instruction has nothing left to strip. */
  lemma InstructionStands(e: TaskEvent)
    requires Instructs(e)
    ensures Instruction(e) != "" && Strip(Instruction(e)) == Instruction(e)
  {
    StripShort(e.message);
    var text := Instruction(e);
    assert text[|text| - 1] == Strip(e.message)[|Strip(e.message)| - 1];
    assert text[0] == 'A' || text[0] == 'R';
  }

  /** The user messages that the conversation loop makes of the texts of instructions
      show their delivery. */
  lemma {:induction false} SteeringShows(t: C.Texts, w: V.World, events: seq<TaskEvent>)
    requires forall text :: w.strip(text) == Strip(text)
    requires forall e :: e in events ==> Instructs(e)
    ensures Shows(t, Delivered(events), V.Steering(w, Texts(events)))
  {
    if events != [] {
      InstructionStands(events[0]);
      assert Texts(events)[1..] == Texts(events[1..]);
      SteeringShows(t, w, events[1..]);
      assert Delivered(events) == Delivered([events[0]]) + Delivered(events[1..]);
      ShownConcat(t, Delivered([events[0]]), Delivered(events[1..]),
                  [TextMessage(User, Instruction(events[0]))], V.Steering(w, Texts(events[1..])));
    }
  }

  lemma {:induction false} InstructingAll(events: seq<TaskEvent>)
    ensures forall e :: e in Instructing(events) ==> Instructs(e)
  {
    if events != [] {
      InstructingAll(events[..|events| - 1]);
    }
  }

  lemma RestoredAllWhole(records: seq<MessageRecord>)
    ensures AllWhole(RestoredAll(records))
  {
    forall m | m in RestoredAll(records) ensures Whole(m) {
      var i :| 0 <= i < |records| && RestoredAll(records)[i] == m;
      RestoredWhole(records[i]);
    }
  }

  function Projections(ms: seq<Message>): seq<Message> {
    seq(|ms|, i requires 0 <= i < |ms| => TextProjection(ms[i]))
  }

  /** `_run_task`: a restored history and the cursor its closures share. */
  class TaskRun {
    const history: seq<Message>
    var eventCursor: nat

    /** A restored history has only whole messages. */
    ghost predicate Valid() {
      AllWhole(history)
    }

    constructor (stored: Stored)
      ensures Valid() && history == RestoredAll(stored.messages) && eventCursor == CursorOf(stored)
    {
      RestoredAllWhole(stored.messages);
      history := RestoredAll(stored.messages);
      eventCursor := if stored.cursor.Some? then stored.cursor.value else 0;
    }

    /** The run is this worker of the protocol, with this turn. */
    ghost predicate Is(t: C.Texts, w: Worker, turn: seq<Message>)
      reads this
    {
      eventCursor == w.cursor && Shows(t, w.history, history) && Shows(t, w.turn, turn)
    }

    /** `_external_task_messages` after its read: the texts for the model and the new
        cursor, which also passes blank and foreign events. A queued task is running
        again once it has taken in some steering. */
    method ExternalMessages(newEvents: seq<TaskEvent>, status: Status) returns (messages: seq<string>, status': Status)
      modifies this`eventCursor
      ensures messages == Texts(Instructing(newEvents))
      ensures status' == if Steered(newEvents) && status.Queued? then Running else status
      ensures eventCursor == if newEvents == [] then old(eventCursor) else newEvents[|newEvents| - 1].id
    {
      if newEvents == [] {
        return [], status;
      }
      messages := [];
      var sawSteering := false;
      var i: nat := 0;
      while i < |newEvents|
        invariant i <= |newEvents| && eventCursor == old(eventCursor)
        invariant messages == Texts(Instructing(newEvents[..i]))
        invariant sawSteering <==> exists k :: 0 <= k < i && Instructs(newEvents[k]) && newEvents[k].kind.Steering?
      {
        var e := newEvents[i];
        InstructingSnoc(newEvents, i);
        TextsSnoc(Instructing(newEvents[..i]), e);
        i := i + 1;
        var message := Strip(e.message);
        if message == "" {
          continue;
        }
        if e.kind.Steering? {
          sawSteering := true;
          messages := messages + ["Additional instruction from the user: " + message];
        } else if e.kind.Recovered? {
          messages := messages + ["Recovery safety notice: " + message];
        }
      }
      assert newEvents[..|newEvents|] == newEvents;
      status' := if sawSteering && status.Queued? then Running else status;
      eventCursor := newEvents[|newEvents| - 1].id;
    }

    /** `external_messages` with the loop that takes the texts in: reading, returning and
        delivering as the worker of the protocol does. */
    method Poll(c: V.World, ghost t: C.Texts, log: seq<TaskEvent>, turn: seq<Message>, ghost s: State) returns (turn': seq<Message>)
      requires s.events == log && s.worker.Some? && Is(t, s.worker.value, turn)
      requires s.worker.value.read.None? && s.worker.value.pending == []
      requires forall text :: c.strip(text) == Strip(text)
      modifies this`eventCursor
      ensures Polled(s).worker.Some? && Is(t, Polled(s).worker.value, turn')
      ensures turn' == turn + V.Steering(c, Texts(Instructing(After(log, old(eventCursor)))))
    {
      ghost var w := s.worker.value;
      var newEvents := After(log, eventCursor);
      var texts, status := ExternalMessages(newEvents, Running);
      turn' := turn + V.Steering(c, texts);
      PolledWorker(s);
      InstructingAll(newEvents);
      SteeringShows(t, c, Instructing(newEvents));
      ShownConcat(t, w.turn, Delivered(Instructing(newEvents)), turn, V.Steering(c, texts));
    }

    /** `checkpoint`: what is stored stands for the checkpoint that the worker hands over. */
    method Checkpoint(turn: seq<Message>) returns (stored: Stored)
      ensures forall t, w {:trigger Is(t, w, turn)} :: Is(t, w, turn) ==> Stands(t, stored, Saved(w.history + w.turn, w.cursor))
      ensures stored.cursor == Some(eventCursor) && |stored.messages| == |history + turn|
      ensures forall i :: 0 <= i < |stored.messages| ==> Restored(stored.messages[i]) == Durable((history + turn)[i])
    {
      stored := Stored(SerializeAll(history + turn), Some(eventCursor));
      forall t, w | Is(t, w, turn) ensures Shows(t, w.history + w.turn, RestoredAll(stored.messages)) {
        ShownConcat(t, w.history, w.turn, history, turn);
        StoredShows(t, w.history + w.turn, history + turn);
      }
    }
  }

  lemma PolledWorker(s: State)
    requires s.worker.Some? && s.worker.value.read.None? && s.worker.value.pending == []
    ensures var w := s.worker.value; var unread := After(s.events, w.cursor); var t := Polled(s);
      && t.worker.Some? && t.worker.value.history == w.history
      && t.worker.value.turn == w.turn + Delivered(Instructing(unread))
      && t.worker.value.cursor == if unread == [] then w.cursor else unread[|unread| - 1].id
  {
  }

  /** A restart: from a stored checkpoint that stands for the saved one of any reachable
      state, the restored messages and one poll show every instruction given so far
      exactly once and in order. What is held then is whole, so the next checkpoint loses
      nothing but images and provider payloads. */
  method ResumeAndPoll(c: V.World, ghost t: C.Texts, stored: Stored, prompt: Message, log: seq<TaskEvent>, ghost steps: seq<Step>)
    returns (run: TaskRun, turn: seq<Message>, ghost items: seq<Item>)
    requires Stands(t, stored, Run(steps).saved) && log == Run(steps).events
    requires forall text :: c.strip(text) == Strip(text)
    ensures run.Valid() && run.history == RestoredAll(stored.messages)
    ensures turn == [prompt] + V.Steering(c, Texts(Instructing(After(log, CursorOf(stored)))))
    ensures Whole(prompt) ==> AllWhole(run.history + turn)
    ensures Shows(t, items, run.history + turn)
    ensures TakenIn(items) == Instructing(log)
  {
    ghost var s := Apply(Run(steps), Start(prompt));
    run := new TaskRun(stored);
    turn := [prompt];
    turn := run.Poll(c, t, log, turn, s);
    ResumeCatchesUp(steps, prompt);
    V.SteeringWhole(c, Texts(Instructing(After(log, CursorOf(stored)))));
    AllWholeConcat([prompt], V.Steering(c, Texts(Instructing(After(log, CursorOf(stored))))));
    AllWholeConcat(run.history, turn);
    ghost var w := Polled(s).worker.value;
    items := w.history + w.turn;
    ShownConcat(t, w.history, w.turn, run.history, turn);
  }

  /** What a resumed run sees of a checkpoint: the same cursor and the text of every
      message that is whole, in order and in its provider form. The turns of the
      conversation loop are, so of such a turn it sees the projection of everything. */
  method Resume(run: TaskRun, turn: seq<Message>) returns (resumed: TaskRun)
    requires run.Valid()
    ensures resumed.Valid() && resumed.eventCursor == run.eventCursor
    ensures AllWhole(turn) ==> resumed.history == Projections(run.history + turn)
    ensures V.Sound(false, turn) || V.Sound(true, turn) ==> resumed.history == Projections(run.history + turn)
    ensures |resumed.history| == |run.history + turn|
    ensures forall i :: 0 <= i < |resumed.history| ==>
      (resumed.history[i] == TextProjection((run.history + turn)[i]) <==> Whole((run.history + turn)[i]))
    ensures WellFormed(run.history + turn) <==> WellFormed(resumed.history)
  {
    var stored := run.Checkpoint(turn);
    resumed := new TaskRun(stored);
    ghost var all := run.history + turn;
    assert resumed.history == RestoredAll(SerializeAll(all));
    RestoredWellFormed(all);
    forall i | 0 <= i < |all| ensures resumed.history[i] == TextProjection(all[i]) <==> Whole(all[i]) {
      RoundTripIffWhole(all[i]);
    }
    AllWholeConcat(run.history, turn);
  }
}
