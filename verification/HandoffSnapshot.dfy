/** `_build_handoff_context_snapshot` of bot/agent/core.py: plain text of at most
    20 messages and 12,000 characters for a delegated task. */
module HandoffSnapshot {
  import opened Transcript

  const MAX_MESSAGES: nat := 20
  const MAX_CHARS: nat := 12_000
  const MARKER := "[Earlier model-visible context was truncated.]"
  /** What is left beside the marker. */
  const ROOM: nat := 11_954

  datatype Section = History | Context | Turn | Truncation

  datatype Entry = Entry(role: Role, section: Section, text: string)

  function Chars(es: seq<Entry>): nat {
    if es == [] then 0 else Chars(es[1..]) + |es[0].text|
  }

  /** The text of a message: its non-empty text parts, one per line. */
  function TextOf(parts: seq<Part>): string {
    if parts == [] then ""
    else if PartChars(parts[0]) == "" then TextOf(parts[1..])
    else if TextOf(parts[1..]) == "" then PartChars(parts[0])
    else PartChars(parts[0]) + "\n" + TextOf(parts[1..])
  }

  function Entries(ms: seq<Message>, section: Section): seq<Entry> {
    if ms == [] then []
    else (if TextOf(ms[0].parts) == "" then [] else [Entry(ms[0].role, section, TextOf(ms[0].parts))])
         + Entries(ms[1..], section)
  }

  function Visible(history: seq<Message>, context: seq<Message>, turn: seq<Message>): seq<Entry> {
    Entries(history, History) + Entries(context, Context) + Entries(turn, Turn)
  }

  predicate Fits(es: seq<Entry>) {
    |es| <= MAX_MESSAGES && Chars(es) <= MAX_CHARS
  }

  /** `e` with only the end of its text. */
  predicate TailOf(e: Entry, original: Entry) {
    && e.role == original.role && e.section == original.section
    && |e.text| <= |original.text| && e.text == original.text[|original.text| - |e.text|..]
  }

  /** The newest entries from `start` on: verbatim, except that the oldest of them loses
      as much of the beginning of its text as does not fit. */
  ghost predicate NewestFrom(kept: seq<Entry>, all: seq<Entry>, start: nat) {
    && start <= |all|
    && (kept == [] ==> start == |all|)
    && (kept != [] ==>
          && start < |all| && TailOf(kept[0], all[start]) && kept[1..] == all[start + 1..]
          && (|kept[0].text| < |all[start].text| ==> Chars(kept) == ROOM))
  }

  ghost predicate NewestOf(kept: seq<Entry>, all: seq<Entry>) {
    exists start: nat :: NewestFrom(kept, all, start)
  }

  /** Nothing more could have been kept. */
  ghost predicate Full(kept: seq<Entry>, all: seq<Entry>) {
    |kept| == |all| || |kept| == MAX_MESSAGES - 1 || Chars(kept) == ROOM
  }

  /** No text is kept of which nothing is left. */
  ghost predicate AllText(es: seq<Entry>) {
    forall i :: 0 <= i < |es| ==> es[i].text != ""
  }

  /** As much of the newest entries as both limits allow beside the marker. */
  ghost predicate Shortened(kept: seq<Entry>, all: seq<Entry>) {
    && NewestOf(kept, all) && Full(kept, all) && AllText(kept)
    && |kept| <= MAX_MESSAGES - 1 && Chars(kept) <= ROOM
  }

  lemma {:induction false} CharsTail(es: seq<Entry>, i: nat)
    requires i <= |es|
    ensures Chars(es[i..]) <= Chars(es)
    ensures AllText(es) && i > 0 ==> Chars(es[i..]) < Chars(es)
    decreases i
  {
    if i > 0 {
      CharsTail(es, i - 1);
      assert es[i - 1..][1..] == es[i..] && es[i - 1..][0] == es[i - 1];
    }
  }

  /** A longer selection than one that is full would pass a limit. */
  lemma NotLonger(a: seq<Entry>, b: seq<Entry>, all: seq<Entry>)
    requires Shortened(a, all) && Shortened(b, all) && AllText(all)
    ensures |a| >= |b|
  {
    if |a| < |b| {
      var i := |b| - |a|;
      if a != [] {
        TailsAgree(a, b, all);
      }
      CharsTail(b, i);
    }
  }

  /** The entries of the shorter selection, in the longer one, have at least their text. */
  lemma TailsAgree(a: seq<Entry>, b: seq<Entry>, all: seq<Entry>)
    requires NewestOf(a, all) && NewestOf(b, all) && a != [] && |a| < |b|
    ensures Chars(b[|b| - |a|..]) >= Chars(a)
  {
    var s: nat :| NewestFrom(a, all, s);
    var t: nat :| NewestFrom(b, all, t);
    var i := |b| - |a|;
    LengthIs(a, all, s);
    LengthIs(b, all, t);
    assert s == t + i;
    assert b[i..] == b[1..][i - 1..] == all[t + 1..][i - 1..] == all[s..];
    assert all[s..][1..] == all[s + 1..] == a[1..];
  }

  lemma LengthIs(kept: seq<Entry>, all: seq<Entry>, start: nat)
    requires NewestFrom(kept, all, start)
    ensures |kept| == |all| - start
  {
    if kept != [] {
      assert |kept[1..]| == |all[start + 1..]|;
    }
  }

  /** There is only one such selection: both limits determine what is kept. */
  lemma ShortenedUnique(a: seq<Entry>, b: seq<Entry>, all: seq<Entry>)
    requires Shortened(a, all) && Shortened(b, all) && AllText(all)
    ensures a == b
  {
    NotLonger(a, b, all);
    NotLonger(b, a, all);
    var s: nat :| NewestFrom(a, all, s);
    var t: nat :| NewestFrom(b, all, t);
    LengthIs(a, all, s);
    LengthIs(b, all, t);
    if a != [] {
      assert a == [a[0]] + a[1..] && b == [b[0]] + b[1..];
      assert Chars(a) == Chars(a[1..]) + |a[0].text| && Chars(b) == Chars(b[1..]) + |b[0].text|;
      SameTail(a[0], b[0], all[s]);
    }
  }

  lemma SameTail(a: Entry, b: Entry, original: Entry)
    requires TailOf(a, original) && TailOf(b, original)
    ensures |a.text| == |b.text| ==> a == b
  {
  }

  lemma {:induction false} EntriesHaveText(ms: seq<Message>, section: Section)
    ensures AllText(Entries(ms, section))
  {
    if ms != [] {
      EntriesHaveText(ms[1..], section);
    }
  }

  /** Every entry of a conversation has a text. */
  lemma VisibleHasText(history: seq<Message>, context: seq<Message>, turn: seq<Message>)
    ensures AllText(Visible(history, context, turn))
  {
    EntriesHaveText(history, History);
    EntriesHaveText(context, Context);
    EntriesHaveText(turn, Turn);
  }

  lemma FullTail(e: Entry)
    ensures TailOf(e, e)
  {
    assert e.text[0..] == e.text;
  }

  /** The loop over the entries, newest first. */
  method KeepNewest(all: seq<Entry>) returns (kept: seq<Entry>)
    requires AllText(all)
    ensures Shortened(kept, all)
  {
    assert |MARKER| == 46;
    var start: nat := |all|;
    var remaining: nat := MAX_CHARS - |MARKER|;
    kept := [];
    while start > 0 && |kept| < MAX_MESSAGES - 1 && remaining > 0
      invariant start <= |all| && |kept| == |all| - start && |kept| <= MAX_MESSAGES - 1
      invariant NewestFrom(kept, all, start) && AllText(kept)
      invariant remaining > 0 ==> kept == all[start..]
      invariant Chars(kept) + remaining == ROOM
    {
      start := start - 1;
      var e := all[start];
      FullTail(e);
      if |e.text| > remaining {
        e := e.(text := e.text[|e.text| - remaining..]);
      }
      assert ([e] + kept)[1..] == kept;
      kept := [e] + kept;
      remaining := remaining - |e.text|;
    }
  }

  /** Whatever the conversation, the snapshot keeps both limits. One that fits is
      complete; any other is a marker and as much of the newest entries as the limits
      allow, which determines it. */
  method BuildSnapshot(history: seq<Message>, context: seq<Message>, turn: seq<Message>) returns (r: seq<Entry>)
    ensures Fits(r)
    ensures Fits(Visible(history, context, turn)) ==> r == Visible(history, context, turn)
    ensures !Fits(Visible(history, context, turn)) ==>
      && r != [] && r[0] == Entry(User, Truncation, MARKER) && Shortened(r[1..], Visible(history, context, turn))
      && forall kept :: Shortened(kept, Visible(history, context, turn)) ==> r == [Entry(User, Truncation, MARKER)] + kept
  {
    var all := Visible(history, context, turn);
    if |all| <= MAX_MESSAGES && Chars(all) <= MAX_CHARS {
      return all;
    }
    assert |MARKER| == 46;
    VisibleHasText(history, context, turn);
    var newest := KeepNewest(all);
    r := [Entry(User, Truncation, MARKER)] + newest;
    assert r[1..] == newest;
    forall kept | Shortened(kept, all) ensures r == [Entry(User, Truncation, MARKER)] + kept {
      ShortenedUnique(newest, kept, all);
    }
  }
}
