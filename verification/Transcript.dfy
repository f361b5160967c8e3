/** Conversation messages (bot/providers/types.py) and the shape a provider needs:
    every assistant's tool calls are followed at once by exactly their results. */
module Transcript {
  import opened Wrappers

  datatype Role = User | Assistant | Tool

  /** A text part made by `from_text` has a text; an image part carries none. */
  datatype Part = Text(text: Option<string>) | Image(url: string)

  /** `arguments` is the printed object; none would be something that is not an object,
      which no provider hands over. */
  datatype Call = Call(id: string, name: string, arguments: Option<string>)

  /** `raw` is the serialized provider payload, empty when there is none. */
  datatype Message = Message(
    role: Role,
    parts: seq<Part>,
    callId: Option<string>,
    toolName: Option<string>,
    calls: seq<Call>,
    raw: string)

  function PartChars(p: Part): string {
    if p.Text? && p.text.Some? then p.text.value else ""
  }

  function TextMessage(role: Role, text: string): Message {
    Message(role, [Text(Some(text))], None, None, [], "")
  }

  function ToolResult(call: Call, text: string): Message {
    Message(Tool, [Text(Some(text))], Some(call.id), Some(call.name), [], "")
  }

  /** Every text part has its text and every call an object of arguments. */
  predicate Whole(m: Message) {
    && (forall i :: 0 <= i < |m.parts| ==> m.parts[i].Text? ==> m.parts[i].text.Some?)
    && forall i :: 0 <= i < |m.calls| ==> m.calls[i].arguments.Some?
  }

  predicate AllWhole(ms: seq<Message>) {
    forall m :: m in ms ==> Whole(m)
  }

  lemma AllWholeConcat(a: seq<Message>, b: seq<Message>)
    ensures AllWhole(a + b) <==> AllWhole(a) && AllWhole(b)
  {
    forall m | m in a || m in b ensures m in a + b {
    }
  }

  /** `m` is the result of `call`. */
  predicate Answers(m: Message, call: Call) {
    m.role.Tool? && m.callId == Some(call.id)
  }

  predicate AnswersAll(ms: seq<Message>, calls: seq<Call>) {
    |ms| == |calls| && forall i :: 0 <= i < |ms| ==> Answers(ms[i], calls[i])
  }

  /** Each assistant message is followed contiguously by one result per call, in
      call order, and no tool result stands anywhere else. */
  predicate WellFormed(ms: seq<Message>) {
    if ms == [] then true
    else
      match ms[0].role
      case Tool => false
      case User => WellFormed(ms[1..])
      case Assistant =>
        var n := |ms[0].calls|;
        n < |ms| && AnswersAll(ms[1..n + 1], ms[0].calls) && WellFormed(ms[n + 1..])
  }

  /** The number of messages that the group at the front takes. */
  function GroupSize(m: Message): nat {
    if m.role.Assistant? then 1 + |m.calls| else 1
  }

  lemma {:induction false} WellFormedConcat(a: seq<Message>, b: seq<Message>)
    requires WellFormed(a) && WellFormed(b)
    ensures WellFormed(a + b)
    decreases |a|
  {
    if a == [] {
      assert a + b == b;
    } else {
      var n := GroupSize(a[0]);
      assert (a + b)[n..] == a[n..] + b;
      assert (a + b)[1..n] == a[1..n];
      WellFormedConcat(a[n..], b);
    }
  }

  /** A well-formed transcript may be cut before any message that is no result. */
  lemma {:induction false} WellFormedSplit(a: seq<Message>, b: seq<Message>)
    requires WellFormed(a + b) && (b == [] || !b[0].role.Tool?)
    ensures WellFormed(a) && WellFormed(b)
    decreases |a|
  {
    if a == [] {
      assert a + b == b;
    } else {
      var n := GroupSize(a[0]);
      assert (a + b)[0] == a[0];
      forall i | 1 <= i < n ensures (a + b)[i].role.Tool? {
        assert Answers((a + b)[1..n][i - 1], a[0].calls[i - 1]);
      }
      assert b != [] ==> (a + b)[|a|] == b[0];
      assert (a + b)[n..] == a[n..] + b;
      assert (a + b)[1..n] == a[1..n];
      WellFormedSplit(a[n..], b);
    }
  }

  /** Two transcripts that differ at most in the content of tool results. */
  predicate OnlyToolBodies(a: seq<Message>, b: seq<Message>) {
    |a| == |b|
    && forall i :: 0 <= i < |a| ==>
         if a[i].role.Tool? then a[i].(parts := b[i].parts) == b[i] else a[i] == b[i]
  }

  lemma {:induction false} OnlyToolBodiesWellFormed(a: seq<Message>, b: seq<Message>)
    requires OnlyToolBodies(a, b)
    ensures WellFormed(a) <==> WellFormed(b)
    decreases |a|
  {
    if a != [] {
      var n := GroupSize(a[0]);
      assert a[0].role == b[0].role && a[0].calls == b[0].calls;
      if n <= |a| {
        forall i | 0 <= i < |a[1..n]| ensures a[1..n][i] == a[i + 1] && b[1..n][i] == b[i + 1] {}
        forall i | 0 <= i < |a[n..]| ensures a[n..][i] == a[n + i] && b[n..][i] == b[n + i] {}
        OnlyToolBodiesWellFormed(a[n..], b[n..]);
      }
    }
  }
}
