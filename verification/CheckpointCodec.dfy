/** The durable form of a transcript (bot/app/coding_tasks.py): text parts and tool
    calls survive, images and provider payloads do not. */
module CheckpointCodec {
  import opened Wrappers
  import opened Transcript

  /** The `value` of a part's type. */
  datatype PartRecord = PartRecord(kind: string, text: Option<string>)

  /** `arguments` is none when the stored value is not an object. */
  datatype CallRecord = CallRecord(id: string, name: string, arguments: Option<string>)

  datatype MessageRecord = MessageRecord(
    role: string,
    content: seq<PartRecord>,
    callId: Option<string>,
    toolName: Option<string>,
    calls: seq<CallRecord>)

  const EMPTY_OBJECT := "{}"

  function RoleName(role: Role): string {
    match role
    case User => "user"
    case Assistant => "assistant"
    case Tool => "tool"
  }

  /** Anything but the three names reads as an assistant. */
  function RoleOf(name: string): Role {
    if name == "user" then User else if name == "tool" then Tool else Assistant
  }

  function TextRecords(parts: seq<Part>): seq<PartRecord> {
    if parts == [] then [] else
      (if parts[0].Text? then [PartRecord("text", parts[0].text)] else []) + TextRecords(parts[1..])
  }

  function CallRecords(calls: seq<Call>): seq<CallRecord> {
    seq(|calls|, i requires 0 <= i < |calls| => CallRecord(calls[i].id, calls[i].name, calls[i].arguments))
  }

  function Serialize(m: Message): MessageRecord {
    MessageRecord(RoleName(m.role), TextRecords(m.parts), m.callId, m.toolName, CallRecords(m.calls))
  }

  /** `str(part.get("text", ""))`: a stored null reads back as its printed name. */
  function TextOf(text: Option<string>): string {
    if text.Some? then text.value else "None"
  }

  function RestoredParts(content: seq<PartRecord>): seq<Part> {
    if content == [] then [] else
      (if content[0].kind == "text" then [Text(Some(TextOf(content[0].text)))] else []) + RestoredParts(content[1..])
  }

  function RestoredCall(c: CallRecord): Call {
    Call(c.id, c.name, Some(if c.arguments.Some? then c.arguments.value else EMPTY_OBJECT))
  }

  function RestoredCalls(calls: seq<CallRecord>): seq<Call> {
    seq(|calls|, i requires 0 <= i < |calls| => RestoredCall(calls[i]))
  }

  function Restored(r: MessageRecord): Message {
    Message(RoleOf(r.role), RestoredParts(r.content), r.callId, r.toolName, RestoredCalls(r.calls), "")
  }

  /** A message without its images and its provider payload. */
  function TextProjection(m: Message): Message {
    m.(parts := TextParts(m.parts), raw := "")
  }

  function TextParts(parts: seq<Part>): seq<Part> {
    if parts == [] then [] else (if parts[0].Text? then [parts[0]] else []) + TextParts(parts[1..])
  }

  lemma {:induction false} PartsRoundTrip(parts: seq<Part>)
    ensures RestoredParts(TextRecords(parts)) == TextParts(parts)
      <==> forall i :: 0 <= i < |parts| ==> parts[i].Text? ==> parts[i].text.Some?
  {
    if parts != [] {
      var rest := parts[1..];
      PartsRoundTrip(rest);
      assert forall i :: 0 < i < |parts| ==> parts[i] == rest[i - 1];
      if parts[0].Text? {
        HeadRoundTrip(parts);
      } else {
        assert [] + TextRecords(rest) == TextRecords(rest);
        assert [] + TextParts(rest) == TextParts(rest);
      }
    }
  }

  lemma HeadRoundTrip(parts: seq<Part>)
    requires parts != [] && parts[0].Text?
    ensures RestoredParts(TextRecords(parts)) == TextParts(parts)
      <==> parts[0].text.Some? && RestoredParts(TextRecords(parts[1..])) == TextParts(parts[1..])
  {
    var r, rest := TextRecords(parts), parts[1..];
    assert r[1..] == TextRecords(rest);
    assert RestoredParts(r) == [Text(Some(TextOf(parts[0].text)))] + RestoredParts(TextRecords(rest));
    assert RestoredParts(r)[1..] == RestoredParts(TextRecords(rest));
    assert TextParts(parts)[1..] == TextParts(rest);
    assert RestoredParts(r)[0] == parts[0] <==> parts[0].text.Some?;
  }

  lemma CallsRoundTrip(calls: seq<Call>)
    ensures RestoredCalls(CallRecords(calls)) == calls <==> forall i :: 0 <= i < |calls| ==> calls[i].arguments.Some?
  {
    var back := RestoredCalls(CallRecords(calls));
    assert forall i :: 0 <= i < |calls| ==> (back[i] == calls[i] <==> calls[i].arguments.Some?);
  }

  /** The round trip gives back the text projection exactly when every text part has
      its text and every call an object of arguments. */
  lemma RoundTripIffWhole(m: Message)
    ensures Restored(Serialize(m)) == TextProjection(m) <==> Whole(m)
  {
    PartsRoundTrip(m.parts);
    CallsRoundTrip(m.calls);
  }

  lemma {:induction false} RestoredPartsClean(content: seq<PartRecord>)
    ensures forall p :: p in RestoredParts(content) ==> p.Text? && p.text.Some?
  {
    if content != [] {
      RestoredPartsClean(content[1..]);
    }
  }

  lemma {:induction false} TextPartsAll(parts: seq<Part>)
    requires forall p :: p in parts ==> p.Text?
    ensures TextParts(parts) == parts
  {
    if parts != [] {
      TextPartsAll(parts[1..]);
    }
  }

  /** After one restart nothing is lost any more: a second round trip changes nothing. */
  lemma SecondRoundTripIsIdentity(r: MessageRecord)
    ensures Restored(Serialize(Restored(r))) == Restored(r)
  {
    var m := Restored(r);
    RestoredPartsClean(r.content);
    TextPartsAll(m.parts);
    RoundTripIffWhole(m);
  }

  /** A restored message is whole. */
  lemma RestoredWhole(r: MessageRecord)
    ensures Whole(Restored(r))
  {
    var parts := Restored(r).parts;
    RestoredPartsClean(r.content);
    forall i | 0 <= i < |parts| ensures parts[i].Text? && parts[i].text.Some? {
      assert parts[i] in parts;
    }
  }

  function SerializeAll(ms: seq<Message>): seq<MessageRecord> {
    seq(|ms|, i requires 0 <= i < |ms| => Serialize(ms[i]))
  }

  function RestoredAll(rs: seq<MessageRecord>): seq<Message> {
    seq(|rs|, i requires 0 <= i < |rs| => Restored(rs[i]))
  }

  /** The results that follow an assistant answer its calls before and after. */
  lemma RestoredAnswers(ms: seq<Message>, calls: seq<Call>)
    ensures AnswersAll(RestoredAll(SerializeAll(ms)), RestoredCalls(CallRecords(calls))) <==> AnswersAll(ms, calls)
  {
    var rs, back := RestoredAll(SerializeAll(ms)), RestoredCalls(CallRecords(calls));
    if |ms| == |calls| {
      assert forall i :: 0 <= i < |ms| ==> (Answers(rs[i], back[i]) <==> Answers(ms[i], calls[i]));
    }
  }

  /** A transcript in the form a provider needs is still in it after a restart. */
  lemma {:induction false} RestoredWellFormed(ms: seq<Message>)
    ensures WellFormed(RestoredAll(SerializeAll(ms))) <==> WellFormed(ms)
  {
    var rs := RestoredAll(SerializeAll(ms));
    if ms != [] {
      var n := |ms[0].calls|;
      assert |rs[0].calls| == n && rs[0].role == ms[0].role;
      if !ms[0].role.Assistant? {
        assert rs[1..] == RestoredAll(SerializeAll(ms[1..]));
        RestoredWellFormed(ms[1..]);
      } else if n < |ms| {
        assert rs[n + 1..] == RestoredAll(SerializeAll(ms[n + 1..]));
        RestoredWellFormed(ms[n + 1..]);
        assert rs[1..n + 1] == RestoredAll(SerializeAll(ms[1..n + 1]));
        RestoredAnswers(ms[1..n + 1], ms[0].calls);
      }
    }
  }

  // ----- stored values of any shape

  datatype Json =
    | Null
    | Bool(value: bool)
    | Number(digits: string)
    | Str(text: string)
    | List(items: seq<Json>)
    | Object(fields: map<string, Json>)

  /** How lists and objects print, and the object that a text of arguments stands for. */
  datatype Printer = Printer(show: Json -> string, parse: string -> Json)

  ghost predicate Faithful(p: Printer) {
    forall text :: p.parse(text).Object? && p.show(p.parse(text)) == text
  }

  /** `str`. */
  function Printed(p: Printer, j: Json): string {
    match j
    case Null => "None"
    case Bool(value) => if value then "True" else "False"
    case Number(digits) => digits
    case Str(text) => text
    case _ => p.show(j)
  }

  /** `str(value.get(key, default))`. */
  function PrintedField(p: Printer, fields: map<string, Json>, key: string, default: string): string {
    if key in fields then Printed(p, fields[key]) else default
  }

  /** What `for item in value.get(key, [])` meets: the items of a list, nothing that is an
      object among the characters of a text or the keys of an object, and an error for a
      value that cannot be iterated. */
  function Iterated(fields: map<string, Json>, key: string): Result<seq<Json>, ()> {
    if key !in fields then Success([])
    else
      match fields[key]
      case List(items) => Success(items)
      case Str(_) => Success([])
      case Object(_) => Success([])
      case _ => Failure(())
  }

  function PartsOf(p: Printer, items: seq<Json>): seq<Part> {
    if items == [] then [] else
      (if items[0].Object? && "type" in items[0].fields && items[0].fields["type"] == Str("text")
       then [Text(Some(PrintedField(p, items[0].fields, "text", "")))] else [])
      + PartsOf(p, items[1..])
  }

  function CallOf(p: Printer, fields: map<string, Json>): Call {
    Call(PrintedField(p, fields, "id", ""), PrintedField(p, fields, "name", ""),
         Some(if "arguments" in fields && fields["arguments"].Object? then p.show(fields["arguments"]) else EMPTY_OBJECT))
  }

  /** The calls among some items; what is not an object is passed over. */
  function CallsOf(p: Printer, items: seq<Json>): seq<Call> {
    if items == [] then [] else
      CallsOf(p, items[..|items| - 1])
      + (if items[|items| - 1].Object? then [CallOf(p, items[|items| - 1].fields)] else [])
  }

  function OptionalField(p: Printer, fields: map<string, Json>, key: string): Option<string> {
    if key in fields && !fields[key].Null? then Some(Printed(p, fields[key])) else None
  }

  function Decoded(p: Printer, fields: map<string, Json>): Result<Message, ()> {
    var content, calls := Iterated(fields, "content"), Iterated(fields, "tool_calls");
    if content.Failure? || calls.Failure? then Failure(())
    else
      Success(Message(RoleOf(PrintedField(p, fields, "role", "assistant")), PartsOf(p, content.value),
                      OptionalField(p, fields, "tool_call_id"), OptionalField(p, fields, "tool_name"),
                      CallsOf(p, calls.value), ""))
  }

  /** `_deserialize_message`, which grows its list of calls in a loop. */
  method Deserialize(p: Printer, fields: map<string, Json>) returns (r: Result<Message, ()>)
    ensures r == Decoded(p, fields)
  {
    var content, stored := Iterated(fields, "content"), Iterated(fields, "tool_calls");
    if content.Failure? || stored.Failure? {
      return Failure(());
    }
    var items := stored.value;
    var calls: seq<Call> := [];
    for i := 0 to |items|
      invariant calls == CallsOf(p, items[..i])
    {
      assert items[..i + 1][..i] == items[..i];
      if !items[i].Object? {
        continue;
      }
      var call := items[i].fields;
      var arguments := if "arguments" in call && call["arguments"].Object? then p.show(call["arguments"]) else EMPTY_OBJECT;
      calls := calls + [Call(PrintedField(p, call, "id", ""), PrintedField(p, call, "name", ""), Some(arguments))];
    }
    assert items[..|items|] == items;
    var role := PrintedField(p, fields, "role", "assistant");
    r := Success(Message(RoleOf(role), PartsOf(p, content.value), OptionalField(p, fields, "tool_call_id"),
                         OptionalField(p, fields, "tool_name"), calls, ""));
  }

  function EncodedPart(r: PartRecord): Json {
    Object(map["type" := Str(r.kind), "text" := EncodedText(r.text)])
  }

  function EncodedText(text: Option<string>): Json {
    if text.Some? then Str(text.value) else Null
  }

  function EncodedParts(content: seq<PartRecord>): seq<Json> {
    seq(|content|, i requires 0 <= i < |content| => EncodedPart(content[i]))
  }

  function EncodedCall(p: Printer, c: CallRecord): Json {
    Object(map["id" := Str(c.id), "name" := Str(c.name),
               "arguments" := if c.arguments.Some? then p.parse(c.arguments.value) else Null])
  }

  function EncodedCalls(p: Printer, calls: seq<CallRecord>): seq<Json> {
    seq(|calls|, i requires 0 <= i < |calls| => EncodedCall(p, calls[i]))
  }

  /** A record as it is stored. */
  function Encoded(p: Printer, r: MessageRecord): map<string, Json> {
    map["role" := Str(r.role), "content" := List(EncodedParts(r.content)), "tool_call_id" := EncodedText(r.callId),
        "tool_name" := EncodedText(r.toolName), "tool_calls" := List(EncodedCalls(p, r.calls))]
  }

  lemma {:induction false} PartsDecode(p: Printer, content: seq<PartRecord>)
    ensures PartsOf(p, EncodedParts(content)) == RestoredParts(content)
  {
    if content != [] {
      assert EncodedParts(content)[1..] == EncodedParts(content[1..]);
      PartsDecode(p, content[1..]);
    }
  }

  lemma {:induction false} CallsDecode(p: Printer, calls: seq<CallRecord>)
    requires Faithful(p)
    ensures CallsOf(p, EncodedCalls(p, calls)) == RestoredCalls(calls)
  {
    if calls != [] {
      var n := |calls| - 1;
      assert EncodedCalls(p, calls)[..n] == EncodedCalls(p, calls[..n]);
      CallsDecode(p, calls[..n]);
      var c := calls[n];
      if c.arguments.Some? {
        assert p.parse(c.arguments.value).Object?;
      }
      assert CallOf(p, EncodedCall(p, c).fields) == RestoredCall(c);
      assert RestoredCalls(calls) == RestoredCalls(calls[..n]) + [RestoredCall(c)];
    }
  }

  /** What serialization stores is read back as the restored record. */
  lemma StoredDecodes(p: Printer, r: MessageRecord)
    requires Faithful(p)
    ensures Decoded(p, Encoded(p, r)) == Success(Restored(r))
  {
    PartsDecode(p, r.content);
    CallsDecode(p, r.calls);
  }

  /** A stored object is refused exactly when its content or its calls are there and are
      null, a boolean or a number; any other shape is read as some message. */
  lemma RefusedIff(p: Printer, fields: map<string, Json>)
    ensures Decoded(p, fields).Failure? <==>
      exists key :: key in {"content", "tool_calls"} && key in fields
                    && (fields[key].Null? || fields[key].Bool? || fields[key].Number?)
  {
    if Decoded(p, fields).Failure? {
      var key := if Iterated(fields, "content").Failure? then "content" else "tool_calls";
      assert key in {"content", "tool_calls"} && key in fields;
    }
  }
}
