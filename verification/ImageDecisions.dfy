/** How one attachment and one message fare under the shared budgets
    (bot/agent/attachments.py): pure decisions, and ownership of what they stage. */
module ImageDecisions {
  import opened Wrappers
  import opened Sequences
  import opened StagedFiles
  import opened AttachmentStorage

  /** What metadata says of an attachment: no image, an image by its suffix alone, or an
      image by its declared type. */
  datatype Kind = NotImage | BySuffix | Declared

  datatype Code = Malformed | TooManyPixels | OtherCode

  /** How normalization ends: `derivative` is the size of the file it needed to make. */
  datatype Normalization = TimesOut | Rejects(code: Code) | Breaks(cancelled: bool) | Passes(derivative: Option<nat>)

  /** How reading the chosen file back ends, and whether its type is the expected one. */
  datatype ReadBack = Reads(matches: bool) | CannotRead | ReadBreaks(cancelled: bool)

  /** An attachment with all that happens to it. `leftover` is a derivative that a failed
      normalization has made, `cleanupCancelled` says that its cleanup is cancelled, which
      shows only once the cleanup is done. */
  datatype Attachment = Attachment(
    id: nat,
    kind: Kind,
    size: int,
    source: Origin,
    normalization: Normalization,
    leftover: Option<nat>,
    back: ReadBack,
    hash: nat,
    cleanupCancelled: bool)

  datatype Issue = SourceLimit | AggregateLimit | Undecodable | PixelLimit | Processing | Unreadable

  /** An exception on its way out; `leaves` is the size of a file that it leaves. */
  datatype Break = Break(cancelled: bool, leaves: Option<nat>)

  datatype Fate = Dropped | Kept(bytes: nat, derivative: Option<nat>) | Broken(how: Break)

  /** What becomes of a candidate: its fate, the bytes it uses up, and what the scan
      records: an issue, a claim on the attachment, an attempt. */
  datatype Verdict = Verdict(fate: Fate, consumed: nat, issue: Option<Issue>, claims: bool, attempts: bool)

  function Min(a: int, b: int): int {
    if b < a then b else a
  }

  function NonNegative(n: int): nat {
    if n < 0 then 0 else n
  }

  function DeclaredSize(a: Attachment): nat {
    NonNegative(a.size)
  }

  /** A candidate that never became a file: a mere suffix is claimed all the same. */
  function Turned(a: Attachment, consumed: nat, issue: Issue): Verdict {
    Verdict(Dropped, consumed, Some(issue), a.kind.BySuffix?, true)
  }

  /** Cancelled while nothing was recorded yet. */
  function Stopped(a: Attachment, leaves: Option<nat>): Verdict {
    Verdict(Broken(Break(true, leaves)), 0, None, false, a.kind.Declared?)
  }

  /** A staged file that is removed again. */
  function Removed(a: Attachment, bytes: nat, issue: Option<Issue>, claims: bool, attempts: bool): Verdict {
    Verdict(if a.cleanupCancelled then Broken(Break(true, None)) else Dropped, bytes, issue, claims, attempts)
  }

  function CodeIssue(code: Code): Issue {
    match code
    case TooManyPixels => PixelLimit
    case Malformed => Undecodable
    case OtherCode => Processing
  }

  /** The worker writes no derivative above its limit. */
  function Written(derivative: Option<nat>, limits: Limits): Option<nat> {
    if derivative.Some? && derivative.value <= limits.Derivative() then derivative else None
  }

  /** A derivative that is empty or above the limit is refused. */
  function Checked(n: Normalization, limits: Limits): Normalization {
    if n.Passes? && n.derivative.Some? && !(0 < n.derivative.value <= limits.Derivative()) then Rejects(OtherCode) else n
  }

  function JudgeStaged(a: Attachment, bytes: nat, limits: Limits): Verdict {
    var sure := a.kind.Declared?;
    match Checked(a.normalization, limits)
    case TimesOut => Removed(a, bytes, Some(Processing), !sure, true)
    case Rejects(code) =>
      // Only a mere suffix that does not decode stays an ordinary attachment.
      if !sure && code.Malformed? then Removed(a, bytes, None, false, false)
      else Removed(a, bytes, Some(CodeIssue(code)), !sure, true)
    case Breaks(cancelled) => Verdict(Broken(Break(cancelled, None)), bytes, None, false, sure)
    case Passes(derivative) =>
      match a.back
      case Reads(matches) =>
        if matches then Verdict(Kept(bytes, derivative), bytes, None, true, true)
        else Removed(a, bytes, Some(Processing), true, true)
      case CannotRead => Removed(a, bytes, Some(Processing), true, true)
      case ReadBreaks(cancelled) => Verdict(Broken(Break(cancelled, None)), bytes, None, true, true)
  }

  /** A failed save has cleaned up unless it never began to stream. */
  predicate CleansUp(a: Attachment, max: int) {
    a.source.Stream? && max > 0
  }

  function Judge(a: Attachment, limits: Limits, remaining: nat): Verdict {
    if DeclaredSize(a) > limits.source then Turned(a, 0, SourceLimit)
    else if remaining == 0 || DeclaredSize(a) > remaining then Turned(a, 0, AggregateLimit)
    else
      var max := Min(limits.source, remaining);
      match SaveOutcome(a.source, max)
      case TooLarge(downloaded) =>
        if CleansUp(a, max) && a.cleanupCancelled then Stopped(a, None)
        else Turned(a, Min(downloaded, remaining), if remaining >= limits.source then SourceLimit else AggregateLimit)
      case DownloadFailed(downloaded) =>
        if a.cleanupCancelled then Stopped(a, None) else Turned(a, Min(downloaded, remaining), Unreadable)
      case OtherFailure => Turned(a, Min(DeclaredSize(a), remaining), Unreadable)
      case Cancelled(leaves) => Stopped(a, leaves)
      case Saved(bytes) => JudgeStaged(a, bytes, limits)
  }

  /** A verdict never uses up more than is left, a kept file is paid for in full, a kept
      derivative is within its limit, and only a cancellation leaves a file. */
  lemma JudgeBounded(a: Attachment, limits: Limits, remaining: nat)
    ensures var v := Judge(a, limits, remaining);
      && v.consumed <= remaining
      && (v.fate.Kept? ==> v.fate.bytes == v.consumed)
      && (v.fate.Kept? && v.fate.derivative.Some? ==> 0 < v.fate.derivative.value <= limits.Derivative())
      && (v.fate.Broken? && v.fate.how.leaves.Some? ==> v.fate.how.cancelled)
  {
    OutcomeBounded(a.source, Min(limits.source, remaining));
  }

  /** What makes an image: its declared size and its source fit the source limit and what is
      left, nothing happens to it, normalization passes with no derivative or one within
      the limit, and the file reads back with the expected type. */
  predicate Good(a: Attachment, limits: Limits, left: nat) {
    && left > 0 && limits.source > 0
    && a.size <= limits.source && a.size <= left
    && Clean(a.source) && FitsIn(a.source, limits.source) && FitsIn(a.source, left)
    && a.normalization.Passes?
    && (a.normalization.derivative.Some? ==> 0 < a.normalization.derivative.value <= limits.Derivative())
    && a.back == Reads(true)
  }

  /** A candidate is kept exactly then, and pays for its whole source. */
  lemma KeptIffGood(a: Attachment, limits: Limits, left: nat)
    ensures var v := Judge(a, limits, left);
      && (v.fate.Kept? <==> Good(a, limits, left))
      && (v.fate.Kept? ==> v == Verdict(Kept(SizeOf(a.source), a.normalization.derivative), SizeOf(a.source), None, true, true))
  {
    if left > 0 && limits.source > 0 {
      SavedIff(a.source, Min(limits.source, left));
    }
  }

  /** The source, or what it declares, is above a limit. */
  predicate Above(source: Origin, max: int) {
    SizeOf(source) > max || (source.Stream? && source.declared.Some? && source.declared.value > max)
  }

  /** A candidate that is too large is dropped and named by the limit that it breaks; by
      its metadata alone it costs nothing. */
  lemma TooLargeIsNamed(a: Attachment, limits: Limits, left: nat)
    requires limits.source > 0 && Clean(a.source) && !a.cleanupCancelled
    requires a.size > limits.source || left == 0 || a.size > left || Above(a.source, Min(limits.source, left))
    ensures var v := Judge(a, limits, left);
      && v.fate.Dropped? && v.attempts && (v.claims <==> a.kind.BySuffix?)
      && v.issue == Some(if a.size > limits.source || (a.size <= left && limits.source <= left) then SourceLimit else AggregateLimit)
      && (a.size > limits.source || a.size > left ==> v.consumed == 0)
  {
    if 0 < left && a.size <= limits.source && a.size <= left {
      TooLargeIff(a.source, Min(limits.source, left));
    }
  }

  /** A source that was saved whole but makes no image is paid for, dropped and named: it
      is not claimed if a mere suffix made it a candidate and it does not decode. */
  lemma BadIsNamed(a: Attachment, limits: Limits, left: nat)
    requires !a.kind.NotImage? && left > 0 && limits.source > 0 && a.size <= limits.source && a.size <= left && !a.cleanupCancelled
    requires Clean(a.source) && FitsIn(a.source, limits.source) && FitsIn(a.source, left)
    requires match a.normalization
      case Passes(derivative) =>
        !a.back.ReadBreaks? && (a.back != Reads(true) || (derivative.Some? && !(0 < derivative.value <= limits.Derivative())))
      case Breaks(_) => false
      case _ => true
    ensures var v := Judge(a, limits, left);
      var plain := a.kind.BySuffix? && a.normalization == Rejects(Malformed);
      && v.fate.Dropped? && v.consumed == SizeOf(a.source)
      && (v.attempts <==> !plain) && (a.kind.BySuffix? ==> (v.claims <==> !plain))
      && v.issue == if plain then None
                    else if a.normalization == Rejects(TooManyPixels) then Some(PixelLimit)
                    else if a.normalization == Rejects(Malformed) then Some(Undecodable)
                    else Some(Processing)
  {
    SavedIff(a.source, Min(limits.source, left));
  }

  /** Nothing about an attachment is cancelled or raises what no handler catches. */
  predicate Calm(a: Attachment) {
    && !a.cleanupCancelled && !a.normalization.Breaks? && !a.back.ReadBreaks?
    && match a.source
       case Stream(_, _, f) =>
         (match f case NoFault => true case AtRequest(c) => !c case AtSource(_, c) => !c case AtDisk(_, c, _) => !c)
       case Body(_, f) => (match f case NoBodyFault => true case ReadFails(c) => !c case StagingFails(c) => !c)
       case Unsafe => true
  }

  lemma {:induction false} CalmStream(chunks: seq<nat>, f: Fault, max: nat, k: nat, seen: nat)
    requires k <= |chunks| && match f case NoFault => true case AtRequest(c) => !c case AtSource(_, c) => !c case AtDisk(_, c, _) => !c
    ensures !StreamFrom(chunks, f, max, k, seen).Cancelled?
    decreases |chunks| - k
  {
    if k < |chunks| {
      CalmStream(chunks, f, max, k + 1, seen + chunks[k]);
    }
  }

  /** Then it breaks nothing. */
  lemma CalmNeverBreaks(a: Attachment, limits: Limits, left: nat)
    requires Calm(a)
    ensures !Judge(a, limits, left).fate.Broken?
  {
    if a.source.Stream? && left > 0 && limits.source > 0 {
      CalmStream(a.source.chunks, a.source.fault, Min(limits.source, left), 0, 0);
    }
  }

  /** The most that a candidate can cost. */
  function Weight(a: Attachment): nat {
    var declared := if a.source.Stream? && a.source.declared.Some? then a.source.declared.value else 0;
    NonNegative(a.size) + SizeOf(a.source) + declared
  }

  lemma CostsAtMost(a: Attachment, limits: Limits, left: nat)
    ensures Judge(a, limits, left).consumed <= Weight(a)
  {
    DownloadedWithin(a.source, Min(limits.source, left));
  }

  /** The save of a candidate is reached, cancelled in a preparation or append, and its
      file outlives the cleanup. */
  predicate SaveLeaves(a: Attachment, limits: Limits, remaining: nat) {
    && 0 < limits.source && DeclaredSize(a) <= limits.source && 0 < remaining && DeclaredSize(a) <= remaining
    && a.source.Stream? && LateWrite(a.source.chunks, a.source.declared, a.source.fault, Min(limits.source, remaining))
  }

  /** A file is left behind exactly when the save's own late write leaves it. */
  lemma JudgeLeavesIff(a: Attachment, limits: Limits, remaining: nat)
    ensures var v := Judge(a, limits, remaining);
      v.fate.Broken? && v.fate.how.leaves.Some? <==> SaveLeaves(a, limits, remaining)
  {
    if remaining > 0 && limits.source > 0 {
      LeavesIffLateWrite(a.source, Min(limits.source, remaining));
    }
  }

  /** The save of an attachment is cancelled while its thread prepares or appends. */
  predicate CutInThread(a: Attachment) {
    && a.source.Stream? && a.source.fault.AtDisk? && a.source.fault.cancelled && a.source.fault.race.Some?
    && a.source.fault.step <= |a.source.chunks|
  }

  lemma JudgeLeavesOnly(a: Attachment, limits: Limits, remaining: nat)
    requires !CutInThread(a)
    ensures var v := Judge(a, limits, remaining); v.fate.Broken? ==> v.fate.how.leaves.None?
  {
    JudgeLeavesIff(a, limits, remaining);
  }

  // ----- a whole message

  datatype Allowance = Allowance(candidates: int, results: int, bytes: nat)

  datatype Scan = Scan(attempted: bool, ids: set<nat>, issues: set<Issue>)

  const UNSCANNED := Scan(false, {}, {})

  function Record(scan: Scan, a: Attachment, v: Verdict): Scan {
    Scan(scan.attempted || v.attempts,
         if v.claims then scan.ids + {a.id} else scan.ids,
         if v.issue.Some? then scan.issues + {v.issue.value} else scan.issues)
  }

  /** What a kept image is: its hash, its source bytes, the bytes of its derivative. */
  datatype Keep = Keep(hash: nat, bytes: nat, derivative: Option<nat>)

  datatype Walk = Walk(kept: seq<Keep>, allowance: Allowance, scan: Scan, broken: Option<Break>)

  function Spend(b: Allowance, v: Verdict): Allowance {
    Allowance(b.candidates - 1, b.results - (if v.fate.Kept? then 1 else 0), if v.consumed < b.bytes then b.bytes - v.consumed else 0)
  }

  /** The walk over a message's attachments from index `i` on. */
  function WalkFrom(atts: seq<Attachment>, i: nat, limits: Limits, b: Allowance, scan: Scan, kept: seq<Keep>): Walk
    requires i <= |atts|
    decreases |atts| - i
  {
    if i == |atts| || b.candidates <= 0 || b.results <= 0 then Walk(kept, b, scan, None)
    else if atts[i].kind.NotImage? then WalkFrom(atts, i + 1, limits, b, scan, kept)
    else
      var v := Judge(atts[i], limits, b.bytes);
      var after, record := Spend(b, v), Record(scan, atts[i], v);
      match v.fate
      case Dropped => WalkFrom(atts, i + 1, limits, after, record, kept)
      case Kept(bytes, derivative) =>
        WalkFrom(atts, i + 1, limits, after, record, kept + [Keep(atts[i].hash, bytes, derivative)])
      case Broken(how) => Walk(kept, after, record, Some(how))
  }

  function SourceBytes(kept: seq<Keep>): nat {
    if kept == [] then 0 else SourceBytes(kept[..|kept| - 1]) + kept[|kept| - 1].bytes
  }

  function DerivedBytes(kept: seq<Keep>): nat {
    if kept == [] then 0
    else DerivedBytes(kept[..|kept| - 1]) + Sized(kept[|kept| - 1].derivative)
  }

  function Sized(derivative: Option<nat>): nat {
    if derivative.Some? then derivative.value else 0
  }

  lemma BytesSnoc(kept: seq<Keep>, k: Keep)
    ensures SourceBytes(kept + [k]) == SourceBytes(kept) + k.bytes
    ensures DerivedBytes(kept + [k]) == DerivedBytes(kept) + Sized(k.derivative)
  {
    assert (kept + [k])[..|kept|] == kept;
  }

  /** The most that derivatives of so many candidates can have. */
  function DerivedRoom(limits: Limits, candidates: int): nat {
    if candidates <= 0 then 0 else limits.Derivative() + DerivedRoom(limits, candidates - 1)
  }

  lemma {:induction false} RoomIsProduct(limits: Limits, candidates: nat)
    ensures DerivedRoom(limits, candidates) == limits.Derivative() * candidates
  {
    if candidates > 0 {
      RoomIsProduct(limits, candidates - 1);
    }
  }

  /** Over one message: what is kept is paid for out of the shared bytes and the room for
      derivatives, and each of the three allowances bounds what it is for. */
  lemma {:induction false} WalkBounded(atts: seq<Attachment>, i: nat, limits: Limits, b: Allowance, scan: Scan, kept: seq<Keep>)
    requires i <= |atts|
    ensures var w := WalkFrom(atts, i, limits, b, scan, kept);
      && SourceBytes(w.kept) + w.allowance.bytes <= SourceBytes(kept) + b.bytes
      && DerivedBytes(w.kept) + DerivedRoom(limits, w.allowance.candidates) <= DerivedBytes(kept) + DerivedRoom(limits, b.candidates)
      && |w.kept| + w.allowance.results == |kept| + b.results
      && w.allowance.bytes <= b.bytes && w.allowance.candidates <= b.candidates
      && (b.results >= 0 ==> w.allowance.results >= 0)
      && (b.candidates >= 0 ==> 0 <= w.allowance.candidates)
      && w.allowance.candidates + |w.kept| <= b.candidates + |kept|
      && (w.broken.Some? && w.broken.value.leaves.Some? ==> w.broken.value.cancelled)
    decreases |atts| - i
  {
    if i < |atts| && b.candidates > 0 && b.results > 0 {
      if atts[i].kind.NotImage? {
        WalkBounded(atts, i + 1, limits, b, scan, kept);
      } else {
        var v := Judge(atts[i], limits, b.bytes);
        JudgeBounded(atts[i], limits, b.bytes);
        var after, record := Spend(b, v), Record(scan, atts[i], v);
        if v.fate.Dropped? {
          WalkBounded(atts, i + 1, limits, after, record, kept);
        } else if v.fate.Kept? {
          var k := Keep(atts[i].hash, v.fate.bytes, v.fate.derivative);
          BytesSnoc(kept, k);
          WalkBounded(atts, i + 1, limits, after, record, kept + [k]);
        }
      }
    }
  }

  /** The candidates from `i` on, and what they can cost together. */
  function Candidates(atts: seq<Attachment>, i: nat): nat
    requires i <= |atts|
    decreases |atts| - i
  {
    if i == |atts| then 0 else (if atts[i].kind.NotImage? then 0 else 1) + Candidates(atts, i + 1)
  }

  function Weights(atts: seq<Attachment>, i: nat): nat
    requires i <= |atts|
    decreases |atts| - i
  {
    if i == |atts| then 0 else (if atts[i].kind.NotImage? then 0 else Weight(atts[i])) + Weights(atts, i + 1)
  }

  /** An attachment that makes an image whenever there is room for it. */
  predicate MakesImage(a: Attachment, limits: Limits) {
    !a.kind.NotImage? && Good(a, limits, Weight(a) + 1)
  }

  /** The images that the attachments from `i` on make, in their order. */
  function Images(atts: seq<Attachment>, i: nat, limits: Limits): seq<Keep>
    requires i <= |atts|
    decreases |atts| - i
  {
    if i == |atts| then []
    else
      (if MakesImage(atts[i], limits) then [Keep(atts[i].hash, SizeOf(atts[i].source), atts[i].normalization.derivative)] else [])
      + Images(atts, i + 1, limits)
  }

  lemma RoomIsEnough(a: Attachment, limits: Limits, left: nat)
    requires left > Weight(a)
    ensures Good(a, limits, left) <==> Good(a, limits, Weight(a) + 1)
  {
  }

  /** With room for all candidates a walk that is not broken keeps exactly the images of
      the attachments that make one, in order. */
  lemma {:induction false} AmpleWalkKeeps(atts: seq<Attachment>, i: nat, limits: Limits, b: Allowance, scan: Scan, kept: seq<Keep>)
    requires i <= |atts| && Candidates(atts, i) <= b.candidates && Candidates(atts, i) <= b.results && Weights(atts, i) < b.bytes
    requires WalkFrom(atts, i, limits, b, scan, kept).broken.None?
    ensures WalkFrom(atts, i, limits, b, scan, kept).kept == kept + Images(atts, i, limits)
    decreases |atts| - i
  {
    if i == |atts| {
      assert kept + [] == kept;
    } else if atts[i].kind.NotImage? {
      AmpleWalkKeeps(atts, i + 1, limits, b, scan, kept);
    } else {
      AmpleStep(atts[i], limits, b);
      var v := Judge(atts[i], limits, b.bytes);
      var more := if v.fate.Kept? then [Keep(atts[i].hash, v.fate.bytes, v.fate.derivative)] else [];
      assert kept + [] == kept;
      AmpleWalkKeeps(atts, i + 1, limits, Spend(b, v), Record(scan, atts[i], v), kept + more);
      assert kept + more + Images(atts, i + 1, limits) == kept + (more + Images(atts, i + 1, limits));
    }
  }

  lemma AmpleStep(a: Attachment, limits: Limits, b: Allowance)
    requires Weight(a) < b.bytes && !a.kind.NotImage?
    ensures var v := Judge(a, limits, b.bytes);
      && (v.fate.Kept? <==> MakesImage(a, limits))
      && (v.fate.Kept? ==> v.fate == Kept(SizeOf(a.source), a.normalization.derivative))
      && Spend(b, v).bytes >= b.bytes - Weight(a) && Spend(b, v).results >= b.results - 1 && Spend(b, v).candidates == b.candidates - 1
  {
    KeptIffGood(a, limits, b.bytes);
    RoomIsEnough(a, limits, b.bytes);
    CostsAtMost(a, limits, b.bytes);
  }

  predicate AllCalm(atts: seq<Attachment>) {
    forall i :: 0 <= i < |atts| ==> Calm(atts[i])
  }

  lemma {:induction false} CalmWalk(atts: seq<Attachment>, i: nat, limits: Limits, b: Allowance, scan: Scan, kept: seq<Keep>)
    requires i <= |atts| && AllCalm(atts)
    ensures WalkFrom(atts, i, limits, b, scan, kept).broken.None?
    decreases |atts| - i
  {
    if i < |atts| && b.candidates > 0 && b.results > 0 {
      if atts[i].kind.NotImage? {
        CalmWalk(atts, i + 1, limits, b, scan, kept);
      } else {
        var v := Judge(atts[i], limits, b.bytes);
        CalmNeverBreaks(atts[i], limits, b.bytes);
        CalmWalk(atts, i + 1, limits, Spend(b, v), Record(scan, atts[i], v),
                 if v.fate.Kept? then kept + [Keep(atts[i].hash, v.fate.bytes, v.fate.derivative)] else kept);
      }
    }
  }

  /** With a single candidate only the first one decides. */
  lemma {:induction false} OneWalkKeeps(atts: seq<Attachment>, i: nat, limits: Limits, bytes: nat, scan: Scan)
    requires i < |atts| && !atts[i].kind.NotImage? && forall j :: 0 <= j < i ==> atts[j].kind.NotImage?
    ensures var w := WalkFrom(atts, 0, limits, Allowance(1, 1, bytes), scan, []); var a := atts[i];
      w.kept == if Good(a, limits, bytes) then [Keep(a.hash, SizeOf(a.source), a.normalization.derivative)] else []
  {
    SkipsOthers(atts, 0, i, limits, Allowance(1, 1, bytes), scan);
    KeptIffGood(atts[i], limits, bytes);
  }

  lemma {:induction false} SkipsOthers(atts: seq<Attachment>, k: nat, i: nat, limits: Limits, b: Allowance, scan: Scan)
    requires k <= i <= |atts| && b.candidates > 0 && b.results > 0 && forall j :: k <= j < i ==> atts[j].kind.NotImage?
    ensures WalkFrom(atts, k, limits, b, scan, []) == WalkFrom(atts, i, limits, b, scan, [])
    decreases i - k
  {
    if k < i {
      SkipsOthers(atts, k + 1, i, limits, b, scan);
    }
  }

  predicate Undisturbed(atts: seq<Attachment>) {
    forall i :: 0 <= i < |atts| ==> !CutInThread(atts[i])
  }

  /** A walk leaves a file only if a save was cancelled in its thread. */
  lemma {:induction false} WalkLeavesOnly(atts: seq<Attachment>, i: nat, limits: Limits, b: Allowance, scan: Scan, kept: seq<Keep>)
    requires i <= |atts| && Undisturbed(atts)
    ensures var w := WalkFrom(atts, i, limits, b, scan, kept); w.broken.Some? ==> w.broken.value.leaves.None?
    decreases |atts| - i
  {
    if i < |atts| && b.candidates > 0 && b.results > 0 {
      if atts[i].kind.NotImage? {
        WalkLeavesOnly(atts, i + 1, limits, b, scan, kept);
      } else {
        var v := Judge(atts[i], limits, b.bytes);
        JudgeLeavesOnly(atts[i], limits, b.bytes);
        if v.fate.Dropped? {
          WalkLeavesOnly(atts, i + 1, limits, Spend(b, v), Record(scan, atts[i], v), kept);
        } else if v.fate.Kept? {
          WalkLeavesOnly(atts, i + 1, limits, Spend(b, v), Record(scan, atts[i], v),
                         kept + [Keep(atts[i].hash, v.fate.bytes, v.fate.derivative)]);
        }
      }
    }
  }

  /** What is left when the walk gets to attachment `i`; none when it ends before. */
  function LeftAt(atts: seq<Attachment>, i: nat, limits: Limits, b: Allowance): Option<Allowance>
    requires i <= |atts|
  {
    if i == 0 then Some(b)
    else
      var before := LeftAt(atts, i - 1, limits, b);
      if before.None? || before.value.candidates <= 0 || before.value.results <= 0 then None
      else if atts[i - 1].kind.NotImage? then before
      else
        var v := Judge(atts[i - 1], limits, before.value.bytes);
        if v.fate.Broken? then None else Some(Spend(before.value, v))
  }

  /** The walk gets to attachment `i` and its save leaves a file. */
  predicate LeavesAt(atts: seq<Attachment>, i: nat, limits: Limits, b: Allowance)
    requires i < |atts|
  {
    var left := LeftAt(atts, i, limits, b);
    && left.Some? && left.value.candidates > 0 && left.value.results > 0 && !atts[i].kind.NotImage?
    && SaveLeaves(atts[i], limits, left.value.bytes)
  }

  ghost predicate WalkLeaves(atts: seq<Attachment>, limits: Limits, b: Allowance) {
    exists i :: 0 <= i < |atts| && LeavesAt(atts, i, limits, b)
  }

  lemma {:induction false} EndedBefore(atts: seq<Attachment>, i: nat, j: nat, limits: Limits, b: Allowance)
    requires i <= j <= |atts| && LeftAt(atts, i, limits, b).None?
    ensures LeftAt(atts, j, limits, b).None?
    decreases j
  {
    if i < j {
      EndedBefore(atts, i, j - 1, limits, b);
    }
  }

  lemma NoneLater(atts: seq<Attachment>, i: nat, limits: Limits, b: Allowance)
    requires i < |atts| && LeftAt(atts, i + 1, limits, b).None?
    ensures forall j :: i < j < |atts| ==> !LeavesAt(atts, j, limits, b)
  {
    forall j | i < j < |atts| ensures !LeavesAt(atts, j, limits, b) {
      EndedBefore(atts, i + 1, j, limits, b);
    }
  }

  lemma {:induction false} WalkLeavesFrom(atts: seq<Attachment>, i: nat, limits: Limits, start: Allowance, b: Allowance, scan: Scan, kept: seq<Keep>)
    requires i <= |atts| && LeftAt(atts, i, limits, start) == Some(b)
    ensures var w := WalkFrom(atts, i, limits, b, scan, kept);
      w.broken.Some? && w.broken.value.leaves.Some? <==> exists j :: i <= j < |atts| && LeavesAt(atts, j, limits, start)
    decreases |atts| - i
  {
    if i < |atts| {
      if b.candidates <= 0 || b.results <= 0 {
        NoneLater(atts, i, limits, start);
      } else if atts[i].kind.NotImage? {
        WalkLeavesFrom(atts, i + 1, limits, start, b, scan, kept);
      } else {
        var v := Judge(atts[i], limits, b.bytes);
        JudgeLeavesIff(atts[i], limits, b.bytes);
        assert LeavesAt(atts, i, limits, start) <==> v.fate.Broken? && v.fate.how.leaves.Some?;
        if v.fate.Broken? {
          NoneLater(atts, i, limits, start);
        } else {
          WalkLeavesFrom(atts, i + 1, limits, start, Spend(b, v), Record(scan, atts[i], v),
                         if v.fate.Kept? then kept + [Keep(atts[i].hash, v.fate.bytes, v.fate.derivative)] else kept);
        }
      }
    }
  }

  /** A message leaves a file exactly when its walk gets to an attachment whose save does. */
  lemma WalkLeavesIff(atts: seq<Attachment>, limits: Limits, b: Allowance, scan: Scan)
    ensures var w := WalkFrom(atts, 0, limits, b, scan, []);
      w.broken.Some? && w.broken.value.leaves.Some? <==> WalkLeaves(atts, limits, b)
  {
    WalkLeavesFrom(atts, 0, limits, b, b, scan, []);
  }

  /** The walk gets to attachment `i`, and it is good for what is left there. */
  predicate KeptAt(atts: seq<Attachment>, i: nat, limits: Limits, b: Allowance)
    requires i < |atts|
  {
    var left := LeftAt(atts, i, limits, b);
    && left.Some? && left.value.candidates > 0 && left.value.results > 0 && !atts[i].kind.NotImage?
    && Good(atts[i], limits, left.value.bytes)
  }

  /** The images of these attachments, in their order. */
  function KeptFrom(atts: seq<Attachment>, i: nat, limits: Limits, b: Allowance): seq<Keep>
    requires i <= |atts|
    decreases |atts| - i
  {
    if i == |atts| then []
    else
      (if KeptAt(atts, i, limits, b) then [Keep(atts[i].hash, SizeOf(atts[i].source), atts[i].normalization.derivative)] else [])
      + KeptFrom(atts, i + 1, limits, b)
  }

  lemma {:induction false} NoneKeptLater(atts: seq<Attachment>, i: nat, limits: Limits, b: Allowance)
    requires i <= |atts| && LeftAt(atts, i, limits, b).None?
    ensures KeptFrom(atts, i, limits, b) == []
    decreases |atts| - i
  {
    if i < |atts| {
      NoneKeptLater(atts, i + 1, limits, b);
    }
  }

  lemma {:induction false} WalkKeepsFrom(atts: seq<Attachment>, i: nat, limits: Limits, start: Allowance, b: Allowance, scan: Scan,
                                         kept: seq<Keep>)
    requires i <= |atts| && LeftAt(atts, i, limits, start) == Some(b)
    ensures WalkFrom(atts, i, limits, b, scan, kept).kept == kept + KeptFrom(atts, i, limits, start)
    decreases |atts| - i
  {
    assert kept + [] == kept;
    if i < |atts| {
      if b.candidates <= 0 || b.results <= 0 {
        NoneKeptLater(atts, i + 1, limits, start);
      } else if atts[i].kind.NotImage? {
        WalkKeepsFrom(atts, i + 1, limits, start, b, scan, kept);
      } else {
        WalkKeepsNext(atts, i, limits, start, b, scan, kept);
      }
    }
  }

  lemma {:induction false} WalkKeepsNext(atts: seq<Attachment>, i: nat, limits: Limits, start: Allowance, b: Allowance, scan: Scan,
                                         kept: seq<Keep>)
    requires i < |atts| && LeftAt(atts, i, limits, start) == Some(b) && b.candidates > 0 && b.results > 0 && !atts[i].kind.NotImage?
    ensures WalkFrom(atts, i, limits, b, scan, kept).kept == kept + KeptFrom(atts, i, limits, start)
    decreases |atts| - i, 0
  {
    var more := KeptPart(atts, i, limits, start, b);
    WalkStep(atts, i, limits, b, scan, kept, more);
    var v := Judge(atts[i], limits, b.bytes);
    if v.fate.Broken? {
      NoneKeptLater(atts, i + 1, limits, start);
      assert kept + (more + []) == kept;
    } else {
      WalkKeepsFrom(atts, i + 1, limits, start, Spend(b, v), Record(scan, atts[i], v), kept + more);
      KeepsJoin(kept, more, KeptFrom(atts, i + 1, limits, start));
    }
  }

  lemma KeepsJoin(a: seq<Keep>, b: seq<Keep>, c: seq<Keep>)
    ensures a + b + c == a + (b + c)
  {
  }

  lemma WalkStep(atts: seq<Attachment>, i: nat, limits: Limits, b: Allowance, scan: Scan, kept: seq<Keep>, more: seq<Keep>)
    requires i < |atts| && b.candidates > 0 && b.results > 0 && !atts[i].kind.NotImage?
    requires var v := Judge(atts[i], limits, b.bytes);
      more == if v.fate.Kept? then [Keep(atts[i].hash, v.fate.bytes, v.fate.derivative)] else []
    ensures var v, w := Judge(atts[i], limits, b.bytes), WalkFrom(atts, i, limits, b, scan, kept);
      if v.fate.Broken? then w.kept == kept && more == []
      else w == WalkFrom(atts, i + 1, limits, Spend(b, v), Record(scan, atts[i], v), kept + more)
  {
    assert kept + [] == kept;
  }

  /** What an attachment that the walk gets to adds. */
  lemma KeptPart(atts: seq<Attachment>, i: nat, limits: Limits, start: Allowance, b: Allowance) returns (more: seq<Keep>)
    requires i < |atts| && LeftAt(atts, i, limits, start) == Some(b) && b.candidates > 0 && b.results > 0 && !atts[i].kind.NotImage?
    ensures var v := Judge(atts[i], limits, b.bytes);
      more == if v.fate.Kept? then [Keep(atts[i].hash, v.fate.bytes, v.fate.derivative)] else []
    ensures KeptFrom(atts, i, limits, start) == more + KeptFrom(atts, i + 1, limits, start)
  {
    var v := Judge(atts[i], limits, b.bytes);
    KeptIffGood(atts[i], limits, b.bytes);
    more := if v.fate.Kept? then [Keep(atts[i].hash, v.fate.bytes, v.fate.derivative)] else [];
  }

  /** Under any allowance a message keeps exactly the attachments that the walk gets to and
      that are good for what is then left, in order. */
  lemma WalkKeepsIff(atts: seq<Attachment>, limits: Limits, b: Allowance, scan: Scan)
    ensures WalkFrom(atts, 0, limits, b, scan, []).kept == KeptFrom(atts, 0, limits, b)
  {
    WalkKeepsFrom(atts, 0, limits, b, b, scan, []);
  }

  // ----- ownership

  /** `now` is `base` with exactly these files added. */
  ghost predicate Owned(base: map<Path, File>, now: map<Path, File>, paths: seq<Path>) {
    && (forall p :: p in base ==> p in now && now[p] == base[p])
    && (forall p :: p in now <==> p in base || p in paths)
    && forall p :: p in paths ==> p !in base
  }

  /** `now` is `base` again, but for a file of this size that nothing will remove. */
  ghost predicate Stays(base: map<Path, File>, now: map<Path, File>, at: Option<Path>, leaves: Option<nat>) {
    match leaves
    case None => at.None? && now == base
    case Some(n) => at.Some? && at.value !in base && now == base[at.value := Source(n)]
  }

  /** Once what was created is removed, only such a file stays. */
  ghost predicate Covered(base: map<Path, File>, now: map<Path, File>, created: seq<Path>, at: Option<Path>, leaves: Option<nat>) {
    && Stays(base, now - Elems(created), at, leaves)
    && forall p :: p in created ==> p !in base && at != Some(p)
  }

  lemma OwnedNothing(base: map<Path, File>, now: map<Path, File>)
    requires Owned(base, now, [])
    ensures now == base
  {
  }

  lemma OwnedThen(base: map<Path, File>, mid: map<Path, File>, now: map<Path, File>, a: seq<Path>, b: seq<Path>)
    requires Owned(base, mid, a) && Owned(mid, now, b)
    ensures Owned(base, now, a + b)
  {
  }

  /** Removing what is owned, and more that is not there, gives the base back. */
  lemma OwnedRemoved(base: map<Path, File>, now: map<Path, File>, paths: seq<Path>, all: seq<Path>)
    requires Owned(base, now, paths)
    requires forall p :: p in paths ==> p in all
    requires forall p :: p in all ==> p !in base
    ensures now - Elems(all) == base
  {
  }

  /** Removing what was owned before a break leaves only what the break leaves. */
  lemma StaysBelow(base: map<Path, File>, mid: map<Path, File>, now: map<Path, File>, paths: seq<Path>, at: Option<Path>,
                   leaves: Option<nat>)
    requires Owned(base, mid, paths) && Stays(mid, now, at, leaves)
    ensures Stays(base, now - Elems(paths), at, leaves)
  {
    OwnedRemoved(base, mid, paths, paths);
    if leaves.Some? {
      assert now - Elems(paths) == (mid - Elems(paths))[at.value := Source(leaves.value)];
    }
  }
}
