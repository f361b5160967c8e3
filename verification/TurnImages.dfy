/** Collecting a turn's images (bot/agent/attachments.py): three surfaces share one byte
    budget, and every staged file is handed over or removed. */
module ImageOwnership {
  import opened Wrappers
  import opened Sequences
  import opened StagedFiles
  import opened AttachmentStorage
  import opened ImageDecisions

  /** `bytes` and `derivedBytes` are the sizes of the two files. */
  datatype CollectedImage = CollectedImage(hash: nat, source: Path, derivative: Option<Path>, bytes: nat, derivedBytes: nat)

  /** The images, or an exception that was passed on. */
  datatype Collection = Collected(images: seq<CollectedImage>) | Raised(cancelled: bool)

  function PathsOf(image: CollectedImage): seq<Path> {
    if image.derivative.Some? then [image.source, image.derivative.value] else [image.source]
  }

  /** `_collected_cleanup_paths`. */
  function CleanupPaths(images: seq<CollectedImage>): seq<Path> {
    if images == [] then [] else CleanupPaths(images[..|images| - 1]) + PathsOf(images[|images| - 1])
  }

  function KeepOf(image: CollectedImage): Keep {
    Keep(image.hash, image.bytes, if image.derivative.Some? then Some(image.derivedBytes) else None)
  }

  function Keeps(images: seq<CollectedImage>): seq<Keep> {
    seq(|images|, i requires 0 <= i < |images| => KeepOf(images[i]))
  }

  lemma CleanupSnoc(images: seq<CollectedImage>, image: CollectedImage)
    ensures CleanupPaths(images + [image]) == CleanupPaths(images) + PathsOf(image)
    ensures Keeps(images + [image]) == Keeps(images) + [KeepOf(image)]
  {
    assert (images + [image])[..|images|] == images;
  }

  lemma {:induction false} CleanupConcat(a: seq<CollectedImage>, b: seq<CollectedImage>)
    ensures CleanupPaths(a + b) == CleanupPaths(a) + CleanupPaths(b)
    decreases |b|
  {
    if b == [] {
      assert a + b == a;
    } else {
      assert (a + b)[..|a + b| - 1] == a + b[..|b| - 1];
      CleanupConcat(a, b[..|b| - 1]);
    }
  }

  // ----- one candidate

  /** What handling one candidate leaves on the shelf, by its fate. `created` are the names
      it drew, `at` a file that nothing will remove. */
  ghost predicate Handled(before: Shelf, now: Shelf, a: Attachment, fate: Fate, image: Option<CollectedImage>,
                          created: seq<Path>, at: Option<Path>) {
    match fate
    case Dropped => now.disk == before.disk && Gained(before, now, 0, 0) && at.None?
    case Kept(bytes, derivative) =>
      && image.Some? && KeepOf(image.value) == Keep(a.hash, bytes, derivative) && at.None?
      && Owned(before.disk, now.disk, PathsOf(image.value)) && Gained(before, now, bytes, Sized(derivative))
      && (forall p :: p in PathsOf(image.value) ==> p in created)
      && forall p :: p in created ==> p !in before.disk
    case Broken(how) => Covered(before.disk, now.disk, created, at, how.leaves)
  }

  /** Names drawn between two readings of the counter. */
  ghost predicate Drawn(paths: seq<Path>, low: Path, high: Path) {
    forall p :: p in paths ==> low <= p < high
  }

  /** What trying an attachment comes to. */
  ghost predicate Tried(a: Attachment, limits: Limits, left: Allowance, before: Shelf, now: Shelf, v: Verdict,
                        image: Option<CollectedImage>, created: seq<Path>, at: Option<Path>) {
    && v == Judge(a, limits, left.bytes)
    && Handled(before, now, a, v.fate, image, created, at)
    && before.next <= now.next && Drawn(created, before.next, now.next)
    && (at.Some? ==> before.next <= at.value < now.next)
    && PeakOk(before, now, left.bytes, limits.Derivative())
  }

  // ----- a collection in progress

  /** `out` has been collected since `base`, and `created` are all the names drawn since
      then, none of which `base` uses. */
  ghost predicate Progress(base: Shelf, now: Shelf, out: seq<CollectedImage>, created: seq<Path>) {
    && Owned(base.disk, now.disk, CleanupPaths(out))
    && Gained(base, now, SourceBytes(Keeps(out)), DerivedBytes(Keeps(out)))
    && (forall p :: p in CleanupPaths(out) ==> p in created)
    && base.next <= now.next && Drawn(created, base.next, now.next)
    && forall p :: p in base.disk ==> p < base.next
  }

  /** Where a collection began. */
  datatype Start = Start(attachments: seq<Attachment>, limits: Limits, base: Shelf, left: Allowance, scan: Scan)
  {
    ghost function Walk(): Walk {
      WalkFrom(attachments, 0, limits, left, scan, [])
    }
  }

  /** The loop over the attachments. */
  ghost predicate Underway(s: Start, i: nat, now: Shelf, left: Allowance, scan: Scan, out: seq<CollectedImage>, created: seq<Path>) {
    && i <= |s.attachments| && s.Walk() == WalkFrom(s.attachments, i, s.limits, left, scan, Keeps(out))
    && Progress(s.base, now, out, created)
    && now.sources + left.bytes <= s.base.sources + s.left.bytes
    && now.derived + DerivedRoom(s.limits, left.candidates) <= s.base.derived + DerivedRoom(s.limits, s.left.candidates)
    && PeakOk(s.base, now, s.left.bytes, DerivedRoom(s.limits, s.left.candidates))
  }

  /** What a walk comes to: on return the files are exactly those to be cleaned up later, on
      an exception nothing is left but what the break leaves. */
  ghost predicate Walked(w: Walk, base: Shelf, now: Shelf, r: Collection, at: Option<Path>) {
    && base.next <= now.next
    && match w.broken
       case None =>
         && r.Collected? && Keeps(r.images) == w.kept && at.None?
         && Owned(base.disk, now.disk, CleanupPaths(r.images))
         && Gained(base, now, SourceBytes(w.kept), DerivedBytes(w.kept))
       case Some(how) =>
         r == Raised(how.cancelled) && Stays(base.disk, now.disk, at, how.leaves) && Gained(base, now, Sized(how.leaves), 0)
  }

  /** What stays is accounted for. */
  lemma StaysGained(base: Shelf, now: Shelf, at: Option<Path>, leaves: Option<nat>)
    requires Counted(base) && Counted(now) && Stays(base.disk, now.disk, at, leaves)
    ensures Gained(base, now, Sized(leaves), 0)
  {
    if leaves.Some? {
      WeightPut(base.disk, false, at.value, Source(leaves.value));
      WeightPut(base.disk, true, at.value, Source(leaves.value));
    }
  }

  /** A collection that began at `s` has come to its end. */
  ghost predicate Came(s: Start, now: Shelf, left: Allowance, scan: Scan, r: Collection, at: Option<Path>) {
    && Walked(s.Walk(), s.base, now, r, at) && left == s.Walk().allowance && scan == s.Walk().scan
    && PeakOk(s.base, now, s.left.bytes, DerivedRoom(s.limits, s.left.candidates))
  }

  lemma UnderwayStarts(s: Start)
    requires forall p :: p in s.base.disk ==> p < s.base.next
    ensures Underway(s, 0, s.base, s.left, s.scan, [], [])
  {
    assert Keeps([]) == [];
  }

  lemma UnderwayEnds(s: Start, i: nat, now: Shelf, left: Allowance, scan: Scan, out: seq<CollectedImage>, created: seq<Path>)
    requires Underway(s, i, now, left, scan, out, created)
    requires i == |s.attachments| || left.candidates <= 0 || left.results <= 0
    ensures Came(s, now, left, scan, Collected(out), None)
  {
  }

  lemma ProgressDrops(base: Shelf, mid: Shelf, now: Shelf, out: seq<CollectedImage>, created: seq<Path>, a: Attachment,
                      fate: Fate, image: Option<CollectedImage>, more: seq<Path>, at: Option<Path>)
    requires Progress(base, mid, out, created) && fate.Dropped? && Handled(mid, now, a, fate, image, more, at)
    requires mid.next <= now.next && Drawn(more, mid.next, now.next)
    ensures Progress(base, now, out, created + more)
  {
  }

  lemma ProgressKeeps(base: Shelf, mid: Shelf, now: Shelf, out: seq<CollectedImage>, created: seq<Path>, a: Attachment,
                      fate: Fate, image: Option<CollectedImage>, more: seq<Path>, at: Option<Path>)
    requires Progress(base, mid, out, created) && fate.Kept? && Handled(mid, now, a, fate, image, more, at)
    requires mid.next <= now.next && Drawn(more, mid.next, now.next)
    ensures Progress(base, now, out + [image.value], created + more)
    ensures Keeps(out + [image.value]) == Keeps(out) + [Keep(a.hash, fate.bytes, fate.derivative)]
  {
    CleanupSnoc(out, image.value);
    BytesSnoc(Keeps(out), KeepOf(image.value));
    OwnedThen(base.disk, mid.disk, now.disk, CleanupPaths(out), PathsOf(image.value));
  }

  lemma UnderwayGoesOn(s: Start, i: nat, mid: Shelf, left: Allowance, scan: Scan, out: seq<CollectedImage>, created: seq<Path>,
                       now: Shelf, v: Verdict, image: Option<CollectedImage>, more: seq<Path>, at: Option<Path>)
    requires Underway(s, i, mid, left, scan, out, created) && i < |s.attachments|
    requires left.candidates > 0 && left.results > 0 && !s.attachments[i].kind.NotImage?
    requires Tried(s.attachments[i], s.limits, left, mid, now, v, image, more, at) && !v.fate.Broken?
    ensures v.fate.Kept? ==> image.Some?
    ensures Underway(s, i + 1, now, Spend(left, v), Record(scan, s.attachments[i], v),
                     if v.fate.Kept? then out + [image.value] else out, created + more)
  {
    var a := s.attachments[i];
    JudgeBounded(a, s.limits, left.bytes);
    if v.fate.Kept? {
      ProgressKeeps(s.base, mid, now, out, created, a, v.fate, image, more, at);
    } else {
      ProgressDrops(s.base, mid, now, out, created, a, v.fate, image, more, at);
    }
  }

  lemma UnderwayBreaks(s: Start, i: nat, mid: Shelf, left: Allowance, scan: Scan, out: seq<CollectedImage>, created: seq<Path>,
                       now: Shelf, v: Verdict, image: Option<CollectedImage>, more: seq<Path>, at: Option<Path>, after: Shelf)
    requires Underway(s, i, mid, left, scan, out, created) && i < |s.attachments|
    requires left.candidates > 0 && left.results > 0 && !s.attachments[i].kind.NotImage?
    requires Tried(s.attachments[i], s.limits, left, mid, now, v, image, more, at) && v.fate.Broken?
    requires forall p :: p in mid.disk ==> p < mid.next
    requires after == now.(disk := now.disk - Elems(created + more), sources := after.sources, derived := after.derived)
    requires Counted(s.base) && Counted(after)
    ensures Came(s, after, Spend(left, v), Record(scan, s.attachments[i], v), Raised(v.fate.how.cancelled), at)
  {
    BreakStays(s.base, mid, now, out, created, more, at, v.fate.how.leaves);
    StaysGained(s.base, after, at, v.fate.how.leaves);
  }

  /** The rollback of a collection removes everything but what the break leaves. */
  lemma BreakStays(base: Shelf, mid: Shelf, now: Shelf, out: seq<CollectedImage>, created: seq<Path>, more: seq<Path>,
                   at: Option<Path>, leaves: Option<nat>)
    requires Progress(base, mid, out, created) && Covered(mid.disk, now.disk, more, at, leaves)
    requires Drawn(more, mid.next, now.next) && forall p :: p in mid.disk ==> p < mid.next
    requires at.Some? ==> at.value !in created
    ensures Stays(base.disk, now.disk - Elems(created + more), at, leaves)
  {
    OwnedRemoved(base.disk, mid.disk, CleanupPaths(out), created);
    assert now.disk - Elems(created + more) == (now.disk - Elems(more)) - Elems(created);
    if leaves.Some? {
      assert (mid.disk[at.value := Source(leaves.value)]) - Elems(created)
          == (mid.disk - Elems(created))[at.value := Source(leaves.value)];
    }
  }
}

module ImageCollection {
  import opened Wrappers
  import opened Sequences
  import opened StagedFiles
  import opened AttachmentStorage
  import opened ImageDecisions
  import opened ImageOwnership

  /** Shared by the surfaces of one turn. */
  class ByteBudget {
    var remaining: nat

    constructor (n: int)
      ensures remaining == Max(0, n)
    {
      remaining := Max(0, n);
    }

    method Consume(count: nat)
      modifies this
      ensures remaining == if count < old(remaining) then old(remaining) - count else 0
    {
      remaining := if count < remaining then remaining - count else 0;
    }
  }

  /** The budget of one surface. */
  class CollectionBudget {
    var candidates: int
    var results: int
    const bytes: ByteBudget

    constructor (maxResults: int, bytes: ByteBudget)
      ensures candidates == results == Max(0, maxResults) && this.bytes == bytes
    {
      candidates, results := Max(0, maxResults), Max(0, maxResults);
      this.bytes := bytes;
    }

    function Left(): Allowance
      reads this, bytes
    {
      Allowance(candidates, results, bytes.remaining)
    }

    predicate Exhausted()
      reads this, bytes
    {
      candidates <= 0 || results <= 0 || bytes.remaining == 0
    }
  }

  class ImageScan {
    var attempted: bool
    var ids: set<nat>
    var issues: set<Issue>

    constructor ()
      ensures Now() == UNSCANNED
    {
      attempted, ids, issues := false, {}, {};
    }

    function Now(): Scan
      reads this
    {
      Scan(attempted, ids, issues)
    }

    method Note(a: Attachment, v: Verdict)
      modifies this
      ensures Now() == Record(old(Now()), a, v)
    {
      attempted := attempted || v.attempts;
      if v.claims {
        ids := ids + {a.id};
      }
      if v.issue.Some? {
        issues := issues + {v.issue.value};
      }
    }

    method Copy() returns (copy: ImageScan)
      ensures fresh(copy) && copy.Now() == Now()
    {
      copy := new ImageScan();
      copy.attempted, copy.ids, copy.issues := attempted, ids, issues;
    }

    method Add(issue: Issue)
      modifies this`issues
      ensures issues == old(issues) + {issue}
    {
      issues := issues + {issue};
    }
  }

  /** A staged source that is being normalized: its file, and perhaps a derivative, beside
      the others. */
  ghost predicate Staged(base: Shelf, now: Shelf, path: Path, bytes: nat, derivative: Path, made: Option<nat>, limits: Limits) {
    && path !in base.disk && derivative !in base.disk && path < derivative < now.next
    && now.disk == (if made.Some? then base.disk[path := Source(bytes)][derivative := Derivative(made.value)]
                    else base.disk[path := Source(bytes)])
    && Gained(base, now, bytes, Sized(made)) && Sized(made) <= limits.Derivative()
    && PeakOk(base, now, bytes, limits.Derivative())
  }

  lemma DerivativeStages(base: Shelf, mid: Shelf, now: Shelf, path: Path, bytes: nat, derivative: Path, made: nat, limits: Limits)
    requires Staged(base, mid, path, bytes, derivative, None, limits) && made <= limits.Derivative()
    requires Placed(mid, now, derivative, Derivative(made))
    ensures Staged(base, now, path, bytes, derivative, Some(made), limits)
  {
  }

  lemma StagedKept(base: Shelf, now: Shelf, a: Attachment, path: Path, bytes: nat, derivative: Path, made: Option<nat>, limits: Limits)
    requires Staged(base, now, path, bytes, derivative, made, limits)
    ensures var image := CollectedImage(a.hash, path, if made.Some? then Some(derivative) else None, bytes, Sized(made));
      Handled(base, now, a, Kept(bytes, made), Some(image), [path, derivative], None)
  {
  }

  lemma StagedBreaks(base: Shelf, now: Shelf, a: Attachment, path: Path, bytes: nat, derivative: Path, made: Option<nat>,
                     limits: Limits, cancelled: bool)
    requires Staged(base, now, path, bytes, derivative, made, limits)
    ensures Handled(base, now, a, Broken(Break(cancelled, None)), None, [path, derivative], None)
  {
    StagedRemoved(base, now, path, bytes, derivative, made, limits);
  }

  lemma StagedRemoved(base: Shelf, now: Shelf, path: Path, bytes: nat, derivative: Path, made: Option<nat>, limits: Limits)
    requires Staged(base, now, path, bytes, derivative, made, limits)
    ensures now.disk - Elems([path, derivative]) == base.disk
  {
    assert path in Elems([path, derivative]) && derivative in Elems([path, derivative]);
    assert Elems([path, derivative]) == {path, derivative};
  }

  /** Both files are gone again; what is told of the attachment does not matter. */
  lemma RemovedHandled(base: Shelf, mid: Shelf, now: Shelf, a: Attachment, fate: Fate, path: Path, bytes: nat, derivative: Path,
                       made: Option<nat>, limits: Limits)
    requires Staged(base, mid, path, bytes, derivative, made, limits)
    requires now.disk == mid.disk - Elems([path, derivative]) && Gained(base, now, 0, 0)
    requires fate == Dropped || fate == Broken(Break(true, None))
    ensures Handled(base, now, a, fate, None, [path, derivative], None)
  {
    StagedRemoved(base, mid, path, bytes, derivative, made, limits);
    assert base.disk - Elems([path, derivative]) == base.disk by {
      assert Elems([path, derivative]) == {path, derivative};
    }
  }

  /** The files of an attachment that is not kept. */
  method Unstage(store: AttachmentStore, path: Path, bytes: nat, derivative: Path, ghost made: Option<nat>, ghost base: Shelf)
    requires store.Valid() && Staged(base, store.Now(), path, bytes, derivative, made, store.limits)
    requires Counted(base)
    modifies store`disk, store`sources, store`derived
    ensures store.Valid() && store.disk == old(store.disk) - Elems([path, derivative])
    ensures Gained(base, store.Now(), 0, 0)
  {
    StagedRemoved(base, store.Now(), path, bytes, derivative, made, store.limits);
    store.Cleanup([path, derivative]);
  }

  /** The derivative that normalization makes, whether it succeeds or not. */
  method MakeDerivative(store: AttachmentStore, a: Attachment, path: Path, bytes: nat, derivative: Path, ghost base: Shelf)
    returns (made: Option<nat>)
    requires store.Valid() && Staged(base, store.Now(), path, bytes, derivative, None, store.limits)
    modifies store`disk, store`sources, store`derived, store`sourcePeak, store`derivedPeak
    ensures store.Valid() && Staged(base, store.Now(), path, bytes, derivative, made, store.limits)
    ensures made == Written(if a.normalization.Passes? then a.normalization.derivative else a.leftover, store.limits)
  {
    made := Written(if a.normalization.Passes? then a.normalization.derivative else a.leftover, store.limits);
    if made.Some? {
      ghost var mid := store.Now();
      store.Put(derivative, Derivative(made.value));
      DerivativeStages(base, mid, store.Now(), path, bytes, derivative, made.value, store.limits);
    }
  }

  /** A staged source goes through normalization and is read back. */
  method Normalize(store: AttachmentStore, a: Attachment, bytes: nat, path: Path, derivative: Path, ghost base: Shelf)
    returns (v: Verdict, image: Option<CollectedImage>)
    requires store.Valid() && Staged(base, store.Now(), path, bytes, derivative, None, store.limits)
    requires Counted(base)
    modifies store`disk, store`sources, store`derived, store`sourcePeak, store`derivedPeak
    ensures store.Valid() && v == JudgeStaged(a, bytes, store.limits)
    ensures Handled(base, store.Now(), a, v.fate, image, [path, derivative], None)
    ensures PeakOk(base, store.Now(), bytes, store.limits.Derivative())
  {
    var sure := a.kind.Declared?;
    image := None;
    var made := MakeDerivative(store, a, path, bytes, derivative, base);
    var n := Checked(a.normalization, store.limits);
    if n.Breaks? {
      StagedBreaks(base, store.Now(), a, path, bytes, derivative, made, store.limits, n.cancelled);
      return Verdict(Broken(Break(n.cancelled, None)), bytes, None, false, sure), None;
    }
    if n.Passes? && a.back.ReadBreaks? {
      StagedBreaks(base, store.Now(), a, path, bytes, derivative, made, store.limits, a.back.cancelled);
      return Verdict(Broken(Break(a.back.cancelled, None)), bytes, None, true, true), None;
    }
    if n.Passes? && a.back == Reads(true) {
      StagedKept(base, store.Now(), a, path, bytes, derivative, made, store.limits);
      image := Some(CollectedImage(a.hash, path, if made.Some? then Some(derivative) else None, bytes, Sized(made)));
      return Verdict(Kept(bytes, made), bytes, None, true, true), image;
    }
    match n {
      case TimesOut => v := Removed(a, bytes, Some(Processing), !sure, true);
      case Rejects(code) =>
        v := if !sure && code.Malformed? then Removed(a, bytes, None, false, false)
             else Removed(a, bytes, Some(CodeIssue(code)), !sure, true);
      case Passes(_) => v := Removed(a, bytes, Some(Processing), true, true);
    }
    ghost var mid := store.Now();
    Unstage(store, path, bytes, derivative, made, base);
    RemovedHandled(base, mid, store.Now(), a, v.fate, path, bytes, derivative, made, store.limits);
  }

  /** A save that did not succeed, handler by handler. */
  method Settle(a: Attachment, limits: Limits, available: nat, outcome: Outcome) returns (v: Verdict)
    requires outcome == SaveOutcome(a.source, Min(limits.source, available)) && !outcome.Saved?
    requires DeclaredSize(a) <= limits.source && 0 < available && DeclaredSize(a) <= available
    ensures v == Judge(a, limits, available)
  {
    match outcome {
      case TooLarge(downloaded) =>
        if CleansUp(a, Min(limits.source, available)) && a.cleanupCancelled {
          return Stopped(a, None);
        }
        v := Turned(a, Min(downloaded, available), if available >= limits.source then SourceLimit else AggregateLimit);
      case DownloadFailed(downloaded) =>
        if a.cleanupCancelled {
          return Stopped(a, None);
        }
        v := Turned(a, Min(downloaded, available), Unreadable);
      case OtherFailure => v := Turned(a, Min(DeclaredSize(a), available), Unreadable);
      case Cancelled(leaves) => v := Stopped(a, leaves);
    }
  }

  lemma SavedStages(base: Shelf, mid: Shelf, now: Shelf, path: Path, bytes: nat, derivative: Path, max: nat, limits: Limits)
    requires path == base.next && derivative == path + 1 && forall p :: p in base.disk ==> p < base.next
    requires Streamed(base.(next := path + 1), mid, path, Saved(bytes), max) && now == mid.(next := derivative + 1)
    ensures Staged(base.(sourcePeak := mid.sourcePeak, derivedPeak := mid.derivedPeak), now, path, bytes, derivative, None, limits)
  {
  }

  /** A save that failed or was cancelled leaves what its outcome says. */
  lemma FailedHandled(base: Shelf, now: Shelf, a: Attachment, limits: Limits, available: nat, path: Path, o: Outcome, max: nat)
    requires path == base.next && forall p :: p in base.disk ==> p < base.next
    requires Streamed(base.(next := path + 1), now, path, o, max) && !o.Saved?
    requires DeclaredSize(a) <= limits.source && 0 < available && DeclaredSize(a) <= available
    requires o == SaveOutcome(a.source, Min(limits.source, available))
    ensures var v := Judge(a, limits, available);
      Handled(base, now, a, v.fate, None, [], if Leaves(o) then Some(path) else None)
  {
    assert now.disk - Elems([]) == now.disk;
  }

  /** The rest of an attachment once its source is staged. */
  method TryStaged(store: AttachmentStore, a: Attachment, bytes: nat, path: Path, ghost base: Shelf, ghost max: nat)
    returns (v: Verdict, image: Option<CollectedImage>, created: seq<Path>)
    requires store.Valid() && path == base.next && store.next == path + 1 && forall p :: p in base.disk ==> p < base.next
    requires Streamed(base.(next := path + 1), store.Now(), path, Saved(bytes), max) && bytes <= max
    requires Counted(base)
    modifies store
    ensures store.Valid() && v == JudgeStaged(a, bytes, store.limits)
    ensures Handled(base, store.Now(), a, v.fate, image, created, None)
    ensures base.next <= store.next && Drawn(created, base.next, store.next)
    ensures PeakOk(base, store.Now(), max, store.limits.Derivative())
  {
    ghost var mid := store.Now();
    var derivative := store.Name();
    created := [path, derivative];
    ghost var from := base.(sourcePeak := mid.sourcePeak, derivedPeak := mid.derivedPeak);
    SavedStages(base, mid, store.Now(), path, bytes, derivative, max, store.limits);
    v, image := Normalize(store, a, bytes, path, derivative, from);
  }

  /** The body of the loop over attachments, up to the result counter. */
  method Try(store: AttachmentStore, a: Attachment, budget: CollectionBudget)
    returns (v: Verdict, image: Option<CollectedImage>, created: seq<Path>, ghost at: Option<Path>)
    requires store.Valid() && !a.kind.NotImage?
    modifies store, budget`candidates, budget.bytes
    ensures store.Valid() && Tried(a, store.limits, old(budget.Left()), old(store.Now()), store.Now(), v, image, created, at)
    ensures budget.candidates == old(budget.candidates) - 1
    ensures budget.bytes.remaining == old(budget.bytes.remaining) - v.consumed
  {
    image, created, at := None, [], None;
    var declared := DeclaredSize(a);
    budget.candidates := budget.candidates - 1;
    if declared > store.limits.source {
      return Turned(a, 0, SourceLimit), None, [], None;
    }
    var available := budget.bytes.remaining;
    if available == 0 || declared > available {
      return Turned(a, 0, AggregateLimit), None, [], None;
    }
    JudgeBounded(a, store.limits, available);
    v, image, created, at := Download(store, a, available);
    budget.bytes.Consume(v.consumed);
  }

  /** Saving an attachment and what follows. */
  method Download(store: AttachmentStore, a: Attachment, available: nat)
    returns (v: Verdict, image: Option<CollectedImage>, created: seq<Path>, ghost at: Option<Path>)
    requires store.Valid() && DeclaredSize(a) <= store.limits.source && 0 < available && DeclaredSize(a) <= available
    modifies store
    ensures store.Valid() && v == Judge(a, store.limits, available)
    ensures Handled(old(store.Now()), store.Now(), a, v.fate, image, created, at)
    ensures old(store.next) <= store.next && Drawn(created, old(store.next), store.next)
    ensures at.Some? ==> old(store.next) <= at.value < store.next
    ensures PeakOk(old(store.Now()), store.Now(), available, store.limits.Derivative())
  {
    image, created, at := None, [], None;
    ghost var base := store.Now();
    ghost var max := Max(0, store.Effective(available));
    var outcome, path := store.Save(a.source, available);
    ghost var saved := store.Now();
    store.JoinPeaks(base);
    JoinedStreamed(base, saved, store.Now(), path, outcome, max);
    OutcomeBounded(a.source, Min(store.limits.source, available));
    if outcome.Saved? {
      v, image, created := TryStaged(store, a, outcome.bytes, path, base, max);
    } else {
      v := Settle(a, store.limits, available, outcome);
      FailedHandled(base, store.Now(), a, store.limits, available, path, outcome, max);
      at := if Leaves(outcome) then Some(path) else None;
    }
  }

  /** One round of the loop over attachments. */
  method Advance(store: AttachmentStore, a: Attachment, budget: CollectionBudget, scan: ImageScan)
    returns (v: Verdict, image: Option<CollectedImage>, created: seq<Path>, ghost at: Option<Path>)
    requires store.Valid() && !a.kind.NotImage?
    modifies store, budget, budget.bytes, scan
    ensures store.Valid() && Tried(a, store.limits, old(budget.Left()), old(store.Now()), store.Now(), v, image, created, at)
    ensures budget.Left() == Spend(old(budget.Left()), v) && scan.Now() == Record(old(scan.Now()), a, v)
  {
    JudgeBounded(a, store.limits, budget.bytes.remaining);
    v, image, created, at := Try(store, a, budget);
    scan.Note(a, v);
    if v.fate.Kept? {
      budget.results := budget.results - 1;
    }
  }

  /** `_images_from_message`: the walk over the attachments, with everything it staged
      either returned or, on an exception, removed. */
  method ImagesFromMessage(store: AttachmentStore, attachments: seq<Attachment>, budget: CollectionBudget, scan: ImageScan)
    returns (r: Collection, ghost at: Option<Path>)
    requires store.Valid()
    modifies store, budget, budget.bytes, scan
    ensures store.Valid()
    ensures Came(Start(attachments, store.limits, old(store.Now()), old(budget.Left()), old(scan.Now())),
                 store.Now(), budget.Left(), scan.Now(), r, at)
  {
    ghost var s := Start(attachments, store.limits, store.Now(), budget.Left(), scan.Now());
    UnderwayStarts(s);
    var out: seq<CollectedImage>, created: seq<Path> := [], [];
    var i: nat := 0;
    while i < |attachments| && budget.candidates > 0 && budget.results > 0
      invariant store.Valid() && Underway(s, i, store.Now(), budget.Left(), scan.Now(), out, created)
    {
      if attachments[i].kind.NotImage? {
        SkipNext(s, i, store.Now(), budget.Left(), scan.Now(), out, created);
        i := i + 1;
        continue;
      }
      var broken;
      broken, out, created, at := Collect(store, attachments[i], budget, scan, out, created, s, i);
      if broken.Some? {
        return Raised(broken.value.cancelled), at;
      }
      i := i + 1;
    }
    UnderwayEnds(s, i, store.Now(), budget.Left(), scan.Now(), out, created);
    r, at := Collected(out), None;
  }

  lemma SkipNext(s: Start, i: nat, now: Shelf, left: Allowance, scan: Scan, out: seq<CollectedImage>, created: seq<Path>)
    requires Underway(s, i, now, left, scan, out, created) && i < |s.attachments| && s.attachments[i].kind.NotImage?
    requires left.candidates > 0 && left.results > 0
    ensures Underway(s, i + 1, now, left, scan, out, created)
  {
  }

  /** One round of the walk, and the rollback when it raises. */
  method Collect(store: AttachmentStore, a: Attachment, budget: CollectionBudget, scan: ImageScan, out: seq<CollectedImage>,
                 created: seq<Path>, ghost s: Start, ghost i: nat)
    returns (broken: Option<Break>, out': seq<CollectedImage>, created': seq<Path>, ghost at: Option<Path>)
    requires store.Valid() && Counted(s.base) && s.limits == store.limits && i < |s.attachments| && a == s.attachments[i]
    requires !a.kind.NotImage? && budget.candidates > 0 && budget.results > 0
    requires Underway(s, i, store.Now(), budget.Left(), scan.Now(), out, created)
    modifies store, budget, budget.bytes, scan
    ensures store.Valid()
    ensures broken.None? ==> Underway(s, i + 1, store.Now(), budget.Left(), scan.Now(), out', created')
    ensures broken.Some? ==> Came(s, store.Now(), budget.Left(), scan.Now(), Raised(broken.value.cancelled), at)
  {
    ghost var mid, left, record := store.Now(), budget.Left(), scan.Now();
    var v, image, more;
    v, image, more, at := Advance(store, a, budget, scan);
    created' := created + more;
    if v.fate.Broken? {
      ghost var now := store.Now();
      store.Cleanup(created');
      UnderwayBreaks(s, i, mid, left, record, out, created, now, v, image, more, at, store.Now());
      return Some(v.fate.how), out, created', at;
    }
    UnderwayGoesOn(s, i, mid, left, record, out, created, store.Now(), v, image, more, at);
    out' := if v.fate.Kept? then out + [image.value] else out;
    broken := None;
  }
}

/** The surfaces of a turn and what is made of them. */
module TurnSurfaces {
  import opened Wrappers
  import opened Sequences
  import opened StagedFiles
  import opened AttachmentStorage
  import opened ImageDecisions
  import opened ImageOwnership

  datatype Reply = NoReply | ReplyCancelled | ReplyTo(attachments: seq<Attachment>)

  datatype HistoryMessage = HistoryMessage(own: bool, attachments: seq<Attachment>)

  datatype HistoryEnd = Ends | Fails | Cancels

  /** The channel history, newest first, and how reading it ends. */
  datatype History = Unavailable | History(messages: seq<HistoryMessage>, ending: HistoryEnd)

  datatype Turn = Turn(current: seq<Attachment>, reply: Reply, history: History)

  datatype Options = Options(
    imagesSupported: bool, historyHashes: set<nat>, lookback: int, maxImages: int, includeReply: bool)

  datatype TurnImages = TurnImages(
    vision: seq<CollectedImage>,
    editTarget: Option<CollectedImage>,
    cleanup: seq<Path>,
    ids: set<nat>,
    unavailable: bool,
    issues: set<Issue>)

  predicate HasCandidate(attachments: seq<Attachment>) {
    exists i :: 0 <= i < |attachments| && !attachments[i].kind.NotImage?
  }

  function Hashes(images: seq<CollectedImage>): set<nat> {
    set image | image in images :: image.hash
  }

  /** The vision images: those of the message, then what is new among the others. */
  function AddNew(vision: seq<CollectedImage>, seen: set<nat>, extras: seq<CollectedImage>, max: nat): seq<CollectedImage>
    decreases |extras|
  {
    if extras == [] || |vision| >= max then vision
    else if extras[0].hash in seen then AddNew(vision, seen, extras[1..], max)
    else AddNew(vision + [extras[0]], seen + {extras[0].hash}, extras[1..], max)
  }

  /** What is added is new to the turn and to its history, never repeats an image, and
      keeps the limit; the images of the message are never dropped for it. */
  lemma {:induction false} AddedAreNew(vision: seq<CollectedImage>, seen: set<nat>, extras: seq<CollectedImage>, max: nat)
    requires Hashes(vision) <= seen && |vision| <= max
    ensures var all := AddNew(vision, seen, extras, max);
      && |all| <= max && vision <= all
      && (forall i :: |vision| <= i < |all| ==> all[i] in extras && all[i].hash !in seen)
      && (forall i, j :: |vision| <= i < j < |all| ==> all[i].hash != all[j].hash)
    decreases |extras|
  {
    if extras != [] && |vision| < max {
      var x := extras[0];
      if x.hash in seen {
        AddedAreNew(vision, seen, extras[1..], max);
      } else {
        assert Hashes(vision + [x]) <= seen + {x.hash};
        AddedAreNew(vision + [x], seen + {x.hash}, extras[1..], max);
        var all := AddNew(vision, seen, extras, max);
        assert all[|vision|] == x;
      }
    }
  }

  /** Everything new is added while there is room. */
  lemma {:induction false} AllNewAreAdded(vision: seq<CollectedImage>, seen: set<nat>, extras: seq<CollectedImage>, max: nat)
    ensures var all := AddNew(vision, seen, extras, max);
      |all| < max ==> forall x :: x in extras ==> x.hash in seen || exists y :: y in all && y.hash == x.hash
    ensures vision <= AddNew(vision, seen, extras, max)
    decreases |extras|
  {
    if extras != [] && |vision| < max {
      var x := extras[0];
      assert extras == [x] + extras[1..];
      if x.hash in seen {
        AllNewAreAdded(vision, seen, extras[1..], max);
      } else {
        AllNewAreAdded(vision + [x], seen + {x.hash}, extras[1..], max);
        assert x in vision + [x] && vision <= vision + [x];
      }
    }
  }

  // ----- the course of a turn

  function One(bytes: nat): Allowance {
    Allowance(1, 1, bytes)
  }

  predicate Exhausted(b: Allowance) {
    b.candidates <= 0 || b.results <= 0 || b.bytes == 0
  }

  /** The failure of a surface beside the message is noted and passed over; a cancellation
      is not. */
  function PassOver(w: Walk): Walk {
    if w.broken.Some? && !w.broken.value.cancelled then
      Walk([], w.allowance, w.scan.(issues := w.scan.issues + {Processing}), None)
    else w
  }

  function ReplyWalk(reply: Reply, limits: Limits, bytes: nat, scan: Scan): Walk {
    match reply
    case NoReply => Walk([], One(bytes), scan, None)
    case ReplyCancelled => Walk([], One(bytes), scan, Some(Break(true, None)))
    case ReplyTo(attachments) => PassOver(WalkFrom(attachments, 0, limits, One(bytes), scan, []))
  }

  /** A message ends the search: it has an image, is cancelled, or uses up what is left. */
  predicate Decides(first: Walk, w: Walk) {
    w.broken.Some? || w.kept != [] || (first.broken.None? && Exhausted(w.allowance))
  }

  /** The history from message `i` on: the first own message that has an image decides. */
  function HistoryFrom(h: History, i: nat, lookback: int, limits: Limits, b: Allowance, scan: Scan): Walk
    requires h.History? && i <= |h.messages|
    decreases |h.messages| - i
  {
    if i == |h.messages| || i >= lookback then
      Walk([], b, scan, if i < lookback && h.ending.Cancels? then Some(Break(true, None)) else None)
    else if !h.messages[i].own then HistoryFrom(h, i + 1, lookback, limits, b, scan)
    else
      var first := WalkFrom(h.messages[i].attachments, 0, limits, b, scan, []);
      var w := PassOver(first);
      if Decides(first, w) then w else HistoryFrom(h, i + 1, lookback, limits, w.allowance, w.scan)
  }

  function HistoryWalk(h: History, lookback: int, limits: Limits, bytes: nat, scan: Scan): Walk {
    if h.Unavailable? || lookback <= 0 then Walk([], One(bytes), scan, None)
    else HistoryFrom(h, 0, lookback, limits, One(bytes), scan)
  }

  /** How a collection goes: it is switched off, the message's own images failed, it was
      cancelled, or its three surfaces show these images. */
  datatype Course =
    | Off
    | OwnFailed(attempted: bool)
    | Stopped(leaves: Option<nat>)
    | Shown(current: seq<Keep>, reply: seq<Keep>, newest: seq<Keep>, scan: Scan, issues: set<Issue>)

  /** The walk over the message's own attachments, which comes first. */
  function FirstWalk(turn: Turn, options: Options, limits: Limits, maxTotal: int): Walk {
    var max := NonNegative(options.maxImages);
    WalkFrom(turn.current, 0, limits, Allowance(max, max, NonNegative(maxTotal)), UNSCANNED, [])
  }

  /** The history is read only when nothing of the message or the reply could be an image. */
  predicate ReadsHistory(turn: Turn, own: bool, reply: Walk) {
    !own && reply.kept == [] && !HasCandidate(turn.current)
  }

  function NewestWalk(turn: Turn, options: Options, limits: Limits, own: bool, reply: Walk): Walk {
    if ReadsHistory(turn, own, reply) then
      HistoryWalk(turn.history, options.lookback, limits, reply.allowance.bytes, reply.scan)
    else Walk([], reply.allowance, reply.scan, None)
  }

  /** The reply and the history, after the message itself. */
  function OtherCourse(turn: Turn, options: Options, limits: Limits, kept: seq<Keep>, bytes: nat, scan: Scan): Course {
    var reply := ReplyWalk(turn.reply, limits, bytes, scan);
    if reply.broken.Some? then Stopped(reply.broken.value.leaves)
    else
      var newest := NewestWalk(turn, options, limits, kept != [], reply);
      if newest.broken.Some? then Stopped(newest.broken.value.leaves)
      else Shown(kept, reply.kept, newest.kept, scan, newest.scan.issues)
  }

  function TurnCourse(turn: Turn, options: Options, limits: Limits, maxTotal: int): Course {
    if options.maxImages <= 0 then Off
    else
      var first := FirstWalk(turn, options, limits, maxTotal);
      if first.broken.Some? then
        if first.broken.value.cancelled then Stopped(first.broken.value.leaves) else OwnFailed(first.scan.attempted)
      else OtherCourse(turn, options, limits, first.kept, first.allowance.bytes, first.scan)
  }

  // ----- what the walks beside the message come to

  /** At most one image, paid for out of the shared bytes; only a cancellation breaks. */
  predicate OneAtMost(w: Walk, limits: Limits, bytes: nat) {
    && |w.kept| <= 1 && w.allowance.bytes <= bytes
    && SourceBytes(w.kept) + w.allowance.bytes <= bytes && DerivedBytes(w.kept) <= limits.Derivative()
    && (w.broken.Some? ==> w.broken.value.cancelled)
  }

  /** A walk within what is left of one candidate. */
  lemma PassOverBounded(attachments: seq<Attachment>, limits: Limits, b: Allowance, scan: Scan, bytes: nat)
    requires b.candidates <= 1 && 0 <= b.results <= 1 && b.bytes <= bytes
    ensures var first := WalkFrom(attachments, 0, limits, b, scan, []); var w := PassOver(first);
      && OneAtMost(w, limits, bytes) && w.allowance == first.allowance
      && w.allowance.candidates <= b.candidates && 0 <= w.allowance.results && w.allowance.bytes <= b.bytes
      && (w.kept == [] ==> w.allowance.results <= 1)
      && (first.broken.Some? && first.broken.value.leaves.Some? ==> first.broken.value.cancelled)
  {
    WalkBounded(attachments, 0, limits, b, scan, []);
    assert DerivedRoom(limits, b.candidates) <= limits.Derivative() by {
      assert DerivedRoom(limits, 0) == 0;
    }
  }

  lemma ReplyBounded(reply: Reply, limits: Limits, bytes: nat, scan: Scan)
    ensures OneAtMost(ReplyWalk(reply, limits, bytes, scan), limits, bytes)
  {
    if reply.ReplyTo? {
      PassOverBounded(reply.attachments, limits, One(bytes), scan, bytes);
    }
  }

  lemma {:induction false} HistoryBounded(h: History, i: nat, lookback: int, limits: Limits, b: Allowance, scan: Scan, bytes: nat)
    requires h.History? && i <= |h.messages| && b.candidates <= 1 && 0 <= b.results <= 1 && b.bytes <= bytes
    ensures OneAtMost(HistoryFrom(h, i, lookback, limits, b, scan), limits, bytes)
    decreases |h.messages| - i
  {
    if i < |h.messages| && i < lookback {
      if !h.messages[i].own {
        HistoryBounded(h, i + 1, lookback, limits, b, scan, bytes);
      } else {
        var first := WalkFrom(h.messages[i].attachments, 0, limits, b, scan, []);
        var w := PassOver(first);
        PassOverBounded(h.messages[i].attachments, limits, b, scan, bytes);
        if !Decides(first, w) {
          HistoryBounded(h, i + 1, lookback, limits, w.allowance, w.scan, bytes);
        }
      }
    }
  }

  lemma NewestBounded(turn: Turn, options: Options, limits: Limits, own: bool, reply: Walk)
    ensures OneAtMost(NewestWalk(turn, options, limits, own, reply), limits, reply.allowance.bytes)
  {
    if turn.history.History? {
      HistoryBounded(turn.history, 0, options.lookback, limits, One(reply.allowance.bytes), reply.scan, reply.allowance.bytes);
    }
  }

  /** What is left when the messages before `j` came to nothing: they were others', or had
      no image, or failed; none if one of them decided. */
  function After(h: History, j: nat, limits: Limits, b: Allowance, scan: Scan): Option<(Allowance, Scan)>
    requires h.History? && j <= |h.messages|
  {
    if j == 0 then Some((b, scan))
    else
      var before := After(h, j - 1, limits, b, scan);
      if before.None? || !h.messages[j - 1].own then before
      else
        var first := WalkFrom(h.messages[j - 1].attachments, 0, limits, before.value.0, before.value.1, []);
        var w := PassOver(first);
        if Decides(first, w) then None else Some((w.allowance, w.scan))
  }

  /** The images of the message at `j`, tried with what is left. */
  function ImagesAt(h: History, j: nat, limits: Limits, left: (Allowance, Scan)): Walk
    requires h.History? && j < |h.messages|
  {
    PassOver(WalkFrom(h.messages[j].attachments, 0, limits, left.0, left.1, []))
  }

  lemma AfterStep(h: History, j: nat, lookback: int, limits: Limits, b: Allowance, scan: Scan)
    requires h.History? && j < |h.messages| && j < lookback && After(h, j + 1, limits, b, scan).Some?
    ensures var left, next := After(h, j, limits, b, scan), After(h, j + 1, limits, b, scan);
      && left.Some? && (h.messages[j].own ==> ImagesAt(h, j, limits, left.value).kept == [])
      && HistoryFrom(h, j, lookback, limits, left.value.0, left.value.1)
         == HistoryFrom(h, j + 1, lookback, limits, next.value.0, next.value.1)
  {
  }

  lemma {:induction false} HistoryReaches(h: History, j: nat, lookback: int, limits: Limits, b: Allowance, scan: Scan)
    requires h.History? && j <= |h.messages| && j <= lookback && After(h, j, limits, b, scan).Some?
    ensures var left := After(h, j, limits, b, scan).value;
      HistoryFrom(h, 0, lookback, limits, b, scan) == HistoryFrom(h, j, lookback, limits, left.0, left.1)
    ensures forall k :: 0 <= k < j ==> CameToNothing(h, k, limits, b, scan)
    decreases j
  {
    if j > 0 {
      AfterStep(h, j - 1, lookback, limits, b, scan);
      HistoryReaches(h, j - 1, lookback, limits, b, scan);
    }
  }

  /** The message at `k` was tried after the others and did not decide. */
  ghost predicate CameToNothing(h: History, k: nat, limits: Limits, b: Allowance, scan: Scan)
    requires h.History? && k < |h.messages|
  {
    var left := After(h, k, limits, b, scan);
    left.Some? && (h.messages[k].own ==> ImagesAt(h, k, limits, left.value).kept == [])
  }

  /** An image from the history is that of the newest own message, within the lookback,
      that has one: every earlier own message came to nothing. */
  lemma NewestDecides(h: History, lookback: int, limits: Limits, b: Allowance, scan: Scan) returns (j: nat)
    requires h.History? && lookback > 0 && HistoryFrom(h, 0, lookback, limits, b, scan).kept != []
    ensures j < |h.messages| && j < lookback && h.messages[j].own
    ensures var left := After(h, j, limits, b, scan);
      left.Some? && ImagesAt(h, j, limits, left.value).kept == HistoryFrom(h, 0, lookback, limits, b, scan).kept
    ensures forall k :: 0 <= k < j ==> CameToNothing(h, k, limits, b, scan)
  {
    j := 0;
    while j < |h.messages| && j < lookback && After(h, j + 1, limits, b, scan).Some?
      invariant j <= |h.messages| && j <= lookback && After(h, j, limits, b, scan).Some?
    {
      j := j + 1;
    }
    HistoryReaches(h, j, lookback, limits, b, scan);
  }

  /** Conversely the first own message that it gets to with an image is it. */
  lemma FirstImageDecides(h: History, j: nat, lookback: int, limits: Limits, b: Allowance, scan: Scan)
    requires h.History? && j < |h.messages| && j < lookback && h.messages[j].own && After(h, j, limits, b, scan).Some?
    requires ImagesAt(h, j, limits, After(h, j, limits, b, scan).value).kept != []
    ensures HistoryFrom(h, 0, lookback, limits, b, scan) == ImagesAt(h, j, limits, After(h, j, limits, b, scan).value)
  {
    HistoryReaches(h, j, lookback, limits, b, scan);
  }

  // ----- what a course shows

  /** With room for all its candidates a turn shows exactly the images that its own
      attachments make. */
  lemma OwnImagesShown(turn: Turn, options: Options, limits: Limits, maxTotal: int)
    requires Candidates(turn.current, 0) <= options.maxImages && Weights(turn.current, 0) < maxTotal
    ensures var c := TurnCourse(turn, options, limits, maxTotal); c.Shown? ==> c.current == Images(turn.current, 0, limits)
  {
    if options.maxImages > 0 && FirstWalk(turn, options, limits, maxTotal).broken.None? {
      AmpleWalkKeeps(turn.current, 0, limits, Allowance(options.maxImages, options.maxImages, maxTotal), UNSCANNED, []);
      assert [] + Images(turn.current, 0, limits) == Images(turn.current, 0, limits);
    }
  }

  /** Nothing in a turn is cancelled or breaks. */
  predicate TurnCalm(turn: Turn) {
    && AllCalm(turn.current) && !turn.reply.ReplyCancelled?
    && (turn.reply.ReplyTo? ==> AllCalm(turn.reply.attachments))
    && (turn.history.History? ==>
          !turn.history.ending.Cancels? && forall i :: 0 <= i < |turn.history.messages| ==> AllCalm(turn.history.messages[i].attachments))
  }

  lemma {:induction false} CalmHistory(h: History, i: nat, lookback: int, limits: Limits, b: Allowance, scan: Scan)
    requires h.History? && i <= |h.messages| && !h.ending.Cancels?
    requires forall k :: 0 <= k < |h.messages| ==> AllCalm(h.messages[k].attachments)
    ensures HistoryFrom(h, i, lookback, limits, b, scan).broken.None?
    decreases |h.messages| - i
  {
    if i < |h.messages| && i < lookback {
      if !h.messages[i].own {
        CalmHistory(h, i + 1, lookback, limits, b, scan);
      } else {
        CalmWalk(h.messages[i].attachments, 0, limits, b, scan, []);
        var w := PassOver(WalkFrom(h.messages[i].attachments, 0, limits, b, scan, []));
        CalmHistory(h, i + 1, lookback, limits, w.allowance, w.scan);
      }
    }
  }

  /** A calm turn is collected. */
  lemma CalmTurnIsShown(turn: Turn, options: Options, limits: Limits, maxTotal: int)
    requires TurnCalm(turn) && options.maxImages > 0
    ensures TurnCourse(turn, options, limits, maxTotal).Shown?
  {
    var first := FirstWalk(turn, options, limits, maxTotal);
    CalmWalk(turn.current, 0, limits, Allowance(options.maxImages, options.maxImages, NonNegative(maxTotal)), UNSCANNED, []);
    if turn.reply.ReplyTo? {
      CalmWalk(turn.reply.attachments, 0, limits, One(first.allowance.bytes), first.scan, []);
    }
    var reply := ReplyWalk(turn.reply, limits, first.allowance.bytes, first.scan);
    if turn.history.History? {
      CalmHistory(turn.history, 0, options.lookback, limits, One(reply.allowance.bytes), reply.scan);
    }
  }

  /** The reply shows its first candidate if that is good for the bytes that the message
      has left, and nothing else. */
  lemma ReplyShown(turn: Turn, options: Options, limits: Limits, maxTotal: int, i: nat)
    requires turn.reply.ReplyTo? && i < |turn.reply.attachments| && !turn.reply.attachments[i].kind.NotImage?
    requires forall j :: 0 <= j < i ==> turn.reply.attachments[j].kind.NotImage?
    ensures var c := TurnCourse(turn, options, limits, maxTotal);
      var left, a := FirstWalk(turn, options, limits, maxTotal).allowance.bytes, turn.reply.attachments[i];
      c.Shown? ==>
        c.reply == if Good(a, limits, left) then [Keep(a.hash, SizeOf(a.source), a.normalization.derivative)] else []
  {
    var first := FirstWalk(turn, options, limits, maxTotal);
    OneWalkKeeps(turn.reply.attachments, i, limits, first.allowance.bytes, first.scan);
    KeptBreaksNothing(turn.reply.attachments, i, limits, first.allowance.bytes, first.scan);
  }

  /** A kept image ends a walk on one candidate. */
  lemma KeptBreaksNothing(atts: seq<Attachment>, i: nat, limits: Limits, bytes: nat, scan: Scan)
    requires i < |atts| && !atts[i].kind.NotImage? && forall j :: 0 <= j < i ==> atts[j].kind.NotImage?
    ensures var w := WalkFrom(atts, 0, limits, One(bytes), scan, []); w.kept != [] ==> w.broken.None?
  {
    SkipsOthers(atts, 0, i, limits, One(bytes), scan);
  }

  /** The history is the last resort: an image of it is shown only when the message names no
      image at all and the reply shows none, and then what the search finds is shown. */
  lemma HistoryIsLastResort(turn: Turn, options: Options, limits: Limits, maxTotal: int)
    ensures var c := TurnCourse(turn, options, limits, maxTotal);
      var first := FirstWalk(turn, options, limits, maxTotal);
      var reply := ReplyWalk(turn.reply, limits, first.allowance.bytes, first.scan);
      c.Shown? ==>
        if c.current == [] && c.reply == [] && (forall i :: 0 <= i < |turn.current| ==> turn.current[i].kind.NotImage?)
           && turn.history.History? && options.lookback > 0
        then c.newest == HistoryFrom(turn.history, 0, options.lookback, limits, One(reply.allowance.bytes), reply.scan).kept
        else c.newest == []
  {
  }

  // ----- what a cancellation leaves

  /** No save of the turn is cancelled in its thread. */
  predicate TurnUndisturbed(turn: Turn) {
    && Undisturbed(turn.current)
    && (turn.reply.ReplyTo? ==> Undisturbed(turn.reply.attachments))
    && (turn.history.History? ==> forall i :: 0 <= i < |turn.history.messages| ==> Undisturbed(turn.history.messages[i].attachments))
  }

  lemma {:induction false} HistoryLeavesOnly(h: History, i: nat, lookback: int, limits: Limits, b: Allowance, scan: Scan)
    requires h.History? && i <= |h.messages|
    requires forall k :: 0 <= k < |h.messages| ==> Undisturbed(h.messages[k].attachments)
    ensures var w := HistoryFrom(h, i, lookback, limits, b, scan); w.broken.Some? ==> w.broken.value.leaves.None?
    decreases |h.messages| - i
  {
    if i < |h.messages| && i < lookback {
      if !h.messages[i].own {
        HistoryLeavesOnly(h, i + 1, lookback, limits, b, scan);
      } else {
        WalkLeavesOnly(h.messages[i].attachments, 0, limits, b, scan, []);
        var w := PassOver(WalkFrom(h.messages[i].attachments, 0, limits, b, scan, []));
        HistoryLeavesOnly(h, i + 1, lookback, limits, w.allowance, w.scan);
      }
    }
  }

  /** A cancelled turn leaves a file only if the save of one of its attachments was
      cancelled while its thread prepared or appended. */
  lemma StoppedLeavesOnly(turn: Turn, options: Options, limits: Limits, maxTotal: int)
    requires TurnUndisturbed(turn)
    ensures var c := TurnCourse(turn, options, limits, maxTotal); c.Stopped? ==> c.leaves.None?
  {
    var max := NonNegative(options.maxImages);
    var b := Allowance(max, max, NonNegative(maxTotal));
    WalkLeavesOnly(turn.current, 0, limits, b, UNSCANNED, []);
    var first := FirstWalk(turn, options, limits, maxTotal);
    if turn.reply.ReplyTo? {
      WalkLeavesOnly(turn.reply.attachments, 0, limits, One(first.allowance.bytes), first.scan, []);
    }
    var reply := ReplyWalk(turn.reply, limits, first.allowance.bytes, first.scan);
    if turn.history.History? {
      HistoryLeavesOnly(turn.history, 0, options.lookback, limits, One(reply.allowance.bytes), reply.scan);
    }
  }

  predicate BreaksLeaving(w: Walk) {
    w.broken.Some? && w.broken.value.leaves.Some?
  }

  /** A message beside the turn's own leaves a file exactly when its own walk does. */
  lemma PassedLeavesIff(atts: seq<Attachment>, limits: Limits, b: Allowance, scan: Scan)
    ensures BreaksLeaving(PassOver(WalkFrom(atts, 0, limits, b, scan, []))) <==> WalkLeaves(atts, limits, b)
  {
    WalkLeavesIff(atts, limits, b, scan);
    WalkBounded(atts, 0, limits, b, scan, []);
  }

  /** The search through the history gets to message `j`, and that leaves a file. */
  ghost predicate HistoryLeavesAt(h: History, j: nat, lookback: int, limits: Limits, b: Allowance, scan: Scan)
    requires h.History? && j < |h.messages|
  {
    var left := After(h, j, limits, b, scan);
    j < lookback && h.messages[j].own && left.Some? && WalkLeaves(h.messages[j].attachments, limits, left.value.0)
  }

  lemma {:induction false} DecidedBefore(h: History, i: nat, j: nat, limits: Limits, b: Allowance, scan: Scan)
    requires h.History? && i <= j <= |h.messages| && After(h, i, limits, b, scan).None?
    ensures After(h, j, limits, b, scan).None?
    decreases j
  {
    if i < j {
      DecidedBefore(h, i, j - 1, limits, b, scan);
    }
  }

  lemma NoneAfter(h: History, i: nat, lookback: int, limits: Limits, b: Allowance, scan: Scan)
    requires h.History? && i < |h.messages| && (i >= lookback || After(h, i + 1, limits, b, scan).None?)
    ensures forall j :: i < j < |h.messages| ==> !HistoryLeavesAt(h, j, lookback, limits, b, scan)
  {
    forall j | i < j < |h.messages| ensures !HistoryLeavesAt(h, j, lookback, limits, b, scan) {
      if i < lookback {
        DecidedBefore(h, i + 1, j, limits, b, scan);
      }
    }
  }

  lemma {:induction false} HistoryLeavesFrom(h: History, i: nat, lookback: int, limits: Limits, b: Allowance, scan: Scan,
                                             left: (Allowance, Scan))
    requires h.History? && i <= |h.messages| && After(h, i, limits, b, scan) == Some(left)
    ensures BreaksLeaving(HistoryFrom(h, i, lookback, limits, left.0, left.1)) <==>
      exists j :: i <= j < |h.messages| && HistoryLeavesAt(h, j, lookback, limits, b, scan)
    decreases |h.messages| - i
  {
    if i < |h.messages| {
      if i >= lookback {
        NoneAfter(h, i, lookback, limits, b, scan);
      } else if !h.messages[i].own {
        HistoryLeavesFrom(h, i + 1, lookback, limits, b, scan, left);
      } else {
        var first := WalkFrom(h.messages[i].attachments, 0, limits, left.0, left.1, []);
        var w := PassOver(first);
        PassedLeavesIff(h.messages[i].attachments, limits, left.0, left.1);
        assert HistoryLeavesAt(h, i, lookback, limits, b, scan) <==> BreaksLeaving(w);
        if Decides(first, w) {
          NoneAfter(h, i, lookback, limits, b, scan);
        } else {
          HistoryLeavesFrom(h, i + 1, lookback, limits, b, scan, (w.allowance, w.scan));
        }
      }
    }
  }

  /** One of the three surfaces is reached and leaves a file. */
  ghost predicate TurnLeaves(turn: Turn, options: Options, limits: Limits, maxTotal: int) {
    var max := NonNegative(options.maxImages);
    var first := FirstWalk(turn, options, limits, maxTotal);
    var reply := ReplyWalk(turn.reply, limits, first.allowance.bytes, first.scan);
    && max > 0
    && (|| WalkLeaves(turn.current, limits, Allowance(max, max, NonNegative(maxTotal)))
        || (first.broken.None? && turn.reply.ReplyTo? && WalkLeaves(turn.reply.attachments, limits, One(first.allowance.bytes)))
        || (first.broken.None? && reply.broken.None? && ReadsHistory(turn, first.kept != [], reply)
            && HistoryLeaves(turn.history, options.lookback, limits, One(reply.allowance.bytes), reply.scan)))
  }

  ghost predicate HistoryLeaves(h: History, lookback: int, limits: Limits, b: Allowance, scan: Scan) {
    h.History? && exists j :: 0 <= j < |h.messages| && HistoryLeavesAt(h, j, lookback, limits, b, scan)
  }

  lemma NewestLeavesIff(turn: Turn, options: Options, limits: Limits, own: bool, reply: Walk)
    requires reply.broken.None?
    ensures BreaksLeaving(NewestWalk(turn, options, limits, own, reply)) <==>
      ReadsHistory(turn, own, reply)
      && HistoryLeaves(turn.history, options.lookback, limits, One(reply.allowance.bytes), reply.scan)
  {
    if turn.history.History? {
      HistoryLeavesFrom(turn.history, 0, options.lookback, limits, One(reply.allowance.bytes), reply.scan,
                        (One(reply.allowance.bytes), reply.scan));
    }
  }

  /** A turn leaves a file exactly when one of its surfaces gets to an attachment whose
      save is cancelled in a preparation or append and whose file outlives the cleanup. */
  lemma StoppedLeavesIff(turn: Turn, options: Options, limits: Limits, maxTotal: int)
    ensures var c := TurnCourse(turn, options, limits, maxTotal);
      c.Stopped? && c.leaves.Some? <==> TurnLeaves(turn, options, limits, maxTotal)
  {
    var max := NonNegative(options.maxImages);
    var first := FirstWalk(turn, options, limits, maxTotal);
    var reply := ReplyWalk(turn.reply, limits, first.allowance.bytes, first.scan);
    WalkLeavesIff(turn.current, limits, Allowance(max, max, NonNegative(maxTotal)), UNSCANNED);
    WalkBounded(turn.current, 0, limits, Allowance(max, max, NonNegative(maxTotal)), UNSCANNED, []);
    if turn.reply.ReplyTo? {
      PassedLeavesIff(turn.reply.attachments, limits, One(first.allowance.bytes), first.scan);
    }
    if reply.broken.None? {
      NewestLeavesIff(turn, options, limits, first.kept != [], reply);
    }
  }

  // ----- the surfaces together

  /** Images that are held since `base`. */
  ghost predicate Holds(base: Shelf, now: Shelf, images: seq<CollectedImage>) {
    && base.next <= now.next && Owned(base.disk, now.disk, CleanupPaths(images))
    && Gained(base, now, SourceBytes(Keeps(images)), DerivedBytes(Keeps(images)))
  }

  lemma NothingWalked(w: Walk, base: Shelf)
    requires w.kept == [] && w.broken.None?
    ensures Walked(w, base, base, Collected([]), None)
  {
    assert Keeps([]) == [];
  }

  lemma NothingAgain(w: Walk, base: Shelf, now: Shelf)
    requires w.kept == [] && w.broken.None? && base.next <= now.next && now.disk == base.disk && Gained(base, now, 0, 0)
    ensures Walked(w, base, now, Collected([]), None)
  {
    assert Keeps([]) == [];
  }

  /** A surface that fails, or finds nothing, leaves the shelf as it was. */
  lemma NothingFound(w: Walk, base: Shelf, now: Shelf, r: Collection, at: Option<Path>)
    requires Walked(w, base, now, r, at) && PassOver(w).kept == [] && PassOver(w).broken.None?
    requires w.broken.Some? && w.broken.value.leaves.Some? ==> w.broken.value.cancelled
    ensures now.disk == base.disk && Gained(base, now, 0, 0) && at.None?
    ensures w.broken.Some? ==> r == Raised(false)
    ensures Walked(PassOver(w), base, now, Collected([]), None)
  {
    if w.broken.None? {
      assert Keeps(r.images) == [];
      assert |r.images| == |Keeps(r.images)|;
      OwnedNothing(base.disk, now.disk);
    }
    assert Keeps([]) == [];
  }

  /** Two surfaces one after the other. */
  lemma HoldsBoth(base: Shelf, mid: Shelf, now: Shelf, w: Walk, a: seq<CollectedImage>, b: seq<CollectedImage>)
    requires Holds(base, mid, a) && Walked(w, mid, now, Collected(b), None)
    ensures Holds(base, now, a + b) && Keeps(b) == w.kept && w.broken.None?
    ensures SourceBytes(Keeps(a + b)) == SourceBytes(Keeps(a)) + SourceBytes(Keeps(b))
    ensures DerivedBytes(Keeps(a + b)) == DerivedBytes(Keeps(a)) + DerivedBytes(Keeps(b))
  {
    CleanupConcat(a, b);
    OwnedThen(base.disk, mid.disk, now.disk, CleanupPaths(a), CleanupPaths(b));
    assert Keeps(a + b) == Keeps(a) + Keeps(b);
    BytesConcat(Keeps(a), Keeps(b));
  }

  lemma {:induction false} BytesConcat(a: seq<Keep>, b: seq<Keep>)
    ensures SourceBytes(a + b) == SourceBytes(a) + SourceBytes(b)
    ensures DerivedBytes(a + b) == DerivedBytes(a) + DerivedBytes(b)
    decreases |b|
  {
    if b == [] {
      assert a + b == a;
    } else {
      assert (a + b)[..|a + b| - 1] == a + b[..|b| - 1];
      BytesConcat(a, b[..|b| - 1]);
    }
  }

  /** A cancellation on a later surface: once the earlier images are removed, only what it
      leaves is there. */
  lemma RolledBack(base: Shelf, mid: Shelf, now: Shelf, w: Walk, images: seq<CollectedImage>, r: Collection, at: Option<Path>)
    requires Holds(base, mid, images) && Walked(w, mid, now, r, at) && w.broken.Some?
    ensures Stays(base.disk, now.disk - Elems(CleanupPaths(images)), at, w.broken.value.leaves)
  {
    StaysBelow(base.disk, mid.disk, now.disk, CleanupPaths(images), at, w.broken.value.leaves);
  }

  lemma PeakThen(a: Shelf, b: Shelf, c: Shelf, gained: nat, derived: nat, more: nat, moreDerived: nat, all: nat, allDerived: nat)
    requires PeakOk(a, b, all, allDerived) && Gained(a, b, gained, derived) && PeakOk(b, c, more, moreDerived)
    requires gained + more <= all && derived + moreDerived <= allDerived
    ensures PeakOk(a, c, all, allDerived)
  {
  }

  // ----- the result

  /** The promise of the whole turn. */
  ghost predicate TurnOk(base: Shelf, now: Shelf, t: TurnImages, limits: Limits, maxImages: nat, maxBytes: nat) {
    && Owned(base.disk, now.disk, t.cleanup)
    && now.sources <= base.sources + maxBytes && now.derived <= base.derived + DerivedRoom(limits, maxImages + 1)
    && |t.vision| <= maxImages
    && (forall image, p :: image in t.vision && p in PathsOf(image) ==> p in t.cleanup)
    && (t.editTarget.Some? ==> forall p :: p in PathsOf(t.editTarget.value) ==> p in t.cleanup)
  }

  /** What is returned when a collection failed with an ordinary exception. */
  function TextOnly(attempted: bool): TurnImages {
    TurnImages([], None, [], {}, attempted, {Processing})
  }

  /** The current, reply and history images, or an exception. */
  datatype Surfaces = Surfaces(current: seq<CollectedImage>, reply: seq<CollectedImage>, newest: seq<CollectedImage>)

  function AllOf(s: Surfaces): seq<CollectedImage> {
    s.current + s.reply + s.newest
  }

  /** The edit target is the reply's image, or else the history's when the message has
      none of its own. */
  function EditTarget(s: Surfaces): Option<CollectedImage> {
    if s.reply != [] then Some(s.reply[0])
    else if s.current == [] && s.newest != [] then Some(s.newest[0])
    else None
  }

  function First(images: seq<CollectedImage>): seq<CollectedImage> {
    if images == [] then [] else [images[0]]
  }

  lemma {:induction false} PathsListed(images: seq<CollectedImage>, image: CollectedImage)
    requires image in images
    ensures forall p :: p in PathsOf(image) ==> p in CleanupPaths(images)
  {
    if image != images[|images| - 1] {
      PathsListed(images[..|images| - 1], image);
    }
  }

  lemma AllCleanedUp(s: Surfaces, vision: seq<CollectedImage>, extras: seq<CollectedImage>)
    requires s.current <= vision && forall i :: |s.current| <= i < |vision| ==> vision[i] in extras
    requires forall x :: x in extras ==> x in s.reply || x in s.newest
    ensures forall image, p :: image in vision && p in PathsOf(image) ==> p in CleanupPaths(AllOf(s))
    ensures EditTarget(s).Some? ==> forall p :: p in PathsOf(EditTarget(s).value) ==> p in CleanupPaths(AllOf(s))
  {
    forall image, p | image in vision && p in PathsOf(image) ensures p in CleanupPaths(AllOf(s)) {
      var i :| 0 <= i < |vision| && vision[i] == image;
      if i < |s.current| {
        assert image == s.current[i];
      }
      assert image in AllOf(s);
      PathsListed(AllOf(s), image);
    }
    if EditTarget(s).Some? {
      assert EditTarget(s).value in AllOf(s);
      PathsListed(AllOf(s), EditTarget(s).value);
    }
  }

  /** The images offered beside those of the message. */
  function Extras(s: Surfaces, options: Options): seq<CollectedImage> {
    if options.imagesSupported then (if options.includeReply then First(s.reply) else []) + First(s.newest) else []
  }

  function VisionOf(s: Surfaces, options: Options, max: nat): seq<CollectedImage> {
    AddNew(s.current, Hashes(s.current) + options.historyHashes, Extras(s, options), max)
  }

  function Assembled(s: Surfaces, options: Options, max: nat, scan: Scan, issues: set<Issue>): TurnImages {
    TurnImages(VisionOf(s, options, max), EditTarget(s), CleanupPaths(AllOf(s)), scan.ids,
               scan.attempted && s.current == [], issues)
  }

  lemma {:induction false} CleanupLists(images: seq<CollectedImage>, p: Path)
    ensures p in CleanupPaths(images) <==> exists image :: image in images && p in PathsOf(image)
  {
    if images != [] {
      CleanupLists(images[..|images| - 1], p);
      assert images == images[..|images| - 1] + [images[|images| - 1]];
    }
  }

  /** The result in terms of the three surfaces: the own images come first in the vision, the
      edit target is the reply's image before the history's, all files of all images are to
      be cleaned up, and an own image is unavailable if one was attempted and none is there. */
  lemma AssembledMeans(s: Surfaces, options: Options, max: nat, scan: Scan, issues: set<Issue>)
    ensures var t := Assembled(s, options, max, scan, issues);
      && s.current <= t.vision && (!options.imagesSupported ==> t.vision == s.current)
      && (s.reply != [] ==> t.editTarget == Some(s.reply[0]))
      && (s.reply == [] && s.current == [] && s.newest != [] ==> t.editTarget == Some(s.newest[0]))
      && (s.reply == [] && (s.current != [] || s.newest == []) ==> t.editTarget == None)
      && t.ids == scan.ids && t.issues == issues && (t.unavailable <==> scan.attempted && s.current == [])
    ensures forall p :: p in Assembled(s, options, max, scan, issues).cleanup <==>
      exists image :: (image in s.current || image in s.reply || image in s.newest) && p in PathsOf(image)
  {
    AllNewAreAdded(s.current, Hashes(s.current) + options.historyHashes, Extras(s, options), max);
    forall p ensures p in CleanupPaths(AllOf(s)) <==>
        exists image :: (image in s.current || image in s.reply || image in s.newest) && p in PathsOf(image)
    {
      CleanupLists(AllOf(s), p);
    }
  }

  /** The reply's image, if replies are included, and the history's are offered beside the
      own ones when the model takes images; each is shown unless it is known already or the
      turn is full. */
  lemma OfferedAreShown(s: Surfaces, options: Options, max: nat, image: CollectedImage)
    requires options.imagesSupported
    requires (options.includeReply && s.reply != [] && image == s.reply[0]) || (s.newest != [] && image == s.newest[0])
    ensures var vision := VisionOf(s, options, max);
      |vision| >= max || image.hash in options.historyHashes || exists y :: y in vision && y.hash == image.hash
  {
    AllNewAreAdded(s.current, Hashes(s.current) + options.historyHashes, Extras(s, options), max);
    assert image in Extras(s, options);
  }

  const NO_IMAGES := TurnImages([], None, [], {}, false, {})

  /** The surfaces hold the images of a course. */
  ghost predicate Shows(s: Surfaces, c: Course) {
    c.Shown? && Keeps(s.current) == c.current && Keeps(s.reply) == c.reply && Keeps(s.newest) == c.newest
  }

  /** What a collection comes to, and what it leaves on the shelf. */
  ghost predicate Ended(c: Course, options: Options, base: Shelf, now: Shelf, r: Result<TurnImages, ()>, s: Surfaces, at: Option<Path>) {
    match c
    case Off => r == Success(NO_IMAGES) && now.disk == base.disk
    case OwnFailed(attempted) => r == Success(TextOnly(attempted)) && now.disk == base.disk
    case Stopped(leaves) => r.Failure? && Stays(base.disk, now.disk, at, leaves)
    case Shown(_, _, _, scan, issues) =>
      Shows(s, c) && r == Success(Assembled(s, options, NonNegative(options.maxImages), scan, issues))
  }

  /** The images of the three surfaces are within their limits. */
  lemma ShownBounded(turn: Turn, options: Options, limits: Limits, kept: seq<Keep>, bytes: nat, scan: Scan)
    ensures var c := OtherCourse(turn, options, limits, kept, bytes, scan);
      c.Shown? ==>
        && c.current == kept && |c.reply| <= 1 && |c.newest| <= 1 && (c.newest != [] ==> kept == [] && c.reply == [])
        && SourceBytes(c.reply) + SourceBytes(c.newest) <= bytes
        && DerivedBytes(c.reply) + DerivedBytes(c.newest) <= limits.Derivative()
  {
    var reply := ReplyWalk(turn.reply, limits, bytes, scan);
    ReplyBounded(turn.reply, limits, bytes, scan);
    NewestBounded(turn, options, limits, kept != [], reply);
  }

  lemma AssembledOk(base: Shelf, now: Shelf, s: Surfaces, options: Options, limits: Limits, max: nat, maxBytes: nat,
                    scan: Scan, issues: set<Issue>)
    requires Holds(base, now, AllOf(s)) && |s.current| <= max
    requires SourceBytes(Keeps(AllOf(s))) <= maxBytes && DerivedBytes(Keeps(AllOf(s))) <= DerivedRoom(limits, max + 1)
    ensures TurnOk(base, now, Assembled(s, options, max, scan, issues), limits, max, maxBytes)
  {
    AddedAreNew(s.current, Hashes(s.current) + options.historyHashes, Extras(s, options), max);
    AllCleanedUp(s, VisionOf(s, options, max), Extras(s, options));
  }

  lemma NothingOk(base: Shelf, now: Shelf, t: TurnImages, limits: Limits, max: nat, maxBytes: nat)
    requires now.disk == base.disk && Gained(base, now, 0, 0) && t.vision == [] && t.editTarget.None? && t.cleanup == []
    ensures TurnOk(base, now, t, limits, max, maxBytes)
  {
  }
}

module TurnImageCollector {
  import opened Wrappers
  import opened StagedFiles
  import opened AttachmentStorage
  import opened ImageDecisions
  import opened ImageOwnership
  import opened ImageCollection
  import opened TurnSurfaces

  /** `_images_from_message` for a message beside the turn's own: an ordinary failure is
      noted and passed over. */
  method Beside(store: AttachmentStore, attachments: seq<Attachment>, budget: CollectionBudget, scan: ImageScan)
    returns (r: Collection, failed: bool, ghost at: Option<Path>)
    requires store.Valid() && budget.candidates <= 1 && 0 <= budget.results <= 1
    modifies store, budget, budget.bytes, scan
    ensures store.Valid()
    ensures var first := WalkFrom(attachments, 0, store.limits, old(budget.Left()), old(scan.Now()), []); var w := PassOver(first);
      && Walked(w, old(store.Now()), store.Now(), r, at)
      && budget.Left() == w.allowance && scan.Now() == w.scan && failed == (first.broken.Some? && w.broken.None?)
    ensures PeakOk(old(store.Now()), store.Now(), old(budget.bytes.remaining), store.limits.Derivative())
  {
    ghost var base, b, record := store.Now(), budget.Left(), scan.Now();
    PassOverBounded(attachments, store.limits, b, record, b.bytes);
    r, at := ImagesFromMessage(store, attachments, budget, scan);
    assert DerivedRoom(store.limits, b.candidates) <= store.limits.Derivative() by {
      assert DerivedRoom(store.limits, 0) == 0;
    }
    failed := false;
    if r.Raised? && !r.cancelled {
      NothingFound(WalkFrom(attachments, 0, store.limits, b, record, []), base, store.Now(), r, at);
      scan.Add(Processing);
      r, failed := Collected([]), true;
    }
  }

  /** `_reply_source_images`: one candidate at most, and its failure is passed over. */
  method ReplyImages(store: AttachmentStore, reply: Reply, bytes: ByteBudget, scan: ImageScan)
    returns (r: Collection, ghost at: Option<Path>)
    requires store.Valid()
    modifies store, bytes, scan
    ensures store.Valid()
    ensures var w := ReplyWalk(reply, store.limits, old(bytes.remaining), old(scan.Now()));
      && Walked(w, old(store.Now()), store.Now(), r, at) && bytes.remaining == w.allowance.bytes && scan.Now() == w.scan
    ensures PeakOk(old(store.Now()), store.Now(), old(bytes.remaining), store.limits.Derivative())
  {
    match reply {
      case NoReply =>
        NothingWalked(ReplyWalk(reply, store.limits, bytes.remaining, scan.Now()), store.Now());
        return Collected([]), None;
      case ReplyCancelled => return Raised(true), None;
      case ReplyTo(attachments) =>
        var budget := new CollectionBudget(1, bytes);
        var failed;
        r, failed, at := Beside(store, attachments, budget, scan);
    }
  }

  /** While the history is read: nothing has been found yet, and what is left decides. */
  ghost predicate Searching(h: History, i: nat, lookback: int, base: Shelf, now: Shelf, limits: Limits, w: Walk,
                            b: Allowance, scan: Scan, bytes: nat) {
    && h.History? && i <= |h.messages| && HistoryFrom(h, i, lookback, limits, b, scan) == w
    && b.candidates <= 1 && 0 <= b.results <= 1 && b.bytes <= bytes
    && base.next <= now.next && now.disk == base.disk && Gained(base, now, 0, 0)
    && PeakOk(base, now, bytes, limits.Derivative())
  }

  /** `_newest_history_images`: the newest own message with an image within the lookback,
      on one candidate for the whole scan. */
  method HistoryImages(store: AttachmentStore, history: History, lookback: int, bytes: ByteBudget, scan: ImageScan)
    returns (r: Collection, ghost at: Option<Path>)
    requires store.Valid()
    modifies store, bytes, scan
    ensures store.Valid()
    ensures var w := HistoryWalk(history, lookback, store.limits, old(bytes.remaining), old(scan.Now()));
      && Walked(w, old(store.Now()), store.Now(), r, at) && bytes.remaining == w.allowance.bytes && scan.Now() == w.scan
    ensures PeakOk(old(store.Now()), store.Now(), old(bytes.remaining), store.limits.Derivative())
  {
    ghost var base, w := store.Now(), HistoryWalk(history, lookback, store.limits, bytes.remaining, scan.Now());
    at := None;
    if history.Unavailable? || lookback <= 0 {
      NothingWalked(w, base);
      return Collected([]), None;
    }
    var budget := new CollectionBudget(1, bytes);
    var i: nat := 0;
    while i < |history.messages| && i < lookback
      invariant store.Valid() && budget.bytes == bytes && fresh(budget)
      invariant Searching(history, i, lookback, base, store.Now(), store.limits, w, budget.Left(), scan.Now(), old(bytes.remaining))
    {
      if !history.messages[i].own {
        i := i + 1;
        continue;
      }
      var over;
      over, r, at := SearchMessage(store, history, i, lookback, budget, scan, base, w, old(bytes.remaining));
      if over {
        return;
      }
      i := i + 1;
    }
    SearchEnds(history, i, lookback, base, store.Now(), store.limits, w, budget.Left(), scan.Now(), old(bytes.remaining));
    r, at := if i < lookback && history.ending.Cancels? then Raised(true) else Collected([]), None;
  }

  lemma SearchEnds(h: History, i: nat, lookback: int, base: Shelf, now: Shelf, limits: Limits, w: Walk, b: Allowance, scan: Scan,
                   bytes: nat)
    requires Searching(h, i, lookback, base, now, limits, w, b, scan, bytes) && (i == |h.messages| || i >= lookback)
    ensures b == w.allowance && scan == w.scan
    ensures Walked(w, base, now, if i < lookback && h.ending.Cancels? then Raised(true) else Collected([]), None)
  {
    if w.broken.None? {
      NothingAgain(w, base, now);
    }
  }

  /** One own message of the history; `over` says that it decides. */
  method SearchMessage(store: AttachmentStore, history: History, i: nat, lookback: int, budget: CollectionBudget, scan: ImageScan,
                       ghost base: Shelf, ghost w: Walk, ghost bytes: nat)
    returns (over: bool, r: Collection, ghost at: Option<Path>)
    requires store.Valid() && history.History? && i < |history.messages| && i < lookback && history.messages[i].own
    requires Searching(history, i, lookback, base, store.Now(), store.limits, w, budget.Left(), scan.Now(), bytes)
    modifies store, budget, budget.bytes, scan
    ensures store.Valid()
    ensures over ==>
      && Walked(w, base, store.Now(), r, at) && budget.Left() == w.allowance && scan.Now() == w.scan
      && PeakOk(base, store.Now(), bytes, store.limits.Derivative())
    ensures !over ==>
      Searching(history, i + 1, lookback, base, store.Now(), store.limits, w, budget.Left(), scan.Now(), bytes)
  {
    ghost var mid, b, record := store.Now(), budget.Left(), scan.Now();
    PassOverBounded(history.messages[i].attachments, store.limits, b, record, bytes);
    var failed;
    r, failed, at := Beside(store, history.messages[i].attachments, budget, scan);
    PeakThen(base, mid, store.Now(), 0, 0, b.bytes, store.limits.Derivative(), bytes, store.limits.Derivative());
    over := r.Raised? || r.images != [] || (!failed && budget.Exhausted());
    ghost var here := PassOver(WalkFrom(history.messages[i].attachments, 0, store.limits, b, record, []));
    if over {
      WalkedAgain(here, base, mid, store.Now(), r, at);
    } else {
      NothingHeld(here, mid, store.Now(), r, at);
    }
  }

  lemma WalkedAgain(w: Walk, base: Shelf, mid: Shelf, now: Shelf, r: Collection, at: Option<Path>)
    requires Walked(w, mid, now, r, at) && mid.disk == base.disk && Gained(base, mid, 0, 0) && base.next <= mid.next
    ensures Walked(w, base, now, r, at)
  {
  }

  lemma NothingHeld(w: Walk, base: Shelf, now: Shelf, r: Collection, at: Option<Path>)
    requires Walked(w, base, now, r, at) && r == Collected([])
    ensures w.kept == [] && w.broken.None? && now.disk == base.disk && Gained(base, now, 0, 0)
  {
    assert Keeps([]) == [];
    OwnedNothing(base.disk, now.disk);
  }

  /** The vision loop over the reply's and the history's image. */
  method Vision(current: seq<CollectedImage>, extras: seq<CollectedImage>, historyHashes: set<nat>, max: nat)
    returns (vision: seq<CollectedImage>)
    requires |current| <= max
    ensures vision == AddNew(current, Hashes(current) + historyHashes, extras, max)
  {
    vision := current;
    var seen := Hashes(current) + historyHashes;
    var added: nat := 0;
    var i: nat := 0;
    while i < |extras| && |vision| < max && added < max
      invariant i <= |extras| && added <= |vision| <= max
      invariant AddNew(current, Hashes(current) + historyHashes, extras, max) == AddNew(vision, seen, extras[i..], max)
    {
      if extras[i].hash !in seen {
        vision := vision + [extras[i]];
        seen := seen + {extras[i].hash};
        added := added + 1;
      }
      i := i + 1;
    }
  }

  lemma NothingListed(images: seq<CollectedImage>)
    ensures Keeps(images) == [] <==> images == []
  {
    assert |Keeps(images)| == |images|;
  }

  /** The history, if it is read at all. */
  method Newest(store: AttachmentStore, turn: Turn, options: Options, bytes: ByteBudget, current: seq<CollectedImage>,
                reply: seq<CollectedImage>, scan: ImageScan, ghost replied: Walk)
    returns (r: Collection, ghost at: Option<Path>)
    requires store.Valid() && Keeps(reply) == replied.kept && replied.broken.None?
    requires bytes.remaining == replied.allowance.bytes && scan.Now() == replied.scan
    modifies store, bytes, scan
    ensures store.Valid()
    ensures var w := NewestWalk(turn, options, store.limits, Keeps(current) != [], replied);
      Walked(w, old(store.Now()), store.Now(), r, at) && scan.Now() == w.scan
    ensures if ReadsHistory(turn, Keeps(current) != [], replied)
            then PeakOk(old(store.Now()), store.Now(), old(bytes.remaining), store.limits.Derivative())
            else store.Now() == old(store.Now())
  {
    NothingListed(current);
    NothingListed(reply);
    if current == [] && reply == [] && !HasCandidate(turn.current) {
      r, at := HistoryImages(store, turn.history, options.lookback, bytes, scan);
    } else {
      NothingWalked(NewestWalk(turn, options, store.limits, Keeps(current) != [], replied), store.Now());
      r, at := Collected([]), None;
    }
  }

  lemma NewestPeak(turn: Turn, start: Shelf, mid: Shelf, now: Shelf, own: bool, replied: Walk, before: nat, limits: Limits)
    requires Gained(start, mid, SourceBytes(replied.kept), DerivedBytes(replied.kept)) && PeakOk(start, mid, before, limits.Derivative())
    requires replied.allowance.bytes <= before
    requires if ReadsHistory(turn, own, replied) then PeakOk(mid, now, replied.allowance.bytes, limits.Derivative())
             else SamePeaks(mid, now)
    ensures PeakOk(start, now, before, limits.Derivative())
  {
  }

  /** The reply and the history after the message itself. A cancellation on either rolls
      back what the earlier surfaces staged. */
  method OtherSurfaces(store: AttachmentStore, turn: Turn, options: Options, bytes: ByteBudget, current: seq<CollectedImage>,
                       scan: ImageScan, ghost base: Shelf)
    returns (r: Result<Surfaces, ()>, ghost at: Option<Path>)
    requires store.Valid() && Holds(base, store.Now(), current)
    modifies store, bytes, scan
    ensures store.Valid()
    ensures OthersEnded(OtherCourse(turn, options, store.limits, Keeps(current), old(bytes.remaining), old(scan.Now())),
                        base, store.Now(), current, scan.issues, r, at)
    ensures PeakOk(old(store.Now()), store.Now(), old(bytes.remaining), store.limits.Derivative())
  {
    ghost var start, before, record := store.Now(), bytes.remaining, scan.Now();
    ReplyBounded(turn.reply, store.limits, before, record);
    var reply;
    reply, at := ReplyImages(store, turn.reply, bytes, scan);
    ghost var replied := ReplyWalk(turn.reply, store.limits, before, record);
    if reply.Raised? {
      RolledBack(base, start, store.Now(), replied, current, reply, at);
      store.Cleanup(CleanupPaths(current));
      return Failure(()), at;
    }
    HoldsBoth(base, start, store.Now(), replied, current, reply.images);
    Collects(start, store.Now(), replied, reply, at);
    ghost var mid := store.Now();
    r, at := AfterReply(store, turn, options, bytes, current, reply.images, scan, base, replied);
    NewestPeak(turn, start, mid, store.Now(), Keeps(current) != [], replied, before, store.limits);
    AfterReplyEnded(turn, options, store.limits, base, store.Now(), current, before, record, scan.issues, r, at);
  }

  /** The newest image of the history, after the reply. */
  method AfterReply(store: AttachmentStore, turn: Turn, options: Options, bytes: ByteBudget, current: seq<CollectedImage>,
                    reply: seq<CollectedImage>, scan: ImageScan, ghost base: Shelf, ghost replied: Walk)
    returns (r: Result<Surfaces, ()>, ghost at: Option<Path>)
    requires store.Valid() && Holds(base, store.Now(), current + reply)
    requires Keeps(reply) == replied.kept && replied.broken.None?
    requires bytes.remaining == replied.allowance.bytes && scan.Now() == replied.scan
    modifies store, bytes, scan
    ensures store.Valid()
    ensures NewestEnded(NewestWalk(turn, options, store.limits, Keeps(current) != [], replied), base, store.Now(), current, reply,
                        scan.issues, r, at)
    ensures if ReadsHistory(turn, Keeps(current) != [], replied)
            then PeakOk(old(store.Now()), store.Now(), old(bytes.remaining), store.limits.Derivative())
            else SamePeaks(old(store.Now()), store.Now())
  {
    ghost var mid := store.Now();
    var newest;
    newest, at := Newest(store, turn, options, bytes, current, reply, scan, replied);
    ghost var w := NewestWalk(turn, options, store.limits, Keeps(current) != [], replied);
    if newest.Raised? {
      RolledBack(base, mid, store.Now(), w, current + reply, newest, at);
      store.Cleanup(CleanupPaths(current + reply));
      return Failure(()), at;
    }
    HoldsBoth(base, mid, store.Now(), w, current + reply, newest.images);
    r := Success(Surfaces(current, reply, newest.images));
  }

  predicate SamePeaks(a: Shelf, b: Shelf) {
    a.sourcePeak == b.sourcePeak && a.derivedPeak == b.derivedPeak
  }

  ghost predicate NewestEnded(w: Walk, base: Shelf, now: Shelf, current: seq<CollectedImage>, reply: seq<CollectedImage>,
                              issues: set<Issue>, r: Result<Surfaces, ()>, at: Option<Path>) {
    match r
    case Success(s) =>
      && w.broken.None? && Keeps(s.newest) == w.kept && s.current == current && s.reply == reply && issues == w.scan.issues
      && Holds(base, now, AllOf(s))
    case Failure(_) => w.broken.Some? && Stays(base.disk, now.disk, at, w.broken.value.leaves)
  }

  lemma AfterReplyEnded(turn: Turn, options: Options, limits: Limits, base: Shelf, now: Shelf, current: seq<CollectedImage>,
                        bytes: nat, scan: Scan, issues: set<Issue>, r: Result<Surfaces, ()>, at: Option<Path>)
    requires var replied := ReplyWalk(turn.reply, limits, bytes, scan);
      && replied.broken.None? && (r.Success? ==> Keeps(r.value.reply) == replied.kept)
      && NewestEnded(NewestWalk(turn, options, limits, Keeps(current) != [], replied), base, now, current,
                     if r.Success? then r.value.reply else [], issues, r, at)
    ensures OthersEnded(OtherCourse(turn, options, limits, Keeps(current), bytes, scan), base, now, current, issues, r, at)
  {
  }

  /** What the surfaces beside the message come to. */
  ghost predicate OthersEnded(c: Course, base: Shelf, now: Shelf, current: seq<CollectedImage>, issues: set<Issue>,
                              r: Result<Surfaces, ()>, at: Option<Path>) {
    match r
    case Success(s) => Shows(s, c) && s.current == current && issues == c.issues && Holds(base, now, AllOf(s))
    case Failure(_) => c.Stopped? && Stays(base.disk, now.disk, at, c.leaves)
  }

  lemma SurfaceBytes(s: Surfaces)
    ensures SourceBytes(Keeps(AllOf(s))) == SourceBytes(Keeps(s.current)) + SourceBytes(Keeps(s.reply)) + SourceBytes(Keeps(s.newest))
    ensures DerivedBytes(Keeps(AllOf(s))) == DerivedBytes(Keeps(s.current)) + DerivedBytes(Keeps(s.reply)) + DerivedBytes(Keeps(s.newest))
  {
    assert Keeps(AllOf(s)) == Keeps(s.current) + Keeps(s.reply) + Keeps(s.newest);
    BytesConcat(Keeps(s.current) + Keeps(s.reply), Keeps(s.newest));
    BytesConcat(Keeps(s.current), Keeps(s.reply));
  }

  /** The limits of the whole turn, from those of its surfaces. */
  lemma ShownOk(turn: Turn, options: Options, limits: Limits, maxTotal: int, base: Shelf, now: Shelf, s: Surfaces, first: Walk,
                scan: Scan, issues: set<Issue>)
    requires options.maxImages > 0 && first == FirstWalk(turn, options, limits, maxTotal) && first.kept == Keeps(s.current)
    requires Shows(s, OtherCourse(turn, options, limits, first.kept, first.allowance.bytes, first.scan))
    requires Holds(base, now, AllOf(s))
    ensures var max := NonNegative(options.maxImages);
      TurnOk(base, now, Assembled(s, options, max, scan, issues), limits, max, NonNegative(maxTotal))
  {
    var max := NonNegative(options.maxImages);
    WalkBounded(turn.current, 0, limits, Allowance(max, max, NonNegative(maxTotal)), UNSCANNED, []);
    ShownBounded(turn, options, limits, first.kept, first.allowance.bytes, first.scan);
    SurfaceBytes(s);
    CurrentWithin(turn, options, limits, maxTotal, s.current);
    AssembledOk(base, now, s, options, limits, max, NonNegative(maxTotal), scan, issues);
  }

  /** The peaks of the message's own walk and of the others' together. */
  lemma TurnPeak(turn: Turn, options: Options, limits: Limits, maxTotal: int, base: Shelf, mid: Shelf, now: Shelf)
    requires options.maxImages > 0
    requires var max := NonNegative(options.maxImages); var first := FirstWalk(turn, options, limits, maxTotal);
      && PeakOk(base, mid, NonNegative(maxTotal), DerivedRoom(limits, max))
      && Gained(base, mid, SourceBytes(first.kept), DerivedBytes(first.kept))
      && PeakOk(mid, now, first.allowance.bytes, limits.Derivative())
    ensures PeakOk(base, now, NonNegative(maxTotal), DerivedRoom(limits, NonNegative(options.maxImages) + 1))
  {
    var max := NonNegative(options.maxImages);
    WalkBounded(turn.current, 0, limits, Allowance(max, max, NonNegative(maxTotal)), UNSCANNED, []);
  }

  /** `collect_turn_images`. It goes exactly as `TurnCourse` says. On a normal return the
      files beyond those there before are exactly the cleanup paths; on a cancellation
      there are none but the one that the cancelled save leaves, if it does. From its
      beginning on the store never holds more source bytes than before plus the budget, nor
      more bytes of derivatives than one limit per image and one for the reply or the
      history. */
  method CollectTurnImages(store: AttachmentStore, turn: Turn, options: Options)
    returns (r: Result<TurnImages, ()>, ghost s: Surfaces, ghost at: Option<Path>)
    requires store.Valid()
    modifies store
    ensures store.Valid()
    ensures Ended(TurnCourse(turn, options, store.limits, store.maxTotal), options, old(store.Now()), store.Now(), r, s, at)
    ensures r.Success? ==>
      TurnOk(old(store.Now()), store.Now(), r.value, store.limits, NonNegative(options.maxImages), NonNegative(store.maxTotal))
    ensures store.sourcePeak <= old(store.sources) + NonNegative(store.maxTotal)
    ensures store.derivedPeak <= old(store.derived) + store.limits.Derivative() * (NonNegative(options.maxImages) + 1)
  {
    store.SetPeaks();
    r, s, at := CollectCounted(store, turn, options);
    RoomIsProduct(store.limits, NonNegative(options.maxImages) + 1);
  }

  /** The same, with the peaks counted from any earlier moment. */
  method CollectCounted(store: AttachmentStore, turn: Turn, options: Options)
    returns (r: Result<TurnImages, ()>, ghost s: Surfaces, ghost at: Option<Path>)
    requires store.Valid()
    modifies store
    ensures store.Valid()
    ensures Ended(TurnCourse(turn, options, store.limits, store.maxTotal), options, old(store.Now()), store.Now(), r, s, at)
    ensures r.Success? ==>
      TurnOk(old(store.Now()), store.Now(), r.value, store.limits, NonNegative(options.maxImages), NonNegative(store.maxTotal))
    ensures PeakOk(old(store.Now()), store.Now(), NonNegative(store.maxTotal),
                   DerivedRoom(store.limits, NonNegative(options.maxImages) + 1))
  {
    var maximum := Max(0, options.maxImages);
    s, at := Surfaces([], [], []), None;
    if maximum == 0 {
      NothingOk(store.Now(), store.Now(), NO_IMAGES, store.limits, 0, NonNegative(store.maxTotal));
      return Success(NO_IMAGES), s, None;
    }
    ghost var base, first := store.Now(), FirstWalk(turn, options, store.limits, store.maxTotal);
    var scan := new ImageScan();
    var bytes := new ByteBudget(store.maxTotal);
    var budget := new CollectionBudget(maximum, bytes);
    var c;
    c, at := ImagesFromMessage(store, turn.current, budget, scan);
    ghost var mid := store.Now();
    OwnPeak(turn, options, store.limits, store.maxTotal, base, mid);
    if c.Raised? {
      if c.cancelled {
        return Failure(()), s, at;
      }
      OwnFailure(turn, options, store.limits, store.maxTotal, base, mid, c, at);
      return Success(TextOnly(scan.attempted)), s, at;
    }
    Collects(base, mid, first, c, at);
    r, s, at := WithOthers(store, turn, options, bytes, c.images, scan, base, first);
    TurnPeak(turn, options, store.limits, store.maxTotal, base, mid, store.Now());
  }

  lemma Collects(base: Shelf, now: Shelf, w: Walk, c: Collection, at: Option<Path>)
    requires Walked(w, base, now, c, at) && c.Collected?
    ensures w.broken.None? && Holds(base, now, c.images) && Keeps(c.images) == w.kept
  {
  }

  lemma OwnPeak(turn: Turn, options: Options, limits: Limits, maxTotal: int, base: Shelf, now: Shelf)
    requires PeakOk(base, now, NonNegative(maxTotal), DerivedRoom(limits, NonNegative(options.maxImages)))
    ensures PeakOk(base, now, NonNegative(maxTotal), DerivedRoom(limits, NonNegative(options.maxImages) + 1))
  {
  }

  /** An ordinary failure of the message's own images leaves nothing behind. */
  lemma OwnFailure(turn: Turn, options: Options, limits: Limits, maxTotal: int, base: Shelf, now: Shelf, c: Collection, at: Option<Path>)
    requires var first := FirstWalk(turn, options, limits, maxTotal); Walked(first, base, now, c, at) && c == Raised(false)
    ensures now.disk == base.disk && Gained(base, now, 0, 0) && at.None?
    ensures TurnOk(base, now, TextOnly(FirstWalk(turn, options, limits, maxTotal).scan.attempted), limits,
                   NonNegative(options.maxImages), NonNegative(maxTotal))
  {
    var max, first := NonNegative(options.maxImages), FirstWalk(turn, options, limits, maxTotal);
    WalkBounded(turn.current, 0, limits, Allowance(max, max, NonNegative(maxTotal)), UNSCANNED, []);
    NothingOk(base, now, TextOnly(first.scan.attempted), limits, max, NonNegative(maxTotal));
  }

  /** The rest of a turn whose own images have been collected. */
  method WithOthers(store: AttachmentStore, turn: Turn, options: Options, bytes: ByteBudget, current: seq<CollectedImage>,
                    currentScan: ImageScan, ghost base: Shelf, ghost first: Walk)
    returns (r: Result<TurnImages, ()>, ghost s: Surfaces, ghost at: Option<Path>)
    requires store.Valid() && Holds(base, store.Now(), current) && options.maxImages > 0
    requires first == FirstWalk(turn, options, store.limits, store.maxTotal) && first.kept == Keeps(current)
    requires bytes.remaining == first.allowance.bytes && currentScan.Now() == first.scan
    modifies store, bytes
    ensures store.Valid()
    ensures Ended(OtherCourse(turn, options, store.limits, first.kept, first.allowance.bytes, first.scan), options, base,
                  store.Now(), r, s, at)
    ensures r.Success? ==>
      TurnOk(base, store.Now(), r.value, store.limits, NonNegative(options.maxImages), NonNegative(store.maxTotal))
    ensures PeakOk(old(store.Now()), store.Now(), old(bytes.remaining), store.limits.Derivative())
  {
    var allScan := currentScan.Copy();
    var surfaces;
    surfaces, at := OtherSurfaces(store, turn, options, bytes, current, allScan, base);
    s := Surfaces([], [], []);
    if surfaces.Failure? {
      return Failure(()), s, at;
    }
    var found := surfaces.value;
    s := found;
    ShownOk(turn, options, store.limits, store.maxTotal, base, store.Now(), found, first, first.scan, allScan.issues);
    var maximum := Max(0, options.maxImages);
    CurrentWithin(turn, options, store.limits, store.maxTotal, current);
    var vision := Vision(found.current, Extras(found, options), options.historyHashes, maximum);
    r := Success(TurnImages(vision, EditTarget(found), CleanupPaths(AllOf(found)), currentScan.ids,
                            currentScan.attempted && found.current == [], allScan.issues));
  }

  lemma CurrentWithin(turn: Turn, options: Options, limits: Limits, maxTotal: int, current: seq<CollectedImage>)
    requires FirstWalk(turn, options, limits, maxTotal).kept == Keeps(current)
    ensures |current| <= NonNegative(options.maxImages)
  {
    var max := NonNegative(options.maxImages);
    WalkBounded(turn.current, 0, limits, Allowance(max, max, NonNegative(maxTotal)), UNSCANNED, []);
    assert |Keeps(current)| == |current|;
  }
}
