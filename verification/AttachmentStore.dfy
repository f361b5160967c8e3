/** What saving one attachment can come to (bot/agent/attachments.py). */
module StagedFiles {
  import opened Wrappers
  import opened MapSums

  /** Every staged file has a random name of its own. */
  type Path = nat

  /** A source as downloaded, or the derivative that normalization makes of one. */
  datatype File = Source(bytes: nat) | Derivative(bytes: nat)

  // ----- how much is staged

  /** The size of a file if it is of this kind. */
  function Size(f: File, derived: bool): nat {
    if f.Derivative? == derived then f.bytes else 0
  }

  /** What the files of a kind hold together. */
  ghost function Weight(files: map<Path, File>, derived: bool): nat
    decreases |files|
  {
    if exists p :: p in files then
      var p :| p in files;
      SmallerWithout(files, p);
      Size(files[p], derived) + Weight(files - {p}, derived)
    else 0
  }

  /** Any file may be split off. */
  lemma {:induction false} WeightSplits(files: map<Path, File>, derived: bool, p: Path)
    requires p in files
    ensures Weight(files, derived) == Size(files[p], derived) + Weight(files - {p}, derived)
    decreases |files|
  {
    var q :| q in files && Weight(files, derived) == Size(files[q], derived) + Weight(files - {q}, derived);
    if q != p {
      SmallerWithout(files, q);
      SmallerWithout(files, p);
      WeightSplits(files - {q}, derived, p);
      WeightSplits(files - {p}, derived, q);
      assert files - {q} - {p} == files - {p} - {q};
    }
  }

  lemma WeightPut(files: map<Path, File>, derived: bool, p: Path, f: File)
    requires p !in files
    ensures Weight(files[p := f], derived) == Weight(files, derived) + Size(f, derived)
  {
    WeightSplits(files[p := f], derived, p);
    assert files[p := f] - {p} == files;
  }

  // ----- a cancelled disk step beside its cleanup

  /** The directory of a message as far as one save is concerned: whether it exists, and
      the sizes under the temporary and the final name. `linked` says that the handle the
      thread holds is the file under the temporary name. */
  datatype Dir = Dir(present: bool, temporary: Option<nat>, final: Option<nat>, linked: bool)

  /** The steps of the cleanup: both names are unlinked and an empty directory is pruned.
      The steps of the thread: it makes the directory and creates the temporary file, or
      opens it for appending and writes, or renames it. */
  datatype FileStep =
    | UnlinkTemporary | UnlinkFinal | Prune
    | MakeDirectory | Create | Open | Append(bytes: nat) | Rename | Harden

  const CLEANUP: seq<FileStep> := [UnlinkTemporary, UnlinkFinal, Prune]

  /** `others` says that files of other saves are in the directory. */
  function Do(d: Dir, step: FileStep, others: bool): Dir {
    match step
    case UnlinkTemporary => d.(temporary := None, linked := false)
    case UnlinkFinal => d.(final := None)
    case Prune => if d.temporary.None? && d.final.None? && !others then d.(present := false) else d
    case MakeDirectory => d.(present := true)
    case Create => if d.present && d.temporary.None? then d.(temporary := Some(0)) else d
    case Open =>
      if d.present then d.(temporary := if d.temporary.None? then Some(0) else d.temporary, linked := true) else d
    case Append(n) => if d.linked && d.temporary.Some? then d.(temporary := Some(d.temporary.value + n)) else d
    case Rename => if d.temporary.Some? then d.(temporary := None, final := d.temporary) else d
    case Harden => d
  }

  function DoAll(d: Dir, steps: seq<FileStep>, others: bool): Dir
    decreases |steps|
  {
    if steps == [] then d else DoAll(Do(d, steps[0], others), steps[1..], others)
  }

  /** What a thread is at: preparing the temporary file, appending a chunk to what is
      written already, or renaming it. */
  datatype Job = Preparing | Appending(written: nat, bytes: nat) | Renaming(written: nat)

  function FirstStep(job: Job): FileStep {
    match job
    case Preparing => MakeDirectory
    case Appending(_, _) => Open
    case Renaming(_) => Rename
  }

  function SecondStep(job: Job): FileStep {
    match job
    case Preparing => Create
    case Appending(_, n) => Append(n)
    case Renaming(_) => Harden
  }

  function AtCancel(job: Job, others: bool): Dir {
    match job
    case Preparing => Dir(others, None, None, false)
    case Appending(written, _) => Dir(true, Some(written), None, false)
    case Renaming(written) => Dir(true, Some(written), None, false)
  }

  /** How a thread that goes on after its cancellation falls in with the cleanup: how many
      steps of the cleanup come before its first and before its second step. */
  datatype Race = Race(first: nat, second: nat, others: bool)

  function FirstAt(race: Race): nat {
    if race.first < 3 then race.first else 3
  }

  function SecondAt(race: Race): nat {
    if race.second < FirstAt(race) then FirstAt(race) else if race.second < 3 then race.second else 3
  }

  function Interleaved(job: Job, race: Race): seq<FileStep> {
    CLEANUP[..FirstAt(race)] + [FirstStep(job)] + CLEANUP[FirstAt(race)..SecondAt(race)] + [SecondStep(job)] + CLEANUP[SecondAt(race)..]
  }

  /** The file that is there in the end; no race stands for a thread that never began. */
  function LeftBehind(job: Job, race: Option<Race>): Option<nat> {
    var d := match race
             case None => DoAll(AtCancel(job, false), CLEANUP, false)
             case Some(r) => DoAll(AtCancel(job, r.others), Interleaved(job, r), r.others);
    if d.temporary.Some? then d.temporary else d.final
  }

  /** When the thread's file outlives the cleanup. A preparation does unless it is done
      before the cleanup began, or its directory is pruned under it. An append does if it
      opens the file only after it was unlinked and while the directory is there. */
  predicate Outlives(job: Job, race: Race) {
    match job
    case Preparing => SecondAt(race) >= 1 && (SecondAt(race) <= 2 || FirstAt(race) == 3 || race.others)
    case Appending(_, _) => FirstAt(race) >= 1 && (FirstAt(race) <= 2 || race.others)
    case Renaming(_) => false
  }

  lemma DoFirst(d: Dir, step: FileStep, rest: seq<FileStep>, others: bool)
    ensures DoAll(d, [step] + rest, others) == DoAll(Do(d, step, others), rest, others)
  {
    assert ([step] + rest)[1..] == rest;
  }

  lemma DoThree(d: Dir, a: FileStep, b: FileStep, c: FileStep, others: bool)
    ensures DoAll(d, [a, b, c], others) == Do(Do(Do(d, a, others), b, others), c, others)
  {
    assert [a, b, c] == [a] + [b, c] && [b, c] == [b] + [c] && [c] == [c] + [];
    DoFirst(d, a, [b, c], others);
    DoFirst(Do(d, a, others), b, [c], others);
    DoFirst(Do(Do(d, a, others), b, others), c, [], others);
  }

  lemma DoFive(d: Dir, a: FileStep, b: FileStep, c: FileStep, e: FileStep, f: FileStep, others: bool)
    ensures DoAll(d, [a, b, c, e, f], others) == Do(Do(Do(Do(Do(d, a, others), b, others), c, others), e, others), f, others)
  {
    assert [a, b, c, e, f] == [a] + [b, c, e, f] && [b, c, e, f] == [b] + [c, e, f];
    DoFirst(d, a, [b, c, e, f], others);
    DoFirst(Do(d, a, others), b, [c, e, f], others);
    DoThree(Do(Do(d, a, others), b, others), c, e, f, others);
  }

  lemma InterleavedIs(job: Job, race: Race)
    ensures var x, y := FirstStep(job), SecondStep(job); var u, v, w := UnlinkTemporary, UnlinkFinal, Prune;
      Interleaved(job, race) ==
        match FirstAt(race)
        case 0 =>
          (match SecondAt(race) case 0 => [x, y, u, v, w] case 1 => [x, u, y, v, w] case 2 => [x, u, v, y, w] case _ => [x, u, v, w, y])
        case 1 => (match SecondAt(race) case 1 => [u, x, y, v, w] case 2 => [u, x, v, y, w] case _ => [u, x, v, w, y])
        case 2 => (match SecondAt(race) case 2 => [u, v, x, y, w] case _ => [u, v, x, w, y])
        case _ => [u, v, w, x, y]
  {
  }

  /** What a race comes to, step by step. */
  function RaceEnd(job: Job, race: Race): Dir {
    var s := Interleaved(job, race);
    Do(Do(Do(Do(Do(AtCancel(job, race.others), s[0], race.others), s[1], race.others), s[2], race.others), s[3], race.others),
       s[4], race.others)
  }

  lemma RaceEnds(job: Job, race: Race)
    ensures DoAll(AtCancel(job, race.others), Interleaved(job, race), race.others) == RaceEnd(job, race)
  {
    var s := Interleaved(job, race);
    assert s == [s[0], s[1], s[2], s[3], s[4]];
    DoFive(AtCancel(job, race.others), s[0], s[1], s[2], s[3], s[4], race.others);
  }

  lemma PreparingEnds(race: Race)
    ensures var d := RaceEnd(Preparing, race);
      d.final.None? && d.temporary == if Outlives(Preparing, race) then Some(0) else None
  {
    InterleavedIs(Preparing, race);
  }

  lemma AppendingEnds(written: nat, bytes: nat, race: Race)
    ensures var d := RaceEnd(Appending(written, bytes), race);
      d.final.None? && d.temporary == if Outlives(Appending(written, bytes), race) then Some(bytes) else None
  {
    InterleavedIs(Appending(written, bytes), race);
  }

  lemma RenamingEnds(written: nat, race: Race)
    ensures RaceEnd(Renaming(written), race).temporary.None? && RaceEnd(Renaming(written), race).final.None?
  {
    InterleavedIs(Renaming(written), race);
  }

  /** The file that a cancelled step leaves. */
  function Left(job: Job, race: Option<Race>): Option<nat> {
    if race.Some? && Outlives(job, race.value) then Some(if job.Appending? then job.bytes else 0) else None
  }

  /** The steps leave an empty file, or the chunk that was appended, exactly then. */
  lemma LeftBehindIff(job: Job, race: Option<Race>)
    ensures LeftBehind(job, race) == Left(job, race)
  {
    if race.None? {
      DoThree(AtCancel(job, false), UnlinkTemporary, UnlinkFinal, Prune, false);
    } else {
      RaceEnds(job, race.value);
      match job {
        case Preparing => PreparingEnds(race.value);
        case Appending(written, bytes) => AppendingEnds(written, bytes, race.value);
        case Renaming(written) => RenamingEnds(written, race.value);
      }
    }
  }

  /** So for a cancelled preparation or append some schedule leaves a file, for a
      cancelled rename none does; none does either once the thread is waited for. */
  lemma SomeRaceLeavesIff(job: Job)
    ensures (exists race :: LeftBehind(job, Some(race)).Some?) <==> !job.Renaming?
    ensures forall others :: LeftBehind(job, Some(Race(0, 0, others))) == None
  {
    LeftBehindIff(job, Some(Race(1, 1, false)));
    forall race ensures LeftBehind(job, Some(race)).Some? <==> Outlives(job, race) {
      LeftBehindIff(job, Some(race));
    }
  }

  // ----- one save

  /** Where a streamed save is interrupted, if anywhere: before the response is there,
      before a chunk arrives (or the end of the stream), or in a disk step: 0 prepares the
      temporary file, `k + 1` appends chunk `k`, and the last renames. */
  datatype Fault =
    | NoFault
    | AtRequest(cancelled: bool)
    | AtSource(chunk: nat, cancelled: bool)
    | AtDisk(step: nat, cancelled: bool, race: Option<Race>)

  datatype BodyFault = NoBodyFault | ReadFails(cancelled: bool) | StagingFails(cancelled: bool)

  /** A stream of chunk sizes with the length its header declares, a body read at once, or
      no safe source at all. */
  datatype Origin = Stream(chunks: seq<nat>, declared: Option<nat>, fault: Fault) | Body(size: nat, failure: BodyFault) | Unsafe

  /** `leaves` is the size of a temporary file that outlives a cancelled save. */
  datatype Outcome =
    | Saved(bytes: nat)
    | TooLarge(downloaded: nat)
    | DownloadFailed(downloaded: nat)
    | OtherFailure
    | Cancelled(leaves: Option<nat>)

  function Interrupted(cancelled: bool, seen: nat): Outcome {
    if cancelled then Cancelled(None) else DownloadFailed(seen)
  }

  function InterruptedOnDisk(f: Fault, job: Job, seen: nat): Outcome
    requires f.AtDisk?
  {
    if f.cancelled then Cancelled(Left(job, f.race)) else DownloadFailed(seen)
  }

  predicate AtStep(f: Fault, step: nat) {
    f.AtDisk? && f.step == step
  }

  predicate Refused(declared: Option<nat>, max: nat) {
    declared.Some? && declared.value > max
  }

  /** The stream from chunk `k` on, after `seen` bytes. */
  function StreamFrom(chunks: seq<nat>, f: Fault, max: nat, k: nat, seen: nat): Outcome
    requires k <= |chunks|
    decreases |chunks| - k
  {
    if f.AtSource? && f.chunk == k then Interrupted(f.cancelled, seen)
    else if k == |chunks| then
      if seen == 0 then DownloadFailed(0)
      else if AtStep(f, k + 1) then InterruptedOnDisk(f, Renaming(seen), seen)
      else Saved(seen)
    else if chunks[k] == 0 then StreamFrom(chunks, f, max, k + 1, seen)
    else if seen + chunks[k] > max then TooLarge(seen + chunks[k])
    else if AtStep(f, k + 1) then InterruptedOnDisk(f, Appending(seen, chunks[k]), seen + chunks[k])
    else StreamFrom(chunks, f, max, k + 1, seen + chunks[k])
  }

  function StreamOutcome(chunks: seq<nat>, declared: Option<nat>, f: Fault, max: nat): Outcome {
    if AtStep(f, 0) then InterruptedOnDisk(f, Preparing, 0)
    else if f.AtRequest? then Interrupted(f.cancelled, 0)
    else if Refused(declared, max) then TooLarge(0)
    else StreamFrom(chunks, f, max, 0, 0)
  }

  function SaveOutcome(source: Origin, max: int): Outcome {
    if max <= 0 then TooLarge(0)
    else
      match source
      case Unsafe => OtherFailure
      case Body(size, failure) =>
        if failure.ReadFails? then (if failure.cancelled then Cancelled(None) else OtherFailure)
        else if size > max then TooLarge(0)
        else if failure.StagingFails? then (if failure.cancelled then Cancelled(None) else OtherFailure)
        else Saved(size)
      case Stream(chunks, declared, f) => StreamOutcome(chunks, declared, f, max)
  }

  /** The bytes of the first `k` chunks. */
  function Prefix(chunks: seq<nat>, k: nat): nat
    requires k <= |chunks|
  {
    if k == 0 then 0 else Prefix(chunks, k - 1) + chunks[k - 1]
  }

  lemma {:induction false} PrefixGrows(chunks: seq<nat>, j: nat, k: nat)
    requires j <= k <= |chunks|
    ensures Prefix(chunks, j) <= Prefix(chunks, k)
    decreases k - j
  {
    if j < k {
      PrefixGrows(chunks, j, k - 1);
    }
  }

  /** What the outcomes of a save accept, however large its limit. */
  predicate Within(o: Outcome, max: nat) {
    && (o.Saved? ==> o.bytes <= max)
    && (o.DownloadFailed? ==> o.downloaded <= max)
    && (o.Cancelled? && o.leaves.Some? ==> o.leaves.value <= max)
  }

  lemma InterruptWithin(f: Fault, job: Job, seen: nat, max: nat)
    requires f.AtDisk? && seen <= max && (job.Appending? ==> job.bytes <= max)
    ensures Within(InterruptedOnDisk(f, job, seen), max)
  {
  }

  lemma {:induction false} StreamBounded(chunks: seq<nat>, f: Fault, max: nat, k: nat, seen: nat)
    requires k <= |chunks| && seen <= max
    ensures var o := StreamFrom(chunks, f, max, k, seen);
      && Within(o, max) && (o.Saved? ==> 0 < o.bytes) && (o.TooLarge? ==> o.downloaded > max)
    decreases |chunks| - k
  {
    if f.AtSource? && f.chunk == k {
    } else if k == |chunks| {
      if seen > 0 && AtStep(f, k + 1) {
        InterruptWithin(f, Renaming(seen), seen, max);
      }
    } else if seen + chunks[k] <= max {
      if chunks[k] > 0 && AtStep(f, k + 1) {
        InterruptWithin(f, Appending(seen, chunks[k]), seen + chunks[k], max);
      } else {
        StreamBounded(chunks, f, max, k + 1, seen + chunks[k]);
      }
    }
  }

  /** No outcome accepts more than the limit, whatever the source does. */
  lemma OutcomeBounded(source: Origin, max: int)
    ensures var o := SaveOutcome(source, max); Within(o, if max < 0 then 0 else max)
  {
    if max > 0 && source.Stream? {
      if AtStep(source.fault, 0) {
        InterruptWithin(source.fault, Preparing, 0, max);
      } else {
        StreamBounded(source.chunks, source.fault, max, 0, 0);
      }
    }
  }

  lemma {:induction false} StreamWhole(chunks: seq<nat>, max: nat, k: nat)
    requires k <= |chunks| && Prefix(chunks, k) <= max
    ensures StreamFrom(chunks, NoFault, max, k, Prefix(chunks, k)) == Saved(Prefix(chunks, |chunks|))
      <==> 0 < Prefix(chunks, |chunks|) <= max
    decreases |chunks| - k
  {
    if k < |chunks| {
      PrefixGrows(chunks, k + 1, |chunks|);
      if Prefix(chunks, k + 1) <= max {
        StreamWhole(chunks, max, k + 1);
      }
    }
  }

  /** An undisturbed stream is saved whole exactly when it is not empty, fits, and does not
      declare more than fits. */
  lemma SavedIffFits(chunks: seq<nat>, declared: Option<nat>, max: int)
    requires max > 0
    ensures SaveOutcome(Stream(chunks, declared, NoFault), max) == Saved(Prefix(chunks, |chunks|))
      <==> 0 < Prefix(chunks, |chunks|) <= max && !Refused(declared, max)
  {
    StreamWhole(chunks, max, 0);
  }

  /** A stream that is not cut short for its size meets its fault behind the first `k`
      chunks: empty chunks are not appended. */
  predicate Meets(chunks: seq<nat>, f: Fault, k: nat) {
    match f
    case NoFault => false
    case AtRequest(_) => k == 0
    case AtSource(chunk, _) => k <= chunk <= |chunks|
    case AtDisk(step, _, _) =>
      (step == 0 && k == 0) || (step > k && (step == |chunks| + 1 || (step <= |chunks| && chunks[step - 1] > 0)))
  }

  lemma {:induction false} StreamSavedIff(chunks: seq<nat>, f: Fault, max: nat, k: nat)
    requires k <= |chunks| && Prefix(chunks, k) <= max && !f.AtRequest? && !AtStep(f, 0)
    ensures var o := StreamFrom(chunks, f, max, k, Prefix(chunks, k)); var all := Prefix(chunks, |chunks|);
      && (o.Saved? <==> !Meets(chunks, f, k) && 0 < all <= max) && (o.Saved? ==> o.bytes == all)
    decreases |chunks| - k
  {
    if k < |chunks| {
      PrefixGrows(chunks, k + 1, |chunks|);
      if Prefix(chunks, k + 1) <= max {
        StreamSavedIff(chunks, f, max, k + 1);
      }
    }
  }

  /** All that a source has to give. */
  function SizeOf(source: Origin): nat {
    match source
    case Stream(chunks, _, _) => Prefix(chunks, |chunks|)
    case Body(size, _) => size
    case Unsafe => 0
  }

  /** Nothing happens to a source on its way. */
  predicate Clean(source: Origin) {
    match source
    case Stream(chunks, _, f) => !Meets(chunks, f, 0)
    case Body(_, failure) => failure.NoBodyFault?
    case Unsafe => false
  }

  /** A source fits a limit, and so does what it declares; no empty stream does. */
  predicate FitsIn(source: Origin, max: int) {
    && SizeOf(source) <= max
    && (source.Stream? ==> 0 < SizeOf(source) && (source.declared.Some? ==> source.declared.value <= max))
  }

  /** Any source is saved, and then whole, exactly when it is clean and fits. */
  lemma SavedIff(source: Origin, max: int)
    requires max > 0
    ensures SaveOutcome(source, max).Saved? <==> Clean(source) && FitsIn(source, max)
    ensures SaveOutcome(source, max).Saved? ==> SaveOutcome(source, max).bytes == SizeOf(source)
  {
    if source.Stream? && !source.fault.AtRequest? && !AtStep(source.fault, 0) {
      StreamSavedIff(source.chunks, source.fault, max, 0);
    }
  }

  lemma {:induction false} StreamTooLargeIff(chunks: seq<nat>, f: Fault, max: nat, k: nat)
    requires k <= |chunks| && Prefix(chunks, k) <= max && !f.AtRequest? && !AtStep(f, 0) && !Meets(chunks, f, k)
    ensures var o := StreamFrom(chunks, f, max, k, Prefix(chunks, k)); o.TooLarge? <==> Prefix(chunks, |chunks|) > max
    decreases |chunks| - k
  {
    if k < |chunks| {
      PrefixGrows(chunks, k + 1, |chunks|);
      if Prefix(chunks, k + 1) <= max {
        StreamTooLargeIff(chunks, f, max, k + 1);
      }
    }
  }

  /** A clean source is refused as too large exactly when it or what it declares is. */
  lemma TooLargeIff(source: Origin, max: int)
    requires max > 0 && Clean(source)
    ensures SaveOutcome(source, max).TooLarge? <==>
      SizeOf(source) > max || (source.Stream? && source.declared.Some? && source.declared.value > max)
  {
    if source.Stream? {
      StreamTooLargeIff(source.chunks, source.fault, max, 0);
    }
  }

  /** What an outcome has downloaded. */
  function Downloaded(o: Outcome): nat {
    match o
    case Saved(bytes) => bytes
    case TooLarge(downloaded) => downloaded
    case DownloadFailed(downloaded) => downloaded
    case OtherFailure => 0
    case Cancelled(_) => 0
  }

  lemma {:induction false} StreamDownloads(chunks: seq<nat>, f: Fault, max: nat, k: nat)
    requires k <= |chunks|
    ensures Downloaded(StreamFrom(chunks, f, max, k, Prefix(chunks, k))) <= Prefix(chunks, |chunks|)
    decreases |chunks| - k
  {
    PrefixGrows(chunks, k, |chunks|);
    if k < |chunks| {
      PrefixGrows(chunks, k + 1, |chunks|);
      StreamDownloads(chunks, f, max, k + 1);
    }
  }

  lemma DownloadedWithin(source: Origin, max: int)
    ensures Downloaded(SaveOutcome(source, max)) <= SizeOf(source)
  {
    if source.Stream? && max > 0 {
      StreamDownloads(source.chunks, source.fault, max, 0);
    }
  }

  /** The stream gets as far as this preparation or append. */
  predicate Reaches(chunks: seq<nat>, declared: Option<nat>, max: nat, step: nat) {
    && step <= |chunks|
    && (step > 0 ==> !Refused(declared, max) && chunks[step - 1] > 0 && Prefix(chunks, step) <= max)
  }

  /** What the thread of a disk step is at. */
  function JobAt(chunks: seq<nat>, step: nat): Job
    requires step <= |chunks|
  {
    if step == 0 then Preparing else Appending(Prefix(chunks, step - 1), chunks[step - 1])
  }

  /** A cancellation lands in a preparation or append that the stream reaches, and the
      thread's file outlives the cleanup. */
  predicate LateWrite(chunks: seq<nat>, declared: Option<nat>, f: Fault, max: nat) {
    && f.AtDisk? && f.cancelled && f.race.Some?
    && Reaches(chunks, declared, max, f.step) && Outlives(JobAt(chunks, f.step), f.race.value)
  }

  predicate Leaves(o: Outcome) {
    o.Cancelled? && o.leaves.Some?
  }

  lemma InterruptLeaves(f: Fault, job: Job, seen: nat)
    requires f.AtDisk?
    ensures Leaves(InterruptedOnDisk(f, job, seen)) <==> f.cancelled && f.race.Some? && Outlives(job, f.race.value)
  {
  }

  lemma {:induction false} StreamLeavesIff(chunks: seq<nat>, f: Fault, max: nat, k: nat)
    requires k <= |chunks| && Prefix(chunks, k) <= max
    ensures Leaves(StreamFrom(chunks, f, max, k, Prefix(chunks, k))) <==> f.AtDisk? && f.step > k && LateWrite(chunks, None, f, max)
    decreases |chunks| - k
  {
    if f.AtDisk? {
      if k == |chunks| {
        InterruptLeaves(f, Renaming(Prefix(chunks, k)), Prefix(chunks, k));
      } else if Prefix(chunks, k + 1) > max {
        if k < f.step <= |chunks| {
          PrefixGrows(chunks, k + 1, f.step);
        }
      } else if f.step == k + 1 && chunks[k] > 0 {
        InterruptLeaves(f, Appending(Prefix(chunks, k), chunks[k]), Prefix(chunks, k + 1));
      } else {
        StreamLeavesIff(chunks, f, max, k + 1);
      }
    } else if k < |chunks| && Prefix(chunks, k + 1) <= max {
      StreamLeavesIff(chunks, f, max, k + 1);
    }
  }

  /** A save leaves a file behind exactly then; a body read at once never does. */
  lemma LeavesIffLateWrite(source: Origin, max: int)
    requires max > 0
    ensures Leaves(SaveOutcome(source, max)) <==>
      source.Stream? && LateWrite(source.chunks, source.declared, source.fault, max)
  {
    if source.Stream? {
      if AtStep(source.fault, 0) {
        InterruptLeaves(source.fault, Preparing, 0);
      } else {
        StreamLeavesIff(source.chunks, source.fault, max, 0);
      }
    }
  }

  /** Whatever the schedule: a cancellation in a disk step may leave a file if and only if
      it lands in a preparation or an append that the stream reaches. */
  lemma MayLeaveIff(chunks: seq<nat>, declared: Option<nat>, step: nat, max: int)
    requires max > 0
    ensures (exists race :: Leaves(SaveOutcome(Stream(chunks, declared, AtDisk(step, true, Some(race))), max)))
      <==> Reaches(chunks, declared, max, step)
  {
    forall race ensures Leaves(SaveOutcome(Stream(chunks, declared, AtDisk(step, true, Some(race))), max))
      <==> LateWrite(chunks, declared, AtDisk(step, true, Some(race)), max)
    {
      LeavesIffLateWrite(Stream(chunks, declared, AtDisk(step, true, Some(race))), max);
    }
    if Reaches(chunks, declared, max, step) {
      assert Leaves(SaveOutcome(Stream(chunks, declared, AtDisk(step, true, Some(Race(1, 1, false)))), max));
    }
  }
}

module AttachmentStorage {
  import opened Wrappers
  import opened Sequences
  import opened StagedFiles

  function Max(a: int, b: int): int {
    if a < b then b else a
  }

  /** The files after a save under this name. */
  function LeftBy(base: map<Path, File>, path: Path, o: Outcome): map<Path, File> {
    if o.Saved? then base[path := Source(o.bytes)]
    else if Leaves(o) then base[path := Source(o.leaves.value)]
    else base
  }

  function BytesLeft(o: Outcome): nat {
    if o.Saved? then o.bytes else if Leaves(o) then o.leaves.value else 0
  }

  /** `source_max_bytes` and `max_bytes`. */
  datatype Limits = Limits(source: int, processed: int)
  {
    /** What a derivative may have at most. */
    function Derivative(): nat {
      if processed < 0 then 0 else if processed < 4194304 then processed else 4194304
    }
  }

  /** The staging area at one moment: its files, the next name, the bytes of sources and
      derivatives it holds, and the most of each it has held since the peaks were set. */
  datatype Shelf = Shelf(disk: map<Path, File>, next: Path, sources: nat, derived: nat, sourcePeak: nat, derivedPeak: nat)

  /** The accounts are those of the files. */
  ghost predicate Counted(s: Shelf) {
    s.sources == Weight(s.disk, false) && s.derived == Weight(s.disk, true)
  }

  /** So much has come on top. */
  ghost predicate Gained(base: Shelf, now: Shelf, sources: nat, derived: nat) {
    now.sources == base.sources + sources && now.derived == base.derived + derived
  }

  /** The peaks have grown, if at all, to no more than so much above the base. */
  ghost predicate PeakOk(base: Shelf, now: Shelf, sources: nat, derived: nat) {
    && base.sourcePeak <= now.sourcePeak && base.derivedPeak <= now.derivedPeak
    && (now.sourcePeak <= base.sourcePeak || now.sourcePeak <= base.sources + sources)
    && (now.derivedPeak <= base.derivedPeak || now.derivedPeak <= base.derived + derived)
  }

  /** The same moment with the peaks counted from it. */
  function Fresh(s: Shelf): Shelf {
    s.(sourcePeak := s.sources, derivedPeak := s.derived)
  }

  /** An operation whose own peaks have been joined to those of the whole. */
  lemma JoinedStreamed(base: Shelf, mid: Shelf, now: Shelf, path: Path, o: Outcome, max: nat)
    requires Streamed(Fresh(base).(next := mid.next), mid, path, o, max)
    requires now == mid.(sourcePeak := Max(base.sourcePeak, mid.sourcePeak), derivedPeak := Max(base.derivedPeak, mid.derivedPeak))
    requires base.derived <= base.derivedPeak
    ensures Streamed(base.(next := now.next), now, path, o, max)
  {
  }

  /** A stream in progress: `seen` bytes of it are in the temporary file. */
  ghost predicate Streaming(base: Shelf, now: Shelf, temporary: Path, seen: nat, max: nat) {
    && temporary !in base.disk && now.disk == base.disk[temporary := Source(seen)] && now.next == base.next
    && Gained(base, now, seen, 0) && PeakOk(base, now, max, 0)
  }

  /** How a save has ended. */
  ghost predicate Streamed(base: Shelf, now: Shelf, temporary: Path, o: Outcome, max: nat) {
    && now.disk == LeftBy(base.disk, temporary, o) && now.next == base.next
    && Gained(base, now, BytesLeft(o), 0) && PeakOk(base, now, max, 0)
  }

  /** One more file. */
  ghost predicate Placed(before: Shelf, now: Shelf, p: Path, f: File) {
    && now.disk == before.disk[p := f] && now.next == before.next
    && Gained(before, now, Size(f, false), Size(f, true)) && PeakOk(before, now, Size(f, false), Size(f, true))
  }

  /** A shelf as before a save; its peaks may have grown meanwhile. */
  ghost predicate Restored(base: Shelf, now: Shelf, max: nat) {
    now.disk == base.disk && now.next == base.next && Gained(base, now, 0, 0) && PeakOk(base, now, max, 0)
  }

  lemma NothingStreamed(base: Shelf, now: Shelf, temporary: Path, o: Outcome, max: nat)
    requires Restored(base, now, max) && !o.Saved? && !Leaves(o)
    ensures Streamed(base, now, temporary, o, max)
  {
  }

  lemma LeftStreamed(base: Shelf, mid: Shelf, now: Shelf, temporary: Path, o: Outcome, max: nat)
    requires Restored(base, mid, max) && Leaves(o) && o.leaves.value <= max
    requires Placed(mid, now, temporary, Source(o.leaves.value))
    ensures Streamed(base, now, temporary, o, max)
  {
  }

  lemma SavedStreamed(base: Shelf, now: Shelf, temporary: Path, seen: nat, max: nat)
    requires Streaming(base, now, temporary, seen, max)
    ensures Streamed(base, now, temporary, Saved(seen), max)
  {
  }

  lemma PlacedStreams(base: Shelf, mid: Shelf, now: Shelf, temporary: Path, seen: nat, max: nat)
    requires Restored(base, mid, max) && temporary !in base.disk && seen <= max
    requires Placed(mid, now, temporary, Source(seen))
    ensures Streaming(base, now, temporary, seen, max)
  {
  }

  class AttachmentStore {
    const limits: Limits
    const maxTotal: int
    var disk: map<Path, File>
    var next: Path
    ghost var sources: nat
    ghost var derived: nat
    ghost var sourcePeak: nat
    ghost var derivedPeak: nat

    ghost function Now(): Shelf
      reads this
    {
      Shelf(disk, next, sources, derived, sourcePeak, derivedPeak)
    }

    /** The accounts are those of the files, and names that will be drawn are not in use. */
    ghost predicate Valid()
      reads this
    {
      && Counted(Now()) && sources <= sourcePeak && derived <= derivedPeak
      && forall p :: p in disk ==> p < next
    }

    constructor (limits: Limits, maxTotal: int)
      ensures Valid() && disk == map[] && this.limits == limits && this.maxTotal == maxTotal
    {
      this.limits, this.maxTotal := limits, maxTotal;
      disk, next := map[], 0;
      sources, derived, sourcePeak, derivedPeak := 0, 0, 0, 0;
    }

    /** Counts the peaks from now on. */
    ghost method SetPeaks()
      requires Valid()
      modifies this`sourcePeak, this`derivedPeak
      ensures Valid() && Now() == Fresh(old(Now()))
    {
      sourcePeak, derivedPeak := sources, derived;
    }

    /** Takes the peaks of an operation as part of those counted before it. */
    ghost method JoinPeaks(before: Shelf)
      requires Valid()
      modifies this`sourcePeak, this`derivedPeak
      ensures Valid()
      ensures Now() == old(Now()).(sourcePeak := Max(before.sourcePeak, old(sourcePeak)), derivedPeak := Max(before.derivedPeak, old(derivedPeak)))
    {
      sourcePeak, derivedPeak := Max(before.sourcePeak, sourcePeak), Max(before.derivedPeak, derivedPeak);
    }

    /** A new file. */
    method Put(p: Path, f: File)
      requires Valid() && p !in disk && p < next
      modifies this`disk, this`sources, this`derived, this`sourcePeak, this`derivedPeak
      ensures Valid() && Placed(old(Now()), Now(), p, f)
    {
      WeightPut(disk, false, p, f);
      WeightPut(disk, true, p, f);
      disk := disk[p := f];
      sources, derived := sources + Size(f, false), derived + Size(f, true);
      sourcePeak, derivedPeak := Max(sourcePeak, sources), Max(derivedPeak, derived);
    }

    method Drop(p: Path)
      requires Valid()
      modifies this`disk, this`sources, this`derived
      ensures Valid() && disk == old(disk) - {p} && sources <= old(sources) && derived <= old(derived)
      ensures p in old(disk) ==>
        sources + Size(old(disk)[p], false) == old(sources) && derived + Size(old(disk)[p], true) == old(derived)
    {
      if p in disk {
        WeightSplits(disk, false, p);
        WeightSplits(disk, true, p);
        sources, derived := sources - Size(disk[p], false), derived - Size(disk[p], true);
      }
      ghost var was := disk;
      disk := disk - {p};
      assert p !in was ==> disk == was;
    }

    method Name() returns (p: Path)
      requires Valid()
      modifies this`next
      ensures Valid() && p == old(next) && next == p + 1 && p !in disk
    {
      p := next;
      next := next + 1;
    }

    /** `cleanup_attachment_paths`. */
    method Cleanup(paths: seq<Path>)
      requires Valid()
      modifies this`disk, this`sources, this`derived
      ensures Valid() && disk == old(disk) - Elems(paths) && sources <= old(sources) && derived <= old(derived)
    {
      var i: nat := 0;
      while i < |paths|
        invariant i <= |paths| && disk == old(disk) - Before(paths, i)
        invariant Valid() && sources <= old(sources) && derived <= old(derived)
      {
        Drop(paths[i]);
        i := i + 1;
      }
      BeforeAll(paths);
    }

    function Effective(max: int): int {
      if limits.source < max then limits.source else max
    }

    /** Gives up a stream. */
    method Discard(temporary: Path, ghost base: Shelf, ghost seen: nat, ghost max: nat)
      requires Valid() && Streaming(base, Now(), temporary, seen, max)
      modifies this`disk, this`sources, this`derived
      ensures Valid() && Restored(base, Now(), max)
    {
      Drop(temporary);
      assert disk == base.disk;
    }

    /** Appends one chunk. */
    method Extend(temporary: Path, bytes: nat, ghost base: Shelf, seen: nat, ghost max: nat)
      requires Valid() && Streaming(base, Now(), temporary, seen, max) && seen + bytes <= max && temporary < next
      modifies this`disk, this`sources, this`derived, this`sourcePeak, this`derivedPeak
      ensures Valid() && Streaming(base, Now(), temporary, seen + bytes, max)
    {
      Drop(temporary);
      assert disk == base.disk;
      ghost var mid := Now();
      Put(temporary, Source(seen + bytes));
      PlacedStreams(base, mid, Now(), temporary, seen + bytes, max);
    }

    /** One turn of the loop over the chunks. */
    method AppendChunk(chunks: seq<nat>, fault: Fault, max: nat, k: nat, seen: nat, temporary: Path, ghost base: Shelf)
      returns (stop: Option<Outcome>, seen': nat)
      requires k < |chunks| && seen <= max
      requires Valid() && Streaming(base, Now(), temporary, seen, max) && temporary < next
      modifies this`disk, this`sources, this`derived, this`sourcePeak, this`derivedPeak
      ensures Valid()
      ensures stop.Some? ==>
        stop.value == StreamFrom(chunks, fault, max, k, seen) && Streamed(base, Now(), temporary, stop.value, max)
      ensures stop.None? ==>
        && seen' <= max && StreamFrom(chunks, fault, max, k, seen) == StreamFrom(chunks, fault, max, k + 1, seen')
        && Streaming(base, Now(), temporary, seen', max)
    {
      if fault.AtSource? && fault.chunk == k {
        Discard(temporary, base, seen, max);
        stop := Some(if fault.cancelled then Cancelled(None) else DownloadFailed(seen));
        NothingStreamed(base, Now(), temporary, stop.value, max);
        return stop, seen;
      }
      if chunks[k] == 0 {
        return None, seen;
      }
      if seen + chunks[k] > max {
        Discard(temporary, base, seen, max);
        stop := Some(TooLarge(seen + chunks[k]));
        NothingStreamed(base, Now(), temporary, stop.value, max);
        return stop, seen;
      }
      if fault.AtDisk? && fault.step == k + 1 {
        Discard(temporary, base, seen, max);
        var o := Interrupt(fault, Appending(seen, chunks[k]), seen + chunks[k], temporary, base, max);
        return Some(o), seen;
      }
      Extend(temporary, chunks[k], base, seen, max);
      return None, seen + chunks[k];
    }

    /** The loop over the chunks; `stop` is set when it does not reach their end. */
    method AppendChunks(chunks: seq<nat>, fault: Fault, max: nat, temporary: Path, ghost base: Shelf)
      returns (stop: Option<Outcome>, seen: nat)
      requires Valid() && Streaming(base, Now(), temporary, 0, max) && temporary < next
      modifies this`disk, this`sources, this`derived, this`sourcePeak, this`derivedPeak
      ensures Valid()
      ensures stop.Some? ==>
        stop.value == StreamFrom(chunks, fault, max, 0, 0) && Streamed(base, Now(), temporary, stop.value, max)
      ensures stop.None? ==>
        && seen <= max && StreamFrom(chunks, fault, max, 0, 0) == StreamFrom(chunks, fault, max, |chunks|, seen)
        && Streaming(base, Now(), temporary, seen, max)
    {
      seen := 0;
      var k: nat := 0;
      while k < |chunks|
        invariant k <= |chunks| && seen <= max && Valid() && Streaming(base, Now(), temporary, seen, max)
        invariant StreamFrom(chunks, fault, max, 0, 0) == StreamFrom(chunks, fault, max, k, seen)
      {
        stop, seen := AppendChunk(chunks, fault, max, k, seen, temporary, base);
        if stop.Some? {
          return;
        }
        k := k + 1;
      }
      stop := None;
    }

    /** A disk step that fails or is cancelled: its thread beside the cleanup. */
    method Interrupt(fault: Fault, job: Job, seen: nat, temporary: Path, ghost base: Shelf, ghost max: nat) returns (o: Outcome)
      requires Valid() && fault.AtDisk? && temporary !in disk && temporary < next
      requires Restored(base, Now(), max)
      requires seen <= max && (job.Appending? ==> job.bytes <= max)
      modifies this`disk, this`sources, this`derived, this`sourcePeak, this`derivedPeak
      ensures Valid() && o == InterruptedOnDisk(fault, job, seen) && Streamed(base, Now(), temporary, o, max)
    {
      if !fault.cancelled {
        o := DownloadFailed(seen);
        NothingStreamed(base, Now(), temporary, o, max);
        return;
      }
      var left := LeftBehind(job, fault.race);
      LeftBehindIff(job, fault.race);
      o := Cancelled(left);
      if left.Some? {
        ghost var mid := Now();
        Put(temporary, Source(left.value));
        LeftStreamed(base, mid, Now(), temporary, o, max);
      } else {
        NothingStreamed(base, Now(), temporary, o, max);
      }
    }

    /** The streamed part of `save`. */
    method SaveStream(chunks: seq<nat>, declared: Option<nat>, fault: Fault, max: nat, temporary: Path) returns (o: Outcome)
      requires Valid() && temporary !in disk && temporary < next
      modifies this`disk, this`sources, this`derived, this`sourcePeak, this`derivedPeak
      ensures Valid() && o == StreamOutcome(chunks, declared, fault, max) && Streamed(old(Now()), Now(), temporary, o, max)
    {
      ghost var base := Now();
      if fault.AtDisk? && fault.step == 0 {
        o := Interrupt(fault, Preparing, 0, temporary, base, max);
        return;
      }
      Put(temporary, Source(0));
      PlacedStreams(base, base, Now(), temporary, 0, max);
      if fault.AtRequest? {
        Discard(temporary, base, 0, max);
        o := if fault.cancelled then Cancelled(None) else DownloadFailed(0);
        NothingStreamed(base, Now(), temporary, o, max);
        return;
      }
      if declared.Some? && declared.value > max {
        Discard(temporary, base, 0, max);
        o := TooLarge(0);
        NothingStreamed(base, Now(), temporary, o, max);
        return;
      }
      var stop, seen := AppendChunks(chunks, fault, max, temporary, base);
      if stop.Some? {
        return stop.value;
      }
      o := FinishStream(chunks, fault, max, temporary, seen, base);
    }

    /** The end of the stream: its last file is renamed. The name is the same before and
        after the rename here. */
    method FinishStream(chunks: seq<nat>, fault: Fault, max: nat, temporary: Path, seen: nat, ghost base: Shelf)
      returns (o: Outcome)
      requires Valid() && Streaming(base, Now(), temporary, seen, max) && seen <= max && temporary < next
      modifies this`disk, this`sources, this`derived, this`sourcePeak, this`derivedPeak
      ensures Valid() && o == StreamFrom(chunks, fault, max, |chunks|, seen) && Streamed(base, Now(), temporary, o, max)
    {
      if fault.AtSource? && fault.chunk == |chunks| {
        Discard(temporary, base, seen, max);
        o := if fault.cancelled then Cancelled(None) else DownloadFailed(seen);
        NothingStreamed(base, Now(), temporary, o, max);
        return;
      }
      if seen == 0 {
        Discard(temporary, base, seen, max);
        o := DownloadFailed(0);
        NothingStreamed(base, Now(), temporary, o, max);
        return;
      }
      if fault.AtDisk? && fault.step == |chunks| + 1 {
        Discard(temporary, base, seen, max);
        o := Interrupt(fault, Renaming(seen), seen, temporary, base, max);
        return;
      }
      SavedStreamed(base, Now(), temporary, seen, max);
      o := Saved(seen);
    }

    /** `save`: at most the smaller of both limits, under a name of its own. Counted from
        its beginning, the store never holds more than that on top. */
    method Save(source: Origin, maxBytes: int) returns (o: Outcome, path: Path)
      requires Valid()
      modifies this`disk, this`sources, this`derived, this`sourcePeak, this`derivedPeak, this`next
      ensures Valid() && path == old(next) && next == path + 1
      ensures o == SaveOutcome(source, Effective(maxBytes))
      ensures Streamed(Fresh(old(Now())).(next := next), Now(), path, o, Max(0, Effective(maxBytes)))
      ensures sourcePeak <= old(sources) + Max(0, Effective(maxBytes)) && derivedPeak <= old(derived)
    {
      SetPeaks();
      path := Name();
      var max := Effective(maxBytes);
      if max <= 0 {
        return TooLarge(0), path;
      }
      match source {
        case Unsafe => o := OtherFailure;
        case Body(size, failure) =>
          if failure.ReadFails? {
            return if failure.cancelled then Cancelled(None) else OtherFailure, path;
          }
          if size > max {
            return TooLarge(0), path;
          }
          // A staging thread is awaited to its end before its file is removed.
          if failure.StagingFails? {
            return if failure.cancelled then Cancelled(None) else OtherFailure, path;
          }
          Put(path, Source(size));
          o := Saved(size);
        case Stream(chunks, declared, fault) =>
          o := SaveStream(chunks, declared, fault, max, path);
      }
    }
  }
}
