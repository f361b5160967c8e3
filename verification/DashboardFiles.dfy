/** Crash-consistent deletion of dashboard conversations (bot/app/dashboard_files.py):
    quarantine the snapshot directories, commit the deletion, remove the
    quarantines; after a process death, startup recovery finishes the job. */
module DashboardFiles {
  import opened Sequences
  import opened MapSums

  type Chat = string
  type File = string

  datatype Kind = Upload | Output

  /** The snapshot directory of a chat, or its `.deleting` sibling. */
  datatype Place = Place(chat: Chat, kind: Kind, quarantined: bool)

  type Disk = map<Place, set<File>>

  function Root(chat: Chat, kind: Kind): Place { Place(chat, kind, false) }
  function Quarantine(chat: Chat, kind: Kind): Place { Place(chat, kind, true) }

  // ----- the meaning of a disk

  /** No chat in the database has a directory both in place and quarantined, and
      no chat outside it has a directory in place. */
  ghost predicate Consistent(db: set<Chat>, disk: Disk) {
    && (forall c, k :: c in db && Root(c, k) in disk ==> Quarantine(c, k) !in disk)
    && (forall p :: p in disk && !p.quarantined ==> p.chat in db)
  }

  function RootsOf(disk: Disk): set<Place> {
    set p | p in disk :: Root(p.chat, p.kind)
  }

  /** What a disk stands for: the snapshots of the chats still in the database,
      wherever they are at the moment. */
  function Recovered(db: set<Chat>, disk: Disk): Disk {
    map p | p in RootsOf(disk) && p.chat in db ::
      if p in disk then disk[p] else if Quarantine(p.chat, p.kind) in disk then disk[Quarantine(p.chat, p.kind)] else {}
  }

  function Without(disk: Disk, chat: Chat): Disk {
    map p | p in disk && p.chat != chat :: disk[p]
  }

  function Restrict(disk: Disk, db: set<Chat>): Disk {
    map p | p in disk && p.chat in db :: disk[p]
  }

  lemma RecoveredAt(db: set<Chat>, disk: Disk, c: Chat, k: Kind)
    ensures Root(c, k) in Recovered(db, disk) <==> c in db && (Root(c, k) in disk || Quarantine(c, k) in disk)
    ensures Root(c, k) in Recovered(db, disk) ==>
      Recovered(db, disk)[Root(c, k)] == if Root(c, k) in disk then disk[Root(c, k)] else disk[Quarantine(c, k)]
  {
    if Root(c, k) in disk || Quarantine(c, k) in disk {
      var p := if Root(c, k) in disk then Root(c, k) else Quarantine(c, k);
      assert p in disk && Root(p.chat, p.kind) == Root(c, k);
    }
  }

  /** Two disks with the same meaning at every directory mean the same. */
  lemma SameMeaning(db: set<Chat>, a: Disk, db': set<Chat>, b: Disk)
    requires forall c, k :: Root(c, k) in Recovered(db, a) <==> Root(c, k) in Recovered(db', b)
    requires forall c, k :: Root(c, k) in Recovered(db, a) && Root(c, k) in Recovered(db', b) ==>
      Recovered(db, a)[Root(c, k)] == Recovered(db', b)[Root(c, k)]
    ensures Recovered(db, a) == Recovered(db', b)
  {
    forall p ensures p in Recovered(db, a) <==> p in Recovered(db', b) {
      if p in Recovered(db, a) || p in Recovered(db', b) {
        assert p == Root(p.chat, p.kind);
      }
    }
    forall p | p in Recovered(db, a) ensures Recovered(db, a)[p] == Recovered(db', b)[p] {
      assert p == Root(p.chat, p.kind);
    }
  }

  function Moved(disk: Disk, from: Place, to: Place): Disk
    requires from in disk
  {
    (disk - {from})[to := disk[from]]
  }

  /** Renaming between a directory and its quarantine keeps the meaning. */
  lemma RenameKeeps(db: set<Chat>, disk: Disk, c: Chat, k: Kind, into: bool)
    requires Consistent(db, disk) && c in db
    requires Place(c, k, !into) in disk && Place(c, k, into) !in disk
    ensures Consistent(db, Moved(disk, Place(c, k, !into), Place(c, k, into)))
    ensures Recovered(db, Moved(disk, Place(c, k, !into), Place(c, k, into))) == Recovered(db, disk)
  {
    var after := Moved(disk, Place(c, k, !into), Place(c, k, into));
    forall x, y
      ensures Root(x, y) in Recovered(db, disk) <==> Root(x, y) in Recovered(db, after)
      ensures Root(x, y) in Recovered(db, disk) && Root(x, y) in Recovered(db, after) ==>
                Recovered(db, disk)[Root(x, y)] == Recovered(db, after)[Root(x, y)]
    {
      RecoveredAt(db, disk, x, y);
      RecoveredAt(db, after, x, y);
    }
    SameMeaning(db, disk, db, after);
  }

  /** Committing the deletion of a fully quarantined chat removes its meaning. */
  lemma CommitMeaning(db: set<Chat>, disk: Disk, c: Chat)
    requires Consistent(db, disk) && forall k :: Root(c, k) !in disk
    ensures Consistent(db - {c}, disk)
    ensures Recovered(db - {c}, disk) == Without(Recovered(db, disk), c)
  {
    forall p | p in disk && !p.quarantined ensures p.chat in db - {c} {
      assert p == Root(p.chat, p.kind);
    }
    assert Recovered(db - {c}, disk).Keys == Without(Recovered(db, disk), c).Keys;
  }

  /** A quarantine of a deleted chat means nothing, whole or partly removed. */
  lemma RemovalKeeps(db: set<Chat>, disk: Disk, q: Place, disk': Disk)
    requires Consistent(db, disk) && q.quarantined && q.chat !in db
    requires disk' - {q} == disk - {q}
    ensures Consistent(db, disk') && Recovered(db, disk') == Recovered(db, disk)
  {
    forall p | p != q ensures p in disk <==> p in disk' {
      assert p in disk - {q} <==> p in disk' - {q};
    }
    forall p | p != q && p in disk ensures p in disk' && disk'[p] == disk[p] {
      assert (disk - {q})[p] == (disk' - {q})[p];
    }
    forall x, y
      ensures Root(x, y) in Recovered(db, disk) <==> Root(x, y) in Recovered(db, disk')
      ensures Root(x, y) in Recovered(db, disk) && Root(x, y) in Recovered(db, disk') ==>
                Recovered(db, disk)[Root(x, y)] == Recovered(db, disk')[Root(x, y)]
    {
      RecoveredAt(db, disk, x, y);
      RecoveredAt(db, disk', x, y);
    }
    SameMeaning(db, disk, db, disk');
  }

  /** Without a quarantine a consistent disk is what it means. */
  lemma NoQuarantine(db: set<Chat>, disk: Disk)
    requires Consistent(db, disk) && forall p :: p in disk ==> !p.quarantined
    ensures Recovered(db, disk) == disk
  {
    forall p ensures p in Recovered(db, disk) <==> p in disk {
      RecoveredAt(db, disk, p.chat, p.kind);
      assert p in disk ==> p == Root(p.chat, p.kind);
    }
  }

  /** A meaning only speaks of the chats in the database. */
  lemma RestrictSelf(db: set<Chat>, disk: Disk)
    ensures Restrict(Recovered(db, disk), db) == Recovered(db, disk)
    ensures forall c :: Without(Recovered(db, disk), c) == Restrict(Recovered(db, disk), db - {c})
  {
  }

  lemma RestrictTwice(disk: Disk, db: set<Chat>)
    ensures forall smaller: set<Chat> :: smaller <= db ==> Restrict(Restrict(disk, db), smaller) == Restrict(disk, smaller)
  {
  }

  // ----- the operations, with a process that may die, or an OS error, at every step

  /** How one durable step ends: a rename, the removal of one file or directory, or the
      store's commit. */
  datatype Step = Works | Fails | Dies

  /** Why an operation raises: a deletion that was given up and undone, an undoing or a
      removal that failed itself, or conflicting files found by a recovery. */
  datatype Cause = Refused | RestoreFailed | RemovalFailed | Conflict

  datatype End = Done | Raised(cause: Cause) | Died

  /** One operation of a process whose durable steps work or fail as `steps` says, and
      which dies after them. */
  datatype Op = Delete(chat: Chat, steps: seq<bool>) | Recover(steps: seq<bool>)

  /** `now` is `was` with the directories of `moved` kinds of a chat quarantined. */
  ghost predicate Shifted(was: Disk, now: Disk, chat: Chat, moved: set<Kind>) {
    && (forall k :: k in moved ==>
          && Root(chat, k) in was && Quarantine(chat, k) !in was
          && Root(chat, k) !in now && Quarantine(chat, k) in now && now[Quarantine(chat, k)] == was[Root(chat, k)])
    && (forall p: Place :: p.chat != chat || p.kind !in moved ==>
          (p in now <==> p in was) && (p in now && p in was ==> now[p] == was[p]))
  }

  /** Outside the moved directories of a chat nothing has changed, and those are not back. */
  ghost predicate Others(was: Disk, now: Disk, chat: Chat, moved: set<Kind>) {
    && (forall p: Place :: p.chat != chat || p.kind !in moved ==>
          (p in now <==> p in was) && (p in now && p in was ==> now[p] == was[p]))
    && (forall k :: k in moved ==> Root(chat, k) !in now)
  }

  /** Of the moved directories, the quarantines of all but those gone are there whole. */
  ghost predicate Cleared(was: Disk, now: Disk, chat: Chat, moved: set<Kind>, gone: set<Kind>) {
    && Others(was, now, chat, moved)
    && (forall k :: k in moved ==> (Quarantine(chat, k) in now <==> k !in gone))
    && (forall k :: k in moved && k !in gone && Quarantine(chat, k) in now && Root(chat, k) in was ==>
          now[Quarantine(chat, k)] == was[Root(chat, k)])
  }

  lemma AllCleared(was: Disk, now: Disk, chat: Chat, moved: set<Kind>)
    requires Cleared(was, now, chat, moved, moved)
    ensures forall p: Place :: p in now && p.chat == chat ==> p in was && p.kind !in moved
  {
    forall p: Place | p in now && p.chat == chat ensures p in was && p.kind !in moved {
      assert p == Root(chat, p.kind) || p == Quarantine(chat, p.kind);
    }
  }

  lemma ShiftedMore(was: Disk, now: Disk, chat: Chat, moved: set<Kind>, kind: Kind)
    requires Shifted(was, now, chat, moved) && kind !in moved
    requires Root(chat, kind) in now && Quarantine(chat, kind) !in now
    ensures Shifted(was, Moved(now, Root(chat, kind), Quarantine(chat, kind)), chat, moved + {kind})
  {
  }

  lemma ShiftedCleared(was: Disk, now: Disk, chat: Chat, moved: set<Kind>)
    requires Shifted(was, now, chat, moved)
    ensures Cleared(was, now, chat, moved, {}) && forall k :: k in moved ==> Root(chat, k) in was
  {
  }

  lemma ShiftedBack(was: Disk, now: Disk, chat: Chat)
    requires Shifted(was, now, chat, {})
    ensures now == was
  {
  }

  // ----- what a process can still do

  /** The next `n` steps are there and work. */
  predicate AllWork(steps: seq<bool>, n: nat) {
    n <= |steps| && forall i :: 0 <= i < n ==> steps[i]
  }

  /** The first step that fails is at `f`. */
  predicate FailsAt(steps: seq<bool>, f: nat) {
    f < |steps| && AllWork(steps, f) && !steps[f]
  }

  /** `after` is what is left of `before` behind its first `n` steps. */
  ghost predicate Behind(before: seq<bool>, n: nat, after: seq<bool>) {
    |after| + n == |before| && forall i :: 0 <= i < |after| ==> after[i] == before[n + i]
  }

  /** Something that needs `n` steps ends as the steps say: it works if they all do, fails
      with the first that fails, and dies where they run out. */
  ghost predicate Took(step: Step, before: seq<bool>, after: seq<bool>, n: nat) {
    match step
    case Works => AllWork(before, n) && Behind(before, n, after)
    case Fails => exists f: nat :: f < n && FailsAt(before, f) && Behind(before, f + 1, after)
    case Dies => |before| < n && AllWork(before, |before|) && after == []
  }

  /** One thing after another needs the steps of both. */
  lemma TookThen(before: seq<bool>, n: nat, between: seq<bool>, step: Step, m: nat, after: seq<bool>)
    requires Took(Works, before, between, n) && Took(step, between, after, m)
    ensures Took(step, before, after, n + m)
  {
    assert forall i :: n <= i < |before| ==> before[i] == between[i - n];
    if step.Fails? {
      var f: nat :| f < m && FailsAt(between, f) && Behind(between, f + 1, after);
      assert FailsAt(before, n + f) && Behind(before, n + f + 1, after);
    }
  }

  /** The next thing of several that need `total` steps together. */
  lemma TookNext(before: seq<bool>, n: nat, between: seq<bool>, step: Step, m: nat, after: seq<bool>, total: nat)
    requires Took(Works, before, between, n) && Took(step, between, after, m) && n + m <= total
    ensures Took(step, before, after, if step.Works? then n + m else total)
  {
    TookThen(before, n, between, step, m, after);
  }

  /** The steps alone say how it ends. */
  lemma TookIff(step: Step, before: seq<bool>, after: seq<bool>, n: nat)
    requires Took(step, before, after, n)
    ensures step.Works? <==> AllWork(before, n)
    ensures step.Fails? <==> exists f: nat :: f < n && FailsAt(before, f)
    ensures step.Fails? ==> false in before
    ensures step.Dies? ==> |before| < n
  {
  }

  function StepOf(end: End): Step {
    match end case Done => Works case Raised(_) => Fails case Died => Dies
  }

  function Has(disk: Disk, p: Place): nat {
    if p in disk then 1 else 0
  }

  /** The directories of a chat in place. */
  function Dirs(disk: Disk, chat: Chat): nat {
    Has(disk, Root(chat, Upload)) + Has(disk, Root(chat, Output))
  }

  /** The files of a directory and the directory itself. */
  function Entries(disk: Disk, p: Place): nat {
    if p in disk then |disk[p]| + 1 else 0
  }

  /** A rename for each directory, the commit, and the removal of all they hold. */
  function DeletionSteps(disk: Disk, chat: Chat): nat {
    Dirs(disk, chat) + 1 + Entries(disk, Root(chat, Upload)) + Entries(disk, Root(chat, Output))
  }

  /** What the first `i` quarantined directories hold. */
  function Held(was: Disk, chat: Chat, moved: seq<Kind>, i: nat): nat
    requires i <= |moved|
  {
    if i == 0 then 0 else Held(was, chat, moved, i - 1) + Entries(was, Root(chat, moved[i - 1]))
  }

  lemma {:induction false} HeldMore(was: Disk, chat: Chat, moved: seq<Kind>, i: nat)
    requires i <= |moved|
    ensures Held(was, chat, moved, i) <= Held(was, chat, moved, |moved|)
    decreases |moved| - i
  {
    if i < |moved| {
      HeldMore(was, chat, moved, i + 1);
    }
  }

  lemma HeldAll(was: Disk, chat: Chat, moved: seq<Kind>)
    requires NoDup(moved) && |moved| == Dirs(was, chat) && forall k :: k in moved <==> Root(chat, k) in was
    ensures Held(was, chat, moved, |moved|) == Entries(was, Root(chat, Upload)) + Entries(was, Root(chat, Output))
  {
    if |moved| == 2 {
      assert moved[0] != moved[1];
      assert Held(was, chat, moved, 1) == Entries(was, Root(chat, moved[0]));
    } else if |moved| == 1 {
      assert moved[0] in moved;
    }
  }

  /** How undoing `f` renames ends, behind the step at `f` which failed. */
  ghost predicate UndoEnds(end: End, steps: seq<bool>, f: nat) {
    || (end == Raised(Refused) && WorkFrom(steps, f + 1, 2 * f + 1))
    || (end == Raised(RestoreFailed)
        && exists g: nat :: f < g <= 2 * f && g < |steps| && WorkFrom(steps, f + 1, g) && !steps[g])
    || (end == Died && |steps| < 2 * f + 1 && WorkFrom(steps, f + 1, |steps|))
  }

  predicate WorkFrom(steps: seq<bool>, i: nat, j: nat) {
    i <= j <= |steps| && forall k :: i <= k < j ==> steps[k]
  }

  /** How a deletion ends, by the steps alone. */
  ghost predicate DeletionEnds(was: Disk, chat: Chat, end: End, before: seq<bool>, after: seq<bool>) {
    && (end.Done? <==> Clear(was, chat) && AllWork(before, DeletionSteps(was, chat)))
    && (end == Raised(RemovalFailed) <==>
          Commits(was, before, chat) && exists f: nat :: f < DeletionSteps(was, chat) && FailsAt(before, f))
    && (Clear(was, chat) ==>
          forall f: nat :: f <= Dirs(was, chat) && FailsAt(before, f) ==> UndoEnds(end, before, f))
    && (Clear(was, chat) && false !in before ==> end == if |before| < DeletionSteps(was, chat) then Died else Done)
    && (!Clear(was, chat) && false !in before && |before| >= 2 ==> end == Raised(Refused))
    && (end.Raised? ==> end != Raised(Conflict) && (false in before || !Clear(was, chat)))
    && (end.Died? ==> after == [] && |before| < DeletionSteps(was, chat))
  }

  lemma CommittedEnds(was: Disk, chat: Chat, end: End, before: seq<bool>, after: seq<bool>)
    requires Commits(was, before, chat) && Took(StepOf(end), before, after, DeletionSteps(was, chat))
    requires end.Done? || end.Died? || end == Raised(RemovalFailed)
    ensures DeletionEnds(was, chat, end, before, after)
  {
  }

  /** After the renames of `moved` one more failed, or a quarantine was in the way, or the
      commit failed. */
  ghost predicate GivenUp(was: Disk, chat: Chat, moved: seq<Kind>, before: seq<bool>, after: seq<bool>) {
    || RenamesTook(was, chat, Raised(Refused), moved, before, after)
    || (Clear(was, chat) && |moved| == Dirs(was, chat) && FailsAt(before, |moved|) && Behind(before, |moved| + 1, after))
  }

  lemma UndoneEnds(was: Disk, chat: Chat, end: End, moved: seq<Kind>, before: seq<bool>, between: seq<bool>, after: seq<bool>)
    requires GivenUp(was, chat, moved, before, between)
    requires match end
      case Raised(Refused) => Took(Works, between, after, |moved|)
      case Raised(RestoreFailed) => Took(Fails, between, after, |moved|)
      case Died => Took(Dies, between, after, |moved|)
      case _ => false
    ensures DeletionEnds(was, chat, end, before, after)
  {
    if Clear(was, chat) {
      UndoBehind(end, before, |moved|, between, after);
    }
  }

  lemma UndoBehind(end: End, before: seq<bool>, f: nat, between: seq<bool>, after: seq<bool>)
    requires FailsAt(before, f) && Behind(before, f + 1, between)
    requires match end
      case Raised(Refused) => Took(Works, between, after, f)
      case Raised(RestoreFailed) => Took(Fails, between, after, f)
      case Died => Took(Dies, between, after, f)
      case _ => false
    ensures UndoEnds(end, before, f)
  {
    assert forall k :: f + 1 <= k < |before| ==> before[k] == between[k - f - 1];
    if end == Raised(RestoreFailed) {
      var g: nat :| g < f && FailsAt(between, g);
      assert WorkFrom(before, f + 1, f + 1 + g) && !before[f + 1 + g];
    }
  }

  ghost predicate Clear(disk: Disk, chat: Chat) {
    forall k :: Quarantine(chat, k) !in disk
  }

  lemma ClearOrNot(disk: Disk, chat: Chat)
    ensures Clear(disk, chat) || Quarantine(chat, Upload) in disk || Quarantine(chat, Output) in disk
  {
    forall k | Quarantine(chat, k) in disk ensures Quarantine(chat, Upload) in disk || Quarantine(chat, Output) in disk {
      match k case Upload => case Output =>
    }
  }

  /** What one directory's rename needs and how it ends. */
  ghost predicate RenameTook(was: Disk, chat: Chat, kind: Kind, end: End, did: bool, before: seq<bool>, after: seq<bool>) {
    && (end.Done? || end.Died? || end == Raised(Refused))
    && if Quarantine(chat, kind) in was then end.Raised? && !did && after == before
       else Took(StepOf(end), before, after, Has(was, Root(chat, kind)))
            && (did <==> end.Done? && Root(chat, kind) in was)
  }

  /** The same for both: they need a step for each directory there is, unless a quarantine
      is in the way, which is found after one rename at most. */
  ghost predicate RenamesTook(was: Disk, chat: Chat, end: End, moved: seq<Kind>, before: seq<bool>, after: seq<bool>) {
    && (end.Done? || end.Died? || end == Raised(Refused))
    && |moved| <= Dirs(was, chat)
    && (end.Done? ==> |moved| == Dirs(was, chat) && forall k :: k in moved <==> Root(chat, k) in was)
    && if Clear(was, chat) then
         Took(StepOf(end), before, after, Dirs(was, chat))
         && (end.Raised? ==> FailsAt(before, |moved|) && Behind(before, |moved| + 1, after))
       else
         && !end.Done? && (end.Died? ==> before == [] && after == [])
         && (end.Raised? && AllWork(before, 1) ==>
               |moved| <= 1 && Behind(before, |moved|, after))
         && (end.Raised? && !AllWork(before, 1) ==> moved == [])
  }

  /** The kinds whose directories were renamed, in the order of the renames. */
  function KindsMoved(upload: bool, output: bool): (moved: seq<Kind>)
    ensures NoDup(moved)
    ensures Elems(moved) == (if upload then {Upload} else {}) + (if output then {Output} else {})
  {
    (if upload then [Upload] else []) + (if output then [Output] else [])
  }

  lemma BothRenames(was: Disk, chat: Chat, first: bool, end: End, did: bool, before: seq<bool>, between: seq<bool>, after: seq<bool>)
    requires RenameTook(was, chat, Upload, Done, first, before, between)
    requires RenameTook(was, chat, Output, end, did, between, after)
    ensures RenamesTook(was, chat, end, KindsMoved(first, did), before, after)
  {
    ClearOrNot(was, chat);
    if Clear(was, chat) {
      TookThen(before, Has(was, Root(chat, Upload)), between, StepOf(end), Has(was, Root(chat, Output)), after);
    }
    var moved := KindsMoved(first, did);
    forall k | end.Done? ensures k in moved <==> Root(chat, k) in was {
      match k case Upload => case Output =>
    }
  }

  /** No quarantine is in the way, and the renames and the commit work. */
  ghost predicate Commits(disk: Disk, steps: seq<bool>, chat: Chat) {
    Clear(disk, chat) && AllWork(steps, Dirs(disk, chat) + 1)
  }

  /** A rename of each quarantine of a surviving chat, the removal of every other. */
  function RecoverySteps(db: set<Chat>, disk: Disk): map<Place, nat> {
    map p | p in disk && p.quarantined :: if p.chat in db then 1 else |disk[p]| + 1
  }

  lemma OneLess(db: set<Chat>, before: Disk, after: Disk, q: Place)
    requires q.quarantined && q !in after
    requires forall p: Place :: p.quarantined && p != q ==>
      (p in after <==> p in before) && (p in after && p in before ==> after[p] == before[p])
    ensures RecoverySteps(db, after) == RecoverySteps(db, before) - {q}
  {
  }

  class DashboardFiles {
    var db: set<Chat>
    var disk: Disk
    /** Whether each durable step that this process can still take works. */
    var steps: seq<bool>

    constructor (db: set<Chat>, disk: Disk)
      ensures this.db == db && this.disk == disk
    {
      this.db, this.disk, steps := db, disk, [];
    }

    ghost predicate Valid()
      reads this
    {
      Consistent(db, disk)
    }

    /** Unchanged in meaning since a database and a disk. */
    ghost predicate Means(was: set<Chat>, meant: Disk)
      reads this
    {
      Valid() && db == was && Recovered(db, disk) == meant
    }

    method Take() returns (step: Step)
      modifies `steps
      ensures step == if old(steps) == [] then Dies else if old(steps)[0] then Works else Fails
      ensures Took(step, old(steps), steps, 1)
    {
      if steps == [] {
        return Dies;
      }
      step := if steps[0] then Works else Fails;
      steps := steps[1..];
      assert !step.Works? ==> FailsAt(old(steps), 0);
    }

    /** One directory of `quarantine`. */
    method QuarantineDir(chat: Chat, kind: Kind, ghost was: Disk, ghost moved: set<Kind>) returns (end: End, did: bool)
      requires Valid() && Shifted(was, disk, chat, moved) && kind !in moved
      modifies `steps, `disk
      ensures Means(old(db), old(Recovered(db, disk)))
      ensures Shifted(was, disk, chat, if did then moved + {kind} else moved)
      ensures did ==> end.Done?
      ensures RenameTook(was, chat, kind, end, did, old(steps), steps)
    {
      if Quarantine(chat, kind) in disk {
        return Raised(Refused), false;
      }
      if Root(chat, kind) !in disk {
        return Done, false;
      }
      var step := Take();
      if step != Works {
        return if step.Fails? then Raised(Refused) else Died, false;
      }
      RenameKeeps(db, disk, chat, kind, true);
      ShiftedMore(was, disk, chat, moved, kind);
      disk := Moved(disk, Root(chat, kind), Quarantine(chat, kind));
      return Done, true;
    }

    /** `quarantine`: renames the directories of both kinds. */
    method QuarantineDirs(chat: Chat) returns (end: End, moved: seq<Kind>)
      requires Valid()
      modifies `steps, `disk
      ensures Means(old(db), old(Recovered(db, disk)))
      ensures NoDup(moved) && Shifted(old(disk), disk, chat, Elems(moved))
      ensures RenamesTook(old(disk), chat, end, moved, old(steps), steps)
    {
      ghost var was := disk;
      var upload, output := false, false;
      end, upload := QuarantineDir(chat, Upload, was, {});
      ghost var first, between := end, steps;
      if end.Done? {
        end, output := QuarantineDir(chat, Output, was, if upload then {Upload} else {});
      }
      moved := KindsMoved(upload, output);
      if first.Done? {
        BothRenames(was, chat, upload, end, output, old(steps), between, steps);
      } else {
        ClearOrNot(was, chat);
      }
    }

    lemma NoneInPlace(was: Disk, now: Disk, chat: Chat, moved: set<Kind>)
      requires Shifted(was, now, chat, moved) && forall k :: Root(chat, k) in was ==> k in moved
      ensures forall k :: Root(chat, k) !in now
    {
    }

    /** One rename of `restore`. */
    method RestoreDir(chat: Chat, kind: Kind, ghost was: Disk, ghost moved: set<Kind>)
      requires Valid() && chat in db && kind !in moved && Shifted(was, disk, chat, moved + {kind})
      modifies `disk
      ensures Means(db, old(Recovered(db, disk))) && Shifted(was, disk, chat, moved)
    {
      RenameKeeps(db, disk, chat, kind, false);
      disk := Moved(disk, Quarantine(chat, kind), Root(chat, kind));
    }

    lemma LastKind(rest: seq<Kind>)
      requires rest != [] && NoDup(rest)
      ensures var kind, front := rest[|rest| - 1], rest[..|rest| - 1];
        kind !in Elems(front) && NoDup(front) && Elems(rest) == Elems(front) + {kind}
    {
      var kind, front := rest[|rest| - 1], rest[..|rest| - 1];
      assert rest == front + [kind] && kind !in front;
      ElemsSnoc(front, kind);
    }

    /** `restore`: undoes the renames, last first. */
    method RestoreDirs(chat: Chat, moved: seq<Kind>, ghost was: Disk) returns (step: Step)
      requires Valid() && NoDup(moved) && Shifted(was, disk, chat, Elems(moved))
      requires moved == [] || chat in db
      modifies `steps, `disk
      ensures Means(old(db), old(Recovered(db, disk)))
      ensures step.Works? ==> disk == was
      ensures Took(step, old(steps), steps, |moved|)
      ensures forall p: Place :: p.chat != chat ==> (p in disk <==> p in was) && (p in disk ==> disk[p] == was[p])
    {
      var rest := moved;
      while rest != []
        invariant NoDup(rest) && (rest == [] || chat in db) && Means(old(db), old(Recovered(db, disk)))
        invariant Shifted(was, disk, chat, Elems(rest))
        invariant |rest| <= |moved| && Took(Works, old(steps), steps, |moved| - |rest|)
      {
        ghost var between := steps;
        step := Take();
        TookNext(old(steps), |moved| - |rest|, between, step, 1, steps, |moved|);
        if step != Works {
          return;
        }
        var kind, front := rest[|rest| - 1], rest[..|rest| - 1];
        LastKind(rest);
        RestoreDir(chat, kind, was, Elems(front));
        rest := front;
      }
      ShiftedBack(was, disk, chat);
      step := Works;
    }

    /** `rmtree` of a quarantine: file by file, then the directory. It may stop at any
        file, with the rest left in place. */
    method RemoveTree(q: Place) returns (step: Step)
      requires Valid() && q in disk && q.quarantined && q.chat !in db
      modifies `steps, `disk
      ensures Means(old(db), old(Recovered(db, disk)))
      ensures disk - {q} == old(disk) - {q}
      ensures step.Works? ==> disk == old(disk) - {q}
      ensures !step.Works? ==> q in disk && disk[q] <= old(disk)[q]
      ensures Took(step, old(steps), steps, |old(disk)[q]| + 1)
    {
      ghost var files := disk[q];
      while disk[q] != {}
        invariant q in disk && disk - {q} == old(disk) - {q} && disk[q] <= old(disk)[q]
        invariant Means(old(db), old(Recovered(db, disk)))
        invariant |disk[q]| <= |files| && Took(Works, old(steps), steps, |files| - |disk[q]|)
        decreases disk[q]
      {
        ghost var between, removed := steps, |files| - |disk[q]|;
        step := Take();
        TookNext(old(steps), removed, between, step, 1, steps, |files| + 1);
        if step != Works {
          return;
        }
        var file :| file in disk[q];
        RemovalKeeps(db, disk, q, disk[q := disk[q] - {file}]);
        disk := disk[q := disk[q] - {file}];
      }
      ghost var between := steps;
      step := Take();
      TookThen(old(steps), |files|, between, step, 1, steps);
      if step.Works? {
        RemovalKeeps(db, disk, q, disk - {q});
        disk := disk - {q};
      }
    }

    /** `delete_conversation`. However it ends, only this chat is concerned, and it leaves
        the database exactly if no quarantine is in the way and the renames and the commit
        work. With the removals working too it returns normally and leaves neither
        directory nor quarantine; a removal that fails is raised behind the commit. When a
        rename or the commit fails behind `f` renames, these are undone, and the deletion
        is refused with everything as it was exactly if the `f` renames back work. */
    method DeleteConversation(chat: Chat) returns (end: End)
      requires Valid()
      modifies this
      ensures Valid() && db == if Commits(old(disk), old(steps), chat) then old(db) - {chat} else old(db)
      ensures Recovered(db, disk) ==
        if Commits(old(disk), old(steps), chat) then Without(old(Recovered(db, disk)), chat) else old(Recovered(db, disk))
      ensures DeletionEnds(old(disk), chat, end, old(steps), steps)
      ensures end == Raised(Refused) ==> disk == old(disk)
      ensures end == Raised(RemovalFailed) ==> exists k :: Quarantine(chat, k) in disk
      ensures end == Raised(RemovalFailed) || end.Done? ==> forall k :: Root(chat, k) !in disk
      ensures end.Done? ==> forall p: Place :: p in disk ==> p.chat != chat
      ensures forall p: Place :: p.chat != chat ==> (p in disk <==> p in old(disk)) && (p in disk ==> disk[p] == old(disk)[p])
    {
      ghost var was := disk;
      var moved;
      end, moved := QuarantineDirs(chat);
      MovedInDatabase(was, chat, moved);
      if end.Died? {
        return;
      }
      ghost var between := steps;
      if end.Done? {
        var commit := Take();
        TookThen(old(steps), Dirs(was, chat), between, commit, 1, steps);
        if commit.Dies? {
          return Died;
        }
        if commit.Works? {
          NoneInPlace(was, disk, chat, Elems(moved));
          CommitMeaning(db, disk, chat);
          db := db - {chat};
          end := CommitAndRemove(chat, moved, was, old(steps));
          return;
        }
      }
      end := Undo(chat, moved, was, old(steps));
    }

    /** What follows a failure before the commit. */
    method Undo(chat: Chat, moved: seq<Kind>, ghost was: Disk, ghost before: seq<bool>) returns (end: End)
      requires Valid() && NoDup(moved) && Shifted(was, disk, chat, Elems(moved)) && (moved == [] || chat in db)
      requires GivenUp(was, chat, moved, before, steps)
      modifies `steps, `disk
      ensures Means(old(db), old(Recovered(db, disk)))
      ensures DeletionEnds(was, chat, end, before, steps)
      ensures end == Raised(Refused) || end == Raised(RestoreFailed) || end.Died?
      ensures end == Raised(Refused) ==> disk == was
      ensures forall p: Place :: p.chat != chat ==> (p in disk <==> p in was) && (p in disk ==> disk[p] == was[p])
    {
      ghost var between := steps;
      var step := RestoreDirs(chat, moved, was);
      end := match step case Works => Raised(Refused) case Fails => Raised(RestoreFailed) case Dies => Died;
      UndoneEnds(was, chat, end, moved, before, between, steps);
    }

    /** What follows the commit. */
    method CommitAndRemove(chat: Chat, moved: seq<Kind>, ghost was: Disk, ghost before: seq<bool>) returns (end: End)
      requires Valid() && chat !in db && NoDup(moved) && Shifted(was, disk, chat, Elems(moved))
      requires Clear(was, chat) && |moved| == Dirs(was, chat) && forall k :: k in moved <==> Root(chat, k) in was
      requires Took(Works, before, steps, Dirs(was, chat) + 1)
      modifies `steps, `disk
      ensures Means(old(db), old(Recovered(db, disk)))
      ensures DeletionEnds(was, chat, end, before, steps)
      ensures end.Done? || end.Died? || end == Raised(RemovalFailed)
      ensures end == Raised(RemovalFailed) ==> exists k :: Quarantine(chat, k) in disk
      ensures end == Raised(RemovalFailed) || end.Done? ==> forall k :: Root(chat, k) !in disk
      ensures end.Done? ==> forall p: Place :: p in disk ==> p.chat != chat
      ensures forall p: Place :: p.chat != chat ==> (p in disk <==> p in was) && (p in disk ==> disk[p] == was[p])
    {
      ghost var between := steps;
      HeldAll(was, chat, moved);
      end := RemoveMoved(chat, moved, was);
      TookThen(before, Dirs(was, chat) + 1, between, StepOf(end), Held(was, chat, moved, |moved|), steps);
      CommittedEnds(was, chat, end, before, steps);
      NothingLeft(was, chat, end, moved);
    }

    lemma NothingLeft(was: Disk, chat: Chat, end: End, moved: seq<Kind>)
      requires Valid() && chat !in db
      requires forall k :: Quarantine(chat, k) !in was
      requires end.Done? ==> forall p: Place :: p in disk && p.chat == chat ==> p in was
      ensures end.Done? ==> forall p: Place :: p in disk ==> p.chat != chat
    {
      forall p: Place | end.Done? && p in disk ensures p.chat != chat {
        assert p.chat == chat ==> p == Quarantine(chat, p.kind);
      }
    }

    lemma MovedInDatabase(was: Disk, chat: Chat, moved: seq<Kind>)
      requires Consistent(db, was) && Shifted(was, disk, chat, Elems(moved))
      ensures moved == [] || chat in db
    {
      if moved != [] {
        assert moved[0] in Elems(moved) && Root(chat, moved[0]) in was;
      }
    }

    /** One quarantine of a committed deletion. */
    method RemoveOne(chat: Chat, kind: Kind, ghost moved: set<Kind>, ghost gone: set<Kind>, ghost was: Disk) returns (step: Step)
      requires Valid() && chat !in db && kind in moved && kind !in gone && Cleared(was, disk, chat, moved, gone)
      requires forall k :: k in moved ==> Root(chat, k) in was
      modifies `steps, `disk
      ensures Means(old(db), old(Recovered(db, disk)))
      ensures step.Works? ==> Cleared(was, disk, chat, moved, gone + {kind})
      ensures !step.Works? ==> Quarantine(chat, kind) in disk
      ensures Others(was, disk, chat, moved)
      ensures Took(step, old(steps), steps, Entries(was, Root(chat, kind)))
    {
      ghost var before := disk;
      step := RemoveTree(Quarantine(chat, kind));
      OnlyPlace(before, disk, Quarantine(chat, kind));
    }

    /** Removes the quarantines of a committed deletion. */
    method RemoveMoved(chat: Chat, moved: seq<Kind>, ghost was: Disk) returns (end: End)
      requires Valid() && chat !in db && NoDup(moved) && Shifted(was, disk, chat, Elems(moved))
      modifies `steps, `disk
      ensures Means(old(db), old(Recovered(db, disk)))
      ensures Others(was, disk, chat, Elems(moved))
      ensures end.Done? ==> forall p: Place :: p in disk && p.chat == chat ==> p in was && p.kind !in Elems(moved)
      ensures end.Done? || end.Died? || end == Raised(RemovalFailed)
      ensures end == Raised(RemovalFailed) ==> exists k :: Quarantine(chat, k) in disk
      ensures Took(StepOf(end), old(steps), steps, Held(was, chat, moved, |moved|))
    {
      ghost var kinds := Elems(moved);
      ShiftedCleared(was, disk, chat, kinds);
      for i := 0 to |moved|
        invariant Means(old(db), old(Recovered(db, disk)))
        invariant Cleared(was, disk, chat, kinds, Before(moved, i))
        invariant Took(Works, old(steps), steps, Held(was, chat, moved, i))
      {
        BeforeStep(moved, i);
        HeldMore(was, chat, moved, i + 1);
        ghost var between, held := steps, Held(was, chat, moved, i);
        var step := RemoveOne(chat, moved[i], kinds, Before(moved, i), was);
        TookNext(old(steps), held, between, step, Entries(was, Root(chat, moved[i])), steps, Held(was, chat, moved, |moved|));
        if step != Works {
          return if step.Fails? then Raised(RemovalFailed) else Died;
        }
      }
      BeforeAll(moved);
      AllCleared(was, disk, chat, kinds);
      return Done;
    }

    lemma OnlyPlace(before: Disk, after: Disk, q: Place)
      requires after - {q} == before - {q}
      ensures forall p: Place :: p != q ==> (p in after <==> p in before) && (p in after ==> after[p] == before[p])
    {
      forall p: Place | p != q ensures (p in after <==> p in before) && (p in after ==> after[p] == before[p]) {
        assert p in after - {q} <==> p in before - {q};
      }
    }

    /** The quarantines `glob` finds. */
    function Quarantines(): set<Place>
      reads `disk
    {
      set p | p in disk && p.quarantined
    }

    /** One quarantine of a recovery. */
    method RecoverOne(target: Place, surviving: set<Chat>) returns (end: End, ghost cost: nat)
      requires Valid() && target in Quarantines() && surviving == db
      modifies `steps, `disk
      ensures Means(old(db), old(Recovered(db, disk)))
      ensures end == Done || end == Raised(RestoreFailed) || end == Raised(RemovalFailed) || end == Died
      ensures end.Done? ==> Quarantines() == old(Quarantines()) - {target}
      ensures cost <= old(Left()) && Took(StepOf(end), old(steps), steps, cost)
      ensures end.Done? ==> Left() == old(Left()) - cost
    {
      ghost var todo := RecoverySteps(db, disk);
      cost := todo[target];
      SumSplits(todo, target);
      var root := Root(target.chat, target.kind);
      assert target == Quarantine(target.chat, target.kind) && target in disk;
      if root.chat in surviving {
        if root in disk {
          end := Raised(Conflict);
          return;
        }
        var step := Take();
        end := match step case Works => Done case Fails => Raised(RestoreFailed) case Dies => Died;
        if step.Works? {
          RenameKeeps(db, disk, root.chat, root.kind, false);
          ghost var before := disk;
          disk := Moved(disk, target, root);
          OneLess(db, before, disk, target);
        }
      } else {
        ghost var before := disk;
        var step := RemoveTree(target);
        end := match step case Works => Done case Fails => Raised(RemovalFailed) case Dies => Died;
        if step.Works? {
          OneLess(db, before, disk, target);
        }
      }
    }

    /** The steps a recovery needs from here. */
    ghost function Left(): nat
      reads `db, `disk
    {
      Sum(RecoverySteps(db, disk))
    }

    /** `recover`: goes through the quarantines in any order. */
    method Recover(surviving: set<Chat>) returns (end: End)
      requires Valid() && surviving == db
      modifies `steps, `disk
      ensures Means(old(db), old(Recovered(db, disk)))
      ensures end != Raised(Conflict) && end != Raised(Refused)
      ensures Took(StepOf(end), old(steps), steps, old(Left()))
      ensures end.Done? ==> Quarantines() == {}
    {
      var found := Quarantines();
      ghost var total, meant := Left(), Recovered(db, disk);
      ghost var spent: nat := 0;
      end := Done;
      while found != {} && end.Done?
        invariant Means(surviving, meant)
        invariant end != Raised(Conflict) && end != Raised(Refused)
        invariant end.Done? ==> Quarantines() == found && spent + Left() == total
        invariant Took(StepOf(end), old(steps), steps, if end.Done? then spent else total)
        decreases found
      {
        var target :| target in found;
        ghost var between := steps;
        ghost var cost;
        end, cost := RecoverOne(target, surviving);
        TookNext(old(steps), spent, between, StepOf(end), cost, steps, total);
        found, spent := found - {target}, spent + cost;
      }
      if end.Done? {
        NothingToRecover();
      }
    }

    /** `recover_deletions`: restores the quarantines of surviving chats, finishes
        the removal of the others. It never finds conflicting files, keeps the
        meaning at every step even if it fails, needs one step for each restored
        directory and each removed entry, is done exactly if these work, and then
        leaves exactly the snapshots of the surviving chats. */
    method RecoverDeletions() returns (end: End)
      requires Valid()
      modifies `steps, `disk
      ensures Means(old(db), old(Recovered(db, disk)))
      ensures end != Raised(Conflict) && end != Raised(Refused)
      ensures end.Done? <==> AllWork(old(steps), old(Left()))
      ensures Took(StepOf(end), old(steps), steps, old(Left()))
      ensures end.Done? ==> disk == Recovered(db, disk)
    {
      end := Recover(db);
      TookIff(StepOf(end), old(steps), steps, old(Left()));
      if end.Done? {
        NothingToRecover();
      }
    }

    lemma NothingToRecover()
      requires Valid() && Quarantines() == {}
      ensures disk == Recovered(db, disk) && Left() == 0
    {
      forall p: Place | p in disk ensures !p.quarantined {
        assert p !in Quarantines();
      }
      NoQuarantine(db, disk);
      assert RecoverySteps(db, disk) == map[];
    }

    method Perform(op: Op)
      requires Valid()
      modifies this
      ensures Valid() && db <= old(db)
      ensures Recovered(db, disk) == Restrict(old(Recovered(db, disk)), db)
    {
      RestrictSelf(db, disk);
      match op
      case Delete(chat, worked) =>
        steps := worked;
        var end := DeleteConversation(chat);
      case Recover(worked) =>
        steps := worked;
        var end := RecoverDeletions();
    }

    /** Any sequence of deletions and recoveries, each step failing or the process dying
        anywhere. */
    method Live(ops: seq<Op>)
      requires Valid()
      modifies this
      ensures Valid() && db <= old(db)
      ensures Recovered(db, disk) == Restrict(old(Recovered(db, disk)), db)
    {
      RestrictSelf(db, disk);
      ghost var meant := Recovered(db, disk);
      for i := 0 to |ops|
        invariant Valid() && db <= old(db)
        invariant Recovered(db, disk) == Restrict(meant, db)
      {
        RestrictTwice(meant, db);
        Perform(ops[i]);
      }
    }

    /** After any such history, a recovery that completes leaves every chat still in
        the database with its original directories and nothing else on the disk. */
    method LiveAndRecover(ops: seq<Op>, worked: seq<bool>) returns (end: End)
      requires Valid() && forall p: Place :: p in disk ==> !p.quarantined
      modifies this
      ensures db <= old(db) && end != Raised(Conflict)
      ensures end.Done? ==> disk == Restrict(old(disk), db)
      ensures end.Raised? ==> false in worked
      ensures end.Died? ==> steps == []
    {
      NoQuarantine(db, disk);
      Live(ops);
      steps := worked;
      end := RecoverDeletions();
    }
  }
}
