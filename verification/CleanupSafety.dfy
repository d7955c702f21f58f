/**
 Clean-up passes among all the other requests, and what happens to a stored name once its file is attached, and once
 it is not.
 */
module CleanupSafety {
  import opened Outcomes
  import opened Library
  import opened DocumentRequests
  import opened FileSafety
  import Paths

  // ---------- names that are done with ----------

  /** A name once drawn that no row and no upload carries. */
  ghost predicate Settled(w: World, name: string) {
    && name in w.used && name !in AttachedNames(w.rows.attachments)
    && forall r :: r in w.requests && Reserving(w.requests[r]) ==> NameOf(w.requests[r]) != name
  }

  /** The file is as it was, or gone. */
  ghost predicate SameFile(w: World, v: World, name: string) {
    name in v.disk ==> name in w.disk && v.disk[name] == w.disk[name]
  }

  /** It stays so, and neither its file nor its queue entry comes back. */
  ghost predicate StaysGone(w: World, v: World, name: string) {
    && Settled(v, name) && SameFile(w, v, name)
    && (name in v.rows.queue ==> name in w.rows.queue)
  }

  ghost predicate ContentKept(w: World, v: World, name: string) {
    && name in AttachedNames(v.rows.attachments) && name in w.disk && name in v.disk && v.disk[name] == w.disk[name]
  }

  /** What one step may do to a name: keep it attached with its content, or leave it settled for good. */
  ghost predicate NameOk(w: World, v: World, name: string) {
    && (Settled(w, name) ==> StaysGone(w, v, name))
    && (name in AttachedNames(w.rows.attachments) ==>
          ContentKept(w, v, name) || (Settled(v, name) && SameFile(w, v, name)))
  }

  lemma AttachedIsStored(w: World, name: string)
    requires Inv(w) && name in AttachedNames(w.rows.attachments)
    ensures name in w.disk && name in w.used
    ensures forall r :: r in w.requests && Reserving(w.requests[r]) ==> NameOf(w.requests[r]) != name
    ensures forall r :: r in w.requests ==> name !in Listed(w.requests[r])
  {
  }

  /** A step of request r that leaves rows, queue and folder alone. */
  lemma MoveNameOk(w: World, r: nat, q: Request, v: World, name: string)
    requires Inv(w) && w.used <= v.used
    requires v.rows.attachments == w.rows.attachments && v.rows.queue == w.rows.queue && v.disk == w.disk
    requires v.requests == w.requests || v.requests == w.requests[r := q]
    requires Reserving(q) ==> NameOf(q) !in w.used || (Reserving(At(w, r)) && NameOf(At(w, r)) == NameOf(q))
    ensures NameOk(w, v, name)
  {
    hide StoreOk, RequestsOk, Accounted, LockOk;
    if name in AttachedNames(w.rows.attachments) {
      AttachedIsStored(w, name);
    }
  }

  lemma RowStepsNameOk(w: World, a: Action, name: string)
    requires Inv(w) && (a.Create? || a.Edit?)
    ensures NameOk(w, Apply(w, a), name)
  {
    hide StoreOk, RequestsOk, Accounted, LockOk, NameOk;
    MoveNameOk(w, 0, Idle, Apply(w, a), name);
  }

  lemma ReadsNameOk(w: World, a: Action, name: string)
    requires Inv(w) && (a.ShareRead? || a.UnshareRead? || a.CommentRead? || a.DeleteRead? || a.CleanupStart?)
    ensures NameOk(w, Apply(w, a), name)
  {
    hide StoreOk, RequestsOk, Accounted, LockOk, NameOk, CanAccess, IsOwner;
    MoveNameOk(w, a.r, At(Apply(w, a), a.r), Apply(w, a), name);
  }

  lemma WritesNameOk(w: World, r: nat, name: string)
    requires Inv(w)
    ensures NameOk(w, ShareStep(w, r), name) && NameOk(w, UnshareStep(w, r), name) && NameOk(w, CommentStep(w, r), name)
  {
    hide StoreOk, RequestsOk, Accounted, LockOk, NameOk, CanAccess, CommentsOn;
    MoveNameOk(w, r, At(ShareStep(w, r), r), ShareStep(w, r), name);
    MoveNameOk(w, r, At(UnshareStep(w, r), r), UnshareStep(w, r), name);
    MoveNameOk(w, r, At(CommentStep(w, r), r), CommentStep(w, r), name);
  }

  lemma UploadStartsNameOk(w: World, r: nat, file: File, name: string)
    requires Inv(w)
    ensures NameOk(w, ReadForUpload(w, r, file), name) && NameOk(w, BeginUpload(w, r), name)
  {
    hide StoreOk, RequestsOk, Accounted, LockOk, NameOk, CanEdit, UploadFits;
    MoveNameOk(w, r, At(ReadForUpload(w, r, file), r), ReadForUpload(w, r, file), name);
    MoveNameOk(w, r, At(BeginUpload(w, r), r), BeginUpload(w, r), name);
  }

  /** A step of an upload on its own file. */
  lemma OwnFileNameOk(w: World, r: nat, v: World, name: string)
    requires Inv(w) && Reserving(At(w, r)) && v.used == w.used && v.rows == w.rows
    requires r in v.requests && v.requests == w.requests[r := v.requests[r]]
    requires Reserving(v.requests[r]) ==> NameOf(v.requests[r]) == NameOf(At(w, r))
    requires forall n :: n != NameOf(At(w, r)) ==> (n in v.disk <==> n in w.disk) && (n in w.disk ==> v.disk[n] == w.disk[n])
    ensures NameOk(w, v, name)
  {
    hide StoreOk, RequestsOk, Accounted, LockOk;
    AtOk(w, r);
    if name in AttachedNames(w.rows.attachments) {
      AttachedIsStored(w, name);
    }
  }

  lemma FileStepsNameOk(w: World, r: nat, ok: bool, written: nat, name: string)
    requires Inv(w)
    ensures NameOk(w, OpenFile(w, r, ok), name) && NameOk(w, WriteFile(w, r, ok, written), name)
  {
    hide StoreOk, RequestsOk, Accounted, LockOk, NameOk;
    if At(w, r).UploadLocked? {
      OwnFileNameOk(w, r, OpenFile(w, r, ok), name);
    } else {
      MoveNameOk(w, r, Idle, OpenFile(w, r, ok), name);
    }
    if At(w, r).UploadOpened? {
      OwnFileNameOk(w, r, WriteFile(w, r, ok, written), name);
    } else {
      MoveNameOk(w, r, Idle, WriteFile(w, r, ok, written), name);
    }
  }

  lemma InsertNameOk(w: World, r: nat, ok: bool, name: string)
    requires Inv(w)
    ensures NameOk(w, InsertFile(w, r, ok), name)
  {
    hide StoreOk, RequestsOk, Accounted, LockOk;
    if At(w, r).UploadWritten? && ok {
      var f := At(w, r).file;
      AttachedAppend(w.rows.attachments, Attachment(f.doc, f.name, f.user, |f.content|));
      if name in AttachedNames(w.rows.attachments) {
        AttachedIsStored(w, name);
      }
    } else {
      MoveNameOk(w, r, At(InsertFile(w, r, ok), r), InsertFile(w, r, ok), name);
    }
  }

  lemma EnqueueNameOk(w: World, r: nat, name: string)
    requires Inv(w)
    ensures NameOk(w, EnqueueFile(w, r), name)
  {
    hide StoreOk, RequestsOk, Accounted, LockOk;
    if name in AttachedNames(w.rows.attachments) {
      AttachedIsStored(w, name);
    }
  }

  lemma DeleteNameOk(w: World, r: nat, name: string)
    requires Inv(w)
    ensures NameOk(w, DeleteStep(w, r), name)
  {
    if At(w, r).DeleteReady? && w.lock == None {
      var rows, d := w.rows.attachments, At(w, r).doc;
      assert DistinctNames(rows);
      KeptDistinct(rows, d);
      hide StoreOk, RequestsOk, Accounted, LockOk;
      if name in AttachedNames(rows) {
        AttachedIsStored(w, name);
      }
    }
  }

  lemma CleanupNameOk(w: World, r: nat, names: seq<string>, ok: bool, name: string)
    requires Inv(w)
    ensures NameOk(w, ReadQueue(w, r, names), name) && NameOk(w, UnlinkFile(w, r, ok), name)
    ensures NameOk(w, DequeueFile(w, r), name) && NameOk(w, Die(w, r), name)
  {
    hide StoreOk, RequestsOk, Accounted, LockOk, Paths.Sealed;
    AtOk(w, r);
    if name in AttachedNames(w.rows.attachments) {
      AttachedIsStored(w, name);
    }
  }

  lemma StepNameOk(w: World, a: Action, name: string)
    requires Inv(w)
    ensures NameOk(w, Apply(w, a), name)
  {
    hide NameOk, Inv, ShareStep, UnshareStep, CommentStep, DeleteStep, ReadForUpload, BeginUpload, OpenFile, WriteFile,
      InsertFile, EnqueueFile, ReadQueue, UnlinkFile, DequeueFile, Die;
    if a.Create? || a.Edit? {
      RowStepsNameOk(w, a, name);
    } else if a.ShareRead? || a.UnshareRead? || a.CommentRead? || a.DeleteRead? || a.CleanupStart? {
      ReadsNameOk(w, a, name);
    } else if a.ShareCommit? || a.UnshareCommit? || a.CommentCommit? {
      WritesNameOk(w, a.r, name);
    } else if a.DeleteCommit? {
      DeleteNameOk(w, a.r, name);
    } else if a.UploadRead? {
      UploadStartsNameOk(w, a.r, a.file, name);
    } else if a.UploadBegin? {
      UploadStartsNameOk(w, a.r, File(0, 0, [], ""), name);
    } else if a.UploadOpen? {
      FileStepsNameOk(w, a.r, a.ok, 0, name);
    } else if a.UploadWrite? {
      FileStepsNameOk(w, a.r, a.ok, a.written, name);
    } else if a.UploadInsert? {
      InsertNameOk(w, a.r, a.ok, name);
    } else if a.UploadEnqueue? {
      EnqueueNameOk(w, a.r, name);
    } else if a.CleanupRead? {
      CleanupNameOk(w, a.r, a.names, true, name);
    } else if a.CleanupUnlink? {
      CleanupNameOk(w, a.r, [], a.ok, name);
    } else {
      CleanupNameOk(w, a.r, [], true, name);
    }
  }

  /** A name that no row and no upload carries is never carried again; its file and its queue entry never come back. */
  lemma {:induction false} SettledForGood(w: World, later: seq<Action>, name: string)
    requires Inv(w) && Settled(w, name)
    ensures StaysGone(w, Run(w, later), name)
    decreases |later|
  {
    hide Inv, Apply, Settled;
    if later != [] {
      StepNameOk(w, later[0], name);
      StepKeeps(w, later[0]);
      SettledForGood(Apply(w, later[0]), later[1..], name);
    }
  }

  lemma {:induction false} KeptOrSettled(w: World, later: seq<Action>, name: string)
    requires Inv(w) && name in AttachedNames(w.rows.attachments)
    ensures ContentKept(w, Run(w, later), name) || (Settled(Run(w, later), name) && SameFile(w, Run(w, later), name))
    decreases |later|
  {
    hide Inv, Apply, Settled, AttachedNames;
    if later == [] {
      AttachedIsStored(w, name);
    } else {
      var v := Apply(w, later[0]);
      StepNameOk(w, later[0], name);
      StepKeeps(w, later[0]);
      if Settled(v, name) {
        SettledForGood(v, later[1..], name);
      } else {
        KeptOrSettled(v, later[1..], name);
      }
    }
  }

  /**
   Once attached, a file is there for as long as its row is, and keeps its content byte for byte for as long as it is
   there itself; when the row is deleted the name is never attached again.
   */
  lemma AttachedFilesNeverChange(w0: World, w: World, later: seq<Action>, name: string)
    requires Reachable(w0, w) && name in AttachedNames(w.rows.attachments)
    ensures
      var v := Run(w, later);
      && name in w.disk && (name in v.disk ==> v.disk[name] == w.disk[name])
      && (name in AttachedNames(v.rows.attachments) ==> name in v.disk)
      && (name !in AttachedNames(v.rows.attachments) ==>
            forall more :: name !in AttachedNames(Run(v, more).rows.attachments))
  {
    hide Inv, Run, Reachable;
    FileSafety.ReachableInv(w0, w);
    AttachedIsStored(w, name);
    KeptOrSettled(w, later, name);
    var v := Run(w, later);
    if name !in AttachedNames(v.rows.attachments) {
      FileSafety.RunKeeps(w, later);
      forall more
        ensures name !in AttachedNames(Run(v, more).rows.attachments)
      {
        SettledForGood(v, more, name);
      }
    }
  }

  /** So an upload's file holds what its client sent until the document is deleted. */
  lemma UploadedContentKept(w0: World, w: World, r: nat, later: seq<Action>)
    requires Reachable(w0, w) && At(w, r).UploadWritten?
    ensures
      var f, v := At(w, r).file, Run(Apply(w, UploadInsert(r, true)), later);
      f.name in AttachedNames(v.rows.attachments) ==> f.name in v.disk && v.disk[f.name] == f.content
  {
    hide Inv, Run, Apply, Reachable;
    var f, u := At(w, r).file, Apply(w, UploadInsert(r, true));
    AttachedContent(w0, w, r);
    FileSafety.ReachableInv(w0, w);
    StepKeeps(w, UploadInsert(r, true));
    assert f.name in AttachedNames(u.rows.attachments);
    KeptOrSettled(u, later, f.name);
  }

  // ---------- one pass among other requests ----------

  predicate InCleanup(q: Request) {
    q.Cleaning? || q.Unlinked?
  }

  /** Request r is in its pass at every step of the run. */
  predicate InPass(w: World, actions: seq<Action>, r: nat)
    decreases |actions|
  {
    InCleanup(At(w, r)) && (actions == [] || InPass(Apply(w, actions[0]), actions[1..], r))
  }

  /** The name that an action of request r unlinks, or finds gone. */
  function Unlinks(w: World, a: Action, r: nat): set<string> {
    if a.CleanupUnlink? && a.r == r && At(w, r).Cleaning? && At(w, r).names != [] && a.ok
       && Paths.Sealed(w.folder, At(w, r).names[0])
    then {At(w, r).names[0]} else {}
  }

  /** The name that it skips: not sealed, or os.unlink raised. */
  function Skips(w: World, a: Action, r: nat): set<string> {
    if a.CleanupUnlink? && a.r == r && At(w, r).Cleaning? && At(w, r).names != []
       && !(a.ok && Paths.Sealed(w.folder, At(w, r).names[0]))
    then {At(w, r).names[0]} else {}
  }

  /** The name whose queue row it deletes. */
  function Dequeues(w: World, a: Action, r: nat): set<string> {
    if a.CleanupDequeue? && a.r == r && At(w, r).Unlinked? && w.lock == None && At(w, r).names != []
    then {At(w, r).names[0]} else {}
  }

  function UnlinkedBy(w: World, actions: seq<Action>, r: nat): set<string>
    decreases |actions|
  {
    if actions == [] then {} else Unlinks(w, actions[0], r) + UnlinkedBy(Apply(w, actions[0]), actions[1..], r)
  }

  function SkippedBy(w: World, actions: seq<Action>, r: nat): set<string>
    decreases |actions|
  {
    if actions == [] then {} else Skips(w, actions[0], r) + SkippedBy(Apply(w, actions[0]), actions[1..], r)
  }

  function DequeuedBy(w: World, actions: seq<Action>, r: nat): set<string>
    decreases |actions|
  {
    if actions == [] then {} else Dequeues(w, actions[0], r) + DequeuedBy(Apply(w, actions[0]), actions[1..], r)
  }

  /** The name that is unlinked but still queued. */
  function Half(q: Request): set<string> {
    if q.Unlinked? && q.names != [] then {q.names[0]} else {}
  }

  function SetOf(names: seq<string>): set<string> {
    set n | n in names
  }

  function Names(q: Request): set<string> {
    SetOf(Listed(q))
  }

  /** One step of a run during the pass of r: where the names of the pass go. */
  ghost predicate PassStep(w: World, v: World, a: Action, r: nat) {
    var p, q := At(w, r), At(v, r);
    && v.folder == w.folder
    && Names(p) == Dequeues(w, a, r) + Skips(w, a, r) + Names(q)
    && Half(p) + Unlinks(w, a, r) == Dequeues(w, a, r) + Half(q)
    && (Distinct(Listed(p)) ==> Distinct(Listed(q)) && Names(q) !! Skips(w, a, r) + Dequeues(w, a, r))
    && Skips(w, a, r) !! Dequeues(w, a, r)
    && (forall n :: n in Dequeues(w, a, r) ==> n !in v.rows.queue)
    && (forall n :: n in Unlinks(w, a, r) ==> Paths.Sealed(w.folder, n))
  }

  lemma OwnUnlink(w: World, r: nat, ok: bool)
    requires Inv(w) && InCleanup(At(w, r)) && InCleanup(At(Apply(w, CleanupUnlink(r, ok)), r))
    ensures PassStep(w, Apply(w, CleanupUnlink(r, ok)), CleanupUnlink(r, ok), r)
  {
    hide StoreOk, RequestsOk, Accounted, LockOk, Paths.Sealed;
    AtOk(w, r);
    if At(w, r).Cleaning? && At(w, r).names != [] {
      HeadAndRest(At(w, r).names);
    }
  }

  lemma OwnDequeue(w: World, r: nat)
    requires Inv(w) && InCleanup(At(w, r))
    ensures PassStep(w, Apply(w, CleanupDequeue(r)), CleanupDequeue(r), r)
  {
    hide StoreOk, RequestsOk, Accounted, LockOk, Paths.Sealed;
    AtOk(w, r);
    if At(w, r).Unlinked? {
      HeadAndRest(At(w, r).names);
    }
  }

  lemma HeadAndRest(names: seq<string>)
    requires names != []
    ensures SetOf(names) == {names[0]} + SetOf(names[1..])
    ensures Distinct(names) ==> Distinct(names[1..]) && names[0] !in names[1..]
  {
    assert names == [names[0]] + names[1..];
  }

  /** Nobody moves r on in its pass but r itself. */
  ghost predicate LeavesPass(w: World, v: World, r: nat) {
    && v.folder == w.folder
    && (InCleanup(At(w, r)) && InCleanup(At(v, r)) ==> At(v, r) == At(w, r))
  }

  lemma RequestsLeave(w: World, a: Action, r: nat)
    requires a.Create? || a.Edit? || a.ShareRead? || a.UnshareRead? || a.CommentRead? || a.DeleteRead? || a.CleanupStart?
    ensures LeavesPass(w, Apply(w, a), r)
  {
    hide CanAccess, IsOwner, UpdateStatus, Edited, Owned;
  }

  lemma CommitsLeave(w: World, s: nat, r: nat)
    ensures LeavesPass(w, ShareStep(w, s), r) && LeavesPass(w, UnshareStep(w, s), r)
    ensures LeavesPass(w, CommentStep(w, s), r) && LeavesPass(w, DeleteStep(w, s), r)
  {
    hide CanAccess, CommentsOn, Delete;
  }

  lemma UploadsLeave(w: World, s: nat, file: File, ok: bool, written: nat, r: nat)
    ensures LeavesPass(w, ReadForUpload(w, s, file), r) && LeavesPass(w, BeginUpload(w, s), r)
    ensures LeavesPass(w, OpenFile(w, s, ok), r) && LeavesPass(w, WriteFile(w, s, ok, written), r)
    ensures LeavesPass(w, InsertFile(w, s, ok), r) && LeavesPass(w, EnqueueFile(w, s), r)
  {
    hide CanEdit, UploadFits, Attach;
  }

  lemma PassesLeave(w: World, s: nat, names: seq<string>, ok: bool, r: nat)
    ensures LeavesPass(w, ReadQueue(w, s, names), r) && LeavesPass(w, Die(w, s), r)
    ensures s != r ==> LeavesPass(w, UnlinkFile(w, s, ok), r) && LeavesPass(w, DequeueFile(w, s), r)
  {
    hide Paths.Sealed;
  }

  lemma OtherStep(w: World, a: Action, r: nat)
    requires !((a.CleanupUnlink? || a.CleanupDequeue?) && a.r == r)
    ensures LeavesPass(w, Apply(w, a), r)
  {
    hide LeavesPass, ShareStep, UnshareStep, CommentStep, DeleteStep, ReadForUpload, BeginUpload, OpenFile, WriteFile,
      InsertFile, EnqueueFile, ReadQueue, UnlinkFile, DequeueFile, Die;
    match a
    case ShareCommit(s) => CommitsLeave(w, s, r);
    case UnshareCommit(s) => CommitsLeave(w, s, r);
    case CommentCommit(s) => CommitsLeave(w, s, r);
    case DeleteCommit(s) => CommitsLeave(w, s, r);
    case UploadRead(s, file) => UploadsLeave(w, s, file, true, 0, r);
    case UploadBegin(s) => UploadsLeave(w, s, File(0, 0, [], ""), true, 0, r);
    case UploadOpen(s, ok) => UploadsLeave(w, s, File(0, 0, [], ""), ok, 0, r);
    case UploadWrite(s, ok, written) => UploadsLeave(w, s, File(0, 0, [], ""), ok, written, r);
    case UploadInsert(s, ok) => UploadsLeave(w, s, File(0, 0, [], ""), ok, 0, r);
    case UploadEnqueue(s) => UploadsLeave(w, s, File(0, 0, [], ""), true, 0, r);
    case CleanupRead(s, names) => PassesLeave(w, s, names, true, r);
    case CleanupUnlink(s, ok) => PassesLeave(w, s, [], ok, r);
    case CleanupDequeue(s) => PassesLeave(w, s, [], true, r);
    case Abort(s) => PassesLeave(w, s, [], true, r);
    case _ => RequestsLeave(w, a, r);
  }

  lemma EveryStep(w: World, a: Action, r: nat)
    requires Inv(w) && InCleanup(At(w, r)) && InCleanup(At(Apply(w, a), r))
    ensures PassStep(w, Apply(w, a), a, r)
  {
    hide Inv, Apply;
    if a == CleanupDequeue(r) {
      OwnDequeue(w, r);
    } else if a.CleanupUnlink? && a.r == r {
      OwnUnlink(w, r, a.ok);
    } else {
      OtherStep(w, a, r);
    }
  }

  lemma ListedIsSettled(w: World, r: nat, name: string)
    requires Inv(w) && name in Listed(At(w, r))
    ensures Settled(w, name)
  {
    AtOk(w, r);
  }

  /** A name that r dequeues now is out of the queue and off the disk in every later state. */
  lemma DequeuedStaysOut(w: World, a: Action, later: seq<Action>, r: nat, name: string)
    requires Inv(w) && name in Dequeues(w, a, r) && name !in Apply(w, a).rows.queue
    ensures
      var v := Run(Apply(w, a), later);
      name !in v.rows.queue && name !in v.disk && name !in AttachedNames(v.rows.attachments)
  {
    hide StoreOk, RequestsOk, Accounted, LockOk, Apply;
    AtOk(w, r);
    ListedIsSettled(w, r, name);
    StepNameOk(w, a, name);
    StepKeeps(w, a);
    SettledForGood(Apply(w, a), later, name);
  }

  ghost predicate PassResult(w: World, v: World, p: Request, unlinked: set<string>, skipped: set<string>, dequeued: set<string>) {
    && v.folder == w.folder
    && dequeued == unlinked + Half(p)
    && Names(p) == dequeued + skipped
    && (Distinct(Listed(p)) ==> dequeued !! skipped)
    && (forall n :: n in unlinked ==> Paths.Sealed(w.folder, n))
    && (forall n :: n in dequeued ==> n !in v.rows.queue && n !in v.disk && n !in AttachedNames(v.rows.attachments))
  }

  lemma JoinPass(w: World, u: World, v: World, a: Action, r: nat, unlinked: set<string>, skipped: set<string>, dequeued: set<string>)
    requires PassStep(w, u, a, r) && PassResult(u, v, At(u, r), unlinked, skipped, dequeued)
    requires forall n :: n in Dequeues(w, a, r) ==> n !in v.rows.queue && n !in v.disk && n !in AttachedNames(v.rows.attachments)
    ensures PassResult(w, v, At(w, r), Unlinks(w, a, r) + unlinked, Skips(w, a, r) + skipped, Dequeues(w, a, r) + dequeued)
  {
    hide Distinct, Unlinks, Skips, Dequeues, Half, Names, Paths.Sealed, AttachedNames, At, Listed;
    assert (Dequeues(w, a, r) + Half(At(u, r))) + unlinked == (Half(At(w, r)) + Unlinks(w, a, r)) + unlinked;
  }

  lemma {:induction false} PassRuns(w: World, actions: seq<Action>, r: nat)
    requires Inv(w) && InPass(w, actions, r) && At(Run(w, actions), r) == Cleaning([])
    ensures PassResult(w, Run(w, actions), At(w, r), UnlinkedBy(w, actions, r), SkippedBy(w, actions, r), DequeuedBy(w, actions, r))
    decreases |actions|
  {
    hide Inv, Apply, Distinct, Unlinks, Skips, Dequeues, Paths.Sealed, AttachedNames, PassStep;
    if actions != [] {
      hide PassResult;
      var a, u, v := actions[0], Apply(w, actions[0]), Run(w, actions);
      EveryStep(w, a, r);
      StepKeeps(w, a);
      PassRuns(u, actions[1..], r);
      forall n | n in Dequeues(w, a, r)
        ensures n !in v.rows.queue && n !in v.disk && n !in AttachedNames(v.rows.attachments)
      {
        StepDequeues(w, u, a, r, n);
        DequeuedStaysOut(w, a, actions[1..], r, n);
      }
      JoinPass(w, u, v, a, r, UnlinkedBy(u, actions[1..], r), SkippedBy(u, actions[1..], r), DequeuedBy(u, actions[1..], r));
    }
  }

  lemma StepDequeues(w: World, v: World, a: Action, r: nat, name: string)
    requires PassStep(w, v, a, r) && name in Dequeues(w, a, r)
    ensures name !in v.rows.queue
  {
  }

  lemma LeavesByDequeue(w: World, a: Action, name: string)
    requires name in w.rows.queue && name !in Apply(w, a).rows.queue
    ensures a.CleanupDequeue? && name in Dequeues(w, a, a.r)
  {
    if !a.CleanupDequeue? {
      QueueKept(w, a);
    }
  }

  /** A name leaves the queue only because some request unlinked its file, or found it gone, and then dequeued it. */
  lemma {:induction false} SomebodyDequeued(w: World, actions: seq<Action>, name: string)
    requires name in w.rows.queue && name !in Run(w, actions).rows.queue
    ensures exists s :: name in DequeuedBy(w, actions, s)
    decreases |actions|
  {
    hide Apply, Dequeues;
    var u := Apply(w, actions[0]);
    if name in u.rows.queue {
      SomebodyDequeued(u, actions[1..], name);
      var s :| name in DequeuedBy(u, actions[1..], s);
      assert name in DequeuedBy(w, actions, s);
    } else {
      LeavesByDequeue(w, actions[0], name);
      assert name in DequeuedBy(w, actions, actions[0].r);
    }
  }

  /** Another request's pass dequeued the name in this run. */
  ghost predicate TakenByOther(w: World, actions: seq<Action>, r: nat, name: string) {
    exists s :: s != r && name in DequeuedBy(w, actions, s)
  }

  /**
   Request r reads the queue, makes its pass and ends it, with any other requests in between, passes included. The
   names read are exactly those it unlinked or found gone and those it skipped. The former are sealed, out of the
   queue and off the disk, for whatever ran meanwhile; one of the latter is gone only if another pass took it.
   */
  lemma PassRemovesExactly(w0: World, w: World, r: nat, names: seq<string>, actions: seq<Action>)
    requires Reachable(w0, w) && At(w, r).CleanupDue?
    requires var u := Apply(w, CleanupRead(r, names)); InPass(u, actions, r) && At(Run(u, actions), r) == Cleaning([])
    ensures
      var u := Apply(w, CleanupRead(r, names));
      var v, unlinked, skipped := Run(u, actions), UnlinkedBy(u, actions, r), SkippedBy(u, actions, r);
      && w.rows.queue == unlinked + skipped && unlinked !! skipped
      && (forall n :: n in unlinked ==>
            Paths.Sealed(w.folder, n) && n !in v.rows.queue && n !in v.disk && n !in AttachedNames(v.rows.attachments))
      && (forall n :: n in skipped && n !in v.rows.queue ==> TakenByOther(u, actions, r, n))
  {
    hide Reachable, Inv, Paths.Sealed, AttachedNames, UnlinkedBy, SkippedBy, DequeuedBy, Run;
    FileSafety.ReachableInv(w0, w);
    ReadStarts(w, r, names);
    var u := Apply(w, CleanupRead(r, names));
    var v, skipped := Run(u, actions), SkippedBy(u, actions, r);
    StepKeeps(w, CleanupRead(r, names));
    PassRuns(u, actions, r);
    forall n | n in skipped && n !in v.rows.queue
      ensures TakenByOther(u, actions, r, n)
    {
      SomebodyDequeued(u, actions, n);
      var s :| n in DequeuedBy(u, actions, s);
      assert s != r;
    }
  }

  lemma ReadStarts(w: World, r: nat, names: seq<string>)
    requires At(w, r).CleanupDue? && InCleanup(At(Apply(w, CleanupRead(r, names)), r))
    ensures
      var u := Apply(w, CleanupRead(r, names));
      && At(u, r) == Cleaning(names) && Distinct(names) && u.rows == w.rows && u.folder == w.folder
      && w.rows.queue == Names(At(u, r)) && Half(At(u, r)) == {}
  {
  }

  /** The names on which an unlink of request r raised. */
  function FailedOn(w: World, actions: seq<Action>, r: nat): set<string>
    decreases |actions|
  {
    if actions == [] then {}
    else (if actions[0] == CleanupUnlink(r, false) then Skips(w, actions[0], r) else {})
         + FailedOn(Apply(w, actions[0]), actions[1..], r)
  }

  lemma SkippedOrRaised(w: World, a: Action, r: nat, name: string)
    requires name in Skips(w, a, r) && Paths.Sealed(w.folder, name)
    ensures a == CleanupUnlink(r, false)
  {
    hide Paths.Sealed;
  }

  /** A pass skips a sealed name only because unlinking it raised. */
  lemma {:induction false} SealedOnesFail(w: World, actions: seq<Action>, r: nat, name: string)
    requires Inv(w) && InPass(w, actions, r) && name in SkippedBy(w, actions, r) && Paths.Sealed(w.folder, name)
    ensures name in FailedOn(w, actions, r)
    decreases |actions|
  {
    hide Inv, Apply, Paths.Sealed, Skips;
    var u := Apply(w, actions[0]);
    if name in Skips(w, actions[0], r) {
      SkippedOrRaised(w, actions[0], r, name);
    } else {
      InPassNow(u, actions[1..], r);
      EveryStep(w, actions[0], r);
      StepKeeps(w, actions[0]);
      SealedOnesFail(u, actions[1..], r, name);
    }
  }

  /**
   Whatever else is queued and whatever else fails: a generated name that a pass read and on which none of its
   unlinks raised is off the queue and off the disk when the pass ends.
   */
  lemma GeneratedNamesDrain(w0: World, w: World, r: nat, names: seq<string>, actions: seq<Action>, name: string)
    requires Reachable(w0, w) && At(w, r).CleanupDue? && name in w.rows.queue && Paths.Generated(name)
    requires var u := Apply(w, CleanupRead(r, names)); InPass(u, actions, r) && At(Run(u, actions), r) == Cleaning([])
    requires name !in FailedOn(Apply(w, CleanupRead(r, names)), actions, r)
    ensures
      var v := Run(Apply(w, CleanupRead(r, names)), actions);
      name !in v.rows.queue && name !in v.disk && name !in AttachedNames(v.rows.attachments)
  {
    hide Reachable, Inv, Paths.Sealed, AttachedNames, UnlinkedBy, SkippedBy, DequeuedBy, FailedOn, Run, InPass, Paths.Generated;
    var u := Apply(w, CleanupRead(r, names));
    PassRemovesExactly(w0, w, r, names, actions);
    FileSafety.ReachableInv(w0, w);
    StepKeeps(w, CleanupRead(r, names));
    InPassNow(u, actions, r);
    ReadStarts(w, r, names);
    Paths.GeneratedIsSealed(w.folder, name);
    if name in SkippedBy(u, actions, r) {
      SealedOnesFail(u, actions, r, name);
    }
  }

  lemma InPassNow(w: World, actions: seq<Action>, r: nat)
    requires InPass(w, actions, r)
    ensures InCleanup(At(w, r))
  {
  }

  // ---------- an undisturbed pass ----------

  /** The steps of a pass over these names when exactly the stuck ones cannot be unlinked. */
  function PassScript(folder: seq<string>, r: nat, names: seq<string>, stuck: set<string>): seq<Action>
    decreases |names|
  {
    if names == [] then [CleanupUnlink(r, true)]
    else if Paths.Sealed(folder, names[0]) && names[0] !in stuck
    then [CleanupUnlink(r, true), CleanupDequeue(r)] + PassScript(folder, r, names[1..], stuck)
    else [CleanupUnlink(r, false)] + PassScript(folder, r, names[1..], stuck)
  }

  function After(w: World, r: nat, removed: set<string>, q: Request): World {
    w.(rows := w.rows.(queue := w.rows.queue - removed), disk := w.disk - removed, requests := w.requests[r := q])
  }

  lemma RunOne(w: World, a: Action, rest: seq<Action>)
    ensures Run(w, [a] + rest) == Run(Apply(w, a), rest)
  {
    assert ([a] + rest)[1..] == rest;
  }

  lemma RunTwo(w: World, a: Action, b: Action, rest: seq<Action>)
    ensures Run(w, [a, b] + rest) == Run(Apply(Apply(w, a), b), rest)
  {
    assert [a, b] + rest == [a] + ([b] + rest);
    RunOne(w, a, [b] + rest);
    RunOne(Apply(w, a), b, rest);
  }

  lemma TakesOne(w: World, r: nat, names: seq<string>)
    requires At(w, r) == Cleaning(names) && names != [] && w.lock == None && Paths.Sealed(w.folder, names[0])
    ensures Apply(Apply(w, CleanupUnlink(r, true)), CleanupDequeue(r)) == After(w, r, {names[0]}, Cleaning(names[1..]))
  {
    hide Paths.Sealed;
    var u := Apply(w, CleanupUnlink(r, true));
    assert u == Go(w, r, Unlinked(names)).(disk := w.disk - {names[0]});
    assert w.requests[r := Unlinked(names)][r := Cleaning(names[1..])] == w.requests[r := Cleaning(names[1..])];
  }

  lemma SkipsOne(w: World, r: nat, names: seq<string>)
    requires At(w, r) == Cleaning(names) && names != []
    ensures Apply(w, CleanupUnlink(r, false)) == After(w, r, {}, Cleaning(names[1..]))
  {
    assert w.disk - {} == w.disk && w.rows.queue - {} == w.rows.queue;
  }

  lemma AfterTwice(w: World, r: nat, first: set<string>, q: Request, second: set<string>, end: Request)
    ensures After(After(w, r, first, q), r, second, end) == After(w, r, first + second, end)
  {
    assert w.disk - first - second == w.disk - (first + second);
    assert w.rows.queue - first - second == w.rows.queue - (first + second);
    assert w.requests[r := q][r := end] == w.requests[r := end];
  }

  /** The loop of the method is this run: with nobody else at work it removes exactly the names it can finish. */
  lemma {:induction false} PassAloneIsARun(w: World, r: nat, names: seq<string>, stuck: set<string>)
    requires At(w, r) == Cleaning(names) && w.lock == None
    ensures Run(w, PassScript(w.folder, r, names, stuck)) == After(w, r, Removable(w.folder, SetOf(names), stuck), Idle)
    decreases |names|
  {
    hide Apply, Paths.Sealed, Removable;
    if names == [] {
      EndsPass(w, r, stuck);
      RunOne(w, CleanupUnlink(r, true), []);
      assert SetOf(names) == {};
    } else {
      var rest := Removable(w.folder, SetOf(names[1..]), stuck);
      HeadAndRest(names);
      RemovableNext(w.folder, SetOf(names[1..]), names[0], stuck);
      assert SetOf(names[1..]) + {names[0]} == SetOf(names);
      if Paths.Sealed(w.folder, names[0]) && names[0] !in stuck {
        TakesOne(w, r, names);
        RunTwo(w, CleanupUnlink(r, true), CleanupDequeue(r), PassScript(w.folder, r, names[1..], stuck));
        PassAloneIsARun(After(w, r, {names[0]}, Cleaning(names[1..])), r, names[1..], stuck);
        AfterTwice(w, r, {names[0]}, Cleaning(names[1..]), rest, Idle);
        assert {names[0]} + rest == rest + {names[0]};
      } else {
        SkipsOne(w, r, names);
        RunOne(w, CleanupUnlink(r, false), PassScript(w.folder, r, names[1..], stuck));
        PassAloneIsARun(After(w, r, {}, Cleaning(names[1..])), r, names[1..], stuck);
        AfterTwice(w, r, {}, Cleaning(names[1..]), rest, Idle);
        assert {} + rest == rest + {};
      }
    }
  }

  lemma EndsPass(w: World, r: nat, stuck: set<string>)
    requires At(w, r) == Cleaning([])
    ensures Apply(w, CleanupUnlink(r, true)) == After(w, r, Removable(w.folder, {}, stuck), Idle)
  {
    hide Removable, Paths.Sealed;
    RemovableOfNone(w.folder, stuck);
    assert w.disk - {} == w.disk && w.rows.queue - {} == w.rows.queue;
  }

  lemma {:induction false} Enumerate(s: set<string>) returns (names: seq<string>)
    ensures SetOf(names) == s && Distinct(names)
    decreases |s|
  {
    if s == {} {
      names := [];
    } else {
      var n :| n in s;
      var rest := Enumerate(s - {n});
      assert n !in SetOf(rest);
      names := [n] + rest;
      assert names[1..] == rest;
      HeadAndRest(names);
    }
  }

  /** The clean-up command can always finish: from any quiet state with generated names it can empty the queue. */
  lemma QueueCanDrain(w: World, r: nat)
    requires w.lock == None && At(w, r).Idle? && forall n :: n in w.rows.queue ==> Paths.Generated(n)
    ensures exists actions :: Run(w, actions) == After(w, r, w.rows.queue, Idle)
  {
    var names := Enumerate(w.rows.queue);
    var u := Go(w, r, Cleaning(names));
    var script := PassScript(w.folder, r, names, {});
    StartsPass(w, r, names);
    hide Apply, Paths.Generated, Paths.Sealed, Removable;
    RunTwo(w, CleanupStart(r), CleanupRead(r, names), script);
    PassAloneIsARun(u, r, names, {});
    AllRemovable(w.folder, w.rows.queue);
    assert After(u, r, w.rows.queue, Idle) == After(w, r, w.rows.queue, Idle) by {
      assert w.requests[r := Cleaning(names)][r := Idle] == w.requests[r := Idle];
    }
    assert Run(w, [CleanupStart(r), CleanupRead(r, names)] + script) == After(w, r, w.rows.queue, Idle);
  }

  lemma AllRemovable(folder: seq<string>, names: set<string>)
    requires forall n :: n in names ==> Paths.Generated(n)
    ensures Removable(folder, names, {}) == names
  {
    forall n | n in names
      ensures Paths.Sealed(folder, n)
    {
      Paths.GeneratedIsSealed(folder, n);
    }
  }

  lemma StartsPass(w: World, r: nat, names: seq<string>)
    requires At(w, r).Idle? && SetOf(names) == w.rows.queue && Distinct(names)
    ensures Apply(Apply(w, CleanupStart(r)), CleanupRead(r, names)) == Go(w, r, Cleaning(names))
  {
    assert w.requests[r := CleanupDue][r := Cleaning(names)] == w.requests[r := Cleaning(names)];
  }
}
