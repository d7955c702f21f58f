/**
 The folder and the tables agree at every moment of every interleaving, although they never commit together.
 */
module FileSafety {
  import opened Outcomes
  import opened Library
  import opened DocumentRequests
  import Paths

  predicate Reserving(q: Request) {
    q.UploadReady? || q.UploadLocked? || q.UploadOpened? || q.UploadWritten? || q.UploadFailed?
  }

  /** The upload has created its file and still answers for it. */
  predicate Owning(q: Request) {
    q.UploadOpened? || q.UploadWritten? || q.UploadFailed?
  }

  function NameOf(q: Request): string
    requires Reserving(q)
  {
    if q.UploadFailed? then q.name else q.file.name
  }

  function Listed(q: Request): seq<string> {
    if q.Cleaning? || q.Unlinked? then q.names else []
  }

  predicate InLock(q: Request) {
    q.UploadLocked? || q.UploadOpened? || q.UploadWritten?
  }

  type Disk = map<string, seq<Byte>>

  ghost predicate StoreOk(rows: seq<Attachment>, queue: set<string>, disk: Disk, used: set<string>) {
    && queue !! AttachedNames(rows)
    && DistinctNames(rows)
    && (forall a :: a in rows ==> a.name in disk && |disk[a.name]| == a.size)
    && AttachedNames(rows) <= used && queue <= used && disk.Keys <= used
  }

  ghost predicate RequestOk(attached: set<string>, queue: set<string>, disk: Disk, used: set<string>, q: Request) {
    && (Reserving(q) ==> NameOf(q) in used && NameOf(q) !in attached && NameOf(q) !in queue)
    && (Reserving(q) ==> (Owning(q) <==> NameOf(q) in disk))
    && (q.UploadWritten? ==> disk[q.file.name] == q.file.content)
    && (forall n :: n in Listed(q) ==> n in used && n !in attached)
    && (q.Unlinked? ==> q.names != [] && q.names[0] !in disk)
  }

  ghost predicate Apart(p: Request, q: Request) {
    && (Reserving(p) ==> NameOf(p) !in Listed(q))
    && (Reserving(q) ==> NameOf(q) !in Listed(p))
    && (Reserving(p) && Reserving(q) ==> NameOf(p) != NameOf(q))
  }

  ghost predicate RequestsOk(attached: set<string>, queue: set<string>, disk: Disk, used: set<string>, requests: map<nat, Request>) {
    && (forall r :: r in requests ==> RequestOk(attached, queue, disk, used, requests[r]))
    && (forall r, s :: r in requests && s in requests && r != s ==> Apart(requests[r], requests[s]))
  }

  /** Every file is attached, queued for deletion, or owned by an upload in flight. */
  ghost predicate Accounted(attached: set<string>, queue: set<string>, disk: Disk, requests: map<nat, Request>) {
    forall n :: n in disk && n !in attached && n !in queue ==>
      exists r :: r in requests && Owning(requests[r]) && NameOf(requests[r]) == n
  }

  ghost predicate LockOk(lock: Option<nat>, requests: map<nat, Request>) {
    forall r :: r in requests ==> (InLock(requests[r]) <==> lock == Some(r))
  }

  ghost predicate Inv(w: World) {
    && StoreOk(w.rows.attachments, w.rows.queue, w.disk, w.used)
    && RequestsOk(AttachedNames(w.rows.attachments), w.rows.queue, w.disk, w.used, w.requests)
    && Accounted(AttachedNames(w.rows.attachments), w.rows.queue, w.disk, w.requests)
    && LockOk(w.lock, w.requests)
    && (w.lock.Some? ==> w.lock.value in w.requests)
  }

  lemma InitOk(w: World)
    requires Init(w)
    ensures Inv(w)
  {
  }

  ghost predicate Fits(w: World, q: Request) {
    RequestOk(AttachedNames(w.rows.attachments), w.rows.queue, w.disk, w.used, q)
  }

  lemma AtOk(w: World, r: nat)
    requires Inv(w)
    ensures Fits(w, At(w, r)) && (InLock(At(w, r)) <==> w.lock == Some(r))
    ensures forall s :: s in w.requests && s != r ==> Apart(At(w, r), w.requests[s])
  {
  }

  ghost predicate Answers(q: Request, name: string) {
    Owning(q) && NameOf(q) == name
  }

  /** A loose file of the new state was loose before and someone else's, or is now answered for by request r. */
  lemma StillAccounted(w: World, r: nat, v: World)
    requires Inv(w) && r in v.requests && v.requests == w.requests[r := v.requests[r]]
    requires
      var before, attached := AttachedNames(w.rows.attachments), AttachedNames(v.rows.attachments);
      forall n :: n in v.disk && n !in attached && n !in v.rows.queue ==>
        Answers(v.requests[r], n) || (n in w.disk && n !in before && n !in w.rows.queue && !Answers(At(w, r), n))
    ensures Accounted(AttachedNames(v.rows.attachments), v.rows.queue, v.disk, v.requests)
  {
    hide StoreOk, RequestsOk, LockOk;
    forall n | n in v.disk && n !in AttachedNames(v.rows.attachments) && n !in v.rows.queue
      ensures exists s :: s in v.requests && Owning(v.requests[s]) && NameOf(v.requests[s]) == n
    {
      if Answers(v.requests[r], n) {
        assert Owning(v.requests[r]) && NameOf(v.requests[r]) == n;
      } else {
        var s :| s in w.requests && Owning(w.requests[s]) && NameOf(w.requests[s]) == n;
        assert s in v.requests && Owning(v.requests[s]) && NameOf(v.requests[s]) == n;
      }
    }
  }

  /** Request r moves on to q, with everything else the same or moved as v says. */
  lemma MoveKeeps(w: World, r: nat, v: World)
    requires Inv(w)
    requires r in v.requests && v.requests == w.requests[r := v.requests[r]]
    requires v.rows.attachments == w.rows.attachments && v.rows.queue == w.rows.queue && v.disk == w.disk
    requires w.used <= v.used && Fits(v, v.requests[r])
    requires forall s :: s in w.requests && s != r ==> Apart(v.requests[r], w.requests[s])
    requires Owning(At(w, r)) ==> Owning(v.requests[r]) && NameOf(v.requests[r]) == NameOf(At(w, r))
    requires v.lock == if InLock(v.requests[r]) then Some(r) else if w.lock == Some(r) then None else w.lock
    requires InLock(v.requests[r]) ==> w.lock == None || w.lock == Some(r)
    ensures Inv(v)
  {
    var attached := AttachedNames(w.rows.attachments);
    forall s | s in v.requests
      ensures RequestOk(attached, v.rows.queue, v.disk, v.used, v.requests[s])
    {
      assert s != r ==> RequestOk(attached, w.rows.queue, w.disk, w.used, w.requests[s]);
    }
    StillAccounted(w, r, v);
  }

  lemma RowsKeep(w: World, v: World)
    requires Inv(w)
    requires v.rows.attachments == w.rows.attachments && v.rows.queue == w.rows.queue && v.disk == w.disk
    requires v.requests == w.requests && v.lock == w.lock && v.used == w.used
    ensures Inv(v)
  {
  }

  /** Steps that leave files, queue and lock alone and reserve nothing. */
  lemma PlainMoveKeeps(w: World, r: nat, v: World, q: Request)
    requires Inv(w) && v.requests == w.requests[r := q]
    requires v.rows.attachments == w.rows.attachments && v.rows.queue == w.rows.queue && v.disk == w.disk
    requires v.used == w.used && v.lock == w.lock
    requires !Reserving(q) && Listed(q) == [] && !q.Unlinked? && !Owning(At(w, r)) && !InLock(At(w, r))
    ensures Inv(v)
  {
    AtOk(w, r);
    MoveKeeps(w, r, v);
  }

  lemma RequestWritesKeep(w: World, r: nat)
    requires Inv(w)
    ensures Inv(ShareStep(w, r)) && Inv(UnshareStep(w, r)) && Inv(CommentStep(w, r))
  {
    hide StoreOk, RequestsOk, Accounted, LockOk;
    if At(w, r).ShareReady? {
      PlainMoveKeeps(w, r, ShareStep(w, r), At(ShareStep(w, r), r));
    } else if At(w, r).UnshareReady? {
      PlainMoveKeeps(w, r, UnshareStep(w, r), At(UnshareStep(w, r), r));
    } else if At(w, r).CommentReady? && w.lock == None {
      PlainMoveKeeps(w, r, CommentStep(w, r), Idle);
    }
  }

  lemma ReadForUploadKeeps(w: World, r: nat, file: File)
    requires Inv(w)
    ensures Inv(ReadForUpload(w, r, file))
  {
    var v := ReadForUpload(w, r, file);
    if v != w {
      AtOk(w, r);
      forall s | s in w.requests && s != r
        ensures Apart(v.requests[r], w.requests[s])
      {
        AtOk(w, s);
      }
      MoveKeeps(w, r, v);
    }
  }

  lemma BeginUploadKeeps(w: World, r: nat)
    requires Inv(w)
    ensures Inv(BeginUpload(w, r))
  {
    var v := BeginUpload(w, r);
    if v != w {
      AtOk(w, r);
      MoveKeeps(w, r, v);
    }
  }

  /** The disk may change under one name that only request r answers for. */
  lemma OwnNameKeeps(w: World, r: nat, v: World, name: string)
    requires Inv(w) && Reserving(At(w, r)) && NameOf(At(w, r)) == name
    requires r in v.requests && v.requests == w.requests[r := v.requests[r]] && Owning(v.requests[r])
    requires NameOf(v.requests[r]) == name && v.used == w.used
    requires v.rows == w.rows && name in v.disk && v.disk == w.disk[name := v.disk[name]]
    requires v.requests[r].UploadWritten? ==> v.disk[name] == v.requests[r].file.content
    requires InLock(At(w, r)) && v.lock == if InLock(v.requests[r]) then Some(r) else None
    ensures Inv(v)
  {
    AtOk(w, r);
    var attached := AttachedNames(w.rows.attachments);
    assert forall a :: a in w.rows.attachments ==> a.name in attached;
    forall s | s in v.requests
      ensures RequestOk(attached, v.rows.queue, v.disk, v.used, v.requests[s])
    {
      if s != r {
        assert RequestOk(attached, w.rows.queue, w.disk, w.used, w.requests[s]);
        assert Apart(At(w, r), w.requests[s]);
      }
    }
    StillAccounted(w, r, v);
  }

  lemma OpenFileKeeps(w: World, r: nat, ok: bool)
    requires Inv(w)
    ensures Inv(OpenFile(w, r, ok))
  {
    var v := OpenFile(w, r, ok);
    if At(w, r).UploadLocked? {
      AtOk(w, r);
      if At(v, r).UploadOpened? {
        OwnNameKeeps(w, r, v, At(w, r).file.name);
      } else {
        MoveKeeps(w, r, v);
      }
    }
  }

  lemma WriteFileKeeps(w: World, r: nat, ok: bool, written: nat)
    requires Inv(w)
    ensures Inv(WriteFile(w, r, ok, written))
  {
    if At(w, r).UploadOpened? {
      OwnNameKeeps(w, r, WriteFile(w, r, ok, written), At(w, r).file.name);
    }
  }

  lemma AttachedAppend(rows: seq<Attachment>, a: Attachment)
    ensures AttachedNames(rows + [a]) == AttachedNames(rows) + {a.name}
  {
    assert forall x :: x in rows + [a] <==> x in rows || x == a;
  }

  lemma DistinctAppend(rows: seq<Attachment>, a: Attachment)
    requires DistinctNames(rows) && a.name !in AttachedNames(rows)
    ensures DistinctNames(rows + [a])
  {
    forall i | 0 <= i < |rows|
      ensures rows[i].name != a.name
    {
      assert rows[i] in rows;
    }
  }

  lemma InsertFileKeeps(w: World, r: nat, ok: bool)
    requires Inv(w)
    ensures Inv(InsertFile(w, r, ok))
  {
    var v := InsertFile(w, r, ok);
    if At(w, r).UploadWritten? {
      AtOk(w, r);
      if ok {
        InsertedKeeps(w, r, v, Attachment(At(w, r).file.doc, At(w, r).file.name, At(w, r).file.user, |At(w, r).file.content|));
      } else {
        OwnNameKeeps(w, r, v, At(w, r).file.name) by {
          assert w.disk[At(w, r).file.name := w.disk[At(w, r).file.name]] == w.disk;
        }
      }
    }
  }

  lemma InsertedKeeps(w: World, r: nat, v: World, a: Attachment)
    requires Inv(w) && At(w, r).UploadWritten? && a.name == At(w, r).file.name && a.size == |At(w, r).file.content|
    requires v.requests == w.requests[r := Idle] && v.lock == None && v.disk == w.disk && v.used == w.used
    requires v.rows.attachments == w.rows.attachments + [a] && v.rows.queue == w.rows.queue
    ensures Inv(v)
  {
    AtOk(w, r);
    var attached := AttachedNames(v.rows.attachments);
    AttachedAppend(w.rows.attachments, a);
    DistinctAppend(w.rows.attachments, a);
    forall s | s in v.requests
      ensures RequestOk(attached, v.rows.queue, v.disk, v.used, v.requests[s])
    {
      if s != r {
        AtOk(w, s);
        assert Apart(At(w, r), w.requests[s]);
      }
    }
    StillAccounted(w, r, v);
  }

  lemma EnqueueFileKeeps(w: World, r: nat)
    requires Inv(w)
    ensures Inv(EnqueueFile(w, r))
  {
    var v := EnqueueFile(w, r);
    if At(w, r).UploadFailed? && w.lock == None {
      AtOk(w, r);
      var name, attached := At(w, r).name, AttachedNames(w.rows.attachments);
      forall s | s in v.requests
        ensures RequestOk(attached, v.rows.queue, v.disk, v.used, v.requests[s])
      {
        if s != r {
          AtOk(w, s);
          assert Apart(At(w, r), w.requests[s]);
        }
      }
      StillAccounted(w, r, v);
    }
  }

  lemma DeleteStepKeeps(w: World, r: nat)
    requires Inv(w)
    ensures Inv(DeleteStep(w, r))
  {
    var v := DeleteStep(w, r);
    if At(w, r).DeleteReady? && w.lock == None {
      var d := At(w, r).doc;
      var attached, before := AttachedNames(v.rows.attachments), AttachedNames(w.rows.attachments);
      KeptDistinct(w.rows.attachments, d);
      forall a
        ensures a in v.rows.attachments ==> a in w.rows.attachments
      {
        KeptAttachment(w.rows.attachments, d, a);
      }
      forall s | s in v.requests
        ensures RequestOk(attached, v.rows.queue, v.disk, v.used, v.requests[s])
      {
        if s != r {
          AtOk(w, s);
        }
      }
      StillAccounted(w, r, v);
    }
  }

  lemma ReadQueueKeeps(w: World, r: nat, names: seq<string>)
    requires Inv(w)
    ensures Inv(ReadQueue(w, r, names))
  {
    var v := ReadQueue(w, r, names);
    if v != w {
      AtOk(w, r);
      assert forall n :: n in names ==> n in w.rows.queue;
      forall s | s in w.requests && s != r
        ensures Apart(v.requests[r], w.requests[s])
      {
        AtOk(w, s);
      }
      MoveKeeps(w, r, v);
    }
  }

  lemma UnlinkFileKeeps(w: World, r: nat, ok: bool)
    requires Inv(w)
    ensures Inv(UnlinkFile(w, r, ok))
  {
    hide Paths.Sealed;
    var v := UnlinkFile(w, r, ok);
    if At(w, r).Cleaning? {
      AtOk(w, r);
      if At(v, r).Unlinked? {
        UnlinkedKeeps(w, r, v);
      } else {
        MoveKeeps(w, r, v);
      }
    }
  }

  lemma UnlinkedOther(w: World, r: nat, s: nat, name: string)
    requires Inv(w) && name in Listed(At(w, r)) && s in w.requests && s != r
    ensures RequestOk(AttachedNames(w.rows.attachments), w.rows.queue, w.disk - {name}, w.used, w.requests[s])
  {
    AtOk(w, s);
    AtOk(w, r);
    hide StoreOk, RequestsOk, Accounted, LockOk;
    assert Apart(At(w, r), w.requests[s]);
  }

  lemma StoreAfterUnlink(w: World, name: string)
    requires Inv(w) && name !in AttachedNames(w.rows.attachments)
    ensures StoreOk(w.rows.attachments, w.rows.queue, w.disk - {name}, w.used)
  {
    assert forall a :: a in w.rows.attachments ==> a.name in AttachedNames(w.rows.attachments);
  }

  lemma UnlinkedKeeps(w: World, r: nat, v: World)
    requires Inv(w) && At(w, r).Cleaning? && At(w, r).names != []
    requires v == Go(w, r, Unlinked(At(w, r).names)).(disk := w.disk - {At(w, r).names[0]})
    ensures Inv(v)
  {
    AtOk(w, r);
    var name := At(w, r).names[0];
    StoreAfterUnlink(w, name);
    forall s | s in v.requests
      ensures RequestOk(AttachedNames(v.rows.attachments), v.rows.queue, v.disk, v.used, v.requests[s])
    {
      if s != r {
        UnlinkedOther(w, r, s, name);
      }
    }
    StillAccounted(w, r, v);
  }

  lemma DequeueFileKeeps(w: World, r: nat)
    requires Inv(w)
    ensures Inv(DequeueFile(w, r))
  {
    var v := DequeueFile(w, r);
    if At(w, r).Unlinked? && w.lock == None {
      AtOk(w, r);
      var attached := AttachedNames(w.rows.attachments);
      forall s | s in v.requests
        ensures RequestOk(attached, v.rows.queue, v.disk, v.used, v.requests[s])
      {
        if s != r {
          AtOk(w, s);
        }
      }
      StillAccounted(w, r, v);
    }
  }

  lemma DieKeeps(w: World, r: nat)
    requires Inv(w)
    ensures Inv(Die(w, r))
  {
    AtOk(w, r);
    if Die(w, r) != w {
      MoveKeeps(w, r, Die(w, r));
    }
  }

  lemma ReadsKeep(w: World, a: Action)
    requires Inv(w)
    requires a.ShareRead? || a.UnshareRead? || a.CommentRead? || a.DeleteRead? || a.CleanupStart?
    ensures Inv(Apply(w, a))
  {
    hide StoreOk, RequestsOk, Accounted, LockOk;
    if Apply(w, a) != w {
      PlainMoveKeeps(w, a.r, Apply(w, a), At(Apply(w, a), a.r));
    }
  }

  lemma OwnerWritesKeep(w: World, a: Action)
    requires Inv(w) && (a.Create? || a.Edit?)
    ensures Inv(Apply(w, a))
  {
    hide StoreOk, RequestsOk, Accounted, LockOk;
    RowsKeep(w, Apply(w, a));
  }

  lemma StepKeeps(w: World, a: Action)
    requires Inv(w)
    ensures Inv(Apply(w, a))
  {
    hide StoreOk, RequestsOk, Accounted, LockOk;
    if a.Create? || a.Edit? {
      OwnerWritesKeep(w, a);
    } else if a.ShareRead? || a.UnshareRead? || a.CommentRead? || a.DeleteRead? || a.CleanupStart? {
      ReadsKeep(w, a);
    } else if a.ShareCommit? || a.UnshareCommit? || a.CommentCommit? {
      RequestWritesKeep(w, a.r);
    } else if a.DeleteCommit? {
      DeleteStepKeeps(w, a.r);
    } else if a.UploadRead? {
      ReadForUploadKeeps(w, a.r, a.file);
    } else if a.UploadBegin? {
      BeginUploadKeeps(w, a.r);
    } else if a.UploadOpen? {
      OpenFileKeeps(w, a.r, a.ok);
    } else if a.UploadWrite? {
      WriteFileKeeps(w, a.r, a.ok, a.written);
    } else if a.UploadInsert? {
      InsertFileKeeps(w, a.r, a.ok);
    } else if a.UploadEnqueue? {
      EnqueueFileKeeps(w, a.r);
    } else if a.CleanupRead? {
      ReadQueueKeeps(w, a.r, a.names);
    } else if a.CleanupUnlink? {
      UnlinkFileKeeps(w, a.r, a.ok);
    } else if a.CleanupDequeue? {
      DequeueFileKeeps(w, a.r);
    } else {
      DieKeeps(w, a.r);
    }
  }

  lemma {:induction false} RunKeeps(w: World, actions: seq<Action>)
    requires Inv(w)
    ensures Inv(Run(w, actions))
    decreases |actions|
  {
    if actions != [] {
      StepKeeps(w, actions[0]);
      RunKeeps(Apply(w, actions[0]), actions[1..]);
    }
  }

  lemma ReachableInv(w0: World, w: World)
    requires Reachable(w0, w)
    ensures Inv(w)
  {
    var actions :| w == Run(w0, actions);
    InitOk(w0);
    RunKeeps(w0, actions);
  }

  // ---------- what every interleaving keeps ----------

  /**
   With writes, inserts and unlinks failing at any point: every file is attached, queued for deletion or owned by an
   upload in flight; no queued name is attached; every attached row has its file with exactly the recorded size.
   */
  lemma FolderAndTablesAgree(w0: World, w: World)
    requires Reachable(w0, w)
    ensures forall n :: n in w.disk ==>
      n in AttachedNames(w.rows.attachments) || n in w.rows.queue
      || exists r :: r in w.requests && Owning(w.requests[r]) && NameOf(w.requests[r]) == n
    ensures w.rows.queue !! AttachedNames(w.rows.attachments)
    ensures forall a :: a in w.rows.attachments ==> a.name in w.disk && |w.disk[a.name]| == a.size
  {
    ReachableInv(w0, w);
  }

  /** With no upload in flight nothing is lost: the folder holds attached and queued files only. */
  lemma QuietFolderHasNoOrphans(w0: World, w: World)
    requires Reachable(w0, w) && forall r :: r in w.requests ==> !Owning(w.requests[r])
    ensures FilesMatch(w.rows, w.disk)
  {
    ReachableInv(w0, w);
  }

  lemma QueueKept(w: World, a: Action)
    requires !a.CleanupDequeue?
    ensures w.rows.queue <= Apply(w, a).rows.queue
  {
    hide CanEdit, CanAccess, IsOwner, UploadFits, UpdateStatus, Edited, Paths.Sealed, KeepComments, KeepAttachments;
    hide Owned, CommentsOn, NamesOf, DropShares;
  }

  lemma DiskKept(w: World, a: Action)
    requires !a.CleanupUnlink?
    ensures w.disk.Keys <= Apply(w, a).disk.Keys
  {
    hide CanEdit, CanAccess, IsOwner, UploadFits, UpdateStatus, Edited, Paths.Sealed, KeepComments, KeepAttachments;
    hide Owned, CommentsOn, NamesOf, DropShares;
  }

  lemma DequeuedIsGone(w: World, r: nat, name: string)
    requires Inv(w) && name in w.rows.queue && name !in DequeueFile(w, r).rows.queue
    ensures name !in w.disk && name !in DequeueFile(w, r).disk
  {
    AtOk(w, r);
  }

  lemma UnlinkedIsLoose(w: World, r: nat, ok: bool, name: string)
    requires Inv(w) && name in w.disk && name !in UnlinkFile(w, r, ok).disk
    ensures name !in AttachedNames(w.rows.attachments)
  {
    hide Paths.Sealed;
    AtOk(w, r);
  }

  /** A queue entry goes away only when its file is gone, and a file goes away only when it is not attached. */
  lemma OnlyFinishedEntriesLeave(w0: World, w: World, a: Action, name: string)
    requires Reachable(w0, w)
    ensures name in w.rows.queue && name !in Apply(w, a).rows.queue ==> name !in w.disk && name !in Apply(w, a).disk
    ensures name in w.disk && name !in Apply(w, a).disk ==> name !in AttachedNames(w.rows.attachments)
  {
    hide StoreOk, RequestsOk, Accounted, LockOk, Apply;
    ReachableInv(w0, w);
    if a.CleanupDequeue? {
      DiskKept(w, a);
      DequeueIs(w, a);
      if name in w.rows.queue && name !in DequeueFile(w, a.r).rows.queue {
        DequeuedIsGone(w, a.r, name);
      }
    } else {
      QueueKept(w, a);
      if a.CleanupUnlink? {
        UnlinkIs(w, a);
        if name in w.disk && name !in UnlinkFile(w, a.r, a.ok).disk {
          UnlinkedIsLoose(w, a.r, a.ok, name);
        }
      } else {
        DiskKept(w, a);
      }
    }
  }

  lemma DequeueIs(w: World, a: Action)
    requires a.CleanupDequeue?
    ensures Apply(w, a) == DequeueFile(w, a.r)
  {
  }

  lemma UnlinkIs(w: World, a: Action)
    requires a.CleanupUnlink?
    ensures Apply(w, a) == UnlinkFile(w, a.r, a.ok)
  {
  }

  /** The attached content of an upload is what the client sent, whatever ran in between. */
  lemma AttachedContent(w0: World, w: World, r: nat)
    requires Reachable(w0, w) && At(w, r).UploadWritten?
    ensures
      var v, f := Apply(w, UploadInsert(r, true)), At(w, r).file;
      && Attachment(f.doc, f.name, f.user, |f.content|) in v.rows.attachments
      && f.name in v.disk && v.disk[f.name] == f.content
  {
    ReachableInv(w0, w);
    AtOk(w, r);
  }
}
