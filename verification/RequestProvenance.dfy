/**
 Where every entry of the log comes from: an action of the run by the same actor, on the same document, with the same
 content. So replaying the log is replaying what the users asked for.
 */
module RequestProvenance {
  import opened Outcomes
  import opened Library
  import opened DocumentRequests
  import opened RightsSafety
  import ReadRequests
  import Paths

  // ---------- one step of one request ----------

  /** A request that has asked for nothing that a commit would still have to carry out. */
  predicate Unasked(q: Request) {
    q.Idle? || q.UploadFailed? || q.CleanupDue? || q.Cleaning? || q.Unlinked?
  }

  /** How action a can move its own request on from q to next. */
  predicate Turns(w: World, a: Action, q: Request, next: Request) {
    || next == q || Unasked(next)
    || match a
       case ShareRead(_, d, u, target, edit) =>
         q.Idle? && d in w.rows.docs && w.rows.docs[d].owner == u && next == ShareReady(d, u, target, edit)
       case UnshareRead(_, d, u, target) =>
         q.Idle? && d in w.rows.docs && w.rows.docs[d].owner == u && next == UnshareReady(d, u, target)
       case DeleteRead(_, d, u) => q.Idle? && d in w.rows.docs && w.rows.docs[d].owner == u && next == DeleteReady(d, u)
       case CommentRead(_, d, u, body) => q.Idle? && next == CommentReady(d, u, body)
       case UploadRead(_, file) => q.Idle? && file.name !in w.used && next == UploadReady(file)
       case UploadBegin(_) => q.UploadReady? && next == UploadLocked(q.file)
       case UploadOpen(_, _) => q.UploadLocked? && next == UploadOpened(q.file)
       case UploadWrite(_, _, _) => q.UploadOpened? && next == UploadWritten(q.file)
       case _ => false
  }

  /** The entry that a step of this action adds to the log. */
  predicate NewEntry(w: World, a: Action, e: Entry) {
    match a
    case Create(u, title, body, visibility) => e == Entry(u, w.rows.nextDoc, Created(title, body, visibility))
    case Edit(d, u, data) => e == Entry(u, d, Updated(data))
    case ShareCommit(r) => var q := At(w, r); q.ShareReady? && e == Entry(q.user, q.doc, Shared(q.target, q.edit))
    case UnshareCommit(r) => var q := At(w, r); q.UnshareReady? && e == Entry(q.user, q.doc, Unshared(q.target))
    case DeleteCommit(r) => var q := At(w, r); q.DeleteReady? && e == Entry(q.user, q.doc, Deleted)
    case CommentCommit(r) => var q := At(w, r); q.CommentReady? && e == Entry(q.user, q.doc, Commented(q.body))
    case UploadInsert(r, _) =>
      var q := At(w, r);
      q.UploadWritten? && e == Entry(q.file.user, q.file.doc, Uploaded(q.file.name, |q.file.content|))
    case _ => false
  }

  ghost predicate Moves(w: World, a: Action, v: World) {
    && (forall s :: At(v, s) == At(w, s) || (!a.Create? && !a.Edit? && a.r == s && Turns(w, a, At(w, s), At(v, s))))
    && (v.log == w.log || exists e :: v.log == w.log + [e] && NewEntry(w, a, e))
  }

  lemma WritesMove(w: World, a: Action)
    requires a.Create? || a.Edit?
    ensures Moves(w, a, Apply(w, a))
  {
    hide CanEdit, UpdateStatus, Edited, InsertDocument;
  }

  lemma OwnerReadsMove(w: World, a: Action)
    requires a.ShareRead? || a.UnshareRead? || a.DeleteRead?
    ensures Moves(w, a, Apply(w, a))
  {
  }

  lemma OtherReadsMove(w: World, a: Action)
    requires a.CommentRead? || a.CleanupStart?
    ensures Moves(w, a, Apply(w, a))
  {
    hide CanAccess;
  }

  lemma CommitsMove(w: World, r: nat)
    ensures Moves(w, ShareCommit(r), ShareStep(w, r)) && Moves(w, UnshareCommit(r), UnshareStep(w, r))
    ensures Moves(w, DeleteCommit(r), DeleteStep(w, r))
  {
    hide Share, Unshare, Delete;
  }

  lemma CommentMoves(w: World, r: nat)
    ensures Moves(w, CommentCommit(r), CommentStep(w, r))
  {
    hide AddComment;
  }

  lemma UploadStartsMove(w: World, r: nat, file: File)
    ensures Moves(w, UploadRead(r, file), ReadForUpload(w, r, file)) && Moves(w, UploadBegin(r), BeginUpload(w, r))
  {
    hide CanEdit, UploadFits;
  }

  lemma FilesMove(w: World, r: nat, ok: bool, written: nat)
    ensures Moves(w, UploadOpen(r, ok), OpenFile(w, r, ok)) && Moves(w, UploadWrite(r, ok, written), WriteFile(w, r, ok, written))
  {
  }

  lemma InsertMoves(w: World, r: nat, ok: bool)
    ensures Moves(w, UploadInsert(r, ok), InsertFile(w, r, ok)) && Moves(w, UploadEnqueue(r), EnqueueFile(w, r))
  {
    hide Attach;
  }

  lemma CleanupMoves(w: World, r: nat, names: seq<string>, ok: bool)
    ensures Moves(w, CleanupRead(r, names), ReadQueue(w, r, names)) && Moves(w, CleanupUnlink(r, ok), UnlinkFile(w, r, ok))
    ensures Moves(w, CleanupDequeue(r), DequeueFile(w, r)) && Moves(w, Abort(r), Die(w, r))
  {
    hide Paths.Sealed;
  }

  lemma StepMoves(w: World, a: Action)
    ensures Moves(w, a, Apply(w, a))
  {
    hide Moves, ShareStep, UnshareStep, CommentStep, DeleteStep, ReadForUpload, BeginUpload, OpenFile, WriteFile, InsertFile,
      EnqueueFile, ReadQueue, UnlinkFile, DequeueFile, Die;
    match a
    case ShareCommit(r) => CommitsMove(w, r);
    case UnshareCommit(r) => CommitsMove(w, r);
    case DeleteCommit(r) => CommitsMove(w, r);
    case CommentCommit(r) => CommentMoves(w, r);
    case UploadRead(r, file) => UploadStartsMove(w, r, file);
    case UploadBegin(r) => UploadStartsMove(w, r, File(0, 0, [], ""));
    case UploadOpen(r, ok) => FilesMove(w, r, ok, 0);
    case UploadWrite(r, ok, written) => FilesMove(w, r, ok, written);
    case UploadInsert(r, ok) => InsertMoves(w, r, ok);
    case UploadEnqueue(r) => InsertMoves(w, r, true);
    case CleanupRead(r, names) => CleanupMoves(w, r, names, true);
    case CleanupUnlink(r, ok) => CleanupMoves(w, r, [], ok);
    case CleanupDequeue(r) => CleanupMoves(w, r, [], true);
    case Abort(r) => CleanupMoves(w, r, [], true);
    case _ => OtherSteps(w, a);
  }

  lemma OtherSteps(w: World, a: Action)
    requires a.Create? || a.Edit? || a.ShareRead? || a.UnshareRead? || a.DeleteRead? || a.CommentRead? || a.CleanupStart?
    ensures Moves(w, a, Apply(w, a))
  {
    hide Moves, Apply;
    if a.Create? || a.Edit? {
      WritesMove(w, a);
    } else if a.ShareRead? || a.UnshareRead? || a.DeleteRead? {
      OwnerReadsMove(w, a);
    } else {
      OtherReadsMove(w, a);
    }
  }

  // ---------- evidence ----------

  type Acts = set<Action>

  ghost predicate From(acts: Acts, r: nat, q: Request) {
    match q
    case ShareReady(d, u, target, edit) => ShareRead(r, d, u, target, edit) in acts
    case UnshareReady(d, u, target) => UnshareRead(r, d, u, target) in acts
    case DeleteReady(d, u) => DeleteRead(r, d, u) in acts
    case CommentReady(d, u, body) => CommentRead(r, d, u, body) in acts
    case UploadReady(file) => UploadRead(r, file) in acts
    case UploadLocked(file) => UploadRead(r, file) in acts
    case UploadOpened(file) => UploadRead(r, file) in acts
    case UploadWritten(file) => UploadRead(r, file) in acts
    case _ => true
  }

  /** Some action asked for exactly what the entry says. */
  ghost predicate Asked(acts: Acts, e: Entry) {
    match e.deed
    case Created(title, body, visibility) => Create(e.actor, title, body, visibility) in acts
    case Updated(data) => Edit(e.doc, e.actor, data) in acts
    case Shared(target, edit) => exists r :: ShareRead(r, e.doc, e.actor, target, edit) in acts
    case Unshared(target) => exists r :: UnshareRead(r, e.doc, e.actor, target) in acts
    case Deleted => exists r :: DeleteRead(r, e.doc, e.actor) in acts
    case Commented(body) => exists r :: CommentRead(r, e.doc, e.actor, body) in acts
    case Uploaded(name, size) =>
      exists r, content :: UploadRead(r, File(e.doc, e.actor, content, name)) in acts && |content| == size
  }

  ghost predicate Traced(w: World, acts: Acts) {
    && (forall r :: r in w.requests ==> From(acts, r, w.requests[r]))
    && (forall e :: e in w.log ==> Asked(acts, e))
  }

  lemma TurnsFrom(w: World, acts: Acts, a: Action, r: nat, q: Request, next: Request)
    requires From(acts, r, q) && !a.Create? && !a.Edit? && a.r == r && Turns(w, a, q, next)
    ensures From(acts + {a}, r, next)
  {
  }

  lemma FromMore(acts: Acts, a: Action, r: nat, q: Request)
    requires From(acts, r, q)
    ensures From(acts + {a}, r, q)
  {
  }

  lemma AskedMore(acts: Acts, a: Action, e: Entry)
    requires Asked(acts, e)
    ensures Asked(acts + {a}, e)
  {
    match e.deed
    case Shared(target, edit) =>
      var r :| ShareRead(r, e.doc, e.actor, target, edit) in acts;
      assert ShareRead(r, e.doc, e.actor, target, edit) in acts + {a};
    case Unshared(target) =>
      var r :| UnshareRead(r, e.doc, e.actor, target) in acts;
      assert UnshareRead(r, e.doc, e.actor, target) in acts + {a};
    case Deleted =>
      var r :| DeleteRead(r, e.doc, e.actor) in acts;
      assert DeleteRead(r, e.doc, e.actor) in acts + {a};
    case Commented(body) =>
      var r :| CommentRead(r, e.doc, e.actor, body) in acts;
      assert CommentRead(r, e.doc, e.actor, body) in acts + {a};
    case Uploaded(name, size) =>
      var r, content :| UploadRead(r, File(e.doc, e.actor, content, name)) in acts && |content| == size;
      assert UploadRead(r, File(e.doc, e.actor, content, name)) in acts + {a};
    case _ =>
  }

  lemma NewEntryAsked(w: World, acts: Acts, a: Action, e: Entry)
    requires NewEntry(w, a, e) && (a.Create? || a.Edit? || From(acts, a.r, At(w, a.r)))
    ensures Asked(acts + {a}, e)
  {
    if !a.Create? && !a.Edit? {
      var q, r := At(w, a.r), a.r;
      FromMore(acts, a, r, q);
      match a
      case ShareCommit(_) => assert ShareRead(r, q.doc, q.user, q.target, q.edit) in acts + {a};
      case UnshareCommit(_) => assert UnshareRead(r, q.doc, q.user, q.target) in acts + {a};
      case DeleteCommit(_) => assert DeleteRead(r, q.doc, q.user) in acts + {a};
      case CommentCommit(_) => assert CommentRead(r, q.doc, q.user, q.body) in acts + {a};
      case UploadInsert(_, _) =>
        assert UploadRead(r, File(e.doc, e.actor, q.file.content, q.file.name)) in acts + {a};
    }
  }

  lemma StepTraced(w: World, acts: Acts, a: Action)
    requires Traced(w, acts)
    ensures Traced(Apply(w, a), acts + {a})
  {
    hide Apply, From, Asked, Turns, NewEntry;
    StepMoves(w, a);
    var v := Apply(w, a);
    IdleFrom(acts);
    forall r | r in v.requests
      ensures From(acts + {a}, r, v.requests[r])
    {
      assert From(acts, r, At(w, r)) && At(v, r) == v.requests[r];
      if At(v, r) == At(w, r) {
        FromMore(acts, a, r, At(w, r));
      } else {
        TurnsFrom(w, acts, a, r, At(w, r), At(v, r));
      }
    }
    forall e | e in v.log
      ensures Asked(acts + {a}, e)
    {
      if e in w.log {
        AskedMore(acts, a, e);
      } else {
        if !a.Create? && !a.Edit? {
          assert From(acts, a.r, At(w, a.r));
        }
        NewEntryAsked(w, acts, a, e);
      }
    }
  }

  lemma IdleFrom(acts: Acts)
    ensures forall r :: From(acts, r, Idle)
  {
  }

  ghost function Done(actions: seq<Action>): Acts {
    set a | a in actions
  }

  lemma {:induction false} RunTraced(w: World, actions: seq<Action>, acts: Acts)
    requires Traced(w, acts)
    ensures Traced(Run(w, actions), acts + Done(actions))
    decreases |actions|
  {
    hide Apply, Traced;
    if actions == [] {
      assert acts + Done(actions) == acts;
    } else {
      StepTraced(w, acts, actions[0]);
      RunTraced(Apply(w, actions[0]), actions[1..], acts + {actions[0]});
      assert actions == [actions[0]] + actions[1..];
      assert acts + {actions[0]} + Done(actions[1..]) == acts + Done(actions);
    }
  }

  /** Every committed entry was asked for: by its actor, on its document, with its target, flag, columns or content. */
  lemma EntriesComeFromRequests(w0: World, actions: seq<Action>, e: Entry)
    requires Init(w0) && e in Run(w0, actions).log
    ensures Asked(Done(actions), e)
  {
    hide Run, Asked;
    assert Traced(w0, {});
    RunTraced(w0, actions, {});
    assert {} + Done(actions) == Done(actions);
  }

  // ---------- columns ----------

  /** The value that the last committed edit of the document gave the column, if one did. */
  function LastValue(log: seq<Entry>, d: DocId, column: string, was: string): string {
    if log == [] then was
    else
      var e := log[|log| - 1];
      if e.doc == d && e.deed.Updated? && column in e.deed.data then e.deed.data[column]
      else LastValue(log[..|log| - 1], d, column, was)
  }

  lemma EditedColumns(doc: Document, data: map<string, string>)
    ensures Columns(doc, Edited(doc, data), data)
  {
  }

  lemma {:induction false} EditsColumns(doc: Document, log: seq<Entry>, d: DocId)
    ensures
      var after := ReadRequests.Edits(doc, log, d);
      && after.owner == doc.owner
      && after.title == LastValue(log, d, "title", doc.title)
      && after.body == LastValue(log, d, "body", doc.body)
      && after.visibility == LastValue(log, d, "visibility", doc.visibility)
  {
    hide Edited;
    if log != [] {
      EditsColumns(doc, log[..|log| - 1], d);
      var e := log[|log| - 1];
      if e.doc == d && e.deed.Updated? {
        EditedColumns(ReadRequests.Edits(doc, log[..|log| - 1], d), e.deed.data);
      }
    }
  }

  /** In every interleaving each column of a document is what the last committed edit that names it says. */
  lemma ColumnsFollowEdits(w0: World, w: World, v: World, d: DocId)
    requires Reachable(w0, w) && ReadRequests.Follows(w, v) && d in w.rows.docs && d in v.rows.docs
    ensures
      var log, before, after := ReadRequests.Between(w, v), w.rows.docs[d], v.rows.docs[d];
      && after.owner == before.owner
      && after.title == LastValue(log, d, "title", before.title)
      && after.body == LastValue(log, d, "body", before.body)
      && after.visibility == LastValue(log, d, "visibility", before.visibility)
  {
    hide Reachable, ReadRequests.Follows;
    ReadRequests.TextIsEditsReplay(w0, w, v, d);
    EditsColumns(w.rows.docs[d], ReadRequests.Between(w, v), d);
  }
}
