/**
 The four limits survive every interleaving: documents per owner, comments per document, attachments and bytes per
 uploader. Each is checked and used up under the same write lock.
 */
module QuotaSafety {
  import opened Outcomes
  import opened Library
  import opened DocumentRequests
  import Paths

  predicate InLock(q: Request) {
    q.UploadLocked? || q.UploadOpened? || q.UploadWritten?
  }

  /** The upload that holds the lock still fits, because nobody else can write. */
  ghost predicate RoomKept(rows: seq<Attachment>, lim: Limits, lock: Option<nat>, requests: map<nat, Request>) {
    forall r :: r in requests && InLock(requests[r]) ==>
      && lock == Some(r)
      && FilesBy(rows, requests[r].file.user) < lim.attachments
      && BytesBy(rows, requests[r].file.user) + |requests[r].file.content| <= lim.bytes
  }

  ghost predicate DocumentsOk(docs: map<DocId, Document>, lim: Limits) {
    forall u :: |Owned(docs, u)| <= lim.documents
  }

  ghost predicate CommentsOk(comments: seq<Comment>, lim: Limits) {
    forall d :: CommentsOn(comments, d) <= lim.comments
  }

  ghost predicate FilesOk(rows: seq<Attachment>, lim: Limits) {
    forall u :: FilesBy(rows, u) <= lim.attachments && BytesBy(rows, u) <= lim.bytes
  }

  ghost predicate Inv(w: World) {
    && DocumentsOk(w.rows.docs, w.limits)
    && CommentsOk(w.rows.comments, w.limits)
    && FilesOk(w.rows.attachments, w.limits)
    && RoomKept(w.rows.attachments, w.limits, w.lock, w.requests)
  }

  lemma Fewer(a: set<DocId>, b: set<DocId>)
    requires a <= b
    ensures |a| <= |b|
  {
    assert b == a + (b - a);
  }

  lemma DocumentInserted(docs: map<DocId, Document>, lim: Limits, id: DocId, doc: Document)
    requires DocumentsOk(docs, lim) && |Owned(docs, doc.owner)| < lim.documents
    ensures DocumentsOk(docs[id := doc], lim)
  {
    var next := docs[id := doc];
    forall u
      ensures |Owned(next, u)| <= lim.documents
    {
      if u == doc.owner {
        Fewer(Owned(next, u), Owned(docs, u) + {id});
      } else {
        Fewer(Owned(next, u), Owned(docs, u));
      }
    }
  }

  lemma DocumentEdited(docs: map<DocId, Document>, lim: Limits, id: DocId, data: map<string, string>)
    requires DocumentsOk(docs, lim) && id in docs
    ensures DocumentsOk(docs[id := Edited(docs[id], data)], lim)
  {
    var next := docs[id := Edited(docs[id], data)];
    forall u
      ensures |Owned(next, u)| <= lim.documents
    {
      assert Owned(next, u) == Owned(docs, u);
    }
  }

  lemma DocumentDeleted(docs: map<DocId, Document>, lim: Limits, id: DocId)
    requires DocumentsOk(docs, lim)
    ensures DocumentsOk(docs - {id}, lim)
  {
    var next := docs - {id};
    forall u
      ensures |Owned(next, u)| <= lim.documents
    {
      Fewer(Owned(next, u), Owned(docs, u));
    }
  }

  lemma CommentAdded(comments: seq<Comment>, lim: Limits, c: Comment)
    requires CommentsOk(comments, lim) && CommentsOn(comments, c.doc) < lim.comments
    ensures CommentsOk(comments + [c], lim)
  {
    assert (comments + [c])[..|comments|] == comments;
  }

  lemma FileAdded(rows: seq<Attachment>, lim: Limits, a: Attachment)
    requires FilesOk(rows, lim) && FilesBy(rows, a.uploader) < lim.attachments
    requires BytesBy(rows, a.uploader) + a.size <= lim.bytes
    ensures FilesOk(rows + [a], lim)
  {
    assert (rows + [a])[..|rows|] == rows;
    forall u
      ensures FilesBy(rows + [a], u) <= lim.attachments && BytesBy(rows + [a], u) <= lim.bytes
    {
      assert FilesBy(rows, u) <= lim.attachments && BytesBy(rows, u) <= lim.bytes;
    }
  }

  /** Deleting one document gives back room to every uploader at once. */
  lemma RowsDeleted(rows: seq<Attachment>, comments: seq<Comment>, lim: Limits, d: DocId)
    requires FilesOk(rows, lim) && CommentsOk(comments, lim)
    ensures FilesOk(KeepAttachments(rows, d), lim) && CommentsOk(KeepComments(comments, d), lim)
  {
    forall u
      ensures FilesBy(KeepAttachments(rows, d), u) <= lim.attachments
      ensures BytesBy(KeepAttachments(rows, d), u) <= lim.bytes
    {
      KeptUsage(rows, d, u);
    }
    forall e
      ensures CommentsOn(KeepComments(comments, d), e) <= lim.comments
    {
      KeptComments(comments, d, e);
    }
  }

  /** A step outside the attachments table: only its own request moves, and the lock passes only through it. */
  lemma MoveKeeps(w: World, v: World, r: nat)
    requires Inv(w) && v.limits == w.limits
    requires DocumentsOk(v.rows.docs, w.limits) && CommentsOk(v.rows.comments, w.limits)
    requires v.rows.attachments == w.rows.attachments
    requires r in v.requests && v.requests == w.requests[r := v.requests[r]]
    requires v.lock == w.lock || (v.lock == Some(r) && w.lock == None) || (v.lock == None && w.lock == Some(r))
    requires InLock(v.requests[r]) ==>
      && v.lock == Some(r)
      && UploadFits(v.rows, v.limits, v.requests[r].file.user, |v.requests[r].file.content|)
    ensures Inv(v)
  {
  }

  lemma WritersKeep(w: World, a: Action)
    requires Inv(w)
    requires a.Create? || a.Edit? || a.CommentCommit?
    ensures Inv(Apply(w, a))
  {
    hide Inv, DocumentsOk, CommentsOk, FilesOk, RoomKept;
    Parts(w);
    if Apply(w, a) == w {
      return;
    }
    match a
    case Create(u, title, body, visibility) =>
      DocumentInserted(w.rows.docs, w.limits, w.rows.nextDoc, Document(u, title, body, visibility));
      Whole(Apply(w, a));
    case Edit(d, u, data) =>
      DocumentEdited(w.rows.docs, w.limits, d, data);
      Whole(Apply(w, a));
    case CommentCommit(r) =>
      CommentStepKeeps(w, r);
  }

  lemma Parts(w: World)
    ensures Inv(w) ==>
      && DocumentsOk(w.rows.docs, w.limits) && CommentsOk(w.rows.comments, w.limits)
      && FilesOk(w.rows.attachments, w.limits) && RoomKept(w.rows.attachments, w.limits, w.lock, w.requests)
  {
  }

  lemma Whole(w: World)
    ensures
      && DocumentsOk(w.rows.docs, w.limits) && CommentsOk(w.rows.comments, w.limits)
      && FilesOk(w.rows.attachments, w.limits) && RoomKept(w.rows.attachments, w.limits, w.lock, w.requests)
      ==> Inv(w)
  {
  }

  lemma CommentStepKeeps(w: World, r: nat)
    requires Inv(w)
    ensures Inv(CommentStep(w, r))
  {
    var v := CommentStep(w, r);
    if At(w, r).CommentReady? && w.lock == None {
      var c := Comment(At(w, r).doc, At(w, r).user, At(w, r).body);
      if AddComment(w.rows, w.limits, c).Some? {
        CommentAdded(w.rows.comments, w.limits, c);
      }
      hide DocumentsOk, CommentsOk, FilesOk, RoomKept;
      MoveKeeps(w, v, r);
    }
  }

  lemma DeleteStepKeeps(w: World, r: nat)
    requires Inv(w)
    ensures Inv(DeleteStep(w, r))
  {
    if At(w, r).DeleteReady? && w.lock == None {
      DocumentDeleted(w.rows.docs, w.limits, At(w, r).doc);
      RowsDeleted(w.rows.attachments, w.rows.comments, w.limits, At(w, r).doc);
    }
  }

  lemma InsertFileKeeps(w: World, r: nat, ok: bool)
    requires Inv(w)
    ensures Inv(InsertFile(w, r, ok))
  {
    if At(w, r).UploadWritten? && ok {
      var f := At(w, r).file;
      FileAdded(w.rows.attachments, w.limits, Attachment(f.doc, f.name, f.user, |f.content|));
    }
  }

  lemma UploadStepsKeep(w: World, a: Action)
    requires Inv(w) && (a.UploadRead? || a.UploadBegin? || a.UploadOpen? || a.UploadWrite?)
    ensures Inv(Apply(w, a))
  {
    hide DocumentsOk, CommentsOk, FilesOk, CanEdit;
    if Apply(w, a) != w {
      MoveKeeps(w, Apply(w, a), a.r);
    }
  }

  lemma OwnerReadsKeep(w: World, a: Action)
    requires Inv(w)
    requires a.ShareRead? || a.UnshareRead? || a.CommentRead? || a.DeleteRead? || a.CleanupStart?
    ensures Inv(Apply(w, a))
  {
    hide DocumentsOk, CommentsOk, FilesOk, RoomKept, CanAccess, IsOwner;
    if Apply(w, a) != w {
      MoveKeeps(w, Apply(w, a), a.r);
    }
  }

  lemma ShareWritesKeep(w: World, a: Action)
    requires Inv(w) && (a.ShareCommit? || a.UnshareCommit? || a.UploadEnqueue?)
    ensures Inv(Apply(w, a))
  {
    hide DocumentsOk, CommentsOk, FilesOk, RoomKept;
    if Apply(w, a) != w {
      MoveKeeps(w, Apply(w, a), a.r);
    }
  }

  lemma CleanupStepsKeep(w: World, a: Action)
    requires Inv(w) && (a.CleanupRead? || a.CleanupUnlink? || a.CleanupDequeue? || a.Abort?)
    ensures Inv(Apply(w, a))
  {
    hide DocumentsOk, CommentsOk, FilesOk, RoomKept, Paths.Sealed;
    if Apply(w, a) != w {
      MoveKeeps(w, Apply(w, a), a.r);
    }
  }

  lemma StepKeeps(w: World, a: Action)
    requires Inv(w)
    ensures Inv(Apply(w, a))
  {
    hide Inv;
    if a.Create? || a.Edit? || a.CommentCommit? {
      WritersKeep(w, a);
    } else if a.DeleteCommit? {
      DeleteStepKeeps(w, a.r);
    } else if a.UploadInsert? {
      InsertFileKeeps(w, a.r, a.ok);
    } else if a.UploadRead? || a.UploadBegin? || a.UploadOpen? || a.UploadWrite? {
      UploadStepsKeep(w, a);
    } else if a.ShareRead? || a.UnshareRead? || a.CommentRead? || a.DeleteRead? || a.CleanupStart? {
      OwnerReadsKeep(w, a);
    } else if a.ShareCommit? || a.UnshareCommit? || a.UploadEnqueue? {
      ShareWritesKeep(w, a);
    } else {
      CleanupStepsKeep(w, a);
    }
  }

  lemma {:induction false} RunKeeps(w: World, actions: seq<Action>)
    requires Inv(w)
    ensures Inv(Run(w, actions))
    decreases |actions|
  {
    if actions != [] {
      StepKeeps(w, actions[0]);
      RunKeeps(Apply(w, actions[0]), actions[1..]);
    }
  }

  lemma {:induction false} LimitsStay(w: World, actions: seq<Action>)
    ensures Run(w, actions).limits == w.limits
    decreases |actions|
  {
    if actions != [] {
      LimitsStay(Apply(w, actions[0]), actions[1..]);
    }
  }

  /** From a state within limits every interleaving stays within them. */
  lemma LimitsHold(w0: World, w: World)
    requires Reachable(w0, w)
    ensures WithinLimits(w.rows, w0.limits)
  {
    var actions :| w == Run(w0, actions);
    RunKeeps(w0, actions);
    LimitsStay(w0, actions);
  }
}
