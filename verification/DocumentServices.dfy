/**
 What each request on documents achieves when nothing disturbs it: exactly when it is granted, and the tables and the
 folder afterwards, value by value.
 */
module DocumentServices {
  import opened Outcomes
  import opened Library
  import opened DocumentRequests
  import Paths

  /** A document is created under the next id exactly when the owner has fewer than the limit. */
  lemma CreateAlone(w: World, u: UserId, title: string, body: string, visibility: string)
    requires w.lock == None
    ensures
      var v := Apply(w, Create(u, title, body, visibility));
      if (visibility == "private" || visibility == "public")
         && |set d | d in w.rows.docs && w.rows.docs[d].owner == u| < w.limits.documents
      then v.rows == w.rows.(docs := w.rows.docs[w.rows.nextDoc := Document(u, title, body, visibility)],
                             nextDoc := w.rows.nextDoc + 1)
      else v == w
  {
    assert Owned(w.rows.docs, u) == set d | d in w.rows.docs && w.rows.docs[d].owner == u;
  }

  /**
   An edit is carried out exactly by somebody who may edit, with a known visibility if any, and with another one than
   before only by the owner; then each column given is the new one and each other as before.
   */
  lemma EditAlone(w: World, d: DocId, u: UserId, data: map<string, string>)
    requires w.lock == None
    ensures
      var v := Apply(w, Edit(d, u, data));
      if && d in w.rows.docs
         && (w.rows.docs[d].owner == u || ((d, u) in w.rows.shares && w.rows.shares[(d, u)]))
         && ("visibility" in data ==>
               && (data["visibility"] == "private" || data["visibility"] == "public")
               && (data["visibility"] == w.rows.docs[d].visibility || w.rows.docs[d].owner == u))
      then d in v.rows.docs && Columns(w.rows.docs[d], v.rows.docs[d], data)
           && v.rows == w.rows.(docs := w.rows.docs[d := v.rows.docs[d]])
      else v == w
  {
  }

  // ---------- sharing ----------

  lemma ReadsForShare(w: World, r: nat, d: DocId, u: UserId, target: UserId, edit: bool)
    requires At(w, r).Idle?
    ensures Apply(w, ShareRead(r, d, u, target, edit)) ==
      if d in w.rows.docs && w.rows.docs[d].owner == u
      then w.(requests := w.requests[r := ShareReady(d, u, target, edit)]) else w
  {
  }

  lemma CommitsShare(w: World, r: nat)
    requires At(w, r).ShareReady? && w.lock == None && At(w, r).doc in w.rows.docs
    ensures
      var q := At(w, r);
      Apply(w, ShareCommit(r)).rows == w.rows.(shares := w.rows.shares[(q.doc, q.target) := q.edit])
  {
  }

  /** The owner's share lets the target read, and edit exactly if the owner said so. */
  lemma ShareAlone(w: World, r: nat, d: DocId, u: UserId, target: UserId, edit: bool)
    requires At(w, r).Idle? && w.lock == None && d in w.rows.docs && w.rows.docs[d].owner == u && target != u
    ensures
      var v := Apply(Apply(w, ShareRead(r, d, u, target, edit)), ShareCommit(r));
      && v.rows == w.rows.(shares := w.rows.shares[(d, target) := edit])
      && CanAccess(v.rows, d, target) && (CanEdit(v.rows, d, target) <==> edit)
  {
    ReadsForShare(w, r, d, u, target, edit);
    CommitsShare(Apply(w, ShareRead(r, d, u, target, edit)), r);
    hide Apply;
  }

  lemma ReadsForUnshare(w: World, r: nat, d: DocId, u: UserId, target: UserId)
    requires At(w, r).Idle?
    ensures Apply(w, UnshareRead(r, d, u, target)) ==
      if d in w.rows.docs && w.rows.docs[d].owner == u
      then w.(requests := w.requests[r := UnshareReady(d, u, target)]) else w
  {
  }

  lemma CommitsUnshare(w: World, r: nat)
    requires At(w, r).UnshareReady? && w.lock == None
    ensures
      var q := At(w, r);
      Apply(w, UnshareCommit(r)).rows == w.rows.(shares := w.rows.shares - {(q.doc, q.target)})
  {
  }

  /** The owner's revoke leaves the target with what everybody has. */
  lemma UnshareAlone(w: World, r: nat, d: DocId, u: UserId, target: UserId)
    requires At(w, r).Idle? && w.lock == None && d in w.rows.docs && w.rows.docs[d].owner == u && target != u
    ensures
      var v := Apply(Apply(w, UnshareRead(r, d, u, target)), UnshareCommit(r));
      && v.rows == w.rows.(shares := w.rows.shares - {(d, target)})
      && (CanAccess(v.rows, d, target) <==> w.rows.docs[d].visibility == "public") && !CanEdit(v.rows, d, target)
  {
    ReadsForUnshare(w, r, d, u, target);
    CommitsUnshare(Apply(w, UnshareRead(r, d, u, target)), r);
    hide Apply;
  }

  // ---------- deleting ----------

  lemma ReadsForDelete(w: World, r: nat, d: DocId, u: UserId)
    requires At(w, r).Idle?
    ensures Apply(w, DeleteRead(r, d, u)) ==
      if d in w.rows.docs && w.rows.docs[d].owner == u then w.(requests := w.requests[r := DeleteReady(d, u)]) else w
  {
  }

  lemma CommitsDelete(w: World, r: nat)
    requires At(w, r).DeleteReady? && w.lock == None
    ensures Apply(w, DeleteCommit(r)).rows == Delete(w.rows, At(w, r).doc)
    ensures At(Apply(w, DeleteCommit(r)), r) == CleanupDue
  {
    hide Delete;
  }

  lemma DeletedRows(t: Tables, d: DocId)
    ensures
      var s := Delete(t, d);
      && s.docs == t.docs - {d} && s.nextDoc == t.nextDoc
      && (forall p :: p in s.shares <==> p in t.shares && p.0 != d)
      && (forall p :: p in s.shares ==> s.shares[p] == t.shares[p])
      && (forall c :: c in s.comments <==> c in t.comments && c.doc != d)
      && (forall a :: a in s.attachments <==> a in t.attachments && a.doc != d)
      && (forall n :: n in s.queue <==> n in t.queue || exists a :: a in t.attachments && a.doc == d && a.name == n)
  {
    forall c
      ensures c in KeepComments(t.comments, d) <==> c in t.comments && c.doc != d
    {
      KeptComment(t.comments, d, c);
    }
    forall a
      ensures a in KeepAttachments(t.attachments, d) <==> a in t.attachments && a.doc != d
    {
      KeptAttachment(t.attachments, d, a);
    }
  }

  /** The owner's delete removes the document with all its rows, queues its files and goes on to clean up. */
  lemma DeleteAlone(w: World, r: nat, d: DocId, u: UserId)
    requires At(w, r).Idle? && w.lock == None && d in w.rows.docs && w.rows.docs[d].owner == u
    ensures
      var t, v := w.rows, Apply(Apply(w, DeleteRead(r, d, u)), DeleteCommit(r));
      var s := v.rows;
      && At(v, r) == CleanupDue && s.docs == t.docs - {d} && s.nextDoc == t.nextDoc
      && (forall p :: p in s.shares <==> p in t.shares && p.0 != d)
      && (forall c :: c in s.comments <==> c in t.comments && c.doc != d)
      && (forall a :: a in s.attachments <==> a in t.attachments && a.doc != d)
      && (forall n :: n in s.queue <==> n in t.queue || exists a :: a in t.attachments && a.doc == d && a.name == n)
  {
    ReadsForDelete(w, r, d, u);
    CommitsDelete(Apply(w, DeleteRead(r, d, u)), r);
    DeletedRows(w.rows, d);
    hide Apply, Delete;
  }

  /** Nobody but the owner shares, revokes or deletes: the request ends at its first check. */
  lemma OthersAreRefused(w: World, r: nat, d: DocId, u: UserId, target: UserId, edit: bool)
    requires At(w, r).Idle? && (d in w.rows.docs ==> w.rows.docs[d].owner != u)
    ensures Apply(w, ShareRead(r, d, u, target, edit)) == w && Apply(w, UnshareRead(r, d, u, target)) == w
    ensures Apply(w, DeleteRead(r, d, u)) == w
  {
    ReadsForShare(w, r, d, u, target, edit);
    ReadsForUnshare(w, r, d, u, target);
    ReadsForDelete(w, r, d, u);
    hide Apply;
  }

  // ---------- commenting ----------

  predicate Reads(t: Tables, d: DocId, u: UserId) {
    d in t.docs && (t.docs[d].visibility == "public" || t.docs[d].owner == u || (d, u) in t.shares)
  }

  predicate Edits(t: Tables, d: DocId, u: UserId) {
    d in t.docs && (t.docs[d].owner == u || ((d, u) in t.shares && t.shares[(d, u)]))
  }

  lemma ReadsForComment(w: World, r: nat, d: DocId, u: UserId, body: string)
    requires At(w, r).Idle?
    ensures Apply(w, CommentRead(r, d, u, body)) ==
      if Reads(w.rows, d, u) then w.(requests := w.requests[r := CommentReady(d, u, body)]) else w
  {
  }

  lemma CommitsComment(w: World, r: nat)
    requires At(w, r).CommentReady? && w.lock == None && Reads(w.rows, At(w, r).doc, At(w, r).user)
    ensures
      var q := At(w, r);
      Apply(w, CommentCommit(r)).rows ==
        if CommentsOn(w.rows.comments, q.doc) < w.limits.comments
        then w.rows.(comments := w.rows.comments + [Comment(q.doc, q.user, q.body)]) else w.rows
  {
    hide CommentsOn;
  }

  /** A comment is added exactly for somebody who may read, below the document's limit. */
  lemma CommentAlone(w: World, r: nat, d: DocId, u: UserId, body: string)
    requires At(w, r).Idle? && w.lock == None
    ensures
      var v, rows := Apply(Apply(w, CommentRead(r, d, u, body)), CommentCommit(r)), w.rows.comments;
      v.rows ==
        if Reads(w.rows, d, u) && |set i | 0 <= i < |rows| && rows[i].doc == d| < w.limits.comments
        then w.rows.(comments := rows + [Comment(d, u, body)]) else w.rows
  {
    ReadsForComment(w, r, d, u, body);
    CommentsCounted(w.rows.comments, d);
    if Reads(w.rows, d, u) {
      CommitsComment(Apply(w, CommentRead(r, d, u, body)), r);
    } else {
      NoComment(w, r);
    }
    hide Apply, CommentsOn;
  }

  lemma NoComment(w: World, r: nat)
    requires At(w, r).Idle?
    ensures Apply(w, CommentCommit(r)) == w
  {
  }

  // ---------- uploading ----------

  lemma ReadsForUploading(w: World, r: nat, f: File)
    requires At(w, r).Idle? && f.name !in w.used
    ensures Apply(w, UploadRead(r, f)) ==
      if Edits(w.rows, f.doc, f.user)
      then w.(used := w.used + {f.name}, requests := w.requests[r := UploadReady(f)]) else w
  {
  }

  lemma Begins(w: World, r: nat)
    requires At(w, r).UploadReady? && w.lock == None && Edits(w.rows, At(w, r).file.doc, At(w, r).file.user)
    ensures
      var f := At(w, r).file;
      Apply(w, UploadBegin(r)) ==
        if FilesBy(w.rows.attachments, f.user) < w.limits.attachments
           && BytesBy(w.rows.attachments, f.user) + |f.content| <= w.limits.bytes
        then w.(requests := w.requests[r := UploadLocked(f)], lock := Some(r))
        else w.(requests := w.requests[r := Idle])
  {
    hide FilesBy, BytesBy;
  }

  lemma Stores(w: World, r: nat)
    requires At(w, r).UploadLocked? && At(w, r).file.name !in w.disk
    ensures
      var f, v := At(w, r).file, Apply(Apply(w, UploadOpen(r, true)), UploadWrite(r, true, 0));
      && v.rows == w.rows && v.disk == w.disk[f.name := f.content] && At(v, r) == UploadWritten(f)
  {
  }

  lemma Attaches(w: World, r: nat)
    requires At(w, r).UploadWritten?
    ensures
      var f, v := At(w, r).file, Apply(w, UploadInsert(r, true));
      && v.rows == w.rows.(attachments := w.rows.attachments + [Attachment(f.doc, f.name, f.user, |f.content|)])
      && v.disk == w.disk && v.lock == None && At(v, r) == Idle
  {
  }

  /** The steps of an upload in which nothing fails. */
  function UploadSteps(w: World, r: nat, f: File): World {
    var locked := Apply(Apply(w, UploadRead(r, f)), UploadBegin(r));
    Apply(Apply(Apply(locked, UploadOpen(r, true)), UploadWrite(r, true, 0)), UploadInsert(r, true))
  }

  /** When nothing fails, a file is attached exactly for somebody who may edit, within both limits. */
  lemma UploadAlone(w: World, r: nat, f: File)
    requires At(w, r).Idle? && w.lock == None && f.name !in w.used && f.name !in w.disk
    ensures
      var v, rows := UploadSteps(w, r, f), w.rows.attachments;
      if && Edits(w.rows, f.doc, f.user) && |set i | 0 <= i < |rows| && rows[i].uploader == f.user| < w.limits.attachments
         && BytesBy(rows, f.user) + |f.content| <= w.limits.bytes
      then v.rows == w.rows.(attachments := rows + [Attachment(f.doc, f.name, f.user, |f.content|)])
           && v.disk == w.disk[f.name := f.content] && v.lock == None
      else v.rows == w.rows && v.disk == w.disk && v.lock == None
  {
    hide Apply, FilesBy, BytesBy;
    ReadsForUploading(w, r, f);
    FilesCounted(w.rows.attachments, f.user);
    var x := Apply(w, UploadRead(r, f));
    if Edits(w.rows, f.doc, f.user) {
      Begins(x, r);
      var y := Apply(x, UploadBegin(r));
      if At(y, r).UploadLocked? {
        Stores(y, r);
        Attaches(Apply(Apply(y, UploadOpen(r, true)), UploadWrite(r, true, 0)), r);
      } else {
        Ended(y, r);
      }
    } else {
      NoUpload(x, r);
      Ended(x, r);
    }
  }

  lemma NoUpload(w: World, r: nat)
    requires At(w, r).Idle?
    ensures Apply(w, UploadBegin(r)) == w
  {
  }

  lemma Ended(w: World, r: nat)
    requires At(w, r).Idle?
    ensures Apply(w, UploadOpen(r, true)) == w && Apply(w, UploadWrite(r, true, 0)) == w && Apply(w, UploadInsert(r, true)) == w
  {
  }

  // ---------- failed uploads ----------

  /** An upload whose write fails leaves part of the content, lets go of the lock and queues the file for deletion. */
  lemma FailedUploadAlone(w: World, r: nat, written: nat)
    requires At(w, r).UploadOpened? && At(w, r).file.name in w.disk
    ensures
      var f := At(w, r).file;
      var x := Apply(w, UploadWrite(r, false, written));
      var v := Apply(x, UploadEnqueue(r));
      && x.lock == None && f.name in x.disk && x.disk[f.name] <= f.content
      && v.rows == w.rows.(queue := w.rows.queue + {f.name}) && At(v, r) == CleanupDue
  {
  }
}
