/**
 The document tables and the statements that documents.py, sharing.py, comments.py, quotas.py and files.py run on
 them. Functions give each write as a change of the tables; the class holds tables and upload folder as the
 requests update them and is proved against the functions.
 */
module Library {
  import opened Outcomes
  import Paths

  type UserId = nat
  type DocId = nat
  type Byte = b: nat | b < 256

  datatype Document = Document(owner: UserId, title: string, body: string, visibility: string)
  datatype Comment = Comment(doc: DocId, author: UserId, body: string)
  datatype Attachment = Attachment(doc: DocId, name: string, uploader: UserId, size: nat)

  /** `nextDoc` is the AUTOINCREMENT counter; `queue` is pending_file_deletions. */
  datatype Tables = Tables(
    docs: map<DocId, Document>,
    nextDoc: DocId,
    shares: map<(DocId, UserId), bool>,
    comments: seq<Comment>,
    attachments: seq<Attachment>,
    queue: set<string>)

  datatype Limits = Limits(documents: nat, comments: nat, attachments: nat, bytes: nat)

  const VALID_VISIBILITY: set<string> := {"private", "public"}

  // ---------- rights ----------

  predicate CanAccess(t: Tables, d: DocId, u: UserId) {
    d in t.docs && (t.docs[d].visibility == "public" || t.docs[d].owner == u || (d, u) in t.shares)
  }

  predicate CanEdit(t: Tables, d: DocId, u: UserId) {
    d in t.docs && (t.docs[d].owner == u || ((d, u) in t.shares && t.shares[(d, u)]))
  }

  predicate IsOwner(t: Tables, d: DocId, u: UserId) {
    d in t.docs && t.docs[d].owner == u
  }

  // ---------- usage ----------

  function Owned(docs: map<DocId, Document>, u: UserId): set<DocId> {
    set d | d in docs && docs[d].owner == u
  }

  function CommentsOn(comments: seq<Comment>, d: DocId): nat {
    if comments == [] then 0
    else CommentsOn(comments[..|comments| - 1], d) + if comments[|comments| - 1].doc == d then 1 else 0
  }

  function FilesBy(rows: seq<Attachment>, u: UserId): nat {
    if rows == [] then 0
    else FilesBy(rows[..|rows| - 1], u) + if rows[|rows| - 1].uploader == u then 1 else 0
  }

  function BytesBy(rows: seq<Attachment>, u: UserId): nat {
    if rows == [] then 0
    else BytesBy(rows[..|rows| - 1], u) + if rows[|rows| - 1].uploader == u then rows[|rows| - 1].size else 0
  }

  // ---------- writes ----------

  function InsertDocument(t: Tables, lim: Limits, doc: Document): Option<Tables> {
    if |Owned(t.docs, doc.owner)| >= lim.documents then None
    else Some(t.(docs := t.docs[t.nextDoc := doc], nextDoc := t.nextDoc + 1))
  }

  datatype Status = Ok | BadRequest | Forbidden | NotFound

  const COLUMNS: seq<string> := ["title", "body", "visibility"]

  /** The answer of update_document to a JSON object; members other than the three columns are ignored. */
  function UpdateStatus(t: Tables, d: DocId, u: UserId, data: map<string, string>): Status {
    if d !in t.docs then NotFound
    else if !CanEdit(t, d, u) then Forbidden
    else if "visibility" in data && data["visibility"] != t.docs[d].visibility && t.docs[d].owner != u then Forbidden
    else if "visibility" in data && data["visibility"] !in VALID_VISIBILITY then BadRequest
    else Ok
  }

  function Edited(doc: Document, data: map<string, string>): Document {
    doc.(title := if "title" in data then data["title"] else doc.title,
         body := if "body" in data then data["body"] else doc.body,
         visibility := if "visibility" in data then data["visibility"] else doc.visibility)
  }

  /** Each column is the one given, or else the one there was. */
  predicate Columns(before: Document, after: Document, data: map<string, string>) {
    && after.owner == before.owner
    && after.title == (if "title" in data then data["title"] else before.title)
    && after.body == (if "body" in data then data["body"] else before.body)
    && after.visibility == (if "visibility" in data then data["visibility"] else before.visibility)
  }

  function Update(t: Tables, d: DocId, u: UserId, data: map<string, string>): Tables {
    if UpdateStatus(t, d, u, data).Ok? then t.(docs := t.docs[d := Edited(t.docs[d], data)]) else t
  }

  function KeepComments(rows: seq<Comment>, d: DocId): seq<Comment> {
    if rows == [] then []
    else KeepComments(rows[..|rows| - 1], d) + if rows[|rows| - 1].doc == d then [] else [rows[|rows| - 1]]
  }

  function KeepAttachments(rows: seq<Attachment>, d: DocId): seq<Attachment> {
    if rows == [] then []
    else KeepAttachments(rows[..|rows| - 1], d) + if rows[|rows| - 1].doc == d then [] else [rows[|rows| - 1]]
  }

  function NamesOf(rows: seq<Attachment>, d: DocId): set<string> {
    set a | a in rows && a.doc == d :: a.name
  }

  function AttachedNames(rows: seq<Attachment>): set<string> {
    set a | a in rows :: a.name
  }

  function DropShares(shares: map<(DocId, UserId), bool>, d: DocId): map<(DocId, UserId), bool> {
    map p | p in shares && p.0 != d :: shares[p]
  }

  datatype ChildTable = InComments | InShares | InAttachments

  const CHILD_TABLES: seq<ChildTable> := [InComments, InShares, InAttachments]

  /** The transaction of delete_document. */
  function Delete(t: Tables, d: DocId): Tables {
    t.(docs := t.docs - {d},
       shares := DropShares(t.shares, d),
       comments := KeepComments(t.comments, d),
       attachments := KeepAttachments(t.attachments, d),
       queue := t.queue + NamesOf(t.attachments, d))
  }

  /** The upsert; the foreign key makes it raise when the document is gone. */
  function Share(t: Tables, d: DocId, u: UserId, edit: bool): Tables {
    if d in t.docs then t.(shares := t.shares[(d, u) := edit]) else t
  }

  function Unshare(t: Tables, d: DocId, u: UserId): Tables {
    t.(shares := t.shares - {(d, u)})
  }

  function AddComment(t: Tables, lim: Limits, c: Comment): Option<Tables> {
    if !CanAccess(t, c.doc, c.author) || CommentsOn(t.comments, c.doc) >= lim.comments then None
    else Some(t.(comments := t.comments + [c]))
  }

  predicate UploadFits(t: Tables, lim: Limits, u: UserId, size: nat) {
    FilesBy(t.attachments, u) < lim.attachments && BytesBy(t.attachments, u) + size <= lim.bytes
  }

  function Attach(t: Tables, a: Attachment): Tables {
    t.(attachments := t.attachments + [a])
  }

  // ---------- lemmas about rows ----------

  lemma OneMore(before: set<int>, after: set<int>, i: int, hit: bool)
    requires i !in before && after == before + if hit then {i} else {}
    ensures |after| == |before| + if hit then 1 else 0
  {
  }

  /** The usage figures are counts of rows. */
  lemma {:induction false} CommentsCounted(rows: seq<Comment>, d: DocId)
    ensures CommentsOn(rows, d) == |set i | 0 <= i < |rows| && rows[i].doc == d|
  {
    if rows != [] {
      var n := |rows| - 1;
      CommentsCounted(rows[..n], d);
      var before, after := set i | 0 <= i < n && rows[..n][i].doc == d, set i | 0 <= i < |rows| && rows[i].doc == d;
      assert after == before + if rows[n].doc == d then {n} else {};
      OneMore(before, after, n, rows[n].doc == d);
    }
  }

  lemma {:induction false} FilesCounted(rows: seq<Attachment>, u: UserId)
    ensures FilesBy(rows, u) == |set i | 0 <= i < |rows| && rows[i].uploader == u|
  {
    if rows != [] {
      var n := |rows| - 1;
      FilesCounted(rows[..n], u);
      var before, after := set i | 0 <= i < n && rows[..n][i].uploader == u, set i | 0 <= i < |rows| && rows[i].uploader == u;
      assert after == before + if rows[n].uploader == u then {n} else {};
      OneMore(before, after, n, rows[n].uploader == u);
    }
  }

  /** Bytes add up, row by row. */
  lemma {:induction false} BytesAdded(a: seq<Attachment>, b: seq<Attachment>, u: UserId)
    ensures BytesBy(a + b, u) == BytesBy(a, u) + BytesBy(b, u)
    ensures forall x: Attachment :: BytesBy([x], u) == if x.uploader == u then x.size else 0
  {
    assert forall x: Attachment :: [x][..0] == [];
    if b == [] {
      assert a + b == a;
    } else {
      assert (a + b)[..|a + b| - 1] == a + b[..|b| - 1];
      BytesAdded(a, b[..|b| - 1], u);
    }
  }

  lemma {:induction false} KeptAttachment(rows: seq<Attachment>, d: DocId, a: Attachment)
    ensures a in KeepAttachments(rows, d) <==> a in rows && a.doc != d
  {
    if rows != [] {
      var last := rows[|rows| - 1];
      assert rows == rows[..|rows| - 1] + [last];
      KeptAttachment(rows[..|rows| - 1], d, a);
    }
  }

  lemma {:induction false} KeptComment(rows: seq<Comment>, d: DocId, c: Comment)
    ensures c in KeepComments(rows, d) <==> c in rows && c.doc != d
  {
    if rows != [] {
      var last := rows[|rows| - 1];
      assert rows == rows[..|rows| - 1] + [last];
      KeptComment(rows[..|rows| - 1], d, c);
    }
  }

  /** Clearing the rows of a document that has none changes nothing. */
  lemma {:induction false} NothingToClear(rows: seq<Attachment>, comments: seq<Comment>, d: DocId)
    ensures (forall a :: a in rows ==> a.doc != d) ==> KeepAttachments(rows, d) == rows
    ensures (forall c :: c in comments ==> c.doc != d) ==> KeepComments(comments, d) == comments
    decreases |rows| + |comments|
  {
    if rows != [] {
      NothingToClear(rows[..|rows| - 1], [], d);
      assert rows == rows[..|rows| - 1] + [rows[|rows| - 1]];
    }
    if comments != [] {
      NothingToClear([], comments[..|comments| - 1], d);
      assert comments == comments[..|comments| - 1] + [comments[|comments| - 1]];
    }
  }

  lemma {:induction false} KeptUsage(rows: seq<Attachment>, d: DocId, u: UserId)
    ensures FilesBy(KeepAttachments(rows, d), u) <= FilesBy(rows, u)
    ensures BytesBy(KeepAttachments(rows, d), u) <= BytesBy(rows, u)
  {
    if rows != [] {
      var last := rows[|rows| - 1];
      var kept := KeepAttachments(rows[..|rows| - 1], d);
      KeptUsage(rows[..|rows| - 1], d, u);
      assert (kept + [last])[..|kept|] == kept && kept + [] == kept;
    }
  }

  lemma {:induction false} KeptComments(rows: seq<Comment>, d: DocId, e: DocId)
    ensures CommentsOn(KeepComments(rows, d), e) == if d == e then 0 else CommentsOn(rows, e)
  {
    if rows != [] {
      var last := rows[|rows| - 1];
      var kept := KeepComments(rows[..|rows| - 1], d);
      KeptComments(rows[..|rows| - 1], d, e);
      assert (kept + [last])[..|kept|] == kept && kept + [] == kept;
    }
  }

  ghost predicate DistinctNames(rows: seq<Attachment>) {
    forall i, j :: 0 <= i < j < |rows| ==> rows[i].name != rows[j].name
  }

  lemma {:induction false} KeptDistinct(rows: seq<Attachment>, d: DocId)
    requires DistinctNames(rows)
    ensures DistinctNames(KeepAttachments(rows, d))
    ensures NamesOf(rows, d) !! AttachedNames(KeepAttachments(rows, d))
    ensures NamesOf(rows, d) + AttachedNames(KeepAttachments(rows, d)) == AttachedNames(rows)
  {
    var kept := KeepAttachments(rows, d);
    if rows != [] {
      var init, last := rows[..|rows| - 1], rows[|rows| - 1];
      KeptDistinct(init, d);
      forall a | a in KeepAttachments(init, d)
        ensures a.name != last.name
      {
        KeptAttachment(init, d, a);
      }
    }
    forall a
      ensures a in kept <==> a in rows && a.doc != d
    {
      KeptAttachment(rows, d, a);
    }
    forall a, b | a in rows && b in rows && a.name == b.name
      ensures a == b
    {
      var i :| 0 <= i < |rows| && rows[i] == a;
      var j :| 0 <= j < |rows| && rows[j] == b;
    }
  }

  // ---------- the tables and the folder in place ----------

  /** Which file-system or database call of an upload raises. */
  datatype Fault = NoFault | OpenFails | WriteFails(written: nat) | InsertFails

  /** The names a clean-up pass can finish: sealed, and their file missing or unlinked. */
  function Removable(folder: seq<string>, names: set<string>, stuck: set<string>): set<string> {
    set n | n in names && Paths.Sealed(folder, n) && n !in stuck
  }

  lemma RemovableOfNone(folder: seq<string>, stuck: set<string>)
    ensures Removable(folder, {}, stuck) == {}
  {
  }

  lemma RemovableNext(folder: seq<string>, names: set<string>, name: string, stuck: set<string>)
    ensures Removable(folder, names + {name}, stuck) ==
      Removable(folder, names, stuck) + (if Paths.Sealed(folder, name) && name !in stuck then {name} else {})
  {
    hide Paths.Sealed;
  }

  lemma RemoveOne(names: set<string>, disk: map<string, seq<Byte>>, removed: set<string>, name: string)
    ensures names - removed - {name} == names - (removed + {name})
    ensures disk - removed - {name} == disk - (removed + {name})
  {
  }

  lemma MoveOne(seen: set<string>, rows: set<string>, name: string)
    requires name in rows
    ensures (seen + {name}) + (rows - {name}) == seen + rows
  {
  }

  /** Does the upload get as far as creating its file? */
  predicate Opens(t: Tables, lim: Limits, disk: map<string, seq<Byte>>, d: DocId, u: UserId, content: seq<Byte>,
                  name: string, fault: Fault)
  {
    CanEdit(t, d, u) && UploadFits(t, lim, u, |content|) && name !in disk && !fault.OpenFails?
  }

  lemma EditedByColumns(doc: Document, data: map<string, string>, sets: map<string, string>)
    requires sets == map c | c in data && c in COLUMNS :: data[c]
    ensures Edited(doc, sets) == Edited(doc, data)
    ensures sets == map[] ==> Edited(doc, data) == doc
    ensures "visibility" in data ==> "visibility" in COLUMNS
  {
    assert "title" == COLUMNS[0] && "body" == COLUMNS[1] && "visibility" == COLUMNS[2];
  }

  class LibraryStore {
    const folder: seq<string>
    const limits: Limits
    var docs: map<DocId, Document>
    var nextDoc: DocId
    var shares: map<(DocId, UserId), bool>
    var comments: seq<Comment>
    var attachments: seq<Attachment>
    var queue: set<string>
    var disk: map<string, seq<Byte>>

    ghost function Rows(): Tables
      reads this
    {
      Tables(docs, nextDoc, shares, comments, attachments, queue)
    }

    method CreateDocument(owner: UserId, title: string, body: string, visibility: string) returns (id: Option<DocId>)
      modifies this
      ensures id.Some? <==> InsertDocument(old(Rows()), limits, Document(owner, title, body, visibility)).Some?
      ensures id.Some? ==> id.value == old(nextDoc)
      ensures id.Some? ==> InsertDocument(old(Rows()), limits, Document(owner, title, body, visibility)) == Some(Rows())
      ensures id.None? ==> Rows() == old(Rows())
      ensures disk == old(disk)
    {
      var count := |Owned(docs, owner)|;
      if count >= limits.documents {
        return None;
      }
      docs := docs[nextDoc := Document(owner, title, body, visibility)];
      id := Some(nextDoc);
      nextDoc := nextDoc + 1;
    }

    /** Collects the assignments of the allowed columns in a loop, then runs one UPDATE. */
    method UpdateDocument(d: DocId, u: UserId, data: map<string, string>) returns (status: Status)
      modifies this`docs
      ensures status == UpdateStatus(old(Rows()), d, u, data)
      ensures Rows() == Update(old(Rows()), d, u, data)
      ensures status.Ok? ==> d in old(docs) && d in docs && Columns(old(docs)[d], docs[d], data)
      ensures disk == old(disk)
    {
      if d !in docs {
        return NotFound;
      }
      var doc := docs[d];
      if !(doc.owner == u || ((d, u) in shares && shares[(d, u)])) {
        return Forbidden;
      }
      if "visibility" in data && data["visibility"] != doc.visibility && doc.owner != u {
        return Forbidden;
      }
      var sets: map<string, string> := map[];
      for i := 0 to |COLUMNS|
        invariant docs == old(docs)
        invariant sets == map c | c in data && c in COLUMNS[..i] :: data[c]
        invariant "visibility" in COLUMNS[..i] && "visibility" in data ==> data["visibility"] in VALID_VISIBILITY
      {
        var col := COLUMNS[i];
        if col in data {
          if col == "visibility" && data[col] !in VALID_VISIBILITY {
            return BadRequest;
          }
          sets := sets[col := data[col]];
        }
      }
      assert COLUMNS[..|COLUMNS|] == COLUMNS;
      EditedByColumns(doc, data, sets);
      if sets != map[] {
        docs := docs[d := Edited(doc, sets)];
      } else {
        assert docs == docs[d := doc];
      }
      status := Ok;
    }

    method DeleteFrom(table: ChildTable, d: DocId)
      modifies this
      ensures docs == old(docs) && nextDoc == old(nextDoc) && disk == old(disk) && queue == old(queue)
      ensures comments == if table.InComments? then KeepComments(old(comments), d) else old(comments)
      ensures shares == if table.InShares? then DropShares(old(shares), d) else old(shares)
      ensures attachments == if table.InAttachments? then KeepAttachments(old(attachments), d) else old(attachments)
    {
      match table {
        case InComments => comments := KeepComments(comments, d);
        case InShares => shares := DropShares(shares, d);
        case InAttachments => attachments := KeepAttachments(attachments, d);
      }
    }

    /** Queues the files, then clears the child tables one after the other and the document itself. */
    method DeleteDocumentRows(d: DocId)
      modifies this
      ensures Rows() == Delete(old(Rows()), d)
      ensures disk == old(disk)
    {
      queue := queue + NamesOf(attachments, d);
      for i := 0 to |CHILD_TABLES|
        invariant docs == old(docs) && nextDoc == old(nextDoc) && disk == old(disk)
        invariant queue == old(queue) + NamesOf(old(attachments), d)
        invariant comments == if i > 0 then KeepComments(old(comments), d) else old(comments)
        invariant shares == if i > 1 then DropShares(old(shares), d) else old(shares)
        invariant attachments == if i > 2 then KeepAttachments(old(attachments), d) else old(attachments)
      {
        DeleteFrom(CHILD_TABLES[i], d);
      }
      docs := docs - {d};
    }

    method ShareDocument(d: DocId, u: UserId, edit: bool)
      modifies this
      ensures Rows() == Share(old(Rows()), d, u, edit) && disk == old(disk)
    {
      if d in docs {
        shares := shares[(d, u) := edit];
      }
    }

    method RevokeShare(d: DocId, u: UserId)
      modifies this
      ensures Rows() == Unshare(old(Rows()), d, u) && disk == old(disk)
    {
      shares := shares - {(d, u)};
    }

    /** Reads the queue once, then tries each name; a name that cannot be unlinked stays. */
    method CleanupDeletedFiles(stuck: set<string>) returns (removed: set<string>)
      modifies this`queue, this`disk
      ensures removed == Removable(folder, old(queue), stuck)
      ensures disk == old(disk) - removed
      ensures Rows() == old(Rows()).(queue := old(queue) - removed)
    {
      hide Removable, Paths.Sealed;
      removed := {};
      var rows := queue;
      ghost var seen := {};
      RemovableOfNone(folder, stuck);
      while rows != {}
        invariant seen + rows == old(queue)
        invariant removed == Removable(folder, seen, stuck)
        invariant disk == old(disk) - removed
        invariant queue == old(queue) - removed
        decreases |rows|
      {
        var name :| name in rows;
        RemovableNext(folder, seen, name, stuck);
        RemoveOne(old(queue), old(disk), removed, name);
        MoveOne(seen, rows, name);
        rows := rows - {name};
        seen := seen + {name};
        if Paths.Sealed(folder, name) && name !in stuck {
          disk := disk - {name};
          queue := queue - {name};
          removed := removed + {name};
        }
      }
    }

    /**
     The part of upload from the transaction on, with the exception path; `stuck` as in the clean-up. A refused or
     unopened upload changes nothing, so an existing file of the same name is never touched; a file that was
     created but not attached is on disk afterwards only if it is queued.
     */
    method Upload(d: DocId, u: UserId, content: seq<Byte>, name: string, fault: Fault, stuck: set<string>)
      returns (ok: bool)
      modifies this
      ensures ok <==> Opens(old(Rows()), limits, old(disk), d, u, content, name, fault) && fault.NoFault?
      ensures ok ==> Rows() == Attach(old(Rows()), Attachment(d, name, u, |content|)) && disk == old(disk)[name := content]
      ensures !Opens(old(Rows()), limits, old(disk), d, u, content, name, fault) ==> Rows() == old(Rows()) && disk == old(disk)
      ensures Opens(old(Rows()), limits, old(disk), d, u, content, name, fault) && !ok ==>
        var queued := old(queue) + {name};
        var removed := Removable(folder, queued, stuck);
        && Rows() == old(Rows()).(queue := queued - removed)
        && disk - {name} == old(disk) - removed
        && (name in disk <==> name in queue)
    {
      hide Paths.Sealed, FilesBy, BytesBy;
      if !(d in docs && (docs[d].owner == u || ((d, u) in shares && shares[(d, u)]))) {
        return false;
      }
      if FilesBy(attachments, u) >= limits.attachments || BytesBy(attachments, u) + |content| > limits.bytes {
        return false;
      }
      if name in disk || fault.OpenFails? {
        return false;
      }
      disk := disk[name := []];
      if fault.NoFault? {
        disk := disk[name := content];
        attachments := attachments + [Attachment(d, name, u, |content|)];
        return true;
      }
      if fault.WriteFails? {
        disk := disk[name := if fault.written <= |content| then content[..fault.written] else content];
      } else {
        disk := disk[name := content];
      }
      queue := queue + {name};
      var removed := CleanupDeletedFiles(stuck);
      ok := false;
    }
  }
}
