/**
 Rights as a replay of the owner's actions, and writes authorised in the very state they commit on.
 */
module RightsSafety {
  import opened Outcomes
  import opened Library
  import opened DocumentRequests
  import Paths

  // ---------- replay ----------

  datatype Rights = Absent | Live(owner: UserId, public: bool, grants: map<UserId, bool>)

  predicate MayRead(r: Rights, u: UserId) {
    r.Live? && (r.public || r.owner == u || u in r.grants)
  }

  predicate MayEdit(r: Rights, u: UserId) {
    r.Live? && (r.owner == u || (u in r.grants && r.grants[u]))
  }

  /** What one committed request means for the rights on its document: nothing, unless its owner made it. */
  function Next(r: Rights, e: Entry): Rights {
    match r
    case Absent => if e.deed.Created? then Live(e.actor, e.deed.visibility == "public", map[]) else Absent
    case Live(owner, public, grants) =>
      if e.actor != owner then r
      else match e.deed
        case Updated(data) => if "visibility" in data then r.(public := data["visibility"] == "public") else r
        case Shared(u, edit) => r.(grants := grants[u := edit])
        case Unshared(u) => r.(grants := grants - {u})
        case Deleted => Absent
        case _ => r
  }

  function Replay(base: Rights, log: seq<Entry>, d: DocId): Rights {
    if log == [] then base
    else
      var before := Replay(base, log[..|log| - 1], d);
      if log[|log| - 1].doc == d then Next(before, log[|log| - 1]) else before
  }

  lemma {:induction false} ReplaySplit(base: Rights, a: seq<Entry>, b: seq<Entry>, d: DocId)
    ensures Replay(base, a + b, d) == Replay(Replay(base, a, d), b, d)
  {
    if b == [] {
      assert a + b == a;
    } else {
      assert (a + b)[..|a + b| - 1] == a + b[..|b| - 1];
      ReplaySplit(base, a, b[..|b| - 1], d);
    }
  }

  /** A request of anyone but the owner can be struck from the history of a document. */
  lemma OthersDoNotMatter(base: Rights, a: seq<Entry>, e: Entry, b: seq<Entry>, d: DocId)
    requires Replay(base, a, d).Live? && Replay(base, a, d).owner != e.actor
    ensures Replay(base, a + [e] + b, d) == Replay(base, a + b, d)
  {
    ReplaySplit(base, a + [e], b, d);
    ReplaySplit(base, a, b, d);
    assert (a + [e])[..|a|] == a;
  }

  /** The tables grant exactly these rights on the document. */
  ghost predicate Matches(t: Tables, d: DocId, r: Rights) {
    && (r.Absent? <==> d !in t.docs)
    && (r.Live? ==>
         && r.owner == t.docs[d].owner && (r.public <==> t.docs[d].visibility == "public")
         && (forall u :: u in r.grants <==> (d, u) in t.shares)
         && (forall u :: u in r.grants ==> r.grants[u] == t.shares[(d, u)]))
  }

  lemma MatchDecides(t: Tables, d: DocId, r: Rights, u: UserId)
    requires Matches(t, d, r)
    ensures CanAccess(t, d, u) <==> MayRead(r, u)
    ensures CanEdit(t, d, u) <==> MayEdit(r, u)
  {
  }

  // ---------- invariant ----------

  predicate ClaimsOwner(q: Request) {
    q.ShareReady? || q.UnshareReady? || q.DeleteReady?
  }

  predicate InLock(q: Request) {
    q.UploadLocked? || q.UploadOpened? || q.UploadWritten?
  }

  /** An early owner check stays true while the document lives; an edit check stays true while the lock is held. */
  ghost predicate ClaimOk(t: Tables, lock: Option<nat>, r: nat, q: Request) {
    && (ClaimsOwner(q) ==> q.doc < t.nextDoc && (q.doc in t.docs ==> t.docs[q.doc].owner == q.user))
    && (InLock(q) ==> lock == Some(r) && CanEdit(t, q.file.doc, q.file.user))
  }

  ghost predicate ClaimsOk(t: Tables, lock: Option<nat>, requests: map<nat, Request>) {
    forall r :: r in requests ==> ClaimOk(t, lock, r, requests[r])
  }

  ghost predicate Inv(w: World) {
    SchemaOk(w.rows) && ClaimsOk(w.rows, w.lock, w.requests)
  }

  /** Documents keep their owners, and an id that is gone stays gone. */
  ghost predicate OwnersKept(t: Tables, s: Tables) {
    && t.nextDoc <= s.nextDoc
    && forall d :: d in s.docs && d < t.nextDoc ==> d in t.docs && s.docs[d].owner == t.docs[d].owner
  }

  /** A write to the tables while nobody holds the lock keeps every claim of the others. */
  lemma WriteKeepsClaims(t: Tables, s: Tables, requests: map<nat, Request>)
    requires ClaimsOk(t, None, requests) && OwnersKept(t, s)
    ensures ClaimsOk(s, None, requests)
  {
    forall r | r in requests
      ensures ClaimOk(s, None, r, requests[r])
    {
      assert ClaimOk(t, None, r, requests[r]);
    }
  }

  lemma GoKeepsClaims(t: Tables, lock: Option<nat>, requests: map<nat, Request>, r: nat, q: Request)
    requires ClaimsOk(t, lock, requests) && ClaimOk(t, lock, r, q)
    ensures ClaimsOk(t, lock, requests[r := q])
  {
    forall i | i in requests && i != r
      ensures ClaimOk(t, lock, i, requests[i])
    {
    }
  }

  lemma ClaimAt(w: World, r: nat)
    requires Inv(w)
    ensures ClaimOk(w.rows, w.lock, r, At(w, r))
  {
  }

  // ---------- what each write does to the tables ----------

  /** A committed request changes rows of its own document only, and only the kind of rows its deed names. */
  ghost predicate Confined(t: Tables, s: Tables, e: Entry) {
    && (forall d :: d != e.doc ==> (d in s.docs <==> d in t.docs) && (d in t.docs ==> s.docs[d] == t.docs[d]))
    && (forall p :: p in s.shares + t.shares && p.0 != e.doc ==>
          p in s.shares && p in t.shares && s.shares[p] == t.shares[p])
    && KeepComments(s.comments, e.doc) == KeepComments(t.comments, e.doc)
    && KeepAttachments(s.attachments, e.doc) == KeepAttachments(t.attachments, e.doc)
    && (e.deed.Updated? ==> s.docs.Keys == t.docs.Keys && s.shares == t.shares)
    && (e.deed.Updated? && e.doc in t.docs ==> s.docs[e.doc] == Edited(t.docs[e.doc], e.deed.data))
    && (e.deed.Deleted? ==> e.doc !in s.docs)
    && (e.deed.Created? ==> e.doc == t.nextDoc && e.doc in s.docs)
    && (e.deed.Shared? || e.deed.Unshared? ==> s.docs == t.docs)
    && (e.deed.Commented? || e.deed.Uploaded? ==> s.docs == t.docs && s.shares == t.shares)
    && (!e.deed.Commented? && !e.deed.Deleted? ==> s.comments == t.comments)
    && (!e.deed.Uploaded? && !e.deed.Deleted? ==> s.attachments == t.attachments)
    && Wrote(t, s, e)
  }

  /** What the entry says was done is what the tables show. */
  ghost predicate Wrote(t: Tables, s: Tables, e: Entry) {
    match e.deed
    case Created(title, body, visibility) =>
      s == t.(docs := t.docs[t.nextDoc := Document(e.actor, title, body, visibility)], nextDoc := t.nextDoc + 1)
    case Updated(data) =>
      && e.doc in t.docs && e.doc in s.docs && Columns(t.docs[e.doc], s.docs[e.doc], data)
      && s == t.(docs := t.docs[e.doc := s.docs[e.doc]])
    case Shared(u, edit) => s == if e.doc in t.docs then t.(shares := t.shares[(e.doc, u) := edit]) else t
    case Unshared(u) => s == t.(shares := t.shares - {(e.doc, u)})
    case Deleted =>
      && s.docs == t.docs - {e.doc} && s.queue == t.queue + (set a | a in t.attachments && a.doc == e.doc :: a.name)
      && (forall p :: p in s.shares ==> p.0 != e.doc)
      && (forall c :: c in s.comments <==> c in t.comments && c.doc != e.doc)
      && (forall a :: a in s.attachments <==> a in t.attachments && a.doc != e.doc)
    case Commented(body) => s == t.(comments := t.comments + [Comment(e.doc, e.actor, body)])
    case Uploaded(name, size) => s == t.(attachments := t.attachments + [Attachment(e.doc, name, e.actor, size)])
  }

  lemma {:induction false} KeptTwice(rows: seq<Attachment>, comments: seq<Comment>, d: DocId)
    ensures KeepAttachments(KeepAttachments(rows, d), d) == KeepAttachments(rows, d)
    ensures KeepComments(KeepComments(comments, d), d) == KeepComments(comments, d)
  {
    forall a | a in KeepAttachments(rows, d)
      ensures a.doc != d
    {
      KeptAttachment(rows, d, a);
    }
    forall c | c in KeepComments(comments, d)
      ensures c.doc != d
    {
      KeptComment(comments, d, c);
    }
    NothingToClear(KeepAttachments(rows, d), KeepComments(comments, d), d);
  }

  lemma AppendConfined(rows: seq<Attachment>, a: Attachment, comments: seq<Comment>, c: Comment)
    ensures KeepAttachments(rows + [a], a.doc) == KeepAttachments(rows, a.doc)
    ensures KeepComments(comments + [c], c.doc) == KeepComments(comments, c.doc)
  {
    assert (rows + [a])[..|rows|] == rows && (comments + [c])[..|comments|] == comments;
  }

  lemma CreateTables(t: Tables, lim: Limits, doc: Document, d: DocId, r: Rights)
    requires SchemaOk(t) && InsertDocument(t, lim, doc).Some?
    requires doc.visibility in VALID_VISIBILITY
    ensures
      var s := InsertDocument(t, lim, doc).value;
      && SchemaOk(s) && OwnersKept(t, s)
      && (Matches(t, d, r) ==>
           Matches(s, d, if d == t.nextDoc then Next(r, Entry(doc.owner, d, Created(doc.title, doc.body, doc.visibility))) else r))
    ensures Confined(t, InsertDocument(t, lim, doc).value, Entry(doc.owner, t.nextDoc, Created(doc.title, doc.body, doc.visibility)))
  {
  }

  lemma EditTables(t: Tables, d: DocId, u: UserId, data: map<string, string>, e: DocId, r: Rights)
    requires SchemaOk(t) && UpdateStatus(t, d, u, data).Ok?
    ensures
      var s := Update(t, d, u, data);
      && SchemaOk(s) && OwnersKept(t, s)
      && (Matches(t, e, r) ==> Matches(s, e, if e == d then Next(r, Entry(u, d, Updated(data))) else r))
  {
  }

  lemma EditConfined(t: Tables, d: DocId, u: UserId, data: map<string, string>)
    requires UpdateStatus(t, d, u, data).Ok?
    ensures Confined(t, Update(t, d, u, data), Entry(u, d, Updated(data)))
  {
  }

  lemma ShareTables(t: Tables, d: DocId, u: UserId, target: UserId, edit: bool, e: DocId, r: Rights)
    requires SchemaOk(t) && (d in t.docs ==> t.docs[d].owner == u)
    ensures
      var s := Share(t, d, target, edit);
      && SchemaOk(s) && OwnersKept(t, s)
      && (Matches(t, e, r) ==> Matches(s, e, if e == d then Next(r, Entry(u, d, Shared(target, edit))) else r))
    ensures Confined(t, Share(t, d, target, edit), Entry(u, d, Shared(target, edit)))
  {
    ShareMatches(t, d, u, target, edit, e, r);
    hide Matches, Next;
  }

  lemma ShareMatches(t: Tables, d: DocId, u: UserId, target: UserId, edit: bool, e: DocId, r: Rights)
    requires d in t.docs ==> t.docs[d].owner == u
    ensures Matches(t, e, r) ==>
      Matches(Share(t, d, target, edit), e, if e == d then Next(r, Entry(u, d, Shared(target, edit))) else r)
  {
  }

  lemma UnshareTables(t: Tables, d: DocId, u: UserId, target: UserId, e: DocId, r: Rights)
    requires SchemaOk(t) && (d in t.docs ==> t.docs[d].owner == u)
    ensures
      var s := Unshare(t, d, target);
      && SchemaOk(s) && OwnersKept(t, s)
      && (Matches(t, e, r) ==> Matches(s, e, if e == d then Next(r, Entry(u, d, Unshared(target))) else r))
    ensures Confined(t, Unshare(t, d, target), Entry(u, d, Unshared(target)))
  {
  }

  lemma DeleteTables(t: Tables, d: DocId, u: UserId, e: DocId, r: Rights)
    requires SchemaOk(t) && (d in t.docs ==> t.docs[d].owner == u)
    ensures
      var s := Delete(t, d);
      && SchemaOk(s) && OwnersKept(t, s)
      && (Matches(t, e, r) ==> Matches(s, e, if e == d then Next(r, Entry(u, d, Deleted)) else r))
  {
    var s := Delete(t, d);
    forall a | a in s.attachments
      ensures a.doc in s.docs
    {
      KeptAttachment(t.attachments, d, a);
    }
    forall c | c in s.comments
      ensures c.doc in s.docs
    {
      KeptComment(t.comments, d, c);
    }
  }

  lemma DeleteConfined(t: Tables, d: DocId, u: UserId)
    ensures Confined(t, Delete(t, d), Entry(u, d, Deleted))
  {
    KeptTwice(t.attachments, t.comments, d);
    forall c
      ensures c in KeepComments(t.comments, d) <==> c in t.comments && c.doc != d
    {
      KeptComment(t.comments, d, c);
    }
    forall a
      ensures a in KeepAttachments(t.attachments, d) <==> a in t.attachments && a.doc != d
    {
      KeptAttachment(t.attachments, d, a);
    }
  }

  /** Deleting a document that is gone already changes nothing. */
  lemma DeleteTwice(t: Tables, d: DocId)
    requires SchemaOk(t) && d !in t.docs
    ensures SameContent(t, Delete(t, d))
  {
    NothingToClear(t.attachments, t.comments, d);
  }

  /** Comments, attachments and the queue carry no rights. */
  lemma OtherTables(t: Tables, s: Tables, d: DocId, r: Rights)
    requires SchemaOk(t) && s.docs == t.docs && s.shares == t.shares && s.nextDoc == t.nextDoc
    requires forall c :: c in s.comments ==> c.doc in t.docs
    requires forall a :: a in s.attachments ==> a.doc in t.docs
    ensures SchemaOk(s) && OwnersKept(t, s)
    ensures Matches(t, d, r) <==> Matches(s, d, r)
  {
  }

  lemma CommentTables(t: Tables, lim: Limits, c: Comment, d: DocId, r: Rights)
    requires SchemaOk(t) && AddComment(t, lim, c).Some?
    ensures
      var s := AddComment(t, lim, c).value;
      && SchemaOk(s) && OwnersKept(t, s) && (Matches(t, d, r) <==> Matches(s, d, r))
    ensures Confined(t, AddComment(t, lim, c).value, Entry(c.author, c.doc, Commented(c.body)))
  {
    var s := AddComment(t, lim, c).value;
    OtherTables(t, s, d, r);
    AppendConfined([], Attachment(0, "", 0, 0), t.comments, c);
  }

  lemma AttachTables(t: Tables, a: Attachment, d: DocId, r: Rights)
    requires SchemaOk(t) && a.doc in t.docs
    ensures SchemaOk(Attach(t, a)) && OwnersKept(t, Attach(t, a))
    ensures Matches(t, d, r) <==> Matches(Attach(t, a), d, r)
    ensures Confined(t, Attach(t, a), Entry(a.uploader, a.doc, Uploaded(a.name, a.size)))
  {
    OtherTables(t, Attach(t, a), d, r);
    AppendConfined(t.attachments, a, [], Comment(0, 0, ""));
  }

  // ---------- steps ----------

  predicate Authorised(t: Tables, e: Entry) {
    match e.deed
    case Created(_, _, _) => e.doc !in t.docs
    case Updated(data) =>
      && CanEdit(t, e.doc, e.actor)
      && ("visibility" in data && data["visibility"] != t.docs[e.doc].visibility ==> IsOwner(t, e.doc, e.actor))
    case Shared(_, _) => IsOwner(t, e.doc, e.actor)
    case Unshared(_) => IsOwner(t, e.doc, e.actor)
    case Deleted => IsOwner(t, e.doc, e.actor)
    case Commented(_) => CanAccess(t, e.doc, e.actor)
    case Uploaded(_, _) => CanEdit(t, e.doc, e.actor)
  }

  predicate SameContent(t: Tables, s: Tables) {
    t.docs == s.docs && t.shares == s.shares && t.comments == s.comments && t.attachments == s.attachments
  }

  ghost predicate Committed(t: Tables, s: Tables, e: Entry) {
    Confined(t, s, e) && (Authorised(t, e) || SameContent(t, s))
  }

  /** What one step may do: log nothing and write nothing, or log one entry that was authorised or had no effect. */
  ghost predicate Lawful(w: World, v: World, d: DocId, r: Rights) {
    && Inv(v) && OwnersKept(w.rows, v.rows) && w.log <= v.log
    && (Matches(w.rows, d, r) ==> Matches(v.rows, d, Replay(r, v.log[|w.log|..], d)))
    && (v.log == w.log || exists e :: v.log == w.log + [e] && Committed(w.rows, v.rows, e))
    && (v.log == w.log ==> SameContent(w.rows, v.rows))
  }

  lemma QuietLawful(w: World, v: World, d: DocId, r: Rights)
    requires SchemaOk(w.rows) && ClaimsOk(v.rows, v.lock, v.requests)
    requires SameContent(w.rows, v.rows) && v.rows.nextDoc == w.rows.nextDoc && v.log == w.log
    ensures Lawful(w, v, d, r)
  {
    OtherTables(w.rows, v.rows, d, r);
    assert v.log[|w.log|..] == [];
  }

  lemma CommitLawful(w: World, v: World, e: Entry, d: DocId, r: Rights)
    requires SchemaOk(v.rows) && ClaimsOk(v.rows, v.lock, v.requests) && OwnersKept(w.rows, v.rows)
    requires v.log == w.log + [e] && (Authorised(w.rows, e) || SameContent(w.rows, v.rows))
    requires Confined(w.rows, v.rows, e)
    requires Matches(w.rows, d, r) ==> Matches(v.rows, d, if e.doc == d then Next(r, e) else r)
    ensures Lawful(w, v, d, r)
  {
    assert v.log[|w.log|..] == [e];
    assert [e][..0] == [];
    assert Replay(r, [], d) == r;
    assert Replay(r, [e], d) == if e.doc == d then Next(r, e) else r;
  }

  lemma CreateLawful(w: World, u: UserId, doc: Document, d: DocId, r: Rights)
    requires Inv(w)
    ensures Lawful(w, CreateStep(w, u, doc), d, r)
  {
    hide ClaimsOk, SchemaOk, Matches, OwnersKept, Lawful;
    var v := CreateStep(w, u, doc);
    if v.log == w.log {
      QuietLawful(w, v, d, r);
    } else {
      CreateTables(w.rows, w.limits, doc, d, r);
      WriteKeepsClaims(w.rows, v.rows, w.requests);
      NewIdIsFree(w.rows);
      CommitLawful(w, v, Entry(u, w.rows.nextDoc, Created(doc.title, doc.body, doc.visibility)), d, r);
    }
  }

  lemma NewIdIsFree(t: Tables)
    requires SchemaOk(t)
    ensures t.nextDoc !in t.docs
  {
  }

  lemma EditLawful(w: World, e: DocId, u: UserId, data: map<string, string>, d: DocId, r: Rights)
    requires Inv(w)
    ensures Lawful(w, EditStep(w, e, u, data), d, r)
  {
    hide ClaimsOk, SchemaOk, Matches, OwnersKept, Lawful;
    var v := EditStep(w, e, u, data);
    if v.log == w.log {
      QuietLawful(w, v, d, r);
    } else {
      EditTables(w.rows, e, u, data, d, r);
      EditConfined(w.rows, e, u, data);
      WriteKeepsClaims(w.rows, v.rows, w.requests);
      CommitLawful(w, v, Entry(u, e, Updated(data)), d, r);
    }
  }

  lemma ShareLawful(w: World, i: nat, d: DocId, r: Rights)
    requires Inv(w)
    ensures Lawful(w, ShareStep(w, i), d, r)
  {
    ClaimAt(w, i);
    var q := At(w, i);
    if q.ShareReady? && w.lock == None {
      var s := Share(w.rows, q.doc, q.target, q.edit);
      ShareTables(w.rows, q.doc, q.user, q.target, q.edit, d, r);
      WriteKeepsClaims(w.rows, s, w.requests);
      GoKeepsClaims(s, None, w.requests, i, Idle);
      hide ClaimsOk, SchemaOk, Matches, OwnersKept, Lawful;
      CommitLawful(w, ShareStep(w, i), Entry(q.user, q.doc, Shared(q.target, q.edit)), d, r);
    } else {
      QuietLawful(w, ShareStep(w, i), d, r);
    }
  }

  lemma UnshareLawful(w: World, i: nat, d: DocId, r: Rights)
    requires Inv(w)
    ensures Lawful(w, UnshareStep(w, i), d, r)
  {
    ClaimAt(w, i);
    var q := At(w, i);
    if q.UnshareReady? && w.lock == None {
      var s := Unshare(w.rows, q.doc, q.target);
      UnshareTables(w.rows, q.doc, q.user, q.target, d, r);
      WriteKeepsClaims(w.rows, s, w.requests);
      GoKeepsClaims(s, None, w.requests, i, Idle);
      CommitLawful(w, UnshareStep(w, i), Entry(q.user, q.doc, Unshared(q.target)), d, r);
    } else {
      QuietLawful(w, UnshareStep(w, i), d, r);
    }
  }

  lemma DeleteLawful(w: World, i: nat, d: DocId, r: Rights)
    requires Inv(w)
    ensures Lawful(w, DeleteStep(w, i), d, r)
  {
    ClaimAt(w, i);
    var q := At(w, i);
    if q.DeleteReady? && w.lock == None {
      var s := Delete(w.rows, q.doc);
      DeleteTables(w.rows, q.doc, q.user, d, r);
      DeleteConfined(w.rows, q.doc, q.user);
      WriteKeepsClaims(w.rows, s, w.requests);
      GoKeepsClaims(s, None, w.requests, i, CleanupDue);
      if q.doc !in w.rows.docs {
        DeleteTwice(w.rows, q.doc);
      }
      CommitLawful(w, DeleteStep(w, i), Entry(q.user, q.doc, Deleted), d, r);
    } else {
      QuietLawful(w, DeleteStep(w, i), d, r);
    }
  }

  lemma CommentLawful(w: World, i: nat, d: DocId, r: Rights)
    requires Inv(w)
    ensures Lawful(w, CommentStep(w, i), d, r)
  {
    hide SchemaOk, ClaimsOk, OwnersKept, Matches, Confined, Lawful;
    var q, v := At(w, i), CommentStep(w, i);
    if q.CommentReady? && w.lock == None {
      var c := Comment(q.doc, q.user, q.body);
      GoKeepsClaims(w.rows, None, w.requests, i, Idle);
      if AddComment(w.rows, w.limits, c).Some? {
        CommentTables(w.rows, w.limits, c, d, r);
        WriteKeepsClaims(w.rows, v.rows, v.requests);
        NextIgnores(r, Entry(q.user, q.doc, Commented(q.body)));
        CommitLawful(w, v, Entry(q.user, q.doc, Commented(q.body)), d, r);
      } else {
        QuietLawful(w, v, d, r);
      }
    } else {
      QuietLawful(w, v, d, r);
    }
  }

  lemma NextIgnores(r: Rights, e: Entry)
    requires e.deed.Commented? || e.deed.Uploaded?
    ensures Next(r, e) == r
  {
  }

  lemma InsertFileLawful(w: World, i: nat, ok: bool, d: DocId, r: Rights)
    requires Inv(w)
    ensures Lawful(w, InsertFile(w, i, ok), d, r)
  {
    ClaimAt(w, i);
    var q, v := At(w, i), InsertFile(w, i, ok);
    if q.UploadWritten? {
      LockPasses(w, i, v.requests[i]);
      if ok {
        var f := q.file;
        AttachTables(w.rows, Attachment(f.doc, f.name, f.user, |f.content|), d, r);
        NextIgnores(r, Entry(f.user, f.doc, Uploaded(f.name, |f.content|)));
        hide SchemaOk, ClaimsOk, OwnersKept, Matches, Confined, Lawful;
        WriteKeepsClaims(w.rows, v.rows, v.requests);
        CommitLawful(w, v, Entry(f.user, f.doc, Uploaded(f.name, |f.content|)), d, r);
      } else {
        QuietLawful(w, v, d, r);
      }
    } else {
      QuietLawful(w, v, d, r);
    }
  }

  /** The holder gives the lock back. */
  lemma LockPasses(w: World, i: nat, q: Request)
    requires Inv(w) && InLock(At(w, i)) && !InLock(q) && !ClaimsOwner(q)
    ensures ClaimsOk(w.rows, None, w.requests[i := q])
  {
    ClaimAt(w, i);
    forall j | j in w.requests && j != i
      ensures ClaimOk(w.rows, None, j, w.requests[j])
    {
      ClaimAt(w, j);
    }
  }

  lemma TakesLock(w: World, i: nat, q: Request)
    requires Inv(w) && w.lock == None && q.UploadLocked? && CanEdit(w.rows, q.file.doc, q.file.user)
    ensures ClaimsOk(w.rows, Some(i), w.requests[i := q])
  {
    forall j | j in w.requests && j != i
      ensures ClaimOk(w.rows, Some(i), j, w.requests[j])
    {
      ClaimAt(w, j);
    }
  }

  lemma UploadStepLawful(w: World, a: Action, d: DocId, r: Rights)
    requires Inv(w) && (a.UploadBegin? || a.UploadOpen? || a.UploadWrite?)
    ensures Lawful(w, Apply(w, a), d, r)
  {
    var v := Apply(w, a);
    ClaimAt(w, a.r);
    if v != w {
      if v.lock == w.lock {
        GoKeepsClaims(w.rows, w.lock, w.requests, a.r, v.requests[a.r]);
      } else if w.lock == None {
        TakesLock(w, a.r, v.requests[a.r]);
      } else {
        LockPasses(w, a.r, v.requests[a.r]);
      }
    }
    QuietLawful(w, v, d, r);
  }

  lemma ReadStepLawful(w: World, a: Action, d: DocId, r: Rights)
    requires Inv(w)
    requires a.ShareRead? || a.UnshareRead? || a.DeleteRead? || a.CommentRead? || a.UploadRead? || a.CleanupStart?
    ensures Lawful(w, Apply(w, a), d, r)
  {
    hide CanAccess, CanEdit, Lawful, Matches, OwnersKept, ClaimsOk;
    var v := Apply(w, a);
    if v != w {
      GoKeepsClaims(w.rows, w.lock, w.requests, a.r, v.requests[a.r]);
    }
    QuietLawful(w, v, d, r);
  }

  lemma CleanupStepLawful(w: World, a: Action, d: DocId, r: Rights)
    requires Inv(w)
    requires a.UploadEnqueue? || a.CleanupRead? || a.CleanupUnlink? || a.CleanupDequeue? || a.Abort?
    ensures Lawful(w, Apply(w, a), d, r)
  {
    hide Paths.Sealed, Lawful, Matches, ClaimsOk, SchemaOk;
    var v := Apply(w, a);
    if v != w {
      GoKeepsClaims(w.rows, w.lock, w.requests, a.r, v.requests[a.r]);
      QueueKeepsClaims(w.rows, v.rows, v.lock, v.requests);
    }
    QuietLawful(w, v, d, r);
  }

  lemma QueueKeepsClaims(t: Tables, s: Tables, lock: Option<nat>, requests: map<nat, Request>)
    requires ClaimsOk(t, lock, requests) && s == t.(queue := s.queue)
    ensures ClaimsOk(s, lock, requests)
  {
    forall r | r in requests
      ensures ClaimOk(s, lock, r, requests[r])
    {
      assert ClaimOk(t, lock, r, requests[r]);
    }
  }

  lemma StepLawful(w: World, a: Action, d: DocId, r: Rights)
    requires Inv(w)
    ensures Lawful(w, Apply(w, a), d, r)
  {
    hide Lawful, Inv;
    if a.Create? {
      CreateLawful(w, a.user, Document(a.user, a.title, a.body, a.visibility), d, r);
    } else if a.Edit? {
      EditLawful(w, a.doc, a.user, a.data, d, r);
    } else if a.ShareCommit? {
      ShareLawful(w, a.r, d, r);
    } else if a.UnshareCommit? {
      UnshareLawful(w, a.r, d, r);
    } else if a.DeleteCommit? {
      DeleteLawful(w, a.r, d, r);
    } else if a.CommentCommit? {
      CommentLawful(w, a.r, d, r);
    } else if a.UploadInsert? {
      InsertFileLawful(w, a.r, a.ok, d, r);
    } else if a.UploadBegin? || a.UploadOpen? || a.UploadWrite? {
      UploadStepLawful(w, a, d, r);
    } else if a.UploadEnqueue? || a.CleanupRead? || a.CleanupUnlink? || a.CleanupDequeue? || a.Abort? {
      CleanupStepLawful(w, a, d, r);
    } else {
      ReadStepLawful(w, a, d, r);
    }
  }

  // ---------- whole runs ----------

  /** The rights at w, replayed over what was logged since, are the rights at v. */
  ghost predicate Tracks(w: World, v: World, d: DocId, r: Rights) {
    && OwnersKept(w.rows, v.rows) && w.log <= v.log
    && Matches(v.rows, d, Replay(r, v.log[|w.log|..], d))
  }

  lemma StepTracks(w: World, a: Action, d: DocId, r: Rights)
    requires Inv(w) && Matches(w.rows, d, r)
    ensures Inv(Apply(w, a)) && Tracks(w, Apply(w, a), d, r)
  {
    hide Inv, Matches, OwnersKept, Apply, Replay;
    StepLawful(w, a, d, r);
  }

  lemma TracksTwice(w: World, v: World, u: World, d: DocId, r: Rights)
    requires Tracks(w, v, d, r) && Tracks(v, u, d, Replay(r, v.log[|w.log|..], d))
    ensures Tracks(w, u, d, r)
  {
    hide Matches, Replay;
    assert u.log[|w.log|..] == v.log[|w.log|..] + u.log[|v.log|..];
    ReplaySplit(r, v.log[|w.log|..], u.log[|v.log|..], d);
  }

  lemma TracksItself(w: World, d: DocId, r: Rights)
    requires Matches(w.rows, d, r)
    ensures Tracks(w, w, d, r)
  {
    hide Matches;
    assert w.log[|w.log|..] == [];
  }

  lemma {:induction false} RunLawful(w: World, actions: seq<Action>, d: DocId, r: Rights)
    requires Inv(w) && Matches(w.rows, d, r)
    ensures Inv(Run(w, actions)) && Tracks(w, Run(w, actions), d, r)
    decreases |actions|
  {
    hide Inv, Matches, OwnersKept, Apply, Replay;
    if actions == [] {
      TracksItself(w, d, r);
    } else {
      var v := Apply(w, actions[0]);
      StepTracks(w, actions[0], d, r);
      RunLawful(v, actions[1..], d, Replay(r, v.log[|w.log|..], d));
      TracksTwice(w, v, Run(v, actions[1..]), d, r);
    }
  }

  /**
   At every moment of every interleaving, who may read or edit a document is what replaying the history, with
   everyone's requests but the owner's ignored, says.
   */
  lemma RightsAreOwnersReplay(w0: World, w: World, d: DocId, base: Rights, u: UserId)
    requires Reachable(w0, w) && Matches(w0.rows, d, base)
    ensures CanAccess(w.rows, d, u) <==> MayRead(Replay(base, w.log, d), u)
    ensures CanEdit(w.rows, d, u) <==> MayEdit(Replay(base, w.log, d), u)
  {
    var actions :| w == Run(w0, actions);
    RunLawful(w0, actions, d, base);
    assert w.log[0..] == w.log;
    MatchDecides(w.rows, d, Replay(base, w.log, d), u);
  }

  /** Every starting table has rights to replay from. */
  lemma EveryTableMatches(t: Tables, d: DocId) returns (r: Rights)
    ensures Matches(t, d, r)
  {
    if d in t.docs {
      var grants := map p | p in t.shares && p.0 == d :: p.1 := t.shares[p];
      forall u
        ensures u in grants <==> (d, u) in t.shares
      {
        if (d, u) in t.shares {
          assert (d, u).1 in grants;
        }
      }
      r := Live(t.docs[d].owner, t.docs[d].visibility == "public", grants);
    } else {
      r := Absent;
    }
  }

  lemma ReachableInv(w0: World, w: World)
    requires Reachable(w0, w)
    ensures Inv(w)
  {
    var actions :| w == Run(w0, actions);
    var r := EveryTableMatches(w0.rows, 0);
    RunLawful(w0, actions, 0, r);
  }

  /** Every write was authorised in the very state it committed on and stayed within its document, or changed no row. */
  lemma WritesAreAuthorised(w0: World, w: World, a: Action)
    requires Reachable(w0, w)
    ensures
      var v := Apply(w, a);
      || SameContent(w.rows, v.rows)
      || exists e :: v.log == w.log + [e] && Authorised(w.rows, e) && Confined(w.rows, v.rows, e)
  {
    ReachableInv(w0, w);
    var r := EveryTableMatches(w.rows, 0);
    StepLawful(w, a, 0, r);
  }

  /** Whatever runs, a document that lives on keeps its owner, and a deleted id never comes back. */
  lemma OwnersNeverChange(w0: World, w: World, later: seq<Action>, d: DocId)
    requires Reachable(w0, w) && d < w.rows.nextDoc && d in Run(w, later).rows.docs
    ensures d in w.rows.docs && Run(w, later).rows.docs[d].owner == w.rows.docs[d].owner
  {
    ReachableInv(w0, w);
    var r := EveryTableMatches(w.rows, d);
    RunLawful(w, later, d, r);
  }
}
