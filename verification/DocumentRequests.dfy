/**
 Any number of concurrent requests against the document tables and the upload folder. As in the session protocol an
 action is one database access or file-system call of one request, and a sequence of actions is an arbitrary
 interleaving; an action whose guard fails does nothing. The database and the folder cannot commit together, so
 every file-system call and every insert of an upload may fail on its own.

 Write statements wait while another connection holds the write lock; the only lock held across several actions
 is the one of an upload. Stored names are fresh, and files are identified by their stored name.
 */
module DocumentRequests {
  import opened Outcomes
  import opened Library
  import Paths

  /** What a committed request did, for the history. */
  datatype Deed =
    | Created(title: string, body: string, visibility: string)
    | Updated(data: map<string, string>)
    | Shared(user: UserId, edit: bool)
    | Unshared(user: UserId)
    | Deleted
    | Commented(body: string)
    | Uploaded(name: string, size: nat)

  datatype Entry = Entry(actor: UserId, doc: DocId, deed: Deed)

  datatype File = File(doc: DocId, user: UserId, content: seq<Byte>, name: string)

  datatype Request =
    | Idle
    | ShareReady(doc: DocId, user: UserId, target: UserId, edit: bool)  // owner check passed
    | UnshareReady(doc: DocId, user: UserId, target: UserId)
    | DeleteReady(doc: DocId, user: UserId)
    | CommentReady(doc: DocId, user: UserId, body: string)              // first access check passed
    | UploadReady(file: File)                                           // first edit check and validation passed
    | UploadLocked(file: File)                                          // checks repeated under the lock
    | UploadOpened(file: File)                                          // created, empty
    | UploadWritten(file: File)
    | UploadFailed(name: string)                                        // rolled back, the file may remain
    | CleanupDue
    | Cleaning(names: seq<string>)                                      // about to unlink the first name
    | Unlinked(names: seq<string>)                                      // about to dequeue the first name

  /**
   `log` records history, the requests that committed. `used` holds the names ever drawn: the assumption that a drawn
   name is fresh reads it, and nothing else.
   */
  datatype World = World(
    rows: Tables,
    disk: map<string, seq<Byte>>,
    lock: Option<nat>,
    requests: map<nat, Request>,
    limits: Limits,
    folder: seq<string>,
    used: set<string>,
    log: seq<Entry>)

  datatype Action =
    | Create(user: UserId, title: string, body: string, visibility: string)
    | Edit(doc: DocId, user: UserId, data: map<string, string>)
    | ShareRead(r: nat, doc: DocId, user: UserId, target: UserId, edit: bool)
    | ShareCommit(r: nat)
    | UnshareRead(r: nat, doc: DocId, user: UserId, target: UserId)
    | UnshareCommit(r: nat)
    | CommentRead(r: nat, doc: DocId, user: UserId, body: string)
    | CommentCommit(r: nat)
    | DeleteRead(r: nat, doc: DocId, user: UserId)
    | DeleteCommit(r: nat)
    | UploadRead(r: nat, file: File)
    | UploadBegin(r: nat)
    | UploadOpen(r: nat, ok: bool)
    | UploadWrite(r: nat, ok: bool, written: nat)
    | UploadInsert(r: nat, ok: bool)
    | UploadEnqueue(r: nat)
    | CleanupStart(r: nat)
    | CleanupRead(r: nat, names: seq<string>)
    | CleanupUnlink(r: nat, ok: bool)
    | CleanupDequeue(r: nat)
    | Abort(r: nat)

  function At(w: World, r: nat): Request {
    if r in w.requests then w.requests[r] else Idle
  }

  function Go(w: World, r: nat, q: Request): World {
    w.(requests := w.requests[r := q])
  }

  function Log(w: World, actor: UserId, doc: DocId, deed: Deed): World {
    w.(log := w.log + [Entry(actor, doc, deed)])
  }

  function CreateStep(w: World, u: UserId, doc: Document): World {
    if w.lock == None && u == doc.owner && doc.visibility in VALID_VISIBILITY
       && InsertDocument(w.rows, w.limits, doc).Some?
    then Log(w.(rows := InsertDocument(w.rows, w.limits, doc).value), u, w.rows.nextDoc, Created(doc.title, doc.body, doc.visibility))
    else w
  }

  function EditStep(w: World, d: DocId, u: UserId, data: map<string, string>): World {
    if w.lock == None && UpdateStatus(w.rows, d, u, data).Ok?
    then Log(w.(rows := Update(w.rows, d, u, data)), u, d, Updated(data))
    else w
  }

  function OwnerRead(w: World, r: nat, d: DocId, u: UserId, q: Request): World {
    if At(w, r).Idle? && IsOwner(w.rows, d, u) then Go(w, r, q) else w
  }

  function ShareStep(w: World, r: nat): World {
    match At(w, r)
    case ShareReady(d, u, target, edit) =>
      if w.lock == None
      then Go(Log(w.(rows := Share(w.rows, d, target, edit)), u, d, Shared(target, edit)), r, Idle)
      else w
    case _ => w
  }

  function UnshareStep(w: World, r: nat): World {
    match At(w, r)
    case UnshareReady(d, u, target) =>
      if w.lock == None
      then Go(Log(w.(rows := Unshare(w.rows, d, target)), u, d, Unshared(target)), r, Idle)
      else w
    case _ => w
  }

  function CommentStep(w: World, r: nat): World {
    match At(w, r)
    case CommentReady(d, u, body) =>
      if w.lock.Some? then w
      else if AddComment(w.rows, w.limits, Comment(d, u, body)).None? then Go(w, r, Idle)
      else Go(Log(w.(rows := AddComment(w.rows, w.limits, Comment(d, u, body)).value), u, d, Commented(body)), r, Idle)
    case _ => w
  }

  function DeleteStep(w: World, r: nat): World {
    match At(w, r)
    case DeleteReady(d, u) =>
      if w.lock == None then Go(Log(w.(rows := Delete(w.rows, d)), u, d, Deleted), r, CleanupDue) else w
    case _ => w
  }

  function ReadForUpload(w: World, r: nat, file: File): World {
    if At(w, r).Idle? && CanEdit(w.rows, file.doc, file.user) && file.name !in w.used
    then Go(w.(used := w.used + {file.name}), r, UploadReady(file))
    else w
  }

  /** BEGIN IMMEDIATE, then the edit and quota checks again. */
  function BeginUpload(w: World, r: nat): World {
    match At(w, r)
    case UploadReady(f) =>
      if w.lock.Some? then w
      else if CanEdit(w.rows, f.doc, f.user) && UploadFits(w.rows, w.limits, f.user, |f.content|)
      then Go(w, r, UploadLocked(f)).(lock := Some(r))
      else Go(w, r, Idle)
    case _ => w
  }

  function OpenFile(w: World, r: nat, ok: bool): World {
    match At(w, r)
    case UploadLocked(f) =>
      if ok && f.name !in w.disk then Go(w, r, UploadOpened(f)).(disk := w.disk[f.name := []])
      else Go(w, r, Idle).(lock := None)
    case _ => w
  }

  function WriteFile(w: World, r: nat, ok: bool, written: nat): World {
    match At(w, r)
    case UploadOpened(f) =>
      if ok then Go(w, r, UploadWritten(f)).(disk := w.disk[f.name := f.content])
      else
        var part := if written < |f.content| then f.content[..written] else f.content;
        Go(w, r, UploadFailed(f.name)).(disk := w.disk[f.name := part], lock := None)
    case _ => w
  }

  function InsertFile(w: World, r: nat, ok: bool): World {
    match At(w, r)
    case UploadWritten(f) =>
      if ok then
        Go(Log(w.(rows := Attach(w.rows, Attachment(f.doc, f.name, f.user, |f.content|)), lock := None),
               f.user, f.doc, Uploaded(f.name, |f.content|)), r, Idle)
      else Go(w, r, UploadFailed(f.name)).(lock := None)
    case _ => w
  }

  function EnqueueFile(w: World, r: nat): World {
    match At(w, r)
    case UploadFailed(name) =>
      if w.lock.Some? then w
      else if name in w.disk then Go(w.(rows := w.rows.(queue := w.rows.queue + {name})), r, CleanupDue)
      else Go(w, r, Idle)
    case _ => w
  }

  predicate Distinct(names: seq<string>) {
    forall i, j :: 0 <= i < j < |names| ==> names[i] != names[j]
  }

  /** SELECT stored_name: each queued name once, in any order. */
  function ReadQueue(w: World, r: nat, names: seq<string>): World {
    if At(w, r).CleanupDue? && (set n | n in names) == w.rows.queue && Distinct(names) then Go(w, r, Cleaning(names)) else w
  }

  /** os.unlink of the first name: skipped when not sealed, kept for later when it fails. */
  function UnlinkFile(w: World, r: nat, ok: bool): World {
    match At(w, r)
    case Cleaning(names) =>
      if names == [] then Go(w, r, Idle)
      else if !Paths.Sealed(w.folder, names[0]) || !ok then Go(w, r, Cleaning(names[1..]))
      else Go(w, r, Unlinked(names)).(disk := w.disk - {names[0]})
    case _ => w
  }

  function DequeueFile(w: World, r: nat): World {
    match At(w, r)
    case Unlinked(names) =>
      if w.lock.Some? || names == [] then w
      else Go(w.(rows := w.rows.(queue := w.rows.queue - {names[0]})), r, Cleaning(names[1..]))
    case _ => w
  }

  /** Any request may die where it neither holds the lock nor owns a file. */
  function Die(w: World, r: nat): World {
    var q := At(w, r);
    if q.UploadLocked? || q.UploadOpened? || q.UploadWritten? || q.UploadFailed? then w else Go(w, r, Idle)
  }

  function Apply(w: World, a: Action): World {
    match a
    case Create(u, title, body, visibility) => CreateStep(w, u, Document(u, title, body, visibility))
    case Edit(d, u, data) => EditStep(w, d, u, data)
    case ShareRead(r, d, u, target, edit) => OwnerRead(w, r, d, u, ShareReady(d, u, target, edit))
    case ShareCommit(r) => ShareStep(w, r)
    case UnshareRead(r, d, u, target) => OwnerRead(w, r, d, u, UnshareReady(d, u, target))
    case UnshareCommit(r) => UnshareStep(w, r)
    case CommentRead(r, d, u, body) =>
      if At(w, r).Idle? && CanAccess(w.rows, d, u) then Go(w, r, CommentReady(d, u, body)) else w
    case CommentCommit(r) => CommentStep(w, r)
    case DeleteRead(r, d, u) => OwnerRead(w, r, d, u, DeleteReady(d, u))
    case DeleteCommit(r) => DeleteStep(w, r)
    case UploadRead(r, file) => ReadForUpload(w, r, file)
    case UploadBegin(r) => BeginUpload(w, r)
    case UploadOpen(r, ok) => OpenFile(w, r, ok)
    case UploadWrite(r, ok, written) => WriteFile(w, r, ok, written)
    case UploadInsert(r, ok) => InsertFile(w, r, ok)
    case UploadEnqueue(r) => EnqueueFile(w, r)
    case CleanupStart(r) => if At(w, r).Idle? then Go(w, r, CleanupDue) else w
    case CleanupRead(r, names) => ReadQueue(w, r, names)
    case CleanupUnlink(r, ok) => UnlinkFile(w, r, ok)
    case CleanupDequeue(r) => DequeueFile(w, r)
    case Abort(r) => Die(w, r)
  }

  function Run(w: World, actions: seq<Action>): World
    decreases |actions|
  {
    if actions == [] then w else Run(Apply(w, actions[0]), actions[1..])
  }

  // ---------- initial states ----------

  /** The schema: child rows refer to existing documents, and the id counter is ahead of every document. */
  ghost predicate SchemaOk(t: Tables) {
    && (forall d :: d in t.docs ==> d < t.nextDoc)
    && (forall p :: p in t.shares ==> p.0 in t.docs)
    && (forall c :: c in t.comments ==> c.doc in t.docs)
    && (forall a :: a in t.attachments ==> a.doc in t.docs)
  }

  ghost predicate WithinLimits(t: Tables, lim: Limits) {
    && (forall u :: |Owned(t.docs, u)| <= lim.documents)
    && (forall d :: CommentsOn(t.comments, d) <= lim.comments)
    && (forall u :: FilesBy(t.attachments, u) <= lim.attachments && BytesBy(t.attachments, u) <= lim.bytes)
  }

  /** No orphans: each file is attached or queued, not both, and each attached row has its file. */
  ghost predicate FilesMatch(t: Tables, disk: map<string, seq<Byte>>) {
    && (forall n :: n in disk ==> n in AttachedNames(t.attachments) || n in t.queue)
    && t.queue !! AttachedNames(t.attachments)
    && DistinctNames(t.attachments)
    && (forall a :: a in t.attachments ==> a.name in disk && |disk[a.name]| == a.size)
  }

  ghost predicate Init(w: World) {
    && w.lock == None && w.requests == map[] && w.log == []
    && SchemaOk(w.rows) && WithinLimits(w.rows, w.limits) && FilesMatch(w.rows, w.disk)
    && w.used == AttachedNames(w.rows.attachments) + w.rows.queue
  }

  ghost predicate Reachable(w0: World, w: World) {
    Init(w0) && exists actions :: w == Run(w0, actions)
  }
}
