/**
 Requests that only read: a document, its comments, a file. Each SELECT runs outside any transaction, so between two
 of them any other steps may run; a read is a function of the successive states that its queries see.
 */
module ReadRequests {
  import opened Outcomes
  import opened Library
  import opened DocumentRequests
  import opened RightsSafety
  import FileSafety
  import CleanupSafety
  import Paths

  datatype View = View(doc: Document, attachments: seq<Attachment>)

  function AttachmentsOf(rows: seq<Attachment>, d: DocId): seq<Attachment> {
    if rows == [] then []
    else AttachmentsOf(rows[..|rows| - 1], d) + if rows[|rows| - 1].doc == d then [rows[|rows| - 1]] else []
  }

  function CommentsOf(rows: seq<Comment>, d: DocId): seq<Comment> {
    if rows == [] then []
    else CommentsOf(rows[..|rows| - 1], d) + if rows[|rows| - 1].doc == d then [rows[|rows| - 1]] else []
  }

  /** can_access: the documents row, then the shares row. */
  predicate LetIn(t: Tables, later: Tables, d: DocId, u: UserId) {
    d in t.docs && (t.docs[d].visibility == "public" || t.docs[d].owner == u || (d, u) in later.shares)
  }

  /** get_document: the row, can_access, the attachments; None is a 404. */
  function GetDocument(t: Tables, check: Tables, shares: Tables, files: Tables, d: DocId, u: UserId): Option<View> {
    if d in t.docs && LetIn(check, shares, d, u) then Some(View(t.docs[d], AttachmentsOf(files.attachments, d))) else None
  }

  /** list_comments, before paging: can_access, then the rows; None is a 403. */
  function ListComments(check: Tables, shares: Tables, rows: Tables, d: DocId, u: UserId): Option<seq<Comment>> {
    if LetIn(check, shares, d, u) then Some(CommentsOf(rows.comments, d)) else None
  }

  /** download: the attachment row, can_access to its document, then the file; None is a 404. */
  function Download(t: Tables, check: Tables, shares: Tables, folder: seq<string>, disk: map<string, seq<Byte>>, a: Attachment,
                    u: UserId): Option<seq<Byte>>
  {
    if a in t.attachments && LetIn(check, shares, a.doc, u) && Paths.Sealed(folder, a.name) && a.name in disk
    then Some(disk[a.name]) else None
  }

  // ---------- what the owner does in between ----------

  /** An entry that can open the document to the user, or close it. */
  predicate Opens(e: Entry, d: DocId, u: UserId) {
    e.doc == d && match e.deed
      case Shared(target, _) => target == u
      case Updated(data) => "visibility" in data && data["visibility"] == "public"
      case _ => false
  }

  predicate Closes(e: Entry, d: DocId, u: UserId) {
    e.doc == d && match e.deed
      case Unshared(target) => target == u
      case Updated(data) => "visibility" in data && data["visibility"] != "public"
      case Deleted => true
      case _ => false
  }

  ghost predicate OwnerOpens(log: seq<Entry>, owner: UserId, d: DocId, u: UserId) {
    exists e :: e in log && e.actor == owner && Opens(e, d, u)
  }

  ghost predicate OwnerCloses(log: seq<Entry>, owner: UserId, d: DocId, u: UserId) {
    exists e :: e in log && e.actor == owner && Closes(e, d, u)
  }

  lemma {:induction false} AbsentOrSameOwner(base: Rights, log: seq<Entry>, d: DocId)
    requires base.Live? && (forall e :: e in log && e.doc == d ==> !e.deed.Created?)
    ensures Replay(base, log, d).Live? ==> Replay(base, log, d).owner == base.owner
  {
    if log != [] {
      AbsentOrSameOwner(base, log[..|log| - 1], d);
    }
  }

  lemma {:induction false} OpenedByOwner(base: Rights, log: seq<Entry>, d: DocId, u: UserId)
    requires base.Live? && !MayRead(base, u) && MayRead(Replay(base, log, d), u)
    requires forall e :: e in log && e.doc == d ==> !e.deed.Created?
    ensures OwnerOpens(log, base.owner, d, u)
  {
    var init, e := log[..|log| - 1], log[|log| - 1];
    assert log == init + [e];
    AbsentOrSameOwner(base, init, d);
    if MayRead(Replay(base, init, d), u) {
      OpenedByOwner(base, init, d, u);
      var x :| x in init && x.actor == base.owner && Opens(x, d, u);
      assert x in log;
    } else {
      assert e in log && Opens(e, d, u) && e.actor == base.owner;
    }
  }

  lemma {:induction false} ClosedByOwner(base: Rights, log: seq<Entry>, d: DocId, u: UserId)
    requires MayRead(base, u) && !MayRead(Replay(base, log, d), u)
    requires forall e :: e in log && e.doc == d ==> !e.deed.Created?
    ensures OwnerCloses(log, base.owner, d, u)
  {
    var init, e := log[..|log| - 1], log[|log| - 1];
    assert log == init + [e];
    AbsentOrSameOwner(base, init, d);
    if !MayRead(Replay(base, init, d), u) {
      ClosedByOwner(base, init, d, u);
      var x :| x in init && x.actor == base.owner && Closes(x, d, u);
      assert x in log;
    } else {
      assert e in log && Closes(e, d, u) && e.actor == base.owner;
    }
  }

  // ---------- a stretch of a run between two queries ----------

  /** v is a later state of the run that goes through w. */
  ghost predicate Follows(w: World, v: World) {
    exists actions :: v == Run(w, actions)
  }

  function Between(w: World, v: World): seq<Entry> {
    if |w.log| <= |v.log| then v.log[|w.log|..] else []
  }

  /** The committed edits of a document, one after the other. */
  function Edits(doc: Document, log: seq<Entry>, d: DocId): Document {
    if log == [] then doc
    else
      var before, e := Edits(doc, log[..|log| - 1], d), log[|log| - 1];
      if e.doc == d && e.deed.Updated? then Edited(before, e.deed.data) else before
  }

  lemma {:induction false} EditsSplit(doc: Document, a: seq<Entry>, b: seq<Entry>, d: DocId)
    ensures Edits(doc, a + b, d) == Edits(Edits(doc, a, d), b, d)
  {
    if b == [] {
      assert a + b == a;
    } else {
      assert (a + b)[..|a + b| - 1] == a + b[..|b| - 1];
      EditsSplit(doc, a, b[..|b| - 1], d);
    }
  }

  /** What happened to document d from w to v, if it existed or had existed at w. */
  ghost predicate Stretch(w: World, v: World, d: DocId) {
    && OwnersKept(w.rows, v.rows) && w.log <= v.log
    && (forall e :: e in Between(w, v) && e.doc == d ==> !e.deed.Created?)
    && (d in w.rows.docs && d in v.rows.docs ==> v.rows.docs[d] == Edits(w.rows.docs[d], Between(w, v), d))
  }

  lemma StepStretch(w: World, a: Action, d: DocId)
    requires RightsSafety.Inv(w) && d < w.rows.nextDoc
    ensures RightsSafety.Inv(Apply(w, a)) && Stretch(w, Apply(w, a), d)
  {
    hide RightsSafety.Inv, Apply, Edited, Authorised;
    var v := Apply(w, a);
    var r := EveryTableMatches(w.rows, d);
    StepLawful(w, a, d, r);
    if v.log == w.log {
      assert Between(w, v) == [];
    } else {
      var e :| v.log == w.log + [e] && Committed(w.rows, v.rows, e);
      assert Between(w, v) == [e] && [e][..0] == [];
      assert d in w.rows.docs ==> Edits(w.rows.docs[d], [], d) == w.rows.docs[d];
    }
  }

  lemma JoinStretch(w: World, u: World, v: World, d: DocId)
    requires Stretch(w, u, d) && Stretch(u, v, d) && d < w.rows.nextDoc
    ensures Stretch(w, v, d)
  {
    assert Between(w, v) == Between(w, u) + Between(u, v);
    if d in w.rows.docs && d in v.rows.docs {
      EditsSplit(w.rows.docs[d], Between(w, u), Between(u, v), d);
    }
  }

  lemma NoStretch(w: World, d: DocId)
    ensures Stretch(w, w, d)
  {
    assert Between(w, w) == [];
  }

  lemma {:induction false} RunStretch(w: World, actions: seq<Action>, d: DocId)
    requires RightsSafety.Inv(w) && d < w.rows.nextDoc
    ensures RightsSafety.Inv(Run(w, actions)) && Stretch(w, Run(w, actions), d)
    decreases |actions|
  {
    hide RightsSafety.Inv, Apply, Stretch;
    if actions == [] {
      NoStretch(w, d);
    } else {
      StepStretch(w, actions[0], d);
      var u := Apply(w, actions[0]);
      NextKept(w, u, d);
      RunStretch(u, actions[1..], d);
      JoinStretch(w, u, Run(w, actions), d);
    }
  }

  lemma NextKept(w: World, u: World, d: DocId)
    requires Stretch(w, u, d) && d < w.rows.nextDoc
    ensures d < u.rows.nextDoc
  {
  }

  /** The text of a document is the text it had, with the committed edits applied in order. */
  lemma TextIsEditsReplay(w0: World, w: World, v: World, d: DocId)
    requires Reachable(w0, w) && Follows(w, v) && d in w.rows.docs && d in v.rows.docs
    ensures w.log <= v.log && v.rows.docs[d] == Edits(w.rows.docs[d], Between(w, v), d)
  {
    RightsSafety.ReachableInv(w0, w);
    var actions :| v == Run(w, actions);
    RunStretch(w, actions, d);
  }

  // ---------- what a reader is shown ----------

  /** The three states of a read: the rows, then the two queries of can_access. */
  ghost predicate Observed(w0: World, w: World, x: World, y: World) {
    Reachable(w0, w) && Follows(w, x) && Follows(x, y)
  }

  lemma Onward(w: World, v: World, d: DocId, base: Rights)
    requires RightsSafety.Inv(w) && Follows(w, v) && Matches(w.rows, d, base)
    ensures RightsSafety.Inv(v) && w.log <= v.log && Matches(v.rows, d, Replay(base, Between(w, v), d))
    ensures d < w.rows.nextDoc ==> Stretch(w, v, d)
  {
    hide RightsSafety.Inv, Stretch, Matches;
    var actions :| v == Run(w, actions);
    RunLawful(w, actions, d, base);
    if d < w.rows.nextDoc {
      RunStretch(w, actions, d);
    }
  }

  lemma FollowsTwice(w: World, x: World, y: World)
    requires Follows(w, x) && Follows(x, y)
    ensures Follows(w, y)
  {
    var a :| x == Run(w, a);
    var b :| y == Run(x, b);
    RunBoth(w, a, b);
  }

  lemma {:induction false} RunBoth(w: World, a: seq<Action>, b: seq<Action>)
    ensures Run(w, a + b) == Run(Run(w, a), b)
    decreases |a|
  {
    hide Apply;
    if a == [] {
      assert a + b == b;
    } else {
      assert (a + b)[1..] == a[1..] + b;
      RunBoth(Apply(w, a[0]), a[1..], b);
    }
  }

  lemma DocumentOfShare(w: World, d: DocId, u: UserId)
    requires RightsSafety.Inv(w) && (d, u) in w.rows.shares
    ensures d in w.rows.docs && CanAccess(w.rows, d, u)
  {
  }

  /** What can_access answers over two states is decided by the owner's actions up to each of them. */
  lemma LetInFollowsOwner(w0: World, w: World, x: World, y: World, d: DocId, u: UserId, base: Rights)
    requires Observed(w0, w, x, y) && Matches(w.rows, d, base)
    ensures
      var first, second := Replay(base, Between(w, x), d), Replay(base, Between(w, y), d);
      LetIn(x.rows, y.rows, d, u) <==>
        first.Live? && (first.public || first.owner == u || (second.Live? && u in second.grants))
  {
    hide Reachable, Follows, RightsSafety.Inv, Stretch, Replay;
    RightsSafety.ReachableInv(w0, w);
    FollowsTwice(w, x, y);
    Onward(w, x, d, base);
    Onward(w, y, d, base);
    if (d, u) in y.rows.shares {
      DocumentOfShare(y, d, u);
    }
  }

  /** Passing can_access means having access in the state of one of its two queries. */
  lemma LetInSometime(w0: World, w: World, x: World, y: World, d: DocId, u: UserId)
    requires Observed(w0, w, x, y) && LetIn(x.rows, y.rows, d, u)
    ensures CanAccess(x.rows, d, u) || CanAccess(y.rows, d, u)
  {
    hide Reachable, RightsSafety.Inv;
    RightsSafety.ReachableInv(w0, w);
    var r := EveryTableMatches(w.rows, d);
    FollowsTwice(w, x, y);
    Onward(w, y, d, r);
    if (d, u) in y.rows.shares {
      DocumentOfShare(y, d, u);
    }
  }

  lemma BetweenGrows(w: World, x: World, y: World)
    requires w.log <= x.log <= y.log
    ensures Between(w, y) == Between(w, x) + Between(x, y)
  {
  }

  lemma OpenedLater(w: World, v: World, d: DocId, u: UserId)
    requires RightsSafety.Inv(w) && Follows(w, v) && d in w.rows.docs
    requires !CanAccess(w.rows, d, u) && CanAccess(v.rows, d, u)
    ensures OwnerOpens(Between(w, v), w.rows.docs[d].owner, d, u)
  {
    hide RightsSafety.Inv, Follows, OwnerOpens;
    var base := EveryTableMatches(w.rows, d);
    IdsAhead(w, d);
    Onward(w, v, d, base);
    MatchDecides(w.rows, d, base, u);
    MatchDecides(v.rows, d, Replay(base, Between(w, v), d), u);
    OpenedByOwner(base, Between(w, v), d, u);
  }

  lemma ClosedLater(w: World, v: World, d: DocId, u: UserId)
    requires RightsSafety.Inv(w) && Follows(w, v) && d in w.rows.docs
    requires CanAccess(w.rows, d, u) && !CanAccess(v.rows, d, u)
    ensures OwnerCloses(Between(w, v), w.rows.docs[d].owner, d, u)
  {
    hide RightsSafety.Inv, Follows, OwnerCloses;
    var base := EveryTableMatches(w.rows, d);
    IdsAhead(w, d);
    Onward(w, v, d, base);
    MatchDecides(w.rows, d, base, u);
    MatchDecides(v.rows, d, Replay(base, Between(w, v), d), u);
    ClosedByOwner(base, Between(w, v), d, u);
  }

  lemma IdsAhead(w: World, d: DocId)
    requires RightsSafety.Inv(w) && d in w.rows.docs
    ensures d < w.rows.nextDoc
  {
  }

  predicate EditsText(e: Entry, d: DocId) {
    e.doc == d && e.deed.Updated? && ("title" in e.deed.data || "body" in e.deed.data)
  }

  predicate SameText(a: Document, b: Document) {
    a.title == b.title && a.body == b.body
  }

  lemma {:induction false} TextNeedsEdit(doc: Document, log: seq<Entry>, d: DocId)
    requires !SameText(Edits(doc, log, d), doc)
    ensures exists e :: e in log && EditsText(e, d)
  {
    var init, e := log[..|log| - 1], log[|log| - 1];
    assert log == init + [e];
    if !SameText(Edits(doc, init, d), doc) {
      TextNeedsEdit(doc, init, d);
      var x :| x in init && EditsText(x, d);
      assert x in log;
    } else {
      assert e in log && EditsText(e, d);
    }
  }

  /**
   get_document reads the row before it asks for access. The answer is the row as it was then. If the caller could
   not read it then, the owner opened the document to the caller while the request ran; and if the text shown is not
   the one that was there at the access check, somebody edited it in between as well.
   */
  lemma HiddenAnswerNeedsOwner(w0: World, w: World, x: World, y: World, z: World, d: DocId, u: UserId)
    requires Observed(w0, w, x, y) && GetDocument(w.rows, x.rows, y.rows, z.rows, d, u).Some?
    ensures d in w.rows.docs && GetDocument(w.rows, x.rows, y.rows, z.rows, d, u).value.doc == w.rows.docs[d]
    ensures !CanAccess(w.rows, d, u) ==> OwnerOpens(Between(w, y), w.rows.docs[d].owner, d, u)
    ensures d in x.rows.docs
    ensures SameText(x.rows.docs[d], w.rows.docs[d]) || exists e :: e in Between(w, x) && EditsText(e, d)
  {
    hide RightsSafety.Inv, OwnerOpens, Reachable, LetIn;
    RightsSafety.ReachableInv(w0, w);
    LetInSometime(w0, w, x, y, d, u);
    FollowsTwice(w, x, y);
    var base := EveryTableMatches(w.rows, d);
    IdsAhead(w, d);
    Onward(w, x, d, base);
    Onward(w, y, d, base);
    LetInHere(x.rows, y.rows, d, u);
    if !CanAccess(w.rows, d, u) {
      if CanAccess(y.rows, d, u) {
        OpenedLater(w, y, d, u);
      } else {
        OpenedLater(w, x, d, u);
        OpensEarlier(w, x, y, w.rows.docs[d].owner, d, u);
      }
    }
    if !SameText(x.rows.docs[d], w.rows.docs[d]) {
      TextNeedsEdit(w.rows.docs[d], Between(w, x), d);
    }
  }

  lemma LetInHere(t: Tables, later: Tables, d: DocId, u: UserId)
    requires LetIn(t, later, d, u)
    ensures d in t.docs
  {
  }

  lemma OpensEarlier(w: World, x: World, y: World, owner: UserId, d: DocId, u: UserId)
    requires Follows(w, x) && Follows(x, y) && w.log <= x.log && RightsSafety.Inv(x)
    requires OwnerOpens(Between(w, x), owner, d, u)
    ensures OwnerOpens(Between(w, y), owner, d, u)
  {
    hide RightsSafety.Inv, Follows;
    var r := EveryTableMatches(x.rows, d);
    Onward(x, y, d, r);
    BetweenGrows(w, x, y);
    var e :| e in Between(w, x) && e.actor == owner && Opens(e, d, u);
    assert e in Between(w, y);
  }

  /**
   Exactly when the answer was not readable at the moment it was read: the owner's actions up to then did not let the
   caller read it, and those up to the queries of can_access did.
   */
  lemma HiddenAnswerIff(w0: World, w: World, x: World, y: World, z: World, d: DocId, u: UserId, base: Rights)
    requires Observed(w0, w, x, y) && Matches(w.rows, d, base)
    ensures
      var first, second := Replay(base, Between(w, x), d), Replay(base, Between(w, y), d);
      GetDocument(w.rows, x.rows, y.rows, z.rows, d, u).Some? && !CanAccess(w.rows, d, u) <==>
        && base.Live? && !MayRead(base, u)
        && first.Live? && (first.public || (second.Live? && u in second.grants))
  {
    hide RightsSafety.Inv, Reachable, Follows, Replay, LetIn;
    LetInFollowsOwner(w0, w, x, y, d, u, base);
    MatchDecides(w.rows, d, base, u);
    RightsSafety.ReachableInv(w0, w);
    Onward(w, x, d, base);
    if d in w.rows.docs {
      IdsAhead(w, d);
      AbsentOrSameOwner(base, Between(w, x), d);
    }
  }

  lemma {:induction false} Unmoved(base: Rights, log: seq<Entry>, d: DocId, u: UserId)
    requires base.Live? && (forall e :: e in log && e.doc == d ==> !e.deed.Created?)
    requires forall e :: e in log && e.actor == base.owner ==> !Opens(e, d, u) && !Closes(e, d, u)
    ensures
      var r := Replay(base, log, d);
      r.Live? && r.owner == base.owner && r.public == base.public && (u in r.grants <==> u in base.grants)
  {
    if log != [] {
      var init, e := log[..|log| - 1], log[|log| - 1];
      assert log == init + [e] && e in log;
      Unmoved(base, init, d, u);
    }
  }

  /** If the owner neither opens nor closes the document to the caller meanwhile, the answer is that of one instant. */
  lemma UndisturbedReadIff(w0: World, w: World, x: World, y: World, z: World, d: DocId, u: UserId)
    requires Observed(w0, w, x, y) && d in w.rows.docs
    requires !OwnerOpens(Between(w, y), w.rows.docs[d].owner, d, u) && !OwnerCloses(Between(w, y), w.rows.docs[d].owner, d, u)
    ensures GetDocument(w.rows, x.rows, y.rows, z.rows, d, u).Some? <==> CanAccess(w.rows, d, u)
  {
    hide RightsSafety.Inv, Reachable, Follows, Replay, LetIn;
    RightsSafety.ReachableInv(w0, w);
    var base := EveryTableMatches(w.rows, d);
    LetInFollowsOwner(w0, w, x, y, d, u, base);
    MatchDecides(w.rows, d, base, u);
    FollowsTwice(w, x, y);
    IdsAhead(w, d);
    Onward(w, x, d, base);
    Onward(w, y, d, base);
    StretchesTo(w, x, y, d);
    Unmoved(base, Between(w, x), d, u);
    Unmoved(base, Between(w, y), d, u);
  }

  lemma StretchesTo(w: World, x: World, y: World, d: DocId)
    requires RightsSafety.Inv(x) && Follows(x, y) && w.log <= x.log
    ensures forall e :: e in Between(w, x) ==> e in Between(w, y)
  {
    hide RightsSafety.Inv, Follows;
    var r := EveryTableMatches(x.rows, d);
    Onward(x, y, d, r);
    BetweenGrows(w, x, y);
  }

  // ---------- comments and files ----------

  lemma {:induction false} CommentsBelong(rows: seq<Comment>, d: DocId, c: Comment)
    ensures c in CommentsOf(rows, d) <==> c in rows && c.doc == d
  {
    if rows != [] {
      assert rows == rows[..|rows| - 1] + [rows[|rows| - 1]];
      CommentsBelong(rows[..|rows| - 1], d, c);
    }
  }

  /**
   list_comments asks for access before it reads. It returns exactly the document's comments at the moment of
   reading; if the caller could no longer read the document then, the owner closed it while the request ran, and if
   it was deleted the answer is empty.
   */
  lemma LateCommentsNeedOwner(w0: World, w: World, x: World, y: World, d: DocId, u: UserId)
    requires Observed(w0, w, x, y) && ListComments(w.rows, x.rows, y.rows, d, u).Some?
    ensures
      var shown := ListComments(w.rows, x.rows, y.rows, d, u).value;
      && (forall c :: c in shown <==> c in y.rows.comments && c.doc == d)
      && (d !in y.rows.docs ==> shown == [])
    ensures d in w.rows.docs
    ensures !CanAccess(y.rows, d, u) ==> OwnerCloses(Between(w, y), w.rows.docs[d].owner, d, u)
  {
    hide RightsSafety.Inv, OwnerCloses, Reachable, Follows, CommentsOf;
    RightsSafety.ReachableInv(w0, w);
    FollowsTwice(w, x, y);
    var base := EveryTableMatches(w.rows, d);
    Onward(w, x, d, base);
    Onward(w, y, d, base);
    var shown := CommentsOf(y.rows.comments, d);
    forall c
      ensures c in shown <==> c in y.rows.comments && c.doc == d
    {
      CommentsBelong(y.rows.comments, d, c);
    }
    if d !in y.rows.docs {
      NoComments(y, d);
      HasFirst(shown);
    }
    if !CanAccess(y.rows, d, u) {
      if CanAccess(w.rows, d, u) {
        ClosedLater(w, y, d, u);
      } else {
        DocumentOfShare(x, d, u);
        var r := EveryTableMatches(x.rows, d);
        Onward(x, y, d, r);
        ClosedLater(x, y, d, u);
        ClosesLater(w, x, y, d, u);
      }
    }
  }

  lemma HasFirst(rows: seq<Comment>)
    ensures rows != [] ==> exists c :: c in rows
  {
    if rows != [] {
      assert rows[0] in rows;
    }
  }

  lemma NoComments(w: World, d: DocId)
    requires RightsSafety.Inv(w) && d !in w.rows.docs
    ensures forall c :: c in w.rows.comments ==> c.doc != d
  {
  }

  lemma ClosesLater(w: World, x: World, y: World, d: DocId, u: UserId)
    requires RightsSafety.Inv(w) && Follows(w, x) && d in w.rows.docs && d in x.rows.docs && w.log <= x.log <= y.log
    requires OwnerCloses(Between(x, y), x.rows.docs[d].owner, d, u)
    ensures OwnerCloses(Between(w, y), w.rows.docs[d].owner, d, u)
  {
    hide RightsSafety.Inv, Follows;
    var r := EveryTableMatches(w.rows, d);
    IdsAhead(w, d);
    Onward(w, x, d, r);
    BetweenGrows(w, x, y);
    var e :| e in Between(x, y) && e.actor == x.rows.docs[d].owner && Closes(e, d, u);
    assert e in Between(w, y);
  }

  lemma {:induction false} AttachmentsBelong(rows: seq<Attachment>, d: DocId, a: Attachment)
    ensures a in AttachmentsOf(rows, d) <==> a in rows && a.doc == d
  {
    if rows != [] {
      assert rows == rows[..|rows| - 1] + [rows[|rows| - 1]];
      AttachmentsBelong(rows[..|rows| - 1], d, a);
    }
  }

  /** Whoever may read a document is shown it, with its attachments, and can download each of them. */
  lemma AccessIsServed(w0: World, w: World, d: DocId, u: UserId, a: Attachment)
    requires Reachable(w0, w) && CanAccess(w.rows, d, u)
    ensures
      var view := GetDocument(w.rows, w.rows, w.rows, w.rows, d, u);
      && view.Some? && view.value.doc == w.rows.docs[d]
      && (a in view.value.attachments <==> a in w.rows.attachments && a.doc == d)
    ensures ListComments(w.rows, w.rows, w.rows, d, u).Some?
    ensures a in w.rows.attachments && a.doc == d && Paths.Generated(a.name) ==>
      a.name in w.disk && Download(w.rows, w.rows, w.rows, w.folder, w.disk, a, u) == Some(w.disk[a.name])
  {
    hide Reachable, Paths.Generated, Paths.Sealed;
    AttachmentsBelong(w.rows.attachments, d, a);
    FileSafety.FolderAndTablesAgree(w0, w);
    if Paths.Generated(a.name) {
      Paths.GeneratedIsSealed(w.folder, a.name);
    }
  }

  /** A download that is answered serves, byte for byte, the file that was attached, to somebody who had access. */
  lemma DownloadServesTheUpload(w0: World, w: World, x: World, y: World, z: World, a: Attachment, u: UserId)
    requires Observed(w0, w, x, y) && Follows(y, z)
    requires Download(w.rows, x.rows, y.rows, w.folder, z.disk, a, u).Some?
    ensures
      var content := Download(w.rows, x.rows, y.rows, w.folder, z.disk, a, u).value;
      a.name in w.disk && content == w.disk[a.name] && |content| == a.size
    ensures CanAccess(x.rows, a.doc, u) || CanAccess(y.rows, a.doc, u)
  {
    hide Reachable, LetIn, Paths.Sealed, Run;
    LetInSometime(w0, w, x, y, a.doc, u);
    FollowsTwice(w, x, y);
    FollowsTwice(w, y, z);
    var actions :| z == Run(w, actions);
    CleanupSafety.AttachedFilesNeverChange(w0, w, actions, a.name);
    FileSafety.FolderAndTablesAgree(w0, w);
  }

  // ---------- two runs in which a reader sees too much ----------

  const SOME := Limits(9, 9, 9, 9)
  const START := World(
    Tables(map[0 := Document(1, "plan", "secret", "private")], 1, map[(0, 3) := false], [], [], {}),
    map[], None, map[], SOME, ["uploads"], {}, [])
  const REDACT: map<string, string> := map["body" := "", "visibility" := "public"]

  lemma StartIsReachable()
    ensures Reachable(START, START)
  {
    assert START == Run(START, []);
    forall u: UserId
      ensures |Owned(START.rows.docs, u)| <= 1
    {
      assert Owned(START.rows.docs, u) == if u == 1 then {0} else {};
    }
    forall d: DocId
      ensures CommentsOn(START.rows.comments, d) == 0
    {
    }
    assert Init(START);
  }

  /**
   The owner empties a private document and publishes it, in one committed edit. A request that read the row before
   and asks for access after shows a stranger the text that the owner took out first.
   */
  lemma RedactedTextIsShown() returns (x: World)
    ensures Reachable(START, START) && !CanAccess(START.rows, 0, 2)
    ensures x == Run(START, [Edit(0, 1, REDACT)]) && CanAccess(x.rows, 0, 2) && x.rows.docs[0].body == ""
    ensures GetDocument(START.rows, x.rows, x.rows, x.rows, 0, 2) == Some(View(Document(1, "plan", "secret", "private"), []))
  {
    StartIsReachable();
    x := Apply(START, Edit(0, 1, REDACT));
    assert Run(START, [Edit(0, 1, REDACT)]) == Run(x, []);
  }

  lemma Revoked() returns (x: World)
    ensures x == Run(START, [UnshareRead(7, 0, 1, 3), UnshareCommit(7)])
    ensures x == START.(rows := START.rows.(shares := map[]), requests := map[7 := Idle],
                        log := [Entry(1, 0, Unshared(3))])
  {
    var u := Apply(START, UnshareRead(7, 0, 1, 3));
    x := Apply(u, UnshareCommit(7));
    assert [UnshareRead(7, 0, 1, 3), UnshareCommit(7)][1..] == [UnshareCommit(7)];
    assert Run(u, [UnshareCommit(7)]) == Run(x, []);
    assert x.rows.shares == map[];
    assert x.requests == map[7 := Idle];
  }

  lemma Remarked(x: World) returns (y: World)
    requires x == START.(rows := START.rows.(shares := map[]), requests := map[7 := Idle], log := [Entry(1, 0, Unshared(3))])
    ensures y == Run(x, [CommentRead(7, 0, 1, "inside"), CommentCommit(7)])
    ensures y.rows == x.rows.(comments := [Comment(0, 1, "inside")])
  {
    var u := Apply(x, CommentRead(7, 0, 1, "inside"));
    y := Apply(u, CommentCommit(7));
    assert [CommentRead(7, 0, 1, "inside"), CommentCommit(7)][1..] == [CommentCommit(7)];
    assert Run(u, [CommentCommit(7)]) == Run(y, []);
  }

  /** The owner revokes a share and then comments; a request that asked for access before shows the comment. */
  lemma CommentAfterRevokeIsShown() returns (x: World, y: World)
    ensures Reachable(START, START) && CanAccess(START.rows, 0, 3)
    ensures Follows(START, x) && !CanAccess(x.rows, 0, 3) && x.rows.comments == []
    ensures Follows(x, y) && !CanAccess(y.rows, 0, 3)
    ensures ListComments(START.rows, START.rows, y.rows, 0, 3) == Some([Comment(0, 1, "inside")])
  {
    hide Run, Reachable, Follows, CommentsOf;
    StartIsReachable();
    x := Revoked();
    y := Remarked(x);
    FollowsBy(START, [UnshareRead(7, 0, 1, 3), UnshareCommit(7)]);
    FollowsBy(x, [CommentRead(7, 0, 1, "inside"), CommentCommit(7)]);
    OneComment(Comment(0, 1, "inside"));
  }

  lemma FollowsBy(w: World, actions: seq<Action>)
    ensures Follows(w, Run(w, actions))
  {
  }

  lemma OneComment(c: Comment)
    ensures CommentsOf([c], c.doc) == [c]
  {
    assert [c][..0] == [] && CommentsOf([], c.doc) == [];
  }
}
