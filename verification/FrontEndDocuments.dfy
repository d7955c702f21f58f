/**
 Which document's comments the page shows. A comments answer carries no check that its document is still the open
 one, and the generation does not change when another document is opened.
 */
module FrontEndDocuments {
  import opened Outcomes
  import opened FrontEnd
  import opened FrontEndSafety
  import opened FrontEndAccounts
  import opened FrontEndShown

  /** The document in the detail panel, when there is a comments box below it. */
  function OpenDocument(p: Page): Option<DocId> {
    if Comments in p.dom && DocDetail in p.dom && p.dom[DocDetail].Shows? && |p.dom[DocDetail].sources| == 1
    then p.dom[DocDetail].sources[0].about else None
  }

  /** The comments box is only there with an open document. */
  predicate BoxOk(p: Page) {
    Comments in p.dom ==> OpenDocument(p).Some?
  }

  predicate CommentsMatch(p: Page) {
    Comments in p.dom && p.dom[Comments].Shows? ==> forall s :: s in p.dom[Comments].sources ==> s.about == OpenDocument(p)
  }

  /** A fresh answer with the comments of a document that is not, or no longer, the open one. */
  predicate Misplaced(p: Page, a: Action) {
    && a.Deliver? && FreshSuccess(p, a.id) && p.pending[a.id].kind.LoadComments?
    && Comments in p.dom && OpenDocument(p) != Some(p.pending[a.id].kind.doc)
  }

  /** The two elements as they are, or without the box. */
  predicate Untouched(p: Page, q: Page) {
    || (Comments !in q.dom)
    || (Comments in p.dom && q.dom[Comments] == p.dom[Comments] && (DocDetail in q.dom <==> DocDetail in p.dom)
        && (DocDetail in p.dom ==> q.dom[DocDetail] == p.dom[DocDetail]))
  }

  lemma UntouchedKeeps(p: Page, q: Page)
    requires BoxOk(p) && CommentsMatch(p) && Untouched(p, q)
    ensures BoxOk(q) && CommentsMatch(q)
  {
  }

  lemma OthersLeaveTheBox(p: Page, kind: Kind, o: Outcome, answer: Answer)
    requires !kind.ViewDoc? && !kind.LoadComments? && !kind.Logout?
    ensures Untouched(p, Handle(p, kind, o, answer))
  {
  }

  lemma LogoutLeavesNoBox(p: Page, o: Outcome, answer: Answer)
    requires BoxOk(p)
    ensures Untouched(p, Handle(p, Logout, o, answer))
  {
    ClearBlanks(p.dom, CLEARED);
    assert DocDetail == CLEARED[1];
  }

  lemma OpeningMatches(p: Page, doc: DocId, o: Outcome, answer: Answer)
    requires o.ok ==> o.source.Some? && o.source.value.about == Some(doc)
    ensures BoxOk(Handle(p, ViewDoc(doc), o, answer)) && CommentsMatch(Handle(p, ViewDoc(doc), o, answer))
  {
  }

  lemma LoadingMatchesIff(p: Page, doc: DocId, o: Outcome, answer: Answer)
    requires BoxOk(p) && CommentsMatch(p)
    requires o.ok ==> o.source.Some? && o.source.value.about == Some(doc)
    ensures
      var q := Handle(p, LoadComments(doc), o, answer);
      BoxOk(q) && (CommentsMatch(q) <==> !(o.ok && Comments in p.dom && OpenDocument(p) != Some(doc)))
  {
    var q := Handle(p, LoadComments(doc), o, answer);
    if o.ok && Comments in p.dom {
      assert o.source.value in q.dom[Comments].sources && OpenDocument(q) == OpenDocument(p);
    }
  }

  /** A step keeps the comments with their document exactly when it does not deliver those of another one. */
  lemma CommentsMatchIff(p: Page, a: Action)
    requires BoxOk(p) && CommentsMatch(p)
    ensures BoxOk(Apply(p, a)) && (CommentsMatch(Apply(p, a)) <==> !Misplaced(p, a))
  {
    hide Handle, BoxOk, CommentsMatch;
    if a.Deliver? && Ready(p, a.id) {
      var c, o, t := p.pending[a.id], Result(p, a.id), Take(p, a.id);
      var answer := c.answer.value;
      UntouchedKeeps(p, t);
      if c.kind.ViewDoc? {
        OpeningMatches(t, c.kind.doc, o, answer);
      } else if c.kind.LoadComments? {
        LoadingMatchesIff(t, c.kind.doc, o, answer);
      } else {
        if c.kind.Logout? {
          LogoutLeavesNoBox(t, o, answer);
        } else {
          OthersLeaveTheBox(t, c.kind, o, answer);
        }
        UntouchedKeeps(t, Handle(t, c.kind, o, answer));
      }
    } else {
      UntouchedKeeps(p, Apply(p, a));
    }
  }

  predicate MisplacesNothing(p: Page, actions: seq<Action>)
    decreases |actions|
  {
    actions == [] || (!Misplaced(p, actions[0]) && MisplacesNothing(Apply(p, actions[0]), actions[1..]))
  }

  lemma {:induction false} RunMatches(p: Page, actions: seq<Action>)
    requires BoxOk(p) && CommentsMatch(p) && MisplacesNothing(p, actions)
    ensures BoxOk(Run(p, actions)) && CommentsMatch(Run(p, actions))
    decreases |actions|
  {
    hide Apply, BoxOk, CommentsMatch, Misplaced;
    if actions != [] {
      CommentsMatchIff(p, actions[0]);
      RunMatches(Apply(p, actions[0]), actions[1..]);
    }
  }

  /** In a run that delivers no comments after another document was opened, the box shows those of the open one. */
  lemma ShownCommentsMatch(cookie: Option<UserId>, actions: seq<Action>)
    requires MisplacesNothing(Loaded(cookie), actions)
    ensures CommentsMatch(Run(Loaded(cookie), actions))
  {
    RunMatches(Loaded(cookie), actions);
  }

  // ---------- when comments come late ----------

  lemma OneSignedIn() returns (p: Page)
    ensures ProperlyReached(p) && p.user == Some(1) && p.shown && p.generation == 1 && p.cookie == Some(1) && p.nextCall == 4
    ensures forall id :: id in p.pending ==> !p.pending[id].kind.LoadComments?
  {
    hide ProperlyReached, Respond;
    var q := TwoLogins();
    q := HeadersIn(q, 1, AS_ONE);
    p := BodyIn(q, 1);
    FirstSession(q);
  }

  /** Opens a document, up to the point where its comments are asked for. */
  lemma OpensOne(p: Page, doc: DocId) returns (q: Page)
    requires ProperlyReached(p) && p.shown && p.user == Some(1) && p.cookie == Some(1)
    ensures ProperlyReached(q) && q.shown && q.user == Some(1) && q.cookie == Some(1) && q.generation == p.generation
    ensures q.nextCall == p.nextCall + 2 && Comments in q.dom && OpenDocument(q) == Some(doc)
    ensures q.pending == p.pending[p.nextCall + 1 := Call(p.generation, Some(1), LoadComments(doc), None)] - {p.nextCall}
  {
    hide ProperlyReached;
    ReachNext(p, Ask(ViewDoc(doc)));
    var x := Apply(p, Ask(ViewDoc(doc)));
    x := HeadersIn(x, p.nextCall, Answer(true, 0, 0, "document"));
    q := BodyIn(x, p.nextCall);
  }

  lemma CommentsArrive(p: Page, id: nat, doc: DocId) returns (q: Page)
    requires ProperlyReached(p) && p.shown && id in p.pending
    requires p.pending[id] == Call(p.generation, Some(1), LoadComments(doc), None) && Comments in p.dom
    ensures ProperlyReached(q) && q.shown && q.generation == p.generation && q.pending == p.pending - {id}
    ensures q.dom == p.dom[Comments := Shows([Source(id, Some(1), Some(doc), "comments")])]
  {
    hide ProperlyReached;
    var x := HeadersIn(p, id, Answer(true, 0, 1, "comments"));
    q := BodyIn(x, id);
  }

  /** Two documents opened one after the other, the first one's comments answered last: they stay under the second. */
  lemma LateCommentsMixDocuments() returns (p: Page)
    ensures ProperlyReached(p) && OpenDocument(p) == Some(11) && Comments in p.dom
    ensures p.dom[Comments] == Shows([Source(5, Some(1), Some(10), "comments")])
    ensures forall id :: id in p.pending ==> !p.pending[id].kind.LoadComments?
  {
    hide ProperlyReached, Apply;
    var q := OneSignedIn();
    q := OpensOne(q, 10);
    q := OpensOne(q, 11);
    q := CommentsArrive(q, 7, 11);
    p := CommentsArrive(q, 5, 10);
  }
}
