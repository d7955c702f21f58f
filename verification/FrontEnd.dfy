/**
 The page's script, static/app.js, as a machine whose steps are event-loop tasks: the user asks for something, the
 headers of a response arrive and the browser takes their cookie, the body is there and the handler that awaits it
 goes on, or a request is lost. Responses come in any order and with any content. Each handler is a function on the
 page; the class holds the script's globals and is proved against them.
 */
module FrontEnd {
  import opened Outcomes

  type UserId = nat
  type DocId = nat

  /** What the script writes to. Controls and toasts are not modelled. */
  datatype Element =
    | Stats | DocList | DocDetail | Comments | ProfileInfo | AdminUsers | AdminDocs | SearchResults
    | ProfileInputs | Header | AuthMessage

  /**
   One answer: the request it answers, the account of the cookie that request carried, the document it asked about,
   and the body.
   */
  datatype Source = Source(call: nat, viewer: Option<UserId>, about: Option<DocId>, body: string)

  /** `Notice` is a text of the script's own. */
  datatype Content = Blank | Notice | Names(user: UserId) | Shows(sources: seq<Source>)

  datatype Kind =
    | Login | Register | Me | Logout
    | LoadDocs | CreateDoc | Search | LoadProfile | SaveProfile
    | ViewDoc(doc: DocId) | LoadComments(doc: DocId) | AddComment(doc: DocId)
    | LoadAdminUsers | LoadAdminDocs(users: Option<Source>)

  /** A response: for a sign-in the account, for a list its length. */
  datatype Answer = Answer(ok: bool, user: UserId, rows: nat, body: string)

  /** A request the script awaits, and the response to it once its headers are in. */
  datatype Call = Call(generation: nat, viewer: Option<UserId>, kind: Kind, answer: Option<Answer>)

  /** What `api` returns; the source is missing when the response is stale. */
  datatype Outcome = Outcome(ok: bool, source: Option<Source>)

  /** `cookie` is the account whose token the browser holds; the script cannot read it. */
  datatype Page = Page(
    user: Option<UserId>,
    generation: nat,
    shown: bool,
    dom: map<Element, Content>,
    pending: map<nat, Call>,
    nextCall: nat,
    cookie: Option<UserId>)

  datatype Action =
    | Ask(kind: Kind)
    | Arrive(id: nat, answer: Answer)
    | Deliver(id: nat)
    | Lose(id: nat)

  const CLEARED: seq<Element> :=
    [DocList, DocDetail, Comments, ProfileInfo, AdminUsers, AdminDocs, SearchResults, Stats]

  // ---------- the document ----------

  /** The comments box lives inside the detail panel and goes when the panel is rewritten. */
  function Put(dom: map<Element, Content>, e: Element, content: Content): map<Element, Content> {
    if e.DocDetail? then (dom - {Comments})[e := content] else dom[e := content]
  }

  function Clear(dom: map<Element, Content>, elements: seq<Element>): map<Element, Content>
    decreases |elements|
  {
    if elements == [] then dom
    else
      var before := Clear(dom, elements[..|elements| - 1]);
      var e := elements[|elements| - 1];
      if e in before then Put(before, e, Blank) else before
  }

  function Text(source: Option<Source>): Content {
    if source.Some? then Shows([source.value]) else Notice
  }

  // ---------- requests ----------

  function About(kind: Kind): Option<DocId> {
    if kind.ViewDoc? || kind.LoadComments? || kind.AddComment? then Some(kind.doc) else None
  }

  /** The part of `api` before its first await. */
  function Send(p: Page, kind: Kind): Page {
    p.(pending := p.pending[p.nextCall := Call(p.generation, p.cookie, kind, None)], nextCall := p.nextCall + 1)
  }

  /** The part of `api` after its second await. */
  function Receive(p: Page, id: nat, c: Call, answer: Answer): Outcome {
    if c.generation != p.generation then Outcome(false, None)
    else Outcome(answer.ok, Some(Source(id, c.viewer, About(c.kind), answer.body)))
  }

  function NewCookie(cookie: Option<UserId>, kind: Kind, answer: Answer): Option<UserId> {
    if !answer.ok then cookie
    else if kind.Login? || kind.Register? then Some(answer.user)
    else if kind.Logout? then None
    else cookie
  }

  // ---------- handlers ----------

  function EnterApp(p: Page): Page
    requires p.user.Some?
  {
    Send(p.(generation := p.generation + 1, shown := true, dom := Put(p.dom, Header, Names(p.user.value))), LoadDocs)
  }

  function SignIn(p: Page, kind: Kind, o: Outcome, user: UserId): Page {
    if o.ok then EnterApp(p.(user := Some(user)))
    else if kind.Me? then p
    else p.(dom := Put(p.dom, AuthMessage, Text(o.source)))
  }

  function SignOut(p: Page, o: Outcome): Page {
    if !o.ok then p
    else p.(generation := p.generation + 1, user := None, dom := Put(Clear(p.dom, CLEARED), ProfileInputs, Blank), shown := false)
  }

  /** With nobody signed in, a non-empty list makes the handler raise before it writes. */
  function ShowDocs(p: Page, o: Outcome, rows: nat): Page {
    if !o.ok || (p.user.None? && rows > 0) then p
    else p.(dom := Put(Put(p.dom, Stats, Text(o.source)), DocList, Text(o.source)))
  }

  function ShowDetail(p: Page, o: Outcome, doc: DocId): Page {
    var q := p.(dom := Put(p.dom, DocDetail, Text(o.source)));
    if o.ok then Send(q.(dom := Put(q.dom, Comments, Blank)), LoadComments(doc)) else q
  }

  function ShowComments(p: Page, o: Outcome): Page {
    if o.ok && Comments in p.dom then p.(dom := Put(p.dom, Comments, Text(o.source))) else p
  }

  function ShowProfile(p: Page, o: Outcome): Page {
    if !o.ok then p else p.(dom := Put(Put(p.dom, ProfileInfo, Text(o.source)), ProfileInputs, Text(o.source)))
  }

  /** The second request goes out whatever became of the first. */
  function ShowAdminUsers(p: Page, o: Outcome): Page {
    Send(p.(dom := Put(p.dom, AdminUsers, Text(o.source))), LoadAdminDocs(if o.ok then o.source else None))
  }

  /** The pager below the table needs both answers. */
  function ShowAdminDocs(p: Page, o: Outcome, users: Option<Source>): Page {
    if !o.ok || o.source.None? then p
    else p.(dom := Put(p.dom, AdminDocs, Shows(if users.Some? then [users.value, o.source.value] else [o.source.value])))
  }

  function Handle(p: Page, kind: Kind, o: Outcome, answer: Answer): Page {
    match kind
    case Login | Register | Me => SignIn(p, kind, o, answer.user)
    case Logout => SignOut(p, o)
    case LoadDocs => ShowDocs(p, o, answer.rows)
    case CreateDoc => if o.ok then Send(p, LoadDocs) else p
    case Search => if o.ok then p.(dom := Put(p.dom, SearchResults, Text(o.source))) else p
    case ViewDoc(doc) => ShowDetail(p, o, doc)
    case LoadComments(_) => ShowComments(p, o)
    case AddComment(doc) => Send(p, LoadComments(doc))
    case LoadProfile => ShowProfile(p, o)
    case SaveProfile => if o.ok then Send(p, LoadProfile) else p
    case LoadAdminUsers => ShowAdminUsers(p, o)
    case LoadAdminDocs(users) => ShowAdminDocs(p, o, users)
  }

  // ---------- runs ----------

  /** Requests a click can start; a comment needs the box that an opened document brings. */
  predicate Askable(p: Page, kind: Kind) {
    !kind.Me? && !kind.LoadAdminDocs? && (kind.AddComment? ==> Comments in p.dom)
  }

  function Take(p: Page, id: nat): Page {
    p.(pending := p.pending - {id})
  }

  /** The headers are in: the browser stores the cookie, whatever the script will make of the response. */
  function Store(p: Page, id: nat, answer: Answer): Page {
    if id !in p.pending || p.pending[id].answer.Some? then p
    else
      var c := p.pending[id];
      p.(cookie := NewCookie(p.cookie, c.kind, answer), pending := p.pending[id := c.(answer := Some(answer))])
  }

  predicate Ready(p: Page, id: nat) {
    id in p.pending && p.pending[id].answer.Some?
  }

  /** The body is in too: `api` compares generations and the awaiting handler goes on. */
  function Respond(p: Page, id: nat): Page {
    if !Ready(p, id) then p
    else
      var c := p.pending[id];
      Handle(Take(p, id), c.kind, Receive(p, id, c, c.answer.value), c.answer.value)
  }

  function Apply(p: Page, a: Action): Page {
    match a
    case Ask(kind) => if Askable(p, kind) then Send(p, kind) else p
    case Arrive(id, answer) => Store(p, id, answer)
    case Deliver(id) => Respond(p, id)
    case Lose(id) => if Ready(p, id) then p else Take(p, id)
  }

  function Run(p: Page, actions: seq<Action>): Page
    decreases |actions|
  {
    if actions == [] then p else Run(Apply(p, actions[0]), actions[1..])
  }

  /** The page as served, then the request for /me. */
  function Loaded(cookie: Option<UserId>): Page {
    var dom := map[Stats := Blank, DocList := Notice, DocDetail := Blank, ProfileInfo := Blank, AdminUsers := Blank,
                   AdminDocs := Blank, SearchResults := Blank, ProfileInputs := Blank, Header := Notice, AuthMessage := Blank];
    Send(Page(None, 0, false, dom, map[], 0, cookie), Me)
  }

  ghost predicate Reachable(p: Page) {
    exists cookie, actions :: p == Run(Loaded(cookie), actions)
  }

  // ---------- the script's globals ----------

  class Script {
    var currentUser: Option<UserId>
    var sessionGeneration: nat
    var shown: bool
    var dom: map<Element, Content>
    var pending: map<nat, Call>
    var nextCall: nat
    var cookie: Option<UserId>

    ghost function State(): Page
      reads this
    {
      Page(currentUser, sessionGeneration, shown, dom, pending, nextCall, cookie)
    }

    method Api(kind: Kind)
      modifies this
      ensures State() == Send(old(State()), kind)
    {
      pending := pending[nextCall := Call(sessionGeneration, cookie, kind, None)];
      nextCall := nextCall + 1;
    }

    method Write(e: Element, content: Content)
      modifies this
      ensures State() == old(State()).(dom := Put(old(dom), e, content))
    {
      if e.DocDetail? {
        dom := dom - {Comments};
      }
      dom := dom[e := content];
    }

    method Enter()
      requires currentUser.Some?
      modifies this
      ensures State() == EnterApp(old(State()))
    {
      sessionGeneration := sessionGeneration + 1;
      shown := true;
      Write(Header, Names(currentUser.value));
      Api(LoadDocs);
    }

    method SignedIn(kind: Kind, o: Outcome, user: UserId)
      modifies this
      ensures State() == SignIn(old(State()), kind, o, user)
    {
      if o.ok {
        currentUser := Some(user);
        Enter();
      } else if !kind.Me? {
        Write(AuthMessage, Text(o.source));
      }
    }

    method SignedOut(o: Outcome)
      modifies this
      ensures State() == SignOut(old(State()), o)
    {
      if !o.ok {
        return;
      }
      sessionGeneration := sessionGeneration + 1;
      currentUser := None;
      for i := 0 to |CLEARED|
        invariant State() == old(State()).(generation := old(sessionGeneration) + 1, user := None,
                                           dom := Clear(old(dom), CLEARED[..i]))
      {
        assert CLEARED[..i + 1][..i] == CLEARED[..i];
        if CLEARED[i] in dom {
          Write(CLEARED[i], Blank);
        }
      }
      assert CLEARED[..|CLEARED|] == CLEARED;
      Write(ProfileInputs, Blank);
      shown := false;
    }

    method Detail(o: Outcome, doc: DocId)
      modifies this
      ensures State() == ShowDetail(old(State()), o, doc)
    {
      Write(DocDetail, Text(o.source));
      if o.ok {
        Write(Comments, Blank);
        Api(LoadComments(doc));
      }
    }

    method Admin(o: Outcome)
      modifies this
      ensures State() == ShowAdminUsers(old(State()), o)
    {
      Write(AdminUsers, Text(o.source));
      Api(LoadAdminDocs(if o.ok then o.source else None));
    }

    method Lists(kind: Kind, o: Outcome, answer: Answer)
      requires kind.LoadDocs? || kind.Search? || kind.LoadComments? || kind.LoadProfile? || kind.LoadAdminDocs?
      modifies this
      ensures State() == Handle(old(State()), kind, o, answer)
    {
      if !o.ok {
        return;
      }
      match kind {
        case LoadDocs =>
          if currentUser.None? && answer.rows > 0 {
            return;
          }
          Write(Stats, Text(o.source));
          Write(DocList, Text(o.source));
        case Search => Write(SearchResults, Text(o.source));
        case LoadComments(_) =>
          if Comments in dom {
            Write(Comments, Text(o.source));
          }
        case LoadProfile =>
          Write(ProfileInfo, Text(o.source));
          Write(ProfileInputs, Text(o.source));
        case LoadAdminDocs(users) =>
          if o.source.Some? {
            Write(AdminDocs, Shows(if users.Some? then [users.value, o.source.value] else [o.source.value]));
          }
      }
    }

    /** The browser's part, between the two awaits of `api`. */
    method Headers(id: nat, answer: Answer)
      modifies this
      ensures State() == Apply(old(State()), Arrive(id, answer))
    {
      if id in pending && pending[id].answer.None? {
        cookie := NewCookie(cookie, pending[id].kind, answer);
        pending := pending[id := pending[id].(answer := Some(answer))];
      }
    }

    /** `api` compares generations and returns; the handler goes on. */
    method Continue(id: nat)
      modifies this
      ensures State() == Apply(old(State()), Deliver(id))
    {
      if id !in pending || pending[id].answer.None? {
        return;
      }
      var c, answer := pending[id], pending[id].answer.value;
      var o := if c.generation != sessionGeneration then Outcome(false, None)
               else Outcome(answer.ok, Some(Source(id, c.viewer, About(c.kind), answer.body)));
      pending := pending - {id};
      match c.kind {
        case Login => SignedIn(c.kind, o, answer.user);
        case Register => SignedIn(c.kind, o, answer.user);
        case Me => SignedIn(c.kind, o, answer.user);
        case Logout => SignedOut(o);
        case CreateDoc => if o.ok { Api(LoadDocs); }
        case ViewDoc(doc) => Detail(o, doc);
        case AddComment(doc) => Api(LoadComments(doc));
        case SaveProfile => if o.ok { Api(LoadProfile); }
        case LoadAdminUsers => Admin(o);
        case _ => Lists(c.kind, o, answer);
      }
    }
  }
}
