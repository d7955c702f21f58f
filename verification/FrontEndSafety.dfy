/**
 What the generation counter of the page's script guarantees over all runs, and what it does not.
 */
module FrontEndSafety {
  import opened Outcomes
  import opened FrontEnd

  /** The elements logout clears. */
  predicate Clearable(e: Element) {
    !e.Header? && !e.AuthMessage?
  }

  // ---------- stale responses ----------

  predicate Stale(p: Page, id: nat) {
    id in p.pending && p.pending[id].generation != p.generation
  }

  /**
   A stale response signs nobody in or out and brings no data: every element keeps its content, goes, or shows a
   text of the script's own.
   */
  lemma StaleIsInert(p: Page, id: nat)
    requires Stale(p, id)
    ensures var q := Respond(p, id);
      && q.user == p.user && q.generation == p.generation && q.shown == p.shown
      && (forall e :: e in q.dom ==>
            ((e.DocDetail? || e.AdminUsers? || e.AuthMessage?) && q.dom[e] == Notice) || (e in p.dom && q.dom[e] == p.dom[e]))
      && (forall e :: e in p.dom && !e.Comments? ==> e in q.dom)
  {
    hide Handle;
    if Ready(p, id) {
      StaleHandlers(Take(p, id), p.pending[id].kind, p.pending[id].answer.value);
    }
  }

  lemma StaleHandlers(p: Page, kind: Kind, answer: Answer)
    ensures var q := Handle(p, kind, Outcome(false, None), answer);
      && q.user == p.user && q.generation == p.generation && q.shown == p.shown
      && (forall e :: e in q.dom ==>
            ((e.DocDetail? || e.AdminUsers? || e.AuthMessage?) && q.dom[e] == Notice) || (e in p.dom && q.dom[e] == p.dom[e]))
      && (forall e :: e in p.dom && !e.Comments? ==> e in q.dom)
  {
  }

  /** What `api` will return for a response whose headers are in. */
  function Result(p: Page, id: nat): Outcome
    requires Ready(p, id)
  {
    Receive(p, id, p.pending[id], p.pending[id].answer.value)
  }

  predicate FreshSuccess(p: Page, id: nat) {
    Ready(p, id) && !Stale(p, id) && p.pending[id].answer.value.ok
  }

  predicate EndsGeneration(kind: Kind) {
    kind.Login? || kind.Register? || kind.Me? || kind.Logout?
  }

  /** A sign-in or sign-out moves the generation on if it succeeded; no other handler touches the session. */
  lemma SessionHandlers(p: Page, kind: Kind, o: Outcome, answer: Answer)
    requires EndsGeneration(kind)
    ensures Handle(p, kind, o, answer).generation == if o.ok then p.generation + 1 else p.generation
    ensures !o.ok ==> SameSession(p, Handle(p, kind, o, answer))
  {
  }

  predicate SameSession(p: Page, q: Page) {
    && q.generation == p.generation && q.user == p.user && q.shown == p.shown
    && (Header in p.dom ==> Header in q.dom && q.dom[Header] == p.dom[Header])
  }

  lemma OtherHandlers(p: Page, kind: Kind, o: Outcome, answer: Answer)
    requires !EndsGeneration(kind)
    ensures SameSession(p, Handle(p, kind, o, answer))
  {
  }

  /** The generation moves exactly when a fresh, successful sign-in or sign-out response is handled. */
  lemma OnlyFreshSignInsMoveOn(p: Page, a: Action)
    ensures Apply(p, a).generation == p.generation || Apply(p, a).generation == p.generation + 1
    ensures Apply(p, a).generation == p.generation + 1 <==>
      a.Deliver? && FreshSuccess(p, a.id) && EndsGeneration(p.pending[a.id].kind)
    ensures Apply(p, a).generation == p.generation ==> SameSession(p, Apply(p, a))
  {
    hide Handle, EndsGeneration;
    if a.Deliver? && Ready(p, a.id) {
      var c, o, t := p.pending[a.id], Result(p, a.id), Take(p, a.id);
      if EndsGeneration(c.kind) {
        SessionHandlers(t, c.kind, o, c.answer.value);
      } else {
        OtherHandlers(t, c.kind, o, c.answer.value);
      }
    }
  }

  // ---------- what a handler does ----------

  /** A handler sends at most one request, under the generation it leaves behind. */
  predicate SendsAtMostOne(p: Page, o: Outcome, q: Page) {
    && p.generation <= q.generation && q.cookie == p.cookie
    && ((q.pending == p.pending && q.nextCall == p.nextCall)
        || (q.nextCall == p.nextCall + 1 && p.nextCall in q.pending && q.pending == p.pending[p.nextCall := q.pending[p.nextCall]]
            && var c := q.pending[p.nextCall];
               c.generation == q.generation && c.viewer == p.cookie && c.answer == None
               && (c.kind.LoadComments? || (o.ok && (c.kind.LoadDocs? || c.kind.LoadProfile?))
                   || (c.kind.LoadAdminDocs? && c.kind.users == if o.ok then o.source else None))))
  }

  /** An element keeps its content or shows the answer just received, next to the one its request carried along. */
  predicate MayShow(dom: map<Element, Content>, kind: Kind, o: Outcome, e: Element, content: Content) {
    || (e in dom && content == dom[e])
    || !content.Shows?
    || (o.source.Some? && content.sources == [o.source.value])
    || (o.source.Some? && kind.LoadAdminDocs? && kind.users.Some? && content.sources == [kind.users.value, o.source.value])
  }

  lemma HandlerSends(p: Page, kind: Kind, o: Outcome, answer: Answer)
    ensures SendsAtMostOne(p, o, Handle(p, kind, o, answer))
  {
  }

  lemma HandlerShows(p: Page, kind: Kind, o: Outcome, answer: Answer)
    ensures var q := Handle(p, kind, o, answer);
      forall e :: e in q.dom ==> MayShow(p.dom, kind, o, e, q.dom[e])
  {
    ClearBlanks(p.dom, CLEARED);
  }

  lemma {:induction false} ClearBlanks(dom: map<Element, Content>, elements: seq<Element>)
    ensures forall e :: e in elements && e in Clear(dom, elements) ==> Clear(dom, elements)[e] == Blank
    ensures forall e :: e in Clear(dom, elements) <==> e in dom && !(e.Comments? && DocDetail in dom && DocDetail in elements)
    ensures forall e :: e in Clear(dom, elements) && e !in elements ==> Clear(dom, elements)[e] == dom[e]
  {
    if elements != [] {
      assert elements == elements[..|elements| - 1] + [elements[|elements| - 1]];
      ClearBlanks(dom, elements[..|elements| - 1]);
    }
  }

  // ---------- what a bump retires ----------

  /** Ids are handed out in order, and no request is ahead of the page. */
  ghost predicate Tidy(p: Page) {
    forall id :: id in p.pending ==> id < p.nextCall && p.pending[id].generation <= p.generation
  }

  /** Every request among the first n belongs to a generation before g, which is over. */
  ghost predicate Retired(p: Page, n: nat, g: nat) {
    && n <= p.nextCall && g <= p.generation
    && forall id :: id in p.pending ==> (id < n <==> p.pending[id].generation < g)
  }

  lemma StepTidy(p: Page, a: Action)
    requires Tidy(p)
    ensures Tidy(Apply(p, a))
  {
    hide Handle;
    if a.Deliver? && Ready(p, a.id) {
      HandlerSends(Take(p, a.id), p.pending[a.id].kind, Result(p, a.id), p.pending[a.id].answer.value);
    }
  }

  lemma StepRetires(p: Page, n: nat, g: nat, a: Action)
    requires Retired(p, n, g)
    ensures Retired(Apply(p, a), n, g)
  {
    hide Handle;
    if a.Deliver? && Ready(p, a.id) {
      HandlerSends(Take(p, a.id), p.pending[a.id].kind, Result(p, a.id), p.pending[a.id].answer.value);
    }
  }

  lemma {:induction false} RunTidy(p: Page, actions: seq<Action>)
    requires Tidy(p)
    ensures Tidy(Run(p, actions))
    decreases |actions|
  {
    hide Apply, Tidy;
    if actions != [] {
      StepTidy(p, actions[0]);
      RunTidy(Apply(p, actions[0]), actions[1..]);
    }
  }

  lemma ReachableTidy(p: Page)
    requires Reachable(p)
    ensures Tidy(p)
  {
    var cookie, actions :| p == Run(Loaded(cookie), actions);
    RunTidy(Loaded(cookie), actions);
  }

  /**
   Requests still open when a session starts or ends stay stale for good, so at most one of any number of sign-ins
   and sign-outs sent together takes effect in the script.
   */
  lemma BumpRetiresAll(p: Page, a: Action, later: seq<Action>, id: nat)
    requires Reachable(p) && Apply(p, a).generation != p.generation
    requires id < p.nextCall && id in Run(Apply(p, a), later).pending
    ensures Stale(Run(Apply(p, a), later), id)
  {
    ReachableTidy(p);
    OnlyFreshSignInsMoveOn(p, a);
    RunRetires(Apply(p, a), p.nextCall, p.generation + 1, later);
  }

  lemma {:induction false} RunRetires(p: Page, n: nat, g: nat, actions: seq<Action>)
    requires Retired(p, n, g)
    ensures Retired(Run(p, actions), n, g)
    decreases |actions|
  {
    hide Apply, Retired;
    if actions != [] {
      StepRetires(p, n, g, actions[0]);
      RunRetires(Apply(p, actions[0]), n, g, actions[1..]);
    }
  }

  // ---------- what is left after logout ----------

  predicate From(content: Content, n: nat) {
    content.Shows? ==> forall s :: s in content.sources ==> s.call >= n
  }

  /** Nothing from the first n requests is on the page, nor carried along by a request that can still be shown. */
  ghost predicate Forgot(p: Page, n: nat, g: nat) {
    && Retired(p, n, g)
    && (forall e :: e in p.dom && Clearable(e) ==> From(p.dom[e], n))
    && (forall id :: id in p.pending && id >= n && p.pending[id].kind.LoadAdminDocs? ==>
          p.pending[id].kind.users.Some? ==> p.pending[id].kind.users.value.call >= n)
  }

  lemma StepForgets(p: Page, n: nat, g: nat, a: Action)
    requires Forgot(p, n, g)
    ensures Forgot(Apply(p, a), n, g)
  {
    hide Handle, SignIn;
    StepRetires(p, n, g, a);
    if a.Deliver? && Ready(p, a.id) {
      var c, o := p.pending[a.id], Result(p, a.id);
      HandlerSends(Take(p, a.id), c.kind, o, c.answer.value);
      HandlerShows(Take(p, a.id), c.kind, o, c.answer.value);
      assert o.source.Some? ==> a.id >= n;
    }
  }

  lemma {:induction false} RunForgets(p: Page, n: nat, g: nat, actions: seq<Action>)
    requires Forgot(p, n, g)
    ensures Forgot(Run(p, actions), n, g)
    decreases |actions|
  {
    hide Apply, Forgot;
    if actions != [] {
      StepForgets(p, n, g, actions[0]);
      RunForgets(Apply(p, actions[0]), n, g, actions[1..]);
    }
  }

  predicate LogsOut(p: Page, a: Action) {
    a.Deliver? && FreshSuccess(p, a.id) && p.pending[a.id].kind.Logout?
  }

  /**
   Logout blanks every element but the header and the sign-in message, which it leaves as they are, and closes the
   document.
   */
  lemma LogoutClearsExactly(p: Page, a: Action)
    requires LogsOut(p, a)
    ensures var q := Apply(p, a);
      && q.user.None? && !q.shown
      && (forall e :: e in q.dom && Clearable(e) ==> q.dom[e] == Blank)
      && (DocDetail in p.dom ==> Comments !in q.dom)
      && (forall e :: e in p.dom && !Clearable(e) ==> e in q.dom && q.dom[e] == p.dom[e])
  {
    ClearBlanks(p.dom, CLEARED);
    assert forall e :: e in CLEARED <==> Clearable(e) && !e.ProfileInputs?;
  }

  /**
   Whatever happens after a logout, in any order of sends and responses, no element but the sign-in message ever
   again shows an answer to a request sent before it, error texts included.
   */
  lemma LogoutSeparatesSessions(p: Page, a: Action, later: seq<Action>, e: Element, s: Source)
    requires Reachable(p) && LogsOut(p, a)
    requires var q := Run(Apply(p, a), later);
      e in q.dom && Clearable(e) && q.dom[e].Shows? && s in q.dom[e].sources
    ensures s.call >= p.nextCall
  {
    hide Run;
    ReachableTidy(p);
    LogoutClearsExactly(p, a);
    RunForgets(Apply(p, a), p.nextCall, p.generation + 1, later);
  }
}
