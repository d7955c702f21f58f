/**
 Whose answers the page shows, in runs in which no two sign-ins or sign-outs get in each other's way, and two runs in
 which they do.
 */
module FrontEndShown {
  import opened Outcomes
  import opened FrontEnd
  import opened FrontEndSafety
  import opened FrontEndAccounts

  /**
   A sign-in or sign-out succeeds while the script has not yet taken notice of another one or has already begun the
   next session, or the answer of /me is taken notice of after a sign-in has changed the cookie.
   */
  ghost predicate Clashes(p: Page, a: Action) {
    match a
    case Arrive(id, answer) =>
      && id in p.pending && p.pending[id].answer.None? && answer.ok && SetsCookie(p.pending[id].kind)
      && ((Stale(p, id) && Given(p.pending[id].kind, answer) != p.user) || exists i :: OnItsWay(p, i))
    case Deliver(id) => FreshSuccess(p, id) && p.pending[id].kind.Me? && p.cookie != Target(p, id)
    case _ => false
  }

  ghost predicate NeverClashes(p: Page, actions: seq<Action>)
    decreases |actions|
  {
    actions == [] || (!Clashes(p, actions[0]) && NeverClashes(Apply(p, actions[0]), actions[1..]))
  }

  // ---------- invariant ----------

  /** The answer was given to the page's account, to nobody, or to the account that is about to be the page's. */
  predicate OwnSource(user: Option<UserId>, cookie: Option<UserId>, s: Source) {
    s.viewer == None || s.viewer == user || (user.None? && s.viewer == cookie)
  }

  predicate OwnData(user: Option<UserId>, cookie: Option<UserId>, generation: nat, content: Content) {
    content.Shows? ==> generation > 0 && forall s :: s in content.sources ==> OwnSource(user, cookie, s)
  }

  /** What holds of a request that the script can still take notice of. */
  predicate CallOk(user: Option<UserId>, cookie: Option<UserId>, generation: nat, c: Call) {
    && (c.answer.Some? ==> Honest(c, c.answer.value))
    && (c.generation == generation ==>
          && (generation > 0 ==> c.viewer == user || c.viewer == cookie)
          && (IsSignIn(c.kind) ==> user.None?)
          && (user.None? ==> IsSignIn(c.kind) || c.kind.LoadComments? || (c.kind.LoadAdminDocs? && c.kind.users.None?))
          && (generation == 0 ==> IsSignIn(c.kind))
          && (c.kind.LoadAdminDocs? && c.kind.users.Some? ==> OwnSource(user, cookie, c.kind.users.value)))
  }

  ghost predicate WayOk(p: Page) {
    && (forall i, j :: OnItsWay(p, i) && OnItsWay(p, j) ==> i == j)
    && (forall i :: OnItsWay(p, i) ==> p.cookie == Target(p, i))
    && (p.generation > 0 && (forall i :: !OnItsWay(p, i)) ==> p.cookie == p.user)
  }

  ghost predicate SessionOk(p: Page) {
    && (p.shown <==> p.user.Some?) && (p.generation == 0 ==> p.user.None?)
    && (p.user.Some? ==> Header in p.dom && p.dom[Header] == Names(p.user.value))
  }

  ghost predicate CallsOk(p: Page) {
    forall id :: id in p.pending ==> CallOk(p.user, p.cookie, p.generation, p.pending[id])
  }

  ghost predicate DataOk(p: Page) {
    forall e :: e in p.dom && Clearable(e) ==> OwnData(p.user, p.cookie, p.generation, p.dom[e])
  }

  ghost predicate Inv(p: Page) {
    Tidy(p) && WayOk(p) && SessionOk(p) && CallsOk(p) && DataOk(p)
  }

  lemma LoadedOk(cookie: Option<UserId>)
    ensures Inv(Loaded(cookie))
  {
  }

  /** While somebody is signed in, the cookie is theirs, or a sign-out has taken it. */
  lemma CookieIsTheirs(p: Page)
    requires Inv(p) && p.user.Some?
    ensures p.cookie == p.user || p.cookie == None
  {
    if exists i :: OnItsWay(p, i) {
      var i :| OnItsWay(p, i);
      assert CallOk(p.user, p.cookie, p.generation, p.pending[i]);
    }
  }

  lemma SameWayOk(p: Page, q: Page)
    requires WayOk(p) && SameWay(p, q)
    ensures WayOk(q)
  {
  }

  lemma AskKeeps(p: Page, kind: Kind)
    requires Inv(p) && Proper(p, Ask(kind))
    ensures Inv(Apply(p, Ask(kind)))
  {
    hide WayOk, OwnData;
    StepTidy(p, Ask(kind));
    AskOrLoseSameWay(p, Ask(kind));
    SameWayOk(p, Apply(p, Ask(kind)));
  }

  lemma LoseKeeps(p: Page, id: nat)
    requires Inv(p)
    ensures Inv(Apply(p, Lose(id)))
  {
    hide WayOk, OwnData, CallOk;
    StepTidy(p, Lose(id));
    AskOrLoseSameWay(p, Lose(id));
    SameWayOk(p, Apply(p, Lose(id)));
  }

  /** Headers that bring no other cookie. */
  lemma QuietHeadersKeep(p: Page, id: nat, answer: Answer)
    requires Inv(p) && Proper(p, Arrive(id, answer)) && Store(p, id, answer).cookie == p.cookie
    requires id in p.pending && p.pending[id].answer.None? && !(answer.ok && SetsCookie(p.pending[id].kind) && !Stale(p, id))
    ensures Inv(Store(p, id, answer))
  {
    hide WayOk, OwnData;
    StepTidy(p, Arrive(id, answer));
    assert SameWay(p, Store(p, id, answer));
    SameWayOk(p, Store(p, id, answer));
  }

  /** The first success of its session: from now on it is the one on its way. */
  lemma FirstHeadersKeep(p: Page, id: nat, answer: Answer)
    requires Inv(p) && Proper(p, Arrive(id, answer)) && id in p.pending && p.pending[id].answer.None?
    requires answer.ok && SetsCookie(p.pending[id].kind) && !Stale(p, id) && forall i :: !OnItsWay(p, i)
    ensures Inv(Store(p, id, answer))
  {
    StepTidy(p, Arrive(id, answer));
    var q := Store(p, id, answer);
    assert forall i :: i != id ==> (OnItsWay(q, i) <==> OnItsWay(p, i));
    assert OnItsWay(q, id) && forall i :: OnItsWay(q, i) ==> i == id;
    assert q.cookie == Target(q, id);
  }

  lemma StaleKeeps(p: Page, id: nat)
    requires Inv(p) && Stale(p, id) && Ready(p, id)
    ensures Inv(Respond(p, id))
  {
    hide Handle, WayOk, OwnData;
    StepTidy(p, Deliver(id));
    OtherDeliveriesSameWay(p, id);
    SameWayOk(p, Respond(p, id));
    StaleIsInert(p, id);
    HandlerSends(Take(p, id), p.pending[id].kind, Result(p, id), p.pending[id].answer.value);
    StaleShowsNothing(p, id);
  }

  lemma StaleShowsNothing(p: Page, id: nat)
    requires Stale(p, id) && Ready(p, id) && DataOk(p)
    ensures
      var q := Respond(p, id);
      forall e :: e in q.dom && Clearable(e) ==> OwnData(p.user, p.cookie, p.generation, q.dom[e])
  {
    hide Handle;
    StaleIsInert(p, id);
  }

  lemma SignInKeeps(p: Page, id: nat)
    requires Inv(p) && FreshSuccess(p, id) && IsSignIn(p.pending[id].kind) && !Clashes(p, Deliver(id))
    ensures Inv(Respond(p, id))
  {
    StepTidy(p, Deliver(id));
    NoticeTaken(p, id);
    if !p.pending[id].kind.Me? {
      assert OnItsWay(p, id);
    }
    assert p.cookie == Target(p, id) && p.user.None?;
  }

  lemma LogoutKeeps(p: Page, id: nat)
    requires Inv(p) && FreshSuccess(p, id) && p.pending[id].kind.Logout?
    ensures Inv(Respond(p, id))
  {
    StepTidy(p, Deliver(id));
    NoticeTaken(p, id);
    LogoutClearsExactly(p, Deliver(id));
    assert OnItsWay(p, id);
  }

  /** A fresh failure or a loader's answer, while somebody is signed in. */
  lemma FreshKeeps(p: Page, id: nat)
    requires Inv(p) && Ready(p, id) && !Stale(p, id) && p.user.Some?
    requires !(FreshSuccess(p, id) && EndsGeneration(p.pending[id].kind))
    ensures Inv(Respond(p, id))
  {
    hide Handle, WayOk;
    var c := p.pending[id];
    StepTidy(p, Deliver(id));
    OtherDeliveriesSameWay(p, id);
    SameWayOk(p, Respond(p, id));
    OnlyFreshSignInsMoveOn(p, Deliver(id));
    HandlerSends(Take(p, id), c.kind, Result(p, id), c.answer.value);
    HandlerShows(Take(p, id), c.kind, Result(p, id), c.answer.value);
    CookieIsTheirs(p);
  }

  /** The same while nobody is: only the two kinds of request that a handler may have sent on are open. */
  lemma FreshAloneKeeps(p: Page, id: nat)
    requires Inv(p) && Ready(p, id) && !Stale(p, id) && p.user.None?
    requires !(FreshSuccess(p, id) && EndsGeneration(p.pending[id].kind))
    ensures Inv(Respond(p, id))
  {
    hide WayOk;
    StepTidy(p, Deliver(id));
    OtherDeliveriesSameWay(p, id);
    SameWayOk(p, Respond(p, id));
  }

  lemma StepKeeps(p: Page, a: Action)
    requires Inv(p) && Proper(p, a) && !Clashes(p, a)
    ensures Inv(Apply(p, a))
  {
    hide Inv, Handle;
    match a
    case Ask(kind) => AskKeeps(p, kind);
    case Lose(id) => LoseKeeps(p, id);
    case Arrive(id, answer) =>
      if id in p.pending && p.pending[id].answer.None? {
        if answer.ok && SetsCookie(p.pending[id].kind) && !Stale(p, id) {
          FirstHeadersKeep(p, id, answer);
        } else {
          SameCookie(p, id, answer);
          QuietHeadersKeep(p, id, answer);
        }
      }
    case Deliver(id) =>
      if Ready(p, id) {
        if Stale(p, id) {
          StaleKeeps(p, id);
        } else if FreshSuccess(p, id) && IsSignIn(p.pending[id].kind) {
          SignInKeeps(p, id);
        } else if FreshSuccess(p, id) && p.pending[id].kind.Logout? {
          LogoutKeeps(p, id);
        } else if p.user.Some? {
          FreshKeeps(p, id);
        } else {
          FreshAloneKeeps(p, id);
        }
      }
  }

  lemma SameCookie(p: Page, id: nat, answer: Answer)
    requires Inv(p) && id in p.pending && p.pending[id].answer.None? && !Clashes(p, Arrive(id, answer))
    requires !(answer.ok && SetsCookie(p.pending[id].kind) && !Stale(p, id))
    ensures Store(p, id, answer).cookie == p.cookie
  {
  }

  lemma {:induction false} RunKeeps(p: Page, actions: seq<Action>)
    requires Inv(p) && ProperRun(p, actions) && NeverClashes(p, actions)
    ensures Inv(Run(p, actions))
    decreases |actions|
  {
    hide Inv, Apply, Proper, Clashes;
    if actions != [] {
      StepKeeps(p, actions[0]);
      RunKeeps(Apply(p, actions[0]), actions[1..]);
    }
  }

  /**
   In a run without clashes, whenever the page is in a session it names the account whose cookie the browser holds,
   unless a sign-out has just taken the cookie; and every answer that an element other than the sign-in message shows
   was given to that account, or to nobody.
   */
  lemma ShownDataIsTheUsers(cookie: Option<UserId>, actions: seq<Action>, e: Element, s: Source)
    requires ProperRun(Loaded(cookie), actions) && NeverClashes(Loaded(cookie), actions)
    requires Run(Loaded(cookie), actions).shown
    ensures var p := Run(Loaded(cookie), actions);
      && p.user.Some? && Header in p.dom && p.dom[Header] == Names(p.user.value)
      && (p.cookie == p.user || p.cookie == None)
      && (e in p.dom && Clearable(e) && p.dom[e].Shows? && s in p.dom[e].sources ==> s.viewer == p.user || s.viewer == None)
  {
    LoadedOk(cookie);
    RunKeeps(Loaded(cookie), actions);
    var p := Run(Loaded(cookie), actions);
    hide Run;
    CookieIsTheirs(p);
    assert e in p.dom && Clearable(e) ==> OwnData(p.user, p.cookie, p.generation, p.dom[e]);
  }

  // ---------- runs in which two sign-ins clash ----------

  const AS_ONE := Answer(true, 1, 0, "")
  const AS_TWO := Answer(true, 2, 0, "")
  const PROFILE := Answer(true, 0, 0, "profile")

  lemma TwoLogins() returns (p: Page)
    ensures ProperlyReached(p) && !p.shown && p.user == None && p.generation == 0 && p.cookie == None && p.nextCall == 3
    ensures p.pending == map[0 := Call(0, None, Me, None), 1 := Call(0, None, Login, None), 2 := Call(0, None, Login, None)]
  {
    hide ProperlyReached;
    ReachLoaded();
    var q := Loaded(None);
    ReachNext(q, Ask(Login));
    q := Apply(q, Ask(Login));
    ReachNext(q, Ask(Login));
    p := Apply(q, Ask(Login));
  }

  lemma HeadersIn(p: Page, id: nat, answer: Answer) returns (q: Page)
    requires ProperlyReached(p) && id in p.pending && p.pending[id].answer == None && Honest(p.pending[id], answer)
    ensures ProperlyReached(q) && q == Store(p, id, answer)
  {
    hide ProperlyReached;
    ReachNext(p, Arrive(id, answer));
    q := Apply(p, Arrive(id, answer));
  }

  lemma BodyIn(p: Page, id: nat) returns (q: Page)
    requires ProperlyReached(p)
    ensures ProperlyReached(q) && q == Respond(p, id)
  {
    hide ProperlyReached;
    ReachNext(p, Deliver(id));
    q := Apply(p, Deliver(id));
  }

  /** A page that is in the session of the first account while the browser holds the cookie of the second. */
  predicate Mixed(p: Page) {
    p.shown && p.user == Some(1) && p.generation == 1 && p.cookie == Some(2)
  }

  lemma ShowsTheOther(p: Page) returns (q: Page)
    requires ProperlyReached(p) && Mixed(p)
    ensures ProperlyReached(q) && Mixed(q)
    ensures ProfileInfo in q.dom && q.dom[ProfileInfo] == Shows([Source(p.nextCall, Some(2), None, "profile")])
  {
    hide ProperlyReached;
    ReachNext(p, Ask(LoadProfile));
    var x := Apply(p, Ask(LoadProfile));
    x := HeadersIn(x, p.nextCall, PROFILE);
    q := BodyIn(x, p.nextCall);
  }

  /**
   Two logins sent together; the second is answered when the session of the first has begun, and dropped. The page
   names one account and shows the profile of the other.
   */
  lemma DroppedSignInMixesAccounts() returns (p: Page)
    ensures ProperlyReached(p) && Mixed(p)
    ensures ProfileInfo in p.dom && p.dom[ProfileInfo] == Shows([Source(4, Some(2), None, "profile")])
  {
    hide ProperlyReached, Respond;
    var q := TwoLogins();
    q := HeadersIn(q, 1, AS_ONE);
    var x := BodyIn(q, 1);
    FirstSession(q);
    x := HeadersIn(x, 2, AS_TWO);
    p := ShowsTheOther(x);
  }

  /** No answer comes late for the script: both headers are in before the first body is. */
  lemma OvertakenCookieMixesAccounts() returns (p: Page)
    ensures ProperlyReached(p) && Mixed(p)
    ensures ProfileInfo in p.dom && p.dom[ProfileInfo] == Shows([Source(4, Some(2), None, "profile")])
  {
    hide ProperlyReached, Respond;
    var q := TwoLogins();
    q := HeadersIn(q, 1, AS_ONE);
    q := HeadersIn(q, 2, AS_TWO);
    var x := BodyIn(q, 1);
    FirstSession(q);
    p := ShowsTheOther(x);
  }

  lemma FirstSession(q: Page)
    requires q.generation == 0 && q.nextCall == 3 && 1 in q.pending && q.pending[1] == Call(0, None, Login, Some(AS_ONE))
    ensures
      var p := Respond(q, 1);
      && p.shown && p.user == Some(1) && p.generation == 1 && p.cookie == q.cookie && p.nextCall == 4
      && p.pending == (q.pending - {1})[3 := Call(1, q.cookie, LoadDocs, None)]
  {
  }
}
