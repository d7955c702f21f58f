/**
 Whose data the page shows. The script remembers who signed in, the browser whose cookie it holds. The browser takes
 the cookie of a sign-in or sign-out when its headers arrive, the script takes notice when the body is there, and only
 if no other one came first: so the two part for a moment each time, and sometimes for good.
 */
module FrontEndAccounts {
  import opened Outcomes
  import opened FrontEnd
  import opened FrontEndSafety

  predicate SetsCookie(kind: Kind) {
    kind.Login? || kind.Register? || kind.Logout?
  }

  /** The account that a successful answer leaves signed in. */
  function Given(kind: Kind, answer: Answer): Option<UserId> {
    if kind.Logout? then None else Some(answer.user)
  }

  /** A sign-in or sign-out whose cookie the browser has taken and which the script will take notice of. */
  predicate OnItsWay(p: Page, id: nat) {
    FreshSuccess(p, id) && SetsCookie(p.pending[id].kind)
  }

  function Target(p: Page, id: nat): Option<UserId>
    requires Ready(p, id)
  {
    Given(p.pending[id].kind, p.pending[id].answer.value)
  }

  /** Some success on its way leads to this account. */
  ghost predicate Expected(p: Page, account: Option<UserId>) {
    exists id :: OnItsWay(p, id) && Target(p, id) == account
  }

  /**
   Once the first session has begun, the browser's account is the one the page names, or the one that a success on
   its way will make it name.
   */
  ghost predicate Agree(p: Page) {
    p.generation > 0 ==> p.cookie == p.user || Expected(p, p.cookie)
  }

  /**
   The two steps that break it: a success arrives too late for the script, with another account's cookie; or the
   script takes notice of one account while the browser has meanwhile taken the cookie of another.
   */
  ghost predicate Parts(p: Page, a: Action) {
    match a
    case Arrive(id, answer) =>
      && id in p.pending && p.pending[id].answer.None? && answer.ok && SetsCookie(p.pending[id].kind) && Stale(p, id)
      && Given(p.pending[id].kind, answer) != p.user && !Expected(p, Given(p.pending[id].kind, answer))
    case Deliver(id) => FreshSuccess(p, id) && EndsGeneration(p.pending[id].kind) && p.cookie != Target(p, id)
    case _ => false
  }

  // ---------- agreement ----------

  /** Nothing that the agreement depends on changes, or only a request that was not on its way ends or begins. */
  ghost predicate SameWay(p: Page, q: Page) {
    && q.generation == p.generation && q.user == p.user && q.cookie == p.cookie
    && (forall id :: OnItsWay(p, id) ==> OnItsWay(q, id) && Target(q, id) == Target(p, id))
    && (forall id :: OnItsWay(q, id) ==> OnItsWay(p, id) && Target(q, id) == Target(p, id))
  }

  lemma SameWayAgrees(p: Page, q: Page)
    requires SameWay(p, q)
    ensures Agree(q) <==> Agree(p)
  {
    if Expected(p, p.cookie) {
      var id :| OnItsWay(p, id) && Target(p, id) == p.cookie;
      assert OnItsWay(q, id) && Target(q, id) == q.cookie;
    }
    if Expected(q, q.cookie) {
      var id :| OnItsWay(q, id) && Target(q, id) == q.cookie;
      assert OnItsWay(p, id) && Target(p, id) == p.cookie;
    }
  }

  lemma AskOrLoseSameWay(p: Page, a: Action)
    requires Tidy(p) && (a.Ask? || a.Lose?)
    ensures SameWay(p, Apply(p, a))
  {
  }

  lemma OtherDeliveriesSameWay(p: Page, id: nat)
    requires Tidy(p) && !(FreshSuccess(p, id) && EndsGeneration(p.pending[id].kind))
    ensures SameWay(p, Respond(p, id))
  {
    hide Handle;
    if Ready(p, id) {
      HandlerSends(Take(p, id), p.pending[id].kind, Result(p, id), p.pending[id].answer.value);
      OnlyFreshSignInsMoveOn(p, Deliver(id));
    }
  }

  /** What the script takes notice of leaves nothing on its way, and the page names the account of the answer. */
  lemma NoticeTaken(p: Page, id: nat)
    requires Tidy(p) && FreshSuccess(p, id) && EndsGeneration(p.pending[id].kind)
    ensures
      var q := Respond(p, id);
      && q.generation == p.generation + 1 && q.user == Target(p, id) && q.cookie == p.cookie
      && forall i :: !OnItsWay(q, i)
  {
  }

  lemma HeadersAgreeIff(p: Page, id: nat, answer: Answer)
    requires Tidy(p) && Agree(p)
    ensures Agree(Store(p, id, answer)) <==> !Parts(p, Arrive(id, answer))
  {
    var q := Store(p, id, answer);
    if q != p {
      var c := p.pending[id];
      assert forall i :: i != id ==> (OnItsWay(q, i) <==> OnItsWay(p, i)) && (OnItsWay(p, i) ==> Target(q, i) == Target(p, i));
      assert !OnItsWay(p, id);
      if answer.ok && SetsCookie(c.kind) {
        assert q.cookie == Given(c.kind, answer);
        if !Stale(p, id) {
          assert OnItsWay(q, id) && Target(q, id) == q.cookie;
        } else {
          StaleArrival(p, id, answer);
        }
      } else {
        SameWayAgrees(p, q);
      }
    }
  }

  lemma StaleArrival(p: Page, id: nat, answer: Answer)
    requires Stale(p, id) && p.pending[id].answer.None?
    ensures forall account :: Expected(Store(p, id, answer), account) <==> Expected(p, account)
  {
    var q := Store(p, id, answer);
    forall account
      ensures Expected(q, account) <==> Expected(p, account)
    {
      if Expected(p, account) {
        var i :| OnItsWay(p, i) && Target(p, i) == account;
        assert OnItsWay(q, i) && Target(q, i) == account;
      }
      if Expected(q, account) {
        var i :| OnItsWay(q, i) && Target(q, i) == account;
        assert OnItsWay(p, i) && Target(p, i) == account;
      }
    }
  }

  /** From any reachable page that agrees, a step keeps the agreement exactly when it is neither of the two. */
  lemma AgreementKeptIff(p: Page, a: Action)
    requires Reachable(p) && Agree(p)
    ensures Agree(Apply(p, a)) <==> !Parts(p, a)
  {
    hide Agree, Handle, Expected, Reachable, SameWay;
    ReachableTidy(p);
    match a
    case Arrive(id, answer) => HeadersAgreeIff(p, id, answer);
    case Deliver(id) =>
      if FreshSuccess(p, id) && EndsGeneration(p.pending[id].kind) {
        NoticeTaken(p, id);
        NothingExpected(Respond(p, id));
      } else {
        OtherDeliveriesSameWay(p, id);
        SameWayAgrees(p, Respond(p, id));
      }
    case _ =>
      AskOrLoseSameWay(p, a);
      SameWayAgrees(p, Apply(p, a));
  }

  /** With nothing on its way, agreement is equality. */
  lemma NothingExpected(p: Page)
    requires forall i :: !OnItsWay(p, i)
    ensures Agree(p) <==> (p.generation > 0 ==> p.cookie == p.user)
  {
  }

  ghost predicate NeverParts(p: Page, actions: seq<Action>)
    decreases |actions|
  {
    actions == [] || (!Parts(p, actions[0]) && NeverParts(Apply(p, actions[0]), actions[1..]))
  }

  /**
   In a run without those steps, whenever no sign-in or sign-out is between its headers and its body, the page names
   the account whose cookie the browser holds.
   */
  lemma {:induction false} PageAndBrowserAgree(p: Page, actions: seq<Action>)
    requires Reachable(p) && Agree(p) && NeverParts(p, actions)
    ensures
      var q := Run(p, actions);
      Agree(q) && (q.generation > 0 && (forall i :: !OnItsWay(q, i)) ==> q.cookie == q.user)
    decreases |actions|
  {
    hide Agree, Apply, Parts, Reachable, OnItsWay;
    if actions != [] {
      AgreementKeptIff(p, actions[0]);
      ReachableNext(p, actions[0]);
      PageAndBrowserAgree(Apply(p, actions[0]), actions[1..]);
    } else if forall i :: !OnItsWay(p, i) {
      NothingExpected(p);
    }
  }

  lemma ReachableNext(p: Page, a: Action)
    requires Reachable(p)
    ensures Reachable(Apply(p, a))
  {
    hide Apply, Loaded;
    var cookie, actions :| p == Run(Loaded(cookie), actions);
    RunAppend(Loaded(cookie), actions, a);
  }

  // ---------- what a user can do, what the server answers ----------

  predicate IsSignIn(kind: Kind) {
    kind.Login? || kind.Register? || kind.Me?
  }

  /** What the server vouches for: /me answers for the cookie it got, and everything else needs a session. */
  predicate Honest(c: Call, answer: Answer) {
    answer.ok ==>
      if c.kind.Me? then c.viewer == Some(answer.user)
      else c.kind.Login? || c.kind.Register? || c.kind.Logout? || c.viewer.Some?
  }

  /** The sign-in form is on the page only while nobody is signed in, everything else only while somebody is. */
  predicate Offered(p: Page, kind: Kind) {
    kind.Login? || kind.Register? <==> !p.shown
  }

  predicate Proper(p: Page, a: Action) {
    match a
    case Ask(kind) => Offered(p, kind)
    case Arrive(id, answer) => id in p.pending ==> Honest(p.pending[id], answer)
    case _ => true
  }

  predicate ProperRun(p: Page, actions: seq<Action>)
    decreases |actions|
  {
    actions == [] || (Proper(p, actions[0]) && ProperRun(Apply(p, actions[0]), actions[1..]))
  }

  lemma {:induction false} RunAppend(p: Page, actions: seq<Action>, a: Action)
    ensures Run(p, actions + [a]) == Apply(Run(p, actions), a)
    ensures ProperRun(p, actions + [a]) <==> ProperRun(p, actions) && Proper(Run(p, actions), a)
    decreases |actions|
  {
    hide Apply, Proper;
    if actions == [] {
      assert actions + [a] == [a] && [a][1..] == [];
    } else {
      assert (actions + [a])[1..] == actions[1..] + [a];
      RunAppend(Apply(p, actions[0]), actions[1..], a);
    }
  }

  /** Some proper run of a freshly loaded page ends here. */
  ghost predicate ProperlyReached(p: Page) {
    exists cookie, actions :: ProperRun(Loaded(cookie), actions) && p == Run(Loaded(cookie), actions)
  }

  lemma ReachNext(p: Page, a: Action)
    requires ProperlyReached(p) && Proper(p, a)
    ensures ProperlyReached(Apply(p, a))
  {
    hide Apply, Proper, Loaded;
    var cookie, actions :| ProperRun(Loaded(cookie), actions) && p == Run(Loaded(cookie), actions);
    RunAppend(Loaded(cookie), actions, a);
  }

  lemma ReachLoaded()
    ensures ProperlyReached(Loaded(None))
  {
    assert ProperRun(Loaded(None), []) && Loaded(None) == Run(Loaded(None), []);
  }
}
